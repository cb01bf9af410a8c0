/**
 * The toy chess classes of src/ch_5_classes.ts: board positions with a per-axis
 * distance, pieces whose `moveTo`/`take` consult a legality rule before replacing
 * their position, and a game that owns a fixed roster of four pieces.
 *
 * The abstract `CPiece` with its subclasses `CKing` and `CQueen` becomes one class
 * `Piece` whose immutable `kind` selects the legality rule.
 */
module Chess {
  import opened Wrappers

  /** A file letter `A`..`H`; its character code is what the distance uses. */
  type FileLetter = c: char | 'A' <= c <= 'H' witness 'A'

  /** A rank `1`..`8`. */
  type Rank = r: int | 1 <= r <= 8 witness 1

  datatype Color = Black | White

  /** The concrete subclass of `CPiece`. */
  datatype Kind = King | Queen

  /** `CPosition`: an immutable board coordinate. */
  datatype Position = Position(file: FileLetter, rank: Rank)

  /** The record `{rank, file}` returned by `distanceFrom`. */
  datatype Distance = Distance(rank: nat, file: nat)

  /** The absolute value, as `Math.abs` computes it on integers. */
  function Abs(x: int): (r: nat)
    ensures r == x || r == -x
  {
    if x < 0 then -x else x
  }

  /**
   * `from.distanceFrom(to)`: the absolute rank difference and the absolute
   * difference of the file letters' character codes.
   */
  function DistanceFrom(from: Position, to: Position): (d: Distance)
    ensures from.rank + d.rank == to.rank || to.rank + d.rank == from.rank
    ensures from.file as int + d.file == to.file as int || to.file as int + d.file == from.file as int
    ensures d.rank <= 7 && d.file <= 7
    ensures d == Distance(0, 0) <==> from == to
  {
    Distance(Abs(to.rank - from.rank), Abs(to.file as int - from.file as int))
  }

  /** The distance does not depend on which of the two positions asks. */
  lemma DistanceSymmetric(p: Position, q: Position)
    ensures DistanceFrom(p, q) == DistanceFrom(q, p)
  {
  }

  /** A one-square king step, stated on signed differences (a reference for the king rule). */
  predicate Adjacent(p: Position, q: Position) {
    -1 <= q.rank - p.rank <= 1 && -1 <= q.file as int - p.file as int <= 1
  }

  /**
   * `canMoveTo` of the piece of the given kind standing on `from`:
   * `CKing` accepts both distance components below 2, `CQueen` both below 9.
   * On an 8x8 board the queen's rule accepts every target.
   */
  function CanMoveTo(kind: Kind, from: Position, to: Position): (ok: bool)
    ensures kind == King ==> (ok <==> Adjacent(from, to))
    ensures kind == Queen ==> ok
    ensures from == to ==> ok
  {
    var d := DistanceFrom(from, to);
    match kind
    case King => d.rank < 2 && d.file < 2
    case Queen => d.rank < 9 && d.file < 9
  }

  /** The legality rules are symmetric: a piece can go back where it came from. */
  lemma CanMoveToSymmetric(kind: Kind, p: Position, q: Position)
    ensures CanMoveTo(kind, p, q) == CanMoveTo(kind, q, p)
  {
    DistanceSymmetric(p, q);
  }

  /**
   * The position a piece of `kind` on `from` holds after `moveTo(to)` or `take(to)`:
   * the target when the rule accepts it, the old position otherwise (no error).
   */
  function Step(kind: Kind, from: Position, to: Position): (next: Position)
    ensures next == to || next == from
    ensures next == to <==> CanMoveTo(kind, from, to) || from == to
  {
    if CanMoveTo(kind, from, to) then to else from
  }

  /** Repeating the same move changes nothing more: a second `moveTo(to)` is a no-op. */
  lemma StepIdempotent(kind: Kind, from: Position, to: Position)
    ensures Step(kind, Step(kind, from, to), to) == Step(kind, from, to)
  {
  }

  /** A king never ends more than one square away from where it stood. */
  lemma KingStepStaysAdjacent(from: Position, to: Position)
    ensures Adjacent(from, Step(King, from, to))
  {
  }

  /** A queen always reaches its target. */
  lemma QueenStepReaches(from: Position, to: Position)
    ensures Step(Queen, from, to) == to
  {
  }

  /** A king on E2 may move to E3 but not to E4. */
  lemma KingRuleExample()
    ensures CanMoveTo(King, Position('E', 2), Position('E', 3))
    ensures !CanMoveTo(King, Position('E', 2), Position('E', 4))
  {
  }

  /** `CPiece` with its subclass chosen by `kind`; `color` is read-only as in the source. */
  class Piece {
    const kind: Kind
    const color: Color
    var position: Position

    constructor (kind: Kind, color: Color, file: FileLetter, rank: Rank)
      ensures this.kind == kind && this.color == color
      ensures position == Position(file, rank)
    {
      this.kind := kind;
      this.color := color;
      position := Position(file, rank);
    }

    /** `moveTo`: replace the position only when `canMoveTo` accepts the target. */
    method MoveTo(target: Position)
      modifies this
      ensures position == Step(kind, old(position), target)
      ensures CanMoveTo(kind, old(position), target) ==> position == target
      ensures !CanMoveTo(kind, old(position), target) ==> position == old(position)
    {
      if CanMoveTo(kind, position, target) {
        position := target;
      }
    }

    /**
     * `take`: the base class repeats the `moveTo` logic, and the `CKing` and
     * `CQueen` overrides only log before calling it, so every piece takes as it moves.
     */
    method Take(target: Position)
      modifies this
      ensures position == Step(kind, old(position), target)
      ensures CanMoveTo(kind, old(position), target) ==> position == target
      ensures !CanMoveTo(kind, old(position), target) ==> position == old(position)
    {
      if CanMoveTo(kind, position, target) {
        position := target;
      }
    }
  }

  /** The description of one roster entry: subclass, colour and starting square. */
  datatype Setup = Setup(kind: Kind, color: Color, start: Position)

  /** The roster `CGame.makePieces` builds, in its order. */
  const InitialRoster: seq<Setup> := [
    Setup(King, White, Position('E', 1)),
    Setup(King, Black, Position('E', 8)),
    Setup(Queen, White, Position('D', 1)),
    Setup(Queen, Black, Position('D', 8))
  ]

  /** The roster places its four pieces on distinct squares, kings on file E and queens on file D. */
  lemma InitialRosterDistinctSquares()
    ensures |InitialRoster| == 4
    ensures forall i, j :: 0 <= i < j < 4 ==> InitialRoster[i].start != InitialRoster[j].start
    ensures forall i :: 0 <= i < 4 ==> InitialRoster[i].start.file == (if InitialRoster[i].kind == King then 'E' else 'D')
  {
  }

  /** `CGame`: owns four distinct pieces, created once. */
  class Game {
    const pieces: seq<Piece>

    /** The roster's shape never changes: kinds and colours are read-only fields. */
    ghost predicate Valid() {
      |pieces| == 4 &&
      (forall i :: 0 <= i < 4 ==> pieces[i].kind == InitialRoster[i].kind && pieces[i].color == InitialRoster[i].color) &&
      (forall i, j :: 0 <= i < j < 4 ==> pieces[i] != pieces[j])
    }

    /** `CGame.makePieces`: four new pieces as listed in `InitialRoster`. */
    static method MakePieces() returns (ps: seq<Piece>)
      ensures |ps| == 4
      ensures forall i :: 0 <= i < 4 ==> fresh(ps[i])
      ensures forall i :: 0 <= i < 4 ==>
        ps[i].kind == InitialRoster[i].kind && ps[i].color == InitialRoster[i].color && ps[i].position == InitialRoster[i].start
      ensures forall i, j :: 0 <= i < j < 4 ==> ps[i] != ps[j]
    {
      var whiteKing := new Piece(King, White, 'E', 1);
      var blackKing := new Piece(King, Black, 'E', 8);
      var whiteQueen := new Piece(Queen, White, 'D', 1);
      var blackQueen := new Piece(Queen, Black, 'D', 8);
      ps := [whiteKing, blackKing, whiteQueen, blackQueen];
    }

    constructor ()
      ensures Valid()
      ensures forall i :: 0 <= i < 4 ==> fresh(pieces[i]) && pieces[i].position == InitialRoster[i].start
    {
      var ps := MakePieces();
      pieces := ps;
    }

    /**
     * `getPiece(i)`: the piece at index `i` of the roster; the source does no
     * bounds check, so an index outside the roster yields `undefined` (None).
     */
    method GetPiece(index: int) returns (piece: Option<Piece>)
      requires Valid()
      ensures 0 <= index < 4 ==> piece.Some? && piece.value == pieces[index]
      ensures !(0 <= index < 4) ==> piece == None
    {
      if 0 <= index < |pieces| {
        piece := Some(pieces[index]);
      } else {
        piece := None;
      }
    }
  }

  /**
   * The script after the class declarations: the white king moves E1 to E2, the
   * white queen D1 to D2, then both `take` the square they already stand on.
   * Returns the final squares of every roster piece.
   */
  method PlayOpening() returns (squares: seq<Position>)
    ensures squares == [Position('E', 2), Position('E', 8), Position('D', 2), Position('D', 8)]
  {
    var game := new Game();
    var king := game.GetPiece(0);
    king.value.MoveTo(Position('E', 2));
    var queen := game.GetPiece(2);
    queen.value.MoveTo(Position('D', 2));
    king := game.GetPiece(0);
    king.value.Take(Position('E', 2));
    queen := game.GetPiece(2);
    queen.value.Take(Position('D', 2));
    squares := [game.pieces[0].position, game.pieces[1].position, game.pieces[2].position, game.pieces[3].position];
  }

  /** The king on E1 cannot jump to E8: the illegal move leaves it on E1. */
  method IllegalKingMove() returns (square: Position)
    ensures square == Position('E', 1)
  {
    var game := new Game();
    var king := game.GetPiece(0);
    king.value.MoveTo(Position('E', 8));
    square := king.value.position;
  }
}
