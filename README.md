# Verified model of the TypeScript teaching scripts `ch_4_functions` and `ch_5_classes`

The repository is a set of TypeScript scripts that each demonstrate one language
feature. Two of them hold small pieces of behaviour that can be stated and proved,
and this Dafny project models them:

- `src/ch_5_classes.ts`: a toy chess object model; a chainable number set; a fluent
  request builder.
  - The chess model has board positions (`CPosition`) with a per-axis distance.
  - Pieces (`CPiece`, with the subclasses `CKing` and `CQueen`) have `moveTo`/`take`.
    These replace the piece's position only when the piece's `canMoveTo` rule
    accepts the target, and are silently ignored otherwise.
  - A game (`CGame`) owns a fixed roster of four pieces.
  - The number set is `CSet` plus `CSetWithDelete`, stored as the keys of a `Map`.
  - The request builder is `CRequestBuilder`.
- `src/ch_4_functions.ts`: the "add one" functions `f1`–`f4`; the rest-parameter sum
  `f8`; the loop-based generic `filterFunc`/`filterFunc_1` and
  `map_unknown`/`map_generics`; the Fibonacci generator; the overloaded functions
  `OverloadedFunc_1` and `OverloadedFunc_2`; the function objects with a
  `bWasCalled` property; and `mapNode`.

JavaScript `number` is modelled as the unbounded `int` throughout. Every operation
modelled is integer arithmetic, comparison or string equality.

Files and modules:

| file | module | models |
|---|---|---|
| `wrappers.dfy` | `Wrappers` | `Option`, for omitted optional parameters and `undefined` |
| `chess.dfy` | `Chess` | `CPosition`, `CPiece`/`CKing`/`CQueen`, `CGame` |
| `chainable_set.dfy` | `ChainableSet` | `CSet`, `CSetWithDelete` |
| `request_builder.dfy` | `Builder` | `CRequestBuilder` |
| `polymorphism.dfy` | `Polymorphism` | `filterFunc`, `filterFunc_1`, `map_unknown`, `map_generics` |
| `fibonacci.dfy` | `Fibonacci` | `createFibonacciGenerator` |
| `function_styles.dfy` | `FunctionStyles` | `f1`–`f4`, `f8`, the overloads, `funcWithProperty`/`funcWithProperty_1`, `mapNode` |

Modelling choices:

- **Pieces.** The abstract class `CPiece` and its two subclasses become one class
  `Piece`. Its read-only `kind` (`King` or `Queen`) selects the legality rule.
- **Legality and moves as functions.** `canMoveTo` is the pure function
  `CanMoveTo(kind, from, to)`. The position after a move is the function `Step`,
  which `MoveTo` and `Take` are proved against.
- **File letters.** A file stays a character `'A'..'H'`, so the file distance is the
  difference of character codes, as `charCodeAt(0)` gives it.
- **The queen rule.** The code's queen rule accepts both distances `< 9`. On the board
  every distance is at most 7, so this rule accepts every target; the model proves
  that rather than replacing the rule.
- **Out-of-range `getPiece`.** `getPiece` indexes a JavaScript array without a bounds
  check. An index outside the roster yields `undefined` and does not throw, so
  `GetPiece` returns an `Option` and gives `None` there.
- **Delete only on the derived set.** `CSetWithDelete` adds only `delete`. The model
  has one class `NumberSet` whose read-only `canDelete` is fixed by the constructor
  (`NumberSet()` for `new CSet()`, `NumberSet.WithDelete()` for
  `new CSetWithDelete()`), and `Delete` requires it. This mirrors the fact that
  TypeScript only lets `delete` be called on a `CSetWithDelete`.
- **The Fibonacci generator.** The suspended generator becomes an object that holds
  `a`, `b` and a flag saying whether its body has reached the first `yield`.
  `Next` is one `next()` call and returns the iterator result `{ value, done }`;
  `done` is always false because the generator body never returns.
- **Function objects.** `funcWithProperty` and `funcWithProperty_1` are two instances
  of `FlaggedFunction`, each with its own flag. Nothing sets
  `funcWithProperty_1.bWasCalled` before its first call (the external assignment at
  line 274 comes after the two calls), so it starts `undefined`. That is falsy, so it
  behaves as `false`; the first call then sets it at line 268.
- **Duplicated code.** `filterFunc` and `filterFunc_1` have identical bodies (lines
  283-292 and 297-307), so `Polymorphism.Filter` models both. Likewise
  `map_unknown` and `map_generics` (lines 312-320 and 322-330) are both
  `Polymorphism.Map`, and `f1`–`f4` are all `FunctionStyles.PlusOne`.

## Model

| member | source | states |
|---|---|---|
| `Chess.DistanceFrom` | src/ch_5_classes.ts:17-22 | each component is the absolute difference (rank; file character code); both are at most 7 on the board; the distance is zero exactly for the same position |
| `Chess.DistanceSymmetric` | src/ch_5_classes.ts:17-22 | `p.distanceFrom(q)` equals `q.distanceFrom(p)` |
| `Chess.CanMoveTo` | src/ch_5_classes.ts:68-89 | the king's rule (`< 2` on both axes) holds iff the target is at most one square away on each axis; the queen's rule (`< 9`) accepts every target on the board; staying put is always legal |
| `Chess.CanMoveToSymmetric` | src/ch_5_classes.ts:68-89 | a piece that may move from p to q may move back from q to p |
| `Chess.Step` | src/ch_5_classes.ts:38-44 | the position after a move is the target or the old position, and it is the target exactly when `canMoveTo` accepts it (or it was already there) |
| `Chess.StepIdempotent` | src/ch_5_classes.ts:38-44 | repeating the same `moveTo` changes nothing further |
| `Chess.KingStepStaysAdjacent` | src/ch_5_classes.ts:68-73 | after any `moveTo`, a king is at most one square from where it stood |
| `Chess.QueenStepReaches` | src/ch_5_classes.ts:84-89 | a queen's `moveTo` always reaches its target |
| `Chess.KingRuleExample` | src/ch_5_classes.ts:68-73 | a king on E2 may move to E3 and may not move to E4 |
| `Chess.Piece.constructor` | src/ch_5_classes.ts:29-36 | a new piece has the given colour and kind and stands on the given file and rank |
| `Chess.Piece.MoveTo` | src/ch_5_classes.ts:38-44 | the position becomes the target when `canMoveTo` accepts it and is otherwise unchanged, with no error; kind and colour are read-only |
| `Chess.Piece.Take` | src/ch_5_classes.ts:46-52 | same effect as `moveTo`, which is also what the `CKing`/`CQueen` overrides at lines 75-79 and 90-94 do after logging |
| `Chess.InitialRosterDistinctSquares` | src/ch_5_classes.ts:106-114 | the four starting squares are distinct, with kings on file E and queens on file D |
| `Chess.Game.MakePieces` | src/ch_5_classes.ts:106-114 | four new, distinct pieces in the order White King E1, Black King E8, White Queen D1, Black Queen D8 |
| `Chess.Game.constructor` | src/ch_5_classes.ts:103-104 | the game holds the roster `makePieces` builds, each piece on its starting square |
| `Chess.Game.GetPiece` | src/ch_5_classes.ts:119-121 | for a game whose roster is intact, a piece for every index 0..3 (the roster element) and `undefined` (None) for any other index |
| `Chess.PlayOpening` | src/ch_5_classes.ts:124-130 | after the script's moves and takes, the white king is on E2, the white queen on D2, and the black pieces have not moved |
| `Chess.IllegalKingMove` | src/ch_5_classes.ts:41-43 | the king on E1 told to move to E8 stays on E1 |
| `ChainableSet.Insert` | src/ch_5_classes.ts:143-148 | after `add(v)` the keys are the old keys plus v; existing entries are untouched; adding a present value changes nothing |
| `ChainableSet.Remove` | src/ch_5_classes.ts:168-173 | after `delete(v)` the keys are the old keys minus v; other entries are untouched; deleting an absent value changes nothing |
| `ChainableSet.InsertIdempotent` | src/ch_5_classes.ts:144-146 | adding a value twice is adding it once |
| `ChainableSet.RemoveIdempotent` | src/ch_5_classes.ts:169-171 | deleting a value twice is deleting it once |
| `ChainableSet.RemoveUndoesInsert` | src/ch_5_classes.ts:168-173 | deleting a value just added to a set that lacked it restores the set |
| `ChainableSet.NumberSet.constructor` | src/ch_5_classes.ts:137-138 | `new CSet()` is empty and offers no `delete` |
| `ChainableSet.NumberSet.WithDelete` | src/ch_5_classes.ts:167-174 | `new CSetWithDelete()` is empty and offers `delete` |
| `ChainableSet.NumberSet.Has` | src/ch_5_classes.ts:139-141 | true exactly for the values in the set |
| `ChainableSet.NumberSet.Add` | src/ch_5_classes.ts:143-148 | the set gains exactly v, keeps every value `true`, and `this` is returned for chaining |
| `ChainableSet.NumberSet.Delete` | src/ch_5_classes.ts:168-173 | the set loses exactly v, and `this` is returned for chaining |
| `ChainableSet.AddThreeDeleteTwo` | src/ch_5_classes.ts:177-183 | `add(1).add(2).add(3)` then `delete(2)` leaves exactly {1, 3} |
| `ChainableSet.AddTwiceStoresOnce` | src/ch_5_classes.ts:143-148 | `add(1).add(1)` stores a single entry and `has(1)` holds |
| `ChainableSet.DeleteKeepsOthers` | src/ch_5_classes.ts:168-173 | `add(1).add(2).delete(1)` has 2 and does not have 1 |
| `Builder.RequestBuilder.constructor` | src/ch_5_classes.ts:361-363 | URL and method both start as `null` |
| `Builder.RequestBuilder.SetUrl` | src/ch_5_classes.ts:365-368 | sets the URL, leaves the method, returns `this` |
| `Builder.RequestBuilder.SetMethod` | src/ch_5_classes.ts:369-372 | sets the method, leaves the URL, returns `this` |
| `Builder.BuildExample` | src/ch_5_classes.ts:379-382 | `setMethod('get').setUrl('http://www.url.com')` yields that URL and method `get` |
| `Builder.SettersCommute` | src/ch_5_classes.ts:365-372 | chaining the two setters in either order builds the same request |
| `Builder.LastUrlWins` | src/ch_5_classes.ts:365-368 | a second `setUrl` overrides the first |
| `Polymorphism.Filtered` | src/ch_4_functions.ts:283-292 | the reference filter (the elements satisfying `f`, in input order) is no longer than the input |
| `Polymorphism.FilteredAppend` | src/ch_4_functions.ts:297-307 | filtering a concatenation is the concatenation of the filtered parts, so the kept elements stay in input order |
| `Polymorphism.FilteredSound` | src/ch_4_functions.ts:297-307 | every element of the result is an input element that satisfies `f` |
| `Polymorphism.FilteredKeeps` | src/ch_4_functions.ts:297-307 | every input element that satisfies `f` appears in the result |
| `Polymorphism.FilteredCount` | src/ch_4_functions.ts:297-307 | each value occurs in the result as often as in the input if it satisfies `f`, and not at all otherwise |
| `Polymorphism.FilteredIdempotent` | src/ch_4_functions.ts:297-307 | filtering twice with the same predicate is filtering once |
| `Polymorphism.FilteredAll` | src/ch_4_functions.ts:297-307 | when every element satisfies `f`, the result is the input |
| `Polymorphism.Filter` | src/ch_4_functions.ts:283-292 | the loop returns the reference filter of the input (so, by `FilteredSound`, `FilteredKeeps` and `FilteredCount`, exactly the input elements satisfying `f`, in order); every output element satisfies `f`; output length is at most input length |
| `Polymorphism.Map` | src/ch_4_functions.ts:312-330 | the output has the input's length and holds `f(a[i])` at every index i |
| `Polymorphism.FilterExample` | src/ch_4_functions.ts:294 | `filterFunc([1,2,3,4], _ => _ < 3)` is `[1,2]` |
| `Polymorphism.LessThanThreeFiltered` | src/ch_4_functions.ts:294 | the reference filter of `[1,2,3,4]` with `_ < 3` is `[1,2]` |
| `Polymorphism.MapExample` | src/ch_4_functions.ts:332 | `map_generics([1,2,3,4], _ => _ + 3)` is `[4,5,6,7]` |
| `Fibonacci.FibMonotone` | src/ch_4_functions.ts:66-74 | the values the generator yields never decrease |
| `Fibonacci.FibonacciGenerator.constructor` | src/ch_4_functions.ts:66-69 | a new generator has yielded nothing and holds `(a, b) = (0, 1)` |
| `Fibonacci.FibonacciGenerator.Next` | src/ch_4_functions.ts:70-73 | the k-th call (from 0) returns the result with `value` `Fib(k)` and `done` false, and `(a, b)` stays a consecutive Fibonacci pair |
| `Fibonacci.FirstValues` | src/ch_4_functions.ts:66-74 | the first n values from a new generator are `Fib(0)`, …, `Fib(n-1)` |
| `Fibonacci.FirstFour` | src/ch_4_functions.ts:76-81 | the four logged results have `value` fields 0, 1, 1, 2 and are not done |
| `FunctionStyles.PlusOne` | src/ch_4_functions.ts:5-21 | `f1`–`f4` return `p1 + 1` |
| `FunctionStyles.ReduceSum` | src/ch_4_functions.ts:42 | the `reduce((total, n) => total + n, 0)` left fold, with its initial value generalised to any `total` (`SumRest` passes 0), yields that initial value plus the sum of the elements |
| `FunctionStyles.SumConcat` | src/ch_4_functions.ts:42 | the sum of a concatenation is the sum of the sums |
| `FunctionStyles.SumRest` | src/ch_4_functions.ts:41-43 | `f8(p1, ...numbers)` is `p1` plus the sum of `numbers`, and just `p1` with no rest arguments |
| `FunctionStyles.SumRestAppend` | src/ch_4_functions.ts:41-43 | one more rest argument adds its value to the result |
| `FunctionStyles.Overloaded1` | src/ch_4_functions.ts:157-167 | `n1 + n2 + 10`, where an omitted `n2` counts as 0 |
| `FunctionStyles.Overloaded1ZeroIsOmitted` | src/ch_4_functions.ts:157-167 | passing 0 for `n2` equals omitting it |
| `FunctionStyles.Overloaded2` | src/ch_4_functions.ts:175-192 | a number gives `n + 20`; the string `'1'` with `n2` gives `1 - n2 - 20`; another string with `n2` gives `-n2 - 20`; a string without `n2` gives `-1000` |
| `FunctionStyles.Overloaded2Examples` | src/ch_4_functions.ts:194-195 | the two logged calls give 21 and -20 |
| `FunctionStyles.FlaggedFunction.constructor` | src/ch_4_functions.ts:254 | the flag starts `false` |
| `FunctionStyles.FlaggedFunction.Call` | src/ch_4_functions.ts:247-253 | returns 0 and sets the flag when it was clear, returns 1 when it was set; the flag is set afterwards (also `funcWithProperty_1`, lines 264-270) |
| `FunctionStyles.FlaggedFunction.Reset` | src/ch_4_functions.ts:274 | the flag is cleared |
| `FunctionStyles.CallTwiceThenReset` | src/ch_4_functions.ts:256-274 | two calls give 0 then 1; after a reset the next call gives 0 |
| `FunctionStyles.MapNode` | src/ch_4_functions.ts:350-355 | the copy has `f(value)` as its value and keeps the node's shape and children |
| `FunctionStyles.MapNodeIdentity` | src/ch_4_functions.ts:350-355 | mapping with the identity returns an equal node |
| `FunctionStyles.MapNodeCompose` | src/ch_4_functions.ts:350-355 | two `mapNode` calls equal one call with the composed function |

## Left out

- All `console.log` traces, and the helpers `print_by_for`, `print_by_forEach` and
  `CRequestBuilder.print`. They only produce output.
- `CGame.start`. It only logs.
- The enumeration order of the `Map` behind `CSet`. Only the print helpers observe it,
  so the model keeps the entries as a Dafny `map` (keys and values, no order).
- `f5`, which builds a function from source text at run time.
- `fancyDate`, which uses the `Date` library.
- The `add.call`/`apply`/`bind` demonstrations.
- `f6` and `f7`, which only log their arguments.
- `run_n_times` and `run_n_times_1`, which only log.
- `sumFunc`, `TransNumFunct`, `TransNumFunct_1` and `add`. These are one-line
  additions used to show call-signature syntax.
- The `numbers` iterator object. It demonstrates the iteration protocol syntax.
- `OverloadFunc_3` and `OverloadFunc_3_1`. They are type-level overload demonstrations
  that return their argument (or -1).
- The `withEzDebug` mixin (it relies on `constructor.name` and `JSON.stringify`),
  `CUser`, `CFinalClass`, the `Shoe` factory, `CB`, and the interface and type-alias
  declarations. None of these has behaviour to state.
- `src/ch_3_types.ts` and `src/ch_6_advanced_types.ts` are not part of this model.
  They hold literal assignments, enum demonstrations and compile-time type
  constructions.
- Floating-point semantics of JavaScript numbers, including the precision loss of
  large Fibonacci values.
- Callbacks given to `filterFunc`, `map_generics` and `mapNode` are modelled as pure
  functions. Side effects and exceptions inside a callback are not modelled.
- `FunctionStyles.MapNode`: a `T extends TreeNode` may carry arbitrary extra fields.
  The model covers the three node shapes declared in the file; for those, the
  spread keeps every field. The spread is a shallow copy, so in the source the result
  shares the `children` array object with the input; the model's `seq` value does not
  capture that sharing. Nothing in the file mutates `children`, so no behaviour
  depends on it.
