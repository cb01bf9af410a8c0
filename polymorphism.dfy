/**
 * The generic helpers of src/ch_4_functions.ts that loop over an array and push
 * into a fresh result array: `filterFunc`/`filterFunc_1` and
 * `map_unknown`/`map_generics`. The input array is only read, so it is a `seq`;
 * the result grows by appending, as `push` does.
 */
module Polymorphism {

  /** The elements of `a` that satisfy `f`, in their order in `a` (reference definition). */
  function Filtered<T>(a: seq<T>, f: T -> bool): (r: seq<T>)
    ensures |r| <= |a|
  {
    if a == [] then []
    else Filtered(a[..|a| - 1], f) + (if f(a[|a| - 1]) then [a[|a| - 1]] else [])
  }

  /** Filtering a concatenation filters each part: the kept elements stay in order. */
  lemma {:induction false} FilteredAppend<T>(a: seq<T>, b: seq<T>, f: T -> bool)
    ensures Filtered(a + b, f) == Filtered(a, f) + Filtered(b, f)
  {
    if b == [] {
      assert a + b == a;
    } else {
      var b' := b[..|b| - 1];
      assert (a + b)[..|a + b| - 1] == a + b';
      FilteredAppend(a, b', f);
    }
  }

  /** Only elements of `a` that satisfy `f` are kept. */
  lemma {:induction false} FilteredSound<T>(a: seq<T>, f: T -> bool, x: T)
    requires x in Filtered(a, f)
    ensures x in a && f(x)
  {
    var a' := a[..|a| - 1];
    if x in Filtered(a', f) {
      FilteredSound(a', f, x);
      assert a == a' + [a[|a| - 1]];
    }
  }

  /** Every element of `a` that satisfies `f` is kept. */
  lemma {:induction false} FilteredKeeps<T>(a: seq<T>, f: T -> bool, x: T)
    requires x in a && f(x)
    ensures x in Filtered(a, f)
  {
    var a' := a[..|a| - 1];
    if x == a[|a| - 1] {
    } else {
      assert a == a' + [a[|a| - 1]];
      FilteredKeeps(a', f, x);
    }
  }

  /** Each value occurs in the result exactly as often as in `a` if it satisfies `f`, and never otherwise. */
  lemma {:induction false} FilteredCount<T>(a: seq<T>, f: T -> bool, x: T)
    ensures multiset(Filtered(a, f))[x] == if f(x) then multiset(a)[x] else 0
  {
    if a != [] {
      var a' := a[..|a| - 1];
      assert a == a' + [a[|a| - 1]];
      FilteredCount(a', f, x);
    }
  }

  /** Filtering an already filtered sequence changes nothing. */
  lemma {:induction false} FilteredIdempotent<T>(a: seq<T>, f: T -> bool)
    ensures Filtered(Filtered(a, f), f) == Filtered(a, f)
  {
    if a != [] {
      var a' := a[..|a| - 1];
      var last := a[|a| - 1];
      FilteredIdempotent(a', f);
      var tail := if f(last) then [last] else [];
      FilteredAppend(Filtered(a', f), tail, f);
      assert Filtered(tail, f) == tail by {
        if f(last) {
          assert tail[..0] == [];
        }
      }
    }
  }

  /** When every element satisfies `f`, the result is the whole input. */
  lemma {:induction false} FilteredAll<T>(a: seq<T>, f: T -> bool)
    requires forall i :: 0 <= i < |a| ==> f(a[i])
    ensures Filtered(a, f) == a
  {
    if a != [] {
      FilteredAll(a[..|a| - 1], f);
    }
  }

  /**
   * `filterFunc` (and `filterFunc_1`, which has the same body): walk the array
   * by index and push every element on which `f` returns true.
   */
  method Filter<T>(a: seq<T>, f: T -> bool) returns (result: seq<T>)
    ensures result == Filtered(a, f)
    ensures |result| <= |a|
    ensures forall x :: x in result ==> f(x)
  {
    result := [];
    var i := 0;
    while i < |a|
      invariant 0 <= i <= |a|
      invariant result == Filtered(a[..i], f)
    {
      assert a[..i + 1][..i] == a[..i];
      if f(a[i]) {
        result := result + [a[i]];
      }
      i := i + 1;
    }
    assert a[..i] == a;
    forall x | x in result
      ensures f(x)
    {
      FilteredSound(a, f, x);
    }
  }

  /**
   * `map_unknown` and `map_generics` (the same loop, typed `unknown` or `T`):
   * push `f(e)` for every element `e` in order.
   */
  method Map<T, U>(a: seq<T>, f: T -> U) returns (result: seq<U>)
    ensures |result| == |a|
    ensures forall i :: 0 <= i < |a| ==> result[i] == f(a[i])
  {
    result := [];
    for i := 0 to |a|
      invariant |result| == i
      invariant forall j :: 0 <= j < i ==> result[j] == f(a[j])
    {
      result := result + [f(a[i])];
    }
  }

  /** The logged example: `filterFunc([1,2,3,4], _ => _ < 3)` gives `[1,2]`. */
  method FilterExample() returns (result: seq<int>)
    ensures result == [1, 2]
  {
    result := Filter([1, 2, 3, 4], LessThanThree);
    LessThanThreeFiltered();
  }

  /** The predicate of the logged example. */
  predicate LessThanThree(x: int) {
    x < 3
  }

  /** The reference filter of the logged example, unfolded one element at a time. */
  lemma LessThanThreeFiltered()
    ensures Filtered([1, 2, 3, 4], LessThanThree) == [1, 2]
  {
    var a := [1, 2, 3, 4];
    assert a[..3] == [1, 2, 3];
    assert a[..3][..2] == [1, 2];
    assert [1, 2][..1] == [1];
    assert [1][..0] == [];
  }

  /** The logged example: `map_generics([1,2,3,4], _ => _ + 3)` gives `[4,5,6,7]`. */
  method MapExample() returns (result: seq<int>)
    ensures result == [4, 5, 6, 7]
  {
    result := Map([1, 2, 3, 4], x => x + 3);
  }
}
