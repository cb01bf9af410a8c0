/**
 * `createFibonacciGenerator` of src/ch_4_functions.ts: a generator that starts
 * with `a = 0, b = 1` and, forever, yields `a` and then steps `[a, b] = [b, a + b]`.
 * The suspended generator becomes an object holding `a`, `b` and whether the body
 * has started; one `next()` call is one call of `Next`.
 */
module Fibonacci {

  /** The Fibonacci numbers, `Fib(0) = 0`, `Fib(1) = 1`. */
  function Fib(n: nat): nat {
    if n < 2 then n else Fib(n - 2) + Fib(n - 1)
  }

  /** The sequence never decreases. */
  lemma {:induction false} FibMonotone(m: nat, n: nat)
    requires m <= n
    ensures Fib(m) <= Fib(n)
  {
    if m < n {
      FibMonotone(m, n - 1);
      if n >= 2 {
        assert Fib(n) == Fib(n - 2) + Fib(n - 1);
      }
    }
  }

  /** The iterator result `{ value, done }` that `next()` returns. */
  datatype IteratorResult = IteratorResult(value: int, done: bool)

  class FibonacciGenerator {
    var a: int
    var b: int
    /** Whether the generator body has run up to its first `yield`. */
    var started: bool
    /** How many values `next()` has produced so far. */
    ghost var yielded: nat

    /** Index of the Fibonacci number currently held in `a`. */
    ghost function Index(): nat
      reads this
    {
      if yielded == 0 then 0 else yielded - 1
    }

    /** `(a, b)` is always a consecutive Fibonacci pair. */
    ghost predicate Valid()
      reads this
    {
      (started <==> yielded > 0) && a == Fib(Index()) && b == Fib(Index() + 1)
    }

    /** `createFibonacciGenerator()`: nothing has run yet. */
    constructor ()
      ensures Valid() && yielded == 0
    {
      a, b := 0, 1;
      started := false;
      yielded := 0;
    }

    /**
     * `next()`: the first call runs to the first `yield a`; every later call
     * steps `[a, b] = [b, a + b]` and yields the new `a`. The k-th value
     * (counting from 0) is `Fib(k)`; the body never returns, so `done` is
     * always false.
     */
    method Next() returns (result: IteratorResult)
      requires Valid()
      modifies this
      ensures Valid() && yielded == old(yielded) + 1
      ensures result.value == Fib(old(yielded)) && !result.done
      ensures a == result.value
    {
      if started {
        a, b := b, a + b;
      } else {
        started := true;
      }
      yielded := yielded + 1;
      result := IteratorResult(a, false);
    }
  }

  /** The first `n` values a fresh generator yields. */
  method FirstValues(n: nat) returns (values: seq<int>)
    ensures |values| == n
    ensures forall i :: 0 <= i < n ==> values[i] == Fib(i)
  {
    var gen := new FibonacciGenerator();
    values := [];
    for i := 0 to n
      invariant gen.Valid() && gen.yielded == i
      invariant |values| == i
      invariant forall j :: 0 <= j < i ==> values[j] == Fib(j)
    {
      var r := gen.Next();
      values := values + [r.value];
    }
  }

  /** The four results the script's `next()` calls log: values 0, 1, 1, 2, none of them done. */
  method FirstFour() returns (results: seq<IteratorResult>)
    ensures results == [IteratorResult(0, false), IteratorResult(1, false), IteratorResult(1, false), IteratorResult(2, false)]
  {
    var gen := new FibonacciGenerator();
    var r0 := gen.Next();
    var r1 := gen.Next();
    var r2 := gen.Next();
    var r3 := gen.Next();
    assert Fib(2) == 1 && Fib(3) == 2;
    results := [r0, r1, r2, r3];
  }
}
