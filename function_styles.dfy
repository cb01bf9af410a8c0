/**
 * The expression-only functions of src/ch_4_functions.ts: the four spellings of
 * "add one", the rest-parameter sum, the two overloaded functions, the function
 * carrying a `bWasCalled` property, and `mapNode`. JavaScript numbers are
 * modelled as unbounded integers.
 */
module FunctionStyles {
  import opened Wrappers

  /**
   * `f1`, `f2`, `f3` and `f4`: a function declaration, a function expression, an
   * arrow function with a block body and one with an expression body, all
   * returning `p1 + 1`.
   */
  function PlusOne(p1: int): (r: int)
    ensures r == p1 + 1
  {
    p1 + 1
  }

  /** The sum of a sequence, element by element from the front (reference definition). */
  function Sum(s: seq<int>): int {
    if s == [] then 0 else s[0] + Sum(s[1..])
  }

  /**
   * `numbers.reduce((total, n) => total + n, 0)`: a left fold, which adds up
   * exactly the elements on top of the initial value. The initial value is
   * generalised to any `total`; `SumRest` passes 0, as the source does.
   */
  function ReduceSum(numbers: seq<int>, total: int): (r: int)
    ensures r == total + Sum(numbers)
  {
    if numbers == [] then total else ReduceSum(numbers[1..], total + numbers[0])
  }

  /** Summing a concatenation adds the sums of the parts. */
  lemma {:induction false} SumConcat(xs: seq<int>, ys: seq<int>)
    ensures Sum(xs + ys) == Sum(xs) + Sum(ys)
  {
    if xs == [] {
      assert xs + ys == ys;
    } else {
      assert (xs + ys)[1..] == xs[1..] + ys;
      SumConcat(xs[1..], ys);
    }
  }

  /** `f8(p1, ...numbers)`: `p1` plus the sum of the rest parameters. */
  function SumRest(p1: int, numbers: seq<int>): (r: int)
    ensures r == p1 + Sum(numbers)
    ensures numbers == [] ==> r == p1
  {
    p1 + ReduceSum(numbers, 0)
  }

  /** One more rest argument adds its value to the result. */
  lemma SumRestAppend(p1: int, numbers: seq<int>, n: int)
    ensures SumRest(p1, numbers + [n]) == SumRest(p1, numbers) + n
  {
    SumConcat(numbers, [n]);
    assert Sum([n]) == n + Sum([]);
  }

  /**
   * `OverloadedFunc_1(n1, n2?)`: `n1 + n2 + 10` when `n2` is given and `n1 + 10`
   * otherwise, so an omitted `n2` counts as 0.
   */
  function Overloaded1(n1: int, n2: Option<int>): (r: int)
    ensures r == n1 + n2.GetOr(0) + 10
  {
    if n2.Some? then n1 + n2.value + 10 else n1 + 10
  }

  /** Passing 0 for `n2` is the same as omitting it. */
  lemma Overloaded1ZeroIsOmitted(n1: int)
    ensures Overloaded1(n1, Some(0)) == Overloaded1(n1, None)
  {
  }

  /** The union type `number | string` of the first parameter of `OverloadedFunc_2`. */
  datatype NumOrString = Num(n: int) | Str(s: string)

  /**
   * `OverloadedFunc_2(nORs, n2?)`: a number gives `n + 20` (whatever `n2` is); a
   * string with `n2` gives `1 - n2 - 20` for the string `'1'` and `-n2 - 20` for any
   * other string; a string without `n2` gives `-1000`.
   */
  function Overloaded2(nOrS: NumOrString, n2: Option<int>): (r: int)
    ensures nOrS.Num? ==> r == nOrS.n + 20
    ensures nOrS.Str? && n2.Some? ==> r == (if nOrS.s == "1" then 1 else 0) - n2.value - 20
    ensures nOrS.Str? && n2.None? ==> r == -1000
  {
    match nOrS
    case Num(n) => n + 20
    case Str(s) =>
      if n2.Some? then
        if s == "1" then 1 - n2.value - 20 else -n2.value - 20
      else
        -1000
  }

  /** The two logged calls: `OverloadedFunc_2(1) == 21` and `OverloadedFunc_2("1", 1) == -20`. */
  lemma Overloaded2Examples()
    ensures Overloaded2(Num(1), None) == 21
    ensures Overloaded2(Str("1"), Some(1)) == -20
  {
  }

  /**
   * A function object carrying the property `bWasCalled`
   * (`funcWithProperty` and `funcWithProperty_1` are two such objects).
   */
  class FlaggedFunction {
    var wasCalled: bool

    /**
     * The flag starts clear. `funcWithProperty.bWasCalled` is set to `false`
     * before the first call. Nothing sets `funcWithProperty_1.bWasCalled` before
     * its first call (the external assignment at line 274 comes after the two
     * calls), so it starts `undefined`; that is falsy, so it behaves as `false`,
     * and the first call then sets it at line 268.
     */
    constructor ()
      ensures !wasCalled
    {
      wasCalled := false;
    }

    /** A call: 1 once the flag is set; otherwise set it and return 0. */
    method Call() returns (r: int)
      modifies this
      ensures wasCalled
      ensures r == if old(wasCalled) then 1 else 0
    {
      if wasCalled {
        return 1;
      }
      wasCalled := true;
      return 0;
    }

    /** The assignment `bWasCalled = false` from outside the function. */
    method Reset()
      modifies this
      ensures !wasCalled
    {
      wasCalled := false;
    }
  }

  /**
   * The script's calls: two calls give 0 then 1; after the flag is reset the
   * next call gives 0 again.
   */
  method CallTwiceThenReset() returns (first: int, second: int, afterReset: int)
    ensures first == 0 && second == 1 && afterReset == 0
  {
    var func := new FlaggedFunction();
    first := func.Call();
    second := func.Call();
    func.Reset();
    afterReset := func.Call();
  }

  /**
   * The node shapes `mapNode` accepts: a plain `TreeNode`, a `LeafNode`
   * (`isLeaf: true`) and an `InnerNode` with one or two children.
   */
  datatype TreeNode =
    | Node(value: string)
    | Leaf(value: string)
    | Inner(value: string, children: seq<TreeNode>)

  /** An inner node has one or two children. */
  predicate WellShaped(node: TreeNode) {
    node.Inner? ==> 1 <= |node.children| <= 2
  }

  /**
   * `mapNode(node, f)`: a copy of the node (`{...node}`) whose `value` is `f(value)`;
   * the node keeps its shape and every other field, children included.
   */
  function MapNode(node: TreeNode, f: string -> string): (r: TreeNode)
    ensures r.value == f(node.value)
    ensures r.Node? == node.Node? && r.Leaf? == node.Leaf? && r.Inner? == node.Inner?
    ensures r.Inner? ==> r.children == node.children
    ensures WellShaped(r) <==> WellShaped(node)
  {
    node.(value := f(node.value))
  }

  /** Mapping with the identity gives back an equal node. */
  lemma MapNodeIdentity(node: TreeNode)
    ensures MapNode(node, s => s) == node
  {
  }

  /** Two `mapNode` calls in a row are one call with the composed function. */
  lemma MapNodeCompose(node: TreeNode, f: string -> string, g: string -> string)
    ensures MapNode(MapNode(node, f), g) == MapNode(node, s => g(f(s)))
  {
  }
}
