/** LINQ's `Enumerable.Sum(source, selector)` over `int`, which .NET evaluates in checked arithmetic. */
module Aggregation {
  import opened Wrappers
  import opened CSharpInt

  /** The mathematical sum of f over xs, added up from the front. */
  function Sum<T>(xs: seq<T>, f: T -> int): int {
    if xs == [] then 0 else Sum(xs[..|xs| - 1], f) + f(xs[|xs| - 1])
  }

  /** Every running total of the left-to-right sum fits in an int. */
  predicate PrefixSumsFit<T>(xs: seq<T>, f: T -> int) {
    forall k :: 0 <= k <= |xs| ==> InInt32(Sum(xs[..k], f))
  }

  /**
   * `xs.Sum(f)`: the running total is kept in an `int` inside a `checked` block,
   * so the call throws (None here) as soon as a running total leaves the int range,
   * and otherwise returns the sum.
   */
  function CheckedSum<T>(xs: seq<T>, f: T -> int): (r: Option<int>)
    ensures r.Some? <==> PrefixSumsFit(xs, f)
    ensures r.Some? ==> r.value == Sum(xs, f)
  {
    if xs == [] then
      assert xs[..0] == xs;
      Some(0)
    else
      var init := xs[..|xs| - 1];
      PrefixSumsFitInit(xs, f);
      match CheckedSum(init, f)
      case None => None
      case Some(p) =>
        if InInt32(p + f(xs[|xs| - 1])) then Some(p + f(xs[|xs| - 1])) else None
  }

  /** The running totals of xs fit exactly when those of its initial part do and so does the full sum. */
  lemma PrefixSumsFitInit<T>(xs: seq<T>, f: T -> int)
    requires xs != []
    ensures PrefixSumsFit(xs, f) <==> PrefixSumsFit(xs[..|xs| - 1], f) && InInt32(Sum(xs, f))
  {
    var init := xs[..|xs| - 1];
    assert xs[..|xs|] == xs;
    if PrefixSumsFit(xs, f) {
      forall k | 0 <= k <= |init|
        ensures InInt32(Sum(init[..k], f))
      {
        assert init[..k] == xs[..k];
      }
    }
    if PrefixSumsFit(init, f) && InInt32(Sum(xs, f)) {
      forall k | 0 <= k <= |xs|
        ensures InInt32(Sum(xs[..k], f))
      {
        if k < |xs| {
          assert xs[..k] == init[..k];
        }
      }
    }
  }

  lemma {:induction false} SumAppend<T>(xs: seq<T>, ys: seq<T>, f: T -> int)
    ensures Sum(xs + ys, f) == Sum(xs, f) + Sum(ys, f)
    decreases |ys|
  {
    if ys == [] {
      assert xs + ys == xs;
    } else {
      assert (xs + ys)[..|xs + ys| - 1] == xs + ys[..|ys| - 1];
      SumAppend(xs, ys[..|ys| - 1], f);
    }
  }

  /** The sum splits at any position. */
  lemma SumSplitAt<T>(xs: seq<T>, i: nat, f: T -> int)
    requires i <= |xs|
    ensures Sum(xs, f) == Sum(xs[..i], f) + Sum(xs[i..], f)
  {
    assert xs == xs[..i] + xs[i..];
    SumAppend(xs[..i], xs[i..], f);
  }

  /** The sum of a suffix is its first element plus the sum of the rest. */
  lemma SumDropFirst<T>(xs: seq<T>, i: nat, f: T -> int)
    requires i < |xs|
    ensures Sum(xs[i..], f) == f(xs[i]) + Sum(xs[i + 1..], f)
  {
    var x, after := xs[i], xs[i + 1..];
    assert xs[i..] == [x] + after;
    assert [x][..0] == [];
    SumAppend([x], after, f);
  }

  /** Dropping one element takes its value off the sum. */
  lemma SumRemove<T>(xs: seq<T>, i: nat, f: T -> int)
    requires i < |xs|
    ensures Sum(xs, f) == Sum(xs[..i] + xs[i + 1..], f) + f(xs[i])
  {
    SumSplitAt(xs, i, f);
    SumDropFirst(xs, i, f);
    SumAppend(xs[..i], xs[i + 1..], f);
  }

  /** Dropping one element takes one occurrence of it off the multiset. */
  lemma MultisetRemove<T>(xs: seq<T>, i: nat)
    requires i < |xs|
    ensures multiset(xs) == multiset(xs[..i] + xs[i + 1..]) + multiset{xs[i]}
  {
    var before, x, after := xs[..i], xs[i], xs[i + 1..];
    assert xs == before + xs[i..];
    assert xs[i..] == [x] + after;
    assert xs == before + [x] + after;
  }

  /** Two sequences whose elements contribute the same values, position by position, have the same sum. */
  lemma {:induction false} SumPointwise<T, U>(xs: seq<T>, ys: seq<U>, f: T -> int, g: U -> int)
    requires |xs| == |ys|
    requires forall i :: 0 <= i < |xs| ==> f(xs[i]) == g(ys[i])
    ensures Sum(xs, f) == Sum(ys, g)
    decreases |xs|
  {
    if xs != [] {
      var n := |xs| - 1;
      SumPointwise(xs[..n], ys[..n], f, g);
    }
  }

  /** The sum does not depend on the order of the elements. */
  lemma {:induction false} SumPermutation<T>(xs: seq<T>, ys: seq<T>, f: T -> int)
    requires multiset(xs) == multiset(ys)
    ensures Sum(xs, f) == Sum(ys, f)
    decreases |xs|
  {
    if xs != [] {
      var last, init := xs[|xs| - 1], xs[..|xs| - 1];
      assert xs == init + [last];
      assert last in multiset(ys) by {
        assert last in multiset(xs);
      }
      var j :| 0 <= j < |ys| && ys[j] == last;
      var rest := ys[..j] + ys[j + 1..];
      SumRemove(ys, j, f);
      MultisetRemove(ys, j);
      assert multiset(xs) == multiset(init) + multiset{last};
      assert multiset(init) == multiset(xs) - multiset{last};
      assert multiset(rest) == multiset(ys) - multiset{last};
      SumPermutation(init, rest, f);
    } else {
      assert ys == [];
    }
  }

  /** When the left-to-right sums of two orderings both fit, the checked sums agree. */
  lemma CheckedSumPermutation<T>(xs: seq<T>, ys: seq<T>, f: T -> int)
    requires multiset(xs) == multiset(ys)
    requires CheckedSum(xs, f).Some? && CheckedSum(ys, f).Some?
    ensures CheckedSum(xs, f) == CheckedSum(ys, f)
  {
    SumPermutation(xs, ys, f);
  }

  /** Whether the checked sum throws can depend on the order: [INT32_MAX, 1, -1] throws, [INT32_MAX, -1, 1] does not. */
  lemma CheckedSumOrderMatters()
    ensures CheckedSum([INT32_MAX, 1, -1], (x: int) => x) == None
    ensures CheckedSum([INT32_MAX, -1, 1], (x: int) => x) == Some(INT32_MAX)
  {
  }
}
