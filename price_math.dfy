/**
 Arithmetic over lists of integer prices: the left-to-right sum that
 `prices.reduce((sum, price) => sum + price, 0)` computes, `Math.min` over a
 non-empty list, and the exact mean `sum / length`. `Max` is a proof helper
 that bounds the mean from above.
 */
module PriceMath {

  /** Sum of the prices, folded from the left starting at 0. */
  function Sum(s: seq<int>): int
  {
    if s == [] then 0 else Sum(s[..|s| - 1]) + s[|s| - 1]
  }

  /** Peeling off the first price gives the same sum as the left fold. */
  lemma {:induction false} SumFromFront(s: seq<int>)
    requires s != []
    ensures Sum(s) == s[0] + Sum(s[1..])
  {
    if |s| > 1 {
      var init := s[..|s| - 1];
      SumFromFront(init);
      assert init[1..] == s[1..][..|s[1..]| - 1];
    }
  }

  /** The sum of a concatenation is the sum of the sums. */
  lemma {:induction false} SumAppend(a: seq<int>, b: seq<int>)
    ensures Sum(a + b) == Sum(a) + Sum(b)
  {
    if b == [] {
      assert a + b == a;
    } else {
      var init := b[..|b| - 1];
      SumAppend(a, init);
      assert (a + b)[..|a + b| - 1] == a + init;
    }
  }

  /** Taking out the price at position `k` lowers the sum by exactly that price. */
  lemma SumRemoveAt(t: seq<int>, k: nat)
    requires k < |t|
    ensures Sum(t) == t[k] + Sum(t[..k] + t[k + 1..])
  {
    var before, tail := t[..k], t[k..];
    assert t == before + tail;
    SumAppend(before, tail);
    SumFromFront(tail);
    assert tail[1..] == t[k + 1..];
    SumAppend(before, t[k + 1..]);
  }

  /** Taking out the element at position `k` removes one occurrence of it. */
  lemma RemoveAtMultiset<T>(t: seq<T>, k: nat)
    requires k < |t|
    ensures multiset(t[..k] + t[k + 1..]) == multiset(t) - multiset{t[k]}
  {
    assert t == t[..k] + ([t[k]] + t[k + 1..]);
  }

  /**
   The sum does not depend on the order of the prices: any reordering of the
   list, such as rows fetched in a different order, gives the same sum.
   */
  lemma {:induction false} SumPermutation(s: seq<int>, t: seq<int>)
    requires multiset(s) == multiset(t)
    ensures Sum(s) == Sum(t)
  {
    if s == [] {
      assert |t| == |multiset(t)| == 0;
    } else {
      var init, x := s[..|s| - 1], s[|s| - 1];
      assert s == init + [x];
      assert x in multiset(t);
      var k :| 0 <= k < |t| && t[k] == x;
      var rest := t[..k] + t[k + 1..];
      RemoveAtMultiset(t, k);
      assert multiset(init) == multiset(s) - multiset{x};
      SumPermutation(init, rest);
      SumRemoveAt(t, k);
    }
  }

  /** The smallest price of a non-empty list (`Math.min(...s)`). */
  function Min(s: seq<int>): (m: int)
    requires |s| > 0
    ensures m in s
    ensures forall i :: 0 <= i < |s| ==> m <= s[i]
  {
    if |s| == 1 then s[0]
    else
      var rest := Min(s[..|s| - 1]);
      if s[|s| - 1] < rest then s[|s| - 1] else rest
  }

  /** The largest price of a non-empty list; used only to bound the mean from above. */
  function Max(s: seq<int>): (m: int)
    requires |s| > 0
    ensures m in s
    ensures forall i :: 0 <= i < |s| ==> s[i] <= m
  {
    if |s| == 1 then s[0]
    else
      var rest := Max(s[..|s| - 1]);
      if rest < s[|s| - 1] then s[|s| - 1] else rest
  }

  /** A lower bound of every price, counted once per price, never exceeds the sum. */
  lemma {:induction false} SumAtLeast(s: seq<int>, lo: int)
    requires forall i :: 0 <= i < |s| ==> lo <= s[i]
    ensures |s| * lo <= Sum(s)
  {
    if s != [] {
      SumAtLeast(s[..|s| - 1], lo);
    }
  }

  /** An upper bound of every price, counted once per price, is never below the sum. */
  lemma {:induction false} SumAtMost(s: seq<int>, hi: int)
    requires forall i :: 0 <= i < |s| ==> s[i] <= hi
    ensures Sum(s) <= |s| * hi
  {
    if s != [] {
      SumAtMost(s[..|s| - 1], hi);
    }
  }

  /** The exact arithmetic mean of a non-empty price list. */
  function Mean(s: seq<int>): (avg: real)
    requires |s| > 0
    ensures avg * (|s| as real) == Sum(s) as real
  {
    Sum(s) as real / |s| as real
  }

  /** The mean does not depend on the order of the prices either. */
  lemma MeanPermutation(s: seq<int>, t: seq<int>)
    requires |s| > 0 && multiset(s) == multiset(t)
    ensures |t| == |s| && Mean(s) == Mean(t)
  {
    assert |s| == |multiset(s)| == |multiset(t)| == |t|;
    SumPermutation(s, t);
  }

  /** Any bounds that hold for every price also hold for the mean. */
  lemma MeanWithin(s: seq<int>, lo: int, hi: int)
    requires |s| > 0
    requires forall i :: 0 <= i < |s| ==> lo <= s[i] <= hi
    ensures lo as real <= Mean(s) <= hi as real
  {
    SumAtLeast(s, lo);
    SumAtMost(s, hi);
    ScaledBounds(Mean(s), |s|, Sum(s), lo, hi);
  }

  /** The mean lies between the smallest and the largest price. */
  lemma MeanBetweenExtremes(s: seq<int>)
    requires |s| > 0
    ensures Min(s) as real <= Mean(s) <= Max(s) as real
  {
    MeanWithin(s, Min(s), Max(s));
  }

  /** Dividing `n * lo <= total <= n * hi` by a positive `n`. */
  lemma ScaledBounds(q: real, n: nat, total: int, lo: int, hi: int)
    requires n > 0 && q * (n as real) == total as real
    requires n * lo <= total <= n * hi
    ensures lo as real <= q <= hi as real
  {
    var p := n as real;
    assert (n * lo) as real == p * (lo as real);
    assert (n * hi) as real == p * (hi as real);
    assert (q - lo as real) * p == q * p - (lo as real) * p;
    assert (hi as real - q) * p == (hi as real) * p - q * p;
    NonNegativeFactor(q - lo as real, p);
    NonNegativeFactor(hi as real - q, p);
  }

  /** A product with a positive factor is non-negative only if the other factor is. */
  lemma NonNegativeFactor(x: real, p: real)
    requires p > 0.0 && x * p >= 0.0
    ensures x >= 0.0
  {
  }
}
