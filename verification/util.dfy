/** Small shared vocabulary: an optional value, a failure-carrying result,
    and the integer arithmetic the display code does with JavaScript numbers. */
module Util {

  datatype Option<+T> = None | Some(value: T)

  datatype Result<+T, +E> = Ok(value: T) | Err(error: E)

  function Sum(xs: seq<int>): int
  {
    if |xs| == 0 then 0 else Sum(xs[..|xs| - 1]) + xs[|xs| - 1]
  }

  function Min(a: int, b: int): int { if a <= b then a else b }
  function Max(a: int, b: int): int { if a >= b then a else b }

  /** True when every element of xs lies in [lo, hi]. */
  ghost predicate AllWithin(xs: seq<int>, lo: int, hi: int)
  {
    forall i :: 0 <= i < |xs| ==> lo <= xs[i] <= hi
  }

  ghost predicate AllAtMost(xs: seq<int>, hi: int)
  {
    forall i :: 0 <= i < |xs| ==> xs[i] <= hi
  }

  ghost predicate AllAtLeast(xs: seq<int>, lo: int)
  {
    forall i :: 0 <= i < |xs| ==> lo <= xs[i]
  }

  /** `Math.round(num / den)` and `Number((num / den).toFixed(0))` for a
      positive denominator: the nearest integer, ties going up. */
  function RoundHalfUp(num: int, den: int): (r: int)
    requires den > 0
    ensures 2 * den * r <= 2 * num + den < 2 * den * r + 2 * den
  {
    (2 * num + den) / (2 * den)
  }

  lemma {:induction false} SumAtMost(xs: seq<int>, hi: int)
    requires AllAtMost(xs, hi)
    ensures Sum(xs) <= |xs| * hi
  {
    if |xs| > 0 {
      SumAtMost(xs[..|xs| - 1], hi);
    }
  }

  lemma {:induction false} SumAtLeast(xs: seq<int>, lo: int)
    requires AllAtLeast(xs, lo)
    ensures |xs| * lo <= Sum(xs)
  {
    if |xs| > 0 {
      SumAtLeast(xs[..|xs| - 1], lo);
    }
  }

  /** Multiplying by a non-negative factor keeps order. */
  lemma MulMonotone(c: int, a: int, b: int)
    requires c >= 0 && a <= b
    ensures c * a <= c * b
  {
    assert c * b - c * a == c * (b - a);
  }

  /** A rounded mean of values at most hi is at most hi. */
  lemma RoundedMeanAtMost(xs: seq<int>, hi: int)
    requires |xs| > 0 && AllAtMost(xs, hi)
    ensures RoundHalfUp(Sum(xs), |xs|) <= hi
  {
    SumAtMost(xs, hi);
    var n, r := |xs|, RoundHalfUp(Sum(xs), |xs|);
    if r > hi {
      MulMonotone(2 * n, hi + 1, r);
      assert false;
    }
  }

  /** A rounded mean of values at least lo is at least lo. */
  lemma RoundedMeanAtLeast(xs: seq<int>, lo: int)
    requires |xs| > 0 && AllAtLeast(xs, lo)
    ensures lo <= RoundHalfUp(Sum(xs), |xs|)
  {
    SumAtLeast(xs, lo);
    var n, r := |xs|, RoundHalfUp(Sum(xs), |xs|);
    if r < lo {
      MulMonotone(2 * n, r + 1, lo);
      assert false;
    }
  }

  /** A rounded mean of values inside [lo, hi] stays inside [lo, hi]. */
  lemma RoundedMeanWithin(xs: seq<int>, lo: int, hi: int)
    requires |xs| > 0
    requires AllWithin(xs, lo, hi)
    ensures lo <= RoundHalfUp(Sum(xs), |xs|) <= hi
  {
    RoundedMeanAtMost(xs, hi);
    RoundedMeanAtLeast(xs, lo);
  }
}
