/**
 * The power classes of content/ec2-spot-pricing/local.js (the second loop of
 * getSeriesData): each accepted row's `power` is normalised between the minimum
 * and the maximum over the accepted rows and cut into five buckets, 0..4.
 */
module PowerBuckets {

  /** The number of power classes; the classes are 0 .. Classes - 1. */
  const Classes: int := 5

  /** The class every point gets when all powers are equal. */
  const MiddleClass: int := 2

  /** `Math.min(...s)` for a non-empty list. */
  function MinOf(s: seq<real>): (r: real)
    requires |s| > 0
    ensures r in s
    ensures forall k :: 0 <= k < |s| ==> r <= s[k]
  {
    if |s| == 1 then s[0]
    else
      var m := MinOf(s[1..]);
      if s[0] < m then s[0] else m
  }

  /** `Math.max(...s)` for a non-empty list. */
  function MaxOf(s: seq<real>): (r: real)
    requires |s| > 0
    ensures r in s
    ensures forall k :: 0 <= k < |s| ==> s[k] <= r
  {
    if |s| == 1 then s[0]
    else
      var m := MaxOf(s[1..]);
      if s[0] > m then s[0] else m
  }

  /** Where p lies between lo and hi: 0 at lo, 1 at hi. */
  function Normalised(p: real, lo: real, hi: real): real
    requires lo < hi
  {
    (p - lo) / (hi - lo)
  }

  /**
   * The power class of a point with power `p` when the accepted powers range over
   * [lo, hi]: when lo < hi, the whole part of five times its normalised value,
   * with 5 (reached only at the maximum) lowered to 4; otherwise the middle class.
   */
  function PowerIndex(p: real, lo: real, hi: real): int
  {
    if lo < hi then
      var x := (Normalised(p, lo, hi) * (Classes as real)).Floor;
      if x < Classes - 1 then x else Classes - 1
    else MiddleClass
  }

  /** Dividing by a positive number keeps the order. */
  lemma DivMonotone(a: real, b: real, d: real)
    requires a <= b && 0.0 < d
    ensures a / d <= b / d
  {
    assert (b / d - a / d) * d == b - a;
  }

  /** A positive number divided by itself is one. */
  lemma DivSelf(d: real)
    requires 0.0 < d
    ensures d / d == 1.0
  {
    var x := d / d;
    assert x * d == d;
    assert (x - 1.0) * d == 0.0;
  }

  /** A power inside [lo, hi] normalises into [0, 1]. */
  lemma NormalisedInUnit(p: real, lo: real, hi: real)
    requires lo <= p <= hi && lo < hi
    ensures 0.0 <= Normalised(p, lo, hi) <= 1.0
  {
    DivMonotone(0.0, p - lo, hi - lo);
    DivMonotone(p - lo, hi - lo, hi - lo);
    DivSelf(hi - lo);
  }

  /** Powers inside [lo, hi] get a class in 0..4. */
  lemma PowerIndexInRange(p: real, lo: real, hi: real)
    requires lo <= p <= hi
    ensures 0 <= PowerIndex(p, lo, hi) < Classes
  {
    if lo < hi {
      NormalisedInUnit(p, lo, hi);
    }
  }

  /**
   * The exact class boundaries: a point is in class b when its normalised power
   * lies in [b/5, (b+1)/5), except that the top class 4 also takes the value 1,
   * so class 4 holds every point with normalised power from 4/5 up to and
   * including the maximum.
   */
  lemma PowerIndexBounds(p: real, lo: real, hi: real)
    requires lo <= p <= hi && lo < hi
    ensures var b, n := PowerIndex(p, lo, hi), Normalised(p, lo, hi);
      && 0.0 <= n <= 1.0
      && (b as real) <= n * 5.0
      && (b < Classes - 1 ==> n * 5.0 < b as real + 1.0)
      && (b == Classes - 1 <==> 4.0 <= n * 5.0)
  {
    NormalisedInUnit(p, lo, hi);
  }

  /** When lo < hi the class never decreases as the power grows. */
  lemma PowerIndexMonotone(p: real, q: real, lo: real, hi: real)
    requires lo < hi && p <= q
    ensures PowerIndex(p, lo, hi) <= PowerIndex(q, lo, hi)
  {
    DivMonotone(p - lo, q - lo, hi - lo);
  }

  /** The maximum power gets the top class: floor(5) is clamped to 4. */
  lemma PowerIndexOfMax(lo: real, hi: real)
    requires lo < hi
    ensures PowerIndex(hi, lo, hi) == Classes - 1
  {
    DivSelf(hi - lo);
    assert Normalised(hi, lo, hi) == 1.0;
  }

  /** The minimum power gets class 0. */
  lemma PowerIndexOfMin(lo: real, hi: real)
    requires lo < hi
    ensures PowerIndex(lo, lo, hi) == 0
  {
    assert Normalised(lo, lo, hi) == 0.0;
  }

  /** With a degenerate range every power gets the middle class. */
  lemma PowerIndexDegenerate(p: real, lo: real, hi: real)
    requires !(lo < hi)
    ensures PowerIndex(p, lo, hi) == MiddleClass
  {
  }
}
