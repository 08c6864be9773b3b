/**
 * Python's numeric built-ins used by the backend, over exact reals:
 * int() truncation, round() with ties to even, float % 1, and the
 * sum / mean of a list.
 */
module PyNum {

  /** int(x) for a float: truncation toward zero. */
  function Trunc(x: real): (r: int)
    ensures 0.0 <= x ==> r as real <= x < r as real + 1.0
    ensures x < 0.0 ==> r as real - 1.0 < x <= r as real
  {
    if x >= 0.0 then x.Floor else -((-x).Floor)
  }

  /** round(x) with no digits: the nearest integer, a tie going to the even one. */
  function RoundHalfEven(x: real): (r: int)
    ensures -0.5 <= x - r as real <= 0.5
    ensures (x - r as real == 0.5 || r as real - x == 0.5) ==> r % 2 == 0
  {
    var f := x.Floor;
    var d := x - f as real;
    if d < 0.5 then f
    else if d > 0.5 then f + 1
    else if f % 2 == 0 then f
    else f + 1
  }

  /** Rounding never jumps over an integer bound. */
  lemma RoundHalfEvenWithin(x: real, lo: int, hi: int)
    requires lo as real <= x <= hi as real
    ensures lo <= RoundHalfEven(x) <= hi
  {
  }

  function Pow10(n: nat): (r: nat)
    ensures r >= 1
  {
    if n == 0 then 1 else 10 * Pow10(n - 1)
  }

  /** round(x, places): the nearest multiple of 10^-places, ties to even. */
  function RoundTo(x: real, places: nat): real
  {
    RoundScaled(x, Pow10(places) as real)
  }

  /** The nearest multiple of 1 / scale, ties to even. */
  function RoundScaled(x: real, scale: real): real
    requires scale > 0.0
  {
    RoundHalfEven(x * scale) as real / scale
  }

  /**
   * Scaled back up, a rounded value is the integer nearest to the scaled
   * input, so it stays between any integer bounds of the scaled input.
   */
  lemma RoundScaledBounds(x: real, scale: real, lo: int, hi: int)
    requires scale > 0.0
    requires lo as real <= x * scale <= hi as real
    ensures RoundScaled(x, scale) * scale == RoundHalfEven(x * scale) as real
    ensures lo as real <= RoundScaled(x, scale) * scale <= hi as real
  {
    DivMulCancel(RoundHalfEven(x * scale) as real, scale);
    RoundHalfEvenWithin(x * scale, lo, hi);
  }

  /** A rounded value is within half a unit of the last kept place. */
  lemma RoundScaledClose(x: real, scale: real)
    requires scale > 0.0
    ensures -0.5 <= RoundScaled(x, scale) * scale - x * scale <= 0.5
  {
    DivMulCancel(RoundHalfEven(x * scale) as real, scale);
  }

  /** A share of a whole lies in [0, 1]. */
  lemma RatioBounds(n: real, d: real)
    requires 0.0 <= n <= d && d > 0.0
    ensures 0.0 <= n / d <= 1.0
  {
    assert n / d * d == n;
  }

  lemma DivMulCancel(a: real, p: real)
    requires p > 0.0
    ensures (a / p) * p == a
  {
  }

  /** x % 1 for a float (Python's modulo takes the sign of the divisor). */
  function FracPart(x: real): (r: real)
    ensures 0.0 <= r < 1.0
    ensures (x - r).Floor as real == x - r
  {
    x - x.Floor as real
  }

  function Sum(xs: seq<real>): real
  {
    if xs == [] then 0.0 else Sum(xs[..|xs| - 1]) + xs[|xs| - 1]
  }

  function IntSum(xs: seq<int>): int
  {
    if xs == [] then 0 else IntSum(xs[..|xs| - 1]) + xs[|xs| - 1]
  }

  /** The arithmetic mean of a non-empty list (pandas' mean over non-NaN values). */
  function Mean(xs: seq<real>): real
    requires |xs| > 0
  {
    Sum(xs) / |xs| as real
  }

  lemma {:induction false} SumBounds(xs: seq<real>, lo: real, hi: real)
    requires forall k :: 0 <= k < |xs| ==> lo <= xs[k] <= hi
    ensures |xs| as real * lo <= Sum(xs) <= |xs| as real * hi
  {
    if xs != [] {
      SumBounds(xs[..|xs| - 1], lo, hi);
    }
  }

  /** A mean lies between the smallest and the largest bound of its values. */
  lemma MeanBounds(xs: seq<real>, lo: real, hi: real)
    requires |xs| > 0
    requires forall k :: 0 <= k < |xs| ==> lo <= xs[k] <= hi
    ensures lo <= Mean(xs) <= hi
  {
    SumBounds(xs, lo, hi);
    var n := |xs| as real;
    assert n * lo <= Sum(xs) <= n * hi;
    assert Sum(xs) / n >= lo by {
      assert Sum(xs) / n * n == Sum(xs);
    }
    assert Sum(xs) / n <= hi by {
      assert Sum(xs) / n * n == Sum(xs);
    }
  }

  /** The mean of a constant list is that constant. */
  lemma MeanOfConstant(xs: seq<real>, c: real)
    requires |xs| > 0
    requires forall k :: 0 <= k < |xs| ==> xs[k] == c
    ensures Mean(xs) == c
  {
    MeanBounds(xs, c, c);
  }

  /** Sum of the reals of an integer list is the integer sum. */
  lemma {:induction false} SumOfInts(xs: seq<int>, ys: seq<real>)
    requires |xs| == |ys|
    requires forall k :: 0 <= k < |xs| ==> ys[k] == xs[k] as real
    ensures Sum(ys) == IntSum(xs) as real
  {
    if xs != [] {
      SumOfInts(xs[..|xs| - 1], ys[..|ys| - 1]);
    }
  }
}
