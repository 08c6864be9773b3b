/**
 * The pandas Series operations the backend composes its columns from:
 * dropna, shift(1), rolling(window, min_periods).mean() and the
 * "fill from the rolling mean, then 0" of _fill_missing. A column is a
 * sequence of optional reals; None is NaN.
 */
module Series {
  import opened Wrappers
  import opened PyNum

  function Min(a: int, b: int): int { if a < b then a else b }
  function Max(a: int, b: int): int { if a < b then b else a }

  /** An integer column as floats. */
  function Reals(xs: seq<int>): (r: seq<real>)
    ensures |r| == |xs|
    ensures forall k :: 0 <= k < |xs| ==> r[k] == xs[k] as real
  {
    seq(|xs|, k requires 0 <= k < |xs| => xs[k] as real)
  }

  /** dropna(): the values that are present, in row order. */
  function Present(xs: seq<Option<real>>): (r: seq<real>)
    ensures |r| <= |xs|
  {
    if xs == [] then []
    else Present(xs[..|xs| - 1]) + (if xs[|xs| - 1].Some? then [xs[|xs| - 1].value] else [])
  }

  /** A column with every value present. */
  function Somes(vs: seq<real>): (r: seq<Option<real>>)
    ensures |r| == |vs|
    ensures forall k :: 0 <= k < |vs| ==> r[k] == Some(vs[k])
  {
    seq(|vs|, k requires 0 <= k < |vs| => Some(vs[k]))
  }

  /** dropna() keeps exactly the present values: nothing is lost or invented. */
  lemma {:induction false} PresentMembers(xs: seq<Option<real>>)
    ensures forall v :: v in Present(xs) <==> Some(v) in xs
  {
    if xs != [] {
      PresentMembers(xs[..|xs| - 1]);
      assert xs == xs[..|xs| - 1] + [xs[|xs| - 1]];
    }
  }

  /** dropna() is empty exactly when every value is missing. */
  lemma {:induction false} PresentEmpty(xs: seq<Option<real>>)
    ensures Present(xs) == [] <==> forall k :: 0 <= k < |xs| ==> xs[k].None?
  {
    if xs != [] {
      PresentEmpty(xs[..|xs| - 1]);
      assert forall k :: 0 <= k < |xs| - 1 ==> xs[..|xs| - 1][k] == xs[k];
    }
  }

  /** dropna() of a column with no missing value gives back the values. */
  lemma {:induction false} PresentSomes(vs: seq<real>)
    ensures Present(Somes(vs)) == vs
  {
    if vs != [] {
      var n := |vs|;
      assert Somes(vs)[..n - 1] == Somes(vs[..n - 1]);
      PresentSomes(vs[..n - 1]);
      assert vs == vs[..n - 1] + [vs[n - 1]];
    }
  }

  /** A trailing missing value does not change dropna(). */
  lemma PresentDropLastNone(xs: seq<Option<real>>)
    requires xs != [] && xs[|xs| - 1].None?
    ensures Present(xs) == Present(xs[..|xs| - 1])
  {
  }

  /** shift(1): row k receives row k - 1's value and row 0 is missing. */
  function Shift(xs: seq<Option<real>>): (r: seq<Option<real>>)
    ensures |r| == |xs|
    ensures |xs| > 0 ==> r[0].None?
    ensures forall k :: 1 <= k < |xs| ==> r[k] == xs[k - 1]
  {
    if xs == [] then [] else [None] + xs[..|xs| - 1]
  }

  /** The rows a rolling window of size k ending at row j covers: max(0, j-k+1) .. j. */
  function Window(xs: seq<Option<real>>, j: int, k: nat): (r: seq<Option<real>>)
    requires 0 <= j < |xs|
    requires k >= 1
    ensures |r| == Min(k, j + 1)
    ensures forall t :: 0 <= t < |r| ==> r[t] == xs[j + 1 - |r| + t]
  {
    xs[Max(0, j - k + 1)..j + 1]
  }

  /**
   * rolling(window=k, min_periods=m).mean() at row j: the mean of the
   * present values in the window, or NaN when fewer than m are present.
   */
  function RollingMean(xs: seq<Option<real>>, j: int, k: nat, minPeriods: nat): Option<real>
    requires 0 <= j < |xs|
    requires k >= 1 && minPeriods >= 1
  {
    var p := Present(Window(xs, j, k));
    if |p| >= minPeriods then Some(Mean(p)) else None
  }

  /** A rolling mean at row j reads nothing after row j. */
  lemma RollingMeanCausal(xs: seq<Option<real>>, ys: seq<Option<real>>, j: int, k: nat, m: nat)
    requires 0 <= j < |xs| && j < |ys|
    requires k >= 1 && m >= 1
    requires xs[..j + 1] == ys[..j + 1]
    ensures RollingMean(xs, j, k, m) == RollingMean(ys, j, k, m)
  {
    var lo := Max(0, j - k + 1);
    assert Window(xs, j, k) == xs[..j + 1][lo..];
    assert Window(ys, j, k) == ys[..j + 1][lo..];
  }

  /** With every value present, the rolling mean is the mean of the last min(k, j+1) values. */
  lemma RollingMeanOfSomes(vs: seq<real>, j: int, k: nat, m: nat)
    requires 0 <= j < |vs|
    requires k >= 1 && m >= 1
    ensures var lo := Max(0, j - k + 1);
      RollingMean(Somes(vs), j, k, m) == if j + 1 - lo >= m then Some(Mean(vs[lo..j + 1])) else None
  {
    var lo := Max(0, j - k + 1);
    assert Window(Somes(vs), j, k) == Somes(vs[lo..j + 1]);
    PresentSomes(vs[lo..j + 1]);
  }

  /**
   * _fill_missing(series, window) at row j: the value itself when present,
   * otherwise the rolling mean (min_periods=1) ending at row j, otherwise 0.
   */
  function FillAt(xs: seq<Option<real>>, j: int, window: nat): real
    requires 0 <= j < |xs|
    requires window >= 1
  {
    if xs[j].Some? then xs[j].value else RollingMean(xs, j, window, 1).GetOr(0.0)
  }

  /**
   * A filled value is never missing; it equals the input when the input is
   * present, otherwise the mean of the present values among the window - 1
   * preceding rows, and 0 when there are none.
   */
  lemma FillAtSpec(xs: seq<Option<real>>, j: int, window: nat)
    requires 0 <= j < |xs|
    requires window >= 1
    ensures xs[j].Some? ==> FillAt(xs, j, window) == xs[j].value
    ensures var before := Present(xs[Max(0, j - window + 1)..j]);
      xs[j].None? ==>
        FillAt(xs, j, window) == (if before == [] then 0.0 else Mean(before))
  {
    if xs[j].None? {
      var w := Window(xs, j, window);
      assert w[..|w| - 1] == xs[Max(0, j - window + 1)..j];
      PresentDropLastNone(w);
    }
  }

  /** A filled value at row j reads nothing after row j. */
  lemma FillAtCausal(xs: seq<Option<real>>, ys: seq<Option<real>>, j: int, window: nat)
    requires 0 <= j < |xs| && j < |ys|
    requires window >= 1
    requires xs[..j + 1] == ys[..j + 1]
    ensures FillAt(xs, j, window) == FillAt(ys, j, window)
  {
    assert xs[j] == xs[..j + 1][j] == ys[j];
    RollingMeanCausal(xs, ys, j, window, 1);
  }

  /** Subtraction of two columns: NaN when either side is NaN. */
  function Sub(a: Option<real>, b: Option<real>): (r: Option<real>)
    ensures r.Some? <==> a.Some? && b.Some?
    ensures r.Some? ==> r.value + b.value == a.value
  {
    if a.Some? && b.Some? then Some(a.value - b.value) else None
  }
}
