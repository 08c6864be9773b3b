/**
 * generate_labels: the unhealthy-day label y_today (mood at or below the
 * 14-row rolling mean, current row included, minus one) and the 3-day
 * label y_3d (any of the next three y_today set).
 */
module Labels {
  import opened Wrappers
  import opened PyNum
  import opened Series
  import opened Records

  /** mood_ma14_current: rolling(window=14, min_periods=14).mean() of moodScore. */
  function MoodMa14Current(moods: seq<int>, i: int): Option<real>
    requires 0 <= i < |moods|
  {
    RollingMean(Somes(Reals(moods)), i, 14, 14)
  }

  /** y_today at row i: 1, 0, or NaN while the 14-row mean is undefined. */
  function YToday(moods: seq<int>, i: int): Option<int>
    requires 0 <= i < |moods|
  {
    var ma := MoodMa14Current(moods, i);
    if ma.Some? && moods[i] as real <= ma.value - 1.0 then Some(1)
    else if ma.Some? then Some(0)
    else None
  }

  function YTodayColumn(moods: seq<int>): (r: seq<Option<int>>)
    ensures |r| == |moods|
    ensures forall i :: 0 <= i < |moods| ==> r[i] == YToday(moods, i)
  {
    seq(|moods|, i requires 0 <= i < |moods| => YToday(moods, i))
  }

  /** The 14-row mean exists from row 13 on and is the mean of rows i-13..i. */
  lemma MoodMa14CurrentSpec(moods: seq<int>, i: int)
    requires 0 <= i < |moods|
    ensures MoodMa14Current(moods, i).Some? <==> i >= 13
    ensures i >= 13 ==> MoodMa14Current(moods, i) == Some(Mean(Reals(moods[i - 13..i + 1])))
  {
    RollingMeanOfSomes(Reals(moods), i, 14, 14);
    if i >= 13 {
      assert Reals(moods)[i - 13..i + 1] == Reals(moods[i - 13..i + 1]);
    }
  }

  /** y_today is missing exactly on the first 13 rows and is 0 or 1 after them. */
  lemma YTodayDefined(moods: seq<int>, i: int)
    requires 0 <= i < |moods|
    ensures YToday(moods, i).None? <==> i < 13
    ensures YToday(moods, i).Some? ==> YToday(moods, i).value in {0, 1}
  {
    MoodMa14CurrentSpec(moods, i);
  }

  /**
   * The unhealthy rule, as a statement about the mean and in integers:
   * y_today = 1 iff mood <= mean(rows i-13..i) - 1 iff 14 * mood <= sum - 14.
   */
  lemma YTodayRule(moods: seq<int>, i: int)
    requires 13 <= i < |moods|
    ensures YToday(moods, i) == Some(1) <==> moods[i] as real <= Mean(Reals(moods[i - 13..i + 1])) - 1.0
    ensures YToday(moods, i) == Some(1) <==> 14 * moods[i] <= IntSum(moods[i - 13..i + 1]) - 14
  {
    MoodMa14CurrentSpec(moods, i);
    var w := moods[i - 13..i + 1];
    SumOfInts(w, Reals(w));
    assert Mean(Reals(w)) == IntSum(w) as real / 14.0;
  }

  /** y_today at row i depends on rows i-13..i only. */
  lemma YTodayLocal(m1: seq<int>, i: int, m2: seq<int>, j: int)
    requires 13 <= i < |m1| && 13 <= j < |m2|
    requires m1[i - 13..i + 1] == m2[j - 13..j + 1]
    ensures YToday(m1, i) == YToday(m2, j)
  {
    YTodayRule(m1, i);
    YTodayRule(m2, j);
    YTodayDefined(m1, i);
    YTodayDefined(m2, j);
    assert m1[i] == m1[i - 13..i + 1][13] == m2[j];
  }

  /** Appending rows never changes an existing y_today. */
  lemma YTodayPrefixStable(moods: seq<int>, ext: seq<int>, i: int)
    requires 0 <= i < |moods|
    ensures YToday(moods + ext, i) == YToday(moods, i)
  {
    YTodayDefined(moods, i);
    YTodayDefined(moods + ext, i);
    if i >= 13 {
      assert (moods + ext)[i - 13..i + 1] == moods[i - 13..i + 1];
      YTodayLocal(moods + ext, i, moods, i);
    }
  }

  /** A constant mood history never has an unhealthy day: m <= m - 1 is false. */
  lemma YTodayConstant(moods: seq<int>, c: int, i: int)
    requires 0 <= i < |moods|
    requires forall k :: 0 <= k < |moods| ==> moods[k] == c
    ensures YToday(moods, i) != Some(1)
  {
    YTodayDefined(moods, i);
    if i >= 13 {
      YTodayRule(moods, i);
      MeanOfConstant(Reals(moods[i - 13..i + 1]), c as real);
    }
  }

  /** (y_today == 1).sum(). */
  function CountOnes(ys: seq<Option<int>>): (n: nat)
    ensures n <= |ys|
  {
    if ys == [] then 0 else CountOnes(ys[..|ys| - 1]) + (if ys[|ys| - 1] == Some(1) then 1 else 0)
  }

  lemma {:induction false} CountOnesPrefix(ys: seq<Option<int>>, zs: seq<Option<int>>)
    ensures CountOnes(ys) <= CountOnes(ys + zs)
    decreases |zs|
  {
    if zs == [] {
      assert ys + zs == ys;
    } else {
      var all := ys + zs;
      assert all[..|all| - 1] == ys + zs[..|zs| - 1];
      CountOnesPrefix(ys, zs[..|zs| - 1]);
      assert CountOnes(all) >= CountOnes(all[..|all| - 1]);
    }
  }

  function UnhealthyCount(moods: seq<int>): nat
  {
    CountOnes(YTodayColumn(moods))
  }

  /** As history grows the unhealthy count never decreases. */
  lemma UnhealthyCountMonotone(moods: seq<int>, ext: seq<int>)
    ensures UnhealthyCount(moods) <= UnhealthyCount(moods + ext)
  {
    var full := YTodayColumn(moods + ext);
    forall i | 0 <= i < |moods| ensures full[i] == YTodayColumn(moods)[i] {
      YTodayPrefixStable(moods, ext, i);
    }
    assert full == YTodayColumn(moods) + full[|moods|..];
    CountOnesPrefix(YTodayColumn(moods), full[|moods|..]);
  }

  /**
   * y_3d at row i: defined when rows i..i+3 exist and all carry y_today;
   * then 1 when one of the next three reaches 1 (future.max() >= 1).
   */
  function Y3dAt(yt: seq<Option<int>>, i: int): Option<int>
    requires 0 <= i < |yt|
  {
    if i + 3 < |yt| && yt[i].Some? && yt[i + 1].Some? && yt[i + 2].Some? && yt[i + 3].Some? then
      Some(if yt[i + 1].value >= 1 || yt[i + 2].value >= 1 || yt[i + 3].value >= 1 then 1 else 0)
    else None
  }

  /** On y_today values, y_3d = 1 iff one of the next three days is unhealthy. */
  lemma Y3dOfLabels(moods: seq<int>, i: int)
    requires 0 <= i < |moods|
    ensures var yt := YTodayColumn(moods);
      && (Y3dAt(yt, i).Some? <==> 13 <= i < |moods| - 3)
      && (Y3dAt(yt, i) == Some(1) <==>
            13 <= i < |moods| - 3 && (yt[i + 1] == Some(1) || yt[i + 2] == Some(1) || yt[i + 3] == Some(1)))
  {
    YTodayDefined(moods, i);
    if i + 3 < |moods| {
      YTodayDefined(moods, i + 1);
      YTodayDefined(moods, i + 2);
      YTodayDefined(moods, i + 3);
    }
  }

  /** The y_3d column the loop below fills. */
  function Y3dColumn(yt: seq<Option<int>>): (r: seq<Option<int>>)
    ensures |r| == |yt|
  {
    seq(|yt|, i requires 0 <= i < |yt| => Y3dAt(yt, i))
  }

  /** The y_3d loop: a column of NaN, filled in place for rows 0 .. n-4. */
  method FillY3d(yt: seq<Option<int>>) returns (y3d: seq<Option<int>>)
    ensures |y3d| == |yt|
    ensures forall i :: 0 <= i < |yt| ==> y3d[i] == Y3dAt(yt, i)
  {
    var col := new Option<int>[|yt|](_ => None);
    var i := 0;
    while i < |yt| - 3
      invariant 0 <= i <= |yt|
      invariant i <= |yt| - 3 || i == 0
      invariant forall k :: 0 <= k < i ==> col[k] == Y3dAt(yt, k)
      invariant forall k :: i <= k < |yt| ==> col[k].None?
    {
      if yt[i].Some? {
        var future := yt[i + 1..i + 4];
        if future[0].Some? && future[1].Some? && future[2].Some? {
          col[i] := Some(if future[0].value >= 1 || future[1].value >= 1 || future[2].value >= 1 then 1 else 0);
        }
      }
      i := i + 1;
    }
    y3d := col[..];
  }

  /** A row of generate_labels' result: the input row plus y_today and y_3d. */
  datatype LabeledRow = LabeledRow(log: LogRow, yToday: Option<int>, y3d: Option<int>)

  /**
   * generate_labels: the rows sorted by date key, each carrying its
   * y_today and y_3d; the helper mean column is not part of the result.
   */
  method GenerateLabels(rows: seq<LogRow>) returns (out: seq<LabeledRow>)
    ensures |out| == |rows|
    ensures forall i :: 0 <= i < |out| ==> out[i].log == SortByKey(rows)[i]
    ensures forall i :: 0 <= i < |out| ==>
      out[i].yToday == YToday(Moods(SortByKey(rows)), i)
      && out[i].y3d == Y3dAt(YTodayColumn(Moods(SortByKey(rows))), i)
  {
    var sorted := SortByKey(rows);
    var yt := YTodayColumn(Moods(sorted));
    var y3d := FillY3d(yt);
    out := seq(|sorted|, i requires 0 <= i < |sorted| => LabeledRow(sorted[i], yt[i], y3d[i]));
  }
}
