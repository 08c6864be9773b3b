/**
 * build_features: the causal feature table. Mood, steps and stress
 * features at row i use rows before i only; sleep may use row i (the
 * night before waking on day i). Calendar features come from the key.
 */
module Features {
  import opened Wrappers
  import opened PyNum
  import opened Series
  import opened Records
  import opened Dates

  function OptReal(x: Option<int>): Option<real>
  {
    if x.Some? then Some(x.value as real) else None
  }

  function MoodSeries(rows: seq<LogRow>): seq<Option<real>>
  {
    Somes(Reals(Moods(rows)))
  }

  function SleepSeries(rows: seq<LogRow>): (r: seq<Option<real>>)
    ensures |r| == |rows| && forall k :: 0 <= k < |rows| ==> r[k] == rows[k].sleep
  {
    seq(|rows|, k requires 0 <= k < |rows| => rows[k].sleep)
  }

  function StepsSeries(rows: seq<LogRow>): (r: seq<Option<real>>)
    ensures |r| == |rows| && forall k :: 0 <= k < |rows| ==> r[k] == OptReal(rows[k].steps)
  {
    seq(|rows|, k requires 0 <= k < |rows| => OptReal(rows[k].steps))
  }

  function StressSeries(rows: seq<LogRow>): (r: seq<Option<real>>)
    ensures |r| == |rows| && forall k :: 0 <= k < |rows| ==> r[k] == OptReal(rows[k].stress)
  {
    seq(|rows|, k requires 0 <= k < |rows| => OptReal(rows[k].stress))
  }

  datatype MoodFeatures = MoodFeatures(
    lag1: Option<real>, ma3: Option<real>, ma7: Option<real>,
    delta1: Option<real>, ma14: Option<real>, dev14: Option<real>)

  datatype SleepFeatures = SleepFeatures(filled: real, missing: int, dev: Option<real>)

  datatype StepsFeatures = StepsFeatures(lag1: Option<real>, filled: real, missing: int, dev: Option<real>)

  datatype StressFeatures = StressFeatures(lag1: Option<real>, filled: real, missing: int)

  datatype FeatureRow = FeatureRow(
    dayOfWeek: int, isWeekend: int,
    mood: MoodFeatures, sleep: SleepFeatures, steps: StepsFeatures, stress: StressFeatures)

  /** mood_lag1, mood_ma3, mood_ma7, mood_delta1, mood_ma14, mood_dev14 at row i. */
  function MoodFeaturesAt(rows: seq<LogRow>, i: int): MoodFeatures
    requires 0 <= i < |rows|
  {
    var lagged := Shift(MoodSeries(rows));
    var lag1 := lagged[i];
    var ma14 := RollingMean(lagged, i, 14, 7);
    MoodFeatures(lag1, RollingMean(lagged, i, 3, 1), RollingMean(lagged, i, 7, 1),
                 Sub(lag1, Shift(lagged)[i]), ma14, Sub(lag1, ma14))
  }

  /** sleep_hours_filled, sleep_missing, sleep_dev at row i (same-day sleep). */
  function SleepFeaturesAt(rows: seq<LogRow>, i: int): SleepFeatures
    requires 0 <= i < |rows|
  {
    var s := SleepSeries(rows);
    var filled := FillAt(s, i, 7);
    SleepFeatures(filled, if s[i].None? then 1 else 0, Sub(Some(filled), RollingMean(s, i, 7, 1)))
  }

  /** steps_lag1, steps_filled, steps_missing, steps_dev at row i (previous day's steps). */
  function StepsFeaturesAt(rows: seq<LogRow>, i: int): StepsFeatures
    requires 0 <= i < |rows|
  {
    var lagged := Shift(StepsSeries(rows));
    var filled := FillAt(lagged, i, 7);
    StepsFeatures(lagged[i], filled, if lagged[i].None? then 1 else 0,
                  Sub(Some(filled), RollingMean(lagged, i, 7, 1)))
  }

  /** stress_lag1, stress_filled, stress_missing at row i (previous day's stress). */
  function StressFeaturesAt(rows: seq<LogRow>, i: int): StressFeatures
    requires 0 <= i < |rows|
  {
    var lagged := Shift(StressSeries(rows));
    StressFeatures(lagged[i], FillAt(lagged, i, 7), if lagged[i].None? then 1 else 0)
  }

  /** day_of_week from the date key; None when pandas cannot parse the key. */
  function DayOfWeek(key: string): Option<int>
  {
    match ParseDateKey(key)
    case Some(d) => Some(Weekday(d))
    case None => None
  }

  /** is_weekend: day_of_week.isin([5, 6]). */
  function IsWeekendFlag(dow: int): int
  {
    if dow == 5 || dow == 6 then 1 else 0
  }

  function FeatureRowAt(rows: seq<LogRow>, i: int): FeatureRow
    requires 0 <= i < |rows|
    requires DayOfWeek(rows[i].dateKey).Some?
  {
    var dow := DayOfWeek(rows[i].dateKey).value;
    FeatureRow(dow, IsWeekendFlag(dow), MoodFeaturesAt(rows, i), SleepFeaturesAt(rows, i),
               StepsFeaturesAt(rows, i), StressFeaturesAt(rows, i))
  }

  predicate AllKeysParse(rows: seq<LogRow>)
  {
    forall k :: 0 <= k < |rows| ==> DayOfWeek(rows[k].dateKey).Some?
  }

  /**
   * build_features: the rows sorted by key, one feature row each; None
   * when some key is not a calendar date (pd.to_datetime raises).
   */
  function BuildFeatures(rows: seq<LogRow>): (r: Option<seq<FeatureRow>>)
    ensures r.Some? <==> AllKeysParse(rows)
    ensures r.Some? ==> |r.value| == |rows|
  {
    var sorted := SortByKey(rows);
    SortByKeySorted(rows);
    SortedKeysParse(rows, sorted);
    if AllKeysParse(sorted) then
      Some(seq(|sorted|, i requires 0 <= i < |sorted| && AllKeysParse(sorted) => FeatureRowAt(sorted, i)))
    else None
  }

  /** Reordering rows does not change whether all their keys parse. */
  lemma SortedKeysParse(rows: seq<LogRow>, sorted: seq<LogRow>)
    requires multiset(sorted) == multiset(rows)
    ensures AllKeysParse(sorted) <==> AllKeysParse(rows)
  {
    if AllKeysParse(rows) {
      forall k | 0 <= k < |sorted| ensures DayOfWeek(sorted[k].dateKey).Some? {
        assert sorted[k] in multiset(rows);
        var j :| 0 <= j < |rows| && rows[j] == sorted[k];
      }
    }
    if AllKeysParse(sorted) {
      forall k | 0 <= k < |rows| ensures DayOfWeek(rows[k].dateKey).Some? {
        assert rows[k] in multiset(sorted);
        var j :| 0 <= j < |sorted| && sorted[j] == rows[k];
      }
    }
  }

  /** Each feature row is computed from the sorted rows at the same position. */
  lemma BuildFeaturesAt(rows: seq<LogRow>, i: int)
    requires BuildFeatures(rows).Some?
    requires 0 <= i < |rows|
    ensures AllKeysParse(SortByKey(rows))
    ensures BuildFeatures(rows).value[i] == FeatureRowAt(SortByKey(rows), i)
  {
    SortByKeySorted(rows);
    SortedKeysParse(rows, SortByKey(rows));
  }

  // ---- the feature column list ----

  /** get_feature_columns(). */
  function FeatureColumns(): seq<string>
  {
    ["day_of_week", "is_weekend", "mood_lag1", "mood_ma3", "mood_ma7", "mood_delta1",
     "mood_dev14", "sleep_hours_filled", "sleep_missing", "sleep_dev", "steps_filled",
     "steps_missing", "steps_dev", "stress_filled", "stress_missing"]
  }

  /** The value of a named column of build_features' output; None for a name that is no column. */
  function Column(f: FeatureRow, name: string): Option<Option<real>>
  {
    if name == "day_of_week" then Some(Some(f.dayOfWeek as real))
    else if name == "is_weekend" then Some(Some(f.isWeekend as real))
    else if name == "mood_lag1" then Some(f.mood.lag1)
    else if name == "mood_ma3" then Some(f.mood.ma3)
    else if name == "mood_ma7" then Some(f.mood.ma7)
    else if name == "mood_delta1" then Some(f.mood.delta1)
    else if name == "mood_ma14" then Some(f.mood.ma14)
    else if name == "mood_dev14" then Some(f.mood.dev14)
    else if name == "sleep_hours_filled" then Some(Some(f.sleep.filled))
    else if name == "sleep_missing" then Some(Some(f.sleep.missing as real))
    else if name == "sleep_dev" then Some(f.sleep.dev)
    else if name == "steps_lag1" then Some(f.steps.lag1)
    else if name == "steps_filled" then Some(Some(f.steps.filled))
    else if name == "steps_missing" then Some(Some(f.steps.missing as real))
    else if name == "steps_dev" then Some(f.steps.dev)
    else if name == "stress_lag1" then Some(f.stress.lag1)
    else if name == "stress_filled" then Some(Some(f.stress.filled))
    else if name == "stress_missing" then Some(Some(f.stress.missing as real))
    else None
  }

  /** get_feature_columns lists 15 distinct names, each a column of every feature row. */
  lemma FeatureColumnsSpec(f: FeatureRow)
    ensures |FeatureColumns()| == 15
    ensures forall a, b :: 0 <= a < b < 15 ==> FeatureColumns()[a] != FeatureColumns()[b]
    ensures forall k :: 0 <= k < 15 ==> Column(f, FeatureColumns()[k]).Some?
  {
  }

  /** The row's values for the model's feature columns, in column order (X). */
  function FeatureVector(f: FeatureRow): (v: seq<Option<real>>)
    ensures |v| == |FeatureColumns()|
    ensures forall k :: 0 <= k < |v| ==> Some(v[k]) == Column(f, FeatureColumns()[k])
  {
    FeatureColumnsSpec(f);
    seq(|FeatureColumns()|, k requires 0 <= k < |FeatureColumns()| => Column(f, FeatureColumns()[k]).value)
  }

  // ---- properties ----

  lemma MoodPrefix(r1: seq<LogRow>, r2: seq<LogRow>, i: int)
    requires 0 <= i < |r1| && i < |r2|
    requires forall j :: 0 <= j < i ==> r1[j].mood == r2[j].mood
    ensures Shift(MoodSeries(r1))[..i + 1] == Shift(MoodSeries(r2))[..i + 1]
  {
  }

  /** No leakage: the mood features at row i are a function of the moods before row i. */
  lemma MoodNoLeakage(r1: seq<LogRow>, r2: seq<LogRow>, i: int)
    requires 0 <= i < |r1| && i < |r2|
    requires forall j :: 0 <= j < i ==> r1[j].mood == r2[j].mood
    ensures MoodFeaturesAt(r1, i) == MoodFeaturesAt(r2, i)
  {
    var l1, l2 := Shift(MoodSeries(r1)), Shift(MoodSeries(r2));
    MoodPrefix(r1, r2, i);
    assert l1[i] == l1[..i + 1][i] == l2[i];
    RollingMeanCausal(l1, l2, i, 3, 1);
    RollingMeanCausal(l1, l2, i, 7, 1);
    RollingMeanCausal(l1, l2, i, 14, 7);
    if i >= 1 {
      assert Shift(l1)[i] == l1[i - 1] == l1[..i + 1][i - 1] == l2[i - 1] == Shift(l2)[i];
    }
  }

  /** Lag and delta: mood_lag1 = mood(i-1), mood_delta1 = mood(i-1) - mood(i-2), mood_dev14 = lag1 - ma14. */
  lemma MoodLagDelta(rows: seq<LogRow>, i: int)
    requires 0 <= i < |rows|
    ensures var f := MoodFeaturesAt(rows, i);
      && f.lag1 == (if i >= 1 then Some(rows[i - 1].mood as real) else None)
      && f.delta1 == (if i >= 2 then Some((rows[i - 1].mood - rows[i - 2].mood) as real) else None)
      && f.dev14 == Sub(f.lag1, f.ma14)
  {
    var m := MoodSeries(rows);
    var lagged := Shift(m);
    if i >= 1 {
      assert lagged[i] == m[i - 1] == Some(rows[i - 1].mood as real);
    }
    if i >= 2 {
      assert Shift(lagged)[i] == lagged[i - 1] == m[i - 2] == Some(rows[i - 2].mood as real);
    }
  }

  /**
   * Rolling means: mood_ma3 / mood_ma7 are the mean of the moods of the
   * 3 / 7 rows before row i (fewer near the start) and missing at row 0;
   * mood_ma14 is the mean of up to 14 rows before i and needs at least 7.
   */
  lemma MoodRollingMeans(rows: seq<LogRow>, i: int)
    requires 0 <= i < |rows|
    ensures var f := MoodFeaturesAt(rows, i);
      var m := Reals(Moods(rows));
      && f.ma3 == (if i >= 1 then Some(Mean(m[Max(0, i - 3)..i])) else None)
      && f.ma7 == (if i >= 1 then Some(Mean(m[Max(0, i - 7)..i])) else None)
      && f.ma14 == (if i >= 7 then Some(Mean(m[Max(0, i - 14)..i])) else None)
  {
    var m := Reals(Moods(rows));
    var lagged := Shift(MoodSeries(rows));
    if i == 0 {
      assert Window(lagged, 0, 3) == [None] && Window(lagged, 0, 7) == [None] && Window(lagged, 0, 14) == [None];
    } else {
      WindowOfLagged(m, i, 3);
      WindowOfLagged(m, i, 7);
      WindowOfLagged(m, i, 14);
    }
  }

  /** The window of the shifted complete column at row i >= 1 holds rows max(0, i-k) .. i-1. */
  lemma WindowOfLagged(m: seq<real>, i: int, k: nat)
    requires 1 <= i < |m| && k >= 1
    ensures Present(Window(Shift(Somes(m)), i, k)) == m[Max(0, i - k)..i]
  {
    var lagged := Shift(Somes(m));
    var w := Window(lagged, i, k);
    if i - k + 1 >= 1 {
      assert w == Somes(m[i - k..i]);
      PresentSomes(m[i - k..i]);
    } else {
      assert w == [None] + Somes(m[..i]);
      PresentSomes(m[..i]);
      PresentAfterNone(Somes(m[..i]));
    }
  }

  lemma {:induction false} PresentAfterNone(xs: seq<Option<real>>)
    ensures Present([None] + xs) == Present(xs)
  {
    if xs != [] {
      assert ([None] + xs)[..|xs|] == [None] + xs[..|xs| - 1];
      PresentAfterNone(xs[..|xs| - 1]);
    }
  }

  /** All six mood features are missing on the first row. */
  lemma MoodFeaturesRowZero(rows: seq<LogRow>)
    requires |rows| > 0
    ensures MoodFeaturesAt(rows, 0) == MoodFeatures(None, None, None, None, None, None)
  {
    MoodRollingMeans(rows, 0);
  }

  lemma LaggedPrefix(xs: seq<Option<real>>, ys: seq<Option<real>>, i: int)
    requires 0 <= i < |xs| && i < |ys|
    requires xs[..i] == ys[..i]
    ensures Shift(xs)[..i + 1] == Shift(ys)[..i + 1]
  {
    forall k | 1 <= k <= i ensures Shift(xs)[k] == Shift(ys)[k] {
      assert xs[k - 1] == xs[..i][k - 1];
    }
  }

  /** No leakage for steps: its features at row i are a function of the steps before row i. */
  lemma StepsNoLeakage(r1: seq<LogRow>, r2: seq<LogRow>, i: int)
    requires 0 <= i < |r1| && i < |r2|
    requires forall j :: 0 <= j < i ==> r1[j].steps == r2[j].steps
    ensures StepsFeaturesAt(r1, i) == StepsFeaturesAt(r2, i)
  {
    var s1, s2 := StepsSeries(r1), StepsSeries(r2);
    assert s1[..i] == s2[..i];
    LaggedPrefix(s1, s2, i);
    var l1, l2 := Shift(s1), Shift(s2);
    assert l1[i] == l1[..i + 1][i] == l2[i];
    FillAtCausal(l1, l2, i, 7);
    RollingMeanCausal(l1, l2, i, 7, 1);
  }

  /** No leakage for stress: its features at row i are a function of the stress values before row i. */
  lemma StressNoLeakage(r1: seq<LogRow>, r2: seq<LogRow>, i: int)
    requires 0 <= i < |r1| && i < |r2|
    requires forall j :: 0 <= j < i ==> r1[j].stress == r2[j].stress
    ensures StressFeaturesAt(r1, i) == StressFeaturesAt(r2, i)
  {
    var s1, s2 := StressSeries(r1), StressSeries(r2);
    assert s1[..i] == s2[..i];
    LaggedPrefix(s1, s2, i);
    var l1, l2 := Shift(s1), Shift(s2);
    assert l1[i] == l1[..i + 1][i] == l2[i];
    FillAtCausal(l1, l2, i, 7);
  }

  /** Sleep features at row i read the sleep of rows 0 .. i (the same day included). */
  lemma SleepCausal(r1: seq<LogRow>, r2: seq<LogRow>, i: int)
    requires 0 <= i < |r1| && i < |r2|
    requires forall j :: 0 <= j <= i ==> r1[j].sleep == r2[j].sleep
    ensures SleepFeaturesAt(r1, i) == SleepFeaturesAt(r2, i)
  {
    var s1, s2 := SleepSeries(r1), SleepSeries(r2);
    assert s1[..i + 1] == s2[..i + 1];
    FillAtCausal(s1, s2, i, 7);
    RollingMeanCausal(s1, s2, i, 7, 1);
  }

  /**
   * Missing flags: sleep_missing follows the same day's sleep, while
   * steps_missing and stress_missing follow the previous day's value, so
   * the first row is always flagged; steps_filled is 0 on the first row.
   */
  lemma MissingFlags(rows: seq<LogRow>, i: int)
    requires 0 <= i < |rows|
    ensures SleepFeaturesAt(rows, i).missing == 1 <==> rows[i].sleep.None?
    ensures StepsFeaturesAt(rows, i).missing == 1 <==> i == 0 || rows[i - 1].steps.None?
    ensures StressFeaturesAt(rows, i).missing == 1 <==> i == 0 || rows[i - 1].stress.None?
    ensures i == 0 ==> StepsFeaturesAt(rows, i).filled == 0.0 && StressFeaturesAt(rows, i).filled == 0.0
  {
    if i == 0 {
      var l := Shift(StepsSeries(rows));
      assert Window(l, 0, 7) == [None];
      var t := Shift(StressSeries(rows));
      assert Window(t, 0, 7) == [None];
    }
  }

  /**
   * The filled steps value is never missing: the previous day's steps
   * when present, else the mean of the values present among the rows
   * i-7 .. i-2, else 0.
   */
  lemma StepsFill(rows: seq<LogRow>, i: int)
    requires 1 <= i < |rows|
    ensures var l := Shift(StepsSeries(rows));
      var before := Present(l[Max(0, i - 6)..i]);
      StepsFeaturesAt(rows, i).filled ==
        if rows[i - 1].steps.Some? then rows[i - 1].steps.value as real
        else if before == [] then 0.0 else Mean(before)
  {
    FillAtSpec(Shift(StepsSeries(rows)), i, 7);
  }

  /** The same fill rule for the stress level. */
  lemma StressFill(rows: seq<LogRow>, i: int)
    requires 1 <= i < |rows|
    ensures var l := Shift(StressSeries(rows));
      var before := Present(l[Max(0, i - 6)..i]);
      StressFeaturesAt(rows, i).filled ==
        if rows[i - 1].stress.Some? then rows[i - 1].stress.value as real
        else if before == [] then 0.0 else Mean(before)
  {
    FillAtSpec(Shift(StressSeries(rows)), i, 7);
  }

  /** day_of_week is the weekday of the key's date, and is_weekend is 1 exactly on Saturday and Sunday. */
  lemma CalendarSpec(d: Date)
    requires ValidDate(d)
    ensures DayOfWeek(DateKey(d)) == Some(Weekday(d))
    ensures 0 <= Weekday(d) <= 6
    ensures IsWeekendFlag(Weekday(d)) == 1 <==> Weekday(d) >= 5
  {
    ParseDateKeyOfDateKey(d);
  }

  /** 2026-01-03 is a Saturday, so it is a weekend day. */
  lemma SaturdayIsWeekend()
    ensures DayOfWeek("2026-01-03") == Some(5)
    ensures IsWeekendFlag(DayOfWeek("2026-01-03").value) == 1
  {
    assert ParseDateKey("2026-01-03") == Some(Date(2026, 1, 3));
  }
}
