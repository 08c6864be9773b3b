/**
 * generate_advice: up to two pieces of advice drawn from the user's own
 * good and bad days. A good day has a mood at least half a point above
 * the mean, a bad day at least half a point below. Each message is
 * modelled by the numbers it carries.
 */
module Advice {
  import opened Wrappers
  import opened PyNum
  import opened Series
  import opened Records
  import opened Features

  datatype Advice =
    | SleepAdvice(recHours: real, bedHour: int, bedMinute: int)
    | StepsAdvice(threshold: int)
    | StressAdvice(level: int, diffPct: int)

  /** The "param" field of the advice record. */
  function Param(a: Advice): string
  {
    match a
    case SleepAdvice(_, _, _) => "sleep"
    case StepsAdvice(_) => "steps"
    case StressAdvice(_, _) => "stress"
  }

  /** Position of each kind in the fixed order sleep, steps, stress. */
  function Order(a: Advice): nat
  {
    match a
    case SleepAdvice(_, _, _) => 0
    case StepsAdvice(_) => 1
    case StressAdvice(_, _) => 2
  }

  function MoodMean(rows: seq<LogRow>): real
    requires |rows| > 0
  {
    Mean(Reals(Moods(rows)))
  }

  function GoodDays(rows: seq<LogRow>, mean: real): seq<LogRow>
  {
    Where(rows, (r: LogRow) => r.mood as real >= mean + 0.5)
  }

  function BadDays(rows: seq<LogRow>, mean: real): seq<LogRow>
  {
    Where(rows, (r: LogRow) => r.mood as real <= mean - 0.5)
  }

  function SleepValues(rows: seq<LogRow>): seq<real> { Present(SleepSeries(rows)) }
  function StepValues(rows: seq<LogRow>): seq<real> { Present(StepsSeries(rows)) }
  function StressValues(rows: seq<LogRow>): seq<real> { Present(StressSeries(rows)) }

  // ---- bedtime ----

  /** rec_bed_hour as written: int(24 + 7 - rec_hours) % 24. */
  function BedHourAsWritten(rec: real): (h: int)
    ensures 0 <= h < 24
  {
    Trunc(31.0 - rec) % 24
  }

  /** rec_bed_min as written: int((rec_hours % 1) * 60), the minutes of the sleep length. */
  function BedMinuteAsWritten(rec: real): (m: int)
    ensures 0 <= m < 60
  {
    Trunc(FracPart(rec) * 60.0)
  }

  /** The recommended sleep length in whole minutes. */
  function SleepMinutes(rec: real): int
  {
    RoundHalfEven(rec * 60.0)
  }

  /** Minutes after midnight of 7:00 minus the recommended sleep. */
  function BedClock(rec: real): (b: int)
    ensures 0 <= b < 1440
  {
    (31 * 60 - SleepMinutes(rec)) % 1440
  }

  function BedHour(rec: real): int { BedClock(rec) / 60 }
  function BedMinute(rec: real): int { BedClock(rec) % 60 }

  lemma ModOfMultiplePlus(a: int, q: int, r: int)
    requires 0 <= r < 1440 && a == 1440 * q + r
    ensures a % 1440 == r
  {
  }

  /** Going to bed at the corrected time and sleeping the recommended length wakes the user at 7:00. */
  lemma BedtimeWakesAtSeven(rec: real)
    ensures 0 <= BedHour(rec) < 24 && 0 <= BedMinute(rec) < 60
    ensures (BedHour(rec) * 60 + BedMinute(rec) + SleepMinutes(rec)) % 1440 == 7 * 60
  {
    var m := SleepMinutes(rec);
    var b := BedClock(rec);
    var q := (1860 - m) / 1440;
    assert 1860 - m == 1440 * q + b;
    assert BedHour(rec) * 60 + BedMinute(rec) == b;
    ModOfMultiplePlus(b + m, 1 - q, 420);
  }

  /**
   * As written, the minute is the fraction of the sleep length instead of
   * the fraction of 31 - rec_hours: for 7.2 hours the bedtime reads 23:12,
   * and sleeping 7.2 hours from 23:12 ends at 6:24, while the corrected
   * bedtime is 23:48.
   */
  lemma BedtimeAsWrittenMisses()
    ensures BedHourAsWritten(7.2) == 23 && BedMinuteAsWritten(7.2) == 12
    ensures (BedHourAsWritten(7.2) * 60 + BedMinuteAsWritten(7.2) + SleepMinutes(7.2)) % 1440 != 7 * 60
    ensures BedHour(7.2) == 23 && BedMinute(7.2) == 48
  {
    assert (7.2).Floor == 7;
    assert (23.8).Floor == 23;
    assert (12.0).Floor == 12;
    assert (432.0).Floor == 432;
  }

  // ---- the three rules ----

  /** Sleep: at least 3 known sleep values in each cluster and a gap of more than 0.3 h. */
  function SleepRule(good: seq<LogRow>, bad: seq<LogRow>): (a: Option<Advice>)
    ensures a.Some? <==> |SleepValues(good)| >= 3 && |SleepValues(bad)| >= 3
                         && Mean(SleepValues(good)) - Mean(SleepValues(bad)) > 0.3
    ensures a.Some? ==> a.value.SleepAdvice? && a.value.recHours == RoundTo(Mean(SleepValues(good)), 1)
    ensures a.Some? ==> a.value.bedHour == BedHourAsWritten(a.value.recHours)
                        && a.value.bedMinute == BedMinuteAsWritten(a.value.recHours)
  {
    var gs, bs := SleepValues(good), SleepValues(bad);
    if |gs| >= 3 && |bs| >= 3 && Mean(gs) - Mean(bs) > 0.3 then
      var rec := RoundTo(Mean(gs), 1);
      Some(SleepAdvice(rec, BedHourAsWritten(rec), BedMinuteAsWritten(rec)))
    else None
  }

  /** Steps: at least 3 known step counts in each cluster and a gap of more than 500. */
  function StepsRule(good: seq<LogRow>, bad: seq<LogRow>): (a: Option<Advice>)
    ensures a.Some? <==> |StepValues(good)| >= 3 && |StepValues(bad)| >= 3
                         && Mean(StepValues(good)) - Mean(StepValues(bad)) > 500.0
    ensures a.Some? ==> a.value.StepsAdvice? && a.value.threshold % 1000 == 0
    ensures a.Some? ==> -500.0 <= a.value.threshold as real - Mean(StepValues(good)) <= 500.0
  {
    var gs, bs := StepValues(good), StepValues(bad);
    if |gs| >= 3 && |bs| >= 3 && Mean(gs) - Mean(bs) > 500.0 then
      Some(StepsAdvice(RoundHalfEven(Mean(gs) / 1000.0) * 1000))
    else None
  }

  /** fillna(99) <= rec_level: a row with no stress joins only when rec_level >= 99. */
  predicate LowStress(r: LogRow, level: int)
  {
    (if r.stress.Some? then r.stress.value else 99) <= level
  }

  /** fillna(0) > rec_level: a row with no stress joins only when rec_level < 0. */
  predicate HighStress(r: LogRow, level: int)
  {
    (if r.stress.Some? then r.stress.value else 0) > level
  }

  /** The share of a group's days that are clearly bad (mood <= mean - 1). */
  function BadRate(group: seq<LogRow>, mean: real): (rate: real)
    requires |group| > 0
    ensures 0.0 <= rate <= 1.0
  {
    var bad := |Where(group, (r: LogRow) => r.mood as real <= mean - 1.0)|;
    RatioBounds(bad as real, |group| as real);
    bad as real / |group| as real
  }

  /** valid[valid["stress"].fillna(99) <= rec_level]. */
  function LowGroup(valid: seq<LogRow>, level: int): seq<LogRow>
  {
    Where(valid, (r: LogRow) => LowStress(r, level))
  }

  /** valid[valid["stress"].fillna(0) > rec_level]. */
  function HighGroup(valid: seq<LogRow>, level: int): seq<LogRow>
  {
    Where(valid, (r: LogRow) => HighStress(r, level))
  }

  /** int(round((high_bad_rate - low_bad_rate) * 100)). */
  function DiffPct(valid: seq<LogRow>, mean: real, level: int): int
    requires |LowGroup(valid, level)| > 0 && |HighGroup(valid, level)| > 0
  {
    RoundHalfEven((BadRate(HighGroup(valid, level), mean) - BadRate(LowGroup(valid, level), mean)) * 100.0)
  }

  /** rec_level: the good-day stress mean rounded to an integer. */
  function StressLevel(good: seq<LogRow>): int
    requires |StressValues(good)| > 0
  {
    RoundHalfEven(Mean(StressValues(good)))
  }

  /**
   * Stress: at least 3 known stress values in each cluster, the bad days
   * more than 0.5 more stressed, both stress groups non-empty, and a
   * bad-rate difference of more than 5 points.
   */
  function StressRule(valid: seq<LogRow>, mean: real, good: seq<LogRow>, bad: seq<LogRow>): (a: Option<Advice>)
    ensures a.Some? <==>
      && |StressValues(good)| >= 3 && |StressValues(bad)| >= 3
      && Mean(StressValues(bad)) - Mean(StressValues(good)) > 0.5
      && |LowGroup(valid, StressLevel(good))| > 0 && |HighGroup(valid, StressLevel(good))| > 0
      && DiffPct(valid, mean, StressLevel(good)) > 5
    ensures a.Some? ==> a == Some(StressAdvice(StressLevel(good), DiffPct(valid, mean, StressLevel(good))))
  {
    var gs, bs := StressValues(good), StressValues(bad);
    if |gs| >= 3 && |bs| >= 3 && Mean(bs) - Mean(gs) > 0.5 then
      var level := RoundHalfEven(Mean(gs));
      if |LowGroup(valid, level)| > 0 && |HighGroup(valid, level)| > 0 then
        var diff := DiffPct(valid, mean, level);
        if diff > 5 then Some(StressAdvice(level, diff)) else None
      else None
    else None
  }

  /** The exits before any rule is tried. */
  predicate Eligible(rows: seq<LogRow>, pToday: Option<real>)
  {
    && pToday.Some?
    && |rows| >= 14
    && |GoodDays(rows, MoodMean(rows))| >= 3
    && |BadDays(rows, MoodMean(rows))| >= 3
  }

  function Opt(a: Option<Advice>): seq<Advice>
  {
    if a.Some? then [a.value] else []
  }

  /** Every rule's advice, in the order sleep, steps, stress, before the cap. */
  function Candidates(rows: seq<LogRow>): seq<Advice>
    requires |rows| > 0
  {
    var mean := MoodMean(rows);
    var good, bad := GoodDays(rows, mean), BadDays(rows, mean);
    Opt(SleepRule(good, bad)) + Opt(StepsRule(good, bad)) + Opt(StressRule(rows, mean, good, bad))
  }

  /** advices[:2] of the eligible case, [] otherwise. */
  function AdviceFor(rows: seq<LogRow>, pToday: Option<real>): seq<Advice>
  {
    if Eligible(rows, pToday) then Cap(Candidates(rows)) else []
  }

  /** advices[:2]. */
  function Cap(c: seq<Advice>): (r: seq<Advice>)
    ensures |r| == Min(2, |c|) && r == c[..|r|]
  {
    c[..Min(2, |c|)]
  }

  /** `if advice: advices.append(advice)` */
  method AppendIfAny(all: seq<Advice>, a: Option<Advice>) returns (r: seq<Advice>)
    ensures r == all + Opt(a)
  {
    r := all;
    if a.Some? {
      r := r + [a.value];
    }
  }

  /**
   * generate_advice. Every row carries a mood here, so dropna on
   * moodScore keeps all rows and the second length check is the first.
   */
  method GenerateAdvice(rows: seq<LogRow>, pToday: Option<real>) returns (advices: seq<Advice>)
    ensures advices == AdviceFor(rows, pToday)
  {
    if pToday.None? || |rows| < 14 {
      return [];
    }
    var valid := rows;
    var mean := MoodMean(valid);
    var good, bad := GoodDays(valid, mean), BadDays(valid, mean);
    if |good| < 3 || |bad| < 3 {
      return [];
    }
    var sleep, steps, stress := SleepRule(good, bad), StepsRule(good, bad), StressRule(valid, mean, good, bad);
    var all: seq<Advice> := [];
    all := AppendIfAny(all, sleep);
    assert all == Opt(sleep);
    all := AppendIfAny(all, steps);
    all := AppendIfAny(all, stress);
    assert all == Opt(sleep) + Opt(steps) + Opt(stress);
    assert all == Candidates(rows);
    advices := all[..Min(2, |all|)];
  }

  // ---- properties ----

  /** No advice without a prediction, with fewer than 14 rows, or with a cluster of fewer than 3 days. */
  lemma NoAdviceWhenIneligible(rows: seq<LogRow>, pToday: Option<real>)
    requires pToday.None? || |rows| < 14
             || (|rows| > 0 && (|GoodDays(rows, MoodMean(rows))| < 3 || |BadDays(rows, MoodMean(rows))| < 3))
    ensures AdviceFor(rows, pToday) == []
  {
  }

  /** A constant mood history has no good and no bad days, hence no advice. */
  lemma ConstantMoodNoAdvice(rows: seq<LogRow>, pToday: Option<real>, c: int)
    requires |rows| > 0
    requires forall k :: 0 <= k < |rows| ==> rows[k].mood == c
    ensures GoodDays(rows, MoodMean(rows)) == [] && BadDays(rows, MoodMean(rows)) == []
    ensures AdviceFor(rows, pToday) == []
  {
    MeanOfConstant(Reals(Moods(rows)), c as real);
  }

  /** Options whose advice, if any, is of the kind their position names. */
  predicate InKindOrder(x: Option<Advice>, y: Option<Advice>, z: Option<Advice>)
  {
    (x.Some? ==> x.value.SleepAdvice?) && (y.Some? ==> y.value.StepsAdvice?) && (z.Some? ==> z.value.StressAdvice?)
  }

  lemma CapOrdered(x: Option<Advice>, y: Option<Advice>, z: Option<Advice>)
    requires InKindOrder(x, y, z)
    ensures var a := Cap(Opt(x) + Opt(y) + Opt(z));
      && |a| <= 2
      && (forall i, j :: 0 <= i < j < |a| ==> Order(a[i]) < Order(a[j]))
      && ((exists k :: 0 <= k < |a| && a[k].SleepAdvice?) <==> x.Some?)
      && ((exists k :: 0 <= k < |a| && a[k].StepsAdvice?) <==> y.Some?)
      && ((exists k :: 0 <= k < |a| && a[k].StressAdvice?) <==> z.Some? && !(x.Some? && y.Some?))
  {
    var c := Opt(x) + Opt(y) + Opt(z);
    var a := Cap(c);
    if x.Some? {
      assert a[0] == x.value;
    }
    if y.Some? {
      assert a[if x.Some? then 1 else 0] == y.value;
    }
    if z.Some? && !(x.Some? && y.Some?) {
      assert a[|a| - 1] == z.value;
    }
  }

  lemma CandidatesInKindOrder(rows: seq<LogRow>)
    requires |rows| > 0
    ensures var mean := MoodMean(rows);
      var good, bad := GoodDays(rows, mean), BadDays(rows, mean);
      && InKindOrder(SleepRule(good, bad), StepsRule(good, bad), StressRule(rows, mean, good, bad))
      && Candidates(rows) == Opt(SleepRule(good, bad)) + Opt(StepsRule(good, bad)) + Opt(StressRule(rows, mean, good, bad))
  {
  }

  lemma DistinctParams(a: Advice, b: Advice)
    requires Order(a) != Order(b)
    ensures Param(a) != Param(b)
  {
    assert Param(a)[1] != Param(b)[1] || Param(a)[2] != Param(b)[2];
  }

  /** At most two pieces of advice, in the order sleep, steps, stress, so their params differ. */
  lemma AdviceShape(rows: seq<LogRow>, pToday: Option<real>)
    ensures var a := AdviceFor(rows, pToday);
      && |a| <= 2
      && (forall i, j :: 0 <= i < j < |a| ==> Order(a[i]) < Order(a[j]))
      && (forall i, j :: 0 <= i < j < |a| ==> Param(a[i]) != Param(a[j]))
  {
    var a := AdviceFor(rows, pToday);
    if Eligible(rows, pToday) {
      var mean := MoodMean(rows);
      var good, bad := GoodDays(rows, mean), BadDays(rows, mean);
      CandidatesInKindOrder(rows);
      CapOrdered(SleepRule(good, bad), StepsRule(good, bad), StressRule(rows, mean, good, bad));
      forall i, j | 0 <= i < j < |a| ensures Param(a[i]) != Param(a[j]) {
        DistinctParams(a[i], a[j]);
      }
    }
  }

  /**
   * Which advice is given: sleep whenever its rule fires, steps whenever
   * its rule fires (at most one item precedes it), stress only when its
   * rule fires and sleep and steps did not both fire.
   */
  lemma AdviceSelection(rows: seq<LogRow>, pToday: Option<real>)
    requires Eligible(rows, pToday)
    ensures var mean := MoodMean(rows);
      var good, bad := GoodDays(rows, mean), BadDays(rows, mean);
      var a := AdviceFor(rows, pToday);
      && ((exists k :: 0 <= k < |a| && a[k].SleepAdvice?) <==> SleepRule(good, bad).Some?)
      && ((exists k :: 0 <= k < |a| && a[k].StepsAdvice?) <==> StepsRule(good, bad).Some?)
      && ((exists k :: 0 <= k < |a| && a[k].StressAdvice?) <==>
            StressRule(rows, mean, good, bad).Some? && !(SleepRule(good, bad).Some? && StepsRule(good, bad).Some?))
  {
    var mean := MoodMean(rows);
    var good, bad := GoodDays(rows, mean), BadDays(rows, mean);
    CandidatesInKindOrder(rows);
    CapOrdered(SleepRule(good, bad), StepsRule(good, bad), StressRule(rows, mean, good, bad));
  }

  /** Missing stress puts a row in neither stress group while 0 <= rec_level < 99. */
  lemma MissingStressInNeitherGroup(r: LogRow, level: int)
    requires r.stress.None? && 0 <= level < 99
    ensures !LowStress(r, level) && !HighStress(r, level)
  {
  }

  /** A recommended sleep length of 7.5 h (a good-day mean of 7.46) gives bedtime 23:30; a 0.1 h gap gives no sleep advice. */
  lemma SleepRuleExamples(good: seq<LogRow>, bad: seq<LogRow>)
    requires |SleepValues(good)| >= 3 && |SleepValues(bad)| >= 3
    requires Mean(SleepValues(good)) == 7.46
    ensures Mean(SleepValues(bad)) == 7.36 ==> SleepRule(good, bad).None?
    ensures Mean(SleepValues(bad)) == 5.46 ==> SleepRule(good, bad) == Some(SleepAdvice(7.5, 23, 30))
  {
    assert (74.6).Floor == 74;
    assert (23.5).Floor == 23;
    assert (30.0).Floor == 30;
  }
}
