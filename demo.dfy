/**
 * generate_test_data: a synthetic history of n_days daily logs ending on
 * today, with short runs of sick days. The random generator is a stream
 * of draws in [0, 1) consumed in call order, and today is a parameter.
 */
module Demo {
  import opened Wrappers
  import opened PyNum
  import opened Records
  import opened Dates

  /** rng.randint(lo, hi) from one draw. */
  function RandInt(u: real, lo: int, hi: int): (r: int)
    requires 0.0 <= u < 1.0 && lo <= hi
    ensures lo <= r <= hi
  {
    var n := (hi - lo + 1) as real;
    assert u * n < n;
    lo + (u * n).Floor
  }

  /** rng.choice(xs) from one draw. */
  function Choice(u: real, xs: seq<int>): (r: int)
    requires 0.0 <= u < 1.0 && |xs| > 0
    ensures r in xs
  {
    xs[RandInt(u, 0, |xs| - 1)]
  }

  /** The days_ago at which a sick run starts. */
  const Starts: seq<int> := [8, 25, 48, 67, 85]

  ghost predicate DrawsInRange(draw: nat -> real)
  {
    forall k: nat :: 0.0 <= draw(k) < 1.0
  }

  /** The run starting at Starts[j] lasts randint(2, 3) days, from the j-th draw. */
  function Duration(draw: nat -> real, j: nat): (d: int)
    requires DrawsInRange(draw)
    ensures 2 <= d <= 3
  {
    RandInt(draw(j), 2, 3)
  }

  /** The days_ago values start, start + 1, ..., start + len - 1. */
  function Run(start: int, len: nat): set<int>
  {
    if len == 0 then {} else Run(start, len - 1) + {start + len - 1}
  }

  lemma {:induction false} RunMembers(start: int, len: nat, x: int)
    ensures x in Run(start, len) <==> start <= x < start + len
  {
    if len > 0 {
      RunMembers(start, len - 1, x);
    }
  }

  /** The sick days of the first j runs. */
  function SickUpTo(draw: nat -> real, j: nat): set<int>
    requires DrawsInRange(draw) && j <= 5
  {
    if j == 0 then {} else SickUpTo(draw, j - 1) + Run(Starts[j - 1], Duration(draw, j - 1))
  }

  function SickDays(draw: nat -> real): set<int>
    requires DrawsInRange(draw)
  {
    SickUpTo(draw, 5)
  }

  /** The nested loops that fill sick_days; they consume the first five draws. */
  method BuildSickDays(draw: nat -> real) returns (sick: set<int>)
    requires DrawsInRange(draw)
    ensures sick == SickDays(draw)
  {
    sick := {};
    var j := 0;
    while j < 5
      invariant 0 <= j <= 5
      invariant sick == SickUpTo(draw, j)
    {
      var duration := RandInt(draw(j), 2, 3);
      var d := 0;
      while d < duration
        invariant 0 <= d <= duration
        invariant sick == SickUpTo(draw, j) + Run(Starts[j], d)
      {
        sick := sick + {Starts[j] + d};
        d := d + 1;
      }
      j := j + 1;
    }
  }

  lemma {:induction false} SickUpToMembers(draw: nat -> real, j: nat, x: int)
    requires DrawsInRange(draw) && j <= 5
    ensures x in SickUpTo(draw, j) <==> exists k :: 0 <= k < j && Starts[k] <= x < Starts[k] + Duration(draw, k)
  {
    if j > 0 {
      SickUpToMembers(draw, j - 1, x);
      RunMembers(Starts[j - 1], Duration(draw, j - 1), x);
    }
  }

  /**
   * Each start contributes its own day and the next (duration at least
   * 2), the one after that exactly when its duration is 3, and nothing
   * outside the five runs is a sick day.
   */
  lemma SickRuns(draw: nat -> real, x: int)
    requires DrawsInRange(draw)
    ensures x in SickDays(draw) <==> exists k :: 0 <= k < 5 && Starts[k] <= x < Starts[k] + Duration(draw, k)
    ensures forall k :: 0 <= k < 5 ==> 2 <= Duration(draw, k) <= 3
  {
    SickUpToMembers(draw, 5, x);
  }

  /** The sleep value: a base in [6.5, 8.5), less 1 to 2 hours on bad days, plus 0.5 at weekends, to one decimal. */
  predicate SleepFrom(v: real, base: real, drop: real, mood: int, weekend: bool)
  {
    && 6.5 <= base < 8.5
    && (if mood <= 2 then 1.0 <= drop < 2.0 else drop == 0.0)
    && v == RoundTo(base - drop + (if weekend then 0.5 else 0.0), 1)
  }

  /** The rules one generated row follows, for its day and whether that day is sick. */
  ghost predicate RowRules(r: LogRow, day: Date, sick: bool)
    requires ValidDate(day)
  {
    var weekend := Weekday(day) >= 5;
    && ParseDateKey(r.dateKey) == Some(day)
    && (if sick then 1 <= r.mood <= 2 else if weekend then 3 <= r.mood <= 5 else 2 <= r.mood <= 5)
    && r.steps.Some?
    && (if r.mood <= 2 then 2000 <= r.steps.value <= 5000 else 5000 <= r.steps.value <= 13000)
    && (r.stress.Some? ==> if r.mood <= 2 then 3 <= r.stress.value <= 5 else 1 <= r.stress.value <= 3)
    && r.sleep.Some?
    && exists base, drop :: SleepFrom(r.sleep.value, base, drop, r.mood, weekend)
  }

  /** Row r is a valid generated row for the day daysAgo days before today. */
  ghost predicate RowOn(r: LogRow, today: Date, daysAgo: int, sick: bool)
    requires ValidDate(today)
  {
    exists day: Date :: ValidDate(day) && Ordinal(day) == Ordinal(today) - daysAgo && RowRules(r, day, sick)
  }

  /** Every row of rows is valid for its day, row k lying n - 1 - k days before today. */
  ghost predicate RowsOn(rows: seq<LogRow>, today: Date, n: int, sick: set<int>)
    requires ValidDate(today)
  {
    forall k :: 0 <= k < |rows| ==> RowOn(rows[k], today, n - 1 - k, n - 1 - k in sick)
  }

  lemma RowsOnSnoc(rows: seq<LogRow>, row: LogRow, today: Date, n: int, sick: set<int>, daysAgo: int)
    requires ValidDate(today) && RowsOn(rows, today, n, sick)
    requires daysAgo == n - 1 - |rows| && RowOn(row, today, daysAgo, daysAgo in sick)
    ensures RowsOn(rows + [row], today, n, sick)
  {
    var r := rows + [row];
    forall k | 0 <= k < |r| ensures RowOn(r[k], today, n - 1 - k, n - 1 - k in sick) {
      if k < |rows| {
        assert r[k] == rows[k];
      }
    }
  }

  /** One row of the loop body, drawing from position next on; returns where the next row starts drawing. */
  method GenerateRow(day: Date, sick: bool, draw: nat -> real, next: nat) returns (row: LogRow, after: nat)
    requires ValidDate(day) && DrawsInRange(draw)
    ensures RowRules(row, day, sick)
    ensures next + 4 <= after <= next + 6
  {
    var key := DateKey(day);
    ParseDateKeyOfDateKey(day);
    var weekend := Weekday(day) >= 5;
    after := next;

    var mood: int;
    if sick {
      mood := RandInt(draw(after), 1, 2);
    } else if weekend {
      mood := Choice(draw(after), [3, 4, 4, 5]);
    } else {
      mood := Choice(draw(after), [2, 3, 3, 4, 4, 5]);
    }
    after := after + 1;

    var baseSleep := 6.5 + draw(after) * 2.0;
    ghost var base := baseSleep;
    ghost var drop := 0.0;
    after := after + 1;
    if mood <= 2 {
      drop := 1.0 + draw(after);
      baseSleep := baseSleep - (1.0 + draw(after));
      after := after + 1;
    }
    if weekend {
      baseSleep := baseSleep + 0.5;
    }
    var sleepHours := RoundTo(baseSleep, 1);
    assert SleepFrom(sleepHours, base, drop, mood, weekend);

    var steps := if mood <= 2 then RandInt(draw(after), 2000, 5000) else RandInt(draw(after), 5000, 13000);
    after := after + 1;

    var stress: Option<int> := None;
    var keep := draw(after) > 0.2;
    after := after + 1;
    if keep {
      stress := Some(if mood <= 2 then RandInt(draw(after), 3, 5) else RandInt(draw(after), 1, 3));
      after := after + 1;
    }

    row := LogRow(key, mood, Some(sleepHours), Some(steps), stress);
  }

  /**
   * generate_test_data: n_days rows whose keys are the consecutive days
   * ending on today, each following the row rules with row i sick when
   * its days_ago (n_days - 1 - i) is a sick day.
   */
  method GenerateTestData(nDays: nat, today: Date, draw: nat -> real) returns (rows: seq<LogRow>)
    requires ValidDate(today) && nDays <= Ordinal(today)
    requires DrawsInRange(draw)
    ensures |rows| == nDays
    ensures forall i :: 0 <= i < nDays ==> RowOn(rows[i], today, nDays - 1 - i, nDays - 1 - i in SickDays(draw))
  {
    var sick := BuildSickDays(draw);
    var next: nat := 5;
    rows := [];
    var i := 0;
    while i < nDays
      invariant 0 <= i <= nDays && |rows| == i
      invariant RowsOn(rows, today, nDays, sick)
    {
      var daysAgo := nDays - 1 - i;
      var day := DaysBefore(today, daysAgo);
      var row;
      row, next := GenerateRow(day, daysAgo in sick, draw, next);
      assert RowOn(row, today, daysAgo, daysAgo in sick);
      RowsOnSnoc(rows, row, today, nDays, sick, daysAgo);
      rows := rows + [row];
      i := i + 1;
    }
  }

  /** round(x, 1) is a whole number of tenths within any whole-tenth bounds of x. */
  lemma TenthsWithin(x: real, lo: int, hi: int)
    requires lo as real <= x * 10.0 <= hi as real
    ensures lo as real <= RoundTo(x, 1) * 10.0 <= hi as real
    ensures (RoundTo(x, 1) * 10.0).Floor as real == RoundTo(x, 1) * 10.0
  {
    assert Pow10(1) == 10;
    RoundScaledBounds(x, 10.0, lo, hi);
  }

  /** A generated sleep value is a whole number of tenths between the bounds its mood and day allow. */
  lemma SleepRange(v: real, base: real, drop: real, mood: int, weekend: bool)
    requires SleepFrom(v, base, drop, mood, weekend)
    ensures var lo := (if mood <= 2 then 45 else 65) + (if weekend then 5 else 0);
      var hi := (if mood <= 2 then 75 else 85) + (if weekend then 5 else 0);
      && lo as real <= v * 10.0 <= hi as real
      && (v * 10.0).Floor as real == v * 10.0
  {
    var x := base - drop + (if weekend then 0.5 else 0.0);
    var w := if weekend then 5 else 0;
    if mood <= 2 {
      TenthsWithin(x, 45 + w, 75 + w);
    } else {
      TenthsWithin(x, 65 + w, 85 + w);
    }
  }
}
