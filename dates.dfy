/**
 * Proleptic Gregorian calendar dates and their "YYYY-MM-DD" keys, as
 * Python's datetime.date and pandas.to_datetime handle them: the ordinal
 * of a date (0001-01-01 is day 1), the weekday (Monday = 0 .. Sunday = 6),
 * subtracting days, and formatting / parsing of the date key.
 */
module Dates {
  import opened Wrappers

  datatype Date = Date(year: int, month: int, day: int)

  predicate IsLeapYear(y: int)
  {
    y % 4 == 0 && (y % 100 != 0 || y % 400 == 0)
  }

  function DaysInMonth(y: int, m: int): (r: int)
    requires 1 <= m <= 12
    ensures 28 <= r <= 31
    ensures r == 29 <==> m == 2 && IsLeapYear(y)
  {
    if m == 2 then (if IsLeapYear(y) then 29 else 28)
    else if m == 4 || m == 6 || m == 9 || m == 11 then 30
    else 31
  }

  /** A date datetime.date accepts: years 1 to 9999, a real month and day. */
  predicate ValidDate(d: Date)
  {
    1 <= d.year <= 9999 && 1 <= d.month <= 12 && 1 <= d.day <= DaysInMonth(d.year, d.month)
  }

  /** Days of the year before the first of month m. */
  function DaysBeforeMonth(y: int, m: int): (r: int)
    requires 1 <= m <= 12
    ensures m > 1 ==> r == DaysBeforeMonth(y, m - 1) + DaysInMonth(y, m - 1)
  {
    var leap := if IsLeapYear(y) then 1 else 0;
    if m == 1 then 0
    else if m == 2 then 31
    else if m == 3 then 59 + leap
    else if m == 4 then 90 + leap
    else if m == 5 then 120 + leap
    else if m == 6 then 151 + leap
    else if m == 7 then 181 + leap
    else if m == 8 then 212 + leap
    else if m == 9 then 243 + leap
    else if m == 10 then 273 + leap
    else if m == 11 then 304 + leap
    else 334 + leap
  }

  /** Days before January 1 of year y, counting from 0001-01-01. */
  function DaysBeforeYear(y: int): int
    requires y >= 1
  {
    var p := y - 1;
    365 * p + p / 4 - p / 100 + p / 400
  }

  /** date.toordinal(): 0001-01-01 is day 1. */
  function Ordinal(d: Date): int
    requires ValidDate(d)
  {
    DaysBeforeYear(d.year) + DaysBeforeMonth(d.year, d.month) + d.day
  }

  /** date.weekday() and pandas' dt.dayofweek: Monday = 0 .. Sunday = 6. */
  function Weekday(d: Date): (r: int)
    requires ValidDate(d)
    ensures 0 <= r <= 6
  {
    (Ordinal(d) + 6) % 7
  }

  lemma DivStep4(p: int)
    requires p >= 1
    ensures p / 4 - (p - 1) / 4 == if p % 4 == 0 then 1 else 0
  {
  }

  lemma DivStep100(p: int)
    requires p >= 1
    ensures p / 100 - (p - 1) / 100 == if p % 100 == 0 then 1 else 0
  {
  }

  lemma DivStep400(p: int)
    requires p >= 1
    ensures p / 400 - (p - 1) / 400 == if p % 400 == 0 then 1 else 0
  {
  }

  /** A year has 365 days, or 366 when it is a leap year. */
  lemma YearLength(y: int)
    requires y >= 1
    ensures DaysBeforeYear(y + 1) - DaysBeforeYear(y) == if IsLeapYear(y) then 366 else 365
  {
    DivStep4(y);
    DivStep100(y);
    DivStep400(y);
    Mod400Mod100(y);
    Mod100Mod4(y);
  }

  lemma Mod400Mod100(y: int)
    ensures y % 400 == 0 ==> y % 100 == 0
  {
    if y % 400 == 0 {
      var q := y / 400;
      assert y == 100 * (4 * q);
    }
  }

  lemma Mod100Mod4(y: int)
    ensures y % 100 == 0 ==> y % 4 == 0
  {
    if y % 100 == 0 {
      var q := y / 100;
      assert y == 4 * (25 * q);
    }
  }


  /** The day before a date; 0001-01-01 has none. */
  function PrevDay(d: Date): (r: Date)
    requires ValidDate(d) && Ordinal(d) > 1
    ensures ValidDate(r)
    ensures Ordinal(r) == Ordinal(d) - 1
  {
    if d.day > 1 then Date(d.year, d.month, d.day - 1)
    else if d.month > 1 then Date(d.year, d.month - 1, DaysInMonth(d.year, d.month - 1))
    else
      YearLength(d.year - 1);
      Date(d.year - 1, 12, 31)
  }

  /** today - timedelta(days=k). */
  function DaysBefore(d: Date, k: nat): (r: Date)
    requires ValidDate(d) && Ordinal(d) > k
    ensures ValidDate(r)
    ensures Ordinal(r) == Ordinal(d) - k
  {
    if k == 0 then d else PrevDay(DaysBefore(d, k - 1))
  }

  // ---- the "YYYY-MM-DD" key ----

  function Digit(n: int): (c: char)
    requires 0 <= n <= 9
    ensures IsDigit(c)
  {
    ('0' as int + n) as char
  }

  predicate IsDigit(c: char)
  {
    '0' <= c <= '9'
  }

  function DigitValue(c: char): (n: int)
    requires IsDigit(c)
    ensures 0 <= n <= 9
  {
    c as int - '0' as int
  }

  lemma DigitRoundTrip(n: int, c: char)
    requires 0 <= n <= 9 && IsDigit(c)
    ensures DigitValue(Digit(n)) == n
    ensures Digit(DigitValue(c)) == c
  {
  }

  /** Two decimal digits, zero-padded (strftime's %m and %d). */
  function Pad2(n: int): (s: string)
    requires 0 <= n <= 99
    ensures |s| == 2 && IsDigit(s[0]) && IsDigit(s[1])
  {
    [Digit(n / 10), Digit(n % 10)]
  }

  /** strftime's %Y for a year of up to four digits, zero-padded. */
  function Pad4(n: int): (s: string)
    requires 0 <= n <= 9999
    ensures |s| == 4
  {
    Pad2(n / 100) + Pad2(n % 100)
  }

  /** strftime("%Y-%m-%d"). */
  function DateKey(d: Date): (s: string)
    requires ValidDate(d)
    ensures |s| == 10
  {
    Pad4(d.year) + "-" + Pad2(d.month) + "-" + Pad2(d.day)
  }

  predicate KeyShaped(s: string)
  {
    |s| == 10 && s[4] == '-' && s[7] == '-'
    && IsDigit(s[0]) && IsDigit(s[1]) && IsDigit(s[2]) && IsDigit(s[3])
    && IsDigit(s[5]) && IsDigit(s[6]) && IsDigit(s[8]) && IsDigit(s[9])
  }

  function TwoDigits(a: char, b: char): (n: int)
    requires IsDigit(a) && IsDigit(b)
    ensures 0 <= n <= 99
  {
    DigitValue(a) * 10 + DigitValue(b)
  }

  /**
   * pd.to_datetime on a canonical "YYYY-MM-DD" key: None when the text is
   * not of that shape or names no calendar date (pandas raises).
   */
  function ParseDateKey(s: string): Option<Date>
  {
    if !KeyShaped(s) then None
    else
      var d := Date(TwoDigits(s[0], s[1]) * 100 + TwoDigits(s[2], s[3]),
                    TwoDigits(s[5], s[6]), TwoDigits(s[8], s[9]));
      if ValidDate(d) then Some(d) else None
  }

  lemma Pad2RoundTrip(n: int, a: char, b: char)
    requires 0 <= n <= 99 && IsDigit(a) && IsDigit(b)
    ensures TwoDigits(Pad2(n)[0], Pad2(n)[1]) == n
    ensures Pad2(TwoDigits(a, b)) == [a, b]
  {
    DigitRoundTrip(n / 10, a);
    DigitRoundTrip(n % 10, b);
    var v := TwoDigits(a, b);
    assert v / 10 == DigitValue(a) && v % 10 == DigitValue(b);
  }

  /** Parsing a formatted key gives the date back. */
  lemma ParseDateKeyOfDateKey(d: Date)
    requires ValidDate(d)
    ensures ParseDateKey(DateKey(d)) == Some(d)
  {
    var s := DateKey(d);
    Pad2RoundTrip(d.year / 100, '0', '0');
    Pad2RoundTrip(d.year % 100, '0', '0');
    Pad2RoundTrip(d.month, '0', '0');
    Pad2RoundTrip(d.day, '0', '0');
    assert s[0..2] == Pad2(d.year / 100) && s[2..4] == Pad2(d.year % 100);
    assert s[5..7] == Pad2(d.month) && s[8..10] == Pad2(d.day);
  }

  /** A key that parses is the formatted key of the date it names. */
  lemma DateKeyOfParseDateKey(s: string)
    requires ParseDateKey(s).Some?
    ensures ValidDate(ParseDateKey(s).value)
    ensures DateKey(ParseDateKey(s).value) == s
  {
    var d := ParseDateKey(s).value;
    var hi, lo := TwoDigits(s[0], s[1]), TwoDigits(s[2], s[3]);
    assert d.year / 100 == hi && d.year % 100 == lo;
    Pad2RoundTrip(0, s[0], s[1]);
    Pad2RoundTrip(0, s[2], s[3]);
    Pad2RoundTrip(0, s[5], s[6]);
    Pad2RoundTrip(0, s[8], s[9]);
    assert s == [s[0], s[1]] + [s[2], s[3]] + "-" + [s[5], s[6]] + "-" + [s[8], s[9]];
  }
}
