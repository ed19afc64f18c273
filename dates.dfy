/**
 * Calendar dates as the backend sees them: the `%Y-%m-%d` format of Python's
 * `datetime.strptime` (used on availability keys), day numbers in the proleptic
 * Gregorian calendar (`date.toordinal()`, day 1 being Monday 0001-01-01), the
 * weekday, and the Monday-to-Sunday week around a day. Instants are seconds on
 * one local timeline that starts at 0001-01-01 00:00.
 */
module Dates {
  import opened Wrappers

  datatype Date = Date(year: int, month: int, day: int)

  predicate IsLeapYear(y: int) {
    y % 4 == 0 && (y % 100 != 0 || y % 400 == 0)
  }

  function DaysInMonth(y: int, m: int): (r: int)
    requires 1 <= m <= 12
    ensures 28 <= r <= 31
    ensures m == 2 ==> (r == 29 <==> IsLeapYear(y))
    ensures m != 2 ==> (r == 30 <==> m in {4, 6, 9, 11})
  {
    if m == 2 then (if IsLeapYear(y) then 29 else 28)
    else if m in {4, 6, 9, 11} then 30
    else 31
  }

  /** What `datetime.date(year, month, day)` accepts. */
  predicate IsValidDate(d: Date) {
    1 <= d.year <= 9999 && 1 <= d.month <= 12 && 1 <= d.day <= DaysInMonth(d.year, d.month)
  }

  predicate IsDigit(c: char) {
    '0' <= c <= '9'
  }

  function DigitValue(c: char): (r: int)
    requires IsDigit(c)
    ensures 0 <= r <= 9
  {
    c as int - '0' as int
  }

  function DigitChar(n: int): (c: char)
    requires 0 <= n <= 9
    ensures IsDigit(c) && DigitValue(c) == n
  {
    ('0' as int + n) as char
  }

  /**
   * The month group `1[0-2]|0[1-9]|[1-9]` and the '-' after it, at the start of
   * `s`: the month and the text after the '-'. The alternatives are tried in
   * that order; no alternative that fails here can make a later one succeed.
   */
  function ParseMonth(s: string): (r: Option<(int, string)>)
    ensures r.Some? ==> 1 <= r.value.0 <= 12
    ensures r.Some? ==>
      var k := |s| - |r.value.1|;
      && 2 <= k <= 3 && s[k - 1] == '-' && r.value.1 == s[k..] && IsDigit(s[0]) && IsDigit(s[k - 2])
      && r.value.0 == (if k == 3 then 10 * DigitValue(s[0]) + DigitValue(s[1]) else DigitValue(s[0]))
    ensures |s| >= 2 && '1' <= s[0] <= '9' && s[1] == '-' ==> r == Some((DigitValue(s[0]), s[2..]))
  {
    if |s| >= 3 && s[0] == '1' && '0' <= s[1] <= '2' && s[2] == '-' then
      Some((10 + DigitValue(s[1]), s[3..]))
    else if |s| >= 3 && s[0] == '0' && '1' <= s[1] <= '9' && s[2] == '-' then
      Some((DigitValue(s[1]), s[3..]))
    else if |s| >= 2 && '1' <= s[0] <= '9' && s[1] == '-' then
      Some((DigitValue(s[0]), s[2..]))
    else
      None
  }

  /**
   * The day group `3[01]|[12]\d|0[1-9]|[1-9]| [1-9]`, which must then use up
   * the whole rest of the string: the first alternative that matches is the one
   * taken, and any character after it is "unconverted data" and an error.
   */
  function ParseDay(s: string): (r: Option<int>)
    ensures r.Some? ==> 1 <= r.value <= 31
    ensures r.Some? ==> 1 <= |s| <= 2
    ensures r.Some? ==> IsDigit(s[|s| - 1]) && r.value % 10 == DigitValue(s[|s| - 1])
    ensures r.Some? && |s| == 2 && IsDigit(s[0]) ==> r.value == 10 * DigitValue(s[0]) + DigitValue(s[1])
    ensures |s| == 1 && '1' <= s[0] <= '9' ==> r == Some(DigitValue(s[0]))
  {
    var taken :=
      if |s| >= 2 && s[0] == '3' && '0' <= s[1] <= '1' then 2
      else if |s| >= 2 && '1' <= s[0] <= '2' && IsDigit(s[1]) then 2
      else if |s| >= 2 && s[0] == '0' && '1' <= s[1] <= '9' then 2
      else if |s| >= 1 && '1' <= s[0] <= '9' then 1
      else if |s| >= 2 && s[0] == ' ' && '1' <= s[1] <= '9' then 2
      else 0;
    if taken == 0 || taken != |s| then None
    else if taken == 1 then Some(DigitValue(s[0]))
    else if s[0] == ' ' || s[0] == '0' then Some(DigitValue(s[1]))
    else Some(10 * DigitValue(s[0]) + DigitValue(s[1]))
  }

  /** The four-digit year group `\d\d\d\d`. */
  predicate IsYearText(s: string) {
    |s| == 4 && IsDigit(s[0]) && IsDigit(s[1]) && IsDigit(s[2]) && IsDigit(s[3])
  }

  function YearValue(s: string): (r: int)
    requires IsYearText(s)
    ensures 0 <= r <= 9999
  {
    1000 * DigitValue(s[0]) + 100 * DigitValue(s[1]) + 10 * DigitValue(s[2]) + DigitValue(s[3])
  }

  /** `datetime.strptime(s, "%Y-%m-%d")` as a date, or None where it raises ValueError. */
  function ParseIsoDate(s: string): (r: Option<Date>)
    ensures r.Some? ==> IsValidDate(r.value)
  {
    if |s| < 5 || !IsYearText(s[..4]) || s[4] != '-' then None
    else
      match ParseMonth(s[5..])
      case None => None
      case Some((month, rest)) =>
        match ParseDay(rest)
        case None => None
        case Some(day) =>
          var d := Date(YearValue(s[..4]), month, day);
          if IsValidDate(d) then Some(d) else None
  }

  function Pad2(n: int): (r: string)
    requires 0 <= n <= 99
    ensures |r| == 2
  {
    [DigitChar(n / 10), DigitChar(n % 10)]
  }

  function Pad4(n: int): (r: string)
    requires 0 <= n <= 9999
    ensures IsYearText(r)
  {
    var hundreds := n % 1000;
    var tens := hundreds % 100;
    [DigitChar(n / 1000), DigitChar(hundreds / 100), DigitChar(tens / 10), DigitChar(tens % 10)]
  }

  /** `date.isoformat()`: the zero-padded `YYYY-MM-DD`. */
  function FormatIsoDate(d: Date): (s: string)
    requires IsValidDate(d)
    ensures |s| == 10 && s[4] == '-' && s[7] == '-'
  {
    Pad4(d.year) + "-" + Pad2(d.month) + "-" + Pad2(d.day)
  }

  lemma YearDigits(n: int)
    requires 0 <= n <= 9999
    ensures YearValue(Pad4(n)) == n
  {
    var hundreds := n % 1000;
    var tens := hundreds % 100;
    assert n == 1000 * (n / 1000) + hundreds;
    assert hundreds == 100 * (hundreds / 100) + tens;
    assert tens == 10 * (tens / 10) + tens % 10;
  }

  /** Every real date, written zero-padded, is read back as itself. */
  lemma ParseFormatRoundTrip(d: Date)
    requires IsValidDate(d)
    ensures ParseIsoDate(FormatIsoDate(d)) == Some(d)
  {
    var s := FormatIsoDate(d);
    assert s[..4] == Pad4(d.year);
    YearDigits(d.year);
    var mm := Pad2(d.month);
    var dd := Pad2(d.day);
    assert s[5..] == mm + "-" + dd;
    assert ParseMonth(s[5..]) == Some((d.month, dd));
    assert ParseDay(dd) == Some(d.day);
  }

  /** The unpadded form `YYYY-M-D` of a date in the first nine days of one of the first nine months is accepted too. */
  lemma UnpaddedAccepted(d: Date)
    requires IsValidDate(d) && d.month <= 9 && d.day <= 9
    ensures ParseIsoDate(Pad4(d.year) + "-" + [DigitChar(d.month)] + "-" + [DigitChar(d.day)]) == Some(d)
  {
    var s := Pad4(d.year) + "-" + [DigitChar(d.month)] + "-" + [DigitChar(d.day)];
    assert s[..4] == Pad4(d.year);
    YearDigits(d.year);
    assert s[5..] == [DigitChar(d.month)] + "-" + [DigitChar(d.day)];
    assert ParseMonth(s[5..]) == Some((d.month, [DigitChar(d.day)]));
  }

  /** February 29th of a leap year and a space-padded day are accepted. */
  lemma ParseAcceptsExamples()
    ensures ParseIsoDate("2024-02-29") == Some(Date(2024, 2, 29))
    ensures ParseIsoDate("2024-12- 5") == Some(Date(2024, 12, 5))
  {
    assert "2024-02-29"[..4] == "2024" && "2024-02-29"[5..] == "02-29";
    assert "2024-12- 5"[..4] == "2024" && "2024-12- 5"[5..] == "12- 5";
  }

  /** February 29th of a common year, April 31st, year 0 and a trailing character are rejected. */
  lemma ParseRejectsExamples()
    ensures ParseIsoDate("2023-02-29") == None
    ensures ParseIsoDate("2024-4-31") == None
    ensures ParseIsoDate("2024-12-05x") == None
    ensures ParseIsoDate("0000-01-01") == None
  {
    assert "2023-02-29"[..4] == "2023" && "2023-02-29"[5..] == "02-29";
    assert "2024-4-31"[..4] == "2024" && "2024-4-31"[5..] == "4-31";
    assert "2024-12-05x"[..4] == "2024" && "2024-12-05x"[5..] == "12-05x";
    assert "0000-01-01"[..4] == "0000" && "0000-01-01"[5..] == "01-01";
  }

  // ---------------------------------------------------------------------------
  // Day numbers, weekdays and weeks
  // ---------------------------------------------------------------------------

  /** `date.max.toordinal()`, the day number of 9999-12-31. */
  const MaxOrdinal: int := 3652059

  const SecondsPerDay: int := 86400

  /** The day number of an instant on the local timeline (`date_time__date`). */
  function DayOf(t: nat): (n: int)
    ensures n >= 1
    ensures (n - 1) * SecondsPerDay <= t < n * SecondsPerDay
  {
    t / SecondsPerDay + 1
  }

  /** `date.weekday()`: Monday is 0 and Sunday 6, day 1 being a Monday. */
  function Weekday(n: int): (r: int)
    requires n >= 1
    ensures 0 <= r < 7
  {
    (n + 6) % 7
  }

  /**
   * `week_start = today - timedelta(days=today.weekday())` and
   * `week_end = week_start + timedelta(days=6)`, or None where the addition
   * leaves the range of `date` and raises OverflowError.
   */
  function WeekRange(today: int): (r: Option<(int, int)>)
    requires 1 <= today <= MaxOrdinal
    ensures r.None? <==> today - Weekday(today) + 6 > MaxOrdinal
    ensures r.Some? ==> 1 <= r.value.0 && Weekday(r.value.0) == 0
    ensures r.Some? ==> r.value.0 <= today <= r.value.1 <= MaxOrdinal && r.value.1 - r.value.0 == 6
  {
    var start := today - Weekday(today);
    if start + 6 > MaxOrdinal then None else Some((start, start + 6))
  }

  /** The start of the week is the only Monday among today and the six days before it. */
  lemma WeekStartIsTheMonday(today: int, m: int)
    requires 1 <= today <= MaxOrdinal && WeekRange(today).Some?
    requires today - 6 <= m <= today && m >= 1 && Weekday(m) == 0
    ensures m == WeekRange(today).value.0
  {
    var start := WeekRange(today).value.0;
    assert (m + 6) % 7 == 0 && (start + 6) % 7 == 0;
    assert (m - start) % 7 == 0 by {
      assert m - start == (m + 6) - (start + 6);
    }
  }

  /** Only the last five days of 9999 lie in a week that overflows. */
  lemma WeekOverflowsOnlyAtTheEnd(today: int)
    requires 1 <= today <= MaxOrdinal
    ensures WeekRange(today).None? <==> today >= MaxOrdinal - 4
  {
    assert Weekday(MaxOrdinal) == 4;
  }
}
