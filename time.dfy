/** Dates and UTC date-times as the iCalendar writer formats them, modelled
    on `_fmt_dt_utc` and `_fmt_date` in src/ics.py and on the Gregorian
    calendar arithmetic of Python's `date + timedelta(days=1)`. A date-time
    is an already-UTC timestamp: time-zone conversion is not modelled. */
module IcsTime {
  import opened Common

  datatype DateFields = DateFields(year: int, month: int, day: int)

  datatype DateTimeFields =
    DateTimeFields(year: int, month: int, day: int, hour: int, minute: int, second: int)

  predicate IsLeapYear(y: int) {
    y % 4 == 0 && (y % 100 != 0 || y % 400 == 0)
  }

  function DaysInMonth(y: int, m: int): (n: int)
    requires 1 <= m <= 12
    ensures 28 <= n <= 31
    ensures m == 2 ==> (n == 29 <==> IsLeapYear(y))
  {
    if m == 2 then (if IsLeapYear(y) then 29 else 28)
    else if m == 4 || m == 6 || m == 9 || m == 11 then 30
    else 31
  }

  /** The range of Python's `date`: years 1 to 9999. */
  predicate ValidDate(y: int, m: int, d: int) {
    1 <= y <= 9999 && 1 <= m <= 12 && 1 <= d <= DaysInMonth(y, m)
  }

  type Date = d: DateFields | ValidDate(d.year, d.month, d.day)
    witness DateFields(1970, 1, 1)

  type DateTime = t: DateTimeFields |
    ValidDate(t.year, t.month, t.day) && 0 <= t.hour < 24 && 0 <= t.minute < 60 && 0 <= t.second < 60
    witness DateTimeFields(1970, 1, 1, 0, 0, 0)

  /** Python's `datetime.date()`. */
  function DateOf(t: DateTime): (d: Date)
    ensures d.year == t.year && d.month == t.month && d.day == t.day
  {
    DateFields(t.year, t.month, t.day)
  }

  // ---------------------------------------------------------------------
  // Fixed-width formatting.

  predicate IsDigit(c: char) {
    '0' <= c <= '9'
  }

  function DigitChar(n: int): (c: char)
    requires 0 <= n <= 9
    ensures IsDigit(c)
  {
    ('0' as int + n) as char
  }

  function DigitValue(c: char): int {
    c as int - '0' as int
  }

  /** `%m`, `%d`, `%H`, `%M`, `%S`: two digits, zero padded. */
  function Pad2(n: int): (r: string)
    requires 0 <= n < 100
    ensures |r| == 2 && IsDigit(r[0]) && IsDigit(r[1])
  {
    [DigitChar(n / 10), DigitChar(n % 10)]
  }

  /** `%Y`: four digits, zero padded. */
  function Pad4(n: int): (r: string)
    requires 0 <= n < 10000
    ensures |r| == 4 && forall i :: 0 <= i < 4 ==> IsDigit(r[i])
  {
    [DigitChar(n / 1000), DigitChar(n / 100 % 10), DigitChar(n / 10 % 10), DigitChar(n % 10)]
  }

  /** `YYYYMMDD`, the layout of `strftime("%Y%m%d")`. */
  function FormatDate(d: Date): (r: string)
    ensures |r| == 8 && forall i :: 0 <= i < 8 ==> IsDigit(r[i])
  {
    Pad4(d.year) + Pad2(d.month) + Pad2(d.day)
  }

  /** `YYYYMMDDTHHMMSSZ`, the layout of `strftime("%Y%m%dT%H%M%SZ")` on a
      UTC date-time. */
  function FormatDateTimeUtc(t: DateTime): (r: string)
    ensures |r| == 16 && r[8] == 'T' && r[15] == 'Z'
    ensures forall i :: 0 <= i < 15 && i != 8 ==> IsDigit(r[i])
  {
    Pad4(t.year) + Pad2(t.month) + Pad2(t.day) + "T"
      + Pad2(t.hour) + Pad2(t.minute) + Pad2(t.second) + "Z"
  }

  // ---------------------------------------------------------------------
  // Reading the layouts back (the partner of formatting).

  function Number2(s: string): int
    requires |s| == 2
  {
    DigitValue(s[0]) * 10 + DigitValue(s[1])
  }

  function Number4(s: string): int
    requires |s| == 4
  {
    DigitValue(s[0]) * 1000 + DigitValue(s[1]) * 100 + DigitValue(s[2]) * 10 + DigitValue(s[3])
  }

  function ParseDate(s: string): Option<Date> {
    if |s| == 8 && (forall i :: 0 <= i < 8 ==> IsDigit(s[i]))
       && ValidDate(Number4(s[..4]), Number2(s[4..6]), Number2(s[6..8]))
    then Some(DateFields(Number4(s[..4]), Number2(s[4..6]), Number2(s[6..8])))
    else None
  }

  function ParseDateTimeUtc(s: string): Option<DateTime> {
    if |s| == 16 && s[8] == 'T' && s[15] == 'Z'
       && ValidDate(Number4(s[..4]), Number2(s[4..6]), Number2(s[6..8]))
       && 0 <= Number2(s[9..11]) < 24 && 0 <= Number2(s[11..13]) < 60 && 0 <= Number2(s[13..15]) < 60
    then Some(DateTimeFields(Number4(s[..4]), Number2(s[4..6]), Number2(s[6..8]),
                             Number2(s[9..11]), Number2(s[11..13]), Number2(s[13..15])))
    else None
  }

  lemma Pad2RoundTrip(n: int)
    requires 0 <= n < 100
    ensures Number2(Pad2(n)) == n
  {
  }

  lemma Pad4RoundTrip(n: int)
    requires 0 <= n < 10000
    ensures Number4(Pad4(n)) == n
  {
    var a, b, c, d := n / 1000, n / 100 % 10, n / 10 % 10, n % 10;
    assert n / 100 == a * 10 + b;
    assert n / 10 == (n / 100) * 10 + c;
    assert n == (n / 10) * 10 + d;
  }

  /** Reading a formatted date gives the date back. */
  lemma FormatDateRoundTrip(d: Date)
    ensures ParseDate(FormatDate(d)) == Some(d)
  {
    var s := FormatDate(d);
    assert s[..4] == Pad4(d.year) && s[4..6] == Pad2(d.month) && s[6..8] == Pad2(d.day);
    Pad4RoundTrip(d.year);
    Pad2RoundTrip(d.month);
    Pad2RoundTrip(d.day);
  }

  /** Reading a formatted date-time gives the date-time back. */
  lemma FormatDateTimeRoundTrip(t: DateTime)
    ensures ParseDateTimeUtc(FormatDateTimeUtc(t)) == Some(t)
  {
    var s := FormatDateTimeUtc(t);
    assert s[..4] == Pad4(t.year) && s[4..6] == Pad2(t.month) && s[6..8] == Pad2(t.day);
    assert s[9..11] == Pad2(t.hour) && s[11..13] == Pad2(t.minute) && s[13..15] == Pad2(t.second);
    Pad4RoundTrip(t.year);
    Pad2RoundTrip(t.month);
    Pad2RoundTrip(t.day);
    Pad2RoundTrip(t.hour);
    Pad2RoundTrip(t.minute);
    Pad2RoundTrip(t.second);
  }

  /** Distinct values never share a formatted string. */
  lemma FormatInjective(a: DateTime, b: DateTime, c: Date, d: Date)
    ensures FormatDateTimeUtc(a) == FormatDateTimeUtc(b) ==> a == b
    ensures FormatDate(c) == FormatDate(d) ==> c == d
  {
    FormatDateTimeRoundTrip(a);
    FormatDateTimeRoundTrip(b);
    FormatDateRoundTrip(c);
    FormatDateRoundTrip(d);
  }

  // ---------------------------------------------------------------------
  // The next calendar day.

  /** `d + timedelta(days=1)`; Python raises OverflowError past 9999-12-31,
      modelled as None. */
  function NextDay(d: Date): (r: Option<Date>)
    ensures r.None? <==> d.year == 9999 && d.month == 12 && d.day == 31
  {
    if d.day < DaysInMonth(d.year, d.month) then Some(DateFields(d.year, d.month, d.day + 1))
    else if d.month < 12 then Some(DateFields(d.year, d.month + 1, 1))
    else if d.year < 9999 then Some(DateFields(d.year + 1, 1, 1))
    else None
  }

  /** Reference numbering of days, as Python's `date.toordinal()`:
      0001-01-01 is day 1. */
  function DaysBeforeYear(y: int): int {
    var p := y - 1;
    p * 365 + p / 4 - p / 100 + p / 400
  }

  function DaysBeforeMonth(y: int, m: int): int
    requires 1 <= m <= 12
  {
    var table := [0, 0, 31, 59, 90, 120, 151, 181, 212, 243, 273, 304, 334];
    table[m] + (if m > 2 && IsLeapYear(y) then 1 else 0)
  }

  function Ordinal(d: Date): int {
    DaysBeforeYear(d.year) + DaysBeforeMonth(d.year, d.month) + d.day
  }

  lemma YearLength(y: int)
    requires y >= 1
    ensures DaysBeforeYear(y + 1) == DaysBeforeYear(y) + (if IsLeapYear(y) then 366 else 365)
  {
    LeapSteps(y);
    LeapDivisors(y);
    var a, b, c := (if y % 4 == 0 then 1 else 0), (if y % 100 == 0 then 1 else 0), (if y % 400 == 0 then 1 else 0);
    assert DaysBeforeYear(y + 1) == DaysBeforeYear(y) + 365 + a - b + c;
  }

  lemma LeapDivisors(y: int)
    ensures y % 400 == 0 ==> y % 100 == 0
    ensures y % 100 == 0 ==> y % 4 == 0
  {
    if y % 400 == 0 { Multiple100(y, 4 * (y / 400)); }
    if y % 100 == 0 { Multiple4(y, 25 * (y / 100)); }
  }

  lemma Multiple100(y: int, m: int)
    requires y == 100 * m
    ensures y % 100 == 0
  {
  }

  lemma Multiple4(y: int, m: int)
    requires y == 4 * m
    ensures y % 4 == 0
  {
  }

  /** How the three leap-year quotients grow from one year to the next. */
  lemma LeapSteps(y: int)
    ensures y / 4 == (y - 1) / 4 + (if y % 4 == 0 then 1 else 0)
    ensures y / 100 == (y - 1) / 100 + (if y % 100 == 0 then 1 else 0)
    ensures y / 400 == (y - 1) / 400 + (if y % 400 == 0 then 1 else 0)
  {
  }

  /** The next day is the day whose number is one more, and it exists for
      every date but the last one Python can represent. */
  lemma NextDayOrdinal(d: Date)
    ensures NextDay(d).None? <==> d == DateFields(9999, 12, 31)
    ensures NextDay(d).Some? ==> Ordinal(NextDay(d).value) == Ordinal(d) + 1
  {
    if d.day == DaysInMonth(d.year, d.month) && d.month == 12 && d.year < 9999 {
      YearLength(d.year);
    }
  }

  /** The next day comes strictly later, field by field. */
  lemma NextDayLater(d: Date)
    requires NextDay(d).Some?
    ensures var n := NextDay(d).value;
      d.year < n.year
      || (d.year == n.year && d.month < n.month)
      || (d.year == n.year && d.month == n.month && d.day < n.day)
  {
  }

  /** An all-day event on 2025-12-15 ends on 2025-12-16. */
  lemma NextDayExample()
    ensures NextDay(DateFields(2025, 12, 15)) == Some(DateFields(2025, 12, 16))
    ensures FormatDate(DateFields(2025, 12, 16)) == "20251216"
  {
  }
}
