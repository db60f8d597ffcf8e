/**
 * Calendar dates as the importer reads them: `datetime.strptime(s,
 * "%Y-%m-%d").date()`, over ASCII digits only. The year is exactly four
 * digits; the month may be written with one or two digits ("1" to "12", "01"
 * to "09"); the day with one or two digits or a space and a digit, the first
 * matching form winning and the whole string having to be consumed; the
 * result must then be a date of the proleptic Gregorian calendar between
 * years 1 and 9999.
 */
module Dates {
  import opened Wrappers

  datatype Date = Date(year: int, month: int, day: int)

  predicate IsLeap(y: int)
  {
    y % 4 == 0 && (y % 100 != 0 || y % 400 == 0)
  }

  function DaysInMonth(y: int, m: int): int
  {
    if m == 2 then (if IsLeap(y) then 29 else 28)
    else if m == 4 || m == 6 || m == 9 || m == 11 then 30
    else 31
  }

  /** What `datetime.date(y, m, d)` accepts. */
  predicate ValidDate(d: Date)
  {
    1 <= d.year <= 9999 && 1 <= d.month <= 12 && 1 <= d.day <= DaysInMonth(d.year, d.month)
  }

  /** An ASCII digit. The `\d` of strptime's patterns also matches the other
      Unicode decimal digits, which this model rejects. */
  predicate IsDigit(c: char)
  {
    '0' <= c <= '9'
  }

  function DigitVal(c: char): int
  {
    c as int - '0' as int
  }

  function DigitOf(n: int): char
    requires 0 <= n < 10
  {
    ('0' as int + n) as char
  }

  /** The `(?P<m>1[0-2]|0[1-9]|[1-9])` group followed by the literal '-':
      the month and where the day starts, if the text after the year's dash
      has that form. */
  function MonthField(rest: string): (r: Option<(int, nat)>)
    ensures r.Some? ==> 1 <= r.value.0 <= 12 && 2 <= r.value.1 <= 3 && r.value.1 <= |rest|
  {
    if |rest| >= 3 && rest[0] == '1' && '0' <= rest[1] <= '2' && rest[2] == '-' then
      Some((10 + DigitVal(rest[1]), 3))
    else if |rest| >= 3 && rest[0] == '0' && '1' <= rest[1] <= '9' && rest[2] == '-' then
      Some((DigitVal(rest[1]), 3))
    else if |rest| >= 2 && '1' <= rest[0] <= '9' && rest[1] == '-' then
      Some((DigitVal(rest[0]), 2))
    else None
  }

  /** The `(?P<d>3[01]|[12]\d|0[1-9]|[1-9]| [1-9])` group: the first
      alternative that matches a prefix wins; the match must then reach the
      end of the string. */
  function DayField(s: string): (r: Option<int>)
    ensures r.Some? ==> 1 <= r.value <= 31 && 1 <= |s| <= 2
  {
    var len :=
      if |s| >= 2 && s[0] == '3' && (s[1] == '0' || s[1] == '1') then 2
      else if |s| >= 2 && (s[0] == '1' || s[0] == '2') && IsDigit(s[1]) then 2
      else if |s| >= 2 && s[0] == '0' && '1' <= s[1] <= '9' then 2
      else if |s| >= 1 && '1' <= s[0] <= '9' then 1
      else if |s| >= 2 && s[0] == ' ' && '1' <= s[1] <= '9' then 2
      else 0;
    if len == 0 || len != |s| then None
    else if len == 1 then Some(DigitVal(s[0]))
    else if s[0] == ' ' then Some(DigitVal(s[1]))
    else Some(10 * DigitVal(s[0]) + DigitVal(s[1]))
  }

  /** `datetime.strptime(s, "%Y-%m-%d").date()`, None where it raises. */
  function StrpDate(s: string): (r: Option<Date>)
    ensures r.Some? ==> ValidDate(r.value)
    ensures r.Some? ==> 8 <= |s| <= 10 && s[4] == '-'
  {
    if |s| < 5 || !(IsDigit(s[0]) && IsDigit(s[1]) && IsDigit(s[2]) && IsDigit(s[3])) || s[4] != '-' then None
    else
      var year := 1000 * DigitVal(s[0]) + 100 * DigitVal(s[1]) + 10 * DigitVal(s[2]) + DigitVal(s[3]);
      match MonthField(s[5..])
      case None => None
      case Some((month, used)) =>
        match DayField(s[5 + used..])
        case None => None
        case Some(day) =>
          var d := Date(year, month, day);
          if ValidDate(d) then Some(d) else None
  }

  /** A date written YYYY-MM-DD with zero padding, as the scraper writes it. */
  function FormatDate(d: Date): (r: string)
    requires ValidDate(d)
    ensures |r| == 10
  {
    [DigitOf(d.year / 1000), DigitOf(d.year % 1000 / 100), DigitOf(d.year % 100 / 10), DigitOf(d.year % 10), '-',
     DigitOf(d.month / 10), DigitOf(d.month % 10), '-',
     DigitOf(d.day / 10), DigitOf(d.day % 10)]
  }

  lemma DigitRoundTrip(n: int)
    requires 0 <= n < 10
    ensures IsDigit(DigitOf(n)) && DigitVal(DigitOf(n)) == n
  {
  }

  lemma YearDigits(y: int)
    requires 0 <= y <= 9999
    ensures 1000 * (y / 1000) + 100 * (y % 1000 / 100) + 10 * (y % 100 / 10) + y % 10 == y
  {
    var r1 := y % 1000;
    var r2 := r1 % 100;
    assert y == 1000 * (y / 1000) + r1;
    assert r1 == 100 * (r1 / 100) + r2;
    HundredsUnique(y, 10 * (y / 1000) + r1 / 100, r2);
    TensUnique(y, 100 * (y / 1000) + 10 * (r1 / 100) + r2 / 10, r2 % 10);
  }

  /** Quotient and remainder by 100 are the only ones that fit. */
  lemma HundredsUnique(x: int, q: int, r: int)
    requires 0 <= r < 100 && x == 100 * q + r
    ensures x % 100 == r
  {
  }

  /** Quotient and remainder by 10 are the only ones that fit. */
  lemma TensUnique(x: int, q: int, r: int)
    requires 0 <= r < 10 && x == 10 * q + r
    ensures x % 10 == r
  {
  }

  lemma MonthFieldFormatted(m: int, rest: string)
    requires 1 <= m <= 12 && |rest| >= 3
    requires rest[0] == DigitOf(m / 10) && rest[1] == DigitOf(m % 10) && rest[2] == '-'
    ensures MonthField(rest) == Some((m, 3))
  {
    DigitRoundTrip(m / 10);
    DigitRoundTrip(m % 10);
  }

  lemma DayFieldFormatted(day: int, s: string)
    requires 1 <= day <= 31
    requires s == [DigitOf(day / 10), DigitOf(day % 10)]
    ensures DayField(s) == Some(day)
  {
    DigitRoundTrip(day / 10);
    DigitRoundTrip(day % 10);
  }

  /** Every valid date written YYYY-MM-DD parses back to itself. */
  lemma StrpFormatted(d: Date)
    requires ValidDate(d)
    ensures StrpDate(FormatDate(d)) == Some(d)
  {
    var s := FormatDate(d);
    DigitRoundTrip(d.year / 1000);
    DigitRoundTrip(d.year % 1000 / 100);
    DigitRoundTrip(d.year % 100 / 10);
    DigitRoundTrip(d.year % 10);
    YearDigits(d.year);
    MonthFieldFormatted(d.month, s[5..]);
    assert s[8..] == [DigitOf(d.day / 10), DigitOf(d.day % 10)];
    DayFieldFormatted(d.day, s[8..]);
  }
}
