/**
 * Calendar dates as explicit (year, month, day) and (date, hour, minute, second)
 * tuples, the Gregorian leap-year rule, the "next calendar day" step that the
 * generator gets from `Date.prototype.setDate(getDate() + 1)`, and the two
 * fixed-width renderings `YYYYMMDD` and `YYYYMMDDTHHMMSSZ`.
 */
module Dates {
  import opened Wrappers
  import opened Text

  /** A calendar date; `month` is 1-based (JavaScript's `getMonth() + 1`). */
  datatype Date = Date(year: int, month: int, day: int)

  datatype DateTime = DateTime(date: Date, hour: int, minute: int, second: int)

  /**
   * Gregorian rule: divisible by 4, except centuries not divisible by 400.
   * JavaScript's `%` truncates, but a test for a zero remainder is the same under
   * Dafny's Euclidean `%`.
   */
  predicate IsLeapYear(year: int) {
    year % 4 == 0 && (year % 100 != 0 || year % 400 == 0)
  }

  function DaysInMonth(year: int, month: int): (n: int)
    requires 1 <= month <= 12
    ensures 28 <= n <= 31
    ensures n == 29 <==> month == 2 && IsLeapYear(year)
    ensures n == 28 <==> month == 2 && !IsLeapYear(year)
  {
    if month == 2 then (if IsLeapYear(year) then 29 else 28)
    else if month == 4 || month == 6 || month == 9 || month == 11 then 30
    else 31
  }

  /** What a JavaScript `Date` always holds after normalisation. */
  predicate ValidDate(d: Date) {
    1 <= d.month <= 12 && 1 <= d.day <= DaysInMonth(d.year, d.month)
  }

  predicate ValidDateTime(t: DateTime) {
    ValidDate(t.date) && 0 <= t.hour < 24 && 0 <= t.minute < 60 && 0 <= t.second < 60
  }

  /** Chronological order of dates. */
  predicate Before(a: Date, b: Date) {
    || a.year < b.year
    || (a.year == b.year && a.month < b.month)
    || (a.year == b.year && a.month == b.month && a.day < b.day)
  }

  /** The following calendar day, rolling over month and year ends. */
  function NextDay(d: Date): (r: Date)
    requires ValidDate(d)
    ensures ValidDate(r) && Before(d, r)
  {
    if d.day < DaysInMonth(d.year, d.month) then Date(d.year, d.month, d.day + 1)
    else if d.month < 12 then Date(d.year, d.month + 1, 1)
    else Date(d.year + 1, 1, 1)
  }

  /** `${year}${MM}${DD}`: the year unpadded, month and day padded to two digits. */
  function FormatDate(d: Date): string {
    IntToString(d.year) + Pad2(IntToString(d.month)) + Pad2(IntToString(d.day))
  }

  /** `${year}${MM}${DD}T${hh}${mm}${ss}Z`, every field after the year padded to two digits. */
  function FormatDateTime(t: DateTime): string {
    FormatDate(t.date) + "T" + Pad2(IntToString(t.hour)) + Pad2(IntToString(t.minute))
      + Pad2(IntToString(t.second)) + "Z"
  }

  /** Reads a `YYYYMMDD` rendering back. */
  function ParseDate(s: string): Option<Date> {
    if |s| == 8 && AllDigits(s) then
      Some(Date(DigitsValue(s[..4]), DigitsValue(s[4..6]), DigitsValue(s[6..])))
    else None
  }

  /** Reads a `YYYYMMDDTHHMMSSZ` rendering back. */
  function ParseDateTime(s: string): Option<DateTime> {
    if |s| == 16 && s[8] == 'T' && s[15] == 'Z' && ParseDate(s[..8]).Some?
       && AllDigits(s[9..11]) && AllDigits(s[11..13]) && AllDigits(s[13..15])
    then Some(DateTime(ParseDate(s[..8]).value, DigitsValue(s[9..11]), DigitsValue(s[11..13]), DigitsValue(s[13..15])))
    else None
  }

  // ---------------------------------------------------------------------------
  // Lemmas

  /** `NextDay` is the immediate successor: no valid date lies strictly between a date and its next day. */
  lemma NextDayIsSuccessor(d: Date, e: Date)
    requires ValidDate(d) && ValidDate(e) && Before(d, e)
    ensures NextDay(d) == e || Before(NextDay(d), e)
  {
  }

  /** Feb 29 exists exactly in leap years, so it is the only day whose existence depends on the year. */
  lemma DayExistsInEveryYear(d: Date, year: int)
    requires ValidDate(d)
    ensures ValidDate(Date(year, d.month, d.day)) <==> !(d.month == 2 && d.day == 29) || IsLeapYear(year)
  {
  }

  lemma FourDigitYear(y: int)
    requires 1000 <= y <= 9999
    ensures |IntToString(y)| == 4 && AllDigits(IntToString(y))
  {
    assert Pow10(3) == 1000 && Pow10(4) == 10000;
    NatToStringLength(y, 4);
  }

  /** For four-digit years the date rendering is 8 digits that read back as the same date. */
  lemma FormatDateRoundTrip(d: Date)
    requires ValidDate(d) && 1000 <= d.year <= 9999
    ensures |FormatDate(d)| == 8
    ensures ParseDate(FormatDate(d)) == Some(d)
  {
    var y, m, dd := IntToString(d.year), Pad2(IntToString(d.month)), Pad2(IntToString(d.day));
    FourDigitYear(d.year);
    NatToStringRoundTrip(d.year);
    Pad2RoundTrip(d.month);
    Pad2RoundTrip(d.day);
    var s := FormatDate(d);
    assert s == y + m + dd;
    assert s[..4] == y && s[4..6] == m && s[6..] == dd;
  }

  /** Where the fields of a date-time rendering sit. */
  lemma DateTimeLayout(ds: string, h: string, mi: string, se: string)
    requires |ds| == 8 && |h| == 2 && |mi| == 2 && |se| == 2
    ensures var s := ds + "T" + h + mi + se + "Z";
      && |s| == 16 && s[..8] == ds && s[8] == 'T' && s[15] == 'Z'
      && s[9..11] == h && s[11..13] == mi && s[13..15] == se
  {
  }

  /** For four-digit years the date-time rendering is 16 characters that read back as the same instant. */
  lemma FormatDateTimeRoundTrip(t: DateTime)
    requires ValidDateTime(t) && 1000 <= t.date.year <= 9999
    ensures |FormatDateTime(t)| == 16
    ensures ParseDateTime(FormatDateTime(t)) == Some(t)
  {
    FormatDateRoundTrip(t.date);
    var ds := FormatDate(t.date);
    var h, mi, se := Pad2(IntToString(t.hour)), Pad2(IntToString(t.minute)), Pad2(IntToString(t.second));
    Pad2RoundTrip(t.hour);
    Pad2RoundTrip(t.minute);
    Pad2RoundTrip(t.second);
    DateTimeLayout(ds, h, mi, se);
  }
}
