/**
 * The pure helpers of the application: the `<input>` value formats for dates
 * and times, and the zodiac and lunar month/day name tables. The reminder
 * shorthand is module Reminders and the e-mail shape check module EmailShape.
 */
module Helpers {
  import opened Wrappers
  import opened Text
  import opened Dates
  import opened CalendarTypes

  // ---------------------------------------------------------------------------
  // Input field formats

  /** `formatDateForInput`: `<year>-<MM>-<DD>`. */
  function FormatDateForInput(d: Date): string {
    IntToString(d.year) + "-" + Pad2(IntToString(d.month)) + "-" + Pad2(IntToString(d.day))
  }

  /** Reads a `YYYY-MM-DD` input value back. */
  function ParseDateInput(s: string): Option<Date> {
    if |s| == 10 && s[4] == '-' && s[7] == '-' && AllDigits(s[..4]) && AllDigits(s[5..7]) && AllDigits(s[8..]) then
      Some(Date(DigitsValue(s[..4]), DigitsValue(s[5..7]), DigitsValue(s[8..])))
    else None
  }

  /** `formatTimeForInput`: `<HH>:<MM>`. */
  function FormatTimeForInput(t: DateTime): string {
    Pad2(IntToString(t.hour)) + ":" + Pad2(IntToString(t.minute))
  }

  /** Reads an `HH:MM` input value back as hours and minutes. */
  function ParseTimeInput(s: string): Option<TimeOfDay> {
    if |s| == 5 && s[2] == ':' && AllDigits(s[..2]) && AllDigits(s[3..]) then
      Some(TimeOfDay(DigitsValue(s[..2]), DigitsValue(s[3..])))
    else None
  }

  // ---------------------------------------------------------------------------
  // Zodiac and lunar names

  const ZodiacSigns: seq<string> := ["鼠", "牛", "虎", "兔", "龙", "蛇", "马", "羊", "猴", "鸡", "狗", "猪"]

  /** JavaScript's `%`: the remainder takes the sign of the dividend. */
  function JsRem(a: int, b: int): (r: int)
    requires b > 0
    ensures a >= 0 ==> r == a % b
    ensures a < 0 ==> r == -((-a) % b) && r <= 0
    ensures -b < r < b
  {
    if a >= 0 then a % b else -((-a) % b)
  }

  /**
   * `getChineseZodiac`: the sign at `(year - 4) % 12`; a negative remainder (years
   * before 4 that are not 12k + 4) indexes outside the table and gives None,
   * JavaScript's `undefined`.
   */
  function ChineseZodiac(year: int): (r: Option<string>)
    ensures year >= 4 ==> r == Some(ZodiacSigns[(year - 4) % 12])
  {
    var i := JsRem(year - 4, 12);
    if i >= 0 then Some(ZodiacSigns[i]) else None
  }

  const LunarMonthNames: seq<string> := ["正", "二", "三", "四", "五", "六", "七", "八", "九", "十", "冬", "腊"]

  /** `getLunarMonthName`: the month's name for 1..12, and "" for any other month. */
  function LunarMonthName(month: int): (r: string)
    ensures r != "" <==> 1 <= month <= 12
  {
    if 1 <= month <= 12 then LunarMonthNames[month - 1] else ""
  }

  const Tens: seq<string> := ["初", "十", "廿", "三十"]
  const Ones: seq<string> := ["", "一", "二", "三", "四", "五", "六", "七", "八", "九"]

  /** `ones[i]` as a string operand: an index outside the table reads `undefined`. */
  function OnesAt(i: int): string {
    if 0 <= i < |Ones| then Ones[i] else "undefined"
  }

  /** `getLunarDayName`. */
  function LunarDayName(day: int): string {
    if day <= 10 then Tens[0] + (if day == 10 then "十" else OnesAt(day))
    else if day < 20 then Tens[1] + OnesAt(day - 10)
    else if day < 30 then Tens[2] + OnesAt(day - 20)
    else Tens[3]
  }

  /** The value of a units word of a lunar day name. */
  function OnesValue(w: string): Option<nat> {
    if w == "" then Some(0)
    else if w == "一" then Some(1) else if w == "二" then Some(2) else if w == "三" then Some(3)
    else if w == "四" then Some(4) else if w == "五" then Some(5) else if w == "六" then Some(6)
    else if w == "七" then Some(7) else if w == "八" then Some(8) else if w == "九" then Some(9)
    else None
  }

  /** Reads a lunar day name back as the day of the month. */
  function ParseLunarDayName(name: string): Option<nat> {
    if name == "三十" then Some(30)
    else if name == "初十" then Some(10)
    else if |name| >= 1 && (name[0] == '初' || name[0] == '十' || name[0] == '廿') then
      var tens := if name[0] == '初' then 0 else if name[0] == '十' then 10 else 20;
      match OnesValue(name[1..])
      case Some(v) => if tens == 0 && v == 0 then None else Some(tens + v)
      case None => None
    else None
  }

  // ---------------------------------------------------------------------------
  // Lemmas: input formats

  /** For four-digit years the date input value is 10 characters that read back as the same date. */
  lemma DateInputRoundTrip(d: Date)
    requires ValidDate(d) && 1000 <= d.year <= 9999
    ensures ParseDateInput(FormatDateForInput(d)) == Some(d)
  {
    var y, m, dd := IntToString(d.year), Pad2(IntToString(d.month)), Pad2(IntToString(d.day));
    FourDigitYear(d.year);
    NatToStringRoundTrip(d.year);
    Pad2RoundTrip(d.month);
    Pad2RoundTrip(d.day);
    var s := FormatDateForInput(d);
    assert s == y + "-" + m + "-" + dd;
    assert s[..4] == y && s[5..7] == m && s[8..] == dd;
  }

  /** A time of day reads back from its input value. */
  lemma TimeInputRoundTrip(t: DateTime)
    requires 0 <= t.hour < 24 && 0 <= t.minute < 60
    ensures ParseTimeInput(FormatTimeForInput(t)) == Some(TimeOfDay(t.hour, t.minute))
  {
    var h, m := Pad2(IntToString(t.hour)), Pad2(IntToString(t.minute));
    Pad2RoundTrip(t.hour);
    Pad2RoundTrip(t.minute);
    var s := FormatTimeForInput(t);
    assert s[..2] == h && s[3..] == m;
  }

  lemma DateInputExample()
    ensures FormatDateForInput(Date(2024, 3, 15)) == "2024-03-15"
  {
    assert NatToString(2024) == "2024" by {
      assert NatToString(202) == "202" by { assert NatToString(20) == "20"; }
    }
    assert NatToString(15) == "15";
  }

  lemma DateInputPaddedExample()
    ensures FormatDateForInput(Date(2023, 12, 1)) == "2023-12-01"
  {
    assert NatToString(2023) == "2023" by {
      assert NatToString(202) == "202" by { assert NatToString(20) == "20"; }
    }
    assert NatToString(12) == "12";
  }

  lemma TimeInputExamples()
    ensures FormatTimeForInput(DateTime(Date(2024, 1, 1), 14, 30, 0)) == "14:30"
    ensures FormatTimeForInput(DateTime(Date(2024, 1, 1), 9, 5, 0)) == "09:05"
  {
    assert NatToString(14) == "14" && NatToString(30) == "30";
  }

  // ---------------------------------------------------------------------------
  // Lemmas: zodiac and lunar names

  /** From year 4 on, the zodiac repeats every 12 years. */
  lemma ZodiacPeriod(year: int)
    requires year >= 4
    ensures ChineseZodiac(year + 12) == ChineseZodiac(year)
  {
    assert (year + 12 - 4) % 12 == (year - 4) % 12;
  }

  /** Before year 4 only the years `12k + 4` have a sign. */
  lemma ZodiacBeforeYearFour(year: int)
    requires year < 4
    ensures ChineseZodiac(year).Some? <==> (year - 4) % 12 == 0
  {
  }

  lemma ZodiacExamples()
    ensures ChineseZodiac(2024) == Some("龙")
    ensures ChineseZodiac(2023) == Some("兔")
    ensures ChineseZodiac(2022) == Some("虎")
    ensures ChineseZodiac(1990) == Some("马")
  {
  }

  /** The twelve month names are different from each other. */
  lemma LunarMonthNamesDistinct(a: int, b: int)
    requires 1 <= a <= 12 && 1 <= b <= 12 && a != b
    ensures LunarMonthName(a) != LunarMonthName(b)
  {
  }

  lemma LunarMonthExamples()
    ensures LunarMonthName(1) == "正" && LunarMonthName(8) == "八" && LunarMonthName(12) == "腊"
    ensures LunarMonthName(13) == "" && LunarMonthName(0) == ""
  {
  }

  /** The units words read back as their digits. */
  lemma OnesRoundTrip(i: int)
    requires 0 <= i < 10
    ensures OnesValue(Ones[i]) == Some(i)
  {
  }

  /** The day of the month reads back from its name, for every day 1..30. */
  lemma LunarDayRoundTrip(day: int)
    requires 1 <= day <= 30
    ensures ParseLunarDayName(LunarDayName(day)) == Some(day)
  {
    var name := LunarDayName(day);
    if day < 10 {
      OnesRoundTrip(day);
      assert name == "初" + Ones[day];
      assert name[1..] == Ones[day];
    } else if 10 < day < 20 {
      OnesRoundTrip(day - 10);
      assert name == "十" + Ones[day - 10];
      assert name[1..] == Ones[day - 10];
    } else if 20 <= day < 30 {
      OnesRoundTrip(day - 20);
      assert name == "廿" + Ones[day - 20];
      assert name[1..] == Ones[day - 20];
    }
  }

  /** Different days of the month have different names. */
  lemma LunarDayNamesDistinct(a: int, b: int)
    requires 1 <= a <= 30 && 1 <= b <= 30 && a != b
    ensures LunarDayName(a) != LunarDayName(b)
  {
    LunarDayRoundTrip(a);
    LunarDayRoundTrip(b);
  }

  lemma LunarDayExamples()
    ensures LunarDayName(1) == "初一" && LunarDayName(10) == "初十" && LunarDayName(15) == "十五"
    ensures LunarDayName(20) == "廿" && LunarDayName(25) == "廿五" && LunarDayName(30) == "三十"
  {
  }
}
