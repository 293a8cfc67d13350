/**
 * The reminder shorthand of the application: `parseReminderString` reads
 * `"3d"`, `"2h"`, `"30"` and the like into a reminder, and `formatReminder`
 * shows a reminder in Chinese.
 */
module Reminders {
  import opened Wrappers
  import opened Text
  import opened CalendarTypes

  // ---------------------------------------------------------------------------
  // Reminder shorthand

  /** The unit letters of the shorthand: w, d, h and m. */
  function UnitOfChar(c: char): Option<Unit> {
    if c == 'w' then Some(Weeks)
    else if c == 'd' then Some(Days)
    else if c == 'h' then Some(Hours)
    else if c == 'm' then Some(Minutes)
    else None
  }

  function UnitChar(u: Unit): char {
    match u
    case Weeks => 'w'
    case Days => 'd'
    case Hours => 'h'
    case Minutes => 'm'
  }

  /**
   * `parseReminderString`: the empty string gives None; anything else is trimmed
   * and lowercased and then read as shorthand.
   */
  function ParseReminderString(reminderStr: string): (r: Option<Reminder>)
    ensures r.Some? ==> r.value.value >= 0 && r.value.time.None?
  {
    if reminderStr == "" then None else ParseShorthand(LowerAscii(Trim(reminderStr)))
  }

  /**
   * The tests of `parseReminderString` on the trimmed, lowercased text: "0" or a
   * run of digits is that many minutes, and a run of digits followed by a unit
   * letter is that many units; anything else gives None.
   */
  function ParseShorthand(str: string): (r: Option<Reminder>)
    ensures r.Some? ==> r.value.value >= 0 && r.value.time.None?
  {
    if str == "0" then Some(Reminder(0, Minutes, None))
    else if str != "" && AllDigits(str) then Some(Reminder(DigitsValue(str), Minutes, None))
    else if |str| >= 2 then WithUnit(str[..|str| - 1], str[|str| - 1])
    else None
  }

  /** The match of `^(\d+)([wdhm])$`, given the text before the last character and that character. */
  function WithUnit(digits: string, letter: char): (r: Option<Reminder>)
    ensures r.Some? ==> r.value.value >= 0 && r.value.time.None?
  {
    if digits != "" && AllDigits(digits) && UnitOfChar(letter).Some? then
      Some(Reminder(DigitsValue(digits), UnitOfChar(letter).value, None))
    else None
  }

  /** The shorthand a reminder is written in: its value, then its unit letter. */
  function ReminderCode(r: Reminder): string
    requires r.value >= 0
  {
    NatToString(r.value) + [UnitChar(r.unit)]
  }

  function UnitWord(u: Unit): string {
    match u
    case Weeks => "周"
    case Days => "天"
    case Hours => "小时"
    case Minutes => "分钟"
  }

  /** `formatReminder`: "事件发生时" for a zero offset, otherwise "提前<value><unit word>". */
  function FormatReminder(r: Reminder): string {
    if r.value == 0 then "事件发生时" else "提前" + IntToString(r.value) + UnitWord(r.unit)
  }

  // ---------------------------------------------------------------------------
  // Lemmas: reminders

  /** Empty and whitespace-only input gives None. */
  lemma ParseBlank(s: string)
    requires forall i :: 0 <= i < |s| ==> IsJsWhitespace(s[i])
    ensures ParseReminderString(s) == None
  {
    if s != "" {
      TrimStartSkips(s, "");
      assert s + "" == s;
      assert Trim(s) == "";
    }
  }

  /** Text made of digits and lowercase letters is left as it is by trimming and lowercasing. */
  lemma PlainText(s: string)
    requires |s| > 0
    requires forall i :: 0 <= i < |s| ==> IsDigit(s[i]) || 'a' <= s[i] <= 'z'
    ensures LowerAscii(Trim(s)) == s
  {
    assert !IsJsWhitespace(s[0]);
    assert TrimStart(s) == s;
    assert !IsJsWhitespace(s[|s| - 1]);
    assert TrimEnd(s) == s;
    assert forall i :: 0 <= i < |s| ==> LowerAscii(s)[i] == s[i];
  }

  /** Digits followed by a unit letter are plain text. */
  lemma PlainWithUnit(s: string)
    requires |s| >= 2 && AllDigits(s[..|s| - 1]) && UnitOfChar(s[|s| - 1]).Some?
    ensures LowerAscii(Trim(s)) == s
  {
    forall i | 0 <= i < |s| ensures IsDigit(s[i]) || 'a' <= s[i] <= 'z' {
      if i < |s| - 1 { assert s[i] == s[..|s| - 1][i]; }
    }
    PlainText(s);
  }

  /** Input that trimming and lowercasing leave alone is read as shorthand directly. */
  lemma ParseOfPlain(s: string)
    requires s != "" && LowerAscii(Trim(s)) == s
    ensures ParseReminderString(s) == ParseShorthand(s)
  {
  }

  lemma ShorthandDigits(d: string)
    requires |d| > 0 && AllDigits(d)
    ensures ParseShorthand(d) == Some(Reminder(DigitsValue(d), Minutes, None))
  {
    if d == "0" {
      assert d[..|d| - 1] == [];
    }
  }

  /** Text of two or more characters that are not all digits is read as digits and a unit letter. */
  lemma ShorthandSplit(s: string)
    requires |s| >= 2 && !AllDigits(s)
    ensures ParseShorthand(s) == WithUnit(s[..|s| - 1], s[|s| - 1])
  {
  }

  lemma ShorthandWithUnit(s: string)
    requires |s| >= 2 && AllDigits(s[..|s| - 1]) && UnitOfChar(s[|s| - 1]).Some?
    ensures ParseShorthand(s) == Some(Reminder(DigitsValue(s[..|s| - 1]), UnitOfChar(s[|s| - 1]).value, None))
  {
    assert !AllDigits(s) by {
      assert !IsDigit(s[|s| - 1]);
    }
    ShorthandSplit(s);
  }

  /** A run of digits with no unit is that many minutes. */
  lemma ParseDigits(d: string)
    requires |d| > 0 && AllDigits(d)
    ensures ParseReminderString(d) == Some(Reminder(DigitsValue(d), Minutes, None))
  {
    PlainText(d);
    ParseOfPlain(d);
    ShorthandDigits(d);
  }

  /** A run of digits and a unit letter is that many units. */
  lemma ParseWithUnit(s: string)
    requires |s| >= 2 && AllDigits(s[..|s| - 1]) && UnitOfChar(s[|s| - 1]).Some?
    ensures ParseReminderString(s) == Some(Reminder(DigitsValue(s[..|s| - 1]), UnitOfChar(s[|s| - 1]).value, None))
  {
    PlainWithUnit(s);
    ParseOfPlain(s);
    ShorthandWithUnit(s);
  }

  /** Writing a reminder in shorthand and parsing it gives the reminder back. */
  lemma ParseReminderRoundTrip(r: Reminder)
    requires r.value >= 0 && r.time.None?
    ensures ParseReminderString(ReminderCode(r)) == Some(r)
  {
    var code := ReminderCode(r);
    NatToStringRoundTrip(r.value);
    assert code[..|code| - 1] == NatToString(r.value);
    assert UnitOfChar(code[|code| - 1]) == Some(r.unit);
    ParseWithUnit(code);
  }

  /**
   * Every reminder the parser returns was written as digits alone (minutes) or
   * as digits and that unit's letter, once trimmed and lowercased.
   */
  lemma ParseReminderSound(s: string)
    requires ParseReminderString(s).Some?
    ensures var r := ParseReminderString(s).value;
            var t := LowerAscii(Trim(s));
            || (|t| > 0 && AllDigits(t) && r == Reminder(DigitsValue(t), Minutes, None))
            || (|t| >= 2 && AllDigits(t[..|t| - 1]) && t[|t| - 1] == UnitChar(r.unit)
                && r.value == DigitsValue(t[..|t| - 1]))
  {
    var t := LowerAscii(Trim(s));
    assert ParseReminderString(s) == ParseShorthand(t);
    ShorthandSound(t);
  }

  /** The shorthand reading of already trimmed and lowercased text, case by case. */
  lemma ShorthandSound(t: string)
    requires ParseShorthand(t).Some?
    ensures var r := ParseShorthand(t).value;
            || (|t| > 0 && AllDigits(t) && r == Reminder(DigitsValue(t), Minutes, None))
            || (|t| >= 2 && AllDigits(t[..|t| - 1]) && t[|t| - 1] == UnitChar(r.unit)
                && r.value == DigitsValue(t[..|t| - 1]))
  {
    if t == "0" {
      assert AllDigits(t) && DigitsValue(t) == 0;
    }
  }

  /** Digits and a unit letter, written out as one string, parse to that many units. */
  lemma ParseUnitExample(s: string, value: nat, unit: Unit)
    requires |s| >= 2 && AllDigits(s[..|s| - 1]) && DigitsValue(s[..|s| - 1]) == value
    requires s[|s| - 1] == UnitChar(unit)
    ensures ParseReminderString(s) == Some(Reminder(value, unit, None))
  {
    assert UnitOfChar(s[|s| - 1]) == Some(unit);
    ParseWithUnit(s);
  }

  /** Shorthand with a unit letter that the helper tests accept, with the reminder each one reads as. */
  const UnitExamples: seq<(string, Reminder)> := [
    ("1w", Reminder(1, Weeks, None)), ("3d", Reminder(3, Days, None)),
    ("2h", Reminder(2, Hours, None)), ("30m", Reminder(30, Minutes, None))]

  /** Bare numbers that the helper tests accept as minutes. */
  const MinuteExamples: seq<(string, Reminder)> := [
    ("0", Reminder(0, Minutes, None)), ("60", Reminder(60, Minutes, None)), ("10", Reminder(10, Minutes, None))]

  /** The input the helper tests reject. */
  const RejectedExamples: seq<string> := ["", "  ", "1x", "abc", "invalid"]

  lemma ParseUnitExamples(k: nat)
    requires k < |UnitExamples|
    ensures ParseReminderString(UnitExamples[k].0) == Some(UnitExamples[k].1)
  {
    if k == 0 {
      ParseUnitExample("1w", 1, Weeks);
    } else if k == 1 {
      ParseUnitExample("3d", 3, Days);
    } else if k == 2 {
      ParseUnitExample("2h", 2, Hours);
    } else {
      ParseThirtyMinutes();
    }
  }

  lemma ParseMinuteExamples(k: nat)
    requires k < |MinuteExamples|
    ensures ParseReminderString(MinuteExamples[k].0) == Some(MinuteExamples[k].1)
  {
    if k == 0 {
      ParseDigits("0");
    } else if k == 1 {
      ParseSixty();
    } else {
      ParseTen();
    }
  }

  lemma ParseThirtyMinutes()
    ensures ParseReminderString("30m") == Some(Reminder(30, Minutes, None))
  {
    assert DigitsValue("30") == 30 by { assert "30"[..1] == "3"; }
    ParseUnitExample("30m", 30, Minutes);
  }

  lemma ParseSixty()
    ensures ParseReminderString("60") == Some(Reminder(60, Minutes, None))
  {
    assert DigitsValue("60") == 60 by { assert "60"[..1] == "6"; }
    ParseDigits("60");
  }

  lemma ParseTen()
    ensures ParseReminderString("10") == Some(Reminder(10, Minutes, None))
  {
    assert DigitsValue("10") == 10 by { assert "10"[..1] == "1"; }
    ParseDigits("10");
  }

  lemma ParseRejectedExample(k: nat)
    requires k < |RejectedExamples|
    ensures ParseReminderString(RejectedExamples[k]) == None
  {
    if k == 1 {
      ParseBlank("  ");
    } else if k == 2 {
      RejectUnknownUnit();
    } else if k == 3 {
      RejectLetters();
    } else if k == 4 {
      RejectWord();
    }
  }

  /** "1x": digits followed by a letter that is not a unit. */
  lemma RejectUnknownUnit()
    ensures ParseReminderString("1x") == None
  {
    PlainText("1x");
    ParseOfPlain("1x");
    assert "1x"[..1] == "1" && !IsDigit("1x"[1]) && UnitOfChar('x').None?;
  }

  lemma RejectLetters()
    ensures ParseReminderString("abc") == None
  {
    PlainText("abc");
    ParseOfPlain("abc");
    assert !IsDigit("abc"[0]) && "abc"[..2] == "ab" && !IsDigit("ab"[0]);
  }

  lemma RejectWord()
    ensures ParseReminderString("invalid") == None
  {
    PlainText("invalid");
    ParseOfPlain("invalid");
    assert !IsDigit("invalid"[0]) && "invalid"[..6] == "invali" && !IsDigit("invali"[0]);
  }

  /** Zero displays as "at event time", and nothing else does. */
  lemma FormatReminderZero(r: Reminder)
    ensures FormatReminder(r) == "事件发生时" <==> r.value == 0
  {
    if r.value != 0 {
      assert FormatReminder(r)[0] == '提';
    }
  }

  /** The unit word ends in a character that tells the unit apart. */
  lemma UnitWordLast(u: Unit, v: Unit)
    requires UnitWord(u)[|UnitWord(u)| - 1] == UnitWord(v)[|UnitWord(v)| - 1]
    ensures u == v
  {
  }

  /** Different reminders display differently: the display form determines value and unit. */
  lemma FormatReminderInjective(a: Reminder, b: Reminder)
    requires FormatReminder(a) == FormatReminder(b)
    ensures a.value == b.value
    ensures a.value != 0 ==> a.unit == b.unit
  {
    FormatReminderZero(a);
    FormatReminderZero(b);
    if a.value != 0 {
      var s := FormatReminder(a);
      var wa, wb := UnitWord(a.unit), UnitWord(b.unit);
      assert s[|s| - 1] == wa[|wa| - 1];
      assert s[|s| - 1] == wb[|wb| - 1];
      UnitWordLast(a.unit, b.unit);
      assert IntToString(a.value) == s[2..|s| - |wa|];
      assert IntToString(b.value) == s[2..|s| - |wb|];
      IntToStringInjective(a.value, b.value);
    }
  }

  lemma FormatReminderExamples()
    ensures FormatReminder(Reminder(1, Weeks, None)) == "提前1周"
    ensures FormatReminder(Reminder(3, Days, None)) == "提前3天"
    ensures FormatReminder(Reminder(2, Hours, None)) == "提前2小时"
    ensures FormatReminder(Reminder(30, Minutes, None)) == "提前30分钟"
    ensures FormatReminder(Reminder(0, Minutes, None)) == "事件发生时"
  {
    assert NatToString(30) == "30";
  }

}
