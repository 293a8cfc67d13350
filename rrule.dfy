/**
 * The RRULE value of RFC 5545 section 3.3.10 as `generateRRule` writes it:
 * `FREQ=` first, then the optional `INTERVAL`, `COUNT` or `UNTIL`, `BYDAY` and
 * `BYMONTHDAY` parts, in that order, separated by semicolons.
 */
module RRule {
  import opened Wrappers
  import opened Text
  import opened Dates
  import opened CalendarTypes

  function FrequencyName(f: Frequency): string {
    match f
    case Daily => "DAILY"
    case Weekly => "WEEKLY"
    case Monthly => "MONTHLY"
    case Yearly => "YEARLY"
  }

  const WeekdayTable: seq<string> := ["SU", "MO", "TU", "WE", "TH", "FR", "SA"]

  /** `days[d]`: Sunday is 0; an index outside the table reads `undefined`, which `join` writes as "". */
  function WeekdayCode(d: int): string {
    if 0 <= d < |WeekdayTable| then WeekdayTable[d] else ""
  }

  function WeekdayCodes(days: seq<int>): seq<string> {
    seq(|days|, k requires 0 <= k < |days| => WeekdayCode(days[k]))
  }

  function NumberStrings(ns: seq<int>): seq<string> {
    seq(|ns|, k requires 0 <= k < |ns| => IntToString(ns[k]))
  }

  /** JavaScript truthiness of an optional number: present and not zero. */
  predicate Truthy(n: Option<int>) {
    n.Some? && n.value != 0
  }

  /** One rule part, `NAME=value`. */
  function Part(name: string, value: string): string {
    name + "=" + value
  }

  function IntervalPart(rec: Recurrence): seq<string> {
    if rec.interval.Some? && rec.interval.value > 1 then [Part("INTERVAL", IntToString(rec.interval.value))] else []
  }

  /** `COUNT` wins over `UNTIL`: at most one of them is written. */
  function EndPart(rec: Recurrence): seq<string> {
    if Truthy(rec.count) then [Part("COUNT", IntToString(rec.count.value))]
    else if rec.until.Some? then [Part("UNTIL", FormatDateTime(rec.until.value))]
    else []
  }

  function ByDayPart(rec: Recurrence): seq<string> {
    if |rec.byWeekDay| > 0 then [Part("BYDAY", Join(WeekdayCodes(rec.byWeekDay), ","))] else []
  }

  function ByMonthDayPart(rec: Recurrence): seq<string> {
    if |rec.byMonthDay| > 0 then [Part("BYMONTHDAY", Join(NumberStrings(rec.byMonthDay), ","))] else []
  }

  /** The `parts` array of `generateRRule`. */
  function RRuleParts(rec: Recurrence): seq<string> {
    [Part("FREQ", FrequencyName(rec.frequency))] + IntervalPart(rec) + EndPart(rec) + ByDayPart(rec) + ByMonthDayPart(rec)
  }

  /** `parts.join(';')`. */
  function RRuleText(rec: Recurrence): string {
    Join(RRuleParts(rec), ";")
  }

  /** The rule-part name of `NAME=value`: everything before the first `=`. */
  function KeyOf(part: string): string {
    if part == [] || part[0] == '=' then [] else [part[0]] + KeyOf(part[1..])
  }

  function Keys(parts: seq<string>): seq<string> {
    seq(|parts|, k requires 0 <= k < |parts| => KeyOf(parts[k]))
  }

  // ---------------------------------------------------------------------------
  // Lemmas

  lemma {:induction false} KeyOfPart(key: string, value: string)
    requires '=' !in key
    ensures KeyOf(key + "=" + value) == key
  {
    if key != [] {
      assert (key + "=" + value)[1..] == key[1..] + "=" + value;
      KeyOfPart(key[1..], value);
    }
  }

  lemma NoSemicolonInNumber(i: int)
    ensures ';' !in IntToString(i) && ',' !in IntToString(i)
  {
    var s := IntToString(i);
    if i < 0 {
      assert s == "-" + NatToString(-i);
      assert AllDigits(s[1..]);
    }
  }

  lemma NoSemicolonInPadded(i: int)
    ensures ';' !in Pad2(IntToString(i))
  {
    NoSemicolonInNumber(i);
    var s := IntToString(i);
    if |s| == 1 {
      assert Pad2(s) == "0" + s;
    }
  }

  lemma NoSemicolonInDateTime(t: DateTime)
    ensures ';' !in FormatDateTime(t)
  {
    NoSemicolonInNumber(t.date.year);
    NoSemicolonInPadded(t.date.month);
    NoSemicolonInPadded(t.date.day);
    NoSemicolonInPadded(t.hour);
    NoSemicolonInPadded(t.minute);
    NoSemicolonInPadded(t.second);
  }

  /** No list element holds character `c`. */
  predicate NoneHolds(parts: seq<string>, c: char) {
    forall k :: 0 <= k < |parts| ==> c !in parts[k]
  }

  lemma NoneHoldsAppend(a: seq<string>, b: seq<string>, c: char)
    requires NoneHolds(a, c) && NoneHolds(b, c)
    ensures NoneHolds(a + b, c)
  {
  }

  /** A part holds `c` only if its name or its value does (or `c` is the `=`). */
  lemma PartWithout(name: string, value: string, c: char)
    requires c !in name && c != '=' && c !in value
    ensures NoneHolds([Part(name, value)], c)
  {
    var p := Part(name, value);
    forall k | 0 <= k < |p| ensures p[k] != c {
      if k < |name| {
        assert p[k] == name[k];
      } else if k > |name| {
        assert p[k] == value[k - |name| - 1];
      }
    }
  }

  lemma NoSemicolonInLeading(rec: Recurrence)
    ensures NoneHolds([Part("FREQ", FrequencyName(rec.frequency))], ';') && NoneHolds(IntervalPart(rec), ';')
  {
    PartWithout("FREQ", FrequencyName(rec.frequency), ';');
    if rec.interval.Some? && rec.interval.value > 1 {
      NoSemicolonInNumber(rec.interval.value);
      PartWithout("INTERVAL", IntToString(rec.interval.value), ';');
    }
  }

  lemma NoSemicolonInEnd(rec: Recurrence)
    ensures NoneHolds(EndPart(rec), ';')
  {
    if Truthy(rec.count) {
      NoSemicolonInNumber(rec.count.value);
      PartWithout("COUNT", IntToString(rec.count.value), ';');
    } else if rec.until.Some? {
      NoSemicolonInDateTime(rec.until.value);
      PartWithout("UNTIL", FormatDateTime(rec.until.value), ';');
    }
  }

  lemma NoSemicolonInLists(rec: Recurrence)
    ensures NoneHolds(ByDayPart(rec), ';') && NoneHolds(ByMonthDayPart(rec), ';')
  {
    if |rec.byWeekDay| > 0 {
      JoinNoChar(WeekdayCodes(rec.byWeekDay), ",", ';');
      PartWithout("BYDAY", Join(WeekdayCodes(rec.byWeekDay), ","), ';');
    }
    if |rec.byMonthDay| > 0 {
      forall k | 0 <= k < |rec.byMonthDay| ensures ';' !in NumberStrings(rec.byMonthDay)[k] {
        NoSemicolonInNumber(rec.byMonthDay[k]);
      }
      JoinNoChar(NumberStrings(rec.byMonthDay), ",", ';');
      PartWithout("BYMONTHDAY", Join(NumberStrings(rec.byMonthDay), ","), ';');
    }
  }

  lemma NoSemicolonInParts(rec: Recurrence)
    ensures NoneHolds(RRuleParts(rec), ';')
  {
    var p0, p1, p2, p3, p4 := [Part("FREQ", FrequencyName(rec.frequency))], IntervalPart(rec), EndPart(rec), ByDayPart(rec), ByMonthDayPart(rec);
    NoSemicolonInLeading(rec);
    NoSemicolonInEnd(rec);
    NoSemicolonInLists(rec);
    NoneHoldsAppend(p0, p1, ';');
    NoneHoldsAppend(p0 + p1, p2, ';');
    NoneHoldsAppend(p0 + p1 + p2, p3, ';');
    NoneHoldsAppend(p0 + p1 + p2 + p3, p4, ';');
  }

  /** The rule text splits on `;` back into exactly the parts it was joined from. */
  lemma RRuleSplits(rec: Recurrence)
    ensures Split(RRuleText(rec), ';') == RRuleParts(rec)
  {
    NoSemicolonInParts(rec);
    SplitJoin(RRuleParts(rec), ';');
  }

  lemma KeysAppend(a: seq<string>, b: seq<string>)
    ensures Keys(a + b) == Keys(a) + Keys(b)
  {
  }

  /** A part's name is read back as its key. */
  lemma KeyOfNamed(name: string, value: string)
    requires '=' !in name
    ensures KeyOf(Part(name, value)) == name
    ensures Keys([Part(name, value)]) == [name]
  {
    KeyOfPart(name, value);
  }

  lemma IntervalKeys(rec: Recurrence)
    ensures Keys(IntervalPart(rec)) == if rec.interval.Some? && rec.interval.value > 1 then ["INTERVAL"] else []
  {
    if IntervalPart(rec) != [] {
      KeyOfNamed("INTERVAL", IntToString(rec.interval.value));
    }
  }

  lemma EndKeys(rec: Recurrence)
    ensures Keys(EndPart(rec)) == if Truthy(rec.count) then ["COUNT"] else if rec.until.Some? then ["UNTIL"] else []
  {
    if Truthy(rec.count) {
      KeyOfNamed("COUNT", IntToString(rec.count.value));
    } else if rec.until.Some? {
      KeyOfNamed("UNTIL", FormatDateTime(rec.until.value));
    }
  }

  lemma ListKeys(rec: Recurrence)
    ensures Keys(ByDayPart(rec)) == if |rec.byWeekDay| > 0 then ["BYDAY"] else []
    ensures Keys(ByMonthDayPart(rec)) == if |rec.byMonthDay| > 0 then ["BYMONTHDAY"] else []
  {
    if |rec.byWeekDay| > 0 {
      KeyOfNamed("BYDAY", Join(WeekdayCodes(rec.byWeekDay), ","));
    }
    if |rec.byMonthDay| > 0 {
      KeyOfNamed("BYMONTHDAY", Join(NumberStrings(rec.byMonthDay), ","));
    }
  }

  /** The part names in order: FREQ, then INTERVAL, COUNT or UNTIL, BYDAY, BYMONTHDAY as present. */
  lemma PartKeys(rec: Recurrence)
    ensures Keys(RRuleParts(rec)) ==
      ["FREQ"]
      + (if rec.interval.Some? && rec.interval.value > 1 then ["INTERVAL"] else [])
      + (if Truthy(rec.count) then ["COUNT"] else if rec.until.Some? then ["UNTIL"] else [])
      + (if |rec.byWeekDay| > 0 then ["BYDAY"] else [])
      + (if |rec.byMonthDay| > 0 then ["BYMONTHDAY"] else [])
  {
    var p0, p1, p2, p3, p4 := [Part("FREQ", FrequencyName(rec.frequency))], IntervalPart(rec), EndPart(rec), ByDayPart(rec), ByMonthDayPart(rec);
    KeyOfNamed("FREQ", FrequencyName(rec.frequency));
    IntervalKeys(rec);
    EndKeys(rec);
    ListKeys(rec);
    KeysAppend(p0, p1);
    KeysAppend(p0 + p1, p2);
    KeysAppend(p0 + p1 + p2, p3);
    KeysAppend(p0 + p1 + p2 + p3, p4);
  }
  /** Which names a list of the shape `PartKeys` gives contains. */
  lemma KeysShape(keys: seq<string>, interval: bool, count: bool, until: bool, byDay: bool, byMonthDay: bool)
    requires keys == ["FREQ"] + (if interval then ["INTERVAL"] else [])
                     + (if count then ["COUNT"] else if until then ["UNTIL"] else [])
                     + (if byDay then ["BYDAY"] else []) + (if byMonthDay then ["BYMONTHDAY"] else [])
    ensures keys[0] == "FREQ"
    ensures "INTERVAL" in keys <==> interval
    ensures "COUNT" in keys <==> count
    ensures "UNTIL" in keys <==> !count && until
    ensures "BYDAY" in keys <==> byDay
    ensures "BYMONTHDAY" in keys <==> byMonthDay
  {
    assert "BYDAY"[0] != "COUNT"[0] && "BYDAY"[0] != "UNTIL"[0] && "COUNT"[0] != "UNTIL"[0];
  }

  /**
   * Which rule parts appear, read back from the text: `FREQ` always and first,
   * `INTERVAL` only above 1, `COUNT` when the count is set and non-zero, `UNTIL`
   * only otherwise (so never both), and the `BYDAY`/`BYMONTHDAY` lists only when
   * non-empty.
   */
  lemma RRuleKeys(rec: Recurrence)
    ensures var keys := Keys(Split(RRuleText(rec), ';'));
      && keys[0] == "FREQ"
      && ("INTERVAL" in keys <==> rec.interval.Some? && rec.interval.value > 1)
      && ("COUNT" in keys <==> Truthy(rec.count))
      && ("UNTIL" in keys <==> !Truthy(rec.count) && rec.until.Some?)
      && ("BYDAY" in keys <==> |rec.byWeekDay| > 0)
      && ("BYMONTHDAY" in keys <==> |rec.byMonthDay| > 0)
  {
    RRuleSplits(rec);
    PartKeys(rec);
    KeysShape(Keys(RRuleParts(rec)), rec.interval.Some? && rec.interval.value > 1, Truthy(rec.count), rec.until.Some?,
              |rec.byWeekDay| > 0, |rec.byMonthDay| > 0);
  }

  /**
   * The values carried by the parts: the interval and count in decimal, the end
   * instant in `YYYYMMDDTHHMMSSZ` form, and the weekday and month-day lists in the
   * given order, recoverable by splitting on `,`; weekdays 0..6 become SU..SA.
   */
  lemma RRuleValues(rec: Recurrence)
    ensures var parts := Split(RRuleText(rec), ';');
      && parts[0] == Part("FREQ", FrequencyName(rec.frequency))
      && (rec.interval.Some? && rec.interval.value > 1 ==> Part("INTERVAL", IntToString(rec.interval.value)) in parts)
      && (Truthy(rec.count) ==> Part("COUNT", IntToString(rec.count.value)) in parts)
      && (!Truthy(rec.count) && rec.until.Some? ==> Part("UNTIL", FormatDateTime(rec.until.value)) in parts)
      && (|rec.byWeekDay| > 0 ==>
            exists byDay :: Part("BYDAY", byDay) in parts && Split(byDay, ',') == WeekdayCodes(rec.byWeekDay))
      && (|rec.byMonthDay| > 0 ==>
            exists byMonthDay :: Part("BYMONTHDAY", byMonthDay) in parts && Split(byMonthDay, ',') == NumberStrings(rec.byMonthDay))
  {
    RRuleSplits(rec);
    var parts := RRuleParts(rec);
    var p0, p1, p2, p3, p4 := [Part("FREQ", FrequencyName(rec.frequency))], IntervalPart(rec), EndPart(rec), ByDayPart(rec), ByMonthDayPart(rec);
    assert parts == p0 + p1 + p2 + p3 + p4;
    if |rec.byWeekDay| > 0 {
      var codes := WeekdayCodes(rec.byWeekDay);
      forall k | 0 <= k < |codes| ensures ',' !in codes[k] {
        assert codes[k] == WeekdayCode(rec.byWeekDay[k]);
      }
      SplitJoin(codes, ',');
      assert Part("BYDAY", Join(codes, ",")) in p3;
    }
    if |rec.byMonthDay| > 0 {
      var ns := NumberStrings(rec.byMonthDay);
      forall k | 0 <= k < |ns| ensures ',' !in ns[k] {
        NoSemicolonInNumber(rec.byMonthDay[k]);
      }
      SplitJoin(ns, ',');
      assert Part("BYMONTHDAY", Join(ns, ",")) in p4;
    }
  }

  /** Weekday codes are the two-letter RFC 5545 names, Sunday first, each day its own code. */
  lemma WeekdayCodesDistinct(a: int, b: int)
    requires 0 <= a < 7 && 0 <= b < 7 && a != b
    ensures |WeekdayCode(a)| == 2 && WeekdayCode(a) != WeekdayCode(b)
  {
  }

  /** The parts of a weekly rule every two weeks for five occurrences. */
  lemma RRulePartsExampleInterval()
    ensures RRuleParts(Recurrence(Weekly, Some(2), Some(5), None, [], [])) == ["FREQ=WEEKLY", "INTERVAL=2", "COUNT=5"]
  {
    var r := Recurrence(Weekly, Some(2), Some(5), None, [], []);
    assert IntToString(2) == "2";
    assert IntervalPart(r) == [Part("INTERVAL", "2")];
    assert Part("INTERVAL", "2") == "INTERVAL=2";
    assert IntToString(5) == "5";
    assert EndPart(r) == [Part("COUNT", "5")];
    assert Part("COUNT", "5") == "COUNT=5";
    assert Part("FREQ", "WEEKLY") == "FREQ=WEEKLY";
  }

  /** A weekly rule every two weeks for five occurrences. */
  lemma RRuleExampleInterval()
    ensures RRuleText(Recurrence(Weekly, Some(2), Some(5), None, [], [])) == "FREQ=WEEKLY;INTERVAL=2;COUNT=5"
  {
    RRulePartsExampleInterval();
    JoinAppend(["FREQ=WEEKLY", "INTERVAL=2"], "COUNT=5", ";");
  }

  /** An interval of 1 is left implicit. */
  lemma RRuleExampleCount()
    ensures RRuleText(Recurrence(Weekly, Some(1), Some(10), None, [], [])) == "FREQ=WEEKLY;COUNT=10"
  {
    var r := Recurrence(Weekly, Some(1), Some(10), None, [], []);
    assert NatToString(10) == NatToString(1) + [DigitChar(0)];
    assert IntToString(10) == "10";
    assert Part("COUNT", "10") == "COUNT=10" && Part("FREQ", "WEEKLY") == "FREQ=WEEKLY";
    assert IntervalPart(r) == [];
    assert EndPart(r) == ["COUNT=10"];
    assert RRuleParts(r) == ["FREQ=WEEKLY", "COUNT=10"];
  }
}
