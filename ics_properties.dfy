/**
 * What the generated document promises as a whole: it is framed by
 * `BEGIN:VCALENDAR`/`END:VCALENDAR` with CRLF between lines and none after the
 * last; the header carries `X-WR-CALDESC` exactly when the calendar has a
 * description; there is one `BEGIN:VEVENT` per occurrence; each reminder
 * becomes five alarm lines in reminder order; and a regular event has an
 * `RRULE` exactly when it recurs.
 */
module IcsProperties {
  import opened Wrappers
  import opened Text
  import opened Dates
  import opened Escaping
  import opened CalendarTypes
  import opened Alarms
  import opened RRule
  import opened IcsSpec

  const VEventOpen: string := "BEGIN:VEVENT"

  // ---------------------------------------------------------------------------
  // Header and framing

  /**
   * The header lines in order; the description line is the fifth one when the
   * description is non-empty and is absent otherwise.
   */
  lemma HeaderShape(cal: Calendar)
    ensures var h := HeaderLines(cal);
            && |h| == (if cal.description != "" then 7 else 6)
            && h[0] == "BEGIN:VCALENDAR" && h[1] == "VERSION:2.0" && h[2] == ProductId
            && h[3] == "X-WR-CALNAME:" + EscapeText(cal.name)
            && (cal.description != "" ==> h[4] == "X-WR-CALDESC:" + EscapeText(cal.description))
            && h[|h| - 2] == "X-WR-TIMEZONE:" + cal.timezone
            && h[|h| - 1] == "CALSCALE:GREGORIAN"
  {
  }

  /** A join of three or more parts: the first part, a separator, the middle parts joined, a separator, the last. */
  lemma JoinEnds(parts: seq<string>, sep: string)
    requires |parts| >= 3
    ensures Join(parts, sep) == parts[0] + sep + Join(parts[1..|parts| - 1], sep) + sep + parts[|parts| - 1]
  {
    var mid, last := parts[1..|parts| - 1], parts[|parts| - 1];
    assert parts[1..] == mid + [last];
    JoinAppend(mid, last, sep);
    var a, b := parts[0] + sep, Join(mid, sep);
    assert a + (b + sep + last) == a + b + sep + last;
  }

  /** Where the first, the prefix and the last element of a four-part concatenation sit. */
  lemma FourParts(a: seq<string>, b: seq<string>, c: seq<string>, x: string)
    ensures var s := a + b + c + [x];
            && |s| == |a| + |b| + |c| + 1 && s[..|a|] == a && s[|s| - 1] == x
  {
    var s := a + b + c + [x];
    assert s[..|a|] == a;
  }

  /** A join of lines framed by `first` and `last`. */
  lemma FramedJoin(lines: seq<string>, first: string, last: string)
    requires |lines| >= 3 && lines[0] == first && lines[|lines| - 1] == last
    ensures Join(lines, LineBreak) == first + LineBreak + Join(lines[1..|lines| - 1], LineBreak) + LineBreak + last
  {
    JoinEnds(lines, LineBreak);
  }

  /**
   * The document opens with `BEGIN:VCALENDAR`, then the header, and closes with
   * `END:VCALENDAR`; CRLF separates the lines and none follows the last.
   */
  lemma CalendarFraming(cal: Calendar, range: YearRange, now: DateTime, convert: LunarConverter)
    requires ValidCalendar(cal)
    ensures var lines := CalendarLines(cal, range, now, convert);
            && |lines| >= 7
            && lines[..|HeaderLines(cal)|] == HeaderLines(cal)
            && lines[|lines| - 1] == "END:VCALENDAR"
            && CalendarText(cal, range, now, convert)
               == "BEGIN:VCALENDAR" + LineBreak + Join(lines[1..|lines| - 1], LineBreak) + LineBreak + "END:VCALENDAR"
  {
    CalendarLinesParts(cal, range, now, convert);
    HeaderShape(cal);
    var lines := CalendarLines(cal, range, now, convert);
    var h, z := HeaderLines(cal), TimezoneLines(cal.timezone);
    var v := VEventsLines(cal.timezone, Occurrences(cal.events, StartYear(range, now), EndYear(range, now), convert), now);
    FourParts(h, z, v, "END:VCALENDAR");
    assert lines[0] == lines[..|h|][0] == h[0];
    FramedJoin(lines, "BEGIN:VCALENDAR", "END:VCALENDAR");
  }

  // ---------------------------------------------------------------------------
  // One VEVENT per occurrence

  /** No line opens a VEVENT. */
  predicate NoOpening(lines: seq<string>) {
    forall k :: 0 <= k < |lines| ==> lines[k] != VEventOpen
  }

  lemma {:induction false} CountOfNoOpening(lines: seq<string>)
    requires NoOpening(lines)
    ensures CountOf(lines, VEventOpen) == 0
  {
    if lines != [] {
      CountOfNoOpening(lines[1..]);
    }
  }

  /** A line whose first character is not the `B` of `BEGIN` does not open a VEVENT. */
  lemma Prefixed(prefix: string, value: string)
    requires |prefix| > 0 && prefix[0] != 'B'
    ensures prefix + value != VEventOpen
  {
    assert (prefix + value)[0] == prefix[0];
  }

  lemma NoOpeningAppend(a: seq<string>, b: seq<string>)
    requires NoOpening(a) && NoOpening(b)
    ensures NoOpening(a + b)
  {
  }

  lemma CountOfPush(a: seq<string>, line: string)
    ensures CountOf(a + [line], VEventOpen) == CountOf(a, VEventOpen) + (if line == VEventOpen then 1 else 0)
  {
    CountOfAppend(a, [line], VEventOpen);
    assert [line][1..] == [];
  }

  lemma AlarmNoOpening(r: Reminder, summary: string, allDay: bool)
    ensures NoOpening(AlarmLines(r, summary, allDay))
  {
    assert "BEGIN:VALARM" != VEventOpen;
    Prefixed("DESCRIPTION:", EscapeText(summary));
    Prefixed("TRIGGER:-PT", IntToString(TriggerMinutes(r, allDay)));
    var c := ["BEGIN:VALARM"] + ["ACTION:DISPLAY"];
    NoOpeningAppend(c, ["DESCRIPTION:" + EscapeText(summary)]);
    c := c + ["DESCRIPTION:" + EscapeText(summary)];
    NoOpeningAppend(c, ["TRIGGER:-PT" + IntToString(TriggerMinutes(r, allDay)) + "M"]);
    c := c + ["TRIGGER:-PT" + IntToString(TriggerMinutes(r, allDay)) + "M"];
    NoOpeningAppend(c, ["END:VALARM"]);
  }

  lemma {:induction false} AlarmsNoOpening(rs: seq<Reminder>, summary: string, allDay: bool)
    ensures NoOpening(AlarmsLines(rs, summary, allDay))
    decreases |rs|
  {
    if rs != [] {
      var n := |rs| - 1;
      AlarmsNoOpening(rs[..n], summary, allDay);
      AlarmNoOpening(rs[n], summary, allDay);
      AlarmsLinesStep(rs, n, summary, allDay);
      assert rs[..n + 1] == rs;
      NoOpeningAppend(AlarmsLines(rs[..n], summary, allDay), AlarmLines(rs[n], summary, allDay));
    }
  }

  /** `BEGIN:VEVENT` is the first line of the opening and no other line of it. */
  lemma OpeningCount(p: VEventParams, now: DateTime)
    ensures CountOf(OpeningLines(p, now), VEventOpen) == 1
  {
    var stamp := FormatDateTime(now);
    var c := ["BEGIN:VEVENT"];
    assert CountOf(c, VEventOpen) == 1;
    Prefixed("UID:", p.uid);
    CountOfPush(c, "UID:" + p.uid);
    c := c + ["UID:" + p.uid];
    Prefixed("DTSTAMP:", stamp);
    CountOfPush(c, "DTSTAMP:" + stamp);
    c := c + ["DTSTAMP:" + stamp];
    Prefixed("CREATED:", stamp);
    CountOfPush(c, "CREATED:" + stamp);
    c := c + ["CREATED:" + stamp];
    Prefixed("LAST-MODIFIED:", stamp);
    CountOfPush(c, "LAST-MODIFIED:" + stamp);
    c := c + ["LAST-MODIFIED:" + stamp];
    Prefixed("SUMMARY:", EscapeText(p.summary));
    CountOfPush(c, "SUMMARY:" + EscapeText(p.summary));
    c := c + ["SUMMARY:" + EscapeText(p.summary)];
    assert c == OpeningLines(p, now);
  }

  lemma OptionalNoOpening(prefix: string, value: string)
    requires |prefix| > 0 && prefix[0] != 'B'
    ensures NoOpening(OptionalLine(prefix, value))
  {
    Prefixed(prefix, EscapeText(value));
  }

  /** A line that does not start with the `B` of `BEGIN` does not open a VEVENT. */
  lemma NotOpening(line: string)
    requires |line| > 0 && line[0] != 'B'
    ensures NoOpening([line])
  {
  }

  lemma DatesNoOpening(tz: string, p: VEventParams)
    requires ValidParams(p)
    ensures NoOpening(DateLines(tz, p))
  {
    if p.allDay {
      AllDayDatesNoOpening(p);
    } else {
      TimedDatesNoOpening(tz, p);
    }
  }

  lemma AllDayDatesNoOpening(p: VEventParams)
    requires ValidParams(p) && p.allDay
    ensures NoOpening(["DTSTART;VALUE=DATE:" + FormatDate(p.startDate.date)]
                      + (if p.endDate.Some? then ["DTEND;VALUE=DATE:" + FormatDate(NextDay(p.endDate.value.date))] else []))
  {
    var start := "DTSTART;VALUE=DATE:" + FormatDate(p.startDate.date);
    NotOpening(start);
    if p.endDate.Some? {
      NotOpening("DTEND;VALUE=DATE:" + FormatDate(NextDay(p.endDate.value.date)));
    }
  }

  lemma TimedDatesNoOpening(tz: string, p: VEventParams)
    requires ValidParams(p) && !p.allDay
    ensures NoOpening(["DTSTART;TZID=" + tz + ":" + FormatDateTime(p.startDate)]
                      + (if p.endDate.Some? then ["DTEND;TZID=" + tz + ":" + FormatDateTime(p.endDate.value)] else []))
  {
    NotOpening("DTSTART;TZID=" + tz + ":" + FormatDateTime(p.startDate));
    if p.endDate.Some? {
      NotOpening("DTEND;TZID=" + tz + ":" + FormatDateTime(p.endDate.value));
    }
  }

  lemma TailNoOpening(p: VEventParams)
    ensures NoOpening(RRuleLines(p))
    ensures NoOpening(AlarmsLines(p.reminders, p.summary, p.allDay) + ["END:VEVENT"])
  {
    if p.rrule.Some? && p.rrule.value != "" {
      Prefixed("RRULE:", p.rrule.value);
    }
    AlarmsNoOpening(p.reminders, p.summary, p.allDay);
    NoOpeningAppend(AlarmsLines(p.reminders, p.summary, p.allDay), ["END:VEVENT"]);
  }

  /** Each VEVENT block opens exactly one VEVENT. */
  lemma VEventCount(tz: string, p: VEventParams, now: DateTime)
    requires ValidParams(p)
    ensures CountOf(VEventLines(tz, p, now), VEventOpen) == 1
  {
    var o := OpeningLines(p, now);
    var d := OptionalLine("DESCRIPTION:", p.description);
    var l := OptionalLine("LOCATION:", p.location);
    var dates, rr := DateLines(tz, p), RRuleLines(p);
    var alarms := AlarmsLines(p.reminders, p.summary, p.allDay);
    OptionalNoOpening("DESCRIPTION:", p.description);
    OptionalNoOpening("LOCATION:", p.location);
    DatesNoOpening(tz, p);
    TailNoOpening(p);
    OpeningCount(p, now);
    CountOfNoOpening(d);
    CountOfNoOpening(l);
    CountOfNoOpening(dates);
    CountOfNoOpening(rr);
    CountOfNoOpening(alarms + ["END:VEVENT"]);
    CountOfAppend(o, d, VEventOpen);
    CountOfAppend(o + d, l, VEventOpen);
    CountOfAppend(o + d + l, dates, VEventOpen);
    CountOfAppend(o + d + l + dates, rr, VEventOpen);
    CountOfAppend(alarms, ["END:VEVENT"], VEventOpen);
    CountOfAppend(o + d + l + dates + rr, alarms, VEventOpen);
    CountOfPush(o + d + l + dates + rr + alarms, "END:VEVENT");
  }

  /** The VEVENTs of a list of occurrences open one VEVENT per occurrence. */
  lemma {:induction false} VEventsCount(tz: string, ps: seq<VEventParams>, now: DateTime)
    requires AllValid(ps)
    ensures CountOf(VEventsLines(tz, ps, now), VEventOpen) == |ps|
    decreases |ps|
  {
    if ps != [] {
      var n := |ps| - 1;
      assert ps[..n] + [ps[n]] == ps;
      VEventsCount(tz, ps[..n], now);
      VEventsLinesSnoc(tz, ps[..n], ps[n], now);
      VEventCount(tz, ps[n], now);
      CountOfAppend(VEventsLines(tz, ps[..n], now), VEventLines(tz, ps[n], now), VEventOpen);
    }
  }

  /** Neither the header nor the time zone block opens a VEVENT. */
  lemma HeaderNoOpening(cal: Calendar)
    ensures NoOpening(HeaderLines(cal))
    ensures NoOpening(TimezoneLines(cal.timezone))
  {
    var c := ["BEGIN:VCALENDAR"] + ["VERSION:2.0"] + [ProductId];
    Prefixed("X-WR-CALNAME:", EscapeText(cal.name));
    NoOpeningAppend(c, ["X-WR-CALNAME:" + EscapeText(cal.name)]);
    c := c + ["X-WR-CALNAME:" + EscapeText(cal.name)];
    var opt := if cal.description != "" then ["X-WR-CALDESC:" + EscapeText(cal.description)] else [];
    Prefixed("X-WR-CALDESC:", EscapeText(cal.description));
    NoOpeningAppend(c, opt);
    c := c + opt;
    Prefixed("X-WR-TIMEZONE:", cal.timezone);
    NoOpeningAppend(c, ["X-WR-TIMEZONE:" + cal.timezone]);
    c := c + ["X-WR-TIMEZONE:" + cal.timezone];
    NoOpeningAppend(c, ["CALSCALE:GREGORIAN"]);
    c := c + ["CALSCALE:GREGORIAN"];
    assert c == HeaderLines(cal);
  }

  /** The document has exactly one `BEGIN:VEVENT` line per occurrence of its events. */
  lemma CalendarVEventCount(cal: Calendar, range: YearRange, now: DateTime, convert: LunarConverter)
    requires ValidCalendar(cal)
    ensures CountOf(CalendarLines(cal, range, now, convert), VEventOpen)
            == |Occurrences(cal.events, StartYear(range, now), EndYear(range, now), convert)|
  {
    CalendarLinesParts(cal, range, now, convert);
    var occ := Occurrences(cal.events, StartYear(range, now), EndYear(range, now), convert);
    var h, z, v := HeaderLines(cal), TimezoneLines(cal.timezone), VEventsLines(cal.timezone, occ, now);
    HeaderNoOpening(cal);
    CountOfNoOpening(h);
    CountOfNoOpening(z);
    VEventsCount(cal.timezone, occ, now);
    CountOfAppend(h, z, VEventOpen);
    CountOfAppend(h + z, v, VEventOpen);
    CountOfPush(h + z + v, "END:VCALENDAR");
  }

  // ---------------------------------------------------------------------------
  // Alarms

  /** The five lines of one alarm. */
  lemma AlarmShape(r: Reminder, summary: string, allDay: bool)
    ensures var a := AlarmLines(r, summary, allDay);
            && |a| == 5
            && a[0] == "BEGIN:VALARM"
            && a[1] == "ACTION:DISPLAY"
            && a[2] == "DESCRIPTION:" + EscapeText(summary)
            && a[3] == "TRIGGER:-PT" + IntToString(TriggerMinutes(r, allDay)) + "M"
            && a[4] == "END:VALARM"
  {
  }

  /** Concatenated five-line blocks: line `j` of block `k` is line `5k + j` of the whole. */
  lemma {:induction false} FiveLineBlocks<T>(f: T --> seq<string>, xs: seq<T>)
    requires forall i :: 0 <= i < |xs| ==> f.requires(xs[i]) && |f(xs[i])| == 5
    ensures |ConcatMap(f, xs)| == 5 * |xs|
    ensures forall k, j :: 0 <= k < |xs| && 0 <= j < 5 ==> ConcatMap(f, xs)[5 * k + j] == f(xs[k])[j]
    decreases |xs|
  {
    if xs != [] {
      var n := |xs| - 1;
      var init := xs[..n];
      FiveLineBlocks(f, init);
      var prev, c := ConcatMap(f, init), ConcatMap(f, xs);
      assert c == prev + f(xs[n]);
      forall k, j | 0 <= k < |xs| && 0 <= j < 5
        ensures c[5 * k + j] == f(xs[k])[j]
      {
        if k < n {
          assert xs[k] == init[k];
          assert c[5 * k + j] == prev[5 * k + j];
        }
      }
    }
  }

  /**
   * Reminder `k` becomes lines `5k` to `5k + 4` of the alarms: the alarm opening,
   * the summary as its description, and the trigger for that reminder's offset.
   */
  lemma AlarmsLayout(rs: seq<Reminder>, summary: string, allDay: bool)
    ensures var a := AlarmsLines(rs, summary, allDay);
            && |a| == 5 * |rs|
            && forall k :: 0 <= k < |rs| ==>
                 && a[5 * k] == "BEGIN:VALARM"
                 && a[5 * k + 2] == "DESCRIPTION:" + EscapeText(summary)
                 && a[5 * k + 3] == "TRIGGER:-PT" + IntToString(TriggerMinutes(rs[k], allDay)) + "M"
                 && a[5 * k + 4] == "END:VALARM"
  {
    var f := (r: Reminder) => AlarmLines(r, summary, allDay);
    forall i | 0 <= i < |rs|
      ensures |f(rs[i])| == 5
    {
      AlarmShape(rs[i], summary, allDay);
    }
    FiveLineBlocks(f, rs);
    forall k | 0 <= k < |rs|
      ensures var a := AlarmsLines(rs, summary, allDay);
              && a[5 * k] == "BEGIN:VALARM"
              && a[5 * k + 2] == "DESCRIPTION:" + EscapeText(summary)
              && a[5 * k + 3] == "TRIGGER:-PT" + IntToString(TriggerMinutes(rs[k], allDay)) + "M"
              && a[5 * k + 4] == "END:VALARM"
    {
      AlarmShape(rs[k], summary, allDay);
      assert f(rs[k]) == AlarmLines(rs[k], summary, allDay);
    }
  }

  // ---------------------------------------------------------------------------
  // Regular events

  /** An RRULE value always starts with its `FREQ` part, so it is never empty. */
  lemma RRuleTextNonEmpty(rec: Recurrence)
    ensures RRuleText(rec) != ""
  {
    RRuleSplits(rec);
    assert |RRuleParts(rec)[0]| > 0;
  }

  /**
   * A regular event is a single VEVENT under its own id, with its own dates, and
   * with an `RRULE` line exactly when it has a recurrence.
   */
  lemma RegularVEvent(ev: Event, startYear: int, endYear: int, convert: LunarConverter)
    requires ev.Regular?
    ensures EventOccurrences(ev, startYear, endYear, convert) == [RegularParams(ev)]
    ensures var p := RegularParams(ev);
            && p.uid == ev.base.id && p.startDate == ev.startDate && p.endDate == ev.endDate
            && RRuleLines(p) == (if ev.recurrence.Some? then ["RRULE:" + RRuleText(ev.recurrence.value)] else [])
  {
    if ev.recurrence.Some? {
      RRuleTextNonEmpty(ev.recurrence.value);
    }
  }
}
