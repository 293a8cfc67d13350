/**
 * The content lines the generator emits, as functions of the calendar, the year
 * window, the current instant and the lunar converter. The class ICSGenerator
 * (module IcsGenerator) builds the same lines step by step and is proved equal
 * to these functions; the lemmas in IcsProperties and BirthdayProperties state
 * what the lines mean.
 */
module IcsSpec {
  import opened Wrappers
  import opened Text
  import opened Dates
  import opened Escaping
  import opened CalendarTypes
  import opened Alarms
  import opened RRule

  const ProductId: string := "PRODID:-//ICS Calendar Generator//EN"
  const LineBreak: string := "\r\n"
  const ShanghaiZone: string := "Asia/Shanghai"

  /** `VCALENDAR` opening and calendar properties, in emission order. */
  function HeaderLines(cal: Calendar): seq<string> {
    ["BEGIN:VCALENDAR"] + ["VERSION:2.0"] + [ProductId] + ["X-WR-CALNAME:" + EscapeText(cal.name)]
    + (if cal.description != "" then ["X-WR-CALDESC:" + EscapeText(cal.description)] else [])
    + ["X-WR-TIMEZONE:" + cal.timezone] + ["CALSCALE:GREGORIAN"]
  }

  /** The hard-coded China Standard Time definition (UTC+8, no daylight saving). */
  const ShanghaiTimezone: seq<string> := [
    "BEGIN:VTIMEZONE", "TZID:Asia/Shanghai", "BEGIN:STANDARD", "DTSTART:19700101T000000",
    "TZOFFSETFROM:+0800", "TZOFFSETTO:+0800", "TZNAME:CST", "END:STANDARD", "END:VTIMEZONE"]

  /** `generateTimezone`: only Asia/Shanghai gets a `VTIMEZONE` component. */
  function TimezoneLines(tz: string): seq<string> {
    if tz == ShanghaiZone then ShanghaiTimezone else []
  }

  /** The argument record of `generateVEvent` (its unused `recurring` flag left out). */
  datatype VEventParams = VEventParams(
    uid: string,
    summary: string,
    description: string,
    location: string,
    startDate: DateTime,
    endDate: Option<DateTime>,
    allDay: bool,
    reminders: seq<Reminder>,
    rrule: Option<string>)

  predicate ValidParams(p: VEventParams) {
    p.endDate.Some? ==> ValidDate(p.endDate.value.date)
  }

  predicate AllValid(ps: seq<VEventParams>) {
    forall k :: 0 <= k < |ps| ==> ValidParams(ps[k])
  }

  /** `generateVAlarm`: a display alarm showing the event summary. */
  function AlarmLines(r: Reminder, summary: string, allDay: bool): seq<string> {
    ["BEGIN:VALARM"] + ["ACTION:DISPLAY"] + ["DESCRIPTION:" + EscapeText(summary)]
    + ["TRIGGER:-PT" + IntToString(TriggerMinutes(r, allDay)) + "M"] + ["END:VALARM"]
  }

  /** One alarm per reminder, in reminder order. */
  function AlarmsLines(rs: seq<Reminder>, summary: string, allDay: bool): seq<string> {
    ConcatMap(r => AlarmLines(r, summary, allDay), rs)
  }

  /** A property line written only when the value is non-empty; `prefix` is the name and its colon. */
  function OptionalLine(prefix: string, value: string): seq<string> {
    if value != "" then [prefix + EscapeText(value)] else []
  }

  /**
   * `DTSTART`/`DTEND`: all-day events as `VALUE=DATE` with an exclusive end one day
   * after the given end date; timed events with the calendar's `TZID`.
   */
  function DateLines(tz: string, p: VEventParams): seq<string>
    requires ValidParams(p)
  {
    if p.allDay then
      ["DTSTART;VALUE=DATE:" + FormatDate(p.startDate.date)]
      + (if p.endDate.Some? then ["DTEND;VALUE=DATE:" + FormatDate(NextDay(p.endDate.value.date))] else [])
    else
      ["DTSTART;TZID=" + tz + ":" + FormatDateTime(p.startDate)]
      + (if p.endDate.Some? then ["DTEND;TZID=" + tz + ":" + FormatDateTime(p.endDate.value)] else [])
  }

  function RRuleLines(p: VEventParams): seq<string> {
    if p.rrule.Some? && p.rrule.value != "" then ["RRULE:" + p.rrule.value] else []
  }

  /** The component opening and the properties every event has, stamped with the current instant. */
  function OpeningLines(p: VEventParams, now: DateTime): seq<string> {
    ["BEGIN:VEVENT"] + ["UID:" + p.uid] + ["DTSTAMP:" + FormatDateTime(now)] + ["CREATED:" + FormatDateTime(now)]
    + ["LAST-MODIFIED:" + FormatDateTime(now)] + ["SUMMARY:" + EscapeText(p.summary)]
  }

  /** The lines before the dates: the opening, and the description and location when given. */
  function HeadLines(p: VEventParams, now: DateTime): seq<string> {
    OpeningLines(p, now) + OptionalLine("DESCRIPTION:", p.description) + OptionalLine("LOCATION:", p.location)
  }

  /** `generateVEvent`: the lines from `BEGIN:VEVENT` to `END:VEVENT`, in emission order. */
  function VEventLines(tz: string, p: VEventParams, now: DateTime): seq<string>
    requires ValidParams(p)
  {
    HeadLines(p, now) + DateLines(tz, p) + RRuleLines(p) + AlarmsLines(p.reminders, p.summary, p.allDay) + ["END:VEVENT"]
  }

  function VEventRenderer(tz: string, now: DateTime): VEventParams --> seq<string> {
    p requires ValidParams(p) => VEventLines(tz, p, now)
  }

  /** The VEVENTs of a list of occurrences, in order. */
  function VEventsLines(tz: string, ps: seq<VEventParams>, now: DateTime): seq<string>
    requires AllValid(ps)
  {
    ConcatMap(VEventRenderer(tz, now), ps)
  }

  // ---------------------------------------------------------------------------
  // Birthdays

  /**
   * The date of a birthday in `year`: for a lunar birthday whatever the converter
   * returns; for a solar one the same month and day, with Feb 29 moved to Feb 28
   * in years that are not leap years.
   */
  function BirthdayDate(ev: Event, year: int, convert: LunarConverter): Option<Date>
    requires ev.Birthday?
  {
    var b := ev.birthDate;
    if ev.calendarType == Lunar then convert(b.year, b.month, b.day, year)
    else if b.month == 2 && b.day == 29 && !IsLeapYear(year) then Some(Date(year, 2, 28))
    else Some(Date(year, b.month, b.day))
  }

  /** `<id>-<year>`. */
  function BirthdayUid(ev: Event, year: int): string {
    ev.base.id + "-" + IntToString(year)
  }

  function BirthdaySummary(ev: Event, year: int): string
    requires ev.Birthday?
  {
    if ev.showAge then ev.personName + "生日 (" + IntToString(year - ev.birthDate.year) + "岁)"
    else ev.personName + "生日"
  }

  /** The all-day, non-recurring VEVENT of one birthday occurrence. */
  function BirthdayParams(ev: Event, year: int, date: Date): VEventParams
    requires ev.Birthday?
  {
    VEventParams(
      BirthdayUid(ev, year),
      BirthdaySummary(ev, year),
      if ev.base.description != "" then ev.base.description else ev.personName + "的生日",
      "",
      DateTime(date, 0, 0, 0),
      None,
      true,
      ev.base.reminders,
      None)
  }

  /** The birthday's occurrences for the years `startYear..endYear`, in year order. */
  function BirthdayOccurrences(ev: Event, startYear: int, endYear: int, convert: LunarConverter): seq<VEventParams>
    requires ev.Birthday?
    decreases endYear - startYear
  {
    if endYear < startYear then []
    else
      BirthdayOccurrences(ev, startYear, endYear - 1, convert)
      + match BirthdayDate(ev, endYear, convert)
        case Some(d) => [BirthdayParams(ev, endYear, d)]
        case None => []
  }

  // ---------------------------------------------------------------------------
  // Regular events and the whole calendar

  /** `generateRegularEvent`: the event's own id as UID, and its recurrence as RRULE text. */
  function RegularParams(ev: Event): VEventParams
    requires ev.Regular?
  {
    VEventParams(
      ev.base.id,
      ev.base.summary,
      ev.base.description,
      ev.base.location,
      ev.startDate,
      ev.endDate,
      ev.allDay,
      ev.base.reminders,
      if ev.recurrence.Some? then Some(RRuleText(ev.recurrence.value)) else None)
  }

  function EventOccurrences(ev: Event, startYear: int, endYear: int, convert: LunarConverter): seq<VEventParams> {
    if ev.Birthday? then BirthdayOccurrences(ev, startYear, endYear, convert) else [RegularParams(ev)]
  }

  function Occurrences(events: seq<Event>, startYear: int, endYear: int, convert: LunarConverter): seq<VEventParams>
    decreases |events|
  {
    if events == [] then []
    else
      Occurrences(events[..|events| - 1], startYear, endYear, convert)
      + EventOccurrences(events[|events| - 1], startYear, endYear, convert)
  }

  function StartYear(range: YearRange, now: DateTime): int {
    now.date.year - range.past
  }

  function EndYear(range: YearRange, now: DateTime): int {
    now.date.year + range.future
  }

  /** Every occurrence of a calendar whose dates are real dates has a real end date. */
  lemma {:induction false} OccurrencesValid(events: seq<Event>, startYear: int, endYear: int, convert: LunarConverter)
    requires forall i :: 0 <= i < |events| ==> ValidEvent(events[i])
    ensures AllValid(Occurrences(events, startYear, endYear, convert))
    decreases |events|
  {
    if events != [] {
      OccurrencesValid(events[..|events| - 1], startYear, endYear, convert);
      var ev := events[|events| - 1];
      if ev.Birthday? {
        BirthdaysValid(ev, startYear, endYear, convert);
      }
    }
  }

  lemma {:induction false} BirthdaysValid(ev: Event, startYear: int, endYear: int, convert: LunarConverter)
    requires ev.Birthday?
    ensures AllValid(BirthdayOccurrences(ev, startYear, endYear, convert))
    decreases endYear - startYear
  {
    if endYear >= startYear {
      BirthdaysValid(ev, startYear, endYear - 1, convert);
    }
  }

  /** `generate`: header, optional time zone, the events in calendar order, footer. */
  function CalendarLines(cal: Calendar, range: YearRange, now: DateTime, convert: LunarConverter): seq<string>
    requires ValidCalendar(cal)
  {
    var occurrences := Occurrences(cal.events, StartYear(range, now), EndYear(range, now), convert);
    OccurrencesValid(cal.events, StartYear(range, now), EndYear(range, now), convert);
    HeaderLines(cal) + TimezoneLines(cal.timezone) + VEventsLines(cal.timezone, occurrences, now) + ["END:VCALENDAR"]
  }

  /** The document: lines separated by CRLF, with no line break after the last one. */
  function CalendarText(cal: Calendar, range: YearRange, now: DateTime, convert: LunarConverter): string
    requires ValidCalendar(cal)
  {
    Join(CalendarLines(cal, range, now, convert), LineBreak)
  }

  lemma VEventsLinesAppend(tz: string, a: seq<VEventParams>, b: seq<VEventParams>, now: DateTime)
    requires AllValid(a) && AllValid(b)
    ensures AllValid(a + b)
    ensures VEventsLines(tz, a + b, now) == VEventsLines(tz, a, now) + VEventsLines(tz, b, now)
  {
    ConcatMapAppend(VEventRenderer(tz, now), a, b);
  }

  /** The reminders up to `i + 1` give the alarms of those up to `i`, then the alarm of reminder `i`. */
  lemma AlarmsLinesStep(rs: seq<Reminder>, i: int, summary: string, allDay: bool)
    requires 0 <= i < |rs|
    ensures AlarmsLines(rs[..i + 1], summary, allDay) == AlarmsLines(rs[..i], summary, allDay) + AlarmLines(rs[i], summary, allDay)
  {
    var f := (x: Reminder) => AlarmLines(x, summary, allDay);
    assert rs[..i + 1] == rs[..i] + [rs[i]];
    ConcatMapAppend(f, rs[..i], [rs[i]]);
    ConcatMapOne(f, rs[i]);
  }

  /** Rendering one more occurrence appends its VEVENT. */
  lemma VEventsLinesSnoc(tz: string, ps: seq<VEventParams>, p: VEventParams, now: DateTime)
    requires AllValid(ps) && ValidParams(p)
    ensures AllValid(ps + [p])
    ensures VEventsLines(tz, ps + [p], now) == VEventsLines(tz, ps, now) + VEventLines(tz, p, now)
  {
    ConcatMapAppend(VEventRenderer(tz, now), ps, [p]);
    ConcatMapOne(VEventRenderer(tz, now), p);
  }

  /** A single occurrence renders as its own VEVENT. */
  lemma VEventsLinesOne(tz: string, p: VEventParams, now: DateTime)
    requires ValidParams(p)
    ensures AllValid([p])
    ensures VEventsLines(tz, [p], now) == VEventLines(tz, p, now)
  {
    ConcatMapOne(VEventRenderer(tz, now), p);
  }

  /** The events up to `i + 1` render as those up to `i` followed by the occurrences of event `i`. */
  lemma OccurrencesStep(tz: string, events: seq<Event>, i: int, startYear: int, endYear: int,
                        convert: LunarConverter, now: DateTime)
    requires 0 <= i < |events|
    requires AllValid(Occurrences(events[..i], startYear, endYear, convert))
    requires AllValid(EventOccurrences(events[i], startYear, endYear, convert))
    ensures AllValid(Occurrences(events[..i + 1], startYear, endYear, convert))
    ensures VEventsLines(tz, Occurrences(events[..i + 1], startYear, endYear, convert), now)
            == VEventsLines(tz, Occurrences(events[..i], startYear, endYear, convert), now)
               + VEventsLines(tz, EventOccurrences(events[i], startYear, endYear, convert), now)
  {
    assert events[..i + 1][..i] == events[..i];
    VEventsLinesAppend(tz, Occurrences(events[..i], startYear, endYear, convert),
                       EventOccurrences(events[i], startYear, endYear, convert), now);
  }

  /** One more year of a birthday window adds that year's occurrence, if it has a date. */
  lemma BirthdayYearStep(tz: string, ev: Event, startYear: int, year: int, convert: LunarConverter, now: DateTime)
    requires ev.Birthday? && startYear <= year
    ensures AllValid(BirthdayOccurrences(ev, startYear, year - 1, convert))
    ensures AllValid(BirthdayOccurrences(ev, startYear, year, convert))
    ensures BirthdayDate(ev, year, convert).None? ==>
      VEventsLines(tz, BirthdayOccurrences(ev, startYear, year, convert), now)
      == VEventsLines(tz, BirthdayOccurrences(ev, startYear, year - 1, convert), now)
    ensures BirthdayDate(ev, year, convert).Some? ==>
      VEventsLines(tz, BirthdayOccurrences(ev, startYear, year, convert), now)
      == VEventsLines(tz, BirthdayOccurrences(ev, startYear, year - 1, convert), now)
         + VEventLines(tz, BirthdayParams(ev, year, BirthdayDate(ev, year, convert).value), now)
  {
    BirthdaysValid(ev, startYear, year - 1, convert);
    BirthdaysValid(ev, startYear, year, convert);
    var done := BirthdayOccurrences(ev, startYear, year - 1, convert);
    if BirthdayDate(ev, year, convert).Some? {
      VEventsLinesSnoc(tz, done, BirthdayParams(ev, year, BirthdayDate(ev, year, convert).value), now);
    } else {
      assert BirthdayOccurrences(ev, startYear, year, convert) == done + [];
      assert done + [] == done;
    }
  }

  lemma CalendarLinesParts(cal: Calendar, range: YearRange, now: DateTime, convert: LunarConverter)
    requires ValidCalendar(cal)
    ensures AllValid(Occurrences(cal.events, StartYear(range, now), EndYear(range, now), convert))
    ensures CalendarLines(cal, range, now, convert)
            == HeaderLines(cal) + TimezoneLines(cal.timezone)
               + VEventsLines(cal.timezone, Occurrences(cal.events, StartYear(range, now), EndYear(range, now), convert), now)
               + ["END:VCALENDAR"]
  {
    OccurrencesValid(cal.events, StartYear(range, now), EndYear(range, now), convert);
  }
}
