/**
 * The generator object: it holds the calendar, the year window and (in place of
 * the module-level lunar converter it calls) the converter function, and builds
 * the document by pushing lines onto local arrays. Each method is proved to
 * produce exactly the lines of the corresponding IcsSpec function.
 */
module IcsGenerator {
  import opened Wrappers
  import opened Text
  import opened Dates
  import opened Escaping
  import opened CalendarTypes
  import opened Alarms
  import opened RRule
  import opened IcsSpec

  class ICSGenerator {
    const calendar: Calendar
    const yearRange: YearRange
    const converter: LunarConverter

    constructor(calendar: Calendar, yearRange: YearRange, converter: LunarConverter)
      ensures this.calendar == calendar && this.yearRange == yearRange && this.converter == converter
    {
      this.calendar := calendar;
      this.yearRange := yearRange;
      this.converter := converter;
    }

    /** `generate`, with the current instant passed in. */
    method Generate(now: DateTime) returns (text: string)
      requires ValidCalendar(calendar)
      ensures text == CalendarText(calendar, yearRange, now, converter)
    {
      var lines := GenerateHeader();
      var timezone := GenerateTimezone();
      lines := lines + timezone;

      var currentYear := now.date.year;
      var startYear := currentYear - yearRange.past;
      var endYear := currentYear + yearRange.future;

      var events := GenerateEvents(startYear, endYear, now);
      lines := lines + events;
      lines := lines + ["END:VCALENDAR"];
      CalendarLinesParts(calendar, yearRange, now, converter);
      assert startYear == StartYear(yearRange, now) && endYear == EndYear(yearRange, now);
      assert lines == CalendarLines(calendar, yearRange, now, converter);
      text := Join(lines, LineBreak);
    }

    /** The event loop of `generate`: each event's VEVENTs in calendar order. */
    method GenerateEvents(startYear: int, endYear: int, now: DateTime) returns (lines: seq<string>)
      requires ValidCalendar(calendar)
      ensures AllValid(Occurrences(calendar.events, startYear, endYear, converter))
      ensures lines == VEventsLines(calendar.timezone, Occurrences(calendar.events, startYear, endYear, converter), now)
    {
      lines := [];
      var events := calendar.events;
      var i := 0;
      assert events[..0] == [];
      while i < |events|
        invariant 0 <= i <= |events|
        invariant AllValid(Occurrences(events[..i], startYear, endYear, converter))
        invariant lines == VEventsLines(calendar.timezone, Occurrences(events[..i], startYear, endYear, converter), now)
      {
        var eventLines := GenerateEvent(events[i], startYear, endYear, now);
        OccurrencesStep(calendar.timezone, events, i, startYear, endYear, converter, now);
        lines := lines + eventLines;
        i := i + 1;
      }
      assert events[..i] == events;
    }

    /** One turn of the event loop of `generate`: a birthday expands over the year window, any other event is one VEVENT. */
    method GenerateEvent(event: Event, startYear: int, endYear: int, now: DateTime) returns (lines: seq<string>)
      requires ValidEvent(event)
      ensures AllValid(EventOccurrences(event, startYear, endYear, converter))
      ensures lines == VEventsLines(calendar.timezone, EventOccurrences(event, startYear, endYear, converter), now)
    {
      if event.Birthday? {
        lines := GenerateBirthdayEvents(event, startYear, endYear, now);
      } else {
        lines := GenerateRegularEvent(event, now);
        VEventsLinesOne(calendar.timezone, RegularParams(event), now);
      }
    }

    /** The calendar properties at the start of `generate`. */
    method GenerateHeader() returns (lines: seq<string>)
      ensures lines == HeaderLines(calendar)
    {
      lines := ["BEGIN:VCALENDAR"];
      lines := lines + ["VERSION:2.0"];
      lines := lines + [ProductId];
      lines := lines + ["X-WR-CALNAME:" + EscapeText(calendar.name)];
      if calendar.description != "" {
        lines := lines + ["X-WR-CALDESC:" + EscapeText(calendar.description)];
      }
      lines := lines + ["X-WR-TIMEZONE:" + calendar.timezone];
      lines := lines + ["CALSCALE:GREGORIAN"];
    }

    /** `generateTimezone`. */
    method GenerateTimezone() returns (lines: seq<string>)
      ensures lines == TimezoneLines(calendar.timezone)
    {
      lines := [];
      if calendar.timezone == "Asia/Shanghai" {
        lines := lines + ["BEGIN:VTIMEZONE"];
        lines := lines + ["TZID:Asia/Shanghai"];
        lines := lines + ["BEGIN:STANDARD"];
        lines := lines + ["DTSTART:19700101T000000"];
        lines := lines + ["TZOFFSETFROM:+0800"];
        lines := lines + ["TZOFFSETTO:+0800"];
        lines := lines + ["TZNAME:CST"];
        lines := lines + ["END:STANDARD"];
        lines := lines + ["END:VTIMEZONE"];
      }
    }

    /** `generateBirthdayEvents`: one VEVENT per year of the window that has a date. */
    method GenerateBirthdayEvents(event: Event, startYear: int, endYear: int, now: DateTime) returns (lines: seq<string>)
      requires event.Birthday?
      ensures AllValid(BirthdayOccurrences(event, startYear, endYear, converter))
      ensures lines == VEventsLines(calendar.timezone, BirthdayOccurrences(event, startYear, endYear, converter), now)
    {
      lines := [];
      var year := startYear;
      BirthdaysValid(event, startYear, year - 1, converter);
      while year <= endYear
        invariant startYear <= year && (year <= endYear + 1 || year == startYear)
        invariant AllValid(BirthdayOccurrences(event, startYear, year - 1, converter))
        invariant lines == VEventsLines(calendar.timezone, BirthdayOccurrences(event, startYear, year - 1, converter), now)
      {
        var vevent := GenerateBirthdayYear(event, year, now);
        BirthdayYearStep(calendar.timezone, event, startYear, year, converter, now);
        lines := lines + vevent;
        year := year + 1;
      }
    }

    /** One turn of the year loop of `generateBirthdayEvents`: the date in `year`, and its VEVENT when there is one. */
    method GenerateBirthdayYear(event: Event, year: int, now: DateTime) returns (lines: seq<string>)
      requires event.Birthday?
      ensures BirthdayDate(event, year, converter).None? ==> lines == []
      ensures BirthdayDate(event, year, converter).Some? ==>
        lines == VEventLines(calendar.timezone, BirthdayParams(event, year, BirthdayDate(event, year, converter).value), now)
    {
      lines := [];
      var eventDate: Option<Date>;
      var birthDate := event.birthDate;
      if event.calendarType == Lunar {
        eventDate := converter(birthDate.year, birthDate.month, birthDate.day, year);
      } else {
        eventDate := Some(Date(year, birthDate.month, birthDate.day));
        if birthDate.month == 2 && birthDate.day == 29 && !IsLeapYear(year) {
          eventDate := Some(Date(year, 2, 28));
        }
      }
      assert eventDate == BirthdayDate(event, year, converter);
      if eventDate.Some? {
        var age := year - birthDate.year;
        var summary := if event.showAge then event.personName + "生日 (" + IntToString(age) + "岁)"
                       else event.personName + "生日";
        var description := if event.base.description != "" then event.base.description
                           else event.personName + "的生日";
        var uid := event.base.id + "-" + IntToString(year);
        assert summary == BirthdaySummary(event, year);
        assert uid == BirthdayUid(event, year);
        var params := VEventParams(uid, summary, description, "",
                                   DateTime(eventDate.value, 0, 0, 0), None, true, event.base.reminders, None);
        assert params == BirthdayParams(event, year, eventDate.value);
        lines := GenerateVEvent(params, now);
      }
    }

    /** `generateRegularEvent`. */
    method GenerateRegularEvent(event: Event, now: DateTime) returns (lines: seq<string>)
      requires event.Regular? && ValidEvent(event)
      ensures ValidParams(RegularParams(event))
      ensures lines == VEventLines(calendar.timezone, RegularParams(event), now)
    {
      var rrule := GenerateRRule(event.recurrence);
      lines := GenerateVEvent(VEventParams(event.base.id, event.base.summary, event.base.description,
                                           event.base.location, event.startDate, event.endDate, event.allDay,
                                           event.base.reminders, rrule), now);
    }

    /** `generateVEvent`, with the current instant passed in. */
    method GenerateVEvent(params: VEventParams, now: DateTime) returns (lines: seq<string>)
      requires ValidParams(params)
      ensures lines == VEventLines(calendar.timezone, params, now)
    {
      lines := GenerateVEventHead(params, now);
      var dates := GenerateDateLines(params);
      lines := lines + dates;
      if params.rrule.Some? && params.rrule.value != "" {
        lines := lines + ["RRULE:" + params.rrule.value];
      }
      assert lines == HeadLines(params, now) + DateLines(calendar.timezone, params) + RRuleLines(params);
      var alarms := GenerateVAlarms(params.reminders, params.summary, params.allDay);
      lines := lines + alarms;
      lines := lines + ["END:VEVENT"];
    }

    /** The opening block of `generateVEvent`, up to the location. */
    method GenerateVEventHead(params: VEventParams, now: DateTime) returns (lines: seq<string>)
      ensures lines == HeadLines(params, now)
    {
      var stamp := FormatDateTime(now);
      lines := ["BEGIN:VEVENT"];
      lines := lines + ["UID:" + params.uid];
      lines := lines + ["DTSTAMP:" + stamp];
      lines := lines + ["CREATED:" + stamp];
      lines := lines + ["LAST-MODIFIED:" + stamp];
      lines := lines + ["SUMMARY:" + EscapeText(params.summary)];
      assert lines == OpeningLines(params, now);
      if params.description != "" {
        lines := lines + ["DESCRIPTION:" + EscapeText(params.description)];
      }
      assert lines == OpeningLines(params, now) + OptionalLine("DESCRIPTION:", params.description);
      if params.location != "" {
        lines := lines + ["LOCATION:" + EscapeText(params.location)];
      }
    }

    /** The date/time block of `generateVEvent`. */
    method GenerateDateLines(params: VEventParams) returns (lines: seq<string>)
      requires ValidParams(params)
      ensures lines == DateLines(calendar.timezone, params)
    {
      if params.allDay {
        lines := ["DTSTART;VALUE=DATE:" + FormatDate(params.startDate.date)];
        if params.endDate.Some? {
          var endDate := NextDay(params.endDate.value.date);
          lines := lines + ["DTEND;VALUE=DATE:" + FormatDate(endDate)];
        }
      } else {
        lines := ["DTSTART;TZID=" + calendar.timezone + ":" + FormatDateTime(params.startDate)];
        if params.endDate.Some? {
          lines := lines + ["DTEND;TZID=" + calendar.timezone + ":" + FormatDateTime(params.endDate.value)];
        }
      }
    }

    /** The reminders loop of `generateVEvent`: one alarm per reminder, in order. */
    method GenerateVAlarms(reminders: seq<Reminder>, summary: string, allDay: bool) returns (lines: seq<string>)
      ensures lines == AlarmsLines(reminders, summary, allDay)
    {
      lines := [];
      var i := 0;
      while i < |reminders|
        invariant 0 <= i <= |reminders|
        invariant lines == AlarmsLines(reminders[..i], summary, allDay)
      {
        var alarm := GenerateVAlarm(reminders[i], summary, allDay);
        AlarmsLinesStep(reminders, i, summary, allDay);
        lines := lines + alarm;
        i := i + 1;
      }
      assert reminders[..i] == reminders;
    }

    /** `generateVAlarm`, with the trigger offset computed as the source does. */
    method GenerateVAlarm(reminder: Reminder, summary: string, isAllDay: bool) returns (lines: seq<string>)
      ensures lines == AlarmLines(reminder, summary, isAllDay)
    {
      lines := ["BEGIN:VALARM"];
      lines := lines + ["ACTION:DISPLAY"];
      lines := lines + ["DESCRIPTION:" + EscapeText(summary)];
      if isAllDay && reminder.time.Some? {
        var hours, minutes := reminder.time.value.hours, reminder.time.value.minutes;
        var totalMinutesFromMidnight := hours * 60 + minutes;
        var reminderOffsetMinutes := ReminderToMinutes(reminder);
        var daysOffset := reminderOffsetMinutes / (24 * 60);
        var actualMinutesOffset := daysOffset * 24 * 60 + (24 * 60 - totalMinutesFromMidnight);
        assert actualMinutesOffset == TriggerMinutes(reminder, isAllDay);
        lines := lines + ["TRIGGER:-PT" + IntToString(actualMinutesOffset) + "M"];
      } else {
        var minutes := ReminderToMinutes(reminder);
        lines := lines + ["TRIGGER:-PT" + IntToString(minutes) + "M"];
      }
      lines := lines + ["END:VALARM"];
    }

    /** `generateRRule`: no recurrence, no rule. */
    method GenerateRRule(recurrence: Option<Recurrence>) returns (rule: Option<string>)
      ensures recurrence.None? ==> rule.None?
      ensures recurrence.Some? ==> rule == Some(RRuleText(recurrence.value))
    {
      if recurrence.None? {
        return None;
      }
      var rec := recurrence.value;
      var parts := [Part("FREQ", FrequencyName(rec.frequency))];
      if rec.interval.Some? && rec.interval.value > 1 {
        parts := parts + [Part("INTERVAL", IntToString(rec.interval.value))];
      }
      assert parts == [Part("FREQ", FrequencyName(rec.frequency))] + IntervalPart(rec);
      if rec.count.Some? && rec.count.value != 0 {
        parts := parts + [Part("COUNT", IntToString(rec.count.value))];
      } else if rec.until.Some? {
        parts := parts + [Part("UNTIL", FormatDateTime(rec.until.value))];
      }
      assert parts == [Part("FREQ", FrequencyName(rec.frequency))] + IntervalPart(rec) + EndPart(rec);
      if |rec.byWeekDay| > 0 {
        var weekDays := Join(WeekdayCodes(rec.byWeekDay), ",");
        parts := parts + [Part("BYDAY", weekDays)];
      }
      assert parts == [Part("FREQ", FrequencyName(rec.frequency))] + IntervalPart(rec) + EndPart(rec) + ByDayPart(rec);
      if |rec.byMonthDay| > 0 {
        parts := parts + [Part("BYMONTHDAY", Join(NumberStrings(rec.byMonthDay), ","))];
      }
      assert parts == RRuleParts(rec);
      rule := Some(Join(parts, ";"));
    }
  }
}
