/**
 * The calendar document handed to the generator: a calendar with its events,
 * which are either birthdays (expanded year by year) or regular events (one
 * VEVENT each, optionally recurring), and the reminders attached to them.
 *
 * Optional text fields (`description?`, `location?`) are plain strings here:
 * the generator only tests them for truthiness, so an absent field and the
 * empty string behave alike and both are written as "".
 */
module CalendarTypes {
  import opened Wrappers
  import opened Dates

  datatype Unit = Weeks | Days | Hours | Minutes

  /** The wall-clock time of day an all-day reminder fires at (`time: "HH:MM"`). */
  datatype TimeOfDay = TimeOfDay(hours: int, minutes: int)

  /** A reminder `value` units before the event; `time` only matters for all-day events. */
  datatype Reminder = Reminder(value: int, unit: Unit, time: Option<TimeOfDay>)

  datatype Frequency = Daily | Weekly | Monthly | Yearly

  /** Repetition of a regular event; absent `byWeekDay`/`byMonthDay` lists are empty. */
  datatype Recurrence = Recurrence(
    frequency: Frequency,
    interval: Option<int>,
    count: Option<int>,
    until: Option<DateTime>,
    byWeekDay: seq<int>,
    byMonthDay: seq<int>)

  datatype CalendarType = Solar | Lunar

  /** The fields every event carries. */
  datatype EventBase = EventBase(
    id: string,
    summary: string,
    description: string,
    location: string,
    reminders: seq<Reminder>)

  /**
   * A birthday's `birthDate` holds a solar date, or for a lunar birthday the
   * lunar month and day in its month and day fields; its year only gives the age.
   */
  datatype Event =
    | Birthday(base: EventBase, personName: string, birthDate: Date, calendarType: CalendarType, showAge: bool)
    | Regular(base: EventBase, startDate: DateTime, endDate: Option<DateTime>, allDay: bool,
              recurrence: Option<Recurrence>)

  datatype Calendar = Calendar(id: string, name: string, description: string, timezone: string, events: seq<Event>)

  /** How many years before and after the current one birthdays are expanded into. */
  datatype YearRange = YearRange(past: int, future: int)

  /**
   * `LunarConverter.getBirthdayInSolarYear(birthYear, lunarMonth, lunarDay, solarYear)`:
   * the solar date of a lunar birthday in a given solar year, or None when the
   * conversion fails. Its implementation is not part of this model.
   */
  type LunarConverter = (int, int, int, int) -> Option<Date>

  /** What the converter is known to promise: a date it returns is a real date in the requested year. */
  ghost predicate ConverterContract(convert: LunarConverter) {
    forall birthYear, month, day, year ::
      convert(birthYear, month, day, year).Some? ==>
        convert(birthYear, month, day, year).value.year == year
        && ValidDate(convert(birthYear, month, day, year).value)
  }

  /** A JavaScript `Date` always denotes a real calendar date and time. */
  predicate ValidEvent(e: Event) {
    match e
    case Birthday(_, _, birthDate, _, _) => ValidDate(birthDate)
    case Regular(_, startDate, endDate, _, recurrence) =>
      && ValidDateTime(startDate)
      && (endDate.Some? ==> ValidDateTime(endDate.value))
      && (recurrence.Some? && recurrence.value.until.Some? ==> ValidDateTime(recurrence.value.until.value))
  }

  predicate ValidCalendar(c: Calendar) {
    forall i :: 0 <= i < |c.events| ==> ValidEvent(c.events[i])
  }
}
