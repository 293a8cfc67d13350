/**
 * The alarm offset of a reminder (`reminderToMinutes` and the trigger arithmetic
 * of `generateVAlarm`), in the sense of the VALARM TRIGGER property of RFC 5545
 * section 3.8.6.3: the alarm fires that many minutes before the event starts.
 */
module Alarms {
  import opened Wrappers
  import opened CalendarTypes

  const MinutesPerDay: int := 24 * 60

  function UnitMinutes(u: Unit): int {
    match u
    case Weeks => 7 * 24 * 60
    case Days => 24 * 60
    case Hours => 60
    case Minutes => 1
  }

  /** `reminderToMinutes`: the reminder's offset converted to minutes. */
  function ReminderToMinutes(r: Reminder): (m: int)
    ensures r.value >= 0 ==> m >= 0
    ensures m == 0 <==> r.value == 0
  {
    r.value * UnitMinutes(r.unit)
  }

  /**
   * The `n` of `TRIGGER:-PT<n>M`. For an all-day event whose reminder names a time
   * of day, the whole days of the offset are kept and the time of day is counted
   * back from the end of the day before them; otherwise it is the plain offset.
   * JavaScript's `Math.floor(x / 1440)` is Dafny's `/`, which rounds down for a
   * positive divisor.
   */
  function TriggerMinutes(r: Reminder, allDay: bool): (m: int)
    ensures !(allDay && r.time.Some?) ==> m == ReminderToMinutes(r)
  {
    if allDay && r.time.Some? then
      var totalMinutesFromMidnight := r.time.value.hours * 60 + r.time.value.minutes;
      var daysOffset := ReminderToMinutes(r) / (24 * 60);
      daysOffset * 24 * 60 + (24 * 60 - totalMinutesFromMidnight)
    else ReminderToMinutes(r)
  }

  // ---------------------------------------------------------------------------
  // Lemmas

  /** The unit multipliers nest: a week is 7 days, a day 24 hours, an hour 60 minutes. */
  lemma UnitsNest(v: int, t: Option<TimeOfDay>)
    ensures ReminderToMinutes(Reminder(v, Weeks, t)) == ReminderToMinutes(Reminder(7 * v, Days, t))
    ensures ReminderToMinutes(Reminder(v, Days, t)) == ReminderToMinutes(Reminder(24 * v, Hours, t))
    ensures ReminderToMinutes(Reminder(v, Hours, t)) == ReminderToMinutes(Reminder(60 * v, Minutes, t))
    ensures ReminderToMinutes(Reminder(v, Minutes, t)) == v
  {
  }

  /**
   * Where an all-day alarm with a time of day fires, measured from the midnight
   * that starts the event's day: at wall-clock `hours:minutes`, on the day
   * `floor(offset / 1440) + 1` days before the event's day. (A "1 day before at
   * 12:00" reminder therefore fires two days before at 12:00, 2160 minutes ahead,
   * not the 720 minutes the source's comment at that line suggests.)
   */
  lemma AllDayAlarmWallClock(r: Reminder)
    requires r.time.Some?
    requires 0 <= r.time.value.hours * 60 + r.time.value.minutes < MinutesPerDay
    ensures var moment := -TriggerMinutes(r, true);
            var tod := r.time.value.hours * 60 + r.time.value.minutes;
            && moment % MinutesPerDay == tod
            && moment / MinutesPerDay == -(ReminderToMinutes(r) / MinutesPerDay) - 1
  {
    var tod := r.time.value.hours * 60 + r.time.value.minutes;
    var d := ReminderToMinutes(r) / MinutesPerDay;
    var moment := -TriggerMinutes(r, true);
    assert moment == (-d - 1) * MinutesPerDay + tod;
  }

  /** Worked examples: "1 day before" at 09:00 and at 12:00 on an all-day event, "at event time", and a timed event. */
  lemma TriggerExamples()
    ensures TriggerMinutes(Reminder(1, Days, Some(TimeOfDay(9, 0))), true) == 2340
    ensures TriggerMinutes(Reminder(1, Days, Some(TimeOfDay(12, 0))), true) == 2160
    ensures TriggerMinutes(Reminder(0, Minutes, None), false) == 0
    ensures TriggerMinutes(Reminder(1, Days, Some(TimeOfDay(9, 0))), false) == 1440
  {
  }
}
