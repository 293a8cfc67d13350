# ICS calendar generator: a Dafny model

This project models the core of a small web application that turns a calendar
of birthdays and ordinary events into an iCalendar (`.ics`) document. It covers
two parts of that application.

- The generator class `ICSGenerator` (`src/utils/icsGenerator.ts`). It does the following:
  - writes the `VCALENDAR` header;
  - writes a fixed `VTIMEZONE` block for Asia/Shanghai;
  - expands every birthday into one all-day `VEVENT` per year of a window around the current year, on solar or lunar dates;
  - writes every regular event as one `VEVENT`, with an optional `RRULE`;
  - adds one `VALARM` per reminder.

  The lines are joined with CRLF, and no CRLF follows the last line.
- The pure helpers of `src/utils/helpers.ts`:
  - the reminder shorthand parser (`1w`, `3d`, `2h`, `30m`, bare minutes) and its display form;
  - the date and time values of `<input>` fields;
  - the e-mail shape check;
  - the zodiac and lunar month/day names.

## Layout

| module | content |
|---|---|
| `Wrappers` | `Option` |
| `Text` | Number rendering, two-digit padding, `split`/`join`, JavaScript whitespace trimming and ASCII lowercasing, with their round trips. |
| `Dates` | Calendar dates, leap years, `formatDate`/`formatDateTime` with parsers that read them back, and the "next day" step of all-day end dates. |
| `Escaping` | `escapeText` as the chain of five replacements the source applies. It is proved equal to a per-character escape, which an unescape inverts. |
| `CalendarTypes` | The records of `src/types/index.ts`. |
| `Alarms` | `reminderToMinutes` and the `TRIGGER` offset of `generateVAlarm`. |
| `RRule` | `generateRRule` as a list of `NAME=value` parts joined by `;`, and what can be read back from the text. |
| `IcsSpec` | Specification functions: the exact lines each generator step emits, as functions of the calendar, the year window, the current instant and the lunar converter. |
| `IcsGenerator` | The class `ICSGenerator`. Its methods build the line list step by step, as the source does, and each is proved equal to its `IcsSpec` function. |
| `IcsProperties`, `BirthdayProperties` | What the document means: its framing, one `BEGIN:VEVENT` per occurrence, the alarm layout, birthday years and UIDs. |
| `Reminders`, `Helpers`, `EmailShape` | The helpers. |

Some blocks of the source's methods are separate methods in the model, each with its own contract. They are cited by the lines they cover:
- the header pushes of `generate`: `GenerateHeader`;
- the event loop and its body: `GenerateEvents` and `GenerateEvent`;
- the body of the year loop: `GenerateBirthdayYear`;
- the opening, dates and alarms blocks of `generateVEvent`: `GenerateVEventHead`, `GenerateDateLines` and `GenerateVAlarms`.

The current instant (`new Date()`) and the lunar calendar conversion (`LunarConverter.getBirthdayInSolarYear`) are parameters:
- `now` is one instant for the whole document;
- `converter` is a function value.

Lemmas about lunar birthdays assume only `ConverterContract`: a converted date lies in the requested year and is a real date.

In the all-day alarm trigger `daysOffset*1440 + (1440 - minutesOfDay)`, the source's comment at `src/utils/icsGenerator.ts:242` says "1 day before at 12:00" should be 720 minutes. The formula actually gives 2160 minutes: two days before, at 12:00. `Alarms.AllDayAlarmWallClock` states what the formula does for every input, and the model follows the formula.

## Model

| member | source | states |
|---|---|---|
| IcsGenerator.ICSGenerator.constructor | src/utils/icsGenerator.ts:19-22 | The generator holds the calendar and year range it was given. |
| IcsGenerator.ICSGenerator.Generate | src/utils/icsGenerator.ts:27-61 | The document is header, time zone block, every event's VEVENTs in calendar order, then `END:VCALENDAR`, joined by CRLF. The year window runs from the current year minus `past` to the current year plus `future`. |
| IcsGenerator.ICSGenerator.GenerateHeader | src/utils/icsGenerator.ts:31-39 | The header lines, in emission order, with the name and description escaped and `X-WR-CALDESC` only for a non-empty description. |
| IcsGenerator.ICSGenerator.GenerateEvents | src/utils/icsGenerator.ts:49-55 | The loop emits the VEVENTs of the events' occurrences in calendar order; every end date among them is a real date. |
| IcsGenerator.ICSGenerator.GenerateEvent | src/utils/icsGenerator.ts:50-54 | A birthday expands over the year window; any other event is exactly one VEVENT. |
| IcsGenerator.ICSGenerator.GenerateTimezone | src/utils/icsGenerator.ts:66-82 | A VTIMEZONE block (CST, +0800) for Asia/Shanghai and no lines for any other zone. |
| IcsGenerator.ICSGenerator.GenerateBirthdayEvents | src/utils/icsGenerator.ts:87-137 | One VEVENT for every year of the window that has a birthday date, in year order. |
| IcsGenerator.ICSGenerator.GenerateBirthdayYear | src/utils/icsGenerator.ts:91-133 | No lines for a year without a date. Otherwise the VEVENT of that year's occurrence: UID `<id>-<year>`, summary with optional age, and the description or `<name>的生日`. |
| IcsGenerator.ICSGenerator.GenerateRegularEvent | src/utils/icsGenerator.ts:142-157 | The event's own VEVENT, with the recurrence rendered as RRULE text when present. |
| IcsGenerator.ICSGenerator.GenerateVEvent | src/utils/icsGenerator.ts:162-220 | The VEVENT lines in emission order, from `BEGIN:VEVENT` to `END:VEVENT`. |
| IcsGenerator.ICSGenerator.GenerateVEventHead | src/utils/icsGenerator.ts:174-190 | UID, three stamps of the current instant, escaped summary, and description and location only when non-empty. |
| IcsGenerator.ICSGenerator.GenerateDateLines | src/utils/icsGenerator.ts:193-205 | All-day events get `VALUE=DATE` lines, with the end moved one day later. Timed events get `TZID=<zone>` lines. `DTEND` appears only with an end date. |
| IcsGenerator.ICSGenerator.GenerateVAlarms | src/utils/icsGenerator.ts:213-215 | One five-line VALARM per reminder, in reminder order. |
| IcsGenerator.ICSGenerator.GenerateVAlarm | src/utils/icsGenerator.ts:225-255 | A display alarm showing the escaped summary, triggered `TriggerMinutes` minutes before the event. |
| IcsGenerator.ICSGenerator.GenerateRRule | src/utils/icsGenerator.ts:260-287 | No rule without a recurrence; otherwise the `;`-joined rule text. |
| IcsSpec.OccurrencesValid | src/utils/icsGenerator.ts:49-55 | For events whose dates are real dates, every occurrence's end date, when it has one, is a real date (the all-day end step needs one). |
| IcsSpec.BirthdaysValid | src/utils/icsGenerator.ts:90-133 | Birthday occurrences carry no end date, so they meet the same condition. |
| IcsSpec.VEventsLinesAppend | src/utils/icsGenerator.ts:49-55 | Rendering two lists of occurrences gives the two renderings one after the other. |
| IcsSpec.AlarmsLinesStep | src/utils/icsGenerator.ts:213-215 | One more reminder appends exactly its alarm. |
| IcsSpec.VEventsLinesSnoc | src/utils/icsGenerator.ts:124-132 | One more occurrence appends exactly its VEVENT. |
| IcsSpec.VEventsLinesOne | src/utils/icsGenerator.ts:145-156 | A single occurrence renders as its own VEVENT. |
| IcsSpec.OccurrencesStep | src/utils/icsGenerator.ts:49-55 | One more event appends exactly that event's occurrences. |
| IcsSpec.BirthdayYearStep | src/utils/icsGenerator.ts:90-134 | One more year of the window adds that year's occurrence when it has a date and nothing otherwise. |
| IcsProperties.HeaderShape | src/utils/icsGenerator.ts:31-39 | The header: 7 lines with a description, 6 without, with fixed first and last lines, the escaped name fourth, and the raw zone before `CALSCALE`. |
| IcsProperties.CalendarFraming | src/utils/icsGenerator.ts:58-60 | The document begins with `BEGIN:VCALENDAR` and the header, ends with `END:VCALENDAR`, and has CRLF between lines and none after the last. |
| IcsProperties.AlarmsNoOpening | src/utils/icsGenerator.ts:225-255 | No alarm line opens a VEVENT. |
| IcsProperties.OpeningCount | src/utils/icsGenerator.ts:177-182 | The opening block contains `BEGIN:VEVENT` exactly once. |
| IcsProperties.DatesNoOpening | src/utils/icsGenerator.ts:193-205 | No date line opens a VEVENT. |
| IcsProperties.VEventCount | src/utils/icsGenerator.ts:162-220 | Each VEVENT block opens exactly one VEVENT. |
| IcsProperties.VEventsCount | src/utils/icsGenerator.ts:49-55 | A list of occurrences opens one VEVENT per occurrence. |
| IcsProperties.HeaderNoOpening | src/utils/icsGenerator.ts:31-42 | Neither the header nor the time zone block opens a VEVENT. |
| IcsProperties.CalendarVEventCount | src/utils/icsGenerator.ts:27-61 | The document has exactly as many `BEGIN:VEVENT` lines as its events have occurrences. |
| IcsProperties.AlarmShape | src/utils/icsGenerator.ts:228-252 | An alarm is five lines: `BEGIN:VALARM`, `ACTION:DISPLAY`, the escaped summary, `TRIGGER:-PT<n>M`, `END:VALARM`. |
| IcsProperties.FiveLineBlocks | src/utils/icsGenerator.ts:213-215 | Concatenated five-line blocks place line j of block k at position 5k+j. |
| IcsProperties.AlarmsLayout | src/utils/icsGenerator.ts:213-215 | Reminder k becomes lines 5k..5k+4: its opening, the summary and its own trigger. |
| IcsProperties.RRuleTextNonEmpty | src/utils/icsGenerator.ts:154-155 | Rule text is never empty, so `rrule \|\| undefined` keeps every rule. |
| IcsProperties.RegularVEvent | src/utils/icsGenerator.ts:142-157 | A regular event is one VEVENT under its own id with its own dates, and has an RRULE line exactly when it has a recurrence. |
| BirthdayProperties.SolarBirthdayDate | src/utils/icsGenerator.ts:108-114 | A solar birthday has a real date in every year: its own month and day, or Feb 28 for Feb 29 in a non-leap year. |
| BirthdayProperties.DatesInTheirYearHolds | src/utils/icsGenerator.ts:93-114 | Every birthday date, solar or (under the converter contract) lunar, is a real date in the year asked for. |
| BirthdayProperties.OccurrenceOrder | src/utils/icsGenerator.ts:90-134 | At most one occurrence per year of the window, each inside the window, on a real date, in strictly increasing years. |
| BirthdayProperties.OccurrenceDates | src/utils/icsGenerator.ts:90-117 | Each occurrence is dated on its year's birthday date (the converter's answer for a lunar birthday), and every year of the window with a date has an occurrence. |
| BirthdayProperties.OccurrenceYears | src/utils/icsGenerator.ts:90-134 | Over the whole window: a VEVENT exactly in the years that have a birthday date, on that date, once each, in year order. |
| BirthdayProperties.SolarOccurrences | src/utils/icsGenerator.ts:90-134 | A solar birthday occurs in every year of the window: occurrence k is in year start+k with UID `<id>-<start+k>`. |
| BirthdayProperties.UidDeterminesYear | src/utils/icsGenerator.ts:125 | Different years give different birthday UIDs. |
| BirthdayProperties.DistinctUids | src/utils/icsGenerator.ts:117-133 | No two occurrences of a birthday share a UID. |
| BirthdayProperties.BirthdaySummaryAge | src/utils/icsGenerator.ts:118-122 | The summary is `<name>生日`, followed by ` (<year - birth year>岁)` exactly when `showAge` is set. |
| BirthdayProperties.BirthdayVEvent | src/utils/icsGenerator.ts:124-132 | A birthday VEVENT is all-day on its date, with a description (its own or `<name>的生日`), no end, no location and no RRULE. |
| Alarms.ReminderToMinutes | src/utils/icsGenerator.ts:292-301 | The offset is non-negative for non-negative values, and zero exactly when the value is zero. |
| Alarms.UnitsNest | src/utils/icsGenerator.ts:293-298 | A week is 7 days, a day 24 hours, an hour 60 minutes. |
| Alarms.TriggerMinutes | src/utils/icsGenerator.ts:232-250 | Without an all-day time of day, the trigger is the plain reminder offset. |
| Alarms.AllDayAlarmWallClock | src/utils/icsGenerator.ts:239-243 | With a time of day on an all-day event, the alarm fires at that wall-clock time, `floor(offset/1440)+1` days before the event's day. |
| Alarms.TriggerExamples | src/utils/icsGenerator.ts:232-249 | "1 day before at 09:00" all-day is 2340 minutes, at 12:00 it is 2160, and timed alarms use the plain offset. |
| RRule.RRuleSplits | src/utils/icsGenerator.ts:263-286 | No part contains `;`, so splitting the rule text on `;` gives back exactly its parts. |
| RRule.PartKeys | src/utils/icsGenerator.ts:263-284 | The part names in order: `FREQ`, `INTERVAL` above 1, `COUNT` or else `UNTIL`, `BYDAY`, `BYMONTHDAY` when their lists are non-empty. |
| RRule.RRuleKeys | src/utils/icsGenerator.ts:263-286 | Read back from the text: `FREQ` first. Each other part appears if and only if its condition holds, and `COUNT` and `UNTIL` never appear together. |
| RRule.RRuleValues | src/utils/icsGenerator.ts:263-286 | The values read back: the interval and count in decimal, `UNTIL` as a formatted date-time, the day lists in order. |
| RRule.WeekdayCodesDistinct | src/utils/icsGenerator.ts:277-278 | Days 0..6 map to distinct two-letter codes. |
| RRule.RRuleExampleInterval | src/utils/icsGenerator.ts:263-270 | Weekly, interval 2, count 5 gives `FREQ=WEEKLY;INTERVAL=2;COUNT=5`. |
| RRule.RRuleExampleCount | src/utils/icsGenerator.ts:265-270 | An interval of 1 is not written. |
| Escaping.EscapeChar | src/utils/icsGenerator.ts:333-337 | Backslash, `;`, `,`, LF and CR become a backslash pair; other characters are unchanged. |
| Escaping.ReplacementsArePasses | src/utils/icsGenerator.ts:332-337 | The replacement list applies the five global replaces in source order. |
| Escaping.EscapeTextIsPerCharacter | src/utils/icsGenerator.ts:329-338 | The chain of five replaces equals escaping each character on its own. |
| Escaping.EscapeRoundTrip | src/utils/icsGenerator.ts:329-338 | Unescaping the escaped text gives the original text back. |
| Escaping.EscapeIsWellEscaped | src/utils/icsGenerator.ts:329-338 | Escaped text has every special character behind a backslash. |
| Escaping.WellEscapedHasNoBreaks | src/utils/icsGenerator.ts:336-337 | Escaped text contains no raw line breaks, so it cannot split a content line. |
| Dates.DaysInMonth | src/utils/icsGenerator.ts:343-345 | Months have 28..31 days: 29 for February exactly in leap years, 28 otherwise. |
| Dates.NextDay | src/utils/icsGenerator.ts:196-197 | The next day is a real date after the given one. |
| Dates.NextDayIsSuccessor | src/utils/icsGenerator.ts:196-197 | No real date lies strictly between a date and its next day. |
| Dates.DayExistsInEveryYear | src/utils/icsGenerator.ts:109-114 | A month and day exists in every year except Feb 29 outside leap years. |
| Dates.FormatDateRoundTrip | src/utils/icsGenerator.ts:306-311 | A four-digit-year date formats to 8 characters that read back as the same date. |
| Dates.FormatDateTimeRoundTrip | src/utils/icsGenerator.ts:316-324 | A date-time formats to 16 characters, `YYYYMMDDTHHMMSSZ`, that read back as the same instant. |
| Text.NatToStringRoundTrip | src/utils/icsGenerator.ts:307-310 | Decimal rendering reads back as the number. |
| Text.IntToStringInjective | src/utils/icsGenerator.ts:125 | Different numbers render differently. |
| Text.Pad2RoundTrip | src/utils/icsGenerator.ts:308-309 | `padStart(2, '0')` of 0..99 is two digits that read back as the number. |
| Text.SplitJoin | src/utils/icsGenerator.ts:286 | Joining parts that contain no separator, then splitting, gives the parts back. |
| Text.LowerAscii | src/utils/helpers.ts:21 | Lowercasing keeps the length and lowercases each character. |
| Reminders.ParseReminderString | src/utils/helpers.ts:18-53 | Any reminder read is non-negative and has no time of day. |
| Reminders.ParseShorthand | src/utils/helpers.ts:24-52 | The same for the shorthand of trimmed, lowercased text. |
| Reminders.WithUnit | src/utils/helpers.ts:34-50 | The same for the `^(\d+)([wdhm])$` match. |
| Reminders.ParseBlank | src/utils/helpers.ts:18-22 | Empty and whitespace-only input gives no reminder. |
| Reminders.ParseDigits | src/utils/helpers.ts:29-31 | A bare run of digits is that many minutes. |
| Reminders.ParseWithUnit | src/utils/helpers.ts:34-50 | Digits followed by w, d, h or m are that many weeks, days, hours or minutes. |
| Reminders.ParseReminderRoundTrip | src/utils/helpers.ts:18-53 | Writing any reminder in shorthand and parsing it gives the reminder back. |
| Reminders.ParseReminderSound | src/utils/helpers.ts:18-53 | Every accepted input trims and lowercases to either a digit run (minutes) or a digit run followed by a unit letter. |
| Reminders.ParseUnitExamples | src/tests/helpers.test.ts:17-20 | `1w`, `3d`, `2h` and `30m` parse to 1 week, 3 days, 2 hours and 30 minutes. |
| Reminders.ParseMinuteExamples | src/tests/helpers.test.ts:21-30 | `0`, `60` and `10` parse to that many minutes. |
| Reminders.ParseRejectedExample | src/tests/helpers.test.ts:23-29 | `""`, `"  "`, `1x`, `abc` and `invalid` are rejected. |
| Reminders.FormatReminderZero | src/utils/helpers.ts:58-59 | "事件发生时" is shown exactly for a zero reminder. |
| Reminders.FormatReminderInjective | src/utils/helpers.ts:58-69 | The display form determines the value, and the unit whenever the value is not zero. |
| Reminders.FormatReminderExamples | src/tests/helpers.test.ts:33-39 | The five display strings of the helper tests. |
| Helpers.DateInputRoundTrip | src/utils/helpers.ts:89-94 | A four-digit-year date's input value is `YYYY-MM-DD` and reads back as the same date. |
| Helpers.TimeInputRoundTrip | src/utils/helpers.ts:99-103 | A time's input value is `HH:MM` and reads back as the same hour and minute. |
| Helpers.DateInputExample | src/tests/helpers.test.ts:70-72 | 15 March 2024 gives `2024-03-15`. |
| Helpers.DateInputPaddedExample | src/tests/helpers.test.ts:74-75 | 1 December 2023 gives `2023-12-01`. |
| Helpers.TimeInputExamples | src/tests/helpers.test.ts:78-84 | 14:30 and 09:05 are zero-padded. |
| Helpers.JsRem | src/utils/helpers.ts:154 | JavaScript `%`: the remainder is below the divisor in size and takes the dividend's sign. |
| Helpers.ChineseZodiac | src/utils/helpers.ts:152-155 | From year 4 on, the sign is table entry `(year - 4) mod 12`. |
| Helpers.ZodiacPeriod | src/utils/helpers.ts:152-155 | The zodiac repeats every 12 years. |
| Helpers.ZodiacBeforeYearFour | src/utils/helpers.ts:152-155 | Before year 4, only years `12k + 4` have a sign; the rest index outside the table. |
| Helpers.ZodiacExamples | src/tests/helpers.test.ts:125-130 | 2024 龙, 2023 兔, 2022 虎, 1990 马. |
| Helpers.LunarMonthName | src/utils/helpers.ts:160-163 | A name is non-empty exactly for months 1..12. |
| Helpers.LunarMonthNamesDistinct | src/utils/helpers.ts:161 | The twelve month names differ. |
| Helpers.LunarMonthExamples | src/tests/helpers.test.ts:132-138 | 1 正, 8 八, 12 腊; 13 and 0 give "". |
| Helpers.LunarDayRoundTrip | src/utils/helpers.ts:168-181 | Every day 1..30 reads back from its name. |
| Helpers.LunarDayNamesDistinct | src/utils/helpers.ts:168-181 | Different days 1..30 have different names. |
| Helpers.LunarDayExamples | src/tests/helpers.test.ts:140-146 | 1 初一, 10 初十, 15 十五, 25 廿五, 30 三十. Day 20 gives 廿. |
| EmailShape.EmailPattern | src/utils/helpers.ts:144-147 | The positional check accepts exactly the strings of `^[^\s@]+@[^\s@]+\.[^\s@]+$`. |
| EmailShape.EmailPatternComplete | src/utils/helpers.ts:145 | Every accepted string belongs to the pattern. |
| EmailShape.EmailPatternSound | src/utils/helpers.ts:145 | Every string of the pattern is accepted. |
| EmailShape.ValidFromParts | src/utils/helpers.ts:145 | Three non-empty address parts around `@` and `.` make a valid address. |
| EmailShape.ValidEmailAccepted | src/tests/helpers.test.ts:117 | `test@example.com` is accepted. |
| EmailShape.InvalidEmailExample | src/tests/helpers.test.ts:119-122 | `invalid-email`, `@domain.com`, `user@` and `""` are rejected. |

## Left out

- The lunar calendar conversion (`LunarConverter.getBirthdayInSolarYear`) is not part of this model. It is a function parameter, and only `ConverterContract` is assumed of it.
- Clock: `new Date()` is the parameter `now`. The source reads the clock once for the year window and once per VEVENT; the model uses one instant throughout.
- JavaScript `Date` semantics beyond whole calendar dates are not modelled: time zones and local time, years 0..99 mapping to 1900s, rollover of out-of-range fields. `formatDateTime` writes the fields as given, followed by `Z`.
- The `time: "HH:MM"` string of a reminder is a pair of numbers. Its `split(':')`/`parseInt` and `NaN` cases are not modelled.
- Numbers are integers. Fractional values, `NaN` and `parseInt`'s loss of precision on very long digit runs are not modelled.
- `toLowerCase` is ASCII-only. No non-ASCII character lowercases to a digit or a unit letter, so accepted reminders are unaffected.
- The unused `recurring` argument of `generateVEvent` is dropped.
- `generateId`, `downloadFile`, `parseDateTimeInput` and `getTimezones` are outside the modelled core, as are analytics and the UI components.
- EmailShape.ValidEmailAccepted: the second accepted test address, `user.name@domain.co.uk`, is not stated as a lemma. The general `EmailShape.ValidFromParts` covers it.
- Helpers.ChineseZodiac: for years before 4 that are not `12k + 4`, the source returns `undefined`. The model gives `None`.
- Helpers.LunarDayRoundTrip: days outside 1..30 are not covered. The source builds strings such as `初undefined` for them, and the model reproduces those strings without stating anything about them.
- Reminders.FormatReminderInjective: the unit of a zero reminder is not recoverable, because the source shows "事件发生时" for every unit.
- Reminders.ParseWithUnit: stated for lowercase unit letters. Uppercase letters are lowercased first; `ParseReminderSound` covers them.
