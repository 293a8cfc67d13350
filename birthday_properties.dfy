/**
 * What the year-by-year expansion of a birthday promises: at most one all-day
 * VEVENT per year of the window, in year order, each dated in its own year and
 * identified by "<id>-<year>", so that no two occurrences share a UID; a solar
 * birthday gets exactly one per year, on its own month and day.
 */
module BirthdayProperties {
  import opened Wrappers
  import opened Text
  import opened Dates
  import opened Escaping
  import opened CalendarTypes
  import opened IcsSpec

  /** Every date the birthday gets is a real date in the year it was asked for. */
  ghost predicate DatesInTheirYear(ev: Event, convert: LunarConverter)
    requires ev.Birthday?
  {
    forall year :: BirthdayDate(ev, year, convert).Some? ==>
      BirthdayDate(ev, year, convert).value.year == year && ValidDate(BirthdayDate(ev, year, convert).value)
  }

  /** The number of years from `startYear` to `endYear`, both included. */
  function Window(startYear: int, endYear: int): nat {
    if endYear < startYear then 0 else endYear - startYear + 1
  }

  /**
   * A solar birthday has a date every year: its own month and day when that date
   * exists in the year, and otherwise (Feb 29 outside a leap year) Feb 28.
   */
  lemma SolarBirthdayDate(ev: Event, year: int, convert: LunarConverter)
    requires ev.Birthday? && ev.calendarType == Solar && ValidDate(ev.birthDate)
    ensures BirthdayDate(ev, year, convert).Some?
    ensures var d := BirthdayDate(ev, year, convert).value;
            var b := ev.birthDate;
            && d.year == year && ValidDate(d)
            && (ValidDate(Date(year, b.month, b.day)) ==> d == Date(year, b.month, b.day))
            && (!ValidDate(Date(year, b.month, b.day)) ==> b.month == 2 && b.day == 29 && d == Date(year, 2, 28))
  {
    DayExistsInEveryYear(ev.birthDate, year);
  }

  /** Solar birthdays with a real birth date, and lunar ones under the converter's promise, are dated in their year. */
  lemma DatesInTheirYearHolds(ev: Event, convert: LunarConverter)
    requires ev.Birthday?
    requires ev.calendarType == Solar ==> ValidDate(ev.birthDate)
    requires ev.calendarType == Lunar ==> ConverterContract(convert)
    ensures DatesInTheirYear(ev, convert)
  {
    forall year | BirthdayDate(ev, year, convert).Some?
      ensures BirthdayDate(ev, year, convert).value.year == year && ValidDate(BirthdayDate(ev, year, convert).value)
    {
      if ev.calendarType == Solar {
        SolarBirthdayDate(ev, year, convert);
      }
    }
  }

  /**
   * The occurrences of a window: no more than its years, each a real date inside
   * the window rendered with that year's parameters, and the years strictly
   * increasing, so that a year is never listed twice.
   */
  lemma {:induction false} OccurrenceOrder(ev: Event, startYear: int, endYear: int, convert: LunarConverter)
    requires ev.Birthday? && DatesInTheirYear(ev, convert)
    ensures var occ := BirthdayOccurrences(ev, startYear, endYear, convert);
            && |occ| <= Window(startYear, endYear)
            && (forall k :: 0 <= k < |occ| ==>
                  && startYear <= occ[k].startDate.date.year <= endYear
                  && ValidDate(occ[k].startDate.date)
                  && occ[k] == BirthdayParams(ev, occ[k].startDate.date.year, occ[k].startDate.date))
            && (forall k, l :: 0 <= k < l < |occ| ==> occ[k].startDate.date.year < occ[l].startDate.date.year)
    decreases endYear - startYear
  {
    if endYear >= startYear {
      OccurrenceOrder(ev, startYear, endYear - 1, convert);
      var prev := BirthdayOccurrences(ev, startYear, endYear - 1, convert);
      var occ := BirthdayOccurrences(ev, startYear, endYear, convert);
      var date := BirthdayDate(ev, endYear, convert);
      if date.Some? {
        assert occ == prev + [BirthdayParams(ev, endYear, date.value)];
        assert date.value.year == endYear;
      } else {
        assert occ == prev + [];
        assert occ == prev;
      }
    }
  }

  /**
   * What the year loop promises over the whole window: at most one occurrence per
   * year, in increasing years, each a real date rendered with its year's
   * parameters and dated on that year's birthday date, and every year of the
   * window that has a date listed.
   */
  lemma OccurrenceYears(ev: Event, startYear: int, endYear: int, convert: LunarConverter)
    requires ev.Birthday? && DatesInTheirYear(ev, convert)
    ensures var occ := BirthdayOccurrences(ev, startYear, endYear, convert);
            && |occ| <= Window(startYear, endYear)
            && (forall k :: 0 <= k < |occ| ==>
                  && startYear <= occ[k].startDate.date.year <= endYear
                  && ValidDate(occ[k].startDate.date)
                  && occ[k] == BirthdayParams(ev, occ[k].startDate.date.year, occ[k].startDate.date))
            && (forall k, l :: 0 <= k < l < |occ| ==> occ[k].startDate.date.year < occ[l].startDate.date.year)
            && (forall k :: 0 <= k < |occ| ==>
                  BirthdayDate(ev, occ[k].startDate.date.year, convert) == Some(occ[k].startDate.date))
            && (forall y :: startYear <= y <= endYear && BirthdayDate(ev, y, convert).Some? ==>
                  exists k :: 0 <= k < |occ| && occ[k].startDate.date.year == y)
  {
    OccurrenceOrder(ev, startYear, endYear, convert);
    OccurrenceDates(ev, startYear, endYear, convert);
  }

  /**
   * The occurrences of a window are exactly the years that have a birthday date:
   * each occurrence is dated on its year's date, and each such year is listed.
   */
  lemma {:induction false} OccurrenceDates(ev: Event, startYear: int, endYear: int, convert: LunarConverter)
    requires ev.Birthday? && DatesInTheirYear(ev, convert)
    ensures var occ := BirthdayOccurrences(ev, startYear, endYear, convert);
            && (forall k :: 0 <= k < |occ| ==>
                  BirthdayDate(ev, occ[k].startDate.date.year, convert) == Some(occ[k].startDate.date))
            && (forall y :: startYear <= y <= endYear && BirthdayDate(ev, y, convert).Some? ==>
                  exists k :: 0 <= k < |occ| && occ[k].startDate.date.year == y)
    decreases endYear - startYear
  {
    if endYear >= startYear {
      OccurrenceDates(ev, startYear, endYear - 1, convert);
      var prev := BirthdayOccurrences(ev, startYear, endYear - 1, convert);
      var occ := BirthdayOccurrences(ev, startYear, endYear, convert);
      var date := BirthdayDate(ev, endYear, convert);
      if date.Some? {
        assert occ == prev + [BirthdayParams(ev, endYear, date.value)];
        assert date.value.year == endYear;
        assert occ[|prev|].startDate.date == date.value;
        forall y | startYear <= y <= endYear && BirthdayDate(ev, y, convert).Some?
          ensures exists k :: 0 <= k < |occ| && occ[k].startDate.date.year == y
        {
          if y == endYear {
            assert occ[|prev|].startDate.date.year == y;
          } else {
            var k :| 0 <= k < |prev| && prev[k].startDate.date.year == y;
            assert occ[k] == prev[k];
          }
        }
      } else {
        assert occ == prev + [];
        assert occ == prev;
      }
    }
  }

  /** A solar birthday occurs in every year of the window, in year order. */
  lemma {:induction false} SolarOccurrences(ev: Event, startYear: int, endYear: int, convert: LunarConverter)
    requires ev.Birthday? && ev.calendarType == Solar && ValidDate(ev.birthDate)
    ensures var occ := BirthdayOccurrences(ev, startYear, endYear, convert);
            && |occ| == Window(startYear, endYear)
            && forall k :: 0 <= k < |occ| ==>
                 occ[k].startDate.date.year == startYear + k && occ[k].uid == BirthdayUid(ev, startYear + k)
    decreases endYear - startYear
  {
    if endYear >= startYear {
      SolarOccurrences(ev, startYear, endYear - 1, convert);
      SolarBirthdayDate(ev, endYear, convert);
      var prev := BirthdayOccurrences(ev, startYear, endYear - 1, convert);
      assert BirthdayOccurrences(ev, startYear, endYear, convert)
          == prev + [BirthdayParams(ev, endYear, BirthdayDate(ev, endYear, convert).value)];
    }
  }

  /** The year can be read back from a birthday UID: different years give different UIDs. */
  lemma UidDeterminesYear(ev: Event, a: int, b: int)
    requires BirthdayUid(ev, a) == BirthdayUid(ev, b)
    ensures a == b
  {
    var prefix := ev.base.id + "-";
    assert IntToString(a) == BirthdayUid(ev, a)[|prefix|..];
    assert IntToString(b) == BirthdayUid(ev, b)[|prefix|..];
    IntToStringInjective(a, b);
  }

  /** No two occurrences of a birthday share a UID. */
  lemma DistinctUids(ev: Event, startYear: int, endYear: int, convert: LunarConverter)
    requires ev.Birthday? && DatesInTheirYear(ev, convert)
    ensures var occ := BirthdayOccurrences(ev, startYear, endYear, convert);
            forall k, l :: 0 <= k < l < |occ| ==> occ[k].uid != occ[l].uid
  {
    OccurrenceYears(ev, startYear, endYear, convert);
    var occ := BirthdayOccurrences(ev, startYear, endYear, convert);
    forall k, l | 0 <= k < l < |occ|
      ensures occ[k].uid != occ[l].uid
    {
      if occ[k].uid == occ[l].uid {
        UidDeterminesYear(ev, occ[k].startDate.date.year, occ[l].startDate.date.year);
        assert false;
      }
    }
  }

  /**
   * The age in a birthday's summary is the number of years since the birth year,
   * shown as " (<age>岁)" after "<name>生日" exactly when `showAge` is set.
   */
  lemma BirthdaySummaryAge(ev: Event, year: int)
    requires ev.Birthday?
    ensures var s := BirthdaySummary(ev, year);
            var base := ev.personName + "生日";
            && s[..|base|] == base
            && (!ev.showAge <==> s == base)
            && (ev.showAge ==> s[|base|..] == " (" + IntToString(year - ev.birthDate.year) + "岁)")
  {
  }

  /**
   * Every birthday VEVENT carries a description, the event's own or "<name>的生日",
   * and no location; it is an all-day event on its date, with no end and no RRULE.
   */
  lemma BirthdayVEvent(tz: string, ev: Event, year: int, date: Date, now: DateTime)
    requires ev.Birthday?
    ensures var p := BirthdayParams(ev, year, date);
            var desc := if ev.base.description != "" then ev.base.description else ev.personName + "的生日";
            && ValidParams(p) && p.allDay
            && HeadLines(p, now) == OpeningLines(p, now) + ["DESCRIPTION:" + EscapeText(desc)]
            && DateLines(tz, p) == ["DTSTART;VALUE=DATE:" + FormatDate(date)]
            && RRuleLines(p) == []
  {
    var p := BirthdayParams(ev, year, date);
    var desc := if ev.base.description != "" then ev.base.description else ev.personName + "的生日";
    assert desc != "";
    var head := OpeningLines(p, now) + ["DESCRIPTION:" + EscapeText(desc)];
    assert HeadLines(p, now) == head + [];
    assert head + [] == head;
    assert DateLines(tz, p) == ["DTSTART;VALUE=DATE:" + FormatDate(date)] + [];
  }
}
