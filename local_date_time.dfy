/** Local date-times as the order domain receives them from `@js-joda/core`: a count of
    seconds from 1970-01-01T00:00:00 on the proleptic Gregorian calendar, with no time
    zone. Comparing two date-times is comparing the counts. */
module LocalDateTimes {

  type Time = int

  const SecondsPerDay := 86400

  /** ISO-8601 day-of-week numbers, as `DayOfWeek.value()` gives them. */
  const Monday := 1
  const Sunday := 7

  /** The years `LocalDateTime.of` accepts in js-joda (`Year.MIN_VALUE`, `Year.MAX_VALUE`). */
  const MinYear := -999999
  const MaxYear := 999999

  /** The Gregorian leap-year rule: every fourth year, except centuries not divisible by 400. */
  predicate IsLeapYear(year: int)
  {
    year % 4 == 0 && (year % 100 != 0 || year % 400 == 0)
  }

  /** The number of days of a month in a given year. */
  function DaysInMonth(year: int, month: int): (n: int)
    requires 1 <= month <= 12
    ensures 28 <= n <= 31
    ensures n == 29 <==> month == 2 && IsLeapYear(year)
  {
    if month == 2 then (if IsLeapYear(year) then 29 else 28)
    else if month == 4 || month == 6 || month == 9 || month == 11 then 30
    else 31
  }

  /** A day that exists in the calendar. */
  predicate IsCalendarDate(year: int, month: int, day: int)
  {
    1 <= month <= 12 && 1 <= day <= DaysInMonth(year, month)
  }

  /** A date `LocalDateTime.of` accepts: a calendar day in a year of its range. */
  predicate IsValidDate(year: int, month: int, day: int)
  {
    MinYear <= year <= MaxYear && IsCalendarDate(year, month, day)
  }

  /** Days from 0000-03-01 to March 1 of year y, counted in 400-year eras of 146097 days. */
  function DaysToMarch(y: int): int
  {
    var era := y / 400;
    var yearOfEra := y - era * 400;
    era * 146097 + yearOfEra * 365 + yearOfEra / 4 - yearOfEra / 100
  }

  /** Days from 1970-01-01 to the civil date year-month-day (proleptic Gregorian), with
      the year taken to start in March so that a leap day ends it. */
  function EpochDay(year: int, month: int, day: int): int
    requires 1 <= month <= 12 && 1 <= day <= 31
  {
    var y := if month <= 2 then year - 1 else year;
    var shiftedMonth := if month > 2 then month - 3 else month + 9;
    var dayOfYear := (153 * shiftedMonth + 2) / 5 + day - 1;
    DaysToMarch(y) + dayOfYear - 719468
  }

  /** The calendar day after year-month-day. */
  function NextDate(year: int, month: int, day: int): (r: (int, int, int))
    requires IsCalendarDate(year, month, day)
    ensures IsCalendarDate(r.0, r.1, r.2)
  {
    if day < DaysInMonth(year, month) then (year, month, day + 1)
    else if month < 12 then (year, month + 1, 1)
    else (year + 1, 1, 1)
  }

  /** `LocalDateTime.of(year, month, day, hour, minute, second)`, defined on the dates and
      times it accepts: the second of day given by hour, minute and second, on the day
      `EpochDay` counts. */
  function DateTimeOf(year: int, month: int, day: int, hour: int, minute: int, second: int): (t: Time)
    requires IsValidDate(year, month, day)
    requires 0 <= hour < 24 && 0 <= minute < 60 && 0 <= second < 60
    ensures t / SecondsPerDay == EpochDay(year, month, day)
    ensures t % SecondsPerDay == hour * 3600 + minute * 60 + second
  {
    EpochDay(year, month, day) * SecondsPerDay + hour * 3600 + minute * 60 + second
  }

  /** Day 0 is 1970-01-01. */
  lemma EpochDayOrigin()
    ensures EpochDay(1970, 1, 1) == 0
  {
  }

  /** Consecutive calendar days have consecutive day numbers, across the ends of months and
      years, leap days included. */
  lemma EpochDayNextDate(year: int, month: int, day: int)
    requires IsCalendarDate(year, month, day)
    ensures var next := NextDate(year, month, day);
            EpochDay(next.0, next.1, next.2) == EpochDay(year, month, day) + 1
  {
    if day == DaysInMonth(year, month) && month == 2 {
      MarchFollowsFebruary(year);
    }
  }

  /** March 1 comes the day after the last day of February. */
  lemma MarchFollowsFebruary(year: int)
    ensures EpochDay(year, 3, 1) == EpochDay(year, 2, DaysInMonth(year, 2)) + 1
  {
    MarchToMarch(year);
  }

  /** A year from March to March has 366 days when its February has a leap day, else 365. */
  lemma MarchToMarch(year: int)
    ensures DaysToMarch(year) == DaysToMarch(year - 1) + if IsLeapYear(year) then 366 else 365
  {
    var y := year - 1;
    var q, r := y / 400, y % 400;
    DivMod400(y, q, r);
    if r < 399 {
      var k := r + 1;
      DivMod400(year, q, k);
      DivMod4(year, 100 * q + k / 4, k % 4);
      DivMod100(year, 4 * q + k / 100, k % 100);
      DivMod4(k, k / 4, k % 4);
      DivMod100(k, k / 100, k % 100);
      if k % 4 == 0 {
        DivMod4(r, k / 4 - 1, 3);
      } else {
        DivMod4(r, k / 4, k % 4 - 1);
      }
      if k % 100 == 0 {
        DivMod100(r, k / 100 - 1, 99);
      } else {
        DivMod100(r, k / 100, k % 100 - 1);
      }
    } else {
      DivMod400(year, q + 1, 0);
      DivMod4(year, 100 * q + 100, 0);
    }
  }

  /** The leap-year rule at work: 2022 and 1900 have no February 29, 2024 and 2000 do, and
      so 2022-02-30 is no date at all. */
  lemma LeapDays()
    ensures !IsCalendarDate(2022, 2, 29) && IsCalendarDate(2024, 2, 29)
    ensures !IsCalendarDate(1900, 2, 29) && IsCalendarDate(2000, 2, 29)
    ensures !IsCalendarDate(2022, 2, 30)
  {
  }

  /** The year range at its edges: the last day of year 999999 and the first of year
      -999999 are dates, the years beyond them are not. */
  lemma YearBounds()
    ensures IsValidDate(MaxYear, 12, 31) && !IsValidDate(MaxYear + 1, 1, 1)
    ensures IsValidDate(MinYear, 1, 1) && !IsValidDate(MinYear - 1, 12, 31)
  {
  }

  /** Division and remainder by 4, 100 and 400 are the quotient and remainder that
      reassemble the number. */
  lemma DivMod4(x: int, a: int, b: int)
    requires x == 4 * a + b && 0 <= b < 4
    ensures x / 4 == a && x % 4 == b
  {
  }

  lemma DivMod100(x: int, a: int, b: int)
    requires x == 100 * a + b && 0 <= b < 100
    ensures x / 100 == a && x % 100 == b
  {
  }

  lemma DivMod400(x: int, a: int, b: int)
    requires x == 400 * a + b && 0 <= b < 400
    ensures x / 400 == a && x % 400 == b
  {
  }

  /** `t.dayOfWeek().value()`: 1 for Monday up to 7 for Sunday; 1970-01-01 was a Thursday. */
  function DayOfWeek(t: Time): (d: int)
    ensures Monday <= d <= Sunday
  {
    (t / SecondsPerDay + 3) % 7 + 1
  }

  /** `t.dayOfWeek() == DayOfWeek.SUNDAY`. */
  predicate IsSunday(t: Time)
  {
    DayOfWeek(t) == Sunday
  }

  /** The week days follow one another: one day later is the next day of the week. */
  lemma DayOfWeekNextDay(t: Time)
    ensures DayOfWeek(t + SecondsPerDay) == DayOfWeek(t) % 7 + 1
  {
    assert (t + SecondsPerDay) / SecondsPerDay == t / SecondsPerDay + 1;
  }

  /** The day of the week depends on the date only, never on the time of day. */
  lemma DayOfWeekOfDate(year: int, month: int, day: int, hour: int, minute: int, second: int)
    requires IsValidDate(year, month, day)
    requires 0 <= hour < 24 && 0 <= minute < 60 && 0 <= second < 60
    ensures DayOfWeek(DateTimeOf(year, month, day, hour, minute, second))
         == DayOfWeek(DateTimeOf(year, month, day, 0, 0, 0))
  {
  }

  /** 2022-08-14, the date of the discount test, is a Sunday; the day after is a Monday. */
  lemma DiscountTestDateIsSunday()
    ensures IsSunday(DateTimeOf(2022, 8, 14, 10, 15, 0))
    ensures DayOfWeek(DateTimeOf(2022, 8, 15, 0, 0, 0)) == Monday
  {
  }
}
