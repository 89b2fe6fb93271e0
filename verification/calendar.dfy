/**
 * Calendar arithmetic of Python's `datetime` as the report scheduler uses it:
 * proleptic Gregorian dates numbered by their ordinal (0001-01-01 is day 1, a
 * Monday), and instants counted in whole seconds from the start of day 0, so
 * that an instant's day number is its ordinal.
 */
module Calendar {
  const SecondsPerDay: int := 86400
  const SecondsPerHour: int := 3600

  predicate IsLeap(year: int) {
    year % 4 == 0 && (year % 100 != 0 || year % 400 == 0)
  }

  function DaysInMonth(year: int, month: int): (n: int)
    requires 1 <= month <= 12
    ensures 28 <= n <= 31
    ensures month == 2 ==> (n == 29 <==> IsLeap(year))
  {
    if month == 2 then (if IsLeap(year) then 29 else 28)
    else if month == 4 || month == 6 || month == 9 || month == 11 then 30
    else 31
  }

  /** Days of the year before the first of `month`. */
  function DaysBeforeMonth(year: int, month: int): (n: int)
    requires 1 <= month <= 12
    ensures n >= 28 * (month - 1)
  {
    if month == 1 then 0 else DaysBeforeMonth(year, month - 1) + DaysInMonth(year, month - 1)
  }

  /** Days before January 1st of `year`, counting from 0001-01-01. */
  function DaysBeforeYear(year: int): int {
    var y := year - 1;
    365 * y + y / 4 - y / 100 + y / 400
  }

  /** A `datetime` without sub-second part. */
  datatype DateTime = DateTime(year: int, month: int, day: int, hour: int, minute: int, second: int)

  predicate ValidDate(year: int, month: int, day: int) {
    1 <= month <= 12 && 1 <= day <= DaysInMonth(year, month)
  }

  predicate Valid(dt: DateTime) {
    ValidDate(dt.year, dt.month, dt.day) && 0 <= dt.hour < 24 && 0 <= dt.minute < 60 && 0 <= dt.second < 60
  }

  /** `date.toordinal()`. */
  function Ordinal(year: int, month: int, day: int): int
    requires 1 <= month <= 12
  {
    DaysBeforeYear(year) + DaysBeforeMonth(year, month) + day
  }

  function SecondOfDay(hour: int, minute: int, second: int): (s: int)
    requires 0 <= hour < 24 && 0 <= minute < 60 && 0 <= second < 60
    ensures 0 <= s < SecondsPerDay
  {
    hour * SecondsPerHour + minute * 60 + second
  }

  /** The instant of a date-time. */
  function Instant(dt: DateTime): (t: int)
    requires Valid(dt)
    ensures DayOf(t) == Ordinal(dt.year, dt.month, dt.day)
    ensures TimeOfDay(t) == SecondOfDay(dt.hour, dt.minute, dt.second)
  {
    Ordinal(dt.year, dt.month, dt.day) * SecondsPerDay + SecondOfDay(dt.hour, dt.minute, dt.second)
  }

  /** The day number (ordinal) an instant falls on. */
  function DayOf(t: int): int {
    t / SecondsPerDay
  }

  /** Seconds since the last midnight. */
  function TimeOfDay(t: int): (s: int)
    ensures 0 <= s < SecondsPerDay
  {
    t % SecondsPerDay
  }

  /** `replace(hour=0, minute=0, second=0, microsecond=0)`. */
  function Midnight(t: int): (m: int)
    ensures m <= t < m + SecondsPerDay
    ensures TimeOfDay(m) == 0 && DayOf(m) == DayOf(t)
  {
    DayOf(t) * SecondsPerDay
  }

  /** `weekday()`: 0 for Monday through 6 for Sunday. */
  function Weekday(t: int): (w: int)
    ensures 0 <= w < 7
  {
    (DayOf(t) + 6) % 7
  }

  /** The first of a month follows the last day of the month before. */
  lemma NextMonthOrdinal(year: int, month: int)
    requires 1 <= month < 12
    ensures Ordinal(year, month + 1, 1) == Ordinal(year, month, 1) + DaysInMonth(year, month)
  {
  }

  lemma DaysBeforeDecember(year: int)
    ensures DaysBeforeMonth(year, 12) == if IsLeap(year) then 335 else 334
  {
    var leap := if IsLeap(year) then 1 else 0;
    assert DaysBeforeMonth(year, 2) == 31;
    assert DaysBeforeMonth(year, 3) == 59 + leap;
    assert DaysBeforeMonth(year, 4) == 90 + leap;
    assert DaysBeforeMonth(year, 5) == 120 + leap;
    assert DaysBeforeMonth(year, 6) == 151 + leap;
    assert DaysBeforeMonth(year, 7) == 181 + leap;
    assert DaysBeforeMonth(year, 8) == 212 + leap;
    assert DaysBeforeMonth(year, 9) == 243 + leap;
    assert DaysBeforeMonth(year, 10) == 273 + leap;
    assert DaysBeforeMonth(year, 11) == 304 + leap;
  }

  lemma QuarterStep(y: int)
    ensures (y + 1) / 4 - y / 4 == if (y + 1) % 4 == 0 then 1 else 0
  {
  }

  lemma CenturyStep(y: int)
    ensures (y + 1) / 100 - y / 100 == if (y + 1) % 100 == 0 then 1 else 0
  {
  }

  lemma QuadCenturyStep(y: int)
    ensures (y + 1) / 400 - y / 400 == if (y + 1) % 400 == 0 then 1 else 0
  {
  }

  /** A year has 365 days, or 366 when it is a leap year. */
  lemma YearLength(year: int)
    ensures DaysBeforeYear(year + 1) - DaysBeforeYear(year) == if IsLeap(year) then 366 else 365
  {
    QuarterStep(year - 1);
    CenturyStep(year - 1);
    QuadCenturyStep(year - 1);
    assert year % 400 == 0 ==> year % 100 == 0 && year % 4 == 0;
    assert year % 100 == 0 ==> year % 4 == 0;
  }

  /** January 1st follows December 31st. */
  lemma NewYearOrdinal(year: int)
    ensures Ordinal(year + 1, 1, 1) == Ordinal(year, 12, 1) + 31
  {
    DaysBeforeDecember(year);
    YearLength(year);
  }

  /** Ordinals of valid dates are strictly ordered by (month, day) within a year. */
  lemma OrdinalWithinMonth(year: int, month: int, day: int)
    requires ValidDate(year, month, day)
    ensures Ordinal(year, month, 1) <= Ordinal(year, month, day) < Ordinal(year, month, 1) + DaysInMonth(year, month)
  {
  }
}
