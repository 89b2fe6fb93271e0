/**
 * When the reports run and which period each one covers. Instants are whole
 * seconds (see module Calendar); `now` is the local clock for the shift reports
 * ("night", "day") and the UTC clock for the others, both given as parameters.
 */
module ReportSchedule {
  import opened Wrappers
  import opened Calendar

  /** The closed period `[start, end]` a report covers. */
  datatype Window = Window(start: int, end: int)

  const NightShiftStart: int := 17 * SecondsPerHour
  const NightShiftEnd: int := 4 * SecondsPerHour

  predicate ValidTime(hour: int, minute: int) {
    0 <= hour < 24 && 0 <= minute < 60
  }

  // ---------------------------------------------------------------- send_report

  /** The start of `now`'s month, `now.replace(day=1, hour=0, ...)`. */
  function MonthStart(now: DateTime): (start: int)
    requires Valid(now)
    ensures TimeOfDay(start) == 0 && DayOf(start) == Ordinal(now.year, now.month, 1)
    ensures start <= Instant(now) < start + DaysInMonth(now.year, now.month) * SecondsPerDay
  {
    OrdinalWithinMonth(now.year, now.month, now.day);
    Instant(DateTime(now.year, now.month, 1, 0, 0, 0))
  }

  /** The period `send_report` reports on for a report type. */
  function ReportWindow(reportType: string, now: DateTime): (w: Window)
    requires Valid(now)
    ensures w.start <= w.end
    ensures reportType !in {"night", "day"} ==> w.end == Instant(now)
  {
    var t := Instant(now);
    var today := Midnight(t);
    if reportType == "night" then Window(today - SecondsPerDay + NightShiftStart, today + NightShiftEnd)
    else if reportType == "day" then Window(today + NightShiftEnd, today + NightShiftStart)
    else if reportType == "weekly" then Window(t - 7 * SecondsPerDay, t)
    else if reportType == "monthly" then Window(MonthStart(now), t)
    else Window(t - SecondsPerDay, t)
  }

  /** The night report covers yesterday 17:00 to today 04:00. */
  lemma NightWindowSpansTheNight(now: DateTime)
    requires Valid(now)
    ensures var w := ReportWindow("night", now);
      && DayOf(w.start) == DayOf(Instant(now)) - 1 && TimeOfDay(w.start) == NightShiftStart
      && DayOf(w.end) == DayOf(Instant(now)) && TimeOfDay(w.end) == NightShiftEnd
  {
  }

  /** The day report covers today 04:00 to 17:00. */
  lemma DayWindowSpansTheDay(now: DateTime)
    requires Valid(now)
    ensures var w := ReportWindow("day", now);
      && DayOf(w.start) == DayOf(Instant(now)) && TimeOfDay(w.start) == NightShiftEnd
      && DayOf(w.end) == DayOf(Instant(now)) && TimeOfDay(w.end) == NightShiftStart
  {
  }

  /** Night and day shifts follow each other without gap or overlap other than their shared end points. */
  lemma ShiftsTile(now: DateTime, tomorrow: DateTime)
    requires Valid(now) && Valid(tomorrow) && DayOf(Instant(tomorrow)) == DayOf(Instant(now)) + 1
    ensures ReportWindow("night", now).end == ReportWindow("day", now).start
    ensures ReportWindow("day", now).end == ReportWindow("night", tomorrow).start
  {
  }

  /** The weekly report covers the last seven days, the monthly one the month so far, any other the last day. */
  lemma RollingWindows(now: DateTime, other: string)
    requires Valid(now) && other !in {"night", "day", "weekly", "monthly"}
    ensures ReportWindow("weekly", now).end - ReportWindow("weekly", now).start == 7 * SecondsPerDay
    ensures ReportWindow("monthly", now).start == MonthStart(now)
    ensures ReportWindow(other, now).end - ReportWindow(other, now).start == SecondsPerDay
  {
  }

  // ---------------------------------------------------------------- seconds_until, schedule_report

  /** `seconds_until`: the wait until `target`, never negative. */
  function SecondsUntil(target: int, now: int): (wait: nat)
    ensures now < target ==> now + wait == target
    ensures target <= now ==> wait == 0
  {
    if target > now then target - now else 0
  }

  /** A daily report's next run: today at the target time, or tomorrow if that has passed. */
  function DailyNextRun(t: int, hour: int, minute: int): (next: int)
    requires ValidTime(hour, minute)
    ensures t < next <= t + SecondsPerDay
    ensures TimeOfDay(next) == SecondOfDay(hour, minute, 0)
  {
    var candidate := Midnight(t) + SecondOfDay(hour, minute, 0);
    if candidate <= t then candidate + SecondsPerDay else candidate
  }

  /** The weekly report's next run: the coming Monday at the target time, a week on if that is now or past. */
  function WeeklyNextRun(t: int, hour: int, minute: int): (next: int)
    requires ValidTime(hour, minute)
    ensures t < next <= t + 7 * SecondsPerDay
    ensures Weekday(next) == 0
    ensures TimeOfDay(next) == SecondOfDay(hour, minute, 0)
  {
    var target := SecondOfDay(hour, minute, 0);
    var daysAhead := (0 - Weekday(t)) % 7;
    var days := if daysAhead == 0 && TimeOfDay(t) >= target then 7 else daysAhead;
    WeeklyStep(t, days, target);
    Midnight(t) + days * SecondsPerDay + target
  }

  lemma WeeklyStep(t: int, days: int, target: int)
    requires 0 <= days <= 7 && 0 <= target < SecondsPerDay
    ensures DayOf(Midnight(t) + days * SecondsPerDay + target) == DayOf(t) + days
    ensures TimeOfDay(Midnight(t) + days * SecondsPerDay + target) == target
  {
    var d := DayOf(t);
    assert Midnight(t) + days * SecondsPerDay + target == (d + days) * SecondsPerDay + target;
  }

  /** The monthly report's next run: the first of the next month at the target time. */
  function MonthlyNextRun(now: DateTime, hour: int, minute: int): (next: DateTime)
    requires Valid(now) && ValidTime(hour, minute)
    ensures Valid(next) && next.day == 1
    ensures DayOf(Instant(next)) == Ordinal(now.year, now.month, 1) + DaysInMonth(now.year, now.month)
    ensures TimeOfDay(Instant(next)) == SecondOfDay(hour, minute, 0)
    ensures Instant(now) < Instant(next)
  {
    FollowingMonthOrdinal(now.year, now.month);
    OrdinalWithinMonth(now.year, now.month, now.day);
    if now.month == 12 then DateTime(now.year + 1, 1, 1, hour, minute, 0)
    else DateTime(now.year, now.month + 1, 1, hour, minute, 0)
  }

  lemma FollowingMonthOrdinal(year: int, month: int)
    requires 1 <= month <= 12
    ensures month == 12 ==> Ordinal(year + 1, 1, 1) == Ordinal(year, month, 1) + DaysInMonth(year, month)
    ensures month < 12 ==> Ordinal(year, month + 1, 1) == Ordinal(year, month, 1) + DaysInMonth(year, month)
  {
    if month == 12 {
      NewYearOrdinal(year);
    } else {
      NextMonthOrdinal(year, month);
    }
  }

  /** The monthly rollover: December is followed by January of the next year. */
  lemma MonthlyRollover(now: DateTime, hour: int, minute: int)
    requires Valid(now) && ValidTime(hour, minute)
    ensures now.month == 12 ==> MonthlyNextRun(now, hour, minute).year == now.year + 1 && MonthlyNextRun(now, hour, minute).month == 1
    ensures now.month < 12 ==> MonthlyNextRun(now, hour, minute).year == now.year && MonthlyNextRun(now, hour, minute).month == now.month + 1
  {
  }

  /**
   * `schedule_report`'s next run for a report type; `None` for a type it has no
   * rule for, where the loop fails before sleeping.
   */
  function NextRun(reportType: string, now: DateTime, hour: int, minute: int): (next: Option<int>)
    requires Valid(now) && ValidTime(hour, minute)
    ensures next.Some? <==> reportType in {"night", "day", "weekly", "monthly"}
    ensures next.Some? ==> Instant(now) < next.value
  {
    var t := Instant(now);
    if reportType == "night" || reportType == "day" then Some(DailyNextRun(t, hour, minute))
    else if reportType == "weekly" then Some(WeeklyNextRun(t, hour, minute))
    else if reportType == "monthly" then Some(Instant(MonthlyNextRun(now, hour, minute)))
    else None
  }

  /** The hour and minute each of the four scheduled reports runs at. */
  function ScheduledAt(reportType: string): (at: (int, int))
    ensures ValidTime(at.0, at.1)
  {
    if reportType == "night" then (4, 0) else (17, 0)
  }

  /**
   * Fired at its next run, a shift report covers exactly the shift that has just
   * ended: the night report at 04:00 and the day report at 17:00.
   */
  lemma ShiftReportFiresAtWindowEnd(reportType: string, now: DateTime, firing: DateTime)
    requires reportType == "night" || reportType == "day"
    requires Valid(now) && Valid(firing)
    requires Instant(firing) == DailyNextRun(Instant(now), ScheduledAt(reportType).0, ScheduledAt(reportType).1)
    ensures ReportWindow(reportType, firing).end == Instant(firing)
  {
    var f := Instant(firing);
    assert f == Midnight(f) + TimeOfDay(f);
  }
}
