/** The integer calendar arithmetic of the reminder scheduler
    (services/NotificationWorker.js, services/Reminder.js and
    controllers/activityLogController.js): the current reporting week, the
    most-recent-Monday deadline and the delay until next Monday 09:00.

    "Now" is passed in as a `Clock`: epoch milliseconds, the milliseconds since
    local 1 January 00:00 of the current year, the local weekday as `getDay()`
    numbers it (0 = Sunday) and the milliseconds since local midnight. */
module Calendar {

  const HOUR_MS: nat := 60 * 60 * 1000
  const DAY_MS: nat := 24 * HOUR_MS
  const WEEK_MS: nat := 7 * DAY_MS

  /** `Date.getDay()`: 0 = Sunday, 1 = Monday, ..., 6 = Saturday. */
  type Weekday = d: int | 0 <= d < 7
  const SUNDAY: Weekday := 0
  const MONDAY: Weekday := 1
  const WEDNESDAY: Weekday := 3

  /** Milliseconds since local midnight. */
  type DayMs = m: int | 0 <= m < 86400000

  datatype Clock = Clock(now: int, sinceJan1: nat, weekday: Weekday, msOfDay: DayMs)

  /** `Math.ceil((now - Jan 1) / (7 * 24 * 60 * 60 * 1000))` on integer milliseconds.
      The division is exact in the source too: within one year the quotient is
      below 54 and its fractional part is either 0 or at least 1/604800000, far
      above double precision at that magnitude. */
  function CurrentWeek(sinceJan1: nat): nat {
    (sinceJan1 + WEEK_MS - 1) / WEEK_MS
  }

  function WeekOf(c: Clock): nat {
    CurrentWeek(c.sinceJan1)
  }

  /** The current week is the ceiling of the elapsed weeks: the least w with ms <= w * WEEK_MS. */
  lemma CurrentWeekIsCeiling(ms: nat)
    ensures ms <= CurrentWeek(ms) * WEEK_MS
    ensures ms > 0 ==> (CurrentWeek(ms) - 1) * WEEK_MS < ms
  {
    var q := CurrentWeek(ms);
    var r := (ms + WEEK_MS - 1) % WEEK_MS;
    assert ms + WEEK_MS - 1 == q * WEEK_MS + r && 0 <= r < WEEK_MS;
    assert (q - 1) * WEEK_MS == q * WEEK_MS - WEEK_MS;
  }

  /** Week 0 exactly at local 1 January 00:00, week 1 or later afterwards. */
  lemma CurrentWeekZeroOnlyAtNewYear(ms: nat)
    ensures CurrentWeek(ms) == 0 <==> ms == 0
  {
    CurrentWeekIsCeiling(ms);
  }

  /** The current week never decreases as time advances within a year. */
  lemma CurrentWeekMonotonic(ms1: nat, ms2: nat)
    requires ms1 <= ms2
    ensures CurrentWeek(ms1) <= CurrentWeek(ms2)
  {
    CurrentWeekIsCeiling(ms1);
    CurrentWeekIsCeiling(ms2);
  }

  /** One second into the year is week 1; exactly seven days in is still week 1
      (the quotient is exactly 1.0); one millisecond later is week 2. */
  lemma CurrentWeekExamples()
    ensures CurrentWeek(1000) == 1
    ensures CurrentWeek(7 * DAY_MS) == 1
    ensures CurrentWeek(7 * DAY_MS + 1) == 2
  {
  }

  /** The weekday `k` days before weekday `d`. */
  function DaysBefore(d: Weekday, k: nat): Weekday {
    (d - k) % 7
  }

  /** The weekday `k` days after weekday `d`. */
  function DaysAfter(d: Weekday, k: nat): Weekday {
    (d + k) % 7
  }

  /** `(getDay() + 6) % 7`: how many days back the most recent Monday is. */
  function DeadlineOffset(d: Weekday): (off: nat)
    ensures off < 7
    ensures DaysBefore(d, off) == MONDAY
    ensures off == 0 <==> d == MONDAY
    ensures forall k :: 0 <= k < off ==> DaysBefore(d, k) != MONDAY
  {
    (d + 6) % 7
  }

  /** The deadline instant: today's date moved back to the most recent Monday.
      `setDate` keeps the time of day, so the deadline is `off` whole days before now. */
  function DeadlineMs(c: Clock): int {
    c.now - DeadlineOffset(c.weekday) * DAY_MS
  }

  /** `(8 - getDay()) % 7`: how many days ahead the next Monday is (0 on a Monday). */
  function NextMondayOffset(d: Weekday): (off: nat)
    ensures off < 7
    ensures DaysAfter(d, off) == MONDAY
    ensures off == 0 <==> d == MONDAY
    ensures forall k :: 0 <= k < off ==> DaysAfter(d, k) != MONDAY
  {
    (8 - d) % 7
  }

  /** `monday.getTime() - now.getTime()` where `monday` is today moved forward by
      `NextMondayOffset` days with the time set to 09:00:00.000. */
  function WeeklyDelay(c: Clock): int {
    NextMondayOffset(c.weekday) * DAY_MS + 9 * HOUR_MS - c.msOfDay
  }

  /** The weekly timer is aimed at 09:00 of a Monday, within the coming week, and
      the delay is negative or zero exactly on a Monday at or after 09:00 (a
      `setTimeout` with such a delay fires at once rather than next Monday). */
  lemma WeeklyDelayLandsOnMonday(c: Clock)
    ensures c.now + WeeklyDelay(c) == (c.now - c.msOfDay) + NextMondayOffset(c.weekday) * DAY_MS + 9 * HOUR_MS
    ensures DaysAfter(c.weekday, NextMondayOffset(c.weekday)) == MONDAY
    ensures WeeklyDelay(c) <= 6 * DAY_MS + 9 * HOUR_MS
    ensures WeeklyDelay(c) <= 0 <==> c.weekday == MONDAY && c.msOfDay >= 9 * HOUR_MS
  {
    var off := NextMondayOffset(c.weekday);
    if c.weekday != MONDAY {
      assert off >= 1;
      assert off * DAY_MS >= DAY_MS;
    }
    assert off * DAY_MS <= 6 * DAY_MS;
  }

  /** `isLogLate(week)`: `now > deadline`. The `week` argument is never read. */
  function IsLogLate(week: int, c: Clock): bool {
    c.now > DeadlineMs(c)
  }

  /** A log is "late" exactly when today is not a Monday, whatever its week. */
  lemma IsLogLateIffNotMonday(week: int, c: Clock)
    ensures IsLogLate(week, c) <==> c.weekday != MONDAY
  {
    var off := DeadlineOffset(c.weekday);
    assert off > 0 ==> off * DAY_MS > 0;
  }

  /** On a Wednesday the deadline is the Monday of the same week, two days back. */
  lemma DeadlineOnWednesday(c: Clock)
    requires c.weekday == WEDNESDAY
    ensures DeadlineMs(c) == c.now - 2 * DAY_MS
  {
  }
}
