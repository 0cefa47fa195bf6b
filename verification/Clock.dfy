/**
 The Dhaka clock of bot/quota.go and bot/admin_tasks.go. An instant is an integer count of
 nanoseconds since the Unix epoch; Dhaka is UTC+6 without daylight saving, so local time is a
 fixed shift and the local calendar date is a day number.
 */
module Clock {

  const NS: int := 1_000_000_000
  const MINUTE: int := 60 * NS
  const HOUR: int := 60 * MINUTE
  const DAY: int := 24 * HOUR
  const DHAKA_OFFSET: int := 6 * HOUR
  const QUOTA_RESET_HOUR: int := 13

  function LocalDay(t: int): int {
    (t + DHAKA_OFFSET) / DAY
  }

  function TimeOfDay(t: int): int {
    (t + DHAKA_OFFSET) % DAY
  }

  /** The instant of hh:mm Dhaka time on a local day (time.Date in dhakaZone). */
  function At(day: int, hour: int, min: int): int {
    day * DAY + hour * HOUR + min * MINUTE - DHAKA_OFFSET
  }

  /** The date of the instant shifted back 13 hours; "YYYY-MM-DD" strings name these day numbers. */
  function QuotaDay(t: int): int {
    LocalDay(t - QUOTA_RESET_HOUR * HOUR)
  }

  function InSleepWindow(t: int): bool {
    var mins := TimeOfDay(t) / MINUTE;
    2 * 60 + 30 <= mins < 6 * 60
  }

  function NextDailyAt(t: int, hour: int, min: int): int {
    var next := At(LocalDay(t), hour, min);
    if next > t then next else At(LocalDay(t) + 1, hour, min)
  }

  function NextWindowStart(t: int): int {
    NextDailyAt(t, 2, 30)
  }

  /** The next occurrence of hh:mm is the least one strictly after t, at most 24 hours away. */
  lemma NextDailyIsLeast(t: int, hour: int, min: int)
    requires 0 <= hour < 24 && 0 <= min < 60
    ensures t < NextDailyAt(t, hour, min) <= t + DAY
    ensures TimeOfDay(NextDailyAt(t, hour, min)) == hour * HOUR + min * MINUTE
    ensures forall u :: t < u && TimeOfDay(u) == hour * HOUR + min * MINUTE ==> NextDailyAt(t, hour, min) <= u
  {
    AtIsThere(LocalDay(t), hour, min);
    AtIsThere(LocalDay(t) + 1, hour, min);
    forall u | t < u && TimeOfDay(u) == hour * HOUR + min * MINUTE
      ensures NextDailyAt(t, hour, min) <= u
    {
      assert u == At(LocalDay(u), hour, min);
      DayBounds(t);
      DayBounds(u);
    }
    DayBounds(t);
  }

  lemma AtIsThere(day: int, hour: int, min: int)
    requires 0 <= hour < 24 && 0 <= min < 60
    ensures LocalDay(At(day, hour, min)) == day
    ensures TimeOfDay(At(day, hour, min)) == hour * HOUR + min * MINUTE
  {
  }

  lemma DayBounds(t: int)
    ensures LocalDay(t) * DAY <= t + DHAKA_OFFSET < (LocalDay(t) + 1) * DAY
    ensures t + DHAKA_OFFSET == LocalDay(t) * DAY + TimeOfDay(t)
  {
  }

  lemma QuotaDayFlipsAtReset(t: int)
    ensures QuotaDay(t) == if TimeOfDay(t) < QUOTA_RESET_HOUR * HOUR then LocalDay(t) - 1 else LocalDay(t)
  {
  }

  /** A sleep window is [02:30, 06:00) of one local day, and lies inside one quota-day. */
  lemma WindowHasOneQuotaDay(t: int, u: int)
    requires InSleepWindow(t) && InSleepWindow(u) && LocalDay(t) == LocalDay(u)
    ensures QuotaDay(t) == QuotaDay(u) == LocalDay(t) - 1
  {
  }

  /**
   A job submitted outside the window is released at the next window start. It runs on the
   quota-day it was charged to exactly when it was submitted outside [06:00, 13:00); submitted
   inside that stretch, it runs on the following quota-day.
   */
  lemma ReleaseDay(t: int)
    requires !InSleepWindow(t)
    ensures InSleepWindow(NextWindowStart(t))
    ensures QuotaDay(NextWindowStart(t)) ==
            if 6 * HOUR <= TimeOfDay(t) < 13 * HOUR then QuotaDay(t) + 1 else QuotaDay(t)
  {
    NextDailyIsLeast(t, 2, 30);
    AtIsThere(LocalDay(t), 2, 30);
    AtIsThere(LocalDay(t) + 1, 2, 30);
    DayBounds(t);
    QuotaDayFlipsAtReset(t);
    QuotaDayFlipsAtReset(NextWindowStart(t));
  }

  /** The reset routine wakes at the first later instant at which the quota-day changes. */
  lemma ResetIsNextDayChange(t: int)
    ensures var r := NextDailyAt(t, QUOTA_RESET_HOUR, 0);
            && QuotaDay(r) == QuotaDay(t) + 1
            && forall u :: t <= u < r ==> QuotaDay(u) == QuotaDay(t)
  {
  }
}
