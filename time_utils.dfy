/** Wall-clock arithmetic in the venue's fixed time zone (UTC+9, no daylight
    saving). An instant is a whole number of seconds since 1970-01-01
    00:00:00 local time, so a local day is exactly 86400 seconds. */
module TimeUtils {
  import opened Util

  const SecondsPerDay: int := 86400

  /** `date.weekday()` of 1970-01-01, a Thursday (Monday is 0). */
  const EpochWeekday: int := 3

  /** The local calendar day an instant falls on. */
  function Day(t: int): int {
    t / SecondsPerDay
  }

  /** Seconds elapsed since local midnight. */
  function SecondOfDay(t: int): (r: int)
    ensures 0 <= r < SecondsPerDay
    ensures t == Day(t) * SecondsPerDay + r
  {
    t % SecondsPerDay
  }

  /** `datetime.weekday()`: 0 is Monday, 6 is Sunday. */
  function Weekday(t: int): (r: int)
    ensures 0 <= r < 7
  {
    (Day(t) + EpochWeekday) % 7
  }

  predicate ValidClock(hour: int, minute: int) {
    0 <= hour < 24 && 0 <= minute < 60
  }

  function Slot(hour: int, minute: int): int {
    hour * 3600 + minute * 60
  }

  /** `t.replace(hour=hour, minute=minute, second=0, microsecond=0)`: the
      same local day, at the given wall-clock time. */
  function AtTime(t: int, hour: int, minute: int): (r: int)
    requires ValidClock(hour, minute)
    ensures Day(r) == Day(t) && SecondOfDay(r) == Slot(hour, minute)
  {
    Day(t) * SecondsPerDay + Slot(hour, minute)
  }

  /** `next_kst_datetime(hour, minute, base=base)`: today's hour:minute:00 if
      that is later than `base`, otherwise the same slot one day later.
      `base` falls back to the clock reading `now` only when it is absent. */
  function NextKstDateTime(hour: int, minute: int, base: Option<int>, now: int): (r: int)
    requires ValidClock(hour, minute)
    ensures var b := base.GetOr(now); b < r <= b + SecondsPerDay
    ensures SecondOfDay(r) == Slot(hour, minute)
  {
    var b := base.GetOr(now);
    var candidate := AtTime(b, hour, minute);
    if candidate <= b then candidate + SecondsPerDay else candidate
  }

  /** Two instants with the same time of day differ by whole days. */
  lemma SameSlotWholeDays(s: int, r: int)
    requires SecondOfDay(s) == SecondOfDay(r)
    ensures s - r == (Day(s) - Day(r)) * SecondsPerDay
  {
  }

  /** The result of `next_kst_datetime` is the EARLIEST instant strictly after
      `base` whose wall-clock time is hour:minute:00. */
  lemma {:induction false} NextKstDateTimeIsEarliest(hour: int, minute: int, base: Option<int>, now: int, s: int)
    requires ValidClock(hour, minute)
    requires base.GetOr(now) < s && SecondOfDay(s) == Slot(hour, minute)
    ensures NextKstDateTime(hour, minute, base, now) <= s
  {
    var b := base.GetOr(now);
    var r := NextKstDateTime(hour, minute, base, now);
    SameSlotWholeDays(s, r);
    assert b < r <= b + SecondsPerDay;
    // r - SecondsPerDay <= b < s and s - r is a multiple of a day, so s >= r.
    assert Day(s) - Day(r) >= 0;
  }

  /** `is_weekend`: Saturday or Sunday. */
  predicate IsWeekend(t: int) {
    Weekday(t) >= 5
  }

  /** The weekday advances by one every local midnight, so a week later the
      weekend test gives the same answer. */
  lemma WeekdayNextDay(t: int)
    ensures Weekday(t + SecondsPerDay) == (Weekday(t) + 1) % 7
  {
    assert Day(t + SecondsPerDay) == Day(t) + 1;
  }

  lemma {:induction false} WeekdayPeriodic(t: int, weeks: nat)
    ensures Weekday(t + weeks * 7 * SecondsPerDay) == Weekday(t)
    ensures IsWeekend(t + weeks * 7 * SecondsPerDay) == IsWeekend(t)
  {
    var u := t + weeks * 7 * SecondsPerDay;
    assert u == Day(t) * SecondsPerDay + weeks * 7 * SecondsPerDay + SecondOfDay(t);
    assert u == (Day(t) + weeks * 7) * SecondsPerDay + SecondOfDay(t);
    assert Day(u) == Day(t) + weeks * 7;
  }

  /** 2026-10-17 (day 20743 of the epoch) is a Saturday and 2026-10-14 (day
      20740) a Wednesday. */
  lemma WeekendExamples()
    ensures IsWeekend(20743 * SecondsPerDay + Slot(9, 20))
    ensures !IsWeekend(20740 * SecondsPerDay + Slot(9, 20))
  {
  }
}
