/** The window arithmetic of the daily scheduler (main.py): when to force
    the credential refresh, and which part of today's 09:20-15:00 trading
    session is still ahead. Sleeping and the surrounding endless loop are
    not part of this model; each function takes the clock reading the
    scheduler would have made. */
module Scheduler {
  import opened Util
  import opened TimeUtils

  /** Length of the "refresh now" window that starts at 08:30. */
  const RefreshWindow: int := 3600

  /** `refresh_at`: at once when the clock is in [08:30, 09:30) today,
      otherwise the next 08:30 after the clock. */
  function RefreshAt(now: int): (r: int)
    ensures now <= r <= now + SecondsPerDay
    ensures r != now ==> SecondOfDay(r) == Slot(8, 30)
  {
    var today0830 := AtTime(now, 8, 30);
    assert today0830 == Day(now) * SecondsPerDay + Slot(8, 30);
    assert now == Day(now) * SecondsPerDay + SecondOfDay(now);
    if today0830 <= now < today0830 + RefreshWindow then now
    else NextKstDateTime(8, 30, Some(now), now)
  }

  /** The scheduler sleeps before refreshing only when the refresh time is
      still ahead, which is exactly when the clock is outside [08:30, 09:30). */
  predicate SleepsBeforeRefresh(now: int): (b: bool)
    ensures b <==> !(Slot(8, 30) <= SecondOfDay(now) < Slot(9, 30))
  {
    RefreshAtSpec(now);
    RefreshAt(now) > now
  }

  datatype Window = Skip | Run(start: int, end: int)

  /** `session_start` / `session_end` for the clock reading `now` taken
      after the refresh: start at 09:20 today or at once if that has
      passed, end at 15:00 today, and skip the day when nothing is left. */
  function SessionWindow(now: int): (w: Window)
    ensures w.Run? ==> now <= w.start < w.end && Day(w.start) == Day(now) == Day(w.end)
    ensures w.Run? ==> SecondOfDay(w.end) == Slot(15, 0)
  {
    assert now == Day(now) * SecondsPerDay + SecondOfDay(now);
    assert AtTime(now, 9, 20) == Day(now) * SecondsPerDay + Slot(9, 20);
    assert AtTime(now, 15, 0) == Day(now) * SecondsPerDay + Slot(15, 0);
    var start0 := AtTime(now, 9, 20);
    var start := if start0 < now then now else start0;
    var end := AtTime(now, 15, 0);
    if end <= start then Skip else Run(start, end)
  }

  /** The refresh happens at once inside [08:30, 09:30); otherwise it is
      the earliest 08:30 strictly after the clock. Either way it is never in
      the past and at most a day ahead. */
  lemma RefreshAtSpec(now: int)
    ensures var r := RefreshAt(now);
      && now <= r <= now + SecondsPerDay
      && (r == now <==> Slot(8, 30) <= SecondOfDay(now) < Slot(9, 30))
      && (r != now ==> SecondOfDay(r) == Slot(8, 30))
  {
    var r := RefreshAt(now);
    var today0830 := AtTime(now, 8, 30);
    assert today0830 == Day(now) * SecondsPerDay + Slot(8, 30);
    assert now == Day(now) * SecondsPerDay + SecondOfDay(now);
  }

  /** Outside the window, no 08:30 strictly between the clock and the
      chosen refresh time is skipped. */
  lemma {:induction false} RefreshAtEarliest(now: int, s: int)
    requires RefreshAt(now) != now
    requires now < s && SecondOfDay(s) == Slot(8, 30)
    ensures RefreshAt(now) <= s
  {
    RefreshAtSpec(now);
    NextKstDateTimeIsEarliest(8, 30, Some(now), now, s);
  }

  /** A session runs exactly when 15:00 has not yet been reached today;
      it then starts at max(09:20, now) and ends at 15:00 the same day, so
      `now <= start < end` whenever the trading session is entered. */
  lemma SessionWindowSpec(now: int)
    ensures SessionWindow(now).Run? <==> SecondOfDay(now) < Slot(15, 0)
    ensures SessionWindow(now).Run? ==>
      var w := SessionWindow(now);
      && now <= w.start < w.end
      && w.start == (if SecondOfDay(now) <= Slot(9, 20) then AtTime(now, 9, 20) else now)
      && w.end == AtTime(now, 15, 0)
      && Day(w.start) == Day(now) == Day(w.end)
  {
    assert now == Day(now) * SecondsPerDay + SecondOfDay(now);
    assert AtTime(now, 9, 20) == Day(now) * SecondsPerDay + Slot(9, 20);
    assert AtTime(now, 15, 0) == Day(now) * SecondsPerDay + Slot(15, 0);
  }

  /** Before 09:20 the session waits for 09:20; from then until 15:00 it
      starts at once. */
  lemma SessionStartExamples()
    ensures SessionWindow(20740 * SecondsPerDay + Slot(8, 31)) ==
      Run(20740 * SecondsPerDay + Slot(9, 20), 20740 * SecondsPerDay + Slot(15, 0))
    ensures SessionWindow(20740 * SecondsPerDay + Slot(10, 0)) ==
      Run(20740 * SecondsPerDay + Slot(10, 0), 20740 * SecondsPerDay + Slot(15, 0))
    ensures SessionWindow(20740 * SecondsPerDay + Slot(15, 0)) == Skip
  {
  }
}
