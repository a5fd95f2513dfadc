/**
 States in which the schedule manager (packages/core/src/schedules/schedule-manager.ts) does
 other than its documentation says.
 */
module ScheduleExamples {
  import opened WorkflowTypes
  import opened RunTables
  import opened CloseCascade
  import opened FamilyTree
  import opened RunStores
  import opened ScheduleLedger
  import opened ScheduleInstants
  import opened ScheduleTurns
  import Calendar
  import Cron

  // ---- a window that loses an instant ----------------------------------------------------------

  /** Every midnight. */
  const MIDNIGHTS: Cron.Schedule := Cron.Schedule({0}, {0}, {1, 2, 3, 4}, {1}, {0, 1, 2, 3, 4, 5, 6}, false, false)

  /** Midnights, looked at again with a window of one hour. */
  const NIGHTLY: Schedule := Schedule(MIDNIGHTS, 0, "report", Null, Skip, Active, All, Some(3600000), Some(0), None, None)

  /**
   A schedule of midnights in early January with a window of one hour, due from the first and
   looked at again at noon: the midnight to come is passed over before it is due, and the one
   after it comes next.
   */
  lemma {:induction false} AWindowLosesAnInstant()
    ensures var now, passed, next := 43200000, 86400000, 172800000;
            RowOk(NIGHTLY) && IsDue(NIGHTLY, now) && IsCaughtUp(NIGHTLY, now, passed) && now < passed && IsNextAfter(NIGHTLY, passed, next)
  {
    hide Fires, RowOk, IsNextAfter, IsCaughtUp, Cron.IsMatch;
    NightlyRow();
    NextMidnight(39599999, 1);
    NextMidnight(86400000, 2);
    CaughtUpByWindow(NIGHTLY, 43200000, 86400000);
  }

  lemma {:induction false} CaughtUpByWindow(row: Schedule, now: int, t: int)
    requires row.nextFireAt.Some? && row.catchUp.All? && row.windowMs.Some?
    requires row.nextFireAt.value < now - row.windowMs.value && IsNextAfter(row, now - row.windowMs.value - 1, t)
    ensures IsCaughtUp(row, now, t)
  {
    hide IsNextAfter;
  }

  lemma {:induction false} NightlyRow()
    ensures RowOk(NIGHTLY) && IsDue(NIGHTLY, 43200000)
  {
    hide Cron.IsParsed, Cron.IsMatch;
    Midnight(0);
    MidnightsAreParsed();
    assert Fires(NIGHTLY, 0);
    hide Fires;
  }

  lemma MidnightsAreParsed()
    ensures Cron.IsParsed(MIDNIGHTS)
  {
    assert 0 in MIDNIGHTS.hours && 0 in MIDNIGHTS.minutes;
  }

  lemma {:induction false} NextMidnight(after: int, day: nat)
    requires 0 < day < 3 && 86400000 * (day - 1) <= after < 86400000 * day
    ensures IsNextAfter(NIGHTLY, after, 86400000 * day)
  {
    Midnight(day);
    NothingBetween(day - 1);
    hide Cron.IsMatch;
  }

  lemma {:induction false} Midnight(day: nat)
    requires day < 4
    ensures Cron.IsMatch(MIDNIGHTS, 0, 86400000 * day)
  {
    hide Calendar.CivilOf, Calendar.Weekday;
    Calendar.CalendarFollowsItsRules(719528);
    Calendar.CalendarFollowsItsRules(719529);
    Calendar.CalendarFollowsItsRules(719530);
  }

  lemma {:induction false} NothingBetween(day: nat)
    ensures Cron.NoMatchBetween(MIDNIGHTS, 0, 86400000 * day, 86400000 * (day + 1))
  {
    hide Cron.Matches, Cron.IsMatch;
    forall t | 86400000 * day < t < 86400000 * (day + 1)
      ensures !Cron.IsMatch(MIDNIGHTS, 0, t)
    {
      if Cron.IsMatch(MIDNIGHTS, 0, t) {
        var d := OnlyMidnights(t);
      }
    }
  }

  lemma {:induction false} OnlyMidnights(t: int) returns (day: int)
    requires Cron.IsMatch(MIDNIGHTS, 0, t)
    ensures t == 86400000 * day
  {
    Cron.WholeMinute(t);
    Cron.PartsOfMinute(t / 60000);
    day := Cron.DayOf(t / 60000);
    hide Cron.DayMatches, Cron.DayOf, Cron.HourOf, Cron.MinuteOf;
  }

  // ---- a backfill that holds the earlier instant ---------------------------------------------------

  /** The run of schedule 0 for the first midnight. */
  function ReportRun(): Run {
    NewRun(OwnLink(0, "report", Null, None, None, Some(0), 0), 0)
  }

  const RUNS: Runs := map[0 := ReportRun()]

  /** Midnights, one held back, looked at again when the fourth comes. */
  const HOLDING: Schedule := NIGHTLY.(policy := BufferOne, catchUp := LatestOnly, windowMs := None, nextFireAt := Some(259200000),
    bufferedFor := Some(172800000))

  const HELD: Triggers := map[Key(0, 0) := StartedRun(0), Key(0, 172800000) := Buffered]

  lemma {:induction false} ReportRunIsStored()
    ensures StoreOk(RUNS) && IsOpenOf(RUNS, 0, 0) && IsFirstOf(RUNS, 0, 0)
  {
    var none: Runs := map[];
    var link := OwnLink(0, "report", Null, None, None, Some(0), 0);
    EmptyStoreIsOk(none);
    assert FirstPlace(none, 0, link);
    FirstKeepsStore(none, 0, link, 0);
    NewRunOk(link, 0);
    hide StoreOk, NewRun, FirstPlace;
    assert none[0 := NewRun(link, 0)] == RUNS;
  }

  lemma {:induction false} EmptyStoreIsOk(none: Runs)
    requires none == map[]
    ensures StoreOk(none)
  {
  }

  lemma {:induction false} RunsAreOwned(schedules: Schedules, triggers: Triggers)
    requires Key(0, 0) in triggers && triggers[Key(0, 0)] == StartedRun(0)
    requires forall k :: k in triggers && k != Key(0, 0) ==> !triggers[k].StartedRun?
    ensures OwnersOk(triggers, RUNS) && OneOpenRun(schedules, RUNS)
  {
    ReportRunIsStored();
    hide StoreOk;
    assert IsOwned(triggers, 0);
  }

  lemma {:induction false} HoldingLedger()
    ensures LedgerOk(map[0 := HOLDING], HELD, RUNS)
  {
    RunsAreOwned(map[0 := HOLDING], HELD);
    hide OwnersOk, OneOpenRun;
  }

  lemma {:induction false} HoldingTimes()
    ensures TimesOk(map[0 := HOLDING], HELD, map[0 := -1])
  {
    HoldingRow();
    hide RowOk;
  }

  /**
   A schedule of midnights that holds one instant at most has its first run open, passed the
   second midnight by and holds the third back. A backfill of the second then holds that one,
   and the third, though later, is skipped.
   */
  lemma {:induction false} ABackfillHoldsTheEarlier()
    ensures StoreOk(RUNS) && LedgerOk(map[0 := HOLDING], HELD, RUNS) && TimesOk(map[0 := HOLDING], HELD, map[0 := -1])
    ensures HeldPast(map[0 := HOLDING], Some(172800000))
    ensures IsHandling(map[0 := HOLDING], HELD, RUNS, map[0 := HOLDING.(bufferedFor := Some(86400000))],
                       HELD[Key(0, 172800000) := Skipped][Key(0, 86400000) := Buffered], RUNS, Key(0, 86400000), Buffered)
  {
    ReportRunIsStored();
    HoldingLedger();
    HoldingTimes();
    hide StoreOk, LedgerOk, TimesOk, ReportRun;
    assert HasOpenRun(RUNS, 0);
    hide HasOpenRun;
    assert map[0 := HOLDING][0 := HOLDING.(bufferedFor := Some(86400000))] == map[0 := HOLDING.(bufferedFor := Some(86400000))];
  }

  lemma {:induction false} HoldingRow()
    ensures RowOk(HOLDING)
  {
    hide Cron.IsParsed, Cron.IsMatch;
    Midnight(3);
    MidnightsAreParsed();
    assert Fires(HOLDING, 259200000);
    hide Fires;
  }

  // ---- a catch-up that stops too early ---------------------------------------------------------------

  /** Midnights from the first of January on. */
  const FROM_THE_FIRST: Schedule := NIGHTLY.(windowMs := None)

  const BACKFILLED: Triggers := map[Key(0, 0) := StartedRun(0)]

  const TWICE: Schedules := map[0 := FROM_THE_FIRST, 1 := FROM_THE_FIRST]

  lemma {:induction false} TwiceLedger()
    ensures LedgerOk(TWICE, BACKFILLED, RUNS)
  {
    RunsAreOwned(TWICE, BACKFILLED);
    hide OwnersOk, OneOpenRun;
  }

  lemma {:induction false} TwiceTimes()
    ensures TimesOk(TWICE, BACKFILLED, map[0 := -1, 1 := -1])
  {
    FirstRow();
    hide RowOk, Fires;
    assert IsCovered(FROM_THE_FIRST, 0, -1, BACKFILLED) && IsCovered(FROM_THE_FIRST, 1, -1, BACKFILLED);
    hide IsCovered;
  }

  /**
   Two schedules of midnights are due from the first one, and a backfill has started it for
   one of them. With a batch of one, catching up at noon begins mute: it stops at once, with
   the other schedule still due.
   */
  lemma {:induction false} AMuteTurnStopsTheCatchUp(readable: nat -> bool)
    ensures StoreOk(RUNS) && LedgerOk(TWICE, BACKFILLED, RUNS) && TimesOk(TWICE, BACKFILLED, map[0 := -1, 1 := -1])
    ensures BeginsMute(TWICE, BACKFILLED, RUNS, 43200000, readable)
  {
    ReportRunIsStored();
    TwiceLedger();
    TwiceTimes();
    hide StoreOk, LedgerOk, TimesOk, Fires, ReportRun;
    assert IsCaughtUp(FROM_THE_FIRST, 43200000, 0);
    assert ComesToNothing(TWICE[0], 0, BACKFILLED, 43200000, readable);
    assert 1 in TWICE && IsDue(TWICE[1], 43200000);
    hide ComesToNothing;
    assert IsFirstDue(TWICE, 0, 43200000) && IsMute(TWICE, BACKFILLED, 0, 43200000, readable);
    hide IsFirstDue, IsMute;
  }

  lemma {:induction false} FirstRow()
    ensures RowOk(FROM_THE_FIRST)
  {
    hide Cron.IsParsed, Cron.IsMatch;
    Midnight(0);
    MidnightsAreParsed();
    assert Fires(FROM_THE_FIRST, 0);
    hide Fires;
  }
}
