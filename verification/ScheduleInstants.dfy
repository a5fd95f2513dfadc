/**
 The instants at which cron schedules fire, and which of them a due schedule is caught up
 with (packages/core/src/schedules/schedule-manager.ts). A schedule's zone is a fixed number
 of minutes ahead.
 */
module ScheduleInstants {
  import opened ScheduleLedger
  import Cron

  // ---- instants --------------------------------------------------------------------------------

  predicate Fires(row: Schedule, t: int) {
    Cron.IsMatch(row.cron, row.offset, t)
  }

  /** `t` is the first instant of the schedule after `after`. */
  ghost predicate IsNextAfter(row: Schedule, after: int, t: int) {
    after < t && Fires(row, t) && Cron.NoMatchBetween(row.cron, row.offset, after, t)
  }

  ghost predicate EverFires(row: Schedule) {
    exists t :: Fires(row, t)
  }

  /** `t` is the last instant of the schedule up to `now`. */
  ghost predicate IsLatest(row: Schedule, now: int, t: int) {
    t <= now && Fires(row, t) && forall u {:trigger Fires(row, u)} :: t < u <= now ==> !Fires(row, u)
  }

  /** The search always finds another instant of a schedule that has one at all. */
  method NextTime(row: Schedule, after: int) returns (next: int)
    requires Cron.IsParsed(row.cron) && EverFires(row)
    ensures IsNextAfter(row, after, next)
  {
    var found := Cron.NextCronTime(row.cron, row.offset, after);
    hide Cron.IsMatch, Cron.IsParsed;
    assert found.Some? by {
      var t :| Fires(row, t);
      var later := Cron.MatchesAgain(row.cron, row.offset, t, after);
      assert Cron.IsMatch(row.cron, row.offset, later);
    }
    return found.value;
  }

  method LatestInstantUntil(row: Schedule, first: int, now: int) returns (latest: int)
    requires Cron.IsParsed(row.cron) && Fires(row, first) && first <= now
    ensures first <= latest && IsLatest(row, now, latest)
  {
    hide Cron.IsMatch, Cron.IsParsed;
    latest := first;
    while true
      invariant first <= latest <= now && Fires(row, latest)
      decreases now - latest
    {
      var next := NextTime(row, latest);
      if next > now {
        assert forall u {:trigger Fires(row, u)} :: latest < u <= now ==> !Fires(row, u) by {
          assert forall u {:trigger Fires(row, u)} :: Fires(row, u) == Cron.IsMatch(row.cron, row.offset, u);
        }
        return;
      }
      latest := next;
    }
  }

  /** The instant a due schedule is caught up with: its latest, its next, or the first its window still holds. */
  ghost predicate IsCaughtUp(row: Schedule, now: int, t: int)
    requires row.nextFireAt.Some?
  {
    var due := row.nextFireAt.value;
    if row.catchUp.LatestOnly? then due <= t && IsLatest(row, now, t)
    else if row.windowMs.Some? && due < now - row.windowMs.value then IsNextAfter(row, now - row.windowMs.value - 1, t)
    else t == due
  }

  method CatchUpInstant(row: Schedule, now: int) returns (t: int)
    requires RowOk(row) && row.nextFireAt.Some? && row.nextFireAt.value <= now
    ensures IsCaughtUp(row, now, t) && Fires(row, t)
  {
    hide Cron.IsMatch, Cron.IsParsed;
    var due := row.nextFireAt.value;
    if row.catchUp.LatestOnly? {
      t := LatestInstantUntil(row, due, now);
    } else if row.windowMs.None? {
      t := due;
    } else {
      var cutoff := now - row.windowMs.value;
      if due < cutoff {
        t := NextTime(row, cutoff - 1);
      } else {
        t := due;
      }
    }
  }

  /**
   The instant chosen lies in the future, and passes unhandled, exactly when the schedule has
   a window, is due from before the window, and has no instant inside it.
   */
  lemma {:induction false} WhenAnInstantPassesUnhandled(row: Schedule, now: int, t: int)
    requires row.nextFireAt.Some? && row.nextFireAt.value <= now && IsCaughtUp(row, now, t)
    ensures t > now <==>
      row.catchUp.All? && row.windowMs.Some? && row.nextFireAt.value < now - row.windowMs.value &&
      forall u {:trigger Fires(row, u)} :: now - row.windowMs.value <= u <= now ==> !Fires(row, u)
  {
    assert forall u {:trigger Fires(row, u)} :: Fires(row, u) == Cron.IsMatch(row.cron, row.offset, u);
    hide Cron.IsMatch, Fires;
  }

  ghost predicate RowOk(row: Schedule) {
    Cron.IsParsed(row.cron) && EverFires(row) && (row.nextFireAt.Some? ==> Fires(row, row.nextFireAt.value))
  }

  /** A schedule that makes up for everything has a trigger for every instant since it counts, up to its next one. */
  ghost predicate IsCovered(row: Schedule, s: nat, since: int, triggers: Triggers) {
    row.catchUp.All? && row.windowMs.None? && row.nextFireAt.Some? ==>
      forall t {:trigger Fires(row, t)} :: since < t < row.nextFireAt.value && Fires(row, t) ==> Key(s, t) in triggers
  }

  ghost predicate TimesOk(schedules: Schedules, triggers: Triggers, since: map<nat, int>) {
    forall s {:trigger schedules[s]} :: s in schedules ==>
      RowOk(schedules[s]) && s in since && IsCovered(schedules[s], s, since[s], triggers)
  }

  /** Rows that differ only in what they hold back keep their times. */
  lemma {:induction false} TimesStay(before: Schedules, after: Schedules, triggers: Triggers, later: Triggers, since: map<nat, int>)
    requires TimesOk(before, triggers, since) && LedgerGrows(triggers, later) && after.Keys == before.Keys
    requires forall s :: s in before ==> after[s] == before[s].(bufferedFor := after[s].bufferedFor)
    ensures TimesOk(after, later, since)
  {
    forall s | s in after
      ensures RowOk(after[s]) && IsCovered(after[s], s, since[s], later)
    {
      assert RowOk(before[s]) && IsCovered(before[s], s, since[s], triggers);
      assert forall t {:trigger Fires(after[s], t)} :: Fires(after[s], t) == Fires(before[s], t);
      var t :| Fires(before[s], t);
      assert Fires(after[s], t);
      hide Fires, Cron.IsParsed;
    }
  }

  /** A covered schedule stays covered when its due instant is handled and the next one found. */
  lemma {:induction false} CoverageGoesOn(row: Schedule, s: nat, since: int, triggers: Triggers, later: Triggers, now: int, t: int, next: Schedule)
    requires RowOk(row) && row.nextFireAt.Some? && IsCovered(row, s, since, triggers) && LedgerGrows(triggers, later)
    requires row.nextFireAt.value <= now && IsCaughtUp(row, now, t) && (t <= now ==> Key(s, t) in later)
    requires next.nextFireAt.Some? && IsNextAfter(row, t, next.nextFireAt.value) && next.cron == row.cron && next.offset == row.offset
    requires next.catchUp == row.catchUp && next.windowMs == row.windowMs
    ensures RowOk(next) && IsCovered(next, s, since, later)
  {
    assert forall u {:trigger Fires(next, u)} :: Fires(next, u) == Fires(row, u) && Fires(row, u) == Cron.IsMatch(row.cron, row.offset, u);
    hide Fires, Cron.IsMatch, Cron.IsParsed;
    assert Fires(next, next.nextFireAt.value);
    if row.catchUp.All? && row.windowMs.None? {
      forall u | since < u < next.nextFireAt.value && Fires(next, u)
        ensures Key(s, u) in later
      {
        if u < t {
          assert Fires(row, u) && Key(s, u) in triggers;
        }
      }
    }
  }

  predicate IsDue(row: Schedule, now: int) {
    row.state.Active? && row.nextFireAt.Some? && row.nextFireAt.value <= now
  }
}
