/**
 The schedule manager (packages/core/src/schedules/schedule-manager.ts): it starts a run for
 each instant of a cron schedule that comes due, makes up for missed ones, and keeps the
 ledger. Times are milliseconds; a schedule's zone is a fixed number of minutes ahead.
 */
module ScheduleManagers {
  import opened WorkflowTypes
  import opened CloseCascade
  import opened FamilyTree
  import opened RunStores
  import opened ScheduleLedger
  import opened ScheduleInstants
  import opened ScheduleTurns
  import Cron
  import Timers

  class ScheduleManager {
    const store: RunStore
    const clock: Timers.MonotonicClock
    const batchSize: nat
    var schedules: Schedules
    var nextId: nat
    var triggers: Triggers
    /** From when on each schedule counts its instants. */
    ghost var since: map<nat, int>

    ghost predicate Valid()
      reads this, store, store.rows
    {
      store.Valid() && batchSize > 0 && (forall s :: s in schedules ==> s < nextId) &&
      LedgerOk(schedules, triggers, store.rows.runs) && TimesOk(schedules, triggers, since)
    }

    constructor (store: RunStore, clock: Timers.MonotonicClock, batchSize: nat)
      requires store.Valid() && batchSize > 0 && store.rows.runs == map[]
      ensures Valid() && this.store == store && this.clock == clock && this.batchSize == batchSize && schedules == map[] && triggers == map[]
    {
      this.store, this.clock, this.batchSize := store, clock, batchSize;
      schedules, nextId, triggers, since := map[], 0, map[], map[];
    }

    /** Whatever the store's transactions do to the runs, the manager is still in order. */
    lemma StaysValid(before: Runs)
      requires store.Valid() && batchSize > 0 && (forall s :: s in schedules ==> s < nextId) && TimesOk(schedules, triggers, since)
      requires LedgerOk(schedules, triggers, before) && StoreOk(before) && RunsAdvance(before, store.rows.runs)
      ensures Valid()
    {
      RunsMoveOn(schedules, triggers, before, store.rows.runs);
    }

    method StartRun(s: nat, now: int) returns (id: nat)
      requires store.Valid() && s in schedules
      modifies store.rows
      ensures store.Valid() && IsStart(old(store.rows.runs), store.rows.runs, s, schedules[s], id)
      ensures HasJustBegun(store.rows.runs[id], schedules[s].workflowType, schedules[s].input, None, None, now)
    {
      hide StoreOk;
      id := store.StartRun(schedules[s].workflowType, schedules[s].input, None, None, Some(s), now);
    }

    /** Handles an instant of a schedule, once: a known instant is left alone. */
    method HandleTrigger(s: nat, instant: int, now: int) returns (outcome: Option<TriggerOutcome>)
      requires Valid() && s in schedules
      modifies this`schedules, this`triggers, store.rows
      ensures Valid() && LedgerGrows(old(triggers), triggers) && Key(s, instant) in triggers && schedules.Keys == old(schedules).Keys
      ensures outcome.None? <==> Key(s, instant) in old(triggers)
      ensures outcome.None? ==> schedules == old(schedules) && triggers == old(triggers) && store.rows.runs == old(store.rows.runs)
      ensures outcome.Some? ==>
        IsHandling(old(schedules), old(triggers), old(store.rows.runs), schedules, triggers, store.rows.runs, Key(s, instant), outcome.value)
    {
      hide LedgerOk, TimesOk, RunStore.Valid, LedgerGrows, HasOpenRun, IsStart, HasJustBegun;
      var k := Key(s, instant);
      ghost var schedules0, triggers0, runs0 := schedules, triggers, store.rows.runs;
      assert LedgerGrows(triggers, triggers) by { GrowsFromItself(triggers); }
      if k in triggers {
        return None;
      }
      var row := schedules[s];
      if row.policy.AllowAll? || !HasOpenRun(store.rows.runs, s) {
        var id := StartRun(s, now);
        StartedIsOk(schedules, triggers, runs0, store.rows.runs, k, id);
        TimesStay(schedules, schedules, triggers, triggers[k := StartedRun(id)], since);
        triggers := triggers[k := StartedRun(id)];
        return Some(StartedRun(id));
      }
      if row.policy.BufferOne? {
        HeldBackIsOk(schedules, triggers, runs0, k);
        TimesStay(schedules, schedules[s := row.(bufferedFor := Some(instant))], triggers, HeldBack(schedules, triggers, k), since);
        var replaced := row.bufferedFor;
        schedules := schedules[s := row.(bufferedFor := Some(instant))];
        if replaced.Some? {
          triggers := triggers[Key(s, replaced.value) := Skipped];
        }
        triggers := triggers[k := Buffered];
        return Some(Buffered);
      }
      SkippedIsOk(schedules, triggers, runs0, k);
      TimesStay(schedules, schedules, triggers, triggers[k := Skipped], since);
      triggers := triggers[k := Skipped];
      return Some(Skipped);
    }

    lemma GrowsFromItself(t: Triggers)
      ensures LedgerGrows(t, t)
    {
    }

    // ---- instants held back -------------------------------------------------------------------

    predicate HeldBefore(a: nat, b: nat)
      requires a in schedules && b in schedules && schedules[a].bufferedFor.Some? && schedules[b].bufferedFor.Some?
      reads this
    {
      schedules[a].bufferedFor.value < schedules[b].bufferedFor.value ||
      (schedules[a].bufferedFor.value == schedules[b].bufferedFor.value && a < b)
    }

    method FirstHeldBack() returns (first: Option<nat>)
      ensures first.None? ==> forall s :: s in schedules ==> !CanDrain(schedules[s], s, store.rows.runs)
      ensures first.Some? ==> first.value in schedules && CanDrain(schedules[first.value], first.value, store.rows.runs)
      ensures first.Some? ==> forall s :: s in schedules && s != first.value && CanDrain(schedules[s], s, store.rows.runs) ==> HeldBefore(first.value, s)
    {
      hide HasOpenRun;
      first := None;
      var rest := schedules.Keys;
      while rest != {}
        invariant rest <= schedules.Keys
        invariant first.None? ==> forall s :: s in schedules && s !in rest ==> !CanDrain(schedules[s], s, store.rows.runs)
        invariant first.Some? ==> first.value in schedules && CanDrain(schedules[first.value], first.value, store.rows.runs)
        invariant first.Some? ==> forall s :: s in schedules && s !in rest && s != first.value && CanDrain(schedules[s], s, store.rows.runs) ==>
          HeldBefore(first.value, s)
        decreases |rest|
      {
        var s :| s in rest;
        rest := rest - {s};
        if CanDrain(schedules[s], s, store.rows.runs) && (first.None? || HeldBefore(s, first.value)) {
          first := Some(s);
        }
      }
    }

    /** Starts the run of the instant held back the longest, among the active schedules with no open run. */
    method DrainNextBuffer(now: int) returns (report: Option<Report>)
      requires Valid()
      modifies this`schedules, this`triggers, store.rows
      ensures Valid() && LedgerGrows(old(triggers), triggers)
      ensures report.None? ==> schedules == old(schedules) && triggers == old(triggers) && store.rows.runs == old(store.rows.runs)
      ensures report.None? ==> forall s :: s in schedules ==> !CanDrain(schedules[s], s, store.rows.runs)
      ensures report.Some? ==> IsDrained(report.value, old(schedules), old(triggers), old(store.rows.runs))
      ensures report.Some? ==> IsHeldLongest(report.value.key, old(schedules), old(store.rows.runs))
      ensures report.Some? ==> report.value.outcome.StartedRun?
      ensures report.Some? ==>
        report.value.key.schedule in old(schedules) &&
        IsStart(old(store.rows.runs), store.rows.runs, report.value.key.schedule, old(schedules)[report.value.key.schedule],
                report.value.outcome.run)
      ensures report.Some? ==> triggers == old(triggers)[report.value.key := report.value.outcome]
      ensures report.Some? ==> report.value.key.schedule in old(schedules)
      ensures report.Some? ==>
        schedules == old(schedules)[report.value.key.schedule := old(schedules)[report.value.key.schedule].(bufferedFor := None)]
    {
      hide LedgerOk, TimesOk, RunStore.Valid, LedgerGrows, HasOpenRun, IsStart, HasJustBegun;
      GrowsFromItself(triggers);
      var first := FirstHeldBack();
      if first.None? {
        return None;
      }
      var s := first.value;
      var instant := schedules[s].bufferedFor.value;
      ghost var runs0 := store.rows.runs;
      var id := StartRun(s, now);
      DrainedIsOk(schedules, triggers, runs0, store.rows.runs, s, id);
      TimesStay(schedules, schedules[s := schedules[s].(bufferedFor := None)], triggers, triggers[Key(s, instant) := StartedRun(id)], since);
      triggers := triggers[Key(s, instant) := StartedRun(id)];
      schedules := schedules[s := schedules[s].(bufferedFor := None)];
      return Some(Report(Key(s, instant), StartedRun(id)));
    }

    /** It was held back by an active schedule with no open run, and no such schedule holds an earlier instant. */
    ghost predicate IsHeldLongest(k: Key, schedules: Schedules, runs: Runs) {
      k.schedule in schedules && schedules[k.schedule].state == Active && !HasOpenRun(runs, k.schedule) &&
      forall s :: s in schedules && schedules[s].state == Active && schedules[s].bufferedFor.Some? && !HasOpenRun(runs, s) ==>
        k.instant <= schedules[s].bufferedFor.value
    }

    /** The trigger of a report was the one held back by a schedule that could be drained. */
    ghost predicate IsDrained(report: Report, schedules: Schedules, triggers: Triggers, runs: Runs) {
      var s := report.key.schedule;
      s in schedules && CanDrain(schedules[s], s, runs) && schedules[s].bufferedFor == Some(report.key.instant) &&
      report.key in triggers && triggers[report.key].Buffered?
    }

    // ---- due instants -------------------------------------------------------------------------

    method FirstDue(now: int) returns (first: Option<nat>)
      ensures first.None? <==> NothingIsDue(schedules, now)
      ensures first.Some? ==> IsFirstDue(schedules, first.value, now)
    {
      first := None;
      var rest := schedules.Keys;
      while rest != {}
        invariant rest <= schedules.Keys
        invariant first.None? ==> forall s :: s in schedules && s !in rest ==> !IsDue(schedules[s], now)
        invariant first.Some? ==> first.value in schedules && IsDue(schedules[first.value], now)
        invariant first.Some? ==> forall s :: s in schedules && s !in rest && s != first.value && IsDue(schedules[s], now) ==> DueBefore(schedules, first.value, s)
        decreases |rest|
      {
        var s :| s in rest;
        rest := rest - {s};
        if IsDue(schedules[s], now) && (first.None? || DueBefore(schedules, s, first.value)) {
          first := Some(s);
        }
      }
    }

    /** Writes a schedule's row, with its policy and what it holds back as they are, and from when on it counts. */
    method WriteRow(s: nat, row: Schedule, ghost start: int)
      requires Valid() && s in schedules && row.policy == schedules[s].policy && row.bufferedFor == schedules[s].bufferedFor
      requires row.workflowType == schedules[s].workflowType && row.input == schedules[s].input
      requires RowOk(row) && IsCovered(row, s, start, triggers)
      modifies this`schedules, this`since
      ensures Valid() && schedules == old(schedules)[s := row] && since == old(since)[s := start]
    {
      hide LedgerOk, RunStore.Valid, TimesOk, RowOk, IsCovered;
      RowIsOk(schedules, triggers, store.rows.runs, s, row);
      OneRowChanged(schedules, triggers, since, s, row, start);
      schedules := schedules[s := row];
      since := since[s := start];
    }

    lemma OneRowChanged(schedules: Schedules, triggers: Triggers, since: map<nat, int>, s: nat, row: Schedule, start: int)
      requires TimesOk(schedules, triggers, since) && RowOk(row) && IsCovered(row, s, start, triggers)
      ensures TimesOk(schedules[s := row], triggers, since[s := start])
    {
      hide RowOk, IsCovered;
    }

    lemma RowInOrder(s: nat)
      requires Valid() && s in schedules
      ensures RowOk(schedules[s]) && s in since && IsCovered(schedules[s], s, since[s], triggers)
    {
    }

    /** A schedule whose expression or zone cannot be read any more stops. */
    method MarkErrored(s: nat)
      requires Valid() && s in schedules
      modifies this`schedules, this`since
      ensures Valid() && schedules == old(schedules)[s := old(schedules)[s].(state := Errored, nextFireAt := None)]
    {
      hide *;
      RowInOrder(s);
      ErroredRow(schedules[s], s, since[s], triggers);
      WriteRow(s, schedules[s].(state := Errored, nextFireAt := None), since[s]);
    }

    lemma ErroredRow(row: Schedule, s: nat, since: int, triggers: Triggers)
      requires RowOk(row)
      ensures var row' := row.(state := Errored, nextFireAt := None); RowOk(row') && IsCovered(row', s, since, triggers)
    {
      var t :| Fires(row, t);
      assert Fires(row.(state := Errored, nextFireAt := None), t);
      hide Fires, Cron.IsParsed;
    }

    /**
     Handles the schedule due first, if its expression can be read here: the instant it is
     caught up with comes on the ledger unless it lies in the future, and the schedule moves on.
     */
    method FireNextDue(now: int, readable: nat -> bool) returns (s: Option<nat>, t: int, report: Option<Report>)
      requires Valid()
      modifies this`schedules, this`triggers, this`since, store.rows
      ensures Valid() && LedgerGrows(old(triggers), triggers) && schedules.Keys == old(schedules).Keys
      ensures s.None? <==> NothingIsDue(old(schedules), now)
      ensures s.None? ==> schedules == old(schedules) && triggers == old(triggers) && store.rows.runs == old(store.rows.runs)
      ensures s.Some? ==> IsFirstDue(old(schedules), s.value, now) && s.value in schedules
      ensures s.Some? ==>
        forall other :: other in schedules && other != s.value ==> schedules[other] == old(schedules)[other]
      ensures s.Some? && readable(s.value) ==>
        (report.Some? <==> t <= now && Key(s.value, t) !in old(triggers)) && (t <= now ==> Key(s.value, t) in triggers) &&
        IsFired(old(schedules)[s.value], schedules[s.value], now, t, report.Some?)
      ensures report.Some? ==> s.Some? && s.value in old(schedules)
      ensures report.Some? ==>
        IsHandling(old(schedules), old(triggers), old(store.rows.runs),
          old(schedules)[s.value := old(schedules)[s.value].(bufferedFor := schedules[s.value].bufferedFor)], triggers, store.rows.runs,
          Key(s.value, t), report.value.outcome)
      ensures report.None? ==> triggers == old(triggers) && store.rows.runs == old(store.rows.runs)
      ensures s.Some? && !readable(s.value) ==>
        schedules[s.value] == old(schedules)[s.value].(state := Errored, nextFireAt := None) && triggers == old(triggers)
      ensures report.Some? ==> s.Some? && report.value.key == Key(s.value, t) && report.value.key !in old(triggers) && report.value.key in triggers
      ensures triggers.Keys == old(triggers).Keys + if report.Some? then {report.value.key} else {}
      ensures s.Some? ==>
        schedules[s.value].bufferedFor ==
          if report.Some? && report.value.outcome.Buffered? then Some(t) else old(schedules)[s.value].bufferedFor
    {
      hide *;
      GrowsFromItself(triggers);
      BuffersInOrder();
      t, report := 0, None;
      s := FirstDue(now);
      if s.None? {
        return;
      }
      FirstIsDue(s.value, now);
      if !readable(s.value) {
        MarkErrored(s.value);
        return;
      }
      var row := schedules[s.value];
      t := CatchUpInstant(row, now);
      ghost var triggers0 := triggers;
      ghost var schedules0 := schedules;
      if t <= now {
        var outcome := HandleTrigger(s.value, t, now);
        if outcome.Some? {
          report := Some(Report(Key(s.value, t), outcome.value));
          HandlingKeepsRows(schedules0, triggers0, old(store.rows.runs), schedules, triggers, store.rows.runs, Key(s.value, t), outcome.value);
          HandlingAddsKey(schedules0, triggers0, old(store.rows.runs), schedules, triggers, store.rows.runs, Key(s.value, t), outcome.value);
        }
      }
      RowParts(row);
      var next := NextTime(row, t);
      MoveOn(s.value, now, t, next, report.Some?, row, triggers0);
    }

    /** Writes when a schedule is next due, and when it last fired if it did. */
    method MoveOn(s: nat, now: int, t: int, next: int, handled: bool, ghost row: Schedule, ghost triggers0: Triggers)
      requires Valid() && s in schedules && schedules[s] == row.(bufferedFor := schedules[s].bufferedFor)
      requires RowOk(row) && IsDue(row, now) && s in since && IsCovered(row, s, since[s], triggers0) && LedgerGrows(triggers0, triggers)
      requires row.nextFireAt.Some? && IsCaughtUp(row, now, t) && IsNextAfter(row, t, next) && (t <= now ==> Key(s, t) in triggers)
      modifies this`schedules, this`since
      ensures Valid() && schedules.Keys == old(schedules).Keys && IsFired(row, schedules[s], now, t, handled)
      ensures schedules[s].bufferedFor == old(schedules)[s].bufferedFor
      ensures forall other :: other in schedules && other != s ==> schedules[other] == old(schedules)[other]
    {
      hide *;
      var moved := schedules[s].(nextFireAt := Some(next), lastFiredAt := if handled then Some(t) else schedules[s].lastFiredAt);
      CoverageOfMoved(row, s, now, t, moved, triggers0);
      WriteRow(s, moved, since[s]);
      WasFired(row, moved, now, t, handled);
    }

    lemma CoverageOfMoved(row: Schedule, s: nat, now: int, t: int, moved: Schedule, triggers0: Triggers)
      requires RowOk(row) && IsDue(row, now) && s in since && IsCovered(row, s, since[s], triggers0) && LedgerGrows(triggers0, triggers)
      requires moved.nextFireAt.Some? && IsCaughtUp(row, now, t) && IsNextAfter(row, t, moved.nextFireAt.value) && (t <= now ==> Key(s, t) in triggers)
      requires moved == row.(nextFireAt := moved.nextFireAt, lastFiredAt := moved.lastFiredAt, bufferedFor := moved.bufferedFor)
      ensures RowOk(moved) && IsCovered(moved, s, since[s], triggers)
    {
      CoverageGoesOn(row, s, since[s], triggers0, triggers, now, t, moved);
      hide RowOk, IsCovered, LedgerGrows, IsCaughtUp, IsNextAfter;
    }

    lemma WasFired(row: Schedule, moved: Schedule, now: int, t: int, handled: bool)
      requires row.nextFireAt.Some? && moved.nextFireAt.Some? && IsCaughtUp(row, now, t) && IsNextAfter(row, t, moved.nextFireAt.value)
      requires moved.lastFiredAt == if handled then Some(t) else row.lastFiredAt
      requires moved == row.(nextFireAt := moved.nextFireAt, lastFiredAt := moved.lastFiredAt, bufferedFor := moved.bufferedFor)
      ensures IsFired(row, moved, now, t, handled)
    {
      hide IsCaughtUp, IsNextAfter;
    }

    lemma HandlingKeepsRows(schedules0: Schedules, triggers0: Triggers, runs0: Runs, schedules1: Schedules, triggers1: Triggers, runs1: Runs,
        k: Key, outcome: TriggerOutcome)
      requires IsHandling(schedules0, triggers0, runs0, schedules1, triggers1, runs1, k, outcome)
      ensures k.schedule in schedules0 && k.schedule in schedules1 &&
        schedules1 == schedules0[k.schedule := schedules0[k.schedule].(bufferedFor := schedules1[k.schedule].bufferedFor)]
      ensures schedules1.Keys == schedules0.Keys && schedules1[k.schedule] == schedules0[k.schedule].(bufferedFor := schedules1[k.schedule].bufferedFor)
      ensures forall s :: s in schedules1 && s != k.schedule ==> schedules1[s] == schedules0[s]
      ensures schedules1[k.schedule].bufferedFor == if outcome.Buffered? then Some(k.instant) else schedules0[k.schedule].bufferedFor
    {
      hide HasOpenRun, HeldBack, IsStart;
    }

    lemma FirstIsDue(s: nat, now: int)
      requires Valid() && IsFirstDue(schedules, s, now)
      ensures s in schedules && IsDue(schedules[s], now) && schedules[s].nextFireAt.Some? && schedules[s].nextFireAt.value <= now
      ensures RowOk(schedules[s]) && s in since && IsCovered(schedules[s], s, since[s], triggers)
    {
    }

    lemma BuffersInOrder()
      requires Valid()
      ensures BuffersOk(schedules, triggers)
    {
    }

    lemma RowParts(row: Schedule)
      requires RowOk(row)
      ensures Cron.IsParsed(row.cron) && EverFires(row)
    {
    }

    // ---- ticks ----------------------------------------------------------------------------------

    function HoldingBack(rows: Schedules): set<nat> {
      set s | s in rows && rows[s].bufferedFor.Some?
    }

    /** No trigger is reported twice, and every report is on the ledger. */
    ghost predicate AreReports(reports: seq<Report>, triggers: Triggers) {
      (forall i, j :: 0 <= i < j < |reports| ==> reports[i].key != reports[j].key) &&
      forall i :: 0 <= i < |reports| ==> reports[i].key in triggers
    }

    /** One more report, of a trigger that was not on the ledger. */
    lemma OneMoreReport(reports: seq<Report>, report: Report, before: Triggers, after: Triggers)
      requires AreReports(reports, before) && LedgerGrows(before, after) && report.key !in before && report.key in after
      ensures AreReports(reports + [report], after)
    {
    }

    /** Some of what was held back has gone. */
    predicate OnlyDrained(before: Schedules, after: Schedules) {
      after.Keys == before.Keys && forall s :: s in before ==> after[s] == before[s] || after[s] == before[s].(bufferedFor := None)
    }

    ghost predicate AreStarted(reports: seq<Report>, triggers: Triggers) {
      AreReports(reports, triggers) && forall i :: 0 <= i < |reports| ==> reports[i].outcome.StartedRun? && triggers[reports[i].key] == reports[i].outcome
    }

    lemma OneMoreStarted(reports: seq<Report>, report: Report, before: Triggers)
      requires AreStarted(reports, before) && report.key in before && before[report.key].Buffered? && report.outcome.StartedRun?
      ensures AreStarted(reports + [report], before[report.key := report.outcome])
    {
    }

    /** Starts every run held back that can start, and nothing else. */
    method DrainBuffers(now: int) returns (reports: seq<Report>)
      requires Valid()
      modifies this`schedules, this`triggers, store.rows
      ensures Valid() && LedgerGrows(old(triggers), triggers) && AreStarted(reports, triggers)
      ensures ReportedKeys(reports) == Drainable(old(schedules), old(store.rows.runs)) && Drainable(schedules, store.rows.runs) == {}
      ensures OnlyDrained(old(schedules), schedules) && triggers.Keys == old(triggers).Keys
    {
      hide *;
      reports := [];
      GrowsFromItself(triggers);
      NoneStarted(schedules, triggers);
      while true
        invariant Valid() && LedgerGrows(old(triggers), triggers) && AreStarted(reports, triggers) && triggers.Keys == old(triggers).Keys
        invariant OnlyDrained(old(schedules), schedules)
        invariant Drainable(old(schedules), old(store.rows.runs)) == ReportedKeys(reports) + Drainable(schedules, store.rows.runs)
        decreases HoldingBack(schedules)
      {
        ghost var schedules0, triggers0, runs0 := schedules, triggers, store.rows.runs;
        var report := DrainNextBuffer(now);
        if report.None? {
          NothingDrains(schedules, store.rows.runs);
          return;
        }
        GrowsOn(old(triggers), triggers0, triggers);
        DrainedOne(reports, report.value, schedules0, triggers0, runs0, store.rows.runs);
        DrainedMore(old(schedules), schedules0, report.value.key.schedule);
        reports := reports + [report.value];
      }
    }

    lemma DrainedOne(reports: seq<Report>, report: Report, schedules0: Schedules, triggers0: Triggers, runs0: Runs, runs1: Runs)
      requires AreStarted(reports, triggers0) && IsDrained(report, schedules0, triggers0, runs0) && report.outcome.StartedRun?
      requires report.key.schedule in schedules0
      requires IsStart(runs0, runs1, report.key.schedule, schedules0[report.key.schedule], report.outcome.run)
      ensures AreStarted(reports + [report], triggers0[report.key := report.outcome])
      ensures report.key in triggers0 && report.key.schedule in schedules0
      ensures Drainable(schedules0, runs0) == {report.key} + Drainable(Drained(schedules0, report.key.schedule), runs1)
      ensures ReportedKeys(reports + [report]) == ReportedKeys(reports) + {report.key}
      ensures HoldingBack(Drained(schedules0, report.key.schedule)) < HoldingBack(schedules0)
    {
      hide IsStart, HasOpenRun;
      OneMoreStarted(reports, report, triggers0);
      DrainsOne(schedules0, runs0, runs1, report.key.schedule, report.outcome.run);
      NotReported(reports, report, triggers0);
      OneMoreKey(reports, report);
      assert report.key.schedule in HoldingBack(schedules0);
      hide Drainable, Drained, AreStarted, ReportedKeys;
    }

    lemma NotReported(reports: seq<Report>, report: Report, triggers: Triggers)
      requires AreStarted(reports, triggers) && report.key in triggers && triggers[report.key].Buffered?
      ensures report.key !in ReportedKeys(reports) && AreDistinct(reports)
    {
    }

    lemma DrainedMore(before: Schedules, now: Schedules, s: nat)
      requires OnlyDrained(before, now) && s in now
      ensures OnlyDrained(before, Drained(now, s)) && Drained(now, s) == now[s := now[s].(bufferedFor := None)]
    {
    }

    lemma NothingDrains(schedules: Schedules, runs: Runs)
      requires forall s :: s in schedules ==> !CanDrain(schedules[s], s, runs)
      ensures Drainable(schedules, runs) == {}
    {
      hide CanDrain;
    }

    lemma NoneStarted(schedules: Schedules, triggers: Triggers)
      ensures AreStarted([], triggers) && OnlyDrained(schedules, schedules) && ReportedKeys([]) == {}
    {
    }

    /** Handles the schedule due first, if any is, and reports the trigger that came of it. */
    method FireOne(now: int, readable: nat -> bool) returns (report: Option<Report>, ghost s: Option<nat>)
      requires Valid()
      modifies this`schedules, this`triggers, this`since, store.rows
      ensures Valid() && LedgerGrows(old(triggers), triggers)
      ensures IsTurn(old(schedules), old(triggers), schedules, triggers, now, s, report, readable)
      ensures s.Some? ==> IsFirstDue(old(schedules), s.value, now)
      ensures HeldPast(old(schedules), Some(now)) ==> HeldPast(schedules, Some(now))
      ensures HeldPast(old(schedules), Some(now)) && report.Some? && report.value.outcome.Buffered? ==>
        HoldsTheLater(old(schedules), schedules, report.value.key)
    {
      hide *;
      ghost var schedules0, triggers0 := schedules, triggers;
      RowsInOrder();
      var x, t, fired := FireNextDue(now, readable);
      report, s := fired, x;
      if x.None? {
        NoTurn(schedules0, triggers0, now, readable);
        return;
      }
      FirstDueIsDue(schedules0, x.value, now);
      FiringIsTurn(schedules0, triggers0, schedules, triggers, now, x.value, t, report, readable);
      if HeldPast(schedules0, Some(now)) {
        FiringHoldsPast(schedules0, schedules, now, x.value, t, report, readable);
      }
    }

    /** What a schedule holds back is the later of an instant and what it held before. */
    ghost predicate HoldsTheLater(schedules0: Schedules, schedules1: Schedules, k: Key) {
      k.schedule in schedules0 && k.schedule in schedules1 &&
      schedules1[k.schedule].bufferedFor == Some(Later(schedules0[k.schedule].bufferedFor, k.instant))
    }

    lemma RowsInOrder()
      requires Valid()
      ensures forall s :: s in schedules ==> RowOk(schedules[s])
    {
      hide RowOk;
    }

    lemma FirstDueIsDue(schedules: Schedules, s: nat, now: int)
      requires IsFirstDue(schedules, s, now)
      ensures s in schedules && IsDue(schedules[s], now) && schedules[s].nextFireAt.Some?
    {
    }

    lemma NoTurn(schedules: Schedules, triggers: Triggers, now: int, readable: nat -> bool)
      requires NothingIsDue(schedules, now)
      ensures IsTurn(schedules, triggers, schedules, triggers, now, None, None, readable)
    {
    }

    lemma FiringHoldsPast(schedules0: Schedules, schedules1: Schedules, now: int, s: nat, t: int, report: Option<Report>, readable: nat -> bool)
      requires s in schedules0 && schedules1.Keys == schedules0.Keys && IsDue(schedules0[s], now) && HeldPast(schedules0, Some(now))
      requires RowOk(schedules0[s])
      requires forall other :: other in schedules0 && other != s ==> schedules1[other] == schedules0[other]
      requires schedules1[s].bufferedFor == if report.Some? && report.value.outcome.Buffered? then Some(t) else schedules0[s].bufferedFor
      requires readable(s) ==> IsFired(schedules0[s], schedules1[s], now, t, report.Some?)
      requires !readable(s) ==> schedules1[s] == schedules0[s].(state := Errored, nextFireAt := None)
      requires report.Some? ==> readable(s) && t <= now
      ensures HeldPast(schedules1, Some(now))
      ensures report.Some? && report.value.outcome.Buffered? ==> HoldsTheLater(schedules0, schedules1, Key(s, t))
    {
      hide RowOk, HeldPast, IsCaughtUp;
      if readable(s) {
        CaughtUpFires(schedules0[s], now, t);
        CaughtUpIsFromDue(schedules0[s], now, t);
      }
      FiringKeepsHeldPast(schedules0, schedules1, now, s, t, report.Some?, report.Some? && report.value.outcome.Buffered?);
    }

    lemma CaughtUpFires(row: Schedule, now: int, t: int)
      requires RowOk(row) && IsDue(row, now) && IsCaughtUp(row, now, t)
      ensures Fires(row, t)
    {
      hide Fires, EverFires, Cron.IsParsed;
    }

    /** What a tick came to: what it started of the instants held back, then its turns with due schedules. */
    ghost predicate IsTick(schedules0: Schedules, triggers0: Triggers, runs0: Runs, schedules1: Schedules, triggers1: Triggers, now: int,
        readable: nat -> bool, drains: seq<Report>, added: seq<Report>, fired: seq<nat>)
    {
      ReportedKeys(drains) == Drainable(schedules0, runs0) && AreStarted(drains, triggers1) &&
      IsProgress(schedules0, triggers0, schedules1, triggers1, now, fired, added) &&
      (if fired == [] then SameButHeld(schedules0, schedules1) else IsFirstDue(schedules0, fired[0], now)) &&
      (|fired| == 1 ==> IsOneTurn(schedules0, triggers0, schedules1, now, fired[0], added, readable)) &&
      (NothingAhead(schedules0, triggers0, readable) ==> NothingAhead(schedules1, triggers1, readable) && |added| == |fired|) &&
      (HeldPast(schedules0, Some(now)) ==> HeldPast(schedules1, Some(now)))
    }

    lemma NoTurnsYet(schedules0: Schedules, triggers0: Triggers, runs0: Runs, schedules1: Schedules, triggers1: Triggers, now: int,
        readable: nat -> bool, drains: seq<Report>)
      requires OnlyDrained(schedules0, schedules1) && triggers1.Keys == triggers0.Keys
      requires ReportedKeys(drains) == Drainable(schedules0, runs0) && AreStarted(drains, triggers1)
      ensures IsTick(schedules0, triggers0, runs0, schedules1, triggers1, now, readable, drains, [], [])
      ensures AreReports(drains, triggers1)
    {
      hide NothingAhead, Drainable, IsProgress, ReportedKeys;
      NoProgress(schedules0, triggers0, schedules1, triggers1, now);
      if NothingAhead(schedules0, triggers0, readable) {
        SameAhead(schedules0, triggers0, schedules1, triggers1, readable);
      }
    }

    lemma TickGoesOn(schedules0: Schedules, triggers0: Triggers, runs0: Runs, schedules1: Schedules, triggers1: Triggers,
        schedules2: Schedules, triggers2: Triggers, now: int, readable: nat -> bool, drains: seq<Report>, added: seq<Report>, fired: seq<nat>,
        s: nat, report: Option<Report>)
      requires IsTick(schedules0, triggers0, runs0, schedules1, triggers1, now, readable, drains, added, fired)
      requires IsTurn(schedules1, triggers1, schedules2, triggers2, now, Some(s), report, readable) && LedgerGrows(triggers1, triggers2)
      requires HeldPast(schedules1, Some(now)) ==> HeldPast(schedules2, Some(now))
      requires IsFirstDue(schedules1, s, now)
      ensures IsTick(schedules0, triggers0, runs0, schedules2, triggers2, now, readable, drains,
                     if report.Some? then added + [report.value] else added, fired + [s])
    {
      OneMoreTurn(schedules0, triggers0, schedules1, triggers1, schedules2, triggers2, now, fired, added, s, report, readable);
      StillStarted(drains, triggers1, triggers2);
      if fired == [] {
        OneTurnSoFar(schedules0, triggers0, schedules1, triggers1, schedules2, triggers2, now, fired, added, s, report, readable);
      }
      hide NothingAhead, HeldPast, Drainable, IsProgress, ReportedKeys, IsTurn, AreStarted, IsOneTurn, SameButHeld;
      if NothingAhead(schedules0, triggers0, readable) {
        TurnReports(schedules1, triggers1, schedules2, triggers2, now, Some(s), report, readable);
      }
      if fired == [] {
        SameFirst(schedules0, schedules1, s, now);
      }
      hide IsFirstDue;
    }

    lemma OneTurnSoFar(schedules0: Schedules, triggers0: Triggers, schedules1: Schedules, triggers1: Triggers, schedules2: Schedules,
        triggers2: Triggers, now: int, fired: seq<nat>, added: seq<Report>, s: nat, report: Option<Report>, readable: nat -> bool)
      requires IsProgress(schedules0, triggers0, schedules1, triggers1, now, fired, added) && SameButHeld(schedules0, schedules1)
      requires IsTurn(schedules1, triggers1, schedules2, triggers2, now, Some(s), report, readable) && fired == []
      ensures IsOneTurn(schedules0, triggers0, schedules2, now, s, if report.Some? then added + [report.value] else added, readable)
    {
      assert added == [] && ReportedKeys([]) == {};
      FirstTurnIsOne(schedules0, triggers0, schedules1, triggers1, schedules2, triggers2, now, s, report, readable);
      hide IsTurn, IsOneTurn, SameButHeld;
    }

    lemma StillStarted(reports: seq<Report>, before: Triggers, after: Triggers)
      requires AreStarted(reports, before) && LedgerGrows(before, after)
      ensures AreStarted(reports, after)
    {
    }

    lemma SameFirst(schedules0: Schedules, schedules1: Schedules, s: nat, now: int)
      requires SameButHeld(schedules0, schedules1) && IsFirstDue(schedules1, s, now)
      ensures IsFirstDue(schedules0, s, now)
    {
    }

    /** The reports of a tick go on with that of a turn: of a trigger that was not on the ledger. */
    lemma ReportsGoOn(reports: seq<Report>, report: Option<Report>, schedules0: Schedules, before: Triggers, schedules1: Schedules,
        after: Triggers, now: int, s: Option<nat>, readable: nat -> bool)
      requires AreReports(reports, before) && IsTurn(schedules0, before, schedules1, after, now, s, report, readable) && LedgerGrows(before, after)
      ensures AreReports(if report.Some? then reports + [report.value] else reports, after)
      ensures s.None? ==> report.None? && schedules1 == schedules0 && after == before && NothingIsDue(schedules1, now)
    {
      hide IsFromDue, Speaks, MovesOn, IsAhead;
      if report.Some? {
        OneMoreReport(reports, report.value, before, after);
      } else {
        StillReports(reports, before, after);
      }
      hide AreReports;
    }

    lemma StillReports(reports: seq<Report>, before: Triggers, after: Triggers)
      requires AreReports(reports, before) && LedgerGrows(before, after)
      ensures AreReports(reports, after)
    {
    }

    /** What a tick that reports fewer than a batch says about what is left. */
    lemma AfterTick(schedules0: Schedules, triggers0: Triggers, runs0: Runs, schedules1: Schedules, triggers1: Triggers, now: int,
        readable: nat -> bool, drains: seq<Report>, added: seq<Report>, fired: seq<nat>, batch: nat)
      requires IsTick(schedules0, triggers0, runs0, schedules1, triggers1, now, readable, drains, added, fired)
      requires |fired| <= batch && (|fired| < batch ==> NothingIsDue(schedules1, now))
      ensures NothingAhead(schedules0, triggers0, readable) ==> NothingAhead(schedules1, triggers1, readable)
      ensures NothingAhead(schedules0, triggers0, readable) && |drains + added| < batch ==> NothingIsDue(schedules1, now)
      ensures HeldPast(schedules0, Some(now)) ==> HeldPast(schedules1, Some(now))
      ensures batch == 1 ==>
        (drains + added == [] && !NothingIsDue(schedules1, now) <==> BeginsMute(schedules0, triggers0, runs0, now, readable))
    {
      if fired == [] && batch == 1 {
        SameDue(schedules0, schedules1, now);
      }
      hide NothingAhead, HeldPast, Drainable, IsProgress, ReportedKeys, IsFirstDue, BeginsMute, NothingIsDue, AreStarted, IsOneTurn, SameButHeld;
      if batch == 1 {
        OneTurnIsEnoughUnlessMute(schedules0, triggers0, runs0, schedules1, now, drains, added, fired, readable);
      }
    }

    lemma SameDue(schedules0: Schedules, schedules1: Schedules, now: int)
      requires SameButHeld(schedules0, schedules1) && NothingIsDue(schedules1, now)
      ensures NothingIsDue(schedules0, now)
    {
    }

    lemma TimeGoesOn(schedules: Schedules, highWater: Option<int>, reading: int)
      ensures HeldPast(schedules, highWater) ==> HeldPast(schedules, Some(Timers.Later(highWater, reading)))
    {
    }

    /**
     Starts what was held back, then handles due schedules one by one, the one due first
     first, up to `batchSize`. No trigger is reported twice. A tick that stops early leaves
     nothing due; one that leaves something due makes fewer reports than `batchSize` exactly
     when more of its turns came to nothing than it started of what was held back.
     */
    method Tick(reading: int, readable: nat -> bool)
      returns (reports: seq<Report>, now: int, ghost drains: seq<Report>, ghost added: seq<Report>, ghost fired: seq<nat>)
      requires Valid()
      modifies clock, this`schedules, this`triggers, this`since, store.rows
      ensures Valid() && now == Timers.Later(old(clock.highWater), reading) && clock.highWater == Some(now)
      ensures LedgerGrows(old(triggers), triggers) && AreReports(reports, triggers) && reports == drains + added
      ensures HeldPast(old(schedules), old(clock.highWater)) ==> HeldPast(schedules, clock.highWater)
      ensures IsTick(old(schedules), old(triggers), old(store.rows.runs), schedules, triggers, now, readable, drains, added, fired)
      ensures |fired| <= batchSize && (|fired| < batchSize ==> NothingIsDue(schedules, now))
      ensures !NothingIsDue(schedules, now) ==> (|reports| < batchSize <==> |drains| < |fired| - |added|)
      ensures batchSize == 1 ==>
        (|reports| < batchSize && !NothingIsDue(schedules, now) <==>
         BeginsMute(old(schedules), old(triggers), old(store.rows.runs), now, readable))
    {
      hide *;
      now := clock.Now(reading);
      TimeGoesOn(schedules, old(clock.highWater), reading);
      reports := DrainBuffers(now);
      drains, added, fired := reports, [], [];
      NoTurnsYet(old(schedules), old(triggers), old(store.rows.runs), schedules, triggers, now, readable, drains);
      var handled := 0;
      while handled < batchSize
        invariant Valid() && LedgerGrows(old(triggers), triggers) && AreReports(reports, triggers) && reports == drains + added
        invariant handled == |fired| <= batchSize
        invariant IsTick(old(schedules), old(triggers), old(store.rows.runs), schedules, triggers, now, readable, drains, added, fired)
        modifies this`schedules, this`triggers, this`since, store.rows
        decreases batchSize - handled
      {
        ghost var schedules0, triggers0 := schedules, triggers;
        var report;
        ghost var s;
        report, s := FireOne(now, readable);
        GrowsOn(old(triggers), triggers0, triggers);
        ReportsGoOn(reports, report, schedules0, triggers0, schedules, triggers, now, s, readable);
        if s.Some? {
          TickGoesOn(old(schedules), old(triggers), old(store.rows.runs), schedules0, triggers0, schedules, triggers, now, readable,
            drains, added, fired, s.value, report);
          fired := fired + [s.value];
        }
        if report.Some? {
          reports := reports + [report.value];
          added := added + [report.value];
        } else {
          var remaining := FirstDue(now);
          if remaining.None? {
            AfterTick(old(schedules), old(triggers), old(store.rows.runs), schedules, triggers, now, readable, drains, added, fired, batchSize);
            return;
          }
        }
        handled := handled + 1;
      }
      AfterTick(old(schedules), old(triggers), old(store.rows.runs), schedules, triggers, now, readable, drains, added, fired, batchSize);
    }

    /**
     Ticks as long as a tick makes a whole batch of reports, at most once for each reading of
     the clock. If every schedule can be read, no window loses an instant and the ledger holds
     none of the instants to come, then nothing is due when it stops. Otherwise it may stop
     too early: with a batch of one, exactly when a tick begins mute.
     */
    method CatchUp(readings: seq<int>, readable: nat -> bool) returns (reports: seq<Report>, stopped: bool)
      requires Valid()
      modifies clock, this`schedules, this`triggers, this`since, store.rows
      ensures Valid() && LedgerGrows(old(triggers), triggers) && forall i :: 0 <= i < |reports| ==> reports[i].key in triggers
      ensures stopped || |readings| <= |reports|
      ensures stopped ==> clock.highWater.Some?
      ensures stopped && NothingAhead(old(schedules), old(triggers), readable) ==> NothingIsDue(schedules, clock.highWater.value)
      ensures batchSize == 1 && |readings| == 1 ==>
        (stopped && !NothingIsDue(schedules, clock.highWater.value) <==>
         BeginsMute(old(schedules), old(triggers), old(store.rows.runs), Timers.Later(old(clock.highWater), readings[0]), readable))
    {
      hide *;
      GrowsFromItself(triggers);
      reports := [];
      for i := 0 to |readings|
        invariant Valid() && LedgerGrows(old(triggers), triggers) && forall i :: 0 <= i < |reports| ==> reports[i].key in triggers
        invariant i <= |reports|
        invariant NothingAhead(old(schedules), old(triggers), readable) ==> NothingAhead(schedules, triggers, readable)
        invariant i == 0 ==> schedules == old(schedules) && triggers == old(triggers)
        invariant i == 0 ==> store.rows.runs == old(store.rows.runs) && clock.highWater == old(clock.highWater)
        invariant i == 1 && batchSize == 1 ==>
          !BeginsMute(old(schedules), old(triggers), old(store.rows.runs), Timers.Later(old(clock.highWater), readings[0]), readable)
      {
        ghost var schedules0, triggers0, runs0 := schedules, triggers, store.rows.runs;
        var report, now;
        ghost var drains, added, fired;
        report, now, drains, added, fired := Tick(readings[i], readable);
        AfterTick(schedules0, triggers0, runs0, schedules, triggers, now, readable, drains, added, fired, batchSize);
        StillKnownReports(reports, report, triggers0, triggers);
        GrowsOn(old(triggers), triggers0, triggers);
        reports := reports + report;
        BatchIsPositive();
        if |report| < batchSize {
          return reports, true;
        }
      }
      return reports, false;
    }

    lemma BatchIsPositive()
      requires Valid()
      ensures batchSize > 0
    {
    }

    lemma StillKnownReports(reports: seq<Report>, report: seq<Report>, before: Triggers, after: Triggers)
      requires (forall i :: 0 <= i < |reports| ==> reports[i].key in before) && LedgerGrows(before, after) && AreReports(report, after)
      ensures forall i :: 0 <= i < |reports + report| ==> (reports + report)[i].key in after
    {
    }

    // ---- operators --------------------------------------------------------------------------------

    /** Stores a schedule, unless it never fires after its start. */
    method Create(cron: Cron.Schedule, offset: int, workflowType: string, input: Json, policy: OverlapPolicy, catchUp: CatchUpPolicy,
        windowMs: Option<nat>, startAt: Option<int>, reading: int) returns (s: Option<nat>)
      requires Valid() && Cron.IsParsed(cron) && (windowMs.Some? ==> windowMs.value > 0)
      modifies clock, this`schedules, this`nextId, this`since
      ensures Valid()
      ensures s.None? ==> schedules == old(schedules)
      ensures s.Some? ==> s.value !in old(schedules) && s.value in schedules
      ensures s.Some? ==> schedules == old(schedules)[s.value := Schedule(cron, offset, workflowType, input, policy, Active, catchUp, windowMs,
        schedules[s.value].nextFireAt, None, None)]
      ensures var start := if startAt.Some? then startAt.value else Timers.Later(old(clock.highWater), reading);
        if s.Some? then schedules[s.value].nextFireAt.Some? && IsNextAfter(schedules[s.value], start, schedules[s.value].nextFireAt.value)
        else forall t {:trigger Cron.IsMatch(cron, offset, t)} :: start < t ==> !Cron.IsMatch(cron, offset, t)
      ensures HeldPast(old(schedules), old(clock.highWater)) ==> HeldPast(schedules, clock.highWater)
    {
      hide *;
      var start := if startAt.Some? then startAt.value else 0;
      if startAt.None? {
        TimeGoesOn(schedules, clock.highWater, reading);
        start := clock.Now(reading);
      }
      var first := Cron.NextCronTime(cron, offset, start);
      if first.None? {
        return None;
      }
      var row := Schedule(cron, offset, workflowType, input, policy, Active, catchUp, windowMs, first, None, None);
      NewRow(row, nextId, start, triggers);
      RowHoldsPast(schedules, nextId, row, clock.highWater);
      Add(row, start);
      return Some(nextId - 1);
    }

    lemma NewRow(row: Schedule, s: nat, start: int, triggers: Triggers)
      requires Cron.IsParsed(row.cron) && row.nextFireAt.Some? && start < row.nextFireAt.value
      requires Cron.IsMatch(row.cron, row.offset, row.nextFireAt.value) && Cron.NoMatchBetween(row.cron, row.offset, start, row.nextFireAt.value)
      ensures RowOk(row) && IsCovered(row, s, start, triggers) && IsNextAfter(row, start, row.nextFireAt.value)
    {
      hide Cron.IsMatch, Cron.IsParsed;
      assert Fires(row, row.nextFireAt.value);
      assert forall u {:trigger Fires(row, u)} :: Fires(row, u) == Cron.IsMatch(row.cron, row.offset, u);
    }

    lemma RowHoldsPast(schedules: Schedules, s: nat, row: Schedule, upTo: Option<int>)
      requires HeldPast(schedules, upTo) ==> IsPast(row, upTo)
      ensures HeldPast(schedules, upTo) ==> HeldPast(schedules[s := row], upTo)
    {
    }

    method Add(row: Schedule, ghost start: int)
      requires Valid() && row.bufferedFor.None? && RowOk(row) && IsCovered(row, nextId, start, triggers)
      modifies this`schedules, this`nextId, this`since
      ensures Valid() && old(nextId) !in old(schedules) && nextId == old(nextId) + 1 && schedules == old(schedules)[old(nextId) := row]
    {
      hide LedgerOk, StoreOk, TimesOk, RowOk, IsCovered;
      NewScheduleIsOk(schedules, triggers, store.rows.runs, nextId, row);
      OneRowChanged(schedules, triggers, since, nextId, row, start);
      schedules := schedules[nextId := row];
      since := since[nextId := start];
      nextId := nextId + 1;
    }

    /** Stops a schedule: nothing of it starts until it is resumed. */
    method Pause(s: nat)
      requires Valid() && s in schedules
      modifies this`schedules, this`since
      ensures Valid() && schedules == old(schedules)[s := old(schedules)[s].(state := Paused)]
      ensures HeldPast(old(schedules), clock.highWater) ==> HeldPast(schedules, clock.highWater)
    {
      hide *;
      RowInOrder(s);
      SamePast(schedules, s, schedules[s].(state := Paused), clock.highWater);
      SameTimes(schedules[s], schedules[s].(state := Paused), s, since[s], triggers);
      WriteRow(s, schedules[s].(state := Paused), since[s]);
    }

    lemma SameTimes(row: Schedule, row': Schedule, s: nat, start: int, triggers: Triggers)
      requires RowOk(row) && IsCovered(row, s, start, triggers) && row' == row.(state := row'.state)
      ensures RowOk(row') && IsCovered(row', s, start, triggers)
    {
      hide Cron.IsMatch, Cron.IsParsed;
      assert forall u {:trigger Fires(row', u)} :: Fires(row', u) == Fires(row, u);
      var t :| Fires(row, t);
      assert Fires(row', t);
      hide Fires;
    }

    /** Lets a schedule fire again from its next instant on; what fell into the pause is not made up. */
    method Resume(s: nat, reading: int, readable: bool) returns (now: int)
      requires Valid() && s in schedules
      modifies clock, this`schedules, this`since
      ensures Valid() && now == Timers.Later(old(clock.highWater), reading) && s in schedules
      ensures readable ==> schedules[s].nextFireAt.Some? && IsNextAfter(old(schedules)[s], now, schedules[s].nextFireAt.value)
      ensures readable ==> schedules == old(schedules)[s := old(schedules)[s].(state := Active, nextFireAt := schedules[s].nextFireAt)]
      ensures !readable ==> schedules == old(schedules)[s := old(schedules)[s].(state := Errored, nextFireAt := None)]
      ensures HeldPast(old(schedules), old(clock.highWater)) ==> HeldPast(schedules, clock.highWater)
    {
      hide *;
      TimeGoesOn(schedules, clock.highWater, reading);
      now := clock.Now(reading);
      if !readable {
        SamePast(schedules, s, schedules[s].(state := Errored, nextFireAt := None), Some(now));
        MarkErrored(s);
        return;
      }
      RowInOrder(s);
      RowParts(schedules[s]);
      var next := NextTime(schedules[s], now);
      var row := schedules[s].(state := Active, nextFireAt := Some(next));
      SameInstants(schedules[s], row, now, next);
      NewRow(row, s, now, triggers);
      SamePast(schedules, s, row, Some(now));
      WriteRow(s, row, now);
    }

    /** A row that holds the same instant back, and waits no longer, as long, or for what comes after `upTo`. */
    lemma SamePast(schedules: Schedules, s: nat, row: Schedule, upTo: Option<int>)
      requires s in schedules && row.bufferedFor == schedules[s].bufferedFor
      requires row.nextFireAt.None? || row.nextFireAt == schedules[s].nextFireAt || (upTo.Some? && upTo.value < row.nextFireAt.value)
      ensures HeldPast(schedules, upTo) ==> HeldPast(schedules[s := row], upTo)
    {
      if HeldPast(schedules, upTo) {
        assert IsPast(schedules[s], upTo);
      }
    }

    lemma SameInstants(row: Schedule, row': Schedule, now: int, next: int)
      requires IsNextAfter(row, now, next) && row'.cron == row.cron && row'.offset == row.offset
      ensures now < next && Cron.IsMatch(row'.cron, row'.offset, next) && Cron.NoMatchBetween(row'.cron, row'.offset, now, next)
    {
    }

    /** `times` are the instants of a schedule in a stretch: all of them, or the first 10,000. */
    ghost predicate AreInstants(row: Schedule, start: int, stop: int, times: seq<int>) {
      (forall i :: 0 <= i < |times| ==> start <= times[i] < stop && Fires(row, times[i])) &&
      (forall i, j :: 0 <= i < j < |times| ==> times[i] < times[j]) &&
      forall t {:trigger Fires(row, t)} :: start <= t < stop && Fires(row, t) ==> t in times || (|times| == 10000 && times[9999] < t)
    }

    method InstantsBetween(row: Schedule, start: int, stop: int) returns (times: seq<int>)
      requires Cron.IsParsed(row.cron)
      ensures AreInstants(row, start, stop, times)
    {
      var neverMatches;
      times, neverMatches := Cron.CronTimesBetween(row.cron, row.offset, start, stop, 10000);
      assert forall u {:trigger Fires(row, u)} :: Fires(row, u) == Cron.IsMatch(row.cron, row.offset, u);
      hide Fires, Cron.IsMatch, Cron.IsParsed;
    }

    /** The reports of a backfill: of its own instants, none of which was on the ledger. */
    ghost predicate AreNewReports(reports: seq<Report>, s: nat, times: seq<int>, before: Triggers, after: Triggers) {
      AreReports(reports, after) && LedgerGrows(before, after) &&
      forall k :: 0 <= k < |reports| ==> reports[k].key !in before && reports[k].key.schedule == s && reports[k].key.instant in times
    }

    lemma OneMoreNewReport(reports: seq<Report>, report: Option<Report>, key: Key, times: seq<int>, first: Triggers, before: Triggers, after: Triggers)
      requires AreNewReports(reports, key.schedule, times, first, before) && LedgerGrows(before, after) && key.instant in times
      requires report.Some? ==> report.value.key == key && key !in before && key in after
      ensures AreNewReports(if report.Some? then reports + [report.value] else reports, key.schedule, times, first, after)
    {
      GrowsOn(first, before, after);
      if report.Some? {
        OneMoreReport(reports, report.value, before, after);
      } else {
        StillReports(reports, before, after);
      }
      hide AreReports;
    }

    lemma NoReports(s: nat, times: seq<int>, triggers: Triggers)
      ensures AreNewReports([], s, times, triggers, triggers)
    {
    }

    lemma StillKnown(s: nat, times: seq<int>, before: Triggers, after: Triggers)
      requires LedgerGrows(before, after) && forall i :: 0 <= i < |times| ==> Key(s, times[i]) in before
      ensures forall i :: 0 <= i < |times| ==> Key(s, times[i]) in after
    {
    }

    /**
     Handles every instant of a stretch, paused or not. Instants on the ledger are left alone,
     so doing it again reports nothing.
     */
    method Backfill(s: nat, start: int, stop: int, now: int) returns (reports: seq<Report>, times: seq<int>)
      requires Valid() && s in schedules
      modifies this`schedules, this`triggers, store.rows
      ensures Valid() && AreInstants(old(schedules)[s], start, stop, times)
      ensures AreNewReports(reports, s, times, old(triggers), triggers)
      ensures forall i :: 0 <= i < |times| ==> Key(s, times[i]) in triggers
    {
      hide *;
      RowInOrder(s);
      RowParts(schedules[s]);
      times := InstantsBetween(schedules[s], start, stop);
      NoReports(s, times, triggers);
      reports := [];
      for i := 0 to |times|
        invariant Valid() && s in schedules && AreNewReports(reports, s, times, old(triggers), triggers)
        invariant forall k :: 0 <= k < i ==> Key(s, times[k]) in triggers
      {
        ghost var triggers0 := triggers;
        var outcome := HandleTrigger(s, times[i], now);
        StillKnown(s, times[..i], triggers0, triggers);
        var report := if outcome.Some? then Some(Report(Key(s, times[i]), outcome.value)) else None;
        OneMoreNewReport(reports, report, Key(s, times[i]), times, old(triggers), triggers0, triggers);
        reports := if report.Some? then reports + [report.value] else reports;
      }
    }
  }
}
