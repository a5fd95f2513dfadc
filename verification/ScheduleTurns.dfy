/**
 What a tick of the schedule manager adds up to (packages/core/src/schedules/schedule-manager.ts):
 the turns it takes, one due schedule after another, and what their reports say.
 */
module ScheduleTurns {
  import opened WorkflowTypes
  import opened CloseCascade
  import opened ScheduleLedger
  import opened ScheduleInstants
  import Cron

  datatype Report = Report(key: Key, outcome: TriggerOutcome)

  // ---- one instant -----------------------------------------------------------------------------------

  /** What becomes of an instant that is not on the ledger yet. */
  ghost predicate IsHandling(schedules: Schedules, triggers: Triggers, runs: Runs, schedules': Schedules, triggers': Triggers, runs': Runs,
      k: Key, outcome: TriggerOutcome)
  {
    k.schedule in schedules && k !in triggers &&
    var row := schedules[k.schedule];
    if row.policy.AllowAll? || !HasOpenRun(runs, k.schedule) then
      outcome.StartedRun? && IsStart(runs, runs', k.schedule, row, outcome.run) && schedules' == schedules && triggers' == triggers[k := outcome]
    else if row.policy.BufferOne? then
      outcome == Buffered && runs' == runs && schedules' == schedules[k.schedule := row.(bufferedFor := Some(k.instant))] &&
      triggers' == HeldBack(schedules, triggers, k)
    else
      outcome == Skipped && runs' == runs && schedules' == schedules && triggers' == triggers[k := Skipped]
  }

  lemma {:induction false} HandlingAddsKey(schedules: Schedules, triggers: Triggers, runs: Runs, schedules': Schedules, triggers': Triggers,
      runs': Runs, k: Key, outcome: TriggerOutcome)
    requires BuffersOk(schedules, triggers) && IsHandling(schedules, triggers, runs, schedules', triggers', runs', k, outcome)
    ensures triggers'.Keys == triggers.Keys + {k}
  {
    hide HasOpenRun, IsStart;
  }

  /** Rows that differ only in what they hold back. */
  predicate SameButHeld(before: Schedules, after: Schedules) {
    after.Keys == before.Keys && forall s :: s in before ==> after[s] == before[s].(bufferedFor := after[s].bufferedFor)
  }

  function Later(held: Option<int>, instant: int): int {
    if held.Some? && held.value > instant then held.value else instant
  }

  /**
   What an instant held back leaves held back: always itself. So the later of the two stays
   held exactly when nothing was held, or something earlier.
   */
  lemma {:induction false} KeepsTheLaterOnlyInOrder(schedules: Schedules, triggers: Triggers, runs: Runs, schedules': Schedules,
      triggers': Triggers, runs': Runs, k: Key, outcome: TriggerOutcome)
    requires BuffersOk(schedules, triggers) && IsHandling(schedules, triggers, runs, schedules', triggers', runs', k, outcome)
    requires outcome.Buffered?
    ensures var held := schedules[k.schedule].bufferedFor;
      schedules'[k.schedule].bufferedFor == Some(k.instant) &&
      (held.Some? ==> triggers'[Key(k.schedule, held.value)].Skipped?) &&
      (schedules'[k.schedule].bufferedFor == Some(Later(held, k.instant)) <==> held.None? || held.value < k.instant)
  {
    hide IsStart;
  }

  /** What is held back lies in the past, and before whatever comes next. */
  predicate IsPast(row: Schedule, upTo: Option<int>) {
    row.bufferedFor.Some? ==>
      upTo.Some? && row.bufferedFor.value <= upTo.value && (row.nextFireAt.Some? ==> row.bufferedFor.value < row.nextFireAt.value)
  }

  ghost predicate HeldPast(schedules: Schedules, upTo: Option<int>) {
    forall s :: s in schedules ==> IsPast(schedules[s], upTo)
  }

  lemma PastStays(schedules: Schedules, upTo: Option<int>, now: int)
    requires HeldPast(schedules, upTo) && (upTo.Some? ==> upTo.value <= now)
    ensures HeldPast(schedules, Some(now))
  {
  }

  // ---- starting what is held back --------------------------------------------------------------------

  predicate CanDrain(row: Schedule, s: nat, runs: Runs) {
    row.state.Active? && row.bufferedFor.Some? && !HasOpenRun(runs, s)
  }

  /** The instants held back that could start now. */
  function Drainable(schedules: Schedules, runs: Runs): set<Key> {
    set s | s in schedules && CanDrain(schedules[s], s, runs) :: Key(s, schedules[s].bufferedFor.value)
  }

  function Drained(schedules: Schedules, s: nat): Schedules
    requires s in schedules
  {
    schedules[s := schedules[s].(bufferedFor := None)]
  }

  /** Starting one of them takes it away, and none of the others. */
  lemma {:induction false} DrainsOne(schedules: Schedules, runs: Runs, runs': Runs, s: nat, id: nat)
    requires s in schedules && CanDrain(schedules[s], s, runs) && IsStart(runs, runs', s, schedules[s], id)
    ensures Drainable(schedules, runs) == Drainable(Drained(schedules, s), runs') + {Key(s, schedules[s].bufferedFor.value)}
    ensures Key(s, schedules[s].bufferedFor.value) !in Drainable(Drained(schedules, s), runs')
  {
    var after := Drained(schedules, s);
    forall other | other in schedules && other != s
      ensures CanDrain(after[other], other, runs') <==> CanDrain(schedules[other], other, runs)
    {
      OtherRuns(runs, runs', s, schedules[s], id, other);
    }
    hide CanDrain;
    assert CanDrain(schedules[s], s, runs) && !CanDrain(after[s], s, runs') by {
      assert !after[s].bufferedFor.Some?;
    }
  }

  lemma {:induction false} OtherRuns(runs: Runs, runs': Runs, s: nat, row: Schedule, id: nat, other: nat)
    requires IsStart(runs, runs', s, row, id) && other != s
    ensures HasOpenRun(runs', other) <==> HasOpenRun(runs, other)
  {
    assert forall x :: x in runs' ==> (IsOpenOf(runs', other, x) <==> x in runs && IsOpenOf(runs, other, x));
    hide IsOpenOf;
    if HasOpenRun(runs, other) {
      var x :| x in runs && IsOpenOf(runs, other, x);
      assert IsOpenOf(runs', other, x);
    }
    if HasOpenRun(runs', other) {
      var x :| x in runs' && IsOpenOf(runs', other, x);
      assert IsOpenOf(runs, other, x);
    }
  }

  // ---- which schedule comes first --------------------------------------------------------------------

  predicate NothingIsDue(schedules: Schedules, now: int) {
    forall s :: s in schedules ==> !IsDue(schedules[s], now)
  }

  predicate DueBefore(schedules: Schedules, a: nat, b: nat)
    requires a in schedules && b in schedules && schedules[a].nextFireAt.Some? && schedules[b].nextFireAt.Some?
  {
    schedules[a].nextFireAt.value < schedules[b].nextFireAt.value ||
    (schedules[a].nextFireAt.value == schedules[b].nextFireAt.value && a < b)
  }

  ghost predicate IsFirstDue(schedules: Schedules, s: nat, now: int) {
    s in schedules && IsDue(schedules[s], now) &&
    forall t :: t in schedules && t != s && IsDue(schedules[t], now) ==> DueBefore(schedules, s, t)
  }

  /** What being due first means for the rows: an active schedule whose time has come, and no active one has waited longer. */
  lemma {:induction false} LongestDueComesFirst(schedules: Schedules, now: int, s: nat)
    ensures IsFirstDue(schedules, s, now) ==>
      s in schedules && schedules[s].state == Active && schedules[s].nextFireAt.Some? && schedules[s].nextFireAt.value <= now &&
      forall t :: t in schedules && schedules[t].state == Active && schedules[t].nextFireAt.Some? ==>
        schedules[s].nextFireAt.value <= schedules[t].nextFireAt.value
    ensures NothingIsDue(schedules, now) <==>
      forall t :: t in schedules && schedules[t].state == Active && schedules[t].nextFireAt.Some? ==> now < schedules[t].nextFireAt.value
  {
    if IsFirstDue(schedules, s, now) {
      forall t | t in schedules && schedules[t].state == Active && schedules[t].nextFireAt.Some?
        ensures schedules[s].nextFireAt.value <= schedules[t].nextFireAt.value
      {
        if t != s && IsDue(schedules[t], now) {
          assert DueBefore(schedules, s, t);
        }
      }
    }
    forall t | t in schedules && schedules[t].state == Active && schedules[t].nextFireAt.Some?
      ensures IsDue(schedules[t], now) <==> schedules[t].nextFireAt.value <= now
    {
    }
  }

  // ---- one turn ------------------------------------------------------------------------------------

  /** What never changes about a schedule's instants. */
  predicate SameRule(row: Schedule, row': Schedule) {
    row'.cron == row.cron && row'.offset == row.offset && row'.catchUp == row.catchUp && row'.windowMs == row.windowMs
  }

  /** Handling a due schedule moves it on: past the instant reported, or out of the active ones. */
  ghost predicate MovesOn(row: Schedule, row': Schedule, report: Option<Report>) {
    row.nextFireAt.Some? && SameRule(row, row') && (row'.nextFireAt.Some? ==> WaitsLonger(row, row', report))
  }

  ghost predicate WaitsLonger(row: Schedule, row': Schedule, report: Option<Report>)
    requires row.nextFireAt.Some? && row'.nextFireAt.Some?
  {
    row'.state == row.state && row.nextFireAt.value < row'.nextFireAt.value &&
    (report.Some? ==> report.value.key.instant < row'.nextFireAt.value)
  }

  /** An instant a schedule is due for. */
  predicate IsFromDue(row: Schedule, now: int, t: int) {
    row.nextFireAt.Some? && row.nextFireAt.value <= t <= now && Fires(row, t)
  }

  /** None of the instants a schedule is due for is on the ledger. */
  ghost predicate IsAhead(row: Schedule, s: nat, triggers: Triggers, now: int) {
    forall t {:trigger Key(s, t)} :: IsFromDue(row, now, t) ==> Key(s, t) !in triggers
  }

  /** Whenever it is looked at, the schedule's window holds one of its instants. */
  ghost predicate LosesNothing(row: Schedule) {
    row.catchUp.All? && row.windowMs.Some? ==> forall now :: HoldsOne(row, row.windowMs.value, now)
  }

  ghost predicate HoldsOne(row: Schedule, window: nat, now: int) {
    exists t :: now - window <= t <= now && Fires(row, t)
  }

  /** A schedule that can be read, and whose window loses nothing. */
  ghost predicate Speaks(row: Schedule, s: nat, readable: nat -> bool) {
    row.state.Active? && row.nextFireAt.Some? ==> readable(s) && LosesNothing(row)
  }

  /** One turn: nothing was due, or one schedule was handled, with a report if an instant came on the ledger. */
  ghost predicate IsTurn(schedules: Schedules, triggers: Triggers, schedules': Schedules, triggers': Triggers, now: int,
      s: Option<nat>, report: Option<Report>, readable: nat -> bool)
  {
    schedules'.Keys == schedules.Keys &&
    triggers'.Keys == triggers.Keys + (if report.Some? then {report.value.key} else {}) &&
    (if s.None? then NothingIsDue(schedules, now) && report.None? && schedules' == schedules && triggers' == triggers
     else s.value in schedules && IsFiring(schedules, triggers, schedules', now, s.value, report, readable))
  }

  ghost predicate IsFiring(schedules: Schedules, triggers: Triggers, schedules': Schedules, now: int,
      s: nat, report: Option<Report>, readable: nat -> bool)
    requires s in schedules && schedules'.Keys == schedules.Keys
  {
    IsDue(schedules[s], now) && MovesOn(schedules[s], schedules'[s], report) &&
    (forall other :: other in schedules && other != s ==> schedules'[other] == schedules[other]) &&
    (report.Some? ==> IsNewReport(schedules[s], s, triggers, now, report.value)) &&
    (Speaks(schedules[s], s, readable) && IsAhead(schedules[s], s, triggers, now) ==> report.Some?) &&
    (report.None? <==> ComesToNothing(schedules[s], s, triggers, now, readable)) &&
    (IsDue(schedules'[s], now) <==> IsDueAgain(schedules[s], s, now, readable))
  }

  /** The schedule cannot be read, or the instant it is caught up with is on the ledger or yet to come. */
  ghost predicate ComesToNothing(row: Schedule, s: nat, triggers: Triggers, now: int, readable: nat -> bool)
    requires row.nextFireAt.Some?
  {
    readable(s) ==> exists t :: IsCaughtUp(row, now, t) && (now < t || Key(s, t) in triggers)
  }

  /** One more of its instants has passed by `now` once the schedule is caught up. */
  ghost predicate IsDueAgain(row: Schedule, s: nat, now: int, readable: nat -> bool)
    requires row.nextFireAt.Some?
  {
    readable(s) && exists t, next :: IsCaughtUp(row, now, t) && IsNextAfter(row, t, next) && next <= now
  }

  predicate IsNewReport(row: Schedule, s: nat, triggers: Triggers, now: int, report: Report) {
    report.key.schedule == s && report.key !in triggers && IsFromDue(row, now, report.key.instant)
  }

  /** The instant a due schedule is caught up with is one of those it is due for, unless its window loses it. */
  lemma {:induction false} CaughtUpIsFromDue(row: Schedule, now: int, t: int)
    requires IsDue(row, now) && IsCaughtUp(row, now, t) && Fires(row, t)
    ensures row.nextFireAt.value <= t && (t <= now ==> IsFromDue(row, now, t)) && (LosesNothing(row) ==> t <= now)
  {
    WhenAnInstantPassesUnhandled(row, now, t);
    hide Fires;
    assert LosesNothing(row) && row.catchUp.All? && row.windowMs.Some? ==> HoldsOne(row, row.windowMs.value, now);
  }

  /** What handling a due schedule leads to: its instant is on the ledger, and it waits for the next one after that. */
  ghost predicate IsFired(row: Schedule, row': Schedule, now: int, t: int, handled: bool)
    requires row.nextFireAt.Some?
  {
    IsCaughtUp(row, now, t) && row'.nextFireAt.Some? && IsNextAfter(row, t, row'.nextFireAt.value) &&
    row'.lastFiredAt == (if handled then Some(t) else row.lastFiredAt) &&
    row' == row.(nextFireAt := row'.nextFireAt, lastFiredAt := row'.lastFiredAt, bufferedFor := row'.bufferedFor)
  }

  /** The schedule due first can be read and is handled, or it is stopped: either way that is a turn. */
  lemma {:induction false} FiringIsTurn(schedules: Schedules, triggers: Triggers, schedules': Schedules, triggers': Triggers, now: int,
      s: nat, t: int, report: Option<Report>, readable: nat -> bool)
    requires s in schedules && schedules'.Keys == schedules.Keys && IsDue(schedules[s], now) && RowOk(schedules[s])
    requires forall other :: other in schedules && other != s ==> schedules'[other] == schedules[other]
    requires triggers'.Keys == triggers.Keys + if report.Some? then {report.value.key} else {}
    requires readable(s) ==> IsFired(schedules[s], schedules'[s], now, t, report.Some?)
    requires readable(s) ==> (report.Some? <==> t <= now && Key(s, t) !in triggers)
    requires report.Some? ==> readable(s) && report.value.key == Key(s, t)
    requires !readable(s) ==> schedules'[s] == schedules[s].(state := Errored, nextFireAt := None)
    ensures IsTurn(schedules, triggers, schedules', triggers', now, Some(s), report, readable)
  {
    hide RowOk, Speaks, LosesNothing, IsAhead, IsCaughtUp, IsNextAfter, Fires;
    if readable(s) {
      FiredMovesOn(schedules[s], schedules'[s], s, now, t, report);
      FiredAsForeseen(schedules[s], schedules'[s], s, triggers, now, t, report.Some?, readable);
      if Speaks(schedules[s], s, readable) && IsAhead(schedules[s], s, triggers, now) {
        SpokenFor(schedules[s], s, triggers, now, t, readable);
      }
    }
    SpeaksReadably(schedules[s], s, readable, now);
    hide IsFired;
  }

  /** There is one instant to catch up with, and one that comes next. */
  lemma {:induction false} OneCaughtUp(row: Schedule, now: int, t: int, u: int)
    requires row.nextFireAt.Some? && IsCaughtUp(row, now, t) && IsCaughtUp(row, now, u)
    ensures t == u
  {
    if !row.catchUp.LatestOnly? && row.windowMs.Some? && row.nextFireAt.value < now - row.windowMs.value {
      OneNext(row, now - row.windowMs.value - 1, t, u);
    }
    hide Fires, IsNextAfter;
  }

  lemma {:induction false} OneNext(row: Schedule, after: int, t: int, u: int)
    requires IsNextAfter(row, after, t) && IsNextAfter(row, after, u)
    ensures t == u
  {
    assert Fires(row, t) == Cron.IsMatch(row.cron, row.offset, t) && Fires(row, u) == Cron.IsMatch(row.cron, row.offset, u);
    hide Fires, Cron.IsMatch;
  }

  /** When a turn comes to nothing, and when its schedule is due again, is known before it. */
  lemma {:induction false} FiredAsForeseen(row: Schedule, row': Schedule, s: nat, triggers: Triggers, now: int, t: int, handled: bool,
      readable: nat -> bool)
    requires IsDue(row, now) && readable(s) && IsFired(row, row', now, t, handled)
    ensures ComesToNothing(row, s, triggers, now, readable) <==> now < t || Key(s, t) in triggers
    ensures IsDue(row', now) <==> IsDueAgain(row, s, now, readable)
  {
    hide IsCaughtUp, IsNextAfter;
    forall u | IsCaughtUp(row, now, u)
      ensures u == t
    {
      OneCaughtUp(row, now, t, u);
    }
    forall u | IsNextAfter(row, t, u)
      ensures Some(u) == row'.nextFireAt
    {
      OneNext(row, t, u, row'.nextFireAt.value);
    }
  }

  lemma SpeaksReadably(row: Schedule, s: nat, readable: nat -> bool, now: int)
    requires IsDue(row, now)
    ensures Speaks(row, s, readable) ==> readable(s) && LosesNothing(row)
  {
    hide LosesNothing;
  }

  lemma {:induction false} FiredMovesOn(row: Schedule, row': Schedule, s: nat, now: int, t: int, report: Option<Report>)
    requires IsDue(row, now) && RowOk(row) && IsFired(row, row', now, t, report.Some?)
    requires report.Some? ==> report.value.key == Key(s, t) && t <= now
    ensures MovesOn(row, row', report) && Fires(row, t) && (report.Some? ==> IsFromDue(row, now, t))
  {
    assert Fires(row, t);
    CaughtUpIsFromDue(row, now, t);
    hide Fires, RowOk, IsCaughtUp;
  }

  lemma {:induction false} SpokenFor(row: Schedule, s: nat, triggers: Triggers, now: int, t: int, readable: nat -> bool)
    requires IsDue(row, now) && IsCaughtUp(row, now, t) && Fires(row, t) && Speaks(row, s, readable) && IsAhead(row, s, triggers, now)
    ensures t <= now && Key(s, t) !in triggers
  {
    CaughtUpIsFromDue(row, now, t);
    SpeaksReadably(row, s, readable, now);
    hide IsCaughtUp, Fires, Speaks, LosesNothing;
  }

  /** What a turn leaves held back is the instant it handled, or what was held: past and before what comes next. */
  lemma {:induction false} FiringKeepsHeldPast(schedules: Schedules, schedules': Schedules, now: int, s: nat, t: int, handled: bool, buffered: bool)
    requires s in schedules && schedules'.Keys == schedules.Keys && IsDue(schedules[s], now) && HeldPast(schedules, Some(now))
    requires forall other :: other in schedules && other != s ==> schedules'[other] == schedules[other]
    requires schedules'[s].bufferedFor == if buffered then Some(t) else schedules[s].bufferedFor
    requires schedules'[s].nextFireAt.None? || (IsFired(schedules[s], schedules'[s], now, t, handled) && schedules[s].nextFireAt.value <= t)
    requires buffered ==> t <= now
    ensures HeldPast(schedules', Some(now))
    ensures buffered && schedules[s].bufferedFor.Some? ==> schedules[s].bufferedFor.value < schedules[s].nextFireAt.value
  {
    assert IsPast(schedules[s], Some(now));
    hide IsCaughtUp;
  }

  // ---- turn after turn -------------------------------------------------------------------------------

  /** Since a tick began to handle schedules: who was handled, and what came on the ledger for it. */
  ghost predicate IsProgress(schedules0: Schedules, triggers0: Triggers, schedules: Schedules, triggers: Triggers, now: int,
      fired: seq<nat>, added: seq<Report>)
  {
    RowsMovedOn(schedules0, schedules, fired) && |added| <= |fired| &&
    triggers.Keys == triggers0.Keys + ReportedKeys(added) && AreDistinct(added) &&
    forall i :: 0 <= i < |added| ==> CameOnLedger(schedules0, triggers0, now, fired, added[i])
  }

  /** Only what was handled has moved, and never back. */
  ghost predicate RowsMovedOn(schedules0: Schedules, schedules: Schedules, fired: seq<nat>) {
    schedules.Keys == schedules0.Keys && forall s :: s in schedules0 ==> HasMovedOn(schedules0[s], schedules[s], s in fired)
  }

  predicate HasMovedOn(row0: Schedule, row: Schedule, fired: bool) {
    SameRule(row0, row) && (!fired ==> row.state == row0.state && row.nextFireAt == row0.nextFireAt) &&
    (row.nextFireAt.Some? ==> row0.nextFireAt.Some? && row.state == row0.state && row0.nextFireAt.value <= row.nextFireAt.value)
  }

  /** A report of an instant a schedule was due for when the tick began, and which was not on the ledger then. */
  predicate CameOnLedger(schedules0: Schedules, triggers0: Triggers, now: int, fired: seq<nat>, report: Report) {
    report.key.schedule in fired && report.key.schedule in schedules0 &&
    IsNewReport(schedules0[report.key.schedule], report.key.schedule, triggers0, now, report)
  }

  function ReportedKeys(reports: seq<Report>): set<Key> {
    set i | 0 <= i < |reports| :: reports[i].key
  }

  ghost predicate AreDistinct(reports: seq<Report>) {
    forall i, j :: 0 <= i < j < |reports| ==> reports[i].key != reports[j].key
  }

  lemma {:induction false} NoProgress(schedules0: Schedules, triggers0: Triggers, schedules: Schedules, triggers: Triggers, now: int)
    requires SameButHeld(schedules0, schedules) && triggers.Keys == triggers0.Keys
    ensures IsProgress(schedules0, triggers0, schedules, triggers, now, [], [])
  {
    assert ReportedKeys([]) == {};
  }

  lemma FromDueEarlier(row0: Schedule, row: Schedule, fired: bool, now: int, t: int)
    requires HasMovedOn(row0, row, fired) && IsFromDue(row, now, t)
    ensures IsFromDue(row0, now, t)
  {
    hide Cron.IsMatch;
  }

  lemma {:induction false} RowsMoveOnAgain(schedules0: Schedules, schedules: Schedules, schedules': Schedules, fired: seq<nat>, s: nat,
      report: Option<Report>)
    requires RowsMovedOn(schedules0, schedules, fired) && schedules'.Keys == schedules.Keys && s in schedules
    requires MovesOn(schedules[s], schedules'[s], report)
    requires forall other :: other in schedules && other != s ==> schedules'[other] == schedules[other]
    ensures RowsMovedOn(schedules0, schedules', fired + [s])
  {
    forall other | other in schedules0
      ensures HasMovedOn(schedules0[other], schedules'[other], other in fired + [s])
    {
      assert HasMovedOn(schedules0[other], schedules[other], other in fired);
    }
  }

  lemma {:induction false} OneMoreKey(reports: seq<Report>, report: Report)
    requires AreDistinct(reports) && report.key !in ReportedKeys(reports)
    ensures AreDistinct(reports + [report]) && ReportedKeys(reports + [report]) == ReportedKeys(reports) + {report.key}
  {
    var more := reports + [report];
    forall k
      ensures k in ReportedKeys(more) <==> k in ReportedKeys(reports) || k == report.key
    {
      if k in ReportedKeys(reports) {
        var i :| 0 <= i < |reports| && reports[i].key == k;
        assert more[i].key == k;
      }
      assert more[|reports|].key == report.key;
    }
    assert forall i :: 0 <= i < |reports| ==> reports[i].key in ReportedKeys(reports);
  }

  lemma {:induction false} OneMoreTurn(schedules0: Schedules, triggers0: Triggers, schedules: Schedules, triggers: Triggers,
      schedules': Schedules, triggers': Triggers, now: int, fired: seq<nat>, added: seq<Report>, s: nat, report: Option<Report>,
      readable: nat -> bool)
    requires IsProgress(schedules0, triggers0, schedules, triggers, now, fired, added)
    requires IsTurn(schedules, triggers, schedules', triggers', now, Some(s), report, readable)
    ensures IsProgress(schedules0, triggers0, schedules', triggers', now, fired + [s],
                       if report.Some? then added + [report.value] else added)
  {
    hide Fires, IsAhead, Speaks, SameRule, ReportedKeys, AreDistinct;
    RowsMoveOnAgain(schedules0, schedules, schedules', fired, s, report);
    if report.Some? {
      OneMoreKey(added, report.value);
      FromDueEarlier(schedules0[s], schedules[s], s in fired, now, report.value.key.instant);
    }
    hide RowsMovedOn, MovesOn, IsFromDue;
  }

  // ---- when every turn reports -------------------------------------------------------------------------

  /** Every active schedule speaks, and none of its instants from the next one on is on the ledger. */
  ghost predicate NothingAhead(schedules: Schedules, triggers: Triggers, readable: nat -> bool) {
    forall s :: s in schedules ==> Speaks(schedules[s], s, readable) && IsClear(schedules[s], s, triggers)
  }

  ghost predicate IsClear(row: Schedule, s: nat, triggers: Triggers) {
    row.state.Active? && row.nextFireAt.Some? ==>
      forall t {:trigger Key(s, t)} :: row.nextFireAt.value <= t && Fires(row, t) ==> Key(s, t) !in triggers
  }

  /** Then a turn that finds a due schedule reports, and things stay so. */
  lemma {:induction false} TurnReports(schedules: Schedules, triggers: Triggers, schedules': Schedules, triggers': Triggers, now: int,
      s: Option<nat>, report: Option<Report>, readable: nat -> bool)
    requires NothingAhead(schedules, triggers, readable) && IsTurn(schedules, triggers, schedules', triggers', now, s, report, readable)
    ensures s.Some? ==> report.Some?
    ensures NothingAhead(schedules', triggers', readable)
  {
    hide Fires, LosesNothing;
    if s.Some? {
      assert IsClear(schedules[s.value], s.value, triggers) && Speaks(schedules[s.value], s.value, readable);
      assert IsAhead(schedules[s.value], s.value, triggers, now);
      StaysClear(schedules[s.value], schedules'[s.value], s.value, triggers, triggers', report);
      SpeaksStill(schedules[s.value], schedules'[s.value]);
    }
    forall other | other in schedules'
      ensures Speaks(schedules'[other], other, readable) && IsClear(schedules'[other], other, triggers')
    {
      assert Speaks(schedules[other], other, readable) && IsClear(schedules[other], other, triggers);
    }
  }

  lemma {:induction false} StaysClear(row: Schedule, row': Schedule, s: nat, triggers: Triggers, triggers': Triggers, report: Option<Report>)
    requires IsClear(row, s, triggers) && row.state.Active? && MovesOn(row, row', report)
    requires triggers'.Keys == triggers.Keys + (if report.Some? then {report.value.key} else {})
    ensures IsClear(row', s, triggers')
  {
    assert forall t {:trigger Fires(row', t)} :: Fires(row', t) == Fires(row, t);
    hide Fires;
  }

  lemma {:induction false} SpeaksStill(row: Schedule, row': Schedule)
    requires SameRule(row, row')
    ensures LosesNothing(row) ==> LosesNothing(row')
  {
    assert forall t {:trigger Fires(row', t)} {:trigger Fires(row, t)} :: Fires(row', t) == Fires(row, t);
    hide Fires;
    if row'.catchUp.All? && row'.windowMs.Some? && LosesNothing(row) {
      forall now
        ensures HoldsOne(row', row'.windowMs.value, now)
      {
        assert HoldsOne(row, row.windowMs.value, now);
        var t :| now - row.windowMs.value <= t <= now && Fires(row, t);
        assert Fires(row', t);
      }
    }
  }

  /** Rows that differ only in what they hold back, and a ledger with the same instants. */
  lemma {:induction false} SameAhead(schedules: Schedules, triggers: Triggers, schedules': Schedules, triggers': Triggers, readable: nat -> bool)
    requires NothingAhead(schedules, triggers, readable) && SameButHeld(schedules, schedules') && triggers'.Keys == triggers.Keys
    ensures NothingAhead(schedules', triggers', readable)
  {
    hide LosesNothing;
    forall s | s in schedules'
      ensures Speaks(schedules'[s], s, readable) && IsClear(schedules'[s], s, triggers')
    {
      assert Speaks(schedules[s], s, readable) && IsClear(schedules[s], s, triggers);
      assert forall t {:trigger Fires(schedules'[s], t)} :: Fires(schedules'[s], t) == Fires(schedules[s], t);
      SpeaksStill(schedules[s], schedules'[s]);
      hide Fires;
    }
  }

  // ---- a tick of one turn ----------------------------------------------------------------------------------

  /** What one turn comes to, as far as it is known before the tick. */
  ghost predicate IsOneTurn(schedules: Schedules, triggers: Triggers, schedules': Schedules, now: int, s: nat, added: seq<Report>,
      readable: nat -> bool)
  {
    s in schedules && schedules[s].nextFireAt.Some? &&
    (added == [] <==> ComesToNothing(schedules[s], s, triggers, now, readable)) &&
    (NothingIsDue(schedules', now) <==>
      !IsDueAgain(schedules[s], s, now, readable) && forall b :: b in schedules && b != s ==> !IsDue(schedules[b], now))
  }

  lemma {:induction false} FirstTurnIsOne(schedules0: Schedules, triggers0: Triggers, schedules1: Schedules, triggers1: Triggers,
      schedules2: Schedules, triggers2: Triggers, now: int, s: nat, report: Option<Report>, readable: nat -> bool)
    requires SameButHeld(schedules0, schedules1) && triggers1.Keys == triggers0.Keys
    requires IsTurn(schedules1, triggers1, schedules2, triggers2, now, Some(s), report, readable)
    ensures IsOneTurn(schedules0, triggers0, schedules2, now, s, if report.Some? then [report.value] else [], readable)
  {
    SameForesight(schedules0[s], schedules1[s], s, triggers0, triggers1, now, readable);
    hide ComesToNothing, IsDueAgain, IsAhead, Speaks, MovesOn, IsNewReport;
    assert forall b :: b in schedules0 ==> IsDue(schedules0[b], now) == IsDue(schedules1[b], now);
    assert forall b :: b in schedules0 && b != s ==> IsDue(schedules2[b], now) == IsDue(schedules1[b], now);
    if !IsDueAgain(schedules0[s], s, now, readable) && forall b :: b in schedules0 && b != s ==> !IsDue(schedules0[b], now) {
      assert NothingIsDue(schedules2, now);
    }
    hide IsDue;
  }

  lemma {:induction false} SameForesight(row: Schedule, row': Schedule, s: nat, triggers: Triggers, triggers': Triggers, now: int,
      readable: nat -> bool)
    requires row' == row.(bufferedFor := row'.bufferedFor) && triggers'.Keys == triggers.Keys && row.nextFireAt.Some?
    ensures ComesToNothing(row, s, triggers, now, readable) == ComesToNothing(row', s, triggers', now, readable)
    ensures IsDueAgain(row, s, now, readable) == IsDueAgain(row', s, now, readable)
  {
    assert forall t {:trigger IsCaughtUp(row, now, t)} {:trigger IsCaughtUp(row', now, t)} :: IsCaughtUp(row, now, t) == IsCaughtUp(row', now, t) by {
      forall t
        ensures IsCaughtUp(row, now, t) == IsCaughtUp(row', now, t)
      {
        SameCatchUp(row, row', now, t);
      }
    }
    assert forall t, u {:trigger IsNextAfter(row, t, u)} {:trigger IsNextAfter(row', t, u)} :: IsNextAfter(row, t, u) == IsNextAfter(row', t, u);
    hide IsCaughtUp, IsNextAfter;
  }

  lemma {:induction false} SameCatchUp(row: Schedule, row': Schedule, now: int, t: int)
    requires row' == row.(bufferedFor := row'.bufferedFor) && row.nextFireAt.Some?
    ensures IsCaughtUp(row, now, t) == IsCaughtUp(row', now, t)
  {
    assert forall u {:trigger Fires(row, u)} {:trigger Fires(row', u)} :: Fires(row, u) == Fires(row', u);
    hide Fires;
  }

  /**
   Nothing is held back that could start, the turn of the schedule due first comes to
   nothing, and something is due after it.
   */
  ghost predicate BeginsMute(schedules: Schedules, triggers: Triggers, runs: Runs, now: int, readable: nat -> bool) {
    Drainable(schedules, runs) == {} && exists a :: IsFirstDue(schedules, a, now) && IsMute(schedules, triggers, a, now, readable)
  }

  ghost predicate IsMute(schedules: Schedules, triggers: Triggers, a: nat, now: int, readable: nat -> bool)
    requires a in schedules && schedules[a].nextFireAt.Some?
  {
    ComesToNothing(schedules[a], a, triggers, now, readable) &&
    (IsDueAgain(schedules[a], a, now, readable) || exists b :: b in schedules && b != a && IsDue(schedules[b], now))
  }

  lemma {:induction false} OneFirst(schedules: Schedules, now: int, a: nat, b: nat)
    requires IsFirstDue(schedules, a, now) && IsFirstDue(schedules, b, now)
    ensures a == b
  {
  }

  /** A tick of at most one turn reports nothing and leaves something due exactly in such a state. */
  lemma {:induction false} OneTurnIsEnoughUnlessMute(schedules: Schedules, triggers: Triggers, runs: Runs, schedules': Schedules, now: int,
      drains: seq<Report>, added: seq<Report>, fired: seq<nat>, readable: nat -> bool)
    requires |fired| <= 1 && (fired == [] ==> NothingIsDue(schedules', now)) && (fired == [] ==> NothingIsDue(schedules, now))
    requires ReportedKeys(drains) == Drainable(schedules, runs)
    requires |fired| == 1 ==>
      IsFirstDue(schedules, fired[0], now) && IsOneTurn(schedules, triggers, schedules', now, fired[0], added, readable)
    ensures drains + added == [] && !NothingIsDue(schedules', now) <==> BeginsMute(schedules, triggers, runs, now, readable)
  {
    hide Drainable, ComesToNothing, IsDueAgain, NothingIsDue;
    if drains != [] {
      assert drains[0].key in ReportedKeys(drains);
    } else {
      assert ReportedKeys(drains) == {};
    }
    if fired == [] {
      assert forall a :: !IsFirstDue(schedules, a, now) by { NoneFirst(schedules, now); }
    } else {
      forall a | IsFirstDue(schedules, a, now)
        ensures a == fired[0]
      {
        OneFirst(schedules, now, a, fired[0]);
      }
      hide IsFirstDue;
    }
  }

  lemma NoneFirst(schedules: Schedules, now: int)
    requires NothingIsDue(schedules, now)
    ensures forall a :: !IsFirstDue(schedules, a, now)
  {
  }
}
