/**
 What the schedule manager keeps about its triggers
 (packages/core/src/schedules/schedule-manager.ts): a ledger row for every instant of every
 schedule it has handled, the instant a schedule holds back, and the runs it started.
 */
module ScheduleLedger {
  import opened WorkflowTypes
  import opened Projections
  import opened RunTables
  import opened CloseCascade
  import opened FamilyTree
  import opened RunStores
  import Cron

  datatype OverlapPolicy = Skip | BufferOne | AllowAll

  datatype CatchUpPolicy = LatestOnly | All

  datatype ScheduleState = Active | Paused | Errored

  datatype Schedule = Schedule(
    cron: Cron.Schedule,
    offset: int,
    workflowType: string,
    input: Json,
    policy: OverlapPolicy,
    state: ScheduleState,
    catchUp: CatchUpPolicy,
    windowMs: Option<nat>,
    nextFireAt: Option<int>,
    lastFiredAt: Option<int>,
    bufferedFor: Option<int>)

  datatype Key = Key(schedule: nat, instant: int)

  datatype TriggerOutcome = StartedRun(run: nat) | Skipped | Buffered

  type Schedules = map<nat, Schedule>
  type Triggers = map<Key, TriggerOutcome>

  // ---- the ledger ----------------------------------------------------------------------------

  predicate IsOpenOf(runs: Runs, s: nat, x: nat) {
    x in runs && runs[x].IsRunning() && runs[x].link.schedule == Some(s)
  }

  predicate HasOpenRun(runs: Runs, s: nat) {
    exists x :: x in runs && IsOpenOf(runs, s, x)
  }

  /** A schedule holds an instant back exactly when one of its triggers is buffered, and for that instant. */
  ghost predicate BuffersOk(schedules: Schedules, triggers: Triggers) {
    (forall k :: k in triggers ==> k.schedule in schedules && (triggers[k].Buffered? ==> schedules[k.schedule].bufferedFor == Some(k.instant))) &&
    forall s :: s in schedules && schedules[s].bufferedFor.Some? ==>
      schedules[s].policy.BufferOne? && Key(s, schedules[s].bufferedFor.value) in triggers &&
      triggers[Key(s, schedules[s].bufferedFor.value)].Buffered?
  }

  /** A started trigger owns the first run of a chain of its schedule, and no other trigger owns it. */
  ghost predicate OwnersOk(triggers: Triggers, runs: Runs) {
    (forall k :: k in triggers && triggers[k].StartedRun? ==> IsFirstOf(runs, triggers[k].run, k.schedule)) &&
    (forall k, l :: k in triggers && l in triggers && triggers[k].StartedRun? && triggers[k] == triggers[l] ==> k == l) &&
    forall x {:trigger IsOwned(triggers, x)} :: x in runs && runs[x].link.schedule.Some? && runs[x].link.index == 0 ==> IsOwned(triggers, x)
  }

  predicate IsFirstOf(runs: Runs, x: nat, s: nat) {
    x in runs && runs[x].link.schedule == Some(s) && runs[x].link.index == 0
  }

  ghost predicate IsOwned(triggers: Triggers, x: nat) {
    exists k :: k in triggers && triggers[k] == StartedRun(x)
  }

  /** A schedule that forbids overlaps has one open run at most. */
  ghost predicate OneOpenRun(schedules: Schedules, runs: Runs) {
    forall s, x, y {:trigger IsOpenOf(runs, s, x), IsOpenOf(runs, s, y)} ::
      s in schedules && !schedules[s].policy.AllowAll? && IsOpenOf(runs, s, x) && IsOpenOf(runs, s, y) ==> x == y
  }

  /** The link of a run that runs what the schedule says. */
  predicate IsRunOf(link: Link, row: Schedule) {
    link.workflowType == row.workflowType && link.input == row.input && link.runTimeoutMs.None? && link.deadline.None?
  }

  /** Every started trigger's run is what its schedule says. */
  ghost predicate RunsAreOf(schedules: Schedules, triggers: Triggers, runs: Runs) {
    forall k :: k in triggers && triggers[k].StartedRun? ==>
      k.schedule in schedules && triggers[k].run in runs && IsRunOf(runs[triggers[k].run].link, schedules[k.schedule])
  }

  ghost predicate LedgerOk(schedules: Schedules, triggers: Triggers, runs: Runs) {
    BuffersOk(schedules, triggers) && OwnersOk(triggers, runs) && OneOpenRun(schedules, runs) && RunsAreOf(schedules, triggers, runs)
  }

  /** What is on the ledger stays, and only a buffered trigger still changes. */
  ghost predicate LedgerGrows(before: Triggers, after: Triggers) {
    forall k :: k in before ==> k in after && (after[k] == before[k] || (before[k].Buffered? && !after[k].Buffered?))
  }

  lemma GrowsOn(before: Triggers, mid: Triggers, after: Triggers)
    requires LedgerGrows(before, mid) && LedgerGrows(mid, after)
    ensures LedgerGrows(before, after)
  {
  }

  // ---- the runs in between ---------------------------------------------------------------------

  lemma OpenStands(run: Run)
    requires RunOk(run) && run.IsRunning()
    ensures Standing(run) == Running
  {
    hide Count, Fold, StepsAreKept, ResultsAreOutcomes, DecisionsAreRanges, TimersFireOnce, RowFollowsLog;
  }

  function RunsAfter(runs: Runs, x: nat): set<nat> {
    set z | z in runs && z > x
  }

  /** The last run of a chain: the one that did not continue as new. */
  lemma {:induction false} LastOfChain(runs: Runs, x: nat) returns (last: nat)
    requires ChainsOk(runs) && x in runs
    ensures last in runs && runs[last].link.first == runs[x].link.first && Standing(runs[last]) != RunState.ContinuedAsNew
    decreases RunsAfter(runs, x)
  {
    last := x;
    if Standing(runs[x]) == RunState.ContinuedAsNew {
      var next := NextInChain(runs, x);
      assert next in RunsAfter(runs, x) && next !in RunsAfter(runs, next) && RunsAfter(runs, next) <= RunsAfter(runs, x);
      last := LastOfChain(runs, next);
    }
  }

  lemma {:induction false} NextInChain(runs: Runs, x: nat) returns (next: nat)
    requires ChainsOk(runs) && x in runs && Standing(runs[x]) == RunState.ContinuedAsNew
    ensures next in runs && runs[next].link.first == runs[x].link.first && next > x
  {
    assert IsContinued(runs, x);
    next :| next in runs && runs[next].link.continuedFrom == Some(x);
    assert ChainLink(runs, next);
  }

  /** While other transactions move the runs on, a schedule's open run goes back to an open run of the same chain. */
  lemma {:induction false} OpenBefore(before: Runs, after: Runs, s: nat, x: nat) returns (y: nat)
    requires StoreOk(before) && StoreOk(after) && RunsAdvance(before, after) && IsOpenOf(after, s, x)
    ensures IsOpenOf(before, s, y) && y in after && after[y].link.first == after[x].link.first
  {
    var first := after[x].link.first;
    assert ChainLink(after, x);
    assert first in before;
    y := LastOfChain(before, first);
    assert ChainLink(after, y) && ChainLink(before, first);
    OpenStands(after[x]);
    assert Advances(before[y], after[y]);
    if !before[y].IsRunning() {
      OneEndPerChain(after, x, y);
    }
    hide RunOk, StaysClosed, Standing;
  }

  /**
   No transaction of the run store disturbs the ledger: runs close and continue as new, and
   a schedule that forbids overlaps still has one open run at most.
   */
  lemma {:induction false} RunsMoveOn(schedules: Schedules, triggers: Triggers, before: Runs, after: Runs)
    requires LedgerOk(schedules, triggers, before) && StoreOk(before) && StoreOk(after) && RunsAdvance(before, after)
    ensures LedgerOk(schedules, triggers, after)
  {
    forall s, x1, x2 | s in schedules && !schedules[s].policy.AllowAll? && IsOpenOf(after, s, x1) && IsOpenOf(after, s, x2)
      ensures x1 == x2
    {
      var y1 := OpenBefore(before, after, s, x1);
      var y2 := OpenBefore(before, after, s, x2);
      assert y1 == y2;
      OpenStands(after[x1]);
      OpenStands(after[x2]);
      OneEndPerChain(after, x1, x2);
    }
    hide StoreOk, RunsAdvance, OneOpenRun, RunsAreOf;
    assert OwnersOk(triggers, after) by { OwnersStay(triggers, before, after); }
    RunsStayOf(schedules, triggers, before, after);
  }

  lemma {:induction false} RunsStayOf(schedules: Schedules, triggers: Triggers, before: Runs, after: Runs)
    requires RunsAreOf(schedules, triggers, before) && RunsAdvance(before, after)
    ensures RunsAreOf(schedules, triggers, after)
  {
    hide Advances, IsRunOf;
  }

  lemma {:induction false} OwnersStay(triggers: Triggers, before: Runs, after: Runs)
    requires OwnersOk(triggers, before) && RunsAdvance(before, after)
    ensures OwnersOk(triggers, after)
  {
    forall k | k in triggers && triggers[k].StartedRun?
      ensures IsFirstOf(after, triggers[k].run, k.schedule)
    {
      assert IsFirstOf(before, triggers[k].run, k.schedule);
    }
    hide IsOwned;
    forall x | x in after && after[x].link.schedule.Some? && after[x].link.index == 0
      ensures IsOwned(triggers, x)
    {
      assert x in before && IsOwned(triggers, x);
    }
  }

  // ---- starting and holding back -----------------------------------------------------------------

  /** A run of its own is started for a schedule, by its type and with its input. */
  ghost predicate IsStart(before: Runs, after: Runs, s: nat, row: Schedule, id: nat) {
    id !in before && after.Keys == before.Keys + {id} && after[id].IsRunning() && after[id].link.schedule == Some(s) &&
    after[id].link.index == 0 && IsRunOf(after[id].link, row) && (forall x :: x in before ==> after[x] == before[x]) &&
    |after[id].log| == 1 && after[id].log[0].event == RunStarted(row.workflowType, row.input)
  }

  /** What a started trigger's run began with, as its log says: the type and the input of the schedule. */
  lemma {:induction false} RunsWhatTheScheduleSays(schedules: Schedules, triggers: Triggers, runs: Runs, k: Key)
    requires LedgerOk(schedules, triggers, runs) && StoreOk(runs) && k in triggers && triggers[k].StartedRun?
    ensures k.schedule in schedules && triggers[k].run in runs && runs[triggers[k].run].log != []
    ensures runs[triggers[k].run].log[0].event == RunStarted(schedules[k.schedule].workflowType, schedules[k.schedule].input)
    ensures runs[triggers[k].run].link.schedule == Some(k.schedule) && runs[triggers[k].run].link.index == 0
  {
    hide StoreOk, RunOk, BuffersOk, OneOpenRun;
    assert IsFirstOf(runs, triggers[k].run, k.schedule);
    StoredIsOk(runs, triggers[k].run);
    BegunAsLinked(runs[triggers[k].run]);
  }

  lemma BegunAsLinked(run: Run)
    requires RunOk(run)
    ensures BeginsAsLinked(run)
  {
    hide Count, Fold, StepsAreKept, ResultsAreOutcomes, DecisionsAreRanges, TimersFireOnce, RowFollowsLog, TimersAreKept;
  }

  lemma {:induction false} StartKeepsRuns(schedules: Schedules, triggers: Triggers, before: Runs, after: Runs, k: Key, id: nat)
    requires RunsAreOf(schedules, triggers, before) && k.schedule in schedules && IsStart(before, after, k.schedule, schedules[k.schedule], id)
    ensures RunsAreOf(schedules, triggers[k := StartedRun(id)], after)
  {
    hide IsRunOf;
  }

  lemma {:induction false} RowsKeepRuns(schedules: Schedules, triggers: Triggers, runs: Runs, s: nat, row: Schedule)
    requires RunsAreOf(schedules, triggers, runs) && s in schedules
    requires row.workflowType == schedules[s].workflowType && row.input == schedules[s].input
    ensures RunsAreOf(schedules[s := row], triggers, runs)
  {
  }

  lemma {:induction false} NotStartedKeepsRuns(schedules: Schedules, triggers: Triggers, runs: Runs, k: Key, outcome: TriggerOutcome)
    requires RunsAreOf(schedules, triggers, runs) && !outcome.StartedRun?
    ensures RunsAreOf(schedules, triggers[k := outcome], runs)
  {
    hide IsRunOf;
  }

  lemma {:induction false} StartKeepsOwners(triggers: Triggers, before: Runs, after: Runs, k: Key, row: Schedule, id: nat)
    requires OwnersOk(triggers, before) && IsStart(before, after, k.schedule, row, id)
    requires k in triggers ==> !triggers[k].StartedRun?
    ensures OwnersOk(triggers[k := StartedRun(id)], after)
  {
    var ledger := triggers[k := StartedRun(id)];
    forall l | l in ledger && ledger[l].StartedRun?
      ensures IsFirstOf(after, ledger[l].run, l.schedule)
      ensures l != k ==> ledger[l].run != id
    {
      if l != k {
        assert IsFirstOf(before, triggers[l].run, l.schedule);
      }
    }
    forall x | x in after && after[x].link.schedule.Some? && after[x].link.index == 0
      ensures IsOwned(ledger, x)
    {
      if x == id {
        assert ledger[k] == StartedRun(x);
      } else {
        assert IsOwned(triggers, x);
        var l :| l in triggers && triggers[l] == StartedRun(x);
        assert ledger[l] == StartedRun(x);
      }
    }
  }

  lemma {:induction false} StartKeepsOneOpen(schedules: Schedules, before: Runs, after: Runs, s: nat, id: nat)
    requires OneOpenRun(schedules, before) && s in schedules && IsStart(before, after, s, schedules[s], id)
    requires schedules[s].policy.AllowAll? || !HasOpenRun(before, s)
    ensures OneOpenRun(schedules, after)
  {
    forall t, x, y | t in schedules && !schedules[t].policy.AllowAll? && IsOpenOf(after, t, x) && IsOpenOf(after, t, y)
      ensures x == y
    {
      assert x != id ==> IsOpenOf(before, t, x);
      assert y != id ==> IsOpenOf(before, t, y);
    }
  }

  /** An unheard-of instant is started. */
  lemma {:induction false} StartedIsOk(schedules: Schedules, triggers: Triggers, before: Runs, after: Runs, k: Key, id: nat)
    requires LedgerOk(schedules, triggers, before) && k.schedule in schedules && k !in triggers
    requires IsStart(before, after, k.schedule, schedules[k.schedule], id)
    requires schedules[k.schedule].policy.AllowAll? || !HasOpenRun(before, k.schedule)
    ensures LedgerOk(schedules, triggers[k := StartedRun(id)], after) && LedgerGrows(triggers, triggers[k := StartedRun(id)])
  {
    StartKeepsOwners(triggers, before, after, k, schedules[k.schedule], id);
    StartKeepsOneOpen(schedules, before, after, k.schedule, id);
    StartKeepsRuns(schedules, triggers, before, after, k, id);
    hide OwnersOk, OneOpenRun, RunsAreOf;
  }

  /** The instant held back is started. */
  lemma {:induction false} DrainedIsOk(schedules: Schedules, triggers: Triggers, before: Runs, after: Runs, s: nat, id: nat)
    requires LedgerOk(schedules, triggers, before) && s in schedules && schedules[s].bufferedFor.Some?
    requires IsStart(before, after, s, schedules[s], id) && !HasOpenRun(before, s)
    ensures var k := Key(s, schedules[s].bufferedFor.value);
            k in triggers && triggers[k].Buffered? && LedgerGrows(triggers, triggers[k := StartedRun(id)]) &&
            LedgerOk(schedules[s := schedules[s].(bufferedFor := None)], triggers[k := StartedRun(id)], after)
  {
    var k := Key(s, schedules[s].bufferedFor.value);
    StartKeepsOwners(triggers, before, after, k, schedules[s], id);
    StartKeepsOneOpen(schedules, before, after, s, id);
    RowsKeepOneOpen(schedules, after, s, schedules[s].(bufferedFor := None));
    StartKeepsRuns(schedules, triggers, before, after, k, id);
    RowsKeepRuns(schedules, triggers[k := StartedRun(id)], after, s, schedules[s].(bufferedFor := None));
    hide OwnersOk, OneOpenRun, RunsAreOf;
  }

  lemma {:induction false} RowsKeepOneOpen(schedules: Schedules, runs: Runs, s: nat, row: Schedule)
    requires OneOpenRun(schedules, runs) && s in schedules && row.policy == schedules[s].policy
    ensures OneOpenRun(schedules[s := row], runs)
  {
    hide IsOpenOf;
  }

  /** An instant comes on the ledger without a run. */
  lemma {:induction false} NotStartedKeepsOwners(triggers: Triggers, runs: Runs, k: Key, outcome: TriggerOutcome)
    requires OwnersOk(triggers, runs) && !outcome.StartedRun? && (k in triggers ==> !triggers[k].StartedRun?)
    ensures OwnersOk(triggers[k := outcome], runs)
  {
    var ledger := triggers[k := outcome];
    forall x | x in runs && runs[x].link.schedule.Some? && runs[x].link.index == 0
      ensures IsOwned(ledger, x)
    {
      assert IsOwned(triggers, x);
      var l :| l in triggers && triggers[l] == StartedRun(x);
      assert ledger[l] == StartedRun(x);
    }
    hide IsOwned;
  }

  lemma {:induction false} SkippedIsOk(schedules: Schedules, triggers: Triggers, runs: Runs, k: Key)
    requires LedgerOk(schedules, triggers, runs) && k.schedule in schedules && k !in triggers
    ensures LedgerOk(schedules, triggers[k := Skipped], runs) && LedgerGrows(triggers, triggers[k := Skipped])
  {
    NotStartedKeepsOwners(triggers, runs, k, Skipped);
    NotStartedKeepsRuns(schedules, triggers, runs, k, Skipped);
    hide OwnersOk, OneOpenRun, RunsAreOf;
  }

  /** The ledger after an instant is held back: the one held back before is skipped. */
  function HeldBack(schedules: Schedules, triggers: Triggers, k: Key): Triggers
    requires k.schedule in schedules
  {
    var replaced := schedules[k.schedule].bufferedFor;
    (if replaced.Some? then triggers[Key(k.schedule, replaced.value) := Skipped] else triggers)[k := Buffered]
  }

  lemma {:induction false} HeldBackKeepsOwners(schedules: Schedules, triggers: Triggers, runs: Runs, k: Key)
    requires BuffersOk(schedules, triggers) && OwnersOk(triggers, runs) && k.schedule in schedules && k !in triggers
    ensures OwnersOk(HeldBack(schedules, triggers, k), runs)
  {
    var replaced := schedules[k.schedule].bufferedFor;
    if replaced.Some? {
      NotStartedKeepsOwners(triggers, runs, Key(k.schedule, replaced.value), Skipped);
      NotStartedKeepsOwners(triggers[Key(k.schedule, replaced.value) := Skipped], runs, k, Buffered);
    } else {
      NotStartedKeepsOwners(triggers, runs, k, Buffered);
    }
    hide OwnersOk;
  }

  lemma {:induction false} HeldBackKeepsBuffers(schedules: Schedules, triggers: Triggers, k: Key)
    requires BuffersOk(schedules, triggers) && k.schedule in schedules && k !in triggers && schedules[k.schedule].policy.BufferOne?
    ensures BuffersOk(schedules[k.schedule := schedules[k.schedule].(bufferedFor := Some(k.instant))], HeldBack(schedules, triggers, k))
    ensures LedgerGrows(triggers, HeldBack(schedules, triggers, k))
  {
  }

  lemma {:induction false} HeldBackKeepsRuns(schedules: Schedules, triggers: Triggers, runs: Runs, k: Key)
    requires RunsAreOf(schedules, triggers, runs) && k.schedule in schedules
    ensures RunsAreOf(schedules, HeldBack(schedules, triggers, k), runs)
  {
    hide IsRunOf;
  }

  lemma {:induction false} HeldBackIsOk(schedules: Schedules, triggers: Triggers, runs: Runs, k: Key)
    requires LedgerOk(schedules, triggers, runs) && k.schedule in schedules && k !in triggers
    requires schedules[k.schedule].policy.BufferOne?
    ensures var row := schedules[k.schedule].(bufferedFor := Some(k.instant));
            LedgerOk(schedules[k.schedule := row], HeldBack(schedules, triggers, k), runs) &&
            LedgerGrows(triggers, HeldBack(schedules, triggers, k))
  {
    var row := schedules[k.schedule].(bufferedFor := Some(k.instant));
    RowsKeepOneOpen(schedules, runs, k.schedule, row);
    HeldBackKeepsOwners(schedules, triggers, runs, k);
    HeldBackKeepsBuffers(schedules, triggers, k);
    HeldBackKeepsRuns(schedules, triggers, runs, k);
    RowsKeepRuns(schedules, HeldBack(schedules, triggers, k), runs, k.schedule, row);
    hide BuffersOk, OwnersOk, OneOpenRun, RunsAreOf, HeldBack, LedgerGrows;
  }

  /** Changes of a schedule's row that the ledger does not look at. */
  lemma {:induction false} RowIsOk(schedules: Schedules, triggers: Triggers, runs: Runs, s: nat, row: Schedule)
    requires LedgerOk(schedules, triggers, runs) && s in schedules
    requires row.policy == schedules[s].policy && row.bufferedFor == schedules[s].bufferedFor
    requires row.workflowType == schedules[s].workflowType && row.input == schedules[s].input
    ensures LedgerOk(schedules[s := row], triggers, runs)
  {
    RowsKeepOneOpen(schedules, runs, s, row);
    RowsKeepRuns(schedules, triggers, runs, s, row);
    hide OwnersOk, OneOpenRun, RunsAreOf;
  }

  /** A run of a schedule goes back to a trigger of it. */
  lemma {:induction false} ScheduleOfRun(schedules: Schedules, triggers: Triggers, runs: Runs, x: nat)
    requires BuffersOk(schedules, triggers) && OwnersOk(triggers, runs) && StoreOk(runs) && x in runs && runs[x].link.schedule.Some?
    ensures runs[x].link.schedule.value in schedules
  {
    assert ChainLink(runs, x);
    var first := runs[x].link.first;
    assert IsOwned(triggers, first);
    var k :| k in triggers && triggers[k] == StartedRun(first);
    assert IsFirstOf(runs, first, k.schedule);
    hide StoreOk;
  }

  /** A schedule that is not there has no runs, so adding it disturbs nothing. */
  lemma {:induction false} NewScheduleIsOk(schedules: Schedules, triggers: Triggers, runs: Runs, s: nat, row: Schedule)
    requires LedgerOk(schedules, triggers, runs) && StoreOk(runs) && s !in schedules && row.bufferedFor.None?
    ensures LedgerOk(schedules[s := row], triggers, runs)
  {
    forall x | x in runs
      ensures !IsOpenOf(runs, s, x)
    {
      if runs[x].link.schedule.Some? {
        ScheduleOfRun(schedules, triggers, runs, x);
      }
    }
    hide OwnersOk, StoreOk, IsRunOf;
  }

  /** Of every schedule at most one trigger is buffered: the one for the instant held back. */
  lemma {:induction false} OneBufferedTrigger(schedules: Schedules, triggers: Triggers, s: nat, instant: int)
    requires BuffersOk(schedules, triggers) && s in schedules
    ensures (Key(s, instant) in triggers && triggers[Key(s, instant)].Buffered?) <==> schedules[s].bufferedFor == Some(instant)
  {
    var k := Key(s, instant);
    if k in triggers && triggers[k].Buffered? {
      assert k.schedule in schedules;
    }
  }
}
