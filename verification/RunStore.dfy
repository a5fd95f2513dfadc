/**
 The transactions of the run store. Each method is one transaction, atomic under the
 run's row lock; in whatever order they come, `Valid` holds after each of them.
 */
module RunStores {
  import opened WorkflowTypes
  import opened Projections
  import opened RunTables
  import opened CloseCascade
  import opened RunFacts
  import opened FamilyTree
  import opened FamilyOutcomes
  import opened RunProgress

  // ---- what a decision does to its own run ------------------------------------------

  function Scheduled(run: Run, stepId: nat, event: Event, now: int): Run {
    var appended := run.Append(event, now);
    if HasTask(run.tasks, stepId) then appended else appended.Enqueue(StepTask(stepId))
  }

  lemma {:induction false} SchedulingKeepsOk(run: Run, stepId: nat, event: Event, now: int)
    requires RunOk(run) && run.IsRunning() && event.StepScheduled? && event.stepId == stepId
    ensures RunOk(Scheduled(run, stepId, event, now))
  {
    var appended := run.Append(event, now);
    var after := Scheduled(run, stepId, event, now);
    ScheduledIsAppended(run, stepId, event, now);
    EnqueueKeepsSound(run, StepTask(stepId));
    assert HasTask(after.tasks, stepId) && forall id :: HasTask(run.tasks, id) ==> HasTask(after.tasks, id);
    ScheduledStepsAreKept(run, stepId, event, now);
    assert ClosedMeansClosed(after) by { assert !IsClosing(event); }
    ScheduledStartsNoTimer(run, stepId, event, now);
    TimersStay(run, after);
    hide Count, Fold, HasTask, IsRangeOf, StepsAreKept, Numbered, ResultsAreOutcomes, DecisionsAreRanges, RowFollowsLog,
         TimersFireOnce, Scheduled, ClosedMeansClosed, TimersAreKept, BeginsAsLinked, KeepsTimers;
  }

  lemma ScheduledStartsNoTimer(run: Run, stepId: nat, event: Event, now: int)
    requires event.StepScheduled?
    ensures KeepsTimers(run, Scheduled(run, stepId, event, now))
  {
    hide HasTask;
  }

  /** A result stands in the log and the table; other events leave both as they were. */
  lemma {:induction false} ResultsStay(run: Run, event: Event, now: int)
    requires ResultsAreOutcomes(run) && TimersFireOnce(run) && Count(run.log, CancelWish) <= 1
    requires TopicOf(event).None? && ResultOf(event).None?
    ensures ResultsAreOutcomes(run.Append(event, now)) && TimersFireOnce(run.Append(event, now))
    ensures Count(run.Append(event, now).log, CancelWish) <= 1
  {
    CountAppend(run, event, now);
    hide Count;
  }

  /** Which predicates look at a run's tasks: only `StepsAreKept`. */
  lemma {:induction false} TasksOnly(run: Run, other: Run)
    requires other == run.(tasks := other.tasks)
    requires RowFollowsLog(run) && ResultsAreOutcomes(run) && DecisionsAreRanges(run) && TimersFireOnce(run)
    ensures RowFollowsLog(other) && ResultsAreOutcomes(other) && DecisionsAreRanges(other) && TimersFireOnce(other)
  {
    hide Count, Fold, IsRangeOf;
  }

  /** All but the steps looks only at what appending leaves the same. */
  lemma {:induction false} ScheduledIsAppended(run: Run, stepId: nat, event: Event, now: int)
    requires RunOk(run) && event.StepScheduled?
    ensures var after := Scheduled(run, stepId, event, now);
            Numbered(after.log) && RowFollowsLog(after) && ResultsAreOutcomes(after) && DecisionsAreRanges(after) &&
            TimersFireOnce(after) && Count(after.log, CancelWish) <= 1
  {
    var appended := run.Append(event, now);
    AppendKeepsRanges(run, event, now);
    AppendKeepsFold(run, event, now);
    ResultsStay(run, event, now);
    TasksOnly(appended, Scheduled(run, stepId, event, now));
    hide Count, HasTask, StepsAreKept, ResultsAreOutcomes, TimersFireOnce, DecisionsAreRanges, RowFollowsLog, Numbered;
  }

  lemma {:induction false} ScheduledStepsAreKept(run: Run, stepId: nat, event: Event, now: int)
    requires StepsAreKept(run) && event.StepScheduled? && event.stepId == stepId
    requires HasTask(Scheduled(run, stepId, event, now).tasks, stepId)
    requires forall id :: HasTask(run.tasks, id) ==> HasTask(Scheduled(run, stepId, event, now).tasks, id)
    ensures StepsAreKept(Scheduled(run, stepId, event, now))
  {
    hide HasTask;
  }

  function WithTimer(run: Run, key: TimerKey, fireAt: int): Run {
    if key in run.timers then run else run.(timers := run.timers[key := Timer(fireAt, TimerPending)])
  }

  /** A timer is started: its row is there, due when it was first started to be. */
  lemma {:induction false} StartingKeepsOk(run: Run, event: Event, now: int)
    requires RunOk(run) && run.IsRunning() && event.TimerStarted?
    ensures RunOk(WithTimer(run.Append(event, now), WorkflowTimer(event.timerId), event.fireAt))
  {
    var appended := run.Append(event, now);
    var after := WithTimer(appended, WorkflowTimer(event.timerId), event.fireAt);
    AppendKeepsRanges(run, event, now);
    AppendKeepsFold(run, event, now);
    CountAppend(run, event, now);
    StepsStay(run, event, now);
    TableOnly(appended, after);
    StartedFiresOnce(run, event, now);
    StartedIsKept(run, event, now);
    assert ClosedMeansClosed(after) by { assert !IsClosing(event); }
    hide Count, Fold, IsRangeOf, HasTask, StepsAreKept, ResultsAreOutcomes, DecisionsAreRanges, RowFollowsLog, TimersFireOnce, TimersAreKept,
         ClosedMeansClosed;
  }

  lemma {:induction false} StartedFiresOnce(run: Run, event: Event, now: int)
    requires TimersFireOnce(run) && event.TimerStarted?
    ensures TimersFireOnce(WithTimer(run.Append(event, now), WorkflowTimer(event.timerId), event.fireAt))
  {
    CountAppend(run, event, now);
    hide Count;
  }

  lemma {:induction false} StartedIsKept(run: Run, event: Event, now: int)
    requires TimersAreKept(run) && event.TimerStarted?
    ensures TimersAreKept(WithTimer(run.Append(event, now), WorkflowTimer(event.timerId), event.fireAt))
  {
    var appended := run.Append(event, now);
    var after := WithTimer(appended, WorkflowTimer(event.timerId), event.fireAt);
    forall timerId: nat
      ensures TimerIsKept(after, timerId)
    {
      assert TimerIsKept(run, timerId) && TimerIsKept(run, event.timerId);
      assert appended.log[..|appended.log| - 1] == run.log;
    }
  }

  /** A timer that will not fire any more. */
  lemma {:induction false} CancellingKeepsOk(run: Run, key: TimerKey, at: int)
    requires RunOk(run) && !run.IsRunning() && key in run.timers && !run.timers[key].state.TimerFiredAt?
    ensures RunOk(run.(timers := run.timers[key := run.timers[key].(state := TimerCancelledAt(at))]))
  {
    TableOnly(run, run.(timers := run.timers[key := run.timers[key].(state := TimerCancelledAt(at))]));
    TimersStay(run, run.(timers := run.timers[key := run.timers[key].(state := TimerCancelledAt(at))]));
    hide TimersAreKept, Count, Fold, IsRangeOf, HasTask, StepsAreKept, ResultsAreOutcomes, DecisionsAreRanges, RowFollowsLog;
  }

  /** The timer of a limit that closed its run. */
  lemma {:induction false} LimitFiringKeepsOk(run: Run, key: TimerKey, at: int)
    requires RunOk(run) && key in run.timers && !key.WorkflowTimer? && run.timers[key].fireAt <= at
    ensures RunOk(run.(timers := run.timers[key := run.timers[key].(state := TimerFiredAt(at))]))
  {
    TableOnly(run, run.(timers := run.timers[key := run.timers[key].(state := TimerFiredAt(at))]));
    TimersStay(run, run.(timers := run.timers[key := run.timers[key].(state := TimerFiredAt(at))]));
    hide TimersAreKept, Count, Fold, IsRangeOf, HasTask, StepsAreKept, ResultsAreOutcomes, DecisionsAreRanges, RowFollowsLog;
  }

  function WithTimerState(run: Run, key: TimerKey, state: TimerState): Run
    requires key in run.timers
  {
    run.(timers := run.timers[key := run.timers[key].(state := state)])
  }

  lemma {:induction false} StoredIsOk(runs: Runs, r: nat)
    requires StoreOk(runs) && r in runs
    ensures RunOk(runs[r])
  {
  }

  /** A recorded decision, at the end of the log, is a new range apart from the others. */
  lemma {:induction false} DecisionKeepsOk(run: Run, key: nat, row: DecisionRow)
    requires RunOk(run) && key !in run.decisions && IsRangeOf(row, run.log)
    requires forall k :: k in run.decisions ==> run.decisions[k].last < row.first
    ensures RunOk(run.(decisions := run.decisions[key := row]))
  {
    var after := run.(decisions := run.decisions[key := row]);
    TimersStay(run, after);
    RangesWith(run, key, row);
    hide Count, Fold, HasTask, DecisionsAreRanges, TimersAreKept, BeginsAsLinked, KeepsTimers;
    assert StepsAreKept(after) && ResultsAreOutcomes(after) && TimersFireOnce(after) && RowFollowsLog(after);
  }

  lemma {:induction false} RangesWith(run: Run, key: nat, row: DecisionRow)
    requires DecisionsAreRanges(run) && key !in run.decisions && IsRangeOf(row, run.log)
    requires forall k :: k in run.decisions ==> run.decisions[k].last < row.first
    ensures DecisionsAreRanges(run.(decisions := run.decisions[key := row]))
  {
    hide IsRangeOf;
  }

  // ---- a closed run stays closed ------------------------------------------------------

  /** Once closed, a run keeps its row, results and decisions, and its log takes failed attempts at most. */
  ghost predicate StaysClosed(before: Run, after: Run) {
    !before.IsRunning() ==>
      after.row == before.row && after.link == before.link && after.results == before.results &&
      after.decisions == before.decisions && before.log <= after.log &&
      forall i :: |before.log| <= i < |after.log| ==> after.log[i].event.StepAttemptFailed?
  }

  /** What every transaction of the store keeps: closed runs stay closed, nothing is taken back, every run keeps its place. */
  ghost predicate RunsAdvance(before: Runs, after: Runs) {
    (forall x {:trigger Advances(before[x], after[x])} :: x in before && x in after ==> Advances(before[x], after[x])) &&
    PlacesStay(before, after)
  }

  ghost predicate Advances(before: Run, after: Run) {
    StaysClosed(before, after) && RunAdvances(before, after)
  }

  /** No run goes away or changes its links, and no new chain of a schedule begins. */
  ghost predicate PlacesStay(before: Runs, after: Runs) {
    before.Keys <= after.Keys && (forall x {:trigger after[x]} :: x in before ==> after[x].link == before[x].link) &&
    forall x {:trigger after[x]} :: x in after && x !in before ==> after[x].link.index > 0 || after[x].link.schedule.None?
  }

  /** Nothing that is closed is touched by a closing. */
  lemma {:induction false} ClosingSparesTheClosed(base: Runs, after: Runs, r: nat, now: int)
    requires r in base && base[r].IsRunning() && after.Keys == base.Keys
    requires forall x :: x in base ==> after[x] == After(base, r, x, now)
    ensures forall x :: x in base && !base[x].IsRunning() ==> after[x] == base[x]
    ensures PlacesStay(base, after)
  {
    forall x | x in base
      ensures after[x].link == base[x].link
    {
      FatedKeepsLink(FateOf(base, r, x), base[x], ChildKeyOf(base, r), base[r].Closed().row, now);
    }
    forall x | x in base && !base[x].IsRunning()
      ensures after[x] == base[x]
    {
      assert FateOf(base, r, x) in {IsTold, Stays};
      hide FateOf, Run.Closed, ChildKeyOf;
    }
  }

  /** The run that closes was open before: the others are as they were, or closed with it. */
  lemma {:induction false} ClosingStays(before: Runs, closing: Run, after: Runs, r: nat)
    requires r in before && before[r].IsRunning() && closing.link == before[r].link && PlacesStay(before[r := closing], after)
    requires forall x :: x in before && x != r && !before[x].IsRunning() ==> after[x] == before[x]
    requires RunAdvances(before[r], closing) && after.Keys == before.Keys
    requires forall x :: x in before ==> RunAdvances(before[r := closing][x], after[x])
    ensures RunsAdvance(before, after)
  {
    var base := before[r := closing];
    assert forall x :: x in before ==> after[x].link == base[x].link;
    hide RunAdvances;
    AdvancesOn(before[r], closing, after[r]);
    forall x | x in before && x in after
      ensures Advances(before[x], after[x])
    {
      Unmoved(before[x]);
      assert x != r ==> base[x] == before[x];
    }
  }

  /** Writing one run leaves the others alone. */
  lemma {:induction false} WritingStays(before: Runs, r: nat, run: Run)
    requires r in before && run.link == before[r].link && Advances(before[r], run)
    ensures RunsAdvance(before, before[r := run])
  {
    hide Advances;
    forall x | x in before && x != r
      ensures Advances(before[x], before[x])
    {
      Unmoved(before[x]);
    }
  }

  lemma PlacesOfWrite(before: Runs, r: nat, run: Run)
    requires r in before && run.link == before[r].link
    ensures PlacesStay(before, before[r := run]) && SameLinks(before, before[r := run])
  {
  }

  lemma PlacesStayPut(runs: Runs)
    ensures PlacesStay(runs, runs)
  {
  }

  lemma PlacesOfNew(before: Runs, id: nat, run: Run)
    requires id !in before && (run.link.index > 0 || run.link.schedule.None?)
    ensures PlacesStay(before, before[id := run])
  {
  }

  lemma Unmoved(run: Run)
    ensures Advances(run, run)
  {
  }

  /** Nothing moved. */
  lemma {:induction false} NothingMoved(runs: Runs)
    ensures RunsAdvance(runs, runs)
  {
    forall x | x in runs
      ensures Advances(runs[x], runs[x])
    {
      Unmoved(runs[x]);
    }
    hide Advances;
  }

  /** An open run moved on, or a run without a schedule was added. */
  lemma {:induction false} OpenRunMoved(before: Runs, r: nat, run: Run)
    requires if r in before then before[r].IsRunning() && run.link == before[r].link && RunAdvances(before[r], run)
             else run.link.schedule.None?
    ensures RunsAdvance(before, before[r := run])
  {
    if r in before {
      hide RunAdvances;
      WritingStays(before, r, run);
    } else {
      PlacesOfNew(before, r, run);
      NothingMoved(before);
      hide Advances, PlacesStay;
    }
  }

  /** An open run moved on, and others were added. */
  lemma {:induction false} OneRunMoved(before: Runs, after: Runs, r: nat)
    requires r in before && before[r].IsRunning() && PlacesStay(before, after) && RunAdvances(before[r], after[r])
    requires forall x :: x in before && x != r ==> after[x] == before[x]
    ensures RunsAdvance(before, after)
  {
    hide RunAdvances;
    forall x | x in before && x in after
      ensures Advances(before[x], after[x])
    {
      Unmoved(before[x]);
    }
  }

  lemma TablesAdvance(before: Run, after: Run)
    requires after.tasks == before.tasks && after.results == before.results && after.row == before.row
    ensures RunAdvances(before, after)
  {
  }

  lemma {:induction false} CommandAdvances(run: Run, command: Command, now: int)
    ensures RunAdvances(run, WithCommand(run, command, now))
  {
    hide HasTask, CommandToEvent;
  }

  /** A whole recorded decision takes nothing back. */
  lemma {:induction false} DecisionAdvances(run: Run, commands: seq<Command>, now: int)
    ensures RunAdvances(run, WithCommands(run, commands, now))
    decreases |commands|
  {
    hide RunAdvances, WithCommand;
    if commands == [] {
      StandsStill(run);
    } else {
      var before := WithCommands(run, commands[..|commands| - 1], now);
      DecisionAdvances(run, commands[..|commands| - 1], now);
      CommandAdvances(before, commands[|commands| - 1], now);
      AdvancesOn(run, before, WithCommands(run, commands, now));
    }
  }

  lemma {:induction false} PlacesOnward(before: Runs, mid: Runs, after: Runs)
    requires PlacesStay(before, mid) && PlacesStay(mid, after)
    ensures PlacesStay(before, after)
  {
  }

  lemma {:induction false} ReadyToFinish(before: Runs, r: nat, closing: Run)
    requires r in before && ReadyToClose(before[r := closing], r)
    ensures var base: Runs := before[r := closing];
            IsForest(base) && OthersOpen(base, r) && IsTerminal(closing.Refreshed().row.state)
  {
    var base: Runs := before[r := closing];
    AllOthersOpen(base, r);
    ClosedRowFolds(closing);
    hide AboutToClose, OthersOpen, ClosingState;
  }

  /** A run about to close, after its closing: everything is in order. */
  lemma {:induction false} Finished(before: Runs, after: Runs, r: nat, closing: Run, now: int)
    requires r in before && before[r].IsRunning() && closing.link == before[r].link && ReadyToClose(before[r := closing], r)
    requires RunAdvances(before[r], closing)
    requires var base: Runs := before[r := closing]; after.Keys == base.Keys && forall x :: x in base ==> after[x] == After(base, r, x, now)
    ensures StoreOk(after) && IsForest(after) && RunsAdvance(before, after)
    ensures after[r].row.state == ClosingState(closing) && after[r].log == closing.log && after[r].decisions == closing.decisions &&
            after[r].timers == closing.timers && after[r].results == closing.results
  {
    var base: Runs := before[r := closing];
    ClosingKeepsFamilies(base, after, r, now);
    ClosedRowFolds(closing);
    ClosingSparesTheClosed(base, after, r, now);
    forall x | x in before
      ensures RunAdvances(base[x], after[x])
    {
      ClosingAdvances(base, r, x, now);
    }
    hide RunAdvances;
    ClosingStays(before, closing, after, r);
    AfterOfClosing(base, r, now);
    hide AboutToClose, After, ClosingState, RunsAdvance, PlacesStay, RunOk;
  }

  lemma {:induction false} AllOthersOpen(runs: Runs, r: nat)
    requires ReadyToClose(runs, r)
    ensures OthersOpen(runs, r)
  {
    forall x | x in runs && x != r && runs[x].IsRunning()
      ensures Open(runs[x])
    {
      OkIsOpen(runs[x]);
    }
  }

  /** Only one timer changed, and no run or timer came or went. */
  ghost predicate OneTimer(before: Runs, after: Runs, r: nat, key: TimerKey, state: TimerState)
    requires r in before && key in before[r].timers
  {
    before.Keys == after.Keys &&
    forall x {:trigger after[x]} :: x in before ==>
      after[x].timers == if x == r then before[r].timers[key := before[r].timers[key].(state := state)] else before[x].timers
  }

  lemma {:induction false} ClosingKeepsTimers(base: Runs, r: nat, x: nat, now: int)
    requires r in base && x in base
    ensures After(base, r, x, now).timers == base[x].timers
  {
    hide FateOf, Fold, Count, ChildOutcome, Run.Refreshed;
    RefreshedTimers(base[x]);
    RefreshedTimers(base[x].Append(RunTerminated(Some("parent run closed")), now));
  }

  lemma {:induction false} RefreshedTimers(run: Run)
    ensures run.Refreshed().timers == run.timers
  {
    hide Fold;
  }

  function LimitEvent(key: TimerKey): Event {
    RunTimedOut(if key.ExecutionTimeout? then ExecutionLimit else RunLimit)
  }

  /** The run closed at its limit, with its whole cascade, and the limit's timer is fired. */
  ghost predicate IsTimedOut(before: Runs, after: Runs, r: nat, key: TimerKey, now: int)
    requires r in before
  {
    var base := before[r := before[r].Append(LimitEvent(key), now)];
    after.Keys == before.Keys && (forall x {:trigger after[x]} :: x in before && x != r ==> after[x] == After(base, r, x, now)) &&
    key in After(base, r, r, now).timers && after[r] == WithTimerState(After(base, r, r, now), key, TimerFiredAt(now))
  }

  lemma {:induction false} TimedOutAtLimit(before: Runs, mid: Runs, after: Runs, r: nat, key: TimerKey, now: int)
    requires r in before && mid.Keys == before.Keys
    requires var base := before[r := before[r].Append(LimitEvent(key), now)]; forall x :: x in base ==> mid[x] == After(base, r, x, now)
    requires key in mid[r].timers && after == mid[r := WithTimerState(mid[r], key, TimerFiredAt(now))]
    ensures IsTimedOut(before, after, r, key, now)
  {
    hide After;
  }

  lemma {:induction false} TimersOfLimit(before: Runs, mid: Runs, after: Runs, r: nat, key: TimerKey, event: Event, now: int)
    requires r in before && key in before[r].timers && mid.Keys == before.Keys
    requires var base := before[r := before[r].Append(event, now)]; forall x :: x in base ==> mid[x] == After(base, r, x, now)
    requires key in mid[r].timers && after == mid[r := WithTimerState(mid[r], key, TimerFiredAt(now))]
    ensures OneTimer(before, after, r, key, TimerFiredAt(now))
  {
    hide After;
    var base := before[r := before[r].Append(event, now)];
    forall x | x in before
      ensures mid[x].timers == before[x].timers
    {
      ClosingKeepsTimers(base, r, x, now);
    }
  }

  /** What an open run's log and tasks gain when one of its timers fires: an event, and for a workflow timer a task that wakes it. */
  predicate IsFiredFor(before: Run, after: Run, key: TimerKey, now: int) {
    match key
    case WorkflowTimer(timerId) =>
      after.log == before.log + [StoredEvent(|before.log| + 1, TimerFired(timerId), now)] &&
      after.tasks == before.tasks + [Task(WorkflowTask, TaskPending)]
    case RunTimeout => after.log == before.log + [StoredEvent(|before.log| + 1, RunTimedOut(RunLimit), now)]
    case ExecutionTimeout => after.log == before.log + [StoredEvent(|before.log| + 1, RunTimedOut(ExecutionLimit), now)]
  }

  lemma FiredIsFiredFor(run: Run, key: TimerKey, now: int)
    requires key.WorkflowTimer? && key in run.timers
    ensures IsFiredFor(run, WithFired(run, key.timerId, now, now), key, now)
  {
  }

  lemma LimitIsFiredFor(before: Run, after: Run, key: TimerKey, now: int)
    requires !key.WorkflowTimer?
    requires after.log == before.log + [StoredEvent(|before.log| + 1, RunTimedOut(if key == ExecutionTimeout then ExecutionLimit else RunLimit), now)]
    ensures IsFiredFor(before, after, key, now)
  {
  }

  // ---- no timer is lost ------------------------------------------------------------------

  /** The event at `k` starts a timer no event before it started. */
  predicate IsFirstStart(log: seq<StoredEvent>, k: nat)
    requires k < |log|
  {
    log[k].event.TimerStarted? &&
    forall j :: 0 <= j < k && log[j].event.TimerStarted? ==> log[j].event.timerId != log[k].event.timerId
  }

  predicate HasFired(log: seq<StoredEvent>, timerId: nat) {
    exists j :: 0 <= j < |log| && log[j].event == TimerFired(timerId)
  }

  lemma {:induction false} FirstStartIs(log: seq<StoredEvent>, k: nat, count: nat)
    requires k < count <= |log| && log[k].event.TimerStarted?
    ensures FirstStart(log[..count], log[k].event.timerId).Some?
    ensures IsFirstStart(log, k) ==> FirstStart(log[..count], log[k].event.timerId) == Some(log[k].event.fireAt)
    decreases count
  {
    var timerId := log[k].event.timerId;
    assert log[..count][..count - 1] == log[..count - 1];
    if count > k + 1 {
      FirstStartIs(log, k, count - 1);
    } else if IsFirstStart(log, k) {
      NotStartedYet(log, k, timerId);
    }
  }

  lemma {:induction false} NotStartedYet(log: seq<StoredEvent>, count: nat, timerId: nat)
    requires count <= |log| && forall j :: 0 <= j < count && log[j].event.TimerStarted? ==> log[j].event.timerId != timerId
    ensures FirstStart(log[..count], timerId).None?
  {
    if count > 0 {
      assert log[..count][..count - 1] == log[..count - 1];
      NotStartedYet(log, count - 1, timerId);
    }
  }

  /** A timer the log starts at `k` has its row: due when first started to be, and pending while the run is open and it has not fired. */
  predicate TimerStands(run: Run, k: nat)
    requires k < |run.log| && run.log[k].event.TimerStarted?
  {
    var key := WorkflowTimer(run.log[k].event.timerId);
    key in run.timers && (IsFirstStart(run.log, k) ==> run.timers[key].fireAt == run.log[k].event.fireAt) &&
    (run.IsRunning() && !HasFired(run.log, run.log[k].event.timerId) ==> run.timers[key].state.TimerPending?)
  }

  /** Whatever transactions there were, no timer that a run recorded is lost. */
  lemma {:induction false} NoTimerIsLost(runs: Runs, r: nat, k: nat)
    requires StoreOk(runs) && r in runs && k < |runs[r].log| && runs[r].log[k].event.TimerStarted?
    ensures TimerStands(runs[r], k)
  {
    StoredIsOk(runs, r);
    RunKeepsTimer(runs[r], k);
    hide StoreOk, RunOk;
  }

  lemma {:induction false} RunKeepsTimer(run: Run, k: nat)
    requires RunOk(run) && k < |run.log| && run.log[k].event.TimerStarted?
    ensures TimerStands(run, k)
  {
    var timerId := run.log[k].event.timerId;
    assert TimerIsKept(run, timerId);
    FirstStartIs(run.log, k, |run.log|);
    assert run.log[..|run.log|] == run.log;
    CountMeansThere(run.log, TimerEnd(timerId));
    assert forall i :: 0 <= i < |run.log| ==> (TopicOf(run.log[i].event) == Some(TimerEnd(timerId)) <==> run.log[i].event == TimerFired(timerId));
    hide Count, TopicOf, FirstStart, ResultsAreOutcomes, DecisionsAreRanges, StepsAreKept, RowFollowsLog, ClosedMeansClosed, IsFirstStart;
  }

  /** Every timer a recorded decision starts is recorded where the decision is, and stands. */
  ghost predicate TimersStand(run: Run, start: nat, commands: seq<Command>) {
    forall i :: 0 <= i < |commands| && commands[i].StartTimer? ==>
      start + i < |run.log| && TimerIsRecorded(run, start + i, commands[i])
  }

  predicate TimerIsRecorded(run: Run, k: nat, command: Command)
    requires k < |run.log| && command.StartTimer?
  {
    run.log[k].event == TimerStarted(command.timerId, command.fireAt, Some(command.durationMs)) && TimerStands(run, k)
  }

  /** A run ends as the last command of its decision says, or goes on. */
  predicate EndsAs(run: Run, commands: seq<Command>) {
    if commands == [] then run.IsRunning()
    else match commands[|commands| - 1]
      case CompleteRun(result) => run.row.state == RunState.Completed && run.row.result == result
      case FailRun(error) => run.row.state == RunState.Failed && run.row.error == Some(error)
      case ContinueAsNew(_) => run.row.state == RunState.ContinuedAsNew
      case _ => run.IsRunning()
  }

  /** The log from `start` on is the decision: every event reads back as its command. */
  predicate ReadsBack(log: seq<StoredEvent>, start: nat, commands: seq<Command>) {
    |log| == start + |commands| && forall i :: 0 <= i < |commands| ==> CommandIn(log[start + i].event) == Some(commands[i])
  }

  lemma {:induction false} RecordedReadsBack(log: seq<StoredEvent>, start: nat, commands: seq<Command>)
    requires |log| == start + |commands| && forall i :: 0 <= i < |commands| ==> log[start + i].event == CommandToEvent(commands[i])
    ensures ReadsBack(log, start, commands)
  {
    hide CommandToEvent, CommandIn;
    forall i | 0 <= i < |commands|
      ensures CommandIn(log[start + i].event) == Some(commands[i])
    {
      CommandReadsBack(commands[i]);
    }
  }

  lemma {:induction false} RecordedStands(before: Run, runs: Runs, r: nat, taskKey: nat, commands: seq<Command>)
    requires RunOk(before) && before.IsRunning() && StoreOk(runs) && r in runs && ClosesLast(CommandsToEvents(commands))
    requires IsRecordedAs(before, runs[r], taskKey, CommandsToEvents(commands))
    ensures TimersStand(runs[r], |before.log|, commands) && EndsAs(runs[r], commands)
    ensures ReadsBack(runs[r].log, |before.log|, commands)
  {
    hide StoreOk, RunOk, IsClosing, TimerStands, ReadsBack;
    var run := runs[r];
    StoredIsOk(runs, r);
    RecordedAt(before, run, taskKey, commands);
    forall i | 0 <= i < |commands| && commands[i].StartTimer?
      ensures TimerIsRecorded(run, |before.log| + i, commands[i])
    {
      NoTimerIsLost(runs, r, |before.log| + i);
    }
    RecordedEnds(before, run, commands);
    RecordedReadsBack(run.log, |before.log|, commands);
  }

  lemma {:induction false} RecordedAt(before: Run, after: Run, taskKey: nat, commands: seq<Command>)
    requires IsRecordedAs(before, after, taskKey, CommandsToEvents(commands))
    ensures |after.log| == |before.log| + |commands| && before.log <= after.log
    ensures forall i :: 0 <= i < |commands| ==> after.log[|before.log| + i].event == CommandToEvent(commands[i])
  {
    hide CommandToEvent;
    var events := EventsOf(after.log[|before.log|..]);
    forall i | 0 <= i < |commands|
      ensures after.log[|before.log| + i].event == CommandToEvent(commands[i])
    {
      assert events[i] == after.log[|before.log|..][i].event;
    }
  }

  lemma {:induction false} RecordedEnds(before: Run, run: Run, commands: seq<Command>)
    requires RunOk(before) && before.IsRunning() && RunOk(run) && |run.log| == |before.log| + |commands| && before.log <= run.log
    requires forall i :: 0 <= i < |commands| ==> run.log[|before.log| + i].event == CommandToEvent(commands[i])
    requires ClosesLast(CommandsToEvents(commands))
    ensures EndsAs(run, commands)
  {
    OpenHoldsNone(before);
    if !run.IsRunning() {
      ClosedOnce(run);
    } else {
      OpenHoldsNone(run);
    }
    hide RunOk;
    if commands != [] {
      CommandIsPlain(commands[|commands| - 1]);
    }
    OnlyLastIsClosing(before, run, commands);
    hide IsClosing;
  }

  lemma OpenHoldsNone(run: Run)
    requires RunOk(run) && run.IsRunning()
    ensures forall i :: 0 <= i < |run.log| ==> !IsClosing(run.log[i].event)
  {
    hide Sound;
  }

  lemma {:induction false} OnlyLastIsClosing(before: Run, run: Run, commands: seq<Command>)
    requires |run.log| == |before.log| + |commands| && before.log <= run.log
    requires forall i :: 0 <= i < |commands| ==> run.log[|before.log| + i].event == CommandToEvent(commands[i])
    requires ClosesLast(CommandsToEvents(commands)) && forall i :: 0 <= i < |before.log| ==> !IsClosing(before.log[i].event)
    ensures forall i :: 0 <= i < |run.log| && IsClosing(run.log[i].event) ==> i == |run.log| - 1 && commands != []
  {
    hide IsClosing, CommandToEvent;
    forall i | 0 <= i < |run.log| - 1
      ensures !IsClosing(run.log[i].event)
    {
      if i < |before.log| {
        assert run.log[i] == before.log[i];
      } else {
        assert CommandsToEvents(commands)[i - |before.log|] == CommandToEvent(commands[i - |before.log|]);
      }
    }
    if commands == [] {
      assert run.log == before.log;
    }
  }

  // ---- one run's own tables ------------------------------------------------------------

  /** A transaction wrote these tables of one run: all is well with it, and it was told of no child. */
  ghost predicate IsUpdate(before: Run, after: Run) {
    RunOk(after) && after.link == before.link && after.row == before.row && HearsNothing(before, after) &&
    forall childId: nat :: Count(after.log, ChildEnd(childId)) == Count(before.log, ChildEnd(childId))
  }

  /** An event that ends nothing is recorded, and may wake the run. */
  lemma {:induction false} PlainIsUpdate(runs: Runs, r: nat, event: Event, now: int, wakes: bool)
    requires StoreOk(runs) && r in runs && IsPlain(event) && !IsChildOutcome(event)
    requires (runs[r].IsRunning() && !IsClosing(event)) || event.StepAttemptFailed?
    ensures var appended := runs[r].Append(event, now);
            var after := if wakes then appended.Enqueue(WorkflowTask) else appended;
            IsUpdate(runs[r], after)
  {
    StoredIsOk(runs, r);
    PlainKeepsOk(runs[r], event, now);
    CountAppend(runs[r], event, now);
    RunOkParts(runs[r].Append(event, now));
    EnqueueKeepsSound(runs[r].Append(event, now), WorkflowTask);
    hide StoreOk, Sound, Count, ClosedMeansClosed, IsPlain, IsClosing;
  }

  lemma StoreIsForest(runs: Runs)
    requires StoreOk(runs)
    ensures IsForest(runs)
  {
    hide IsForest, ChainsOk, OutcomesOk, OutcomesSay;
  }

  lemma RunOkParts(run: Run)
    ensures RunOk(run) <==> Sound(run) && ClosedMeansClosed(run)
  {
    hide Sound, ClosedMeansClosed;
  }

  /** What recording a step's outcome writes: its event and its row. */
  lemma {:induction false} ResultIsUpdate(runs: Runs, r: nat, stepId: nat, result: StepResult, exhausted: bool, now: int)
    requires StoreOk(runs) && r in runs && runs[r].IsRunning() && stepId !in runs[r].results
    ensures var after := WithResult(runs[r], stepId, result, exhausted, now);
            IsUpdate(runs[r], after) && RunAdvances(runs[r], after)
  {
    StoredIsOk(runs, r);
    ResultKeepsOk(runs[r], stepId, result, exhausted, now);
    CountAppend(runs[r], StepEvent(stepId, result, exhausted), now);
    hide StoreOk, RunOk, Count;
  }

  lemma {:induction false} AskingIsUpdate(runs: Runs, r: nat, event: Event, now: int)
    requires StoreOk(runs) && r in runs && runs[r].IsRunning() && event.CancelRequested? && Count(runs[r].log, CancelWish) == 0
    ensures var after := runs[r].Append(event, now).Enqueue(WorkflowTask);
            IsUpdate(runs[r], after) && Count(after.log, CancelWish) == 1
  {
    StoredIsOk(runs, r);
    AskingKeepsOk(runs[r], event, now);
    CountAppend(runs[r], event, now);
    hide StoreOk, RunOk, Count;
  }

  lemma {:induction false} FiringIsUpdate(runs: Runs, r: nat, timerId: nat, now: int)
    requires StoreOk(runs) && r in runs && runs[r].IsRunning() && WorkflowTimer(timerId) in runs[r].timers
    requires runs[r].timers[WorkflowTimer(timerId)].state.TimerPending? && runs[r].timers[WorkflowTimer(timerId)].fireAt <= now
    ensures IsUpdate(runs[r], WithFired(runs[r], timerId, now, now))
  {
    StoredIsOk(runs, r);
    FiringKeepsOk(runs[r], timerId, now, now);
    CountAppend(runs[r], TimerFired(timerId), now);
    hide StoreOk, RunOk, Count;
  }

  lemma {:induction false} CommandIsUpdate(runs: Runs, r: nat, command: Command, now: int)
    requires StoreOk(runs) && r in runs && runs[r].IsRunning() && !IsClosing(CommandToEvent(command))
    ensures IsUpdate(runs[r], WithCommand(runs[r], command, now))
  {
    hide StoreOk, RunOk, Count, WithCommand, HearsNothing, CommandToEvent;
    StoredIsOk(runs, r);
    CommandKeepsOk(runs[r], command, now);
    CommandHearsNothing(runs[r], command, now);
    CommandAppends(runs[r], command, now);
  }

  lemma {:induction false} DecisionIsUpdate(runs: Runs, r: nat, key: nat, row: DecisionRow)
    requires StoreOk(runs) && r in runs && key !in runs[r].decisions && IsRangeOf(row, runs[r].log)
    requires forall k :: k in runs[r].decisions ==> runs[r].decisions[k].last < row.first
    ensures IsUpdate(runs[r], runs[r].(decisions := runs[r].decisions[key := row]))
  {
    StoredIsOk(runs, r);
    DecisionKeepsOk(runs[r], key, row);
    hide StoreOk, RunOk, Count, IsRangeOf;
  }

  lemma {:induction false} CancellingIsUpdate(runs: Runs, r: nat, key: TimerKey, now: int)
    requires StoreOk(runs) && r in runs && !runs[r].IsRunning() && key in runs[r].timers && runs[r].timers[key].state.TimerPending?
    ensures IsUpdate(runs[r], WithTimerState(runs[r], key, TimerCancelledAt(now)))
  {
    StoredIsOk(runs, r);
    CancellingKeepsOk(runs[r], key, now);
    hide StoreOk, RunOk, Count;
  }

  lemma {:induction false} LimitIsUpdate(runs: Runs, r: nat, key: TimerKey, now: int)
    requires StoreOk(runs) && r in runs && key in runs[r].timers && !key.WorkflowTimer? && runs[r].timers[key].fireAt <= now
    ensures IsUpdate(runs[r], WithTimerState(runs[r], key, TimerFiredAt(now)))
  {
    StoredIsOk(runs, r);
    LimitFiringKeepsOk(runs[r], key, now);
    hide StoreOk, RunOk, Count;
  }

  predicate AttemptRecorded(log: seq<StoredEvent>, stepId: nat, attempt: nat) {
    exists i :: 0 <= i < |log| && IsAttempt(log[i].event, stepId, attempt)
  }

  predicate IsAttempt(event: Event, stepId: nat, attempt: nat) {
    event.StepAttemptFailed? && event.stepId == stepId && event.attempt == attempt
  }

  // ---- exactly once --------------------------------------------------------------------

  /** Of two decisions computed from one sequence number, at most one appended any event. */
  lemma {:induction false} OneDecisionPerSequence(runs: Runs, r: nat, k: nat, l: nat)
    requires StoreOk(runs) && r in runs && k in runs[r].decisions && l in runs[r].decisions && k != l
    requires runs[r].decisions[k].first == runs[r].decisions[l].first
    ensures runs[r].decisions[k].events == [] || runs[r].decisions[l].events == []
  {
    assert RunOk(runs[r]);
    assert IsRangeOf(runs[r].decisions[k], runs[r].log) && IsRangeOf(runs[r].decisions[l], runs[r].log);
    assert Disjoint(runs[r].decisions[k], runs[r].decisions[l]);
  }

  /** A step has a recorded result exactly when its log holds exactly one completion or failure of it. */
  lemma {:induction false} ResultMeansOneOutcome(runs: Runs, r: nat, stepId: nat)
    requires StoreOk(runs) && r in runs
    ensures stepId in runs[r].results <==> Count(runs[r].log, StepEnd(stepId)) == 1
    ensures Count(runs[r].log, StepEnd(stepId)) <= 1
  {
    assert RunOk(runs[r]);
  }

  /** The store's rows are folds of its logs, and a terminal row is the fold of everything up to the closing. */
  lemma {:induction false} RowIsTheFold(runs: Runs, r: nat)
    requires StoreOk(runs) && r in runs
    ensures var run := runs[r];
            run.row.lastSequenceNumber <= |run.log| &&
            Fold(run.log[..run.row.lastSequenceNumber], Origin(run)) == Projected(run.row) &&
            (IsTerminal(run.row.state) <==> exists i :: 0 <= i < |run.log| && IsClosing(run.log[i].event))
  {
    var run := runs[r];
    assert RunOk(run);
    var folded := run.log[..run.row.lastSequenceNumber];
    FoldsExactlyWhen(folded, Origin(run));
    if !run.IsRunning() {
      assert IsClosing(run.log[|folded| - 1].event);
    }
  }

  // ---- what a decision may come to ------------------------------------------------------

  datatype Receipt =
    | Accepted(first: nat, last: nat)
    | Duplicate(first: nat, last: nat)
    | Discarded
    | Conflict(actual: nat)
    | InvalidOrder

  /** Only the last event closes the run, if any does. */
  predicate ClosesLast(events: seq<Event>) {
    forall i :: 0 <= i < |events| - 1 ==> !IsClosing(events[i])
  }

  lemma {:induction false} CommandIsPlain(command: Command)
    ensures TopicOf(CommandToEvent(command)).None? && ResultOf(CommandToEvent(command)).None?
    ensures IsClosing(CommandToEvent(command)) <==> command.CompleteRun? || command.FailRun? || command.ContinueAsNew?
    ensures CommandToEvent(command).StepScheduled? <==> command.ScheduleStep?
  {
  }

  predicate IsChild(link: Link, parent: nat, childId: nat) {
    link.parent == Some(parent) && link.childKey == Some(childId)
  }

  lemma {:induction false} NoSuchChild(runs: Runs, id: nat, link: Link)
    requires (forall x :: x in runs ==> x < id) && link.first == id && link.index == 0 && link.continuedFrom.None?
    requires link.parent.Some? && link.parent.value in runs && link.childKey.Some?
    requires !exists x :: x in runs && IsChild(runs[x].link, link.parent.value, link.childKey.value)
    ensures FirstPlace(runs, id, link)
  {
    forall x | x in runs
      ensures !(runs[x].link.parent == link.parent && runs[x].link.childKey == link.childKey)
    {
      assert !IsChild(runs[x].link, link.parent.value, link.childKey.value);
    }
  }

  /** A run with one command of its decision recorded. */
  function WithCommand(run: Run, command: Command, now: int): Run {
    var event := CommandToEvent(command);
    match command
    case ScheduleStep(stepId, _, _) => Scheduled(run, stepId, event, now)
    case StartTimer(timerId, fireAt, _) => WithTimer(run.Append(event, now), WorkflowTimer(timerId), fireAt)
    case _ => run.Append(event, now)
  }

  function WithCommands(run: Run, commands: seq<Command>, now: int): Run {
    if commands == [] then run
    else WithCommand(WithCommands(run, commands[..|commands| - 1], now), commands[|commands| - 1], now)
  }

  lemma {:induction false} CommandKeepsOk(run: Run, command: Command, now: int)
    requires RunOk(run) && run.IsRunning() && !IsClosing(CommandToEvent(command))
    ensures RunOk(WithCommand(run, command, now))
  {
    hide RunOk, Scheduled, WithTimer, Run.Append;
    var event := CommandToEvent(command);
    match command
    case ScheduleStep(stepId, _, _) => SchedulingKeepsOk(run, stepId, event, now);
    case StartTimer(timerId, fireAt, _) => StartingKeepsOk(run, event, now);
    case _ =>
      CommandIsPlain(command);
      PlainKeepsOk(run, event, now);
  }

  lemma {:induction false} CommandHearsNothing(run: Run, command: Command, now: int)
    ensures HearsNothing(run, WithCommand(run, command, now))
    ensures forall childId: nat :: Count(WithCommand(run, command, now).log, ChildEnd(childId)) == Count(run.log, ChildEnd(childId))
  {
    CommandIsPlain(command);
    CommandAppends(run, command, now);
    CountAppend(run, CommandToEvent(command), now);
    assert WithCommand(run, command, now).log == run.Append(CommandToEvent(command), now).log;
    hide Count, WithCommand;
  }

  lemma {:induction false} CommandAppends(run: Run, command: Command, now: int)
    ensures OnlyRecorded(run, WithCommand(run, command, now), [CommandToEvent(command)])
    ensures WithCommand(run, command, now).log == run.log + [StoredEvent(|run.log| + 1, CommandToEvent(command), now)]
  {
    assert WithCommand(run, command, now).log == run.log + [StoredEvent(|run.log| + 1, CommandToEvent(command), now)];
    hide HasTask, CommandToEvent;
  }

  lemma {:induction false} OnlyRecordedThen(run: Run, mid: Run, after: Run, events: seq<Event>, event: Event)
    requires OnlyRecorded(run, mid, events) && OnlyRecorded(mid, after, [event])
    ensures OnlyRecorded(run, after, events + [event])
  {
    forall i | 0 <= i < |events| + 1
      ensures after.log[|run.log| + i].event == (events + [event])[i]
    {
      if i < |events| {
        assert after.log[|run.log| + i] == mid.log[|run.log| + i];
      } else {
        assert after.log[|mid.log| + 0].event == [event][0];
      }
    }
  }

  lemma {:induction false} EventsSnoc(commands: seq<Command>)
    requires commands != []
    ensures CommandsToEvents(commands) ==
            CommandsToEvents(commands[..|commands| - 1]) + [CommandToEvent(commands[|commands| - 1])]
  {
    hide CommandToEvent;
  }

  lemma {:induction false} NothingRecorded(run: Run)
    ensures OnlyRecorded(run, run, CommandsToEvents([]))
  {
  }

  lemma {:induction false} CommandsKeepRow(run: Run, commands: seq<Command>, now: int)
    ensures OnlyRecorded(run, WithCommands(run, commands, now), CommandsToEvents(commands))
  {
    hide WithCommand, OnlyRecorded, CommandToEvent, CommandsToEvents;
    if commands == [] {
      NothingRecorded(run);
    } else {
      var last := |commands| - 1;
      CommandsKeepRow(run, commands[..last], now);
      CommandAppends(WithCommands(run, commands[..last], now), commands[last], now);
      EventsSnoc(commands);
      OnlyRecordedThen(run, WithCommands(run, commands[..last], now), WithCommands(run, commands, now),
                       CommandsToEvents(commands[..last]), CommandToEvent(commands[last]));
    }
  }

  /** The log of `after` is that of `before` with `events` at its end, and the run is otherwise where it was. */
  predicate OnlyRecorded(before: Run, after: Run, events: seq<Event>) {
    after.link == before.link && after.row == before.row && after.results == before.results &&
    after.decisions == before.decisions && |after.log| == |before.log| + |events| && before.log <= after.log &&
    forall i :: 0 <= i < |events| ==> after.log[|before.log| + i].event == events[i]
  }

  /** A decision was recorded: its events are what the log gained, and its row is their range. */
  ghost predicate IsRecordedAs(before: Run, after: Run, taskKey: nat, events: seq<Event>) {
    after.decisions == before.decisions[taskKey := DecisionRow(|before.log| + 1, |before.log| + |events|, events)] &&
    after.results == before.results && before.log <= after.log && EventsOf(after.log[|before.log|..]) == events
  }

  /** The log has the events of a decision at its end, and only the decision's row is missing. */
  ghost predicate IsRangeReady(before: Run, mid: Run, taskKey: nat, events: seq<Event>) {
    var row := DecisionRow(|before.log| + 1, |before.log| + |events|, events);
    taskKey !in mid.decisions && IsRangeOf(row, mid.log) &&
    (forall k :: k in mid.decisions ==> mid.decisions[k].last < row.first) &&
    IsRecordedAs(before, mid.(decisions := mid.decisions[taskKey := row]), taskKey, events)
  }

  /** The link of a run of its own. */
  function OwnLink(id: nat, workflowType: string, input: Json, runTimeoutMs: Option<nat>, executionTimeoutMs: Option<nat>,
      schedule: Option<nat>, now: int): Link {
    Link(None, None, None, id, 0, None, runTimeoutMs,
         if executionTimeoutMs.Some? then Some(now + executionTimeoutMs.value) else None, workflowType, input, schedule)
  }

  /** The run goes on with the chain of `run`: same parent, type, limits and schedule, one number on, and the input asked for. */
  predicate IsSuccessor(next: Run, run: Run, r: nat, input: Json, now: int) {
    HasJustBegun(next, run.link.workflowType, input, run.link.runTimeoutMs, run.link.deadline, now) &&
    next.link.parent == run.link.parent && next.link.policy == run.link.policy && next.link.schedule == run.link.schedule &&
    next.link.first == run.link.first && next.link.index == run.link.index + 1 && next.link.continuedFrom == Some(r) &&
    next.link.childKey.None? && next.link.deadline == run.link.deadline && next.link.runTimeoutMs == run.link.runTimeoutMs
  }

  lemma NextIsSuccessor(run: Run, r: nat, input: Json, now: int)
    ensures IsSuccessor(NewRun(NextLink(run.link, r, input), now), run, r, input, now)
    ensures NewRun(NextLink(run.link, r, input), now).link == NextLink(run.link, r, input) && NextLink(run.link, r, input).index > 0
    ensures NextLink(run.link, r, input).parent == run.link.parent && NextLink(run.link, r, input).first == run.link.first
    ensures NewRun(NextLink(run.link, r, input), now).IsRunning()
  {
    NewRunHasJustBegun(NextLink(run.link, r, input), now);
    hide NewRun, HasJustBegun;
  }

  /** The link of a child of `r`. */
  function ChildLink(r: nat, childId: nat, id: nat, workflowType: string, input: Json, policy: ParentClosePolicy,
      runTimeoutMs: Option<nat>, executionTimeoutMs: Option<nat>, now: int): Link {
    Link(Some(r), Some(childId), Some(policy), id, 0, None, runTimeoutMs,
         if executionTimeoutMs.Some? then Some(now + executionTimeoutMs.value) else None, workflowType, input, None)
  }

  /** A run just begun: open, with its start event, a timer for each of its limits, and its first workflow task. */
  predicate HasJustBegun(run: Run, workflowType: string, input: Json, runTimeoutMs: Option<nat>, deadline: Option<int>, now: int) {
    run.log == [StoredEvent(1, RunStarted(workflowType, input), now)] && run.tasks == [Task(WorkflowTask, TaskPending)] &&
    run.IsRunning() && run.row.input == input && run.results == map[] && run.decisions == map[] &&
    (forall key :: key in run.timers ==> !key.WorkflowTimer?) &&
    (if runTimeoutMs.Some? then IsTimer(run, RunTimeout, now + runTimeoutMs.value) else RunTimeout !in run.timers) &&
    (if deadline.Some? then IsTimer(run, ExecutionTimeout, deadline.value) else ExecutionTimeout !in run.timers)
  }

  predicate IsTimer(run: Run, key: TimerKey, fireAt: int) {
    key in run.timers && run.timers[key] == Timer(fireAt, TimerPending)
  }

  lemma NewRunHasJustBegun(link: Link, now: int)
    ensures HasJustBegun(NewRun(link, now), link.workflowType, link.input, link.runTimeoutMs, link.deadline, now)
    ensures NewRun(link, now).link == link
  {
  }

  function DeadlineIn(executionTimeoutMs: Option<nat>, now: int): Option<int> {
    if executionTimeoutMs.Some? then Some(now + executionTimeoutMs.value) else None
  }

  /** `r` has a child by that name. */
  predicate HasChild(runs: Runs, r: nat, childId: nat) {
    exists x :: x in runs && IsChild(runs[x].link, r, childId)
  }

  /** A child's link is what the command that starts it says. */
  predicate IsStartedAs(link: Link, r: nat, command: Command, now: int)
    requires command.StartChild?
  {
    IsChild(link, r, command.childId) && link.policy == Some(command.policy) && link.workflowType == command.workflowType &&
    link.input == command.input && link.runTimeoutMs == command.runTimeoutMs &&
    link.deadline == if command.executionTimeoutMs.Some? then Some(now + command.executionTimeoutMs.value) else None
  }

  predicate HasStarted(runs: Runs, r: nat, command: Command, now: int)
    requires command.StartChild?
  {
    exists x :: x in runs && IsStartedAs(runs[x].link, r, command, now)
  }

  /** No command before this one starts a child by its name. */
  predicate IsFirstChild(commands: seq<Command>, i: nat)
    requires i < |commands| && commands[i].StartChild?
  {
    forall j :: 0 <= j < i && commands[j].StartChild? ==> commands[j].childId != commands[i].childId
  }

  /** Every child the commands start is there, and one that was not there before is as the first of them by its name says. */
  ghost predicate ChildrenStarted(before: Runs, after: Runs, r: nat, commands: seq<Command>, now: int) {
    forall i :: 0 <= i < |commands| && commands[i].StartChild? ==> IsThere(before, after, r, commands, i, now)
  }

  ghost predicate IsThere(before: Runs, after: Runs, r: nat, commands: seq<Command>, i: nat, now: int)
    requires i < |commands| && commands[i].StartChild?
  {
    HasChild(after, r, commands[i].childId) &&
    (IsFirstChild(commands, i) && !HasChild(before, r, commands[i].childId) ==> HasStarted(after, r, commands[i], now))
  }

  /** `r` has no new children but those. */
  ghost predicate NamesNoOther(before: Runs, after: Runs, r: nat, commands: seq<Command>) {
    forall childId: nat :: HasChild(after, r, childId) ==> HasChild(before, r, childId) || Names(commands, childId)
  }

  predicate Names(commands: seq<Command>, childId: nat) {
    exists j :: 0 <= j < |commands| && commands[j].StartChild? && commands[j].childId == childId
  }

  lemma {:induction false} ChildStays(before: Runs, after: Runs, r: nat, command: Command, now: int)
    requires PlacesStay(before, after) && command.StartChild?
    ensures HasChild(before, r, command.childId) ==> HasChild(after, r, command.childId)
    ensures HasStarted(before, r, command, now) ==> HasStarted(after, r, command, now)
  {
    if HasChild(before, r, command.childId) {
      var x :| x in before && IsChild(before[x].link, r, command.childId);
      assert after[x].link == before[x].link;
    }
    if HasStarted(before, r, command, now) {
      var x :| x in before && IsStartedAs(before[x].link, r, command, now);
      assert after[x].link == before[x].link;
    }
  }

  lemma {:induction false} ChildrenStay(before: Runs, mid: Runs, after: Runs, r: nat, commands: seq<Command>, now: int)
    requires ChildrenStarted(before, mid, r, commands, now) && PlacesStay(mid, after)
    ensures ChildrenStarted(before, after, r, commands, now)
  {
    forall i | 0 <= i < |commands| && commands[i].StartChild?
      ensures IsThere(before, after, r, commands, i, now)
    {
      assert IsThere(before, mid, r, commands, i, now);
      ChildStays(mid, after, r, commands[i], now);
      hide HasChild, HasStarted, IsFirstChild, PlacesStay;
    }
  }

  lemma NoneStarted(runs: Runs, r: nat, now: int)
    ensures ChildrenStarted(runs, runs, r, [], now) && NamesNoOther(runs, runs, r, [])
  {
    hide HasChild;
  }

  lemma {:induction false} OneMoreChild(before: Runs, mid: Runs, after: Runs, r: nat, commands: seq<Command>, command: Command, now: int)
    requires ChildrenStarted(before, mid, r, commands, now) && NamesNoOther(before, mid, r, commands) && PlacesStay(mid, after)
    requires ChildrenStarted(mid, after, r, [command], now) && NamesNoOther(mid, after, r, [command])
    ensures ChildrenStarted(before, after, r, commands + [command], now) && NamesNoOther(before, after, r, commands + [command])
  {
    var more := commands + [command];
    ChildrenStay(before, mid, after, r, commands, now);
    hide HasChild, HasStarted, PlacesStay;
    forall i | 0 <= i < |more| && more[i].StartChild?
      ensures IsThere(before, after, r, more, i, now)
    {
      if i < |commands| {
        FirstOfMore(commands, command, i);
        assert IsThere(before, after, r, commands, i, now);
      } else {
        assert IsThere(mid, after, r, [command], 0, now);
        LastIsFirst(commands, command);
      }
    }
    NamesMore(before, mid, after, r, commands, command);
  }

  lemma FirstOfMore(commands: seq<Command>, command: Command, i: nat)
    requires i < |commands| && commands[i].StartChild?
    ensures (commands + [command])[i] == commands[i] && (IsFirstChild(commands + [command], i) ==> IsFirstChild(commands, i))
  {
    assert forall j :: 0 <= j < |commands| ==> commands[j] == (commands + [command])[j];
  }

  lemma LastIsFirst(commands: seq<Command>, command: Command)
    requires command.StartChild?
    ensures IsFirstChild(commands + [command], |commands|) ==> !Names(commands, command.childId) && IsFirstChild([command], 0)
  {
    assert forall j :: 0 <= j < |commands| ==> (commands + [command])[j] == commands[j];
  }

  lemma {:induction false} NamesMore(before: Runs, mid: Runs, after: Runs, r: nat, commands: seq<Command>, command: Command)
    requires NamesNoOther(before, mid, r, commands) && NamesNoOther(mid, after, r, [command])
    ensures NamesNoOther(before, after, r, commands + [command])
  {
    var more := commands + [command];
    hide HasChild;
    forall childId: nat | HasChild(after, r, childId)
      ensures HasChild(before, r, childId) || Names(more, childId)
    {
      if Names([command], childId) {
        assert more[|commands|].StartChild? && more[|commands|].childId == childId;
      } else if Names(commands, childId) {
        var j :| 0 <= j < |commands| && commands[j].StartChild? && commands[j].childId == childId;
        assert more[j] == commands[j];
      }
    }
  }

  lemma {:induction false} NoMoreChild(before: Runs, after: Runs, r: nat, commands: seq<Command>, command: Command, now: int)
    requires ChildrenStarted(before, after, r, commands, now) && !command.StartChild?
    ensures ChildrenStarted(before, after, r, commands + [command], now)
  {
    var more := commands + [command];
    hide HasChild, HasStarted;
    forall i | 0 <= i < |more| && more[i].StartChild?
      ensures IsThere(before, after, r, more, i, now)
    {
      FirstOfMore(commands, command, i);
      assert IsThere(before, after, r, commands, i, now);
    }
  }

  /** A child that was created, or was there, is what its command says. */
  lemma {:induction false} CreatedAsCommanded(before: Runs, after: Runs, r: nat, command: Command, now: int, created: bool, id: nat)
    requires command.StartChild? && (created <==> !HasChild(before, r, command.childId)) && HasChild(after, r, command.childId)
    requires !created ==> after == before
    requires created ==> id !in before && after.Keys == before.Keys + {id} && forall x :: x in before ==> after[x] == before[x]
    requires created ==> after[id].link == ChildLink(r, command.childId, id, command.workflowType, command.input, command.policy, command.runTimeoutMs,
                                                   command.executionTimeoutMs, now)
    ensures ChildrenStarted(before, after, r, [command], now) && NamesNoOther(before, after, r, [command])
  {
    if created {
      assert IsStartedAs(after[id].link, r, command, now);
    }
    forall childId: nat | HasChild(after, r, childId)
      ensures HasChild(before, r, childId) || Names([command], childId)
    {
      var x :| x in after && IsChild(after[x].link, r, childId);
      if x in before {
        assert IsChild(before[x].link, r, childId);
      } else {
        assert [command][0].StartChild? && [command][0].childId == childId;
      }
    }
    hide HasStarted;
  }

  lemma {:induction false} NoChildCommanded(before: Runs, after: Runs, r: nat, command: Command, now: int)
    requires !command.StartChild? && after.Keys == before.Keys && forall x :: x in before ==> after[x].link == before[x].link
    ensures ChildrenStarted(before, after, r, [command], now) && NamesNoOther(before, after, r, [command])
  {
    forall childId: nat | HasChild(after, r, childId)
      ensures HasChild(before, r, childId)
    {
      var x :| x in after && IsChild(after[x].link, r, childId);
      assert IsChild(before[x].link, r, childId);
    }
  }

  class RunStore {
    const rows: RunRows

    ghost predicate Valid()
      reads this, rows
    {
      rows.Named() && StoreOk(rows.runs)
    }

    lemma ValidIsOk()
      requires Valid()
      ensures StoreOk(rows.runs) && rows.Named()
    {
      hide StoreOk;
    }

    constructor ()
      ensures Valid() && fresh(rows) && rows.runs == map[]
    {
      rows := new RunRows();
      new;
      assert StoreOk(rows.runs);
    }

    /** Writes one run's tables. */
    method Write(r: nat, run: Run)
      requires Valid() && r in rows.runs && IsUpdate(rows.runs[r], run)
      modifies rows`runs
      ensures Valid() && rows.runs == old(rows.runs)[r := run]
    {
      hide StoreOk, RunOk, Count, HearsNothing, IsForest;
      UpdateKeepsStore(rows.runs, r, run);
      StoreIsForest(rows.runs[r := run]);
      rows.runs := rows.runs[r := run];
    }

    /** Starts a run of its own, for a schedule or not: no parent, first of its chain. */
    method StartRun(workflowType: string, input: Json, runTimeoutMs: Option<nat>, executionTimeoutMs: Option<nat>,
                    schedule: Option<nat>, now: int)
      returns (id: nat)
      requires Valid()
      modifies rows
      ensures Valid() && id !in old(rows.runs) && rows.runs.Keys == old(rows.runs).Keys + {id} && rows.runs[id].IsRunning()
      ensures rows.runs[id].link.schedule == schedule && rows.runs[id].link.first == id && rows.runs[id].link.index == 0
      ensures rows.runs ==
        old(rows.runs)[id := NewRun(OwnLink(id, workflowType, input, runTimeoutMs, executionTimeoutMs, schedule, now), now)]
      ensures HasJustBegun(rows.runs[id], workflowType, input, runTimeoutMs, DeadlineIn(executionTimeoutMs, now), now)
      ensures rows.runs[id].link.parent.None? && rows.runs[id].link.childKey.None? && rows.runs[id].link.continuedFrom.None?
      ensures schedule.None? ==> RunsAdvance(old(rows.runs), rows.runs)
    {
      id := rows.nextId;
      var link := OwnLink(id, workflowType, input, runTimeoutMs, executionTimeoutMs, schedule, now);
      FirstKeepsStore(rows.runs, id, link, now);
      NewRunHasJustBegun(link, now);
      if schedule.None? {
        OpenRunMoved(rows.runs, id, NewRun(link, now));
      }
      hide StoreOk, NewRun, RunsAdvance, HasJustBegun;
      rows.runs := rows.runs[id := NewRun(link, now)];
      rows.nextId := id + 1;
    }

    /** Records how a step ended, once: later deliveries learn what was recorded first. */
    method RecordStepResult(r: nat, stepId: nat, result: StepResult, exhausted: bool, now: int)
      returns (recorded: bool, outcome: StepResult)
      requires Valid() && r in rows.runs
      modifies rows`runs
      ensures Valid() && RunsAdvance(old(rows.runs), rows.runs)
      ensures recorded <==> old(rows.runs)[r].IsRunning() && stepId !in old(rows.runs)[r].results
      ensures rows.runs == if recorded
                           then old(rows.runs)[r := WithResult(old(rows.runs)[r], stepId, result, exhausted, now)]
                           else old(rows.runs)
      ensures recorded ==> IsOutcomeOn(old(rows.runs)[r], rows.runs[r], stepId, result, exhausted, now)
      ensures outcome == if old(rows.runs)[r].IsRunning() && stepId in old(rows.runs)[r].results
                         then old(rows.runs)[r].results[stepId] else result
    {
      hide IsOutcomeOn, StoreOk, RunsAdvance, IsUpdate, WithResult, RunAdvances;
      var run := rows.runs[r];
      NothingMoved(rows.runs);
      if !run.IsRunning() {
        return false, result;
      }
      if stepId in run.results {
        return false, run.results[stepId];
      }
      ResultIsUpdate(rows.runs, r, stepId, result, exhausted, now);
      ResultIsOutcomeOn(run, stepId, result, exhausted, now);
      SameLink(run, WithResult(run, stepId, result, exhausted, now));
      OpenRunMoved(rows.runs, r, WithResult(run, stepId, result, exhausted, now));
      Write(r, WithResult(run, stepId, result, exhausted, now));
      return true, result;
    }

    /** Records a failed attempt of a step; a closed run takes it too. */
    method RecordFailure(r: nat, stepId: nat, attempt: nat, error: RecordedError, retryAt: Option<int>, now: int)
      returns (recorded: bool)
      requires Valid() && r in rows.runs
      modifies rows`runs
      ensures Valid() && RunsAdvance(old(rows.runs), rows.runs)
      ensures !recorded ==> rows.runs == old(rows.runs)
      ensures recorded ==>
        rows.runs == old(rows.runs)[r := old(rows.runs)[r].Append(StepAttemptFailed(stepId, attempt, error, retryAt), now)]
      ensures recorded <==> !AttemptRecorded(old(rows.runs)[r].log, stepId, attempt)
    {
      hide StoreOk, RunsAdvance, IsUpdate, Advances, AttemptRecorded;
      var run := rows.runs[r];
      NothingMoved(rows.runs);
      if AttemptRecorded(run.log, stepId, attempt) {
        return false;
      }
      var event := StepAttemptFailed(stepId, attempt, error, retryAt);
      PlainIsUpdate(rows.runs, r, event, now, false);
      AttemptAdvances(run, event, now);
      WritingStays(rows.runs, r, run.Append(event, now));
      Write(r, run.Append(event, now));
      return true;
    }

    lemma SameLink(before: Run, after: Run)
      requires IsUpdate(before, after)
      ensures after.link == before.link
    {
      hide RunOk, Count;
    }

    lemma AttemptAdvances(run: Run, event: Event, now: int)
      requires event.StepAttemptFailed?
      ensures Advances(run, run.Append(event, now))
    {
    }

    /** Delivers a signal to an open run. */
    method SendSignal(r: nat, name: string, payload: Json, now: int) returns (sent: bool)
      requires Valid() && r in rows.runs
      modifies rows`runs
      ensures Valid() && (sent <==> old(rows.runs)[r].IsRunning()) && RunsAdvance(old(rows.runs), rows.runs)
      ensures rows.runs == if sent
                           then old(rows.runs)[r := old(rows.runs)[r].Append(SignalReceived(name, payload), now).Enqueue(WorkflowTask)]
                           else old(rows.runs)
    {
      hide StoreOk, RunsAdvance, IsUpdate, RunAdvances;
      var run := rows.runs[r];
      NothingMoved(rows.runs);
      if !run.IsRunning() {
        return false;
      }
      var event := SignalReceived(name, payload);
      PlainIsUpdate(rows.runs, r, event, now, true);
      TransactionsAdvance(run, 0, StepDone(Null), false, event, now);
      OpenRunMoved(rows.runs, r, run.Append(event, now).Enqueue(WorkflowTask));
      Write(r, run.Append(event, now).Enqueue(WorkflowTask));
      return true;
    }

    /** Asks an open run to cancel; asking again while a request is pending writes nothing. */
    method CancelRun(r: nat, reason: Option<string>, now: int) returns (accepted: bool, requested: bool)
      requires Valid() && r in rows.runs
      modifies rows`runs
      ensures Valid() && (accepted <==> old(rows.runs)[r].IsRunning()) && RunsAdvance(old(rows.runs), rows.runs)
      ensures requested <==> accepted && Count(old(rows.runs)[r].log, CancelWish) == 0
      ensures rows.runs == if requested
                           then old(rows.runs)[r := old(rows.runs)[r].Append(CancelRequested(reason), now).Enqueue(WorkflowTask)]
                           else old(rows.runs)
      ensures accepted ==> Count(rows.runs[r].log, CancelWish) == 1
    {
      hide StoreOk, RunsAdvance, IsUpdate, RunAdvances, Count;
      var run := rows.runs[r];
      NothingMoved(rows.runs);
      if !run.IsRunning() {
        return false, false;
      }
      StoredIsOk(rows.runs, r);
      AskedAtMostOnce(run);
      if Count(run.log, CancelWish) > 0 {
        return true, false;
      }
      AskingIsUpdate(rows.runs, r, CancelRequested(reason), now);
      TransactionsAdvance(run, 0, StepDone(Null), false, CancelRequested(reason), now);
      OpenRunMoved(rows.runs, r, run.Append(CancelRequested(reason), now).Enqueue(WorkflowTask));
      Write(r, run.Append(CancelRequested(reason), now).Enqueue(WorkflowTask));
      return true, true;
    }

    lemma AskedAtMostOnce(run: Run)
      requires RunOk(run)
      ensures Count(run.log, CancelWish) <= 1
    {
    }

    /** Closes an open run with `event`, and everything that goes with it. */
    method CloseWith(r: nat, event: Event, now: int)
      requires Valid() && r in rows.runs && rows.runs[r].IsRunning() && IsClosing(event) && !event.RunContinuedAsNew?
      modifies rows`runs
      ensures Valid() && rows.runs.Keys == old(rows.runs).Keys && r in old(rows.runs)
      ensures var base := old(rows.runs)[r := old(rows.runs)[r].Append(event, now)];
              (forall x :: x in base ==> rows.runs[x] == After(base, r, x, now)) &&
              Some(rows.runs[r].row.state) == TerminalStateFor(event) && rows.runs[r].log == base[r].log &&
              rows.runs[r].decisions == base[r].decisions && rows.runs[r].timers == base[r].timers &&
              rows.runs[r].results == base[r].results
      ensures RunsAdvance(old(rows.runs), rows.runs)
    {
      var run := rows.runs[r];
      var closing := run.Append(event, now);
      assert RunOk(run);
      ClosingIsAboutToClose(run, event, now);
      CountAppend(run, event, now);
      ClosedRowFolds(closing);
      StandingIsClosing(closing);
      ClosingEventReady(rows.runs, r, closing);
      Finish(r, closing, now);
    }

    /** Writes the run that is about to close, and closes it. */
    method Finish(r: nat, closing: Run, now: int)
      requires rows.Named() && r in rows.runs && rows.runs[r].IsRunning() && AboutToClose(closing)
      requires closing.link == rows.runs[r].link && RunAdvances(rows.runs[r], closing)
      requires ReadyToClose(rows.runs[r := closing], r)
      modifies rows`runs
      ensures Valid() && rows.runs.Keys == old(rows.runs).Keys && r in old(rows.runs)
      ensures var base := old(rows.runs)[r := closing];
              (forall x :: x in base ==> rows.runs[x] == After(base, r, x, now)) &&
              rows.runs[r].row.state == ClosingState(closing) && rows.runs[r].log == closing.log &&
              rows.runs[r].decisions == closing.decisions && rows.runs[r].timers == closing.timers &&
              rows.runs[r].results == closing.results
      ensures RunsAdvance(old(rows.runs), rows.runs)
    {
      ReadyToFinish(rows.runs, r, closing);
      hide *;
      ghost var before: Runs := rows.runs;
      rows.runs := rows.runs[r := closing];
      NamedStill(before, r, closing);
      var _ := rows.CloseRunIfTerminal(r, now);
      Finished(before, rows.runs, r, closing, now);
    }

    lemma NamedStill(before: Runs, r: nat, closing: Run)
      requires r in before && (forall x :: x in before ==> x < rows.nextId) && IsForest(before[r := closing])
      requires rows.runs == before[r := closing]
      ensures rows.Named()
    {
    }

    /** Creates the run of a started child, unless its parent has a child by that name. */
    method CreateChild(r: nat, childId: nat, workflowType: string, input: Json, policy: ParentClosePolicy,
                       runTimeoutMs: Option<nat>, executionTimeoutMs: Option<nat>, now: int) returns (created: bool)
      requires Valid() && r in rows.runs
      modifies rows
      ensures Valid()
      ensures created <==> !HasChild(old(rows.runs), r, childId)
      ensures HasChild(rows.runs, r, childId)
      ensures !created ==> rows.runs == old(rows.runs) && rows.nextId == old(rows.nextId)
      ensures forall x :: x in old(rows.runs) ==> x in rows.runs && rows.runs[x] == old(rows.runs)[x]
      ensures PlacesStay(old(rows.runs), rows.runs)
      ensures created ==>
        var id := old(rows.nextId);
        id !in old(rows.runs) &&
        rows.runs == old(rows.runs)[id :=
          NewRun(ChildLink(r, childId, id, workflowType, input, policy, runTimeoutMs, executionTimeoutMs, now), now)]
      ensures created ==>
        HasJustBegun(rows.runs[old(rows.nextId)], workflowType, input, runTimeoutMs, DeadlineIn(executionTimeoutMs, now), now) &&
        IsChild(rows.runs[old(rows.nextId)].link, r, childId) && rows.runs[old(rows.nextId)].link.policy == Some(policy)
    {
      if HasChild(rows.runs, r, childId) {
        return false;
      }
      var id := rows.nextId;
      var link := ChildLink(r, childId, id, workflowType, input, policy, runTimeoutMs, executionTimeoutMs, now);
      NoSuchChild(rows.runs, id, link);
      FirstKeepsStore(rows.runs, id, link, now);
      NewRunHasJustBegun(link, now);
      PlacesOfNew(rows.runs, id, NewRun(link, now));
      hide StoreOk, NewRun, PlacesStay, HasJustBegun;
      rows.runs := rows.runs[id := NewRun(link, now)];
      rows.nextId := id + 1;
      assert IsChild(rows.runs[id].link, r, childId);
      return true;
    }

    /** Records one command of a decision that does not close the run. */
    method ApplyCommand(r: nat, command: Command, now: int)
      requires Valid() && r in rows.runs && rows.runs[r].IsRunning() && !IsClosing(CommandToEvent(command))
      modifies rows
      ensures Valid() && old(rows.runs).Keys <= rows.runs.Keys && r in rows.runs
      ensures PlacesStay(old(rows.runs), rows.runs)
      ensures forall x :: x in old(rows.runs) && x != r ==> rows.runs[x] == old(rows.runs)[x]
      ensures rows.runs[r] == WithCommand(old(rows.runs)[r], command, now)
      ensures ChildrenStarted(old(rows.runs), rows.runs, r, [command], now) && NamesNoOther(old(rows.runs), rows.runs, r, [command])
    {
      hide *;
      ValidIsOk();
      ghost var before: Runs := rows.runs;
      var run := rows.runs[r];
      CommandIsUpdate(before, r, command, now);
      SameLink(run, WithCommand(run, command, now));
      Write(r, WithCommand(run, command, now));
      ghost var mid: Runs := rows.runs;
      PlacesOfWrite(before, r, WithCommand(run, command, now));
      if command.StartChild? {
        ghost var id := rows.nextId;
        var created := CreateChild(r, command.childId, command.workflowType, command.input, command.policy,
                                   command.runTimeoutMs, command.executionTimeoutMs, now);
        PlacesOnward(before, mid, rows.runs);
        ChildIsCommanded(before, mid, rows.runs, r, command, now, created, id);
      } else {
        NoChildCommanded(before, mid, r, command, now);
      }
    }

    lemma {:induction false} ChildIsCommanded(before: Runs, mid: Runs, after: Runs, r: nat, command: Command, now: int, created: bool, id: nat)
      requires command.StartChild? && SameLinks(before, mid) && (created <==> !HasChild(mid, r, command.childId))
      requires HasChild(after, r, command.childId) && (!created ==> after == mid)
      requires created ==> id !in mid
      requires created ==>
        after == mid[id := NewRun(ChildLink(r, command.childId, id, command.workflowType, command.input, command.policy,
                                            command.runTimeoutMs, command.executionTimeoutMs, now), now)]
      ensures ChildrenStarted(before, after, r, [command], now) && NamesNoOther(before, after, r, [command])
    {
      CreatedAsCommanded(mid, after, r, command, now, created, id);
      SameChildren(before, mid, r);
      hide HasStarted, HasChild, SameLinks, NewRun, ChildLink;
      assert IsThere(mid, after, r, [command], 0, now);
    }

    lemma SameChildren(before: Runs, mid: Runs, r: nat)
      requires SameLinks(before, mid)
      ensures forall childId: nat :: HasChild(before, r, childId) <==> HasChild(mid, r, childId)
    {
      forall childId: nat
        ensures HasChild(before, r, childId) <==> HasChild(mid, r, childId)
      {
        assert forall x :: x in before ==> (IsChild(before[x].link, r, childId) <==> IsChild(mid[x].link, r, childId));
      }
    }

    /** Records the commands of a decision one by one, none of which closes the run. */
    method ApplyCommands(r: nat, commands: seq<Command>, now: int)
      requires Valid() && r in rows.runs && rows.runs[r].IsRunning()
      requires forall i :: 0 <= i < |commands| ==> !IsClosing(CommandToEvent(commands[i]))
      modifies rows
      ensures Valid() && old(rows.runs).Keys <= rows.runs.Keys && r in rows.runs
      ensures PlacesStay(old(rows.runs), rows.runs)
      ensures forall x :: x in old(rows.runs) && x != r ==> rows.runs[x] == old(rows.runs)[x]
      ensures rows.runs[r] == WithCommands(old(rows.runs)[r], commands, now)
      ensures ChildrenStarted(old(rows.runs), rows.runs, r, commands, now)
    {
      hide *;
      ValidIsOk();
      NoneStarted(rows.runs, r, now);
      PlacesStayPut(rows.runs);
      NoCommands(rows.runs[r], commands, now);
      for i := 0 to |commands|
        invariant Valid() && r in rows.runs && PlacesStay(old(rows.runs), rows.runs) && old(rows.runs).Keys <= rows.runs.Keys
        invariant forall x :: x in old(rows.runs) && x != r ==> rows.runs[x] == old(rows.runs)[x]
        invariant rows.runs[r] == WithCommands(old(rows.runs)[r], commands[..i], now) && rows.runs[r].IsRunning()
        invariant ChildrenStarted(old(rows.runs), rows.runs, r, commands[..i], now)
        invariant NamesNoOther(old(rows.runs), rows.runs, r, commands[..i])
      {
        assert commands[..i + 1] == commands[..i] + [commands[i]];
        ghost var mid: Runs := rows.runs;
        ApplyCommand(r, commands[i], now);
        PlacesOnward(old(rows.runs), mid, rows.runs);
        OneMoreCommand(old(rows.runs)[r], commands[..i], commands[i], now);
        OneMoreChild(old(rows.runs), mid, rows.runs, r, commands[..i], commands[i], now);
      }
      assert commands[..|commands|] == commands;
    }

    lemma NoCommands(run: Run, commands: seq<Command>, now: int)
      ensures WithCommands(run, commands[..0], now) == run
    {
    }

    lemma OneMoreCommand(run: Run, commands: seq<Command>, command: Command, now: int)
      ensures WithCommands(run, commands + [command], now) == WithCommand(WithCommands(run, commands, now), command, now)
      ensures WithCommands(run, commands + [command], now).IsRunning() <==> run.IsRunning()
    {
      assert (commands + [command])[..|commands|] == commands;
      CommandsKeepRow(run, commands + [command], now);
      hide WithCommand, CommandsToEvents;
    }

    /** The last command of a decision, when it closes the run. */
    method ApplyClosing(r: nat, command: Command, now: int)
      requires Valid() && r in rows.runs && rows.runs[r].IsRunning() && IsClosing(CommandToEvent(command))
      modifies rows
      ensures Valid() && old(rows.runs).Keys <= rows.runs.Keys && r in old(rows.runs)
      ensures var run := old(rows.runs)[r].Append(CommandToEvent(command), now);
              rows.runs[r].log == run.log && rows.runs[r].decisions == run.decisions && rows.runs[r].results == run.results
      ensures RunsAdvance(old(rows.runs), rows.runs)
    {
      hide *;
      ValidIsOk();
      ClosingCommandIs(command);
      if command.ContinueAsNew? {
        ContinueRun(r, command.input, now);
      } else {
        CloseWith(r, CommandToEvent(command), now);
      }
    }

    lemma ClosingCommandIs(command: Command)
      requires IsClosing(CommandToEvent(command))
      ensures command.ContinueAsNew? ==> CommandToEvent(command) == RunContinuedAsNew(command.input)
      ensures !command.ContinueAsNew? ==> !CommandToEvent(command).RunContinuedAsNew?
    {
    }

    /** Closes an open run by continuing as new: its successor is created in the same transaction. */
    method ContinueRun(r: nat, input: Json, now: int)
      requires Valid() && r in rows.runs && rows.runs[r].IsRunning()
      modifies rows
      ensures Valid() && r in old(rows.runs) && rows.runs.Keys == old(rows.runs).Keys + {old(rows.nextId)}
      ensures var id, run := old(rows.nextId), old(rows.runs)[r].Append(RunContinuedAsNew(input), now);
              rows.runs[r].log == run.log && rows.runs[r].decisions == run.decisions && rows.runs[r].results == run.results &&
              rows.runs[r].row.state == RunState.ContinuedAsNew && id !in old(rows.runs) && id in rows.runs
      ensures IsSuccessor(rows.runs[old(rows.nextId)], old(rows.runs)[r], r, input, now)
      ensures var id, run := old(rows.nextId), old(rows.runs)[r].Append(RunContinuedAsNew(input), now);
              var base: Runs := old(rows.runs)[id := NewRun(NextLink(run.link, r, input), now)][r := run];
              id in rows.runs && rows.runs[id] == base[id] &&
              forall x {:trigger rows.runs[x]} :: x in base && x in rows.runs ==> rows.runs[x] == After(base, r, x, now)
      ensures RunsAdvance(old(rows.runs), rows.runs)
    {
      hide *;
      ValidIsOk();
      var event, run, id := RunContinuedAsNew(input), rows.runs[r], rows.nextId;
      var closing, link := run.Append(event, now), NextLink(run.link, r, input);
      var next := NewRun(link, now);
      ghost var before: Runs := rows.runs;
      IdIsFree();
      PrepareSuccessor(before, r, input, id, now);
      TransactionsAdvance(run, 0, StepDone(Null), false, event, now);
      rows.runs := rows.runs[id := next];
      rows.nextId := id + 1;
      NamedWith(before, id, next);
      ghost var joined: Runs := rows.runs;
      Finish(r, closing, now);
      NextIsSuccessor(run, r, input, now);
      SuccessorOpen(before, rows.runs, r, closing, id, next, now);
      AfterJoining(before, joined, rows.runs, id, next);
    }

    lemma IdIsFree()
      requires rows.Named()
      ensures rows.nextId !in rows.runs && (forall x :: x in rows.runs ==> x < rows.nextId) && IsForest(rows.runs)
    {
    }

    lemma NamedWith(before: Runs, id: nat, next: Run)
      requires (forall x :: x in before ==> x < id) && rows.nextId == id + 1 && rows.runs == before[id := next] && IsForest(rows.runs)
      ensures rows.Named()
    {
    }

    /** Records all commands of a decision, of which only the last may close the run. */
    method RecordAll(r: nat, commands: seq<Command>, now: int)
      requires Valid() && r in rows.runs && rows.runs[r].IsRunning() && ClosesLast(CommandsToEvents(commands))
      modifies rows
      ensures Valid() && old(rows.runs).Keys <= rows.runs.Keys && r in rows.runs && RunsAdvance(old(rows.runs), rows.runs)
      ensures var recorded := WithCommands(old(rows.runs)[r], commands, now);
              rows.runs[r].log == recorded.log && rows.runs[r].decisions == recorded.decisions &&
              rows.runs[r].results == recorded.results
      ensures ChildrenStarted(old(rows.runs), rows.runs, r, commands, now)
    {
      hide *;
      ValidIsOk();
      ghost var run, before := rows.runs[r], rows.runs;
      OnlyLastCloses(commands);
      if commands == [] || !IsClosing(CommandToEvent(commands[|commands| - 1])) {
        ApplyCommands(r, commands, now);
        DecisionAdvances(run, commands, now);
        OneRunMoved(before, rows.runs, r);
      } else {
        var last := |commands| - 1;
        assert commands == commands[..last] + [commands[last]];
        ApplyCommands(r, commands[..last], now);
        OneMoreCommand(run, commands[..last], commands[last], now);
        CommandsKeepRow(run, commands[..last], now);
        SameRow(run, WithCommands(run, commands[..last], now), CommandsToEvents(commands[..last]));
        ClosingCommand(rows.runs[r], commands[last], now);
        ghost var mid := rows.runs;
        ApplyClosing(r, commands[last], now);
        DecisionAdvances(run, commands[..last], now);
        OthersStay(before, mid, rows.runs, r);
        AdvancingKeepsPlaces(mid, rows.runs);
        ChildrenStay(before, mid, rows.runs, r, commands[..last], now);
        ClosingStartsNoChild(commands[last]);
        NoMoreChild(before, rows.runs, r, commands[..last], commands[last], now);
      }
    }

    lemma SameRow(before: Run, after: Run, events: seq<Event>)
      requires OnlyRecorded(before, after, events)
      ensures after.row == before.row && (after.IsRunning() <==> before.IsRunning())
    {
    }

    lemma OnlyLastCloses(commands: seq<Command>)
      requires ClosesLast(CommandsToEvents(commands))
      ensures forall i :: 0 <= i < |commands| - 1 ==> !IsClosing(CommandToEvent(commands[i]))
    {
      hide IsClosing, CommandToEvent;
      assert forall i :: 0 <= i < |commands| ==> CommandsToEvents(commands)[i] == CommandToEvent(commands[i]);
    }

    /** Adds the row of a decision whose events are at the end of its run's log. */
    method AddDecision(r: nat, taskKey: nat, row: DecisionRow)
      requires Valid() && r in rows.runs && taskKey !in rows.runs[r].decisions && IsRangeOf(row, rows.runs[r].log)
      requires forall k :: k in rows.runs[r].decisions ==> rows.runs[r].decisions[k].last < row.first
      modifies rows`runs
      ensures Valid()
      ensures rows.runs == old(rows.runs)[r := old(rows.runs)[r].(decisions := old(rows.runs)[r].decisions[taskKey := row])]
    {
      hide *;
      ValidIsOk();
      var run := rows.runs[r];
      DecisionIsUpdate(rows.runs, r, taskKey, row);
      Write(r, run.(decisions := run.decisions[taskKey := row]));
    }

    /**
     Records a decision at the sequence number it was computed from: once per task, never on
     a closed run, and either all of its events or none of them.
     */
    method RecordWorkflowTaskResult(r: nat, taskKey: nat, expectedSeq: nat, commands: seq<Command>, now: int)
      returns (result: Receipt)
      requires Valid() && r in rows.runs
      modifies rows
      ensures Valid() && RunsAdvance(old(rows.runs), rows.runs)
      ensures !result.Accepted? ==> rows.runs == old(rows.runs)
      ensures result.Duplicate? <==> taskKey in old(rows.runs)[r].decisions
      ensures result.Duplicate? ==>
        result == Duplicate(old(rows.runs)[r].decisions[taskKey].first, old(rows.runs)[r].decisions[taskKey].last)
      ensures result.Discarded? <==> taskKey !in old(rows.runs)[r].decisions && !old(rows.runs)[r].IsRunning()
      ensures result.Conflict? <==> taskKey !in old(rows.runs)[r].decisions && old(rows.runs)[r].IsRunning() &&
                                    expectedSeq != |old(rows.runs)[r].log|
      ensures result.Accepted? ==>
        r in rows.runs && expectedSeq == |old(rows.runs)[r].log| && result == Accepted(expectedSeq + 1, expectedSeq + |commands|) &&
        IsRecordedAs(old(rows.runs)[r], rows.runs[r], taskKey, CommandsToEvents(commands))
      ensures result.Accepted? ==> ChildrenStarted(old(rows.runs), rows.runs, r, commands, now)
      ensures result.Accepted? ==> ReadsBack(rows.runs[r].log, expectedSeq, commands)
      ensures result.Accepted? ==> TimersStand(rows.runs[r], expectedSeq, commands) && EndsAs(rows.runs[r], commands)
    {
      hide StoreOk, RunOk, RunsAdvance, IsRecordedAs, ChildrenStarted, TimersStand, EndsAs, ReadsBack, CommandsToEvents, ClosesLast;
      var run, events := rows.runs[r], CommandsToEvents(commands);
      NothingMoved(rows.runs);
      if taskKey in run.decisions {
        return Duplicate(run.decisions[taskKey].first, run.decisions[taskKey].last);
      }
      if !run.IsRunning() {
        return Discarded;
      }
      if expectedSeq != |run.log| {
        return Conflict(|run.log|);
      }
      // Folding would refuse an event after the closing one and roll the transaction back.
      if !ClosesLast(events) {
        return InvalidOrder;
      }
      StoredIsOk(rows.runs, r);
      RecordNew(r, taskKey, commands, now);
      RecordedStands(run, rows.runs, r, taskKey, commands);
      return Accepted(expectedSeq + 1, expectedSeq + |commands|);
    }

    /** Records a decision of an open run that is not recorded yet. */
    method RecordNew(r: nat, taskKey: nat, commands: seq<Command>, now: int)
      requires Valid() && r in rows.runs && rows.runs[r].IsRunning() && taskKey !in rows.runs[r].decisions
      requires ClosesLast(CommandsToEvents(commands))
      modifies rows
      ensures Valid() && RunsAdvance(old(rows.runs), rows.runs) && r in old(rows.runs) && r in rows.runs
      ensures IsRecordedAs(old(rows.runs)[r], rows.runs[r], taskKey, CommandsToEvents(commands))
      ensures ChildrenStarted(old(rows.runs), rows.runs, r, commands, now)
    {
      hide *;
      ValidIsOk();
      ghost var before := rows.runs;
      var length, events := |rows.runs[r].log|, CommandsToEvents(commands);
      RecordRange(r, taskKey, commands, now);
      ghost var mid: Runs := rows.runs;
      ReadyParts(before[r], mid[r], taskKey, events);
      AddDecision(r, taskKey, DecisionRow(length + 1, length + |events|, events));
      TablesAdvance(mid[r], rows.runs[r]);
      OthersStayOn(before, mid, rows.runs, r);
      PlacesOfWrite(mid, r, rows.runs[r]);
      ChildrenStay(before, mid, rows.runs, r, commands, now);
    }

    lemma ReadyParts(before: Run, mid: Run, taskKey: nat, events: seq<Event>)
      requires IsRangeReady(before, mid, taskKey, events)
      ensures var row := DecisionRow(|before.log| + 1, |before.log| + |events|, events);
              taskKey !in mid.decisions && IsRangeOf(row, mid.log) && (forall k :: k in mid.decisions ==> mid.decisions[k].last < row.first) &&
              IsRecordedAs(before, mid.(decisions := mid.decisions[taskKey := row]), taskKey, events)
    {
    }

    /** Records the events of a decision, ready for the row that says where they are. */
    method RecordRange(r: nat, taskKey: nat, commands: seq<Command>, now: int)
      requires Valid() && r in rows.runs && rows.runs[r].IsRunning() && taskKey !in rows.runs[r].decisions
      requires ClosesLast(CommandsToEvents(commands))
      modifies rows
      ensures Valid() && old(rows.runs).Keys <= rows.runs.Keys && r in rows.runs && r in old(rows.runs)
      ensures RunsAdvance(old(rows.runs), rows.runs)
      ensures IsRangeReady(old(rows.runs)[r], rows.runs[r], taskKey, CommandsToEvents(commands))
      ensures ChildrenStarted(old(rows.runs), rows.runs, r, commands, now)
    {
      hide *;
      ValidIsOk();
      ghost var run := rows.runs[r];
      StoredIsOk(rows.runs, r);
      WithCommandsKeeps(run, commands, now);
      RecordAll(r, commands, now);
      RecordedAs(run, rows.runs[r], WithCommands(run, commands, now), CommandsToEvents(commands), taskKey);
    }

    /** Marks a timer of a closed run as one that will not fire. */
    method CancelTimer(r: nat, key: TimerKey, now: int)
      requires Valid() && r in rows.runs && key in rows.runs[r].timers && rows.runs[r].timers[key].state.TimerPending?
      requires !rows.runs[r].IsRunning()
      modifies rows`runs
      ensures Valid()
      ensures rows.runs == old(rows.runs)[r := WithTimerState(old(rows.runs)[r], key, TimerCancelledAt(now))]
      ensures RunsAdvance(old(rows.runs), rows.runs)
    {
      hide *;
      ValidIsOk();
      var run := rows.runs[r];
      CancellingIsUpdate(rows.runs, r, key, now);
      TimerOnlyAdvances(run, key, TimerCancelledAt(now));
      WritingStays(rows.runs, r, WithTimerState(run, key, TimerCancelledAt(now)));
      Write(r, WithTimerState(run, key, TimerCancelledAt(now)));
    }

    lemma TimerOnlyAdvances(run: Run, key: TimerKey, state: TimerState)
      requires key in run.timers
      ensures Advances(run, WithTimerState(run, key, state)) && WithTimerState(run, key, state).link == run.link
    {
    }

    /**
     Handles one due timer: a workflow timer is recorded in an open run's log and wakes the
     run, a limit closes it, and on a closed run either is only cancelled.
     */
    method FireTimer(r: nat, key: TimerKey, now: int) returns (fired: bool)
      requires Valid() && r in rows.runs && key in rows.runs[r].timers
      requires rows.runs[r].timers[key].state.TimerPending? && rows.runs[r].timers[key].fireAt <= now
      modifies rows`runs
      ensures Valid() && RunsAdvance(old(rows.runs), rows.runs) && r in rows.runs && r in old(rows.runs)
      ensures fired <==> old(rows.runs)[r].IsRunning()
      ensures !fired ==> rows.runs == old(rows.runs)[r := WithTimerState(old(rows.runs)[r], key, TimerCancelledAt(now))]
      ensures fired && key.WorkflowTimer? ==>
        rows.runs == old(rows.runs)[r := WithFired(old(rows.runs)[r], key.timerId, now, now)]
      ensures fired && !key.WorkflowTimer? ==>
        rows.runs[r].row.state == TimedOut && IsTimedOut(old(rows.runs), rows.runs, r, key, now)
      ensures OneTimer(old(rows.runs), rows.runs, r, key, if fired then TimerFiredAt(now) else TimerCancelledAt(now))
      ensures fired ==> IsFiredFor(old(rows.runs)[r], rows.runs[r], key, now)
    {
      hide *;
      ValidIsOk();
      if !rows.runs[r].IsRunning() {
        OneTimerMoved(rows.runs, r, WithTimerState(rows.runs[r], key, TimerCancelledAt(now)), key, TimerCancelledAt(now));
        CancelTimer(r, key, now);
        return false;
      }
      if key.WorkflowTimer? {
        OneTimerMoved(rows.runs, r, WithFired(rows.runs[r], key.timerId, now, now), key, TimerFiredAt(now));
        FiredIsFiredFor(rows.runs[r], key, now);
        TransactionsAdvance(rows.runs[r], 0, StepDone(Null), false, TimerFired(key.timerId), now);
        FiringIsUpdate(rows.runs, r, key.timerId, now);
        SameLink(rows.runs[r], WithFired(rows.runs[r], key.timerId, now, now));
        OpenRunMoved(rows.runs, r, WithFired(rows.runs[r], key.timerId, now, now));
        FireWorkflowTimer(r, key.timerId, now);
      } else {
        CloseAtLimit(r, key, now);
        LimitIsFiredFor(old(rows.runs)[r], rows.runs[r], key, now);
      }
      return true;
    }

    lemma OneTimerMoved(runs: Runs, r: nat, run: Run, key: TimerKey, state: TimerState)
      requires r in runs && key in runs[r].timers
      requires run == WithTimerState(runs[r], key, state) ||
        (key.WorkflowTimer? && state.TimerFiredAt? && run == WithFired(runs[r], key.timerId, state.at, state.at))
      ensures OneTimer(runs, runs[r := run], r, key, state)
    {
    }

    method FireWorkflowTimer(r: nat, timerId: nat, now: int)
      requires Valid() && r in rows.runs && rows.runs[r].IsRunning() && WorkflowTimer(timerId) in rows.runs[r].timers
      requires rows.runs[r].timers[WorkflowTimer(timerId)].state.TimerPending? &&
               rows.runs[r].timers[WorkflowTimer(timerId)].fireAt <= now
      modifies rows`runs
      ensures Valid() && rows.runs == old(rows.runs)[r := WithFired(old(rows.runs)[r], timerId, now, now)]
    {
      hide *;
      ValidIsOk();
      FiringIsUpdate(rows.runs, r, timerId, now);
      Write(r, WithFired(rows.runs[r], timerId, now, now));
    }

    /** Closes an open run whose run or execution limit is reached, and marks the limit's timer. */
    method CloseAtLimit(r: nat, key: TimerKey, now: int)
      requires Valid() && r in rows.runs && rows.runs[r].IsRunning() && key in rows.runs[r].timers
      requires !key.WorkflowTimer? && rows.runs[r].timers[key].fireAt <= now
      modifies rows`runs
      ensures Valid() && r in rows.runs && r in old(rows.runs) && RunsAdvance(old(rows.runs), rows.runs)
      ensures rows.runs[r].row.state == TimedOut && OneTimer(old(rows.runs), rows.runs, r, key, TimerFiredAt(now))
      ensures rows.runs[r].log == old(rows.runs)[r].log + [StoredEvent(|old(rows.runs)[r].log| + 1,
        RunTimedOut(if key == ExecutionTimeout then ExecutionLimit else RunLimit), now)]
      ensures IsTimedOut(old(rows.runs), rows.runs, r, key, now)
    {
      hide *;
      ValidIsOk();
      ghost var before := rows.runs;
      LimitCloses(before[r], key, now);
      CloseWith(r, LimitEvent(key), now);
      ghost var mid := rows.runs;
      var run := rows.runs[r];
      LimitIsUpdate(rows.runs, r, key, now);
      TimerOnlyAdvances(run, key, TimerFiredAt(now));
      Write(r, WithTimerState(run, key, TimerFiredAt(now)));
      StateTables(run, key, TimerFiredAt(now));
      TablesAdvance(run, rows.runs[r]);
      OthersStayOn(before, mid, rows.runs, r);
      TimedOutAtLimit(before, mid, rows.runs, r, key, now);
      TimersOfLimit(before, mid, rows.runs, r, key, LimitEvent(key), now);
    }

    lemma StateTables(run: Run, key: TimerKey, state: TimerState)
      requires key in run.timers
      ensures var after := WithTimerState(run, key, state);
              after.tasks == run.tasks && after.results == run.results && after.row == run.row && after.log == run.log && after.link == run.link
    {
    }

    lemma LimitCloses(run: Run, key: TimerKey, now: int)
      requires !key.WorkflowTimer?
      ensures IsClosing(LimitEvent(key)) && !LimitEvent(key).RunContinuedAsNew? && TerminalStateFor(LimitEvent(key)) == Some(TimedOut)
      ensures run.Append(LimitEvent(key), now).log ==
        run.log + [StoredEvent(|run.log| + 1, RunTimedOut(if key == ExecutionTimeout then ExecutionLimit else RunLimit), now)]
      ensures run.Append(LimitEvent(key), now).timers == run.timers
    {
    }

    method TerminateRun(r: nat, reason: Option<string>, now: int) returns (accepted: bool)
      requires Valid() && r in rows.runs
      modifies rows`runs
      ensures Valid() && (accepted <==> old(rows.runs)[r].IsRunning()) && RunsAdvance(old(rows.runs), rows.runs)
      ensures !accepted ==> rows.runs == old(rows.runs)
      ensures accepted ==>
        rows.runs.Keys == old(rows.runs).Keys && rows.runs[r].row.state == Terminated &&
        var base := old(rows.runs)[r := old(rows.runs)[r].Append(RunTerminated(reason), now)];
        forall x :: x in base ==> rows.runs[x] == After(base, r, x, now)
    {
      if !rows.runs[r].IsRunning() {
        return false;
      }
      CloseWith(r, RunTerminated(reason), now);
      return true;
    }
  }

  /** Everything the closing of a continued run needs. */
  lemma {:induction false} PrepareSuccessor(runs: Runs, r: nat, input: Json, id: nat, now: int)
    requires StoreOk(runs) && r in runs && runs[r].IsRunning() && id !in runs && forall x :: x in runs ==> x < id
    ensures var closing := runs[r].Append(RunContinuedAsNew(input), now);
            var joined: Runs := runs[id := NewRun(NextLink(closing.link, r, input), now)];
            AboutToClose(closing) && ClosingState(closing) == RunState.ContinuedAsNew && closing.link == runs[r].link &&
            ReadyToClose(joined[r := closing], r) && IsForest(joined)
  {
    hide *;
    var closing := runs[r].Append(RunContinuedAsNew(input), now);
    StoreParts(runs, r);
    StoreIsForest(runs);
    ContinuingIsReady(runs[r], input, now);
    var link := NextLink(closing.link, r, input);
    NextIsSuccessor(closing, r, input, now);
    ContinuedReady(runs, r, closing, id, input, now);
    var closed: Runs := runs[r := closing];
    var joined: Runs := runs[id := NewRun(link, now)];
    assert closed[id := NewRun(link, now)] == joined[r := closing];
    AddKeepsForest(runs, id, NewRun(link, now));
  }

  lemma {:induction false} ContinuingIsReady(run: Run, input: Json, now: int)
    requires RunOk(run) && run.IsRunning()
    ensures var closing := run.Append(RunContinuedAsNew(input), now);
            AboutToClose(closing) && ClosingState(closing) == RunState.ContinuedAsNew && Standing(closing) == RunState.ContinuedAsNew &&
            closing.link == run.link && HearsNothing(run, closing) && Asks(closing.log, input) &&
            forall childId: nat :: Count(closing.log, ChildEnd(childId)) == Count(run.log, ChildEnd(childId))
  {
    var event := RunContinuedAsNew(input);
    var closing := run.Append(event, now);
    ClosingIsAboutToClose(run, event, now);
    CountAppend(run, event, now);
    ClosedRowFolds(closing);
    StandingIsClosing(closing);
    assert closing.log[|run.log|].event == event;
    hide RunOk, AboutToClose, Count, Standing;
  }

  lemma {:induction false} WithCommandsKeeps(run: Run, commands: seq<Command>, now: int)
    ensures var recorded := WithCommands(run, commands, now);
            OnlyRecorded(run, recorded, CommandsToEvents(commands)) && recorded.decisions == run.decisions &&
            recorded.results == run.results
  {
    CommandsKeepRow(run, commands, now);
    hide WithCommands, CommandsToEvents;
  }

  lemma {:induction false} RecordedAs(before: Run, mid: Run, recorded: Run, events: seq<Event>, taskKey: nat)
    requires RunOk(before) && OnlyRecorded(before, recorded, events) && mid.log == recorded.log
    requires mid.decisions == before.decisions && mid.results == before.results
    ensures var row := DecisionRow(|before.log| + 1, |before.log| + |events|, events);
            IsRangeOf(row, mid.log) && (forall k :: k in mid.decisions ==> mid.decisions[k].last < row.first) &&
            IsRecordedAs(before, mid.(decisions := mid.decisions[taskKey := row]), taskKey, events)
    ensures taskKey !in before.decisions ==> IsRangeReady(before, mid, taskKey, events)
  {
    NewRange(before, mid, DecisionRow(|before.log| + 1, |before.log| + |events|, events));
    hide RunOk, IsRangeOf;
  }

  /** The successor is a run of its own: closing its predecessor leaves it open. */
  lemma {:induction false} SuccessorOpen(before: Runs, after: Runs, r: nat, closing: Run, id: nat, next: Run, now: int)
    requires r in before && id !in before && (forall x :: x in before ==> x < id) && IsForest(before)
    requires closing.link == before[r].link && next.link.parent == closing.link.parent && next.IsRunning()
    requires var joined: Runs := before[id := next];
             var base := joined[r := closing];
             after.Keys == base.Keys && forall x :: x in base ==> after[x] == After(base, r, x, now)
    ensures after[id] == next
  {
    var joined: Runs := before[id := next];
    var base := joined[r := closing];
    assert OlderParent(before, r);
    if base[id].link.parent.Some? {
      var p := base[id].link.parent.value;
      if Doomed(base, r, p) {
        DoomedIsBelow(base, r, p);
        BelowIsLater(base, r, p);
      }
    }
    assert FateOf(base, r, id) == Stays;
    hide Doomed, ToldToCancel, Run.Closed, ChildKeyOf;
  }

  lemma {:induction false} AfterJoining(before: Runs, joined: Runs, after: Runs, id: nat, next: Run)
    requires id !in before && joined == before[id := next] && RunsAdvance(joined, after) && next.link.index > 0
    ensures RunsAdvance(before, after)
  {
    hide Advances;
    forall x | x in before && x in after
      ensures Advances(before[x], after[x])
    {
      assert Advances(joined[x], after[x]);
    }
  }

  lemma ClosingStartsNoChild(command: Command)
    requires IsClosing(CommandToEvent(command))
    ensures !command.StartChild?
  {
  }

  lemma AdvancingKeepsPlaces(before: Runs, after: Runs)
    requires RunsAdvance(before, after)
    ensures PlacesStay(before, after)
  {
  }

  lemma {:induction false} ClosingCommand(run: Run, command: Command, now: int)
    requires IsClosing(CommandToEvent(command))
    ensures WithCommand(run, command, now) == run.Append(CommandToEvent(command), now)
  {
  }

  /** The rest of the runs, after the run itself was changed and then closed. */
  lemma {:induction false} OthersStay(before: Runs, mid: Runs, after: Runs, r: nat)
    requires r in before && before[r].IsRunning()
    requires PlacesStay(before, mid) && forall x :: x in before && x != r ==> mid[x] == before[x]
    requires RunsAdvance(mid, after) && RunAdvances(before[r], mid[r])
    ensures RunsAdvance(before, after)
  {
    hide RunAdvances;
    forall x | x in before && x in after
      ensures Advances(before[x], after[x])
    {
      assert Advances(mid[x], after[x]);
      if x == r {
        AdvancesOn(before[r], mid[r], after[r]);
      }
    }
  }

  lemma {:induction false} OthersStayOn(before: Runs, mid: Runs, after: Runs, r: nat)
    requires r in before && before[r].IsRunning() && r in mid && mid.Keys == after.Keys && after[r].link == mid[r].link
    requires RunsAdvance(before, mid) && RunAdvances(mid[r], after[r]) && forall x :: x in mid && x != r ==> after[x] == mid[x]
    ensures RunsAdvance(before, after)
  {
    hide RunAdvances;
    forall x | x in before && x in after
      ensures Advances(before[x], after[x])
    {
      assert Advances(before[x], mid[x]);
      if x == r {
        AdvancesOn(before[r], mid[r], after[r]);
      }
    }
  }

  /** The events a decision added are a range of their own, after every other decision's. */
  lemma {:induction false} NewRange(before: Run, after: Run, row: DecisionRow)
    requires RunOk(before) && after.decisions == before.decisions
    requires row == DecisionRow(|before.log| + 1, |before.log| + |row.events|, row.events)
    requires |after.log| == |before.log| + |row.events| && before.log <= after.log
    requires forall i :: 0 <= i < |row.events| ==> after.log[|before.log| + i].event == row.events[i]
    ensures IsRangeOf(row, after.log) && EventsOf(after.log[|before.log|..]) == row.events
    ensures forall k :: k in after.decisions ==> after.decisions[k].last < row.first
  {
    assert after.log[row.first - 1..row.last] == after.log[|before.log|..];
    assert forall i :: 0 <= i < |row.events| ==> after.log[|before.log|..][i].event == row.events[i];
    forall k | k in after.decisions
      ensures after.decisions[k].last < row.first
    {
      assert IsRangeOf(before.decisions[k], before.log);
    }
  }

  lemma {:induction false} StandingIsClosing(run: Run)
    requires AboutToClose(run)
    ensures Standing(run) == ClosingState(run) && IsTerminal(Standing(run))
    ensures Standing(run) == RunState.ContinuedAsNew <==> run.log[|run.log| - 1].event.RunContinuedAsNew?
  {
  }

  lemma {:induction false} AfterOfClosing(base: Runs, r: nat, now: int)
    requires r in base && AboutToClose(base[r])
    ensures After(base, r, r, now).row.state == ClosingState(base[r]) && After(base, r, r, now).log == base[r].log &&
            After(base, r, r, now).decisions == base[r].decisions && After(base, r, r, now).timers == base[r].timers &&
            After(base, r, r, now).results == base[r].results && After(base, r, r, now).link == base[r].link
  {
    ClosedRowFolds(base[r]);
  }
}
