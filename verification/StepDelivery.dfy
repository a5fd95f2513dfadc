/**
 Delivering a step's task: leases, redeliveries and crashes around the sequence of
 transactions that one delivery performs (packages/core/src/retry/step-task-processor.ts,
 packages/worker/src/worker.ts). However they are interleaved, a scheduled step of an open
 run keeps a task that waits, is leased or is quarantined until its outcome is recorded.
 */
module StepDelivery {
  import opened WorkflowTypes
  import opened Projections
  import opened RunTables
  import opened CloseCascade
  import opened RunFacts
  import opened RunProgress
  import opened FamilyTree
  import opened RunStores

  /** How far a delivery has come: still processing, allowed to finish the task, or returned without its lease. */
  datatype Stage = Processing | MayFinish | LeaseGone

  /** The transactions a delivery performs one after the other, with others in between. */
  datatype Action =
    | Look
    | Execute
    | LogFailure(attempt: nat, error: RecordedError, retryAt: Option<int>)
    | Record(result: StepResult)
    | Finish
    | GiveBack
    | Bury(error: RecordedError)

  /** How a step's code ended, and what the retry policy made of a failure. */
  datatype Executed =
    | Returned(result: Json)
    | Aborted
    | FailedForNow(error: RecordedError, retryAt: int)
    | FailedForGood(error: RecordedError)
    | OutOfAttempts(error: RecordedError)

  datatype Delivery = Delivery(task: nat, stage: Stage, todo: seq<Action>)

  /**
   What is left to do once the step's code has run: the attempt's failure is logged, its
   outcome recorded, the task finished, given back or dead-lettered; and the worker finishes
   it again once the processor returned, unless it was told that the lease is lost.
   */
  function PlanFor(e: Executed, attempt: nat): seq<Action> {
    match e
    case Returned(result) => [Record(StepDone(result)), Finish, Finish]
    case Aborted => []
    case FailedForNow(error, retryAt) => [LogFailure(attempt, error, Some(retryAt)), GiveBack, Finish]
    case FailedForGood(error) => [LogFailure(attempt, error, None), Record(StepBroken(error)), Finish, Finish]
    case OutOfAttempts(error) => [LogFailure(attempt, error, None), Bury(error), Finish]
  }

  /** No task is finished before its outcome is on record or its lease is gone. */
  predicate IsSafe(todo: seq<Action>, mayFinish: bool) {
    todo == [] ||
    match todo[0]
    case Look => todo == [Look]
    case Execute => todo == [Execute]
    case LogFailure(_, _, _) => IsSafe(todo[1..], mayFinish)
    case Finish => mayFinish && IsSafe(todo[1..], mayFinish)
    case _ => IsSafe(todo[1..], true)
  }

  lemma {:induction false} PlansAreSafe(e: Executed, attempt: nat)
    ensures IsSafe(PlanFor(e, attempt), false)
  {
    SafeToFinish();
    match e
    case Returned(result) =>
      assert PlanFor(e, attempt)[1..] == [Finish, Finish];
    case Aborted =>
    case FailedForNow(error, retryAt) =>
      assert PlanFor(e, attempt)[1..] == [GiveBack, Finish] && [GiveBack, Finish][1..] == [Finish];
    case FailedForGood(error) =>
      assert PlanFor(e, attempt)[1..] == [Record(StepBroken(error)), Finish, Finish];
      assert [Record(StepBroken(error)), Finish, Finish][1..] == [Finish, Finish];
    case OutOfAttempts(error) =>
      assert PlanFor(e, attempt)[1..] == [Bury(error), Finish] && [Bury(error), Finish][1..] == [Finish];
  }

  /**
   A delivery records the outcome its step's code came to, and no other: what was returned, or
   the error of its last failure, which is buried with the task when no attempt is left; and
   it logs a failed attempt exactly when one failed.
   */
  lemma {:induction false} PlansRecordTheEnding(e: Executed, attempt: nat, action: Action)
    ensures action in PlanFor(e, attempt) ==>
      match action
      case Record(StepDone(result)) => e == Returned(result)
      case Record(StepBroken(error)) => e == FailedForGood(error)
      case Bury(error) => e == OutOfAttempts(error)
      case LogFailure(number, error, retryAt) =>
        number == attempt && (if retryAt.Some? then e == FailedForNow(error, retryAt.value) else e in {FailedForGood(error), OutOfAttempts(error)})
      case GiveBack => e.FailedForNow?
      case _ => action == Finish && !e.Aborted?
    ensures match e
            case Returned(result) => Record(StepDone(result)) in PlanFor(e, attempt)
            case Aborted => PlanFor(e, attempt) == []
            case FailedForNow(error, retryAt) => LogFailure(attempt, error, Some(retryAt)) in PlanFor(e, attempt)
            case FailedForGood(error) =>
              LogFailure(attempt, error, None) in PlanFor(e, attempt) && Record(StepBroken(error)) in PlanFor(e, attempt)
            case OutOfAttempts(error) => LogFailure(attempt, error, None) in PlanFor(e, attempt) && Bury(error) in PlanFor(e, attempt)
  {
  }

  // ---- one delivery from its first transaction to its last -----------------------------------

  /** The log with a failed attempt in it, which is logged once. */
  function Attempted(log: seq<StoredEvent>, stepId: nat, attempt: nat, error: RecordedError, retryAt: Option<int>, now: int): seq<StoredEvent> {
    if AttemptRecorded(log, stepId, attempt) then log
    else log + [StoredEvent(|log| + 1, StepAttemptFailed(stepId, attempt, error, retryAt), now)]
  }

  /** The tasks with the one delivered in a new state, if the lease was the delivery's. */
  function TasksAfter(tasks: seq<Task>, task: nat, token: nat, state: TaskState): seq<Task>
    requires task < |tasks|
  {
    if tasks[task].state == TaskLeased(token) then tasks[task := tasks[task].(state := state)] else tasks
  }

  /**
   What a delivery that nothing comes between leaves behind: a step with a recorded outcome is
   only finished, and otherwise the log of an open run says how the step's code ended.
   */
  predicate IsProcessed(before: Run, after: Run, task: nat, stepId: nat, token: nat, e: Executed, attempt: nat, now: int)
    requires task < |before.tasks|
  {
    after == before.(log := after.log, results := after.results, tasks := after.tasks) &&
    if stepId in before.results then
      after.log == before.log && after.results == before.results && after.tasks == TasksAfter(before.tasks, task, token, TaskCompleted)
    else match e
      case Returned(result) =>
        after.tasks == TasksAfter(before.tasks, task, token, TaskCompleted) &&
        IsEndedIn(before, before.log, after, stepId, StepDone(result), StepCompleted(stepId, result), now)
      case Aborted => after == before
      case FailedForNow(error, retryAt) =>
        after.tasks == TasksAfter(before.tasks, task, token, TaskPending) && after.results == before.results &&
        after.log == Attempted(before.log, stepId, attempt, error, Some(retryAt), now)
      case FailedForGood(error) =>
        after.tasks == TasksAfter(before.tasks, task, token, TaskCompleted) &&
        IsEndedIn(before, Attempted(before.log, stepId, attempt, error, None, now), after, stepId, StepBroken(error),
                  StepFailed(stepId, error, false), now)
      case OutOfAttempts(error) =>
        after.tasks == TasksAfter(before.tasks, task, token, TaskCompleted) &&
        if before.tasks[task].state == TaskLeased(token)
        then IsEndedIn(before, Attempted(before.log, stepId, attempt, error, None, now), after, stepId, StepBroken(error),
                       StepFailed(stepId, error, true), now)
        else after.results == before.results && after.log == Attempted(before.log, stepId, attempt, error, None, now)
  }

  /** An open run has the outcome at the end of its log and in its row; a closed one takes none. */
  predicate IsEndedIn(before: Run, log: seq<StoredEvent>, after: Run, stepId: nat, result: StepResult, event: Event, now: int) {
    if before.IsRunning()
    then after.results == before.results[stepId := result] && after.log == log + [StoredEvent(|log| + 1, event, now)]
    else after.results == before.results && after.log == log
  }

  lemma SafeToFinish()
    ensures IsSafe([Finish], true) && IsSafe([Finish, Finish], true)
  {
    assert [Finish, Finish][1..] == [Finish];
  }

  // ---- no step is lost -----------------------------------------------------------------

  /** A run keeps its scheduled steps: each has its result, or a task that can still deliver it. */
  ghost predicate NoStepLost(run: Run) {
    run.IsRunning() ==>
      forall i :: 0 <= i < |run.log| && run.log[i].event.StepScheduled? && run.log[i].event.stepId !in run.results ==>
        exists t :: 0 <= t < |run.tasks| && run.tasks[t].kind == StepTask(run.log[i].event.stepId) && !run.tasks[t].state.TaskCompleted?
  }

  /** Keeping every step's task, and finishing one only after its result, is losing no step. */
  lemma {:induction false} KeptIsNotLost(run: Run)
    requires StepsAreKept(run)
    ensures NoStepLost(run)
  {
    if run.IsRunning() {
      forall i | 0 <= i < |run.log| && run.log[i].event.StepScheduled? && run.log[i].event.stepId !in run.results
        ensures exists t :: 0 <= t < |run.tasks| && run.tasks[t].kind == StepTask(run.log[i].event.stepId) && !run.tasks[t].state.TaskCompleted?
      {
        var stepId := run.log[i].event.stepId;
        assert HasTask(run.tasks, stepId);
        var t :| 0 <= t < |run.tasks| && run.tasks[t].kind == StepTask(stepId);
        assert !run.tasks[t].state.TaskCompleted?;
      }
    }
  }

  /** The task of a step may be finished: its result is recorded, or the run is closed. */
  predicate Settled(run: Run, task: nat) {
    task < |run.tasks| && (!run.IsRunning() || (run.tasks[task].kind.StepTask? ==> run.tasks[task].kind.stepId in run.results))
  }

  /** The deliveries of one run's step tasks, between them and the store's other transactions. */
  class StepDeliveries {
    var run: Run
    var deliveries: map<nat, Delivery>
    var nextToken: nat

    /** A lease names one delivery, and a delivery that may finish its task has its result on record. */
    ghost predicate DeliveryOk(token: nat)
      reads this
      requires token in deliveries
    {
      var d := deliveries[token];
      token < nextToken && d.task < |run.tasks| && run.tasks[d.task].kind.StepTask? && IsSafe(d.todo, d.stage != Processing) &&
      (d.stage == MayFinish ==> Settled(run, d.task)) &&
      (d.stage == LeaseGone ==> run.tasks[d.task].state != TaskLeased(token))
    }

    ghost predicate Knows(token: nat)
      reads this
    {
      token in deliveries && DeliveryOk(token)
    }

    ghost predicate Valid()
      reads this
    {
      StepsAreKept(run) &&
      (forall token :: token in deliveries ==> token < nextToken) &&
      (forall token {:trigger DeliveryOk(token)} :: token in deliveries ==> DeliveryOk(token)) &&
      forall t :: 0 <= t < |run.tasks| && run.tasks[t].state.TaskLeased? ==> run.tasks[t].state.token < nextToken
    }

    constructor (run: Run)
      requires StepsAreKept(run) && forall t :: 0 <= t < |run.tasks| ==> !run.tasks[t].state.TaskLeased?
      ensures Valid() && this.run == run
    {
      this.run, deliveries, nextToken := run, map[], 0;
    }

    /** In every reachable state no scheduled step of the open run is lost. */
    lemma NothingLost()
      requires Valid()
      ensures NoStepLost(run)
    {
      KeptIsNotLost(run);
    }

    /** The run moves on, with nothing taken back. */
    method Move(next: Run)
      requires Valid() && RunAdvances(run, next) && StepsAreKept(next)
      modifies this`run
      ensures Valid() && run == next
    {
      ghost var before := run;
      assert forall token :: token in deliveries ==> DeliveryOk(token);
      run := next;
      forall token | token in deliveries
        ensures DeliveryOk(token)
      {
        assert TaskAdvances(before.tasks[deliveries[token].task], next.tasks[deliveries[token].task], next.IsRunning());
      }
      forall t | 0 <= t < |next.tasks| && next.tasks[t].state.TaskLeased?
        ensures next.tasks[t].state.token < nextToken
      {
        assert t < |before.tasks| && TaskAdvances(before.tasks[t], next.tasks[t], next.IsRunning());
      }
    }

    /**
     Any transaction of the store, on this run or another: it finds the store as `before`, with
     this run in it, and leaves it in order and advanced, as every transaction of `RunStore` does.
     */
    method Meanwhile(r: nat, ghost before: Runs, after: Runs)
      requires Valid() && r in before && before[r] == run && r in after && RunsAdvance(before, after) && StoreOk(after)
      modifies this`run
      ensures Valid() && run == after[r]
    {
      assert Advances(before[r], after[r]);
      StoredIsOk(after, r);
      hide RunAdvances, StoreOk, RunsAdvance, ResultsAreOutcomes, DecisionsAreRanges, TimersFireOnce, RowFollowsLog, Numbered, Count, StepsAreKept,
           ClosedMeansClosed;
      Move(after[r]);
    }

    /** Writes a task's new state; a step task is finished only when its step is settled. */
    method SetTask(t: nat, state: TaskState)
      requires Valid() && t < |run.tasks| && (state.TaskCompleted? ==> Settled(run, t))
      requires state.TaskLeased? ==> state.token < nextToken && state.token !in deliveries
      modifies this`run
      ensures Valid() && run == old(run).(tasks := old(run).tasks[t := old(run).tasks[t].(state := state)])
    {
      ghost var before := run;
      assert forall token :: token in deliveries ==> DeliveryOk(token);
      run := run.(tasks := run.tasks[t := run.tasks[t].(state := state)]);
      forall stepId | HasTask(before.tasks, stepId)
        ensures HasTask(run.tasks, stepId)
      {
        var i :| 0 <= i < |before.tasks| && before.tasks[i].kind == StepTask(stepId);
        assert run.tasks[i].kind == StepTask(stepId);
      }
      forall token | token in deliveries
        ensures DeliveryOk(token)
      {
      }
    }

    /** Leases a waiting task, or one whose lease expired, to a new delivery under a new token. */
    method Lease(t: nat) returns (token: nat)
      requires Valid() && t < |run.tasks| && run.tasks[t].kind.StepTask? && (run.tasks[t].state.TaskPending? || run.tasks[t].state.TaskLeased?)
      modifies this
      ensures Valid() && token !in old(deliveries) && deliveries == old(deliveries)[token := Delivery(t, Processing, [Look])]
      ensures run == old(run).(tasks := old(run).tasks[t := old(run).tasks[t].(state := TaskLeased(token))])
    {
      token := nextToken;
      assert forall other :: other in deliveries ==> DeliveryOk(other);
      nextToken := nextToken + 1;
      forall other | other in deliveries
        ensures DeliveryOk(other)
      {
      }
      SetTask(t, TaskLeased(token));
      assert forall other :: other in deliveries ==> DeliveryOk(other);
      deliveries := deliveries[token := Delivery(t, Processing, [Look])];
      forall other | other in deliveries
        ensures DeliveryOk(other)
      {
      }
    }

    /** Quarantines a task, puts a quarantined one back, or takes a lease back: nothing is finished by it. */
    method Shelve(t: nat, state: TaskState)
      requires Valid() && t < |run.tasks| && !run.tasks[t].state.TaskCompleted?
      requires state == TaskPending || state == TaskQuarantined
      modifies this`run
      ensures Valid() && run == old(run).(tasks := old(run).tasks[t := old(run).tasks[t].(state := state)])
    {
      SetTask(t, state);
    }

    /** Where a delivery is after one of its actions, and what it does next. */
    method MoveOn(token: nat, stage: Stage, todo: seq<Action>)
      requires Valid() && Knows(token) && IsSafe(todo, stage != Processing)
      requires stage == MayFinish ==> Settled(run, deliveries[token].task)
      requires stage == LeaseGone ==> run.tasks[deliveries[token].task].state != TaskLeased(token)
      modifies this`deliveries
      ensures Valid() && deliveries == old(deliveries)[token := Delivery(old(deliveries)[token].task, stage, todo)]
    {
      assert forall other :: other in deliveries ==> DeliveryOk(other);
      deliveries := deliveries[token := Delivery(deliveries[token].task, stage, todo)];
      forall other | other in deliveries
        ensures DeliveryOk(other)
      {
      }
    }

    /** The delivery's next action. */
    predicate IsNext(token: nat, action: Action)
      reads this
    {
      token in deliveries && deliveries[token].todo != [] && deliveries[token].todo[0] == action
    }

    function StepOf(token: nat): nat
      requires token in deliveries && deliveries[token].task < |run.tasks| && run.tasks[deliveries[token].task].kind.StepTask?
      reads this
    {
      run.tasks[deliveries[token].task].kind.stepId
    }

    /** First a delivery looks whether the step has its result already; if so, only finishing is left. */
    method LookUp(token: nat) returns (recorded: bool)
      requires Valid() && Knows(token) && IsNext(token, Look)
      modifies this`deliveries
      ensures Valid() && Knows(token) && recorded == (StepOf(token) in run.results)
      ensures var task := old(deliveries)[token].task;
        deliveries == old(deliveries)[token :=
          if recorded then Delivery(task, MayFinish, [Finish, Finish]) else Delivery(task, deliveries[token].stage, [Execute])]
    {
      SafeToFinish();
      assert DeliveryOk(token);
      recorded := StepOf(token) in run.results;
      if recorded {
        MoveOn(token, MayFinish, [Finish, Finish]);
      } else {
        MoveOn(token, deliveries[token].stage, [Execute]);
      }
    }

    /** The step's code runs, and its ending decides what is left to do. */
    method RunStep(token: nat, e: Executed, attempt: nat)
      requires Valid() && Knows(token) && IsNext(token, Execute)
      modifies this`deliveries
      ensures Valid() && Knows(token)
      ensures deliveries == old(deliveries)[token := old(deliveries)[token].(todo := PlanFor(e, attempt))]
    {
      PlansAreSafe(e, attempt);
      SaferStill(PlanFor(e, attempt), deliveries[token].stage != Processing);
      assert DeliveryOk(token);
      MoveOn(token, deliveries[token].stage, PlanFor(e, attempt));
    }

    /**
     Whatever the processor awaits may fail: a delivery that was recording or finishing turns
     to what a failed attempt is left to do.
     */
    method TurnToFailure(token: nat, e: Executed, attempt: nat)
      requires Valid() && Knows(token) && !e.Returned?
      modifies this`deliveries
      ensures Valid() && Knows(token)
      ensures deliveries == old(deliveries)[token := old(deliveries)[token].(todo := PlanFor(e, attempt))]
    {
      PlansAreSafe(e, attempt);
      SaferStill(PlanFor(e, attempt), deliveries[token].stage != Processing);
      assert DeliveryOk(token);
      MoveOn(token, deliveries[token].stage, PlanFor(e, attempt));
    }

    /** Logs a failed attempt, once. */
    method Log(token: nat, attempt: nat, error: RecordedError, retryAt: Option<int>, now: int)
      requires Valid() && Knows(token) && IsNext(token, LogFailure(attempt, error, retryAt))
      modifies this`run, this`deliveries
      ensures Valid() && Knows(token)
      ensures var event := StepAttemptFailed(old(StepOf(token)), attempt, error, retryAt);
        run == if AttemptRecorded(old(run).log, old(StepOf(token)), attempt) then old(run) else old(run).Append(event, now)
      ensures deliveries == old(deliveries)[token := old(deliveries)[token].(todo := old(deliveries)[token].todo[1..])]
    {
      assert DeliveryOk(token);
      var stepId, rest := StepOf(token), deliveries[token].todo[1..];
      if !AttemptRecorded(run.log, stepId, attempt) {
        var event := StepAttemptFailed(stepId, attempt, error, retryAt);
        TransactionsAdvance(run, stepId, StepDone(Null), false, event, now);
        LoggingKeepsSteps(run, event, now);
        Move(run.Append(event, now));
      }
      assert DeliveryOk(token);
      MoveOn(token, deliveries[token].stage, rest);
    }

    /** What recording an outcome makes of the run: a closed run or an earlier outcome discards it. */
    function AfterRecording(r: Run, stepId: nat, result: StepResult, exhausted: bool, now: int): Run {
      if r.IsRunning() && stepId !in r.results then WithResult(r, stepId, result, exhausted, now) else r
    }

    /** Records the outcome of the step, after which its task may be finished. */
    method RecordOutcome(token: nat, result: StepResult, exhausted: bool, now: int, todo: seq<Action>)
      requires Valid() && Knows(token) && IsSafe(todo, true)
      modifies this`run, this`deliveries
      ensures Valid() && Knows(token) && run == AfterRecording(old(run), old(StepOf(token)), result, exhausted, now)
      ensures run.tasks == old(run).tasks && deliveries == old(deliveries)[token := Delivery(old(deliveries)[token].task, MayFinish, todo)]
    {
      assert DeliveryOk(token);
      var stepId := StepOf(token);
      if run.IsRunning() && stepId !in run.results {
        TransactionsAdvance(run, stepId, result, exhausted, StepCompleted(stepId, Null), now);
        StepsStayKept(run, stepId, result, exhausted, now);
        ResultIsThere(run, stepId, result, exhausted, now);
        hide RunAdvances, StepsAreKept, WithResult;
        Move(WithResult(run, stepId, result, exhausted, now));
      }
      MoveOn(token, MayFinish, todo);
    }

    method RecordNext(token: nat, result: StepResult, now: int)
      requires Valid() && Knows(token) && IsNext(token, Record(result))
      modifies this`run, this`deliveries
      ensures Valid() && Knows(token) && run == AfterRecording(old(run), old(StepOf(token)), result, false, now)
      ensures deliveries == old(deliveries)[token :=
        Delivery(old(deliveries)[token].task, MayFinish, old(deliveries)[token].todo[1..])]
    {
      assert DeliveryOk(token);
      RecordOutcome(token, result, false, now, deliveries[token].todo[1..]);
    }

    /** The run with the delivery's task in a new state, if the lease is still the delivery's. */
    function WhileLeased(token: nat, state: TaskState): Run
      requires token in deliveries && deliveries[token].task < |run.tasks|
      reads this
    {
      var t := deliveries[token].task;
      if run.tasks[t].state == TaskLeased(token) then run.(tasks := run.tasks[t := run.tasks[t].(state := state)]) else run
    }

    /** Finishes the task if the lease is still this delivery's, as the processor does and the worker after it. */
    method FinishNext(token: nat) returns (acked: bool)
      requires Valid() && Knows(token) && IsNext(token, Finish)
      modifies this`run, this`deliveries
      ensures Valid() && Knows(token) && acked == (old(run).tasks[old(deliveries)[token].task].state == TaskLeased(token))
      ensures run == old(WhileLeased(token, TaskCompleted))
      ensures deliveries == old(deliveries)[token := old(deliveries)[token].(todo := old(deliveries)[token].todo[1..])]
    {
      assert DeliveryOk(token);
      var t := deliveries[token].task;
      acked := run.tasks[t].state == TaskLeased(token);
      if acked {
        SetTask(t, TaskCompleted);
      }
      assert DeliveryOk(token);
      MoveOn(token, deliveries[token].stage, deliveries[token].todo[1..]);
    }

    /** Gives the task back for a later delivery, if the lease is still this one's. */
    method GiveBackNext(token: nat) returns (nacked: bool)
      requires Valid() && Knows(token) && IsNext(token, GiveBack)
      modifies this`run, this`deliveries
      ensures Valid() && Knows(token) && nacked == (old(run).tasks[old(deliveries)[token].task].state == TaskLeased(token))
      ensures run == old(WhileLeased(token, TaskPending))
      ensures deliveries == old(deliveries)[token :=
        Delivery(old(deliveries)[token].task, LeaseGone, old(deliveries)[token].todo[1..])]
    {
      assert DeliveryOk(token);
      var t := deliveries[token].task;
      nacked := run.tasks[t].state == TaskLeased(token);
      if nacked {
        SetTask(t, TaskPending);
      }
      assert DeliveryOk(token);
      MoveOn(token, LeaseGone, deliveries[token].todo[1..]);
    }

    /** Records the exhausted step and finishes its task in one transaction, or neither when the lease is gone. */
    method BuryNext(token: nat, error: RecordedError, now: int) returns (added: bool)
      requires Valid() && Knows(token) && IsNext(token, Bury(error))
      modifies this`run, this`deliveries
      ensures Valid() && Knows(token) && added == (old(run).tasks[old(deliveries)[token].task].state == TaskLeased(token))
      ensures !added ==> run == old(run)
      ensures added ==>
        var t, recorded := old(deliveries)[token].task, AfterRecording(old(run), old(StepOf(token)), StepBroken(error), true, now);
        t < |recorded.tasks| && run == recorded.(tasks := recorded.tasks[t := recorded.tasks[t].(state := TaskCompleted)])
      ensures deliveries == old(deliveries)[token :=
        Delivery(old(deliveries)[token].task, if added then MayFinish else LeaseGone, old(deliveries)[token].todo[1..])]
    {
      assert DeliveryOk(token);
      var t, rest := deliveries[token].task, deliveries[token].todo[1..];
      if run.tasks[t].state != TaskLeased(token) {
        MoveOn(token, LeaseGone, rest);
        return false;
      }
      hide WithResult, StepDeliveries.AfterRecording;
      RecordOutcome(token, StepBroken(error), true, now, rest);
      assert DeliveryOk(token);
      SetTask(t, TaskCompleted);
      assert DeliveryOk(token);
      return true;
    }

    predicate TaskIsThere(token: nat)
      reads this
    {
      token in deliveries && deliveries[token].task < |run.tasks| && run.tasks[deliveries[token].task].kind.StepTask?
    }

    lemma KnownTask(token: nat)
      requires Knows(token)
      ensures TaskIsThere(token)
    {
    }

    /** What recording leaves of a run whose step has no result: its log and results, as the outcome says, and the rest as it was. */
    lemma RecordingEnds(r: Run, stepId: nat, result: StepResult, exhausted: bool, now: int)
      requires stepId !in r.results
      ensures var after := AfterRecording(r, stepId, result, exhausted, now);
              after == r.(log := after.log, results := after.results) &&
              match result
              case StepDone(value) => IsEndedIn(r, r.log, after, stepId, result, StepCompleted(stepId, value), now)
              case StepBroken(error) => IsEndedIn(r, r.log, after, stepId, result, StepFailed(stepId, error, exhausted), now)
    {
    }

    /** The processor finishes the task, and the worker once more after it. */
    method FinishTwice(token: nat)
      requires Valid() && Knows(token) && deliveries[token].todo == [Finish, Finish] && TaskIsThere(token)
      modifies this`run, this`deliveries
      ensures Valid() && Knows(token) && deliveries[token].todo == [] && deliveries[token].task == old(deliveries)[token].task
      ensures run == old(run).(tasks := TasksAfter(old(run).tasks, old(deliveries)[token].task, token, TaskCompleted))
    {
      hide StepDeliveries.Valid, StepDeliveries.DeliveryOk;
      var first := FinishNext(token);
      var second := FinishNext(token);
    }

    /** The step returned: its result is recorded, and its task finished. */
    method EndReturned(token: nat, result: Json, attempt: nat, now: int)
      requires Valid() && Knows(token) && deliveries[token].todo == PlanFor(Returned(result), attempt)
      requires TaskIsThere(token) && StepOf(token) !in run.results
      modifies this`run, this`deliveries
      ensures Valid() && Knows(token) && deliveries[token].todo == [] && deliveries[token].task == old(deliveries)[token].task
      ensures IsProcessed(old(run), run, old(deliveries)[token].task, old(StepOf(token)), token, Returned(result), attempt, now)
    {
      hide StepDeliveries.Valid, StepDeliveries.DeliveryOk, StepDeliveries.AfterRecording, StepsAreKept, AttemptRecorded;
      RecordingEnds(run, StepOf(token), StepDone(result), false, now);
      RecordNext(token, StepDone(result), now);
      FinishTwice(token);
    }

    /** The step failed and is tried again later. */
    method EndForNow(token: nat, error: RecordedError, retryAt: int, attempt: nat, now: int)
      requires Valid() && Knows(token) && deliveries[token].todo == PlanFor(FailedForNow(error, retryAt), attempt)
      requires TaskIsThere(token) && StepOf(token) !in run.results
      modifies this`run, this`deliveries
      ensures Valid() && Knows(token) && deliveries[token].todo == [] && deliveries[token].task == old(deliveries)[token].task
      ensures IsProcessed(old(run), run, old(deliveries)[token].task, old(StepOf(token)), token, FailedForNow(error, retryAt), attempt, now)
    {
      hide StepDeliveries.Valid, StepDeliveries.DeliveryOk, StepDeliveries.AfterRecording, StepsAreKept, AttemptRecorded;
      Log(token, attempt, error, Some(retryAt), now);
      var given := GiveBackNext(token);
      var finished := FinishNext(token);
    }

    /** The step failed and is not tried again: its error is recorded, and its task finished. */
    method EndForGood(token: nat, error: RecordedError, attempt: nat, now: int)
      requires Valid() && Knows(token) && deliveries[token].todo == PlanFor(FailedForGood(error), attempt)
      requires TaskIsThere(token) && StepOf(token) !in run.results
      modifies this`run, this`deliveries
      ensures Valid() && Knows(token) && deliveries[token].todo == [] && deliveries[token].task == old(deliveries)[token].task
      ensures IsProcessed(old(run), run, old(deliveries)[token].task, old(StepOf(token)), token, FailedForGood(error), attempt, now)
    {
      hide StepDeliveries.Valid, StepDeliveries.DeliveryOk, StepDeliveries.AfterRecording, StepsAreKept, AttemptRecorded;
      Log(token, attempt, error, None, now);
      RecordingEnds(run, StepOf(token), StepBroken(error), false, now);
      RecordNext(token, StepBroken(error), now);
      FinishTwice(token);
    }

    /** The step has no attempt left: its error is recorded as exhausted and its task finished at once, or neither. */
    method EndBuried(token: nat, error: RecordedError, attempt: nat, now: int)
      requires Valid() && Knows(token) && deliveries[token].todo == PlanFor(OutOfAttempts(error), attempt)
      requires TaskIsThere(token) && StepOf(token) !in run.results
      modifies this`run, this`deliveries
      ensures Valid() && Knows(token) && deliveries[token].todo == [] && deliveries[token].task == old(deliveries)[token].task
      ensures IsProcessed(old(run), run, old(deliveries)[token].task, old(StepOf(token)), token, OutOfAttempts(error), attempt, now)
    {
      hide StepDeliveries.Valid, StepDeliveries.DeliveryOk, StepDeliveries.AfterRecording, StepsAreKept, AttemptRecorded;
      Log(token, attempt, error, None, now);
      RecordingEnds(run, StepOf(token), StepBroken(error), true, now);
      var added := BuryNext(token, error, now);
      var finished := FinishNext(token);
    }

    /** A delivery that nothing comes between: it looks, runs the step's code, and does what its ending asks for. */
    method Process(token: nat, e: Executed, attempt: nat, now: int)
      requires Valid() && Knows(token) && IsNext(token, Look)
      modifies this`run, this`deliveries
      ensures Valid() && Knows(token) && deliveries[token].todo == [] && deliveries[token].task == old(deliveries)[token].task
      ensures old(TaskIsThere(token))
      ensures IsProcessed(old(run), run, old(deliveries)[token].task, old(StepOf(token)), token, e, attempt, now)
    {
      hide StepDeliveries.Valid, StepsAreKept, AttemptRecorded, StepDeliveries.WhileLeased;
      KnownTask(token);
      var recorded := LookUp(token);
      if recorded {
        FinishTwice(token);
        return;
      }
      RunStep(token, e, attempt);
      KnownTask(token);
      match e
      case Returned(result) => EndReturned(token, result, attempt, now);
      case Aborted =>
      case FailedForNow(error, retryAt) => EndForNow(token, error, retryAt, attempt, now);
      case FailedForGood(error) => EndForGood(token, error, attempt, now);
      case OutOfAttempts(error) => EndBuried(token, error, attempt, now);
    }

    /** A worker that dies takes its delivery with it; the lease is left to expire. */
    method Crash(token: nat)
      requires Valid() && Knows(token)
      modifies this`deliveries
      ensures Valid() && deliveries == old(deliveries) - {token}
    {
      assert forall other :: other in deliveries ==> DeliveryOk(other);
      deliveries := deliveries - {token};
      forall other | other in deliveries
        ensures DeliveryOk(other)
      {
      }
    }
  }

  /** A decision recorded while deliveries are under way: whatever becomes of it, no step is lost. */
  method RecordDecisionMeanwhile(store: RunStore, steps: StepDeliveries, r: nat, taskKey: nat, expectedSeq: nat, commands: seq<Command>, now: int)
    returns (result: Receipt)
    requires store.Valid() && steps.Valid() && r in store.rows.runs && store.rows.runs[r] == steps.run
    modifies store.rows, steps`run
    ensures store.Valid() && steps.Valid() && r in store.rows.runs && store.rows.runs[r] == steps.run && NoStepLost(steps.run)
  {
    hide StoreOk, RunsAdvance, StepDeliveries.Valid;
    ghost var before: Runs := store.rows.runs;
    result := store.RecordWorkflowTaskResult(r, taskKey, expectedSeq, commands, now);
    StillThere(before, store.rows.runs, r);
    steps.Meanwhile(r, before, store.rows.runs);
    steps.NothingLost();
  }

  lemma StillThere(before: Runs, after: Runs, r: nat)
    requires RunsAdvance(before, after) && r in before
    ensures r in after
  {
  }

  /** A plan that is safe from the start is safe once finishing is allowed. */
  lemma {:induction false} SaferStill(todo: seq<Action>, mayFinish: bool)
    requires IsSafe(todo, false)
    ensures IsSafe(todo, mayFinish)
  {
    if mayFinish && todo != [] && todo[0].LogFailure? {
      SaferStill(todo[1..], mayFinish);
    }
  }

  lemma {:induction false} LoggingKeepsSteps(run: Run, event: Event, now: int)
    requires StepsAreKept(run) && event.StepAttemptFailed?
    ensures StepsAreKept(run.Append(event, now))
  {
    hide HasTask;
  }

  lemma {:induction false} ResultIsThere(run: Run, stepId: nat, result: StepResult, exhausted: bool, now: int)
    ensures stepId in WithResult(run, stepId, result, exhausted, now).results
    ensures WithResult(run, stepId, result, exhausted, now).tasks == run.tasks
  {
  }

  lemma {:induction false} StepsStayKept(run: Run, stepId: nat, result: StepResult, exhausted: bool, now: int)
    requires StepsAreKept(run)
    ensures StepsAreKept(WithResult(run, stepId, result, exhausted, now))
  {
    hide HasTask;
  }
}
