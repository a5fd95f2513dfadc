/**
 What the transactions do to one run keeps what every run keeps: its row is the fold of
 its log, steps end once, timers fire once, decisions are disjoint ranges, and a closed
 run stays closed.
 */
module RunFacts {
  import opened WorkflowTypes
  import opened Projections
  import opened RunTables
  import opened CloseCascade

  lemma {:induction false} AppendKeepsRanges(run: Run, event: Event, now: int)
    requires DecisionsAreRanges(run)
    ensures DecisionsAreRanges(run.Append(event, now))
  {
    var after := run.Append(event, now);
    forall key | key in after.decisions
      ensures IsRangeOf(after.decisions[key], after.log)
    {
      var row := run.decisions[key];
      assert IsRangeOf(row, run.log);
      assert after.log[row.first - 1..row.last] == run.log[row.first - 1..row.last];
    }
  }

  lemma {:induction false} AppendKeepsFold(run: Run, event: Event, now: int)
    requires Numbered(run.log) && RowFollowsLog(run)
    ensures Numbered(run.Append(event, now).log) && RowFollowsLog(run.Append(event, now))
  {
    var after := run.Append(event, now);
    assert after.log[..run.row.lastSequenceNumber] == run.log[..run.row.lastSequenceNumber];
  }

  /** Counting after one more event. */
  lemma {:induction false} CountAppend(run: Run, event: Event, now: int)
    ensures forall topic :: (Count(run.Append(event, now).log, topic) ==
                             Count(run.log, topic) + if TopicOf(event) == Some(topic) then 1 else 0)
  {
    forall topic
      ensures Count(run.Append(event, now).log, topic) ==
              Count(run.log, topic) + if TopicOf(event) == Some(topic) then 1 else 0
    {
      CountSnoc(run.log, StoredEvent(|run.log| + 1, event, now), topic);
    }
  }

  /** Events that start no timer leave what the log starts as it was. */
  lemma {:induction false} NoStarts(log: seq<StoredEvent>, longer: seq<StoredEvent>, timerId: nat)
    requires log <= longer && forall i :: |log| <= i < |longer| ==> !longer[i].event.TimerStarted?
    ensures FirstStart(longer, timerId) == FirstStart(log, timerId)
    decreases |longer|
  {
    if |log| < |longer| {
      NoStarts(log, longer[..|longer| - 1], timerId);
    } else {
      assert log == longer;
    }
  }

  /** The same timers, none of them given up while the run is open. */
  ghost predicate KeepsTimers(before: Run, after: Run) {
    after.link == before.link && before.log <= after.log && (after.IsRunning() ==> before.IsRunning()) &&
    (forall i :: |before.log| <= i < |after.log| ==> !after.log[i].event.TimerStarted?) &&
    (forall timerId: nat :: WorkflowTimer(timerId) in after.timers <==> WorkflowTimer(timerId) in before.timers) &&
    forall timerId: nat :: WorkflowTimer(timerId) in after.timers ==>
      TimerStays(before.timers[WorkflowTimer(timerId)], after.timers[WorkflowTimer(timerId)], after.IsRunning())
  }

  predicate TimerStays(before: Timer, after: Timer, open: bool) {
    after.fireAt == before.fireAt && (open && after.state.TimerCancelledAt? ==> before.state.TimerCancelledAt?)
  }

  lemma {:induction false} TimersStay(before: Run, after: Run)
    requires TimersAreKept(before) && BeginsAsLinked(before) && KeepsTimers(before, after)
    ensures TimersAreKept(after) && BeginsAsLinked(after)
  {
    forall timerId: nat
      ensures TimerIsKept(after, timerId)
    {
      assert TimerIsKept(before, timerId);
      NoStarts(before.log, after.log, timerId);
    }
  }

  /** An event that ends nothing and schedules nothing leaves a run sound. */
  predicate IsPlain(event: Event) {
    match TopicOf(event)
    case None => !event.StepScheduled? && !event.TimerStarted?
    case Some(ChildEnd(_)) => true
    case _ => false
  }

  lemma {:induction false} PlainStays(run: Run, event: Event, now: int)
    requires ResultsAreOutcomes(run) && TimersFireOnce(run) && StepsAreKept(run) && IsPlain(event)
    ensures ResultsAreOutcomes(run.Append(event, now)) && TimersFireOnce(run.Append(event, now))
    ensures StepsAreKept(run.Append(event, now))
    ensures Count(run.Append(event, now).log, CancelWish) == Count(run.log, CancelWish)
  {
    CountAppend(run, event, now);
    hide Count, HasTask;
  }

  lemma {:induction false} PlainStartsNoTimer(run: Run, event: Event, now: int)
    requires IsPlain(event)
    ensures KeepsTimers(run, run.Append(event, now))
  {
  }

  lemma {:induction false} PlainKeepsSound(run: Run, event: Event, now: int)
    requires Sound(run) && IsPlain(event)
    ensures Sound(run.Append(event, now))
  {
    PlainStartsNoTimer(run, event, now);
    TimersStay(run, run.Append(event, now));
    AppendKeepsRanges(run, event, now);
    AppendKeepsFold(run, event, now);
    PlainStays(run, event, now);
    hide Count, Numbered, DecisionsAreRanges, RowFollowsLog, ResultsAreOutcomes, TimersFireOnce, StepsAreKept, IsPlain,
         Run.Append, TimersAreKept, BeginsAsLinked, KeepsTimers;
  }

  lemma {:induction false} EnqueueKeepsSound(run: Run, kind: TaskKind)
    requires Sound(run)
    ensures Sound(run.Enqueue(kind)) && (forall stepId :: HasTask(run.tasks, stepId) ==> HasTask(run.Enqueue(kind).tasks, stepId))
    ensures kind.StepTask? ==> HasTask(run.Enqueue(kind).tasks, kind.stepId)
    ensures ClosedMeansClosed(run) ==> ClosedMeansClosed(run.Enqueue(kind))
  {
    var after := run.Enqueue(kind);
    TimersStay(run, after);
    assert after.tasks[|run.tasks|] == Task(kind, TaskPending);
    forall stepId | HasTask(run.tasks, stepId)
      ensures HasTask(after.tasks, stepId)
    {
      var i :| 0 <= i < |run.tasks| && run.tasks[i].kind == StepTask(stepId);
      assert after.tasks[i] == run.tasks[i];
    }
    hide Count, Fold, IsRangeOf, Numbered, HasTask, FirstStart, TimersAreKept, KeepsTimers;
  }

  // ---- step results -------------------------------------------------------------

  /** The event that records a step's outcome. */
  function StepEvent(stepId: nat, result: StepResult, exhausted: bool): Event {
    match result
    case StepDone(value) => StepCompleted(stepId, value)
    case StepBroken(error) => StepFailed(stepId, error, exhausted)
  }

  function WithResult(run: Run, stepId: nat, result: StepResult, exhausted: bool, now: int): Run {
    run.Append(StepEvent(stepId, result, exhausted), now).(results := run.results[stepId := result])
  }

  /** A step's outcome came on record: one event at the end of the log that names it, and a row that says the same. */
  predicate IsOutcomeOn(before: Run, after: Run, stepId: nat, result: StepResult, exhausted: bool, now: int) {
    after == before.(log := after.log, results := before.results[stepId := result]) &&
    match result
    case StepDone(value) => after.log == before.log + [StoredEvent(|before.log| + 1, StepCompleted(stepId, value), now)]
    case StepBroken(error) => after.log == before.log + [StoredEvent(|before.log| + 1, StepFailed(stepId, error, exhausted), now)]
  }

  lemma ResultIsOutcomeOn(run: Run, stepId: nat, result: StepResult, exhausted: bool, now: int)
    ensures IsOutcomeOn(run, WithResult(run, stepId, result, exhausted, now), stepId, result, exhausted, now)
  {
  }

  lemma {:induction false} ResultKeepsResults(run: Run, stepId: nat, result: StepResult, exhausted: bool, now: int)
    requires ResultsAreOutcomes(run) && StepsAreKept(run) && stepId !in run.results
    ensures ResultsAreOutcomes(WithResult(run, stepId, result, exhausted, now))
    ensures StepsAreKept(WithResult(run, stepId, result, exhausted, now))
  {
    CountAppend(run, StepEvent(stepId, result, exhausted), now);
    hide Count, HasTask;
  }

  lemma {:induction false} ResultKeepsRest(run: Run, stepId: nat, result: StepResult, exhausted: bool, now: int)
    requires Sound(run) && ClosedMeansClosed(run) && run.IsRunning()
    ensures var after := WithResult(run, stepId, result, exhausted, now);
            Numbered(after.log) && RowFollowsLog(after) && DecisionsAreRanges(after) && TimersFireOnce(after) &&
            Count(after.log, CancelWish) <= 1 && ClosedMeansClosed(after)
  {
    var event := StepEvent(stepId, result, exhausted);
    AppendKeepsRanges(run, event, now);
    AppendKeepsFold(run, event, now);
    CountAppend(run, event, now);
    hide Count, Fold, IsRangeOf, ResultsAreOutcomes, StepsAreKept, TimersAreKept, BeginsAsLinked;
  }

  lemma ResultStartsNoTimer(run: Run, stepId: nat, result: StepResult, exhausted: bool, now: int)
    ensures KeepsTimers(run, WithResult(run, stepId, result, exhausted, now))
  {
  }

  lemma {:induction false} ResultKeepsOk(run: Run, stepId: nat, result: StepResult, exhausted: bool, now: int)
    requires RunOk(run) && run.IsRunning() && stepId !in run.results
    ensures RunOk(WithResult(run, stepId, result, exhausted, now))
  {
    ResultKeepsRest(run, stepId, result, exhausted, now);
    ResultKeepsResults(run, stepId, result, exhausted, now);
    ResultStartsNoTimer(run, stepId, result, exhausted, now);
    TimersStay(run, WithResult(run, stepId, result, exhausted, now));
    hide Count, KeepsTimers, Numbered, StepsAreKept, ResultsAreOutcomes, DecisionsAreRanges, RowFollowsLog, TimersFireOnce,
         ClosedMeansClosed, WithResult, TimersAreKept, BeginsAsLinked;
  }

  // ---- timers, cancellation, attempts ---------------------------------------------

  function WithFired(run: Run, timerId: nat, now: int, at: int): Run
    requires WorkflowTimer(timerId) in run.timers
  {
    run.Append(TimerFired(timerId), now)
      .(timers := run.timers[WorkflowTimer(timerId) := run.timers[WorkflowTimer(timerId)].(state := TimerFiredAt(at))])
      .Enqueue(WorkflowTask)
  }

  lemma {:induction false} FiringKeepsTimers(run: Run, timerId: nat, now: int, at: int)
    requires TimersFireOnce(run) && WorkflowTimer(timerId) in run.timers
    requires run.timers[WorkflowTimer(timerId)].state.TimerPending? && run.timers[WorkflowTimer(timerId)].fireAt <= at
    ensures TimersFireOnce(WithFired(run, timerId, now, at))
  {
    CountAppend(run, TimerFired(timerId), now);
    hide Count;
  }

  /** An event that ends no step and schedules none leaves the steps as they were. */
  lemma {:induction false} StepsStay(run: Run, event: Event, now: int)
    requires ResultsAreOutcomes(run) && StepsAreKept(run)
    requires ResultOf(event).None? && !event.StepScheduled?
    ensures ResultsAreOutcomes(run.Append(event, now)) && StepsAreKept(run.Append(event, now))
  {
    CountAppend(run, event, now);
    hide Count, HasTask;
  }

  lemma {:induction false} FiringKeepsOk(run: Run, timerId: nat, now: int, at: int)
    requires RunOk(run) && run.IsRunning() && WorkflowTimer(timerId) in run.timers
    requires run.timers[WorkflowTimer(timerId)].state.TimerPending? && run.timers[WorkflowTimer(timerId)].fireAt <= at
    ensures RunOk(WithFired(run, timerId, now, at))
  {
    var event := TimerFired(timerId);
    var fired := run.Append(event, now).(
      timers := run.timers[WorkflowTimer(timerId) := run.timers[WorkflowTimer(timerId)].(state := TimerFiredAt(at))]);
    AppendKeepsRanges(run, event, now);
    AppendKeepsFold(run, event, now);
    CountAppend(run, event, now);
    FiringKeepsTimers(run, timerId, now, at);
    TimersStay(run, fired);
    StepsStay(run, event, now);
    assert ClosedMeansClosed(fired) by { assert !IsClosing(event); }
    TableOnly(run.Append(event, now), fired);
    assert fired.Enqueue(WorkflowTask) == WithFired(run, timerId, now, at);
    assert TimersFireOnce(fired) by { TimersLook(fired, WithFired(run, timerId, now, at)); }
    hide Count, Fold, Numbered, DecisionsAreRanges, RowFollowsLog, StepsAreKept, ResultsAreOutcomes, TimersFireOnce,
         ClosedMeansClosed, WithFired, TimersAreKept, BeginsAsLinked;
    EnqueueKeepsSound(fired, WorkflowTask);
  }

  /** Which predicates look at a run's timers: only `TimersFireOnce`. */
  lemma {:induction false} TableOnly(run: Run, other: Run)
    requires other == run.(timers := other.timers)
    requires RowFollowsLog(run) && ResultsAreOutcomes(run) && DecisionsAreRanges(run) && StepsAreKept(run)
    ensures RowFollowsLog(other) && ResultsAreOutcomes(other) && DecisionsAreRanges(other) && StepsAreKept(other)
  {
    hide Count, Fold, IsRangeOf, HasTask;
  }

  lemma {:induction false} TimersLook(run: Run, other: Run)
    requires other == run.(tasks := other.tasks) && TimersFireOnce(other)
    ensures TimersFireOnce(run)
  {
    hide Count;
  }

  lemma {:induction false} AskingStays(run: Run, event: Event, now: int)
    requires ResultsAreOutcomes(run) && TimersFireOnce(run) && StepsAreKept(run) && ClosedMeansClosed(run)
    requires run.IsRunning() && event.CancelRequested?
    ensures var asked := run.Append(event, now);
            ResultsAreOutcomes(asked) && TimersFireOnce(asked) && StepsAreKept(asked) && ClosedMeansClosed(asked) &&
            Count(asked.log, CancelWish) == Count(run.log, CancelWish) + 1
  {
    IsNotClosing(event);
    CountAppend(run, event, now);
    hide Count, HasTask, IsClosing;
  }

  lemma {:induction false} AskingKeepsOk(run: Run, event: Event, now: int)
    requires RunOk(run) && run.IsRunning() && event.CancelRequested? && Count(run.log, CancelWish) == 0
    ensures RunOk(run.Append(event, now).Enqueue(WorkflowTask))
  {
    AppendKeepsRanges(run, event, now);
    AppendKeepsFold(run, event, now);
    AskingStays(run, event, now);
    TimersStay(run, run.Append(event, now));
    hide Count, TimersAreKept, BeginsAsLinked, Numbered, DecisionsAreRanges, RowFollowsLog, ResultsAreOutcomes, TimersFireOnce, StepsAreKept,
         ClosedMeansClosed, Run.Append, HasTask;
    EnqueueKeepsSound(run.Append(event, now), WorkflowTask);
  }

  lemma {:induction false} IsNotClosing(event: Event)
    requires event.CancelRequested? || event.ChildCompleted? || event.ChildFailed?
    ensures !IsClosing(event)
  {
  }

  /** Told of a child's end, an open run stays as it must be. */
  lemma {:induction false} PlainKeepsOk(run: Run, event: Event, now: int)
    requires RunOk(run) && IsPlain(event) && ((run.IsRunning() && !IsClosing(event)) || event.StepAttemptFailed?)
    ensures RunOk(run.Append(event, now))
  {
    PlainKeepsSound(run, event, now);
    assert event.StepAttemptFailed? ==> !IsClosing(event);
    hide Sound, IsClosing;
  }

  // ---- closing --------------------------------------------------------------------

  /** The event that closes an open run makes it about to close. */
  lemma {:induction false} ClosingIsAboutToClose(run: Run, event: Event, now: int)
    requires RunOk(run) && run.IsRunning() && IsClosing(event)
    ensures AboutToClose(run.Append(event, now)) && Some(ClosingState(run.Append(event, now))) == TerminalStateFor(event)
  {
    assert IsPlain(event);
    PlainKeepsSound(run, event, now);
    hide Sound;
  }

  lemma {:induction false} OkIsOpen(run: Run)
    requires RunOk(run) && run.IsRunning()
    ensures Open(run)
  {
  }

  /** The row of a run about to close takes its result, its error and its closing time from the closing event. */
  lemma {:induction false} ClosingRowSays(run: Run)
    requires AboutToClose(run)
    ensures ClosedBy(run.Closed().row, run.log[|run.log| - 1])
  {
    RestFolds(run);
    ClosedRowFolds(run);
    var unseen := run.log[run.row.lastSequenceNumber..];
    FoldSays(unseen, run.row);
    assert unseen[|unseen| - 1] == run.log[|run.log| - 1];
    hide Fold, Sound, ClosingState;
  }

  /** The row is at its own sequence number, and the rest of the log folds onto it, up to the closing event. */
  lemma {:induction false} RestFolds(run: Run)
    requires Numbered(run.log) && RowFollowsLog(run) && run.IsRunning() && run.log != []
    requires IsClosing(run.log[|run.log| - 1].event)
    requires forall i :: 0 <= i < |run.log| - 1 ==> !IsClosing(run.log[i].event)
    ensures var unseen := run.log[run.row.lastSequenceNumber..];
            run.row.lastSequenceNumber < |run.log| && Fold(unseen, run.row).Projected? &&
            Some(Fold(unseen, run.row).projection.state) == TerminalStateFor(run.log[|run.log| - 1].event) &&
            Fold(unseen, run.row).projection.lastSequenceNumber == |run.log|
  {
    var start := run.row.lastSequenceNumber;
    var unseen := run.log[start..];
    FoldsExactlyWhen(run.log[..start], Origin(run));
    assert run.log[..|run.log|] == run.log;
    assert forall i :: 0 <= i < |unseen| ==> unseen[i] == run.log[start + i];
    FoldsExactlyWhen(unseen, run.row);
  }

  /** The whole log of a run about to close folds as its rest does onto the row. */
  lemma {:induction false} WholeFolds(run: Run)
    requires Numbered(run.log) && RowFollowsLog(run)
    ensures Fold(run.log, Origin(run)) == Fold(run.log[run.row.lastSequenceNumber..], run.row)
  {
    var start := run.row.lastSequenceNumber;
    FoldConcat(run.log[..start], run.log[start..], Origin(run));
    assert run.log[..start] + run.log[start..] == run.log;
  }

  lemma {:induction false} RefreshedFolds(run: Run)
    requires Numbered(run.log) && RowFollowsLog(run) && Fold(run.log[run.row.lastSequenceNumber..], run.row).Projected?
    requires Fold(run.log[run.row.lastSequenceNumber..], run.row).projection.lastSequenceNumber == |run.log|
    ensures var row := Fold(run.log[run.row.lastSequenceNumber..], run.row).projection;
            run.Refreshed() == run.(row := row) && run.Closed() == run.(row := row, tasks := Withdrawn(run.tasks)) && RowFollowsLog(run.Closed())
  {
    hide Withdrawn, Numbered, Apply;
    WholeFolds(run);
    var after := run.Closed();
    assert after.log[..after.row.lastSequenceNumber] == run.log;
  }

  lemma {:induction false} ClosedRowFolds(run: Run)
    requires AboutToClose(run)
    ensures var after := run.Closed();
            after.row.state == ClosingState(run) && IsTerminal(after.row.state) && RowFollowsLog(after) &&
            after.row.lastSequenceNumber == |run.log| && after == run.(row := after.row, tasks := Withdrawn(run.tasks)) &&
            after.row == run.Refreshed().row
  {
    hide Run.Closed, Run.Refreshed, Withdrawn, RowFollowsLog, Numbered, ResultsAreOutcomes, DecisionsAreRanges, TimersFireOnce, StepsAreKept, Count,
         TimersAreKept, BeginsAsLinked, Fold;
    RestFolds(run);
    RefreshedFolds(run);
  }

  /** A run that is about to close closes: its row is the fold of its whole log, and it stays sound. */
  lemma {:induction false} ClosingKeepsOk(run: Run)
    requires AboutToClose(run)
    ensures RunOk(run.Closed()) && run.Closed().row.state == ClosingState(run)
    ensures forall i :: 0 <= i < |run.Closed().tasks| ==> run.Closed().tasks[i].state != TaskPending
  {
    ClosedRowFolds(run);
    var after := run.Closed();
    TimersStay(run, after);
    forall stepId | HasTask(run.tasks, stepId)
      ensures HasTask(after.tasks, stepId)
    {
      var i :| 0 <= i < |run.tasks| && run.tasks[i].kind == StepTask(stepId);
      assert after.tasks[i].kind == run.tasks[i].kind;
    }
    hide Count, Fold, IsRangeOf, Numbered, RowFollowsLog, Run.Closed, HasTask, DecisionsAreRanges, TimersAreKept, BeginsAsLinked, KeepsTimers;
  }
}
