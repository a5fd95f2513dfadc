/**
 The tables of the run store as one transaction sees them: a row per run with its log,
 its recorded step results and decisions, its timers and its tasks. Runs are named in the
 order of their creation, so a parent's id is smaller than its child's.
 */
module RunTables {
  import opened WorkflowTypes
  import opened Projections

  datatype TimerKey = WorkflowTimer(timerId: nat) | RunTimeout | ExecutionTimeout

  datatype TimerState = TimerPending | TimerFiredAt(at: int) | TimerCancelledAt(at: int)

  datatype Timer = Timer(fireAt: int, state: TimerState)

  datatype TaskKind = WorkflowTask | StepTask(stepId: nat)

  datatype TaskState = TaskPending | TaskLeased(token: nat) | TaskCompleted | TaskQuarantined

  datatype Task = Task(kind: TaskKind, state: TaskState)

  /** The recorded outcome of a step. */
  datatype StepResult = StepDone(result: Json) | StepBroken(error: RecordedError)

  /** The log range of a recorded workflow task, and the events it was asked to record. */
  datatype DecisionRow = DecisionRow(first: nat, last: nat, events: seq<Event>)

  /** What never changes about a run: its parent, its chain, its limits and the schedule that started it. */
  datatype Link = Link(
    parent: Option<nat>,
    childKey: Option<nat>,
    policy: Option<ParentClosePolicy>,
    first: nat,
    index: nat,
    continuedFrom: Option<nat>,
    runTimeoutMs: Option<nat>,
    deadline: Option<int>,
    workflowType: string,
    input: Json,
    schedule: Option<nat>)

  datatype Run = Run(
    link: Link,
    row: Projection,
    log: seq<StoredEvent>,
    results: map<nat, StepResult>,
    decisions: map<nat, DecisionRow>,
    timers: map<TimerKey, Timer>,
    tasks: seq<Task>)
  {
    predicate IsRunning() {
      row.state == Running
    }

    /** Appends one event to the log. */
    function Append(event: Event, now: int): Run {
      this.(log := log + [StoredEvent(|log| + 1, event, now)])
    }

    function Enqueue(kind: TaskKind): Run {
      this.(tasks := tasks + [Task(kind, TaskPending)])
    }

    /** Brings the row up to date with the log, if it folds. */
    function Refreshed(): Run {
      if row.lastSequenceNumber > |log| then this
      else match Fold(log[row.lastSequenceNumber..], row)
        case Projected(next) => this.(row := next)
        case _ => this
    }

    /** Closes the run: its row follows its log, and its waiting tasks are withdrawn. */
    function Closed(): Run {
      var refreshed := Refreshed();
      refreshed.(tasks := Withdrawn(tasks))
    }
  }

  /** Every task still waiting for a worker counts as done. */
  function Withdrawn(tasks: seq<Task>): (withdrawn: seq<Task>)
    ensures |withdrawn| == |tasks|
  {
    seq(|tasks|, i requires 0 <= i < |tasks| =>
      if tasks[i].state == TaskPending then tasks[i].(state := TaskCompleted) else tasks[i])
  }

  function EventsOf(log: seq<StoredEvent>): (events: seq<Event>)
    ensures |events| == |log| && forall i :: 0 <= i < |log| ==> events[i] == log[i].event
  {
    seq(|log|, i requires 0 <= i < |log| => log[i].event)
  }

  /** What an event settles: a step, a timer, a child, or that the run is to be cancelled. */
  datatype Topic = StepEnd(stepId: nat) | TimerEnd(timerId: nat) | ChildEnd(childId: nat) | CancelWish

  function TopicOf(event: Event): Option<Topic> {
    match event
    case StepCompleted(stepId, _) => Some(StepEnd(stepId))
    case StepFailed(stepId, _, _) => Some(StepEnd(stepId))
    case TimerFired(timerId) => Some(TimerEnd(timerId))
    case ChildCompleted(childId, _) => Some(ChildEnd(childId))
    case ChildFailed(childId, _) => Some(ChildEnd(childId))
    case CancelRequested(_) => Some(CancelWish)
    case _ => None
  }

  /** How many events of a log settle `topic`. */
  function Count(log: seq<StoredEvent>, topic: Topic): nat {
    if log == [] then 0
    else Count(log[..|log| - 1], topic) + if TopicOf(log[|log| - 1].event) == Some(topic) then 1 else 0
  }

  lemma {:induction false} CountSnoc(log: seq<StoredEvent>, stored: StoredEvent, topic: Topic)
    ensures Count(log + [stored], topic) == Count(log, topic) + if TopicOf(stored.event) == Some(topic) then 1 else 0
  {
    assert (log + [stored])[..|log|] == log;
  }

  function ResultOf(event: Event): Option<StepResult> {
    match event
    case StepCompleted(_, result) => Some(StepDone(result))
    case StepFailed(_, error, _) => Some(StepBroken(error))
    case _ => None
  }

  /** An event that tells a run how a child of it ended. */
  predicate IsChildOutcome(event: Event) {
    event.ChildCompleted? || event.ChildFailed?
  }

  /** A run's log went on, without hearing of any child's end. */
  predicate HearsNothing(before: Run, after: Run) {
    before.log <= after.log && forall i :: |before.log| <= i < |after.log| ==> !IsChildOutcome(after.log[i].event)
  }

  // ---- what every run keeps ----------------------------------------------------

  predicate Numbered(log: seq<StoredEvent>) {
    forall i :: 0 <= i < |log| ==> log[i].sequenceNumber == i + 1
  }

  /** The row a run is created with. */
  function Origin(run: Run): Projection {
    Initial().(input := run.link.input)
  }

  /** The row is the fold of the log up to its own sequence number. */
  predicate RowFollowsLog(run: Run) {
    run.row.lastSequenceNumber <= |run.log| &&
    Fold(run.log[..run.row.lastSequenceNumber], Origin(run)) == Projected(run.row)
  }

  /** An open run's log holds no closing event; a closed run's log only failed attempts after its closing. */
  predicate ClosedMeansClosed(run: Run) {
    if run.IsRunning() then forall i :: 0 <= i < |run.log| ==> !IsClosing(run.log[i].event)
    else forall i :: run.row.lastSequenceNumber <= i < |run.log| ==> run.log[i].event.StepAttemptFailed?
  }

  /** A step has a result exactly when its log holds exactly one outcome, and they say the same. */
  ghost predicate ResultsAreOutcomes(run: Run) {
    (forall stepId: nat :: Count(run.log, StepEnd(stepId)) == if stepId in run.results then 1 else 0) &&
    forall i :: 0 <= i < |run.log| && ResultOf(run.log[i].event).Some? ==>
      run.log[i].event.stepId in run.results && run.results[run.log[i].event.stepId] == ResultOf(run.log[i].event).value
  }

  /** Recorded decisions are disjoint ranges of the log, and each holds exactly its own events. */
  ghost predicate DecisionsAreRanges(run: Run) {
    (forall key :: key in run.decisions ==> IsRangeOf(run.decisions[key], run.log)) &&
    forall k, l :: k in run.decisions && l in run.decisions && k != l ==> Disjoint(run.decisions[k], run.decisions[l])
  }

  ghost predicate IsRangeOf(row: DecisionRow, log: seq<StoredEvent>) {
    1 <= row.first <= row.last + 1 <= |log| + 1 && EventsOf(log[row.first - 1..row.last]) == row.events
  }

  predicate Disjoint(a: DecisionRow, b: DecisionRow) {
    a.last < b.first || b.last < a.first
  }

  /** A workflow timer fired exactly when the log says so, once, and never early. */
  ghost predicate TimersFireOnce(run: Run) {
    (forall timerId: nat ::
       Count(run.log, TimerEnd(timerId)) ==
       if WorkflowTimer(timerId) in run.timers && run.timers[WorkflowTimer(timerId)].state.TimerFiredAt? then 1 else 0) &&
    forall key :: key in run.timers && run.timers[key].state.TimerFiredAt? ==>
      run.timers[key].fireAt <= run.timers[key].state.at
  }

  /** Every scheduled step has a task, and while the run is open a finished task means a recorded result. */
  ghost predicate StepsAreKept(run: Run) {
    (forall i :: 0 <= i < |run.log| && run.log[i].event.StepScheduled? ==> HasTask(run.tasks, run.log[i].event.stepId)) &&
    (run.IsRunning() ==>
       forall i :: 0 <= i < |run.tasks| && run.tasks[i].kind.StepTask? && run.tasks[i].state.TaskCompleted? ==>
         run.tasks[i].kind.stepId in run.results)
  }

  /** When the first timer by that name that a log starts is due. */
  function FirstStart(log: seq<StoredEvent>, timerId: nat): Option<int> {
    if log == [] then None
    else
      var last := log[|log| - 1].event;
      match FirstStart(log[..|log| - 1], timerId)
      case Some(fireAt) => Some(fireAt)
      case None => if last.TimerStarted? && last.timerId == timerId then Some(last.fireAt) else None
  }

  /** Every timer the log starts has its row, due when it was first started to be, which no open run gives up. */
  ghost predicate TimersAreKept(run: Run) {
    forall timerId: nat :: TimerIsKept(run, timerId)
  }

  predicate TimerIsKept(run: Run, timerId: nat) {
    (WorkflowTimer(timerId) in run.timers <==> FirstStart(run.log, timerId).Some?) &&
    (WorkflowTimer(timerId) in run.timers ==>
       run.timers[WorkflowTimer(timerId)].fireAt == FirstStart(run.log, timerId).value &&
       (run.IsRunning() ==> !run.timers[WorkflowTimer(timerId)].state.TimerCancelledAt?))
  }

  /** The log begins with the start of the run, by its own type and with its own input. */
  predicate BeginsAsLinked(run: Run) {
    run.log != [] && run.log[0].event == RunStarted(run.link.workflowType, run.link.input)
  }

  predicate HasTask(tasks: seq<Task>, stepId: nat) {
    exists i :: 0 <= i < |tasks| && tasks[i].kind == StepTask(stepId)
  }

  /** What holds of a run between and within transactions, closing apart. */
  ghost predicate Sound(run: Run) {
    Numbered(run.log) && RowFollowsLog(run) && ResultsAreOutcomes(run) && DecisionsAreRanges(run) &&
    TimersFireOnce(run) && StepsAreKept(run) && Count(run.log, CancelWish) <= 1 && TimersAreKept(run) && BeginsAsLinked(run)
  }

  ghost predicate RunOk(run: Run) {
    Sound(run) && ClosedMeansClosed(run)
  }

  /** The run is still open, and its log just got the event that closes it. */
  ghost predicate AboutToClose(run: Run) {
    Sound(run) && run.IsRunning() && run.log != [] && IsClosing(run.log[|run.log| - 1].event) &&
    forall i :: 0 <= i < |run.log| - 1 ==> !IsClosing(run.log[i].event)
  }

  /** The state a run about to close closes in. */
  function ClosingState(run: Run): RunState {
    if run.log == [] then Running
    else match TerminalStateFor(run.log[|run.log| - 1].event) case Some(state) => state case None => Running
  }
}
