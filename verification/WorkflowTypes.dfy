/**
 The vocabulary of the replay engine: history events, the commands a decision
 produces, the calls a handler makes and what it observes of them.

 Ids that the engine writes as `step-N`, `timer-N` and `child-N` are the number N.
 Instants and durations are whole milliseconds.
 */
module WorkflowTypes {

  datatype Option<+T> = None | Some(value: T)

  datatype Json =
    | Null
    | Bool(flag: bool)
    | Number(number: real)
    | Text(text: string)
    | List(items: seq<Json>)
    | Object(fields: map<string, Json>)

  datatype RecordedError = RecordedError(name: string, message: string)

  datatype TimeoutKind = RunLimit | ExecutionLimit

  datatype ParentClosePolicy = Cancel | Terminate | Abandon

  datatype Event =
    | RunStarted(workflowType: string, input: Json)
    | RunCompleted(result: Json)
    | RunFailed(error: RecordedError)
    | RunTimedOut(kind: TimeoutKind)
    | RunCancelled(reason: Option<string>)
    | RunTerminated(reason: Option<string>)
    | RunContinuedAsNew(input: Json)
    | CancelRequested(reason: Option<string>)
    | StepScheduled(stepId: nat, stepType: string, input: Json)
    | StepCompleted(stepId: nat, result: Json)
    | StepFailed(stepId: nat, error: RecordedError, exhausted: bool)
    | StepAttemptFailed(stepId: nat, attempt: nat, error: RecordedError, retryAt: Option<int>)
    | TimerStarted(timerId: nat, fireAt: int, durationMs: Option<int>)
    | TimerFired(timerId: nat)
    | SignalReceived(signalName: string, payload: Json)
    | ChildStarted(childId: nat, workflowType: string, input: Json, policy: ParentClosePolicy,
                   runTimeoutMs: Option<nat>, executionTimeoutMs: Option<nat>)
    | ChildCompleted(childId: nat, result: Json)
    | ChildFailed(childId: nat, error: RecordedError)
    | PatchRecorded(patchId: string, buildId: Option<string>)
    | TimeRecorded(time: int)
    | CompensationFailed(index: nat, error: RecordedError)

  /** The four kinds of command whose order a replay has to reproduce. */
  datatype CommandShape =
    | StepShape(id: nat, stepType: string, input: Json)
    | TimerShape(id: nat, durationMs: Option<int>)
    | ChildShape(id: nat, workflowType: string, input: Json)
    | PatchShape(patchId: string)

  datatype Command =
    | ScheduleStep(stepId: nat, stepType: string, input: Json)
    | StartTimer(timerId: nat, fireAt: int, durationMs: int)
    | StartChild(childId: nat, workflowType: string, input: Json, policy: ParentClosePolicy,
                 runTimeoutMs: Option<nat>, executionTimeoutMs: Option<nat>)
    | RecordPatch(patchId: string, buildId: Option<string>)
    | RecordTime(time: int)
    | CompleteRun(result: Json)
    | FailRun(error: RecordedError)
    | ContinueAsNew(input: Json)

  /** Everything a handler can be rejected with, or throw. */
  datatype WorkflowError =
    | Recorded(error: RecordedError)
    | StepExhausted(stepId: nat, stepType: string, cause: RecordedError)
    | InvalidSleepDuration
    | ChildLimitExceeded(limit: nat)
    | NonDeterminism(recorded: Option<CommandShape>, issued: Option<CommandShape>)
    | Other(name: string, message: string)

  /** A JavaScript number used as a duration: `NotFinite` is NaN or an infinity. */
  datatype Duration = Finite(ms: int) | NotFinite

  /** A call on the workflow context. */
  datatype Call =
    | Step(stepType: string, input: Json)
    | Sleep(duration: Duration)
    | WaitForSignal(signalName: string)
    | ExecuteChild(workflowType: string, input: Json, policy: ParentClosePolicy,
                   runTimeoutMs: Option<nat>, executionTimeoutMs: Option<nat>)
    | Select(branches: seq<nat>)
    | Patched(patchId: string)
    | Now
    | Draw
    | ContinueWith(input: Json)
    | OnCancel

  /** What a call returns at once. A promise is named by its creation order. */
  datatype Answer =
    | Promised(promise: nat)
    | Flag(flag: bool)
    | Instant(time: int)
    | Drawn(value: Json)
    | Raised(error: WorkflowError)
    | Acknowledged

  /** How a promise settles. */
  datatype Outcome =
    | Fulfilled(value: Json)
    | Selected(branch: nat, value: Json)
    | Rejected(error: WorkflowError)

  datatype Settlement =
    | Completed(result: Json)
    | Failed(error: WorkflowError)

  /** One thing a handler has seen since it was started. */
  datatype Observation =
    | Started(input: Json)
    | Answered(answer: Answer)
    | Resumed(promise: nat, outcome: Outcome)

  /** What a handler does next: call the context, settle its own promise, or wait. */
  datatype Action =
    | Do(call: Call)
    | Settle(settlement: Settlement)
    | Idle

  /**
   A deterministic workflow function. What it does next depends only on what it
   has observed so far, so the observations are its state.
   */
  datatype Handler = Handler(next: seq<Observation> -> Action)

  /** The options that stay the same for every decision of a run. */
  datatype Settings = Settings(
    maxChildren: nat,
    draw: nat -> Json,
    maxTurns: nat,
    buildId: Option<string>,
    warningThreshold: Option<nat>)

  /**
   The options that belong to one decision: `clock(k)` is the reading taken after the
   handler has issued k commands and clock questions in all.
   */
  datatype Moment = Moment(clock: nat -> int, triggeredAt: Option<int>)

  predicate IsIntegrityError(error: WorkflowError) {
    error.NonDeterminism?
  }

  function ToRecordedError(error: WorkflowError): RecordedError {
    match error
    case Recorded(recorded) => recorded
    case StepExhausted(_, _, cause) => RecordedError("StepFailedError", cause.message)
    case InvalidSleepDuration => RecordedError("InvalidSleepDurationError", "")
    case ChildLimitExceeded(_) => RecordedError("ChildLimitExceededError", "")
    case NonDeterminism(_, _) => RecordedError("NonDeterminismError", "")
    case Other(name, message) => RecordedError(name, message)
  }

  /** The event that records a command in the run's history. */
  function CommandToEvent(command: Command): Event {
    match command
    case ScheduleStep(stepId, stepType, input) => StepScheduled(stepId, stepType, input)
    case StartTimer(timerId, fireAt, durationMs) => TimerStarted(timerId, fireAt, Some(durationMs))
    case StartChild(childId, workflowType, input, policy, runTimeoutMs, executionTimeoutMs) =>
      ChildStarted(childId, workflowType, input, policy, runTimeoutMs, executionTimeoutMs)
    case RecordPatch(patchId, buildId) => PatchRecorded(patchId, buildId)
    case RecordTime(time) => TimeRecorded(time)
    case CompleteRun(result) => RunCompleted(result)
    case FailRun(error) => RunFailed(error)
    case ContinueAsNew(input) => RunContinuedAsNew(input)
  }

  /** The command an event of a decision stands for, with everything it carries. */
  function CommandIn(event: Event): Option<Command> {
    match event
    case StepScheduled(stepId, stepType, input) => Some(ScheduleStep(stepId, stepType, input))
    case TimerStarted(timerId, fireAt, Some(durationMs)) => Some(StartTimer(timerId, fireAt, durationMs))
    case ChildStarted(childId, workflowType, input, policy, runTimeoutMs, executionTimeoutMs) =>
      Some(StartChild(childId, workflowType, input, policy, runTimeoutMs, executionTimeoutMs))
    case PatchRecorded(patchId, buildId) => Some(RecordPatch(patchId, buildId))
    case TimeRecorded(time) => Some(RecordTime(time))
    case RunCompleted(result) => Some(CompleteRun(result))
    case RunFailed(error) => Some(FailRun(error))
    case RunContinuedAsNew(input) => Some(ContinueAsNew(input))
    case _ => None
  }

  /** Nothing of a command is lost in its event: it can be read back. */
  lemma CommandReadsBack(command: Command)
    ensures CommandIn(CommandToEvent(command)) == Some(command)
  {
  }

  function CommandsToEvents(commands: seq<Command>): (events: seq<Event>)
    ensures |events| == |commands|
    ensures forall i :: 0 <= i < |commands| ==> events[i] == CommandToEvent(commands[i])
  {
    seq(|commands|, i requires 0 <= i < |commands| => CommandToEvent(commands[i]))
  }
}
