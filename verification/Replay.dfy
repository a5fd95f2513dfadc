/**
 What it means to replay a handler over a history: the reference both the replay
 loop and the live session are proved against.

 Every promise the context hands out carries the history index that settles it, if
 the history holds one. The history is delivered index by index; delivering an
 index makes the promises due there ready, in creation order, and then the handler
 runs until no promise is ready and it waits (`Drain`). A handler that does not
 come to rest within `maxTurns` turns hangs its worker, and nothing happens after.
 */
module Replay {
  import opened WorkflowTypes
  import opened CommandMatching

  /** What a promise waits for. */
  datatype Wait =
    | OnStep(stepId: nat, stepType: string)
    | OnTimer(timerId: nat)
    | OnSignal(name: string, index: nat)
    | OnChild(childId: nat)
    | OnSelect
    | OnNothing

  /** The event that settles a promise, and how: as `wait` does, as the given branch of a select. */
  datatype Due = Due(index: nat, wait: Wait, branch: Option<nat>)

  datatype Promise = Promise(wait: Wait, due: Option<Due>)

  datatype Ready = Ready(promise: nat, outcome: Outcome)

  /** How many signals called `name` a history holds. */
  function CountSignals(history: seq<Event>, name: string): nat {
    if history == [] then 0
    else
      var last := |history| - 1;
      CountSignals(history[..last], name) +
      if history[last].SignalReceived? && history[last].signalName == name then 1 else 0
  }

  /** Whether the event at `index` is one that settles `wait`. */
  predicate Settles(history: seq<Event>, index: nat, wait: Wait)
    requires index < |history|
  {
    match wait
    case OnStep(stepId, _) =>
      (history[index].StepCompleted? || history[index].StepFailed?) && history[index].stepId == stepId
    case OnTimer(timerId) => history[index].TimerFired? && history[index].timerId == timerId
    case OnSignal(name, nth) =>
      history[index].SignalReceived? && history[index].signalName == name &&
      CountSignals(history[..index], name) == nth
    case OnChild(childId) =>
      (history[index].ChildCompleted? || history[index].ChildFailed?) && history[index].childId == childId
    case OnSelect => false
    case OnNothing => false
  }

  /** The first event at or after `from` that settles `wait`. */
  function FindFrom(history: seq<Event>, wait: Wait, from: nat): (found: Option<nat>)
    requires from <= |history|
    ensures found.Some? ==>
      from <= found.value < |history| && Settles(history, found.value, wait) &&
      forall i :: from <= i < found.value ==> !Settles(history, i, wait)
    ensures found.None? ==> forall i :: from <= i < |history| ==> !Settles(history, i, wait)
    decreases |history| - from
  {
    if from == |history| then None
    else if Settles(history, from, wait) then Some(from)
    else FindFrom(history, wait, from + 1)
  }

  function Find(history: seq<Event>, wait: Wait): Option<nat> {
    FindFrom(history, wait, 0)
  }

  /** What a promise waiting for `wait` settles with when `event` settles it. */
  function Settled(event: Event, wait: Wait): Outcome {
    match event
    case StepCompleted(_, result) => Fulfilled(result)
    case StepFailed(_, error, exhausted) =>
      Rejected(if exhausted && wait.OnStep? then StepExhausted(wait.stepId, wait.stepType, error) else Recorded(error))
    case SignalReceived(_, payload) => Fulfilled(payload)
    case ChildCompleted(_, result) => Fulfilled(result)
    case ChildFailed(_, error) => Rejected(Recorded(error))
    case _ => Fulfilled(Null)
  }

  function OutcomeOf(history: seq<Event>, due: Due): Outcome
    requires due.index < |history|
  {
    var outcome := Settled(history[due.index], due.wait);
    if due.branch.Some? && outcome.Fulfilled? then Selected(due.branch.value, outcome.value) else outcome
  }

  /** The recorded answers of `ctx.now()`, in order. */
  function Times(history: seq<Event>): seq<int> {
    if history == [] then []
    else
      var last := |history| - 1;
      Times(history[..last]) + if history[last].TimeRecorded? then [history[last].time] else []
  }

  function PatchIds(history: seq<Event>): set<string> {
    set event | event in history && event.PatchRecorded? :: event.patchId
  }

  /** How many steps, timers and children a history recorded. */
  function CommandCount(history: seq<Event>): nat {
    if history == [] then 0
    else
      var last := history[|history| - 1];
      CommandCount(history[..|history| - 1]) +
      if last.StepScheduled? || last.TimerStarted? || last.ChildStarted? then 1 else 0
  }

  /** The promises due at history index `index`, in creation order, with their outcomes. */
  function Releases(history: seq<Event>, promises: seq<Promise>, index: nat): seq<Ready>
    requires index < |history|
  {
    if promises == [] then []
    else
      var last := |promises| - 1;
      Releases(history, promises[..last], index) +
      if promises[last].due.Some? && promises[last].due.value.index == index
      then [Ready(last, OutcomeOf(history, promises[last].due.value))] else []
  }

  /** Whether the promise has a known place in the history; the result of a select has none. */
  predicate Placed(promises: seq<Promise>, promise: nat) {
    promise < |promises| && promises[promise].due.Some? && !promises[promise].wait.OnSelect?
  }

  /** The branch whose promise settles first, by history index; the earlier branch on a tie. */
  function Winner(promises: seq<Promise>, branches: seq<nat>): (winner: Option<nat>)
    ensures winner.Some? ==> winner.value < |branches| && Placed(promises, branches[winner.value])
  {
    if branches == [] then None
    else
      var last := |branches| - 1;
      var best := Winner(promises, branches[..last]);
      if Placed(promises, branches[last]) &&
         (best.None? ||
          promises[branches[last]].due.value.index < promises[branches[best.value]].due.value.index)
      then Some(last) else best
  }

  /** How many calls of each counted kind were made; `signals` counts waits by name. */
  datatype Counters = Counters(steps: nat, timers: nat, children: nat, draws: nat, signals: map<string, nat>) {
    function Ordered(): nat {
      steps + timers + children
    }
  }

  /**
   What was settled with the history so far: every command issued, every `ctx.now()`
   answered, every patch decided. `alarmed` says that the matcher refused a command.
   */
  datatype Journal = Journal(
    issued: seq<CommandShape>,
    times: seq<int>,
    patches: map<string, bool>,
    consulted: set<string>,
    alarmed: bool)
  {
    /** How many commands were issued and clock answers given so far. */
    function Asked(): nat {
      |issued| + |times|
    }
  }

  /** A handler in the middle of a replay, and the commands it newly found. */
  datatype Machine = Machine(
    trace: seq<Observation>,
    queue: seq<Ready>,
    promises: seq<Promise>,
    counters: Counters,
    journal: Journal,
    commands: seq<Command>,
    continuation: Option<Json>,
    settled: Option<Settlement>,
    hung: bool)
  {
    function Push(command: Command): Machine {
      this.(commands := commands + [command])
    }
  }

  function SignalsTaken(signals: map<string, nat>, name: string): nat {
    if name in signals then signals[name] else 0
  }

  /** The verdict of a decision. */
  datatype Decision =
    | CompletedRun(result: Json, commands: seq<Command>)
    | FailedRun(error: WorkflowError, commands: seq<Command>)
    | Suspended(commands: seq<Command>)
    | ContinuedAsNew(input: Json, commands: seq<Command>)

  datatype Verdict =
    | Decided(decision: Decision, warning: Option<(nat, nat)>)
    | ThrewMismatch(error: WorkflowError)
    | ThrewVersionMismatch(patches: set<string>)
    | Hung

  function Warning(settings: Settings, eventCount: nat): Option<(nat, nat)> {
    if settings.warningThreshold.None? || eventCount < settings.warningThreshold.value then None
    else Some((eventCount, settings.warningThreshold.value))
  }

  /** One decision to make: a handler, the run's input and history, and the options. */
  datatype Decider = Decider(
    handler: Handler,
    input: Json,
    history: seq<Event>,
    settings: Settings,
    moment: Moment)
  {
    /** Adds a promise; it is ready at once when the event it is due at was already fed. */
    function AddPromise(m: Machine, wait: Wait, due: Option<Due>, fed: nat): Machine {
      m.(promises := m.promises + [Promise(wait, due)],
         queue := if due.Some? && due.value.index < fed && due.value.index < |history|
                  then m.queue + [Ready(|m.promises|, OutcomeOf(history, due.value))]
                  else m.queue)
    }

    /** When the history settles `wait`. */
    function DueOf(wait: Wait): Option<Due> {
      match Find(history, wait)
      case None => None
      case Some(index) => Some(Due(index, wait, None))
    }

    function Register(m: Machine, wait: Wait, fed: nat): Machine {
      AddPromise(m, wait, DueOf(wait), fed)
    }

    function Verdict(m: Machine, shape: CommandShape): IssueResult {
      IssueVerdict(Shapes(history), |m.journal.issued|, shape)
    }

    function Issue(m: Machine, shape: CommandShape): Machine {
      m.(journal := m.journal.(issued := m.journal.issued + [shape],
                               alarmed := m.journal.alarmed || Verdict(m, shape).Mismatch?))
    }

    /** The machine after issuing a command, with `command` among the new ones if it is new. */
    function IssueNew(m: Machine, shape: CommandShape, command: Command, unlessDone: bool, wait: Wait): Machine {
      if Verdict(m, shape).New? && !(unlessDone && Find(history, wait).Some?) then Issue(m, shape).Push(command)
      else Issue(m, shape)
    }

    /**
     Issues a command and waits for it: `command` is newly found unless the history
     already recorded it, or already holds its completion when `unlessDone`.
     */
    function IssueAndWait(m: Machine, shape: CommandShape, command: Command, unlessDone: bool,
                          wait: Wait, fed: nat): (Machine, Answer)
    {
      if Verdict(m, shape).Mismatch? then (Issue(m, shape), Raised(Verdict(m, shape).error))
      else (Register(IssueNew(m, shape, command, unlessDone, wait), wait, fed), Promised(|m.promises|))
    }

    function AnswerStep(m: Machine, stepType: string, input: Json, fed: nat): (Machine, Answer) {
      var id := m.counters.steps + 1;
      IssueAndWait(m.(counters := m.counters.(steps := id)), StepShape(id, stepType, input),
                   ScheduleStep(id, stepType, input), true, OnStep(id, stepType), fed)
    }

    function AnswerSleep(m: Machine, duration: Duration, fed: nat): (Machine, Answer) {
      if duration.NotFinite? || duration.ms < 0 then
        (m.(promises := m.promises + [Promise(OnNothing, None)],
            queue := m.queue + [Ready(|m.promises|, Rejected(InvalidSleepDuration))]),
         Promised(|m.promises|))
      else
        var id := m.counters.timers + 1;
        var fireAt := moment.clock(m.journal.Asked()) + duration.ms;
        IssueAndWait(m.(counters := m.counters.(timers := id)), TimerShape(id, Some(duration.ms)),
                     StartTimer(id, fireAt, duration.ms), true, OnTimer(id), fed)
    }

    function AnswerSignal(m: Machine, name: string, fed: nat): (Machine, Answer) {
      var taken := SignalsTaken(m.counters.signals, name);
      (Register(m.(counters := m.counters.(signals := m.counters.signals[name := taken + 1])),
                OnSignal(name, taken), fed),
       Promised(|m.promises|))
    }

    function AnswerChild(m: Machine, call: Call, fed: nat): (Machine, Answer)
      requires call.ExecuteChild?
    {
      var id := m.counters.children + 1;
      var m0 := m.(counters := m.counters.(children := id));
      if id > settings.maxChildren then
        (m0, Raised(ChildLimitExceeded(settings.maxChildren)))
      else
        IssueAndWait(m0, ChildShape(id, call.workflowType, call.input),
                     StartChild(id, call.workflowType, call.input, call.policy,
                                call.runTimeoutMs, call.executionTimeoutMs),
                     false, OnChild(id), fed)
    }

    function AnswerSelect(m: Machine, branches: seq<nat>, fed: nat): (Machine, Answer) {
      match Winner(m.promises, branches)
      case None => (AddPromise(m, OnSelect, None, fed), Promised(|m.promises|))
      case Some(winner) =>
        var due := m.promises[branches[winner]].due.value;
        (AddPromise(m, OnSelect, Some(due.(branch := Some(winner))), fed), Promised(|m.promises|))
    }

    function AnswerPatched(m: Machine, patchId: string): (Machine, Answer) {
      var j := m.journal.(consulted := m.journal.consulted + {patchId});
      if patchId in j.patches then (m.(journal := j), Flag(j.patches[patchId]))
      else if patchId !in PatchIds(history) && m.counters.Ordered() < CommandCount(history) then
        (m.(journal := j.(patches := j.patches[patchId := false])), Flag(false))
      else
        var shape := PatchShape(patchId);
        var m1 := Issue(m.(journal := j), shape);
        if Verdict(m, shape).Mismatch? then (m1, Raised(Verdict(m, shape).error))
        else
          var m2 := if patchId in PatchIds(history) then m1
                    else m1.Push(RecordPatch(patchId, settings.buildId));
          (m2.(journal := m2.journal.(patches := j.patches[patchId := true])), Flag(true))
    }

    function AnswerNow(m: Machine): (Machine, Answer) {
      var count := |m.journal.times|;
      if count < |Times(history)| then
        var time := Times(history)[count];
        (m.(journal := m.journal.(times := m.journal.times + [time])), Instant(time))
      else
        var time := if moment.triggeredAt.Some? then moment.triggeredAt.value else moment.clock(m.journal.Asked());
        (m.Push(RecordTime(time)).(journal := m.journal.(times := m.journal.times + [time])), Instant(time))
    }

    /** One call of the handler on its context. */
    function AnswerCall(m: Machine, call: Call, fed: nat): (Machine, Answer) {
      match call
      case Step(stepType, input) => AnswerStep(m, stepType, input, fed)
      case Sleep(duration) => AnswerSleep(m, duration, fed)
      case WaitForSignal(name) => AnswerSignal(m, name, fed)
      case ExecuteChild(_, _, _, _, _) => AnswerChild(m, call, fed)
      case Select(branches) => AnswerSelect(m, branches, fed)
      case Patched(patchId) => AnswerPatched(m, patchId)
      case Now => AnswerNow(m)
      case Draw => 
        (m.(counters := m.counters.(draws := m.counters.draws + 1)), Drawn(settings.draw(m.counters.draws)))
      case ContinueWith(input) =>
        (m.(promises := m.promises + [Promise(OnNothing, None)],
            continuation := if m.continuation.None? then Some(input) else m.continuation),
         Promised(|m.promises|))
      case OnCancel => (m, Acknowledged)
    }

    /** Nothing is ready and the handler waits. */
    predicate AtRest(m: Machine) {
      m.queue == [] && handler.next(m.trace).Idle?
    }

    /** One turn: the handler's next action, or the next ready promise when it waits. */
    function Turn(m: Machine, fed: nat): Machine
      requires !AtRest(m)
    {
      match handler.next(m.trace)
      case Do(call) =>
        var (m1, answer) := AnswerCall(m, call, fed);
        m1.(trace := m.trace + [Answered(answer)])
      case Settle(settlement) =>
        m.(settled := if m.settled.None? then Some(settlement) else m.settled,
           trace := m.trace + [Answered(Acknowledged)])
      case Idle =>
        m.(queue := m.queue[1..],
           trace := m.trace + [Resumed(m.queue[0].promise, m.queue[0].outcome)])
    }

    /** Runs turns until the handler is at rest, at most `turns` of them. */
    function Drain(m: Machine, fed: nat, turns: nat): Machine
      decreases turns
    {
      if m.hung || AtRest(m) then m
      else if turns == 0 then m.(hung := true)
      else Drain(Turn(m, fed), fed, turns - 1)
    }

    function Fresh(): Machine {
      Machine([Started(input)], [], [], Counters(0, 0, 0, 0, map[]), Journal([], [], map[], {}, false),
              [], None, None, false)
    }

    /** Delivers the history event at `index`. */
    function Deliver(m: Machine, index: nat): Machine
      requires index < |history|
    {
      if m.hung then m
      else Drain(m.(queue := m.queue + Releases(history, m.promises, index)), index + 1, settings.maxTurns)
    }

    /** The machine after the first `count` events were delivered. */
    function RunTo(count: nat): Machine
      requires count <= |history|
    {
      if count == 0 then Drain(Fresh(), 0, settings.maxTurns)
      else Deliver(RunTo(count - 1), count - 1)
    }

    function Run(): Machine {
      RunTo(|history|)
    }

    /** The decision a stopped machine stands for. */
    function Judge(m: Machine): Verdict {
      if m.hung then Hung
      else if PatchIds(history) - m.journal.consulted != {} then ThrewVersionMismatch(PatchIds(history) - m.journal.consulted)
      else if m.settled.Some? && m.settled.value.Failed? && IsIntegrityError(m.settled.value.error) then
        ThrewMismatch(m.settled.value.error)
      else if UnissuedError(Shapes(history), |m.journal.issued|).Some? then
        ThrewMismatch(UnissuedError(Shapes(history), |m.journal.issued|).value)
      else
        Decided(Conclude(m), Warning(settings, |history|))
    }

    function Conclude(m: Machine): Decision {
      if m.continuation.Some? then
        ContinuedAsNew(m.continuation.value, [ContinueAsNew(m.continuation.value)])
      else match m.settled
        case None => Suspended(m.commands)
        case Some(Completed(result)) => CompletedRun(result, m.commands + [CompleteRun(result)])
        case Some(Failed(error)) => FailedRun(error, m.commands + [FailRun(ToRecordedError(error))])
    }

    /** The decision for this history. */
    function Decide(): Verdict {
      Judge(Run())
    }
  }
}
