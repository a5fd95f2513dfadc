/**
 What a live session does with the events it is fed: the handler is kept where it
 stopped, waits that cannot resolve yet are kept under what they wait for, and each new
 event wakes the waits it resolves. On the calls a session can resume after, this agrees
 with replaying the whole history.
 */
module LiveReplay {
  import opened WorkflowTypes
  import opened CommandMatching
  import opened Replay
  import opened ReplayFacts
  import opened ReplayMonotone
  import opened GeneratedHistories
  import opened LiveKnowledge

  /** The calls a live session can resume after. */
  predicate CanResume(call: Call) {
    call.Step? || call.Sleep? || call.WaitForSignal? || call.Now? || call.Draw?
  }

  /** `waiters` with one more waiter under `key`. */
  function Keep(waiters: map<Key, seq<Waiter>>, key: Key, waiter: Waiter): map<Key, seq<Waiter>> {
    waiters[key := WaitersOf(waiters, key) + [waiter]]
  }

  function WaitersOf(waiters: map<Key, seq<Waiter>>, key: Key): seq<Waiter> {
    if key in waiters then waiters[key] else []
  }

  /** `waiters` with only the given ones left under `key`. */
  function Retain(waiters: map<Key, seq<Waiter>>, key: Key, remaining: seq<Waiter>): map<Key, seq<Waiter>> {
    if remaining == [] then waiters - {key} else waiters[key := remaining]
  }

  /** A handler kept alive. Its promises carry no history index: a session does not search. */
  datatype Live = Live(machine: Machine, known: Knowledge, waiters: map<Key, seq<Waiter>>, unsupported: bool) {
    function Add(wait: Wait): Live {
      this.(machine := machine.(promises := machine.promises + [Promise(wait, None)]))
    }

    /** Keeps a waiter unless what is known already resolves it. */
    function Register(wait: Wait): (Live, Answer)
      requires KeyOf(wait).Some?
    {
      var id := |machine.promises|;
      var next := Add(wait);
      (match known.Resolve(wait)
       case Some(outcome) => next.(machine := next.machine.(queue := machine.queue + [Ready(id, outcome)]))
       case None => next.(waiters := Keep(waiters, KeyOf(wait).value, Waiter(id, wait))),
       Promised(id))
    }

    /** Marks a call the session cannot resume after; its promise, if it has one, stays pending. */
    function Refuse(call: Call): (Live, Answer) {
      match call
      case Patched(_) => (this.(unsupported := true), Flag(false))
      case OnCancel => (this.(unsupported := true), Acknowledged)
      case _ => (Add(OnNothing).(unsupported := true), Promised(|machine.promises|))
    }

    /** Learns of an event and wakes the waits it resolves. */
    function Hear(event: Event): Live {
      var next := known.Learn(event);
      match KeyOfEvent(event)
      case None => this.(known := next)
      case Some(key) =>
        var pending := WaitersOf(waiters, key);
        if pending == [] then this.(known := next)
        else
          this.(known := next,
                waiters := Retain(waiters, key, Remaining(next, pending)),
                machine := machine.(queue := machine.queue + Woken(next, pending)))
    }
  }

  function LiveIssue(task: Decider, live: Live, shape: CommandShape, command: Command, wait: Wait): (Live, Answer)
    requires KeyOf(wait).Some?
  {
    var verdict := task.Verdict(live.machine, shape);
    var issued := live.(machine := task.Issue(live.machine, shape));
    if verdict.Mismatch? then (issued, Raised(verdict.error))
    else if verdict.New? then issued.(machine := issued.machine.Push(command)).Register(wait)
    else issued.Register(wait)
  }

  function LiveStep(task: Decider, live: Live, stepType: string, input: Json): (Live, Answer) {
    var id := live.machine.counters.steps + 1;
    var counters := live.machine.counters.(steps := id);
    LiveIssue(task, live.(machine := live.machine.(counters := counters)), StepShape(id, stepType, input),
              ScheduleStep(id, stepType, input), OnStep(id, stepType))
  }

  function LiveSleep(task: Decider, live: Live, duration: Duration): (Live, Answer) {
    if duration.NotFinite? || duration.ms < 0 then
      var id := |live.machine.promises|;
      var next := live.Add(OnNothing);
      (next.(machine := next.machine.(queue := live.machine.queue + [Ready(id, Rejected(InvalidSleepDuration))])),
       Promised(id))
    else
      var id := live.machine.counters.timers + 1;
      var counters := live.machine.counters.(timers := id);
      var fireAt := task.moment.clock(live.machine.journal.Asked()) + duration.ms;
      LiveIssue(task, live.(machine := live.machine.(counters := counters)), TimerShape(id, Some(duration.ms)),
                StartTimer(id, fireAt, duration.ms), OnTimer(id))
  }

  function LiveSignal(live: Live, name: string): (Live, Answer) {
    var taken := SignalsTaken(live.machine.counters.signals, name);
    var counters := live.machine.counters.(signals := live.machine.counters.signals[name := taken + 1]);
    live.(machine := live.machine.(counters := counters)).Register(OnSignal(name, taken))
  }

  /** One call of the handler on its context. */
  function LiveCall(task: Decider, live: Live, call: Call): (Live, Answer) {
    match call
    case Step(stepType, input) => LiveStep(task, live, stepType, input)
    case Sleep(duration) => LiveSleep(task, live, duration)
    case WaitForSignal(name) => LiveSignal(live, name)
    case Now =>
      var (machine, answer) := task.AnswerNow(live.machine);
      (live.(machine := machine), answer)
    case Draw =>
      var counters := live.machine.counters;
      (live.(machine := live.machine.(counters := counters.(draws := counters.draws + 1))),
       Drawn(task.settings.draw(counters.draws)))
    case _ => live.Refuse(call)
  }

  function LiveTurn(task: Decider, live: Live): Live
    requires !task.AtRest(live.machine)
  {
    match task.handler.next(live.machine.trace)
    case Do(call) =>
      var (next, answer) := LiveCall(task, live, call);
      next.(machine := next.machine.(trace := live.machine.trace + [Answered(answer)]))
    case Settle(settlement) => live.(machine := task.Turn(live.machine, 0))
    case Idle => live.(machine := task.Turn(live.machine, 0))
  }

  function LiveDrain(task: Decider, live: Live, turns: nat): Live
    decreases turns
  {
    if live.machine.hung || task.AtRest(live.machine) then live
    else if turns == 0 then live.(machine := live.machine.(hung := true))
    else LiveDrain(task, LiveTurn(task, live), turns - 1)
  }

  /** Delivers one event, and drains if it woke a wait. */
  function LiveDeliver(task: Decider, live: Live, event: Event): Live {
    if live.machine.hung then live
    else
      var heard := live.Hear(event);
      if heard.machine.queue == live.machine.queue then heard
      else LiveDrain(task, heard, task.settings.maxTurns)
  }

  /** Delivers the events from `start` up to `stop`. */
  function LiveFeed(task: Decider, live: Live, start: nat, stop: nat): Live
    requires start <= stop <= |task.history|
    decreases stop
  {
    if start == stop then live
    else LiveDeliver(task, LiveFeed(task, live, start, stop - 1), task.history[stop - 1])
  }

  // ---- in step with a replay ---------------------------------------------------

  /** The same but for what a session does not keep: where promises are due, and commands after a refusal. */
  ghost predicate Mirrors(machine: Machine, twin: Machine) {
    machine == twin.(promises := machine.promises, commands := machine.commands) &&
    |machine.promises| == |twin.promises| &&
    (!twin.journal.alarmed ==> machine.commands == twin.commands)
  }

  /** Every unresolved promise is kept, oldest first, under the key of what it waits for. */
  ghost predicate KeepsAll(history: seq<Event>, promises: seq<Promise>, waiters: map<Key, seq<Waiter>>, count: nat)
    requires count <= |history|
  {
    LivePromises(history, promises) &&
    forall key :: WaitersOf(waiters, key) == Pending(history, promises, key, count)
  }

  /** What a replay of resumable calls keeps by itself. */
  ghost predicate Orderly(task: Decider, twin: Machine) {
    MachineAccounted(task, twin) && Counted(twin) && twin.continuation.None? && twin.journal.consulted == {}
  }

  /** The live handler knows, shows and keeps what a replay that was fed `count` events does. */
  ghost predicate Halfway(task: Decider, live: Live, twin: Machine, count: nat) {
    count <= |task.history| && live.known == KnowledgeOf(task.history, count) &&
    Mirrors(live.machine, twin) && KeepsAll(task.history, twin.promises, live.waiters, count)
  }

  ghost predicate Tracks(task: Decider, live: Live, twin: Machine, count: nat) {
    Halfway(task, live, twin, count) && Orderly(task, twin)
  }

  lemma {:induction false} KeepsOneMore(history: seq<Event>, promises: seq<Promise>, waiters: map<Key, seq<Waiter>>,
                                        count: nat, promise: Promise)
    requires count <= |history| && KeepsAll(history, promises, waiters, count) && LivePromise(history, promise)
    ensures KeepsAll(history, promises + [promise],
                     if KeyOf(promise.wait).Some? && Resolved(history, promise.wait, count).None?
                     then Keep(waiters, KeyOf(promise.wait).value, Waiter(|promises|, promise.wait)) else waiters, count)
  {
    hide Find, Pending, Resolved;
    PendingSnoc(history, promises, promise, count);
  }

  lemma {:induction false} RegisterTracks(task: Decider, live: Live, twin: Machine, count: nat, wait: Wait)
    requires count <= |task.history| && live.known == KnowledgeOf(task.history, count) && OneOutcome(task.history)
    requires Mirrors(live.machine, twin) && KeepsAll(task.history, twin.promises, live.waiters, count)
    requires KeyOf(wait).Some?
    ensures var (next, answer) := live.Register(wait);
            var after := task.Register(twin, wait, count);
            next.known == live.known && next.unsupported == live.unsupported && answer == Promised(|twin.promises|) &&
            Mirrors(next.machine, after) && KeepsAll(task.history, after.promises, next.waiters, count)
  {
    hide Settles, FindFrom, KnowledgeOf, OneOutcome, Knowledge.Resolve, Settled;
    var promise := Promise(wait, task.DueOf(wait));
    KnowledgeResolves(task.history, count, wait);
    assert LivePromise(task.history, promise);
    KeepsOneMore(task.history, twin.promises, live.waiters, count, promise);
  }

  /** The live machine after issuing a command that was not refused. */
  function Pushed(task: Decider, machine: Machine, shape: CommandShape, command: Command): Machine {
    var issued := task.Issue(machine, shape);
    if task.Verdict(machine, shape).New? then issued.Push(command) else issued
  }

  lemma {:induction false} IssueMirrors(task: Decider, machine: Machine, twin: Machine, shape: CommandShape,
                                        command: Command, wait: Wait)
    requires Mirrors(machine, twin)
    requires !twin.journal.alarmed && |Shapes(task.history)| <= |twin.journal.issued| ==> Find(task.history, wait).None?
    ensures task.Verdict(machine, shape) == task.Verdict(twin, shape)
    ensures Mirrors(task.Issue(machine, shape), task.Issue(twin, shape))
    ensures Mirrors(Pushed(task, machine, shape, command), task.IssueNew(twin, shape, command, true, wait))
  {
    hide Find, Shapes, SameCommand;
  }

  lemma {:induction false} IssueAccepted(task: Decider, live: Live, twin: Machine, count: nat, shape: CommandShape,
                                         command: Command, wait: Wait)
    requires KeyOf(wait).Some? && !task.Verdict(twin, shape).Mismatch?
    requires task.Verdict(live.machine, shape) == task.Verdict(twin, shape)
    ensures LiveIssue(task, live, shape, command, wait) ==
            live.(machine := Pushed(task, live.machine, shape, command)).Register(wait)
    ensures task.IssueAndWait(twin, shape, command, true, wait, count) ==
            (task.Register(task.IssueNew(twin, shape, command, true, wait), wait, count), Promised(|twin.promises|))
    ensures |task.IssueNew(twin, shape, command, true, wait).promises| == |twin.promises|
  {
    hide Live.Register, Decider.Register, Find, Shapes, SameCommand;
  }

  lemma {:induction false} IssueTracks(task: Decider, live: Live, twin: Machine, count: nat, shape: CommandShape,
                                       command: Command, wait: Wait)
    requires Halfway(task, live, twin, count) && OneOutcome(task.history) && KeyOf(wait).Some?
    requires !twin.journal.alarmed && |Shapes(task.history)| <= |twin.journal.issued| ==> Find(task.history, wait).None?
    ensures var (next, answer) := LiveIssue(task, live, shape, command, wait);
            var (after, expected) := task.IssueAndWait(twin, shape, command, true, wait, count);
            answer == expected && next.unsupported == live.unsupported && Halfway(task, next, after, count)
  {
    IssueMirrors(task, live.machine, twin, shape, command, wait);
    if task.Verdict(twin, shape).Mismatch? {
      hide OneOutcome, KnowledgeOf, Find, KeepsAll, Shapes, SameCommand, Mirrors, Decider.Verdict;
    } else {
      IssueAccepted(task, live, twin, count, shape, command, wait);
      IssueNewKeeps(task, twin, shape, command, true, wait);
      hide *;
      IssuedTracks(task, live, twin, count, shape, command, wait);
    }
  }

  lemma {:induction false} IssuedTracks(task: Decider, live: Live, twin: Machine, count: nat, shape: CommandShape,
                                        command: Command, wait: Wait)
    requires Halfway(task, live, twin, count) && OneOutcome(task.history) && KeyOf(wait).Some?
    requires !twin.journal.alarmed && |Shapes(task.history)| <= |twin.journal.issued| ==> Find(task.history, wait).None?
    ensures var (next, answer) := live.(machine := Pushed(task, live.machine, shape, command)).Register(wait);
            var after := task.Register(task.IssueNew(twin, shape, command, true, wait), wait, count);
            next.unsupported == live.unsupported && Halfway(task, next, after, count) && answer == Promised(|twin.promises|)
  {
    IssueMirrors(task, live.machine, twin, shape, command, wait);
    IssueNewKeeps(task, twin, shape, command, true, wait);
    hide OneOutcome, KnowledgeOf, Find, KeepsAll, Live.Register, Shapes, SameCommand, Decider.Register, Mirrors,
         Decider.IssueNew, Decider.Verdict, Pushed;
    RegisterTracks(task, live.(machine := Pushed(task, live.machine, shape, command)),
                   task.IssueNew(twin, shape, command, true, wait), count, wait);
  }

  lemma {:induction false} StepTracks(task: Decider, live: Live, twin: Machine, count: nat, stepType: string, input: Json)
    requires Halfway(task, live, twin, count) && OneOutcome(task.history)
    requires Plausible(task.history) && MachineAccounted(task, twin) && Counted(twin)
    ensures var (next, answer) := LiveStep(task, live, stepType, input);
            var (after, expected) := task.AnswerStep(twin, stepType, input, count);
            answer == expected && next.unsupported == live.unsupported && Halfway(task, next, after, count)
  {
    hide OneOutcome, KnowledgeOf, Find, KeepsAll, LiveIssue, Decider.IssueAndWait, Plausible;
    var id := twin.counters.steps + 1;
    var counters := twin.counters.(steps := id);
    var wait := OnStep(id, stepType);
    if !twin.journal.alarmed && |Shapes(task.history)| <= |twin.journal.issued| {
      NewHasNoCompletion(task, twin, wait);
    }
    hide Counted, MachineAccounted, Shapes;
    IssueTracks(task, live.(machine := live.machine.(counters := counters)), twin.(counters := counters), count,
                StepShape(id, stepType, input), ScheduleStep(id, stepType, input), wait);
  }

  lemma {:induction false} RejectTracks(task: Decider, live: Live, twin: Machine, count: nat, duration: Duration)
    requires Halfway(task, live, twin, count) && (duration.NotFinite? || duration.ms < 0)
    ensures var (next, answer) := LiveSleep(task, live, duration);
            var (after, expected) := task.AnswerSleep(twin, duration, count);
            answer == expected && next.unsupported == live.unsupported && Halfway(task, next, after, count)
  {
    var promise := Promise(OnNothing, None);
    assert Find(task.history, OnNothing).None?;
    hide KnowledgeOf, Pending, Settles, Find;
    assert LivePromise(task.history, promise);
    KeepsOneMore(task.history, twin.promises, live.waiters, count, promise);
  }

  lemma {:induction false} SleepTracks(task: Decider, live: Live, twin: Machine, count: nat, ms: nat)
    requires Halfway(task, live, twin, count) && OneOutcome(task.history)
    requires Plausible(task.history) && MachineAccounted(task, twin) && Counted(twin)
    ensures var (next, answer) := LiveSleep(task, live, Finite(ms));
            var (after, expected) := task.AnswerSleep(twin, Finite(ms), count);
            answer == expected && next.unsupported == live.unsupported && Halfway(task, next, after, count)
  {
    hide OneOutcome, KnowledgeOf, Find, KeepsAll, LiveIssue, Decider.IssueAndWait, Plausible;
    var id := twin.counters.timers + 1;
    var counters := twin.counters.(timers := id);
    var wait := OnTimer(id);
    if !twin.journal.alarmed && |Shapes(task.history)| <= |twin.journal.issued| {
      NewHasNoCompletion(task, twin, wait);
    }
    hide Counted, MachineAccounted, Shapes;
    var fireAt := task.moment.clock(twin.journal.Asked()) + ms;
    IssueTracks(task, live.(machine := live.machine.(counters := counters)), twin.(counters := counters), count,
                TimerShape(id, Some(ms)), StartTimer(id, fireAt, ms), wait);
  }

  lemma {:induction false} SignalTracks(task: Decider, live: Live, twin: Machine, count: nat, name: string)
    requires Halfway(task, live, twin, count) && OneOutcome(task.history)
    ensures var (next, answer) := LiveSignal(live, name);
            var (after, expected) := task.AnswerSignal(twin, name, count);
            answer == expected && next.unsupported == live.unsupported && Halfway(task, next, after, count)
  {
    hide OneOutcome, KnowledgeOf, Find, KeepsAll, Live.Register, Decider.Register;
    var taken := SignalsTaken(twin.counters.signals, name);
    var counters := twin.counters.(signals := twin.counters.signals[name := taken + 1]);
    RegisterTracks(task, live.(machine := live.machine.(counters := counters)), twin.(counters := counters), count,
                   OnSignal(name, taken));
  }

  lemma {:induction false} NowTracks(task: Decider, live: Live, twin: Machine, count: nat)
    requires Halfway(task, live, twin, count)
    ensures var (next, answer) := LiveCall(task, live, Now);
            var (after, expected) := task.AnswerNow(twin);
            answer == expected && next.unsupported == live.unsupported && Halfway(task, next, after, count)
  {
    hide KnowledgeOf, KeepsAll, Times;
  }

  /** A call a session can resume after is answered as a replay answers it. */
  lemma {:induction false} CallTracks(task: Decider, live: Live, twin: Machine, count: nat, call: Call)
    requires Tracks(task, live, twin, count) && OneOutcome(task.history) && Plausible(task.history) && CanResume(call)
    ensures var (next, answer) := LiveCall(task, live, call);
            var (after, expected) := task.AnswerCall(twin, call, count);
            answer == expected && next.unsupported == live.unsupported && Halfway(task, next, after, count)
  {
    hide OneOutcome, Plausible, KnowledgeOf, KeepsAll, LiveStep, LiveSleep, LiveSignal, Decider.AnswerStep,
         Decider.AnswerSleep, Decider.AnswerSignal, Decider.AnswerNow, MachineAccounted, Counted;
    match call
    case Step(stepType, input) => StepTracks(task, live, twin, count, stepType, input);
    case Sleep(duration) =>
      if duration.Finite? && 0 <= duration.ms {
        SleepTracks(task, live, twin, count, duration.ms);
      } else {
        RejectTracks(task, live, twin, count, duration);
      }
    case WaitForSignal(name) => SignalTracks(task, live, twin, count, name);
    case Now => NowTracks(task, live, twin, count);
    case _ =>
  }

  lemma {:induction false} OrderlyCall(task: Decider, twin: Machine, call: Call, fed: nat)
    requires Orderly(task, twin) && CanResume(call)
    ensures Orderly(task, task.AnswerCall(twin, call, fed).0)
  {
    hide Find, Shapes, Times;
    AccountedCall(task, twin, call, fed);
    CallEffect(task, twin, call, fed);
    var after := task.AnswerCall(twin, call, fed).0;
    var shape := ShapeOf(task, twin, call);
    if shape.Some? {
      CountedIssue(twin, after, shape.value);
    }
  }

  lemma {:induction false} OrderlyUpTo(task: Decider, twin: Machine, other: Machine)
    requires Orderly(task, twin)
    requires other.journal == twin.journal && other.counters == twin.counters && other.continuation == twin.continuation
    ensures Orderly(task, other)
  {
  }

  /** The handler's next call is one a session cannot resume after. */
  predicate AsksTooMuch(handler: Handler, trace: seq<Observation>) {
    handler.next(trace).Do? && !CanResume(handler.next(trace).call)
  }

  /** Somewhere in what it observed, the handler made a call a session cannot resume after. */
  ghost predicate Strays(handler: Handler, trace: seq<Observation>) {
    exists seen :: seen <= trace && AsksTooMuch(handler, seen)
  }

  lemma {:induction false} TurnTracks(task: Decider, live: Live, twin: Machine, count: nat)
    requires Tracks(task, live, twin, count) && OneOutcome(task.history) && Plausible(task.history)
    requires !task.AtRest(twin) && !AsksTooMuch(task.handler, twin.trace)
    ensures !task.AtRest(live.machine)
    ensures Tracks(task, LiveTurn(task, live), task.Turn(twin, count), count)
    ensures LiveTurn(task, live).unsupported == live.unsupported
  {
    hide OneOutcome, Plausible, KnowledgeOf, KeepsAll, LiveCall, Decider.AnswerCall, Orderly;
    if task.handler.next(twin.trace).Do? {
      var call := task.handler.next(twin.trace).call;
      CallTracks(task, live, twin, count, call);
      OrderlyCall(task, twin, call, count);
      BeforeCall(task, twin, call, count);
      OrderlyUpTo(task, task.AnswerCall(twin, call, count).0, task.Turn(twin, count));
    } else {
      OrderlyUpTo(task, twin, task.Turn(twin, count));
    }
  }

  lemma {:induction false} TooMuchIsRefused(task: Decider, live: Live)
    requires !task.AtRest(live.machine) && AsksTooMuch(task.handler, live.machine.trace)
    ensures LiveTurn(task, live).unsupported
  {
  }

  lemma {:induction false} CallStaysRefused(task: Decider, live: Live, call: Call)
    requires live.unsupported
    ensures LiveCall(task, live, call).0.unsupported
  {
    hide Knowledge.Resolve, Shapes, Times, Decider.Verdict, Decider.Issue, Decider.AnswerNow;
  }

  /** Once refused, always refused. */
  lemma {:induction false} RefusedStays(task: Decider, live: Live, turns: nat)
    requires live.unsupported
    ensures LiveDrain(task, live, turns).unsupported
    decreases turns
  {
    hide LiveCall;
    if !(live.machine.hung || task.AtRest(live.machine)) && turns != 0 {
      if task.handler.next(live.machine.trace).Do? {
        CallStaysRefused(task, live, task.handler.next(live.machine.trace).call);
      }
      RefusedStays(task, LiveTurn(task, live), turns - 1);
    }
  }

  lemma {:induction false} FeedingStaysRefused(task: Decider, live: Live, event: Event)
    requires live.unsupported
    ensures LiveDeliver(task, live, event).unsupported
  {
    hide LiveDrain;
    RefusedStays(task, live.Hear(event), task.settings.maxTurns);
  }

  /** A drain that stays among the resumable calls stays in step; one that does not is found out. */
  lemma {:induction false} DrainTracks(task: Decider, live: Live, twin: Machine, count: nat, turns: nat)
    requires Tracks(task, live, twin, count) && OneOutcome(task.history) && Plausible(task.history) && !live.unsupported
    ensures var next := LiveDrain(task, live, turns);
            var after := task.Drain(twin, count, turns);
            (!next.unsupported && Tracks(task, next, after, count)) ||
            (next.unsupported && Strays(task.handler, after.trace))
    decreases turns
  {
    hide OneOutcome, Plausible, Tracks, LiveTurn, Decider.Turn;
    assert Mirrors(live.machine, twin) by { TracksMirrors(task, live, twin, count); }
    if twin.hung || task.AtRest(twin) {
    } else if turns == 0 {
      HungTracks(task, live, twin, count);
    } else if AsksTooMuch(task.handler, twin.trace) {
      BeforeDrain(task, twin, count, turns);
      TooMuchIsRefused(task, live);
      RefusedStays(task, LiveTurn(task, live), turns - 1);
    } else {
      TurnTracks(task, live, twin, count);
      DrainTracks(task, LiveTurn(task, live), task.Turn(twin, count), count, turns - 1);
    }
  }

  lemma {:induction false} TracksMirrors(task: Decider, live: Live, twin: Machine, count: nat)
    requires Tracks(task, live, twin, count)
    ensures Mirrors(live.machine, twin)
  {
  }

  lemma {:induction false} HungTracks(task: Decider, live: Live, twin: Machine, count: nat)
    requires Tracks(task, live, twin, count)
    ensures Tracks(task, live.(machine := live.machine.(hung := true)), twin.(hung := true), count)
  {
    hide KnowledgeOf, KeepsAll, MachineAccounted, Counted;
    OrderlyUpTo(task, twin, twin.(hung := true));
  }

  /** Hearing of an event makes ready what a replay releases at that event. */
  lemma {:induction false} HearTracks(task: Decider, live: Live, twin: Machine, count: nat)
    requires Tracks(task, live, twin, count) && OneOutcome(task.history)
    requires count < |task.history| && IsSupported(task.history[count])
    ensures var released := Releases(task.history, twin.promises, count);
            var next := live.Hear(task.history[count]);
            next.machine.queue == live.machine.queue + released && next.unsupported == live.unsupported &&
            Tracks(task, next, twin.(queue := twin.queue + released), count + 1)
  {
    var released := Releases(task.history, twin.promises, count);
    HearKeeps(task, live, twin.promises, count);
    OrderlyUpTo(task, twin, twin.(queue := twin.queue + released));
    hide Releases, KeepsAll, KnowledgeOf, Orderly, OneOutcome, IsSupported, Live.Hear;
  }

  lemma {:induction false} HearKeeps(task: Decider, live: Live, promises: seq<Promise>, count: nat)
    requires count < |task.history| && IsSupported(task.history[count]) && OneOutcome(task.history)
    requires live.known == KnowledgeOf(task.history, count) && KeepsAll(task.history, promises, live.waiters, count)
    ensures var next := live.Hear(task.history[count]);
            next == live.(known := KnowledgeOf(task.history, count + 1), waiters := next.waiters,
                          machine := live.machine.(queue := live.machine.queue + Releases(task.history, promises, count))) &&
            KeepsAll(task.history, promises, next.waiters, count + 1)
  {
    var event, history := task.history[count], task.history;
    var next := live.Hear(event);
    var released := Releases(history, promises, count);
    assert next.known == KnowledgeOf(history, count + 1);
    forall key | KeyOfEvent(event) != Some(key)
      ensures WaitersOf(next.waiters, key) == Pending(history, promises, key, count + 1)
    {
      OtherKeysWait(history, promises, count, key);
    }
    if KeyOfEvent(event).Some? {
      NotifyReleases(history, promises, count, KeyOfEvent(event).value);
    } else {
      UnfiledReleasesNothing(history, promises, count);
      assert live.machine.queue + [] == live.machine.queue;
    }
  }

  /** Delivering an event: as a replay does, or found out. */
  lemma {:induction false} DeliverTracks(task: Decider, live: Live, count: nat)
    requires count < |task.history| && IsSupported(task.history[count]) && !live.unsupported
    requires Tracks(task, live, task.RunTo(count), count) && OneOutcome(task.history) && Plausible(task.history)
    requires !task.RunTo(count).hung
    ensures var next := LiveDeliver(task, live, task.history[count]);
            (!next.unsupported && Tracks(task, next, task.RunTo(count + 1), count + 1)) ||
            (next.unsupported && Strays(task.handler, task.RunTo(count + 1).trace))
  {
    hide OneOutcome, Plausible, Orderly, KeepsAll, KnowledgeOf, LiveDrain, Decider.Drain, Live.Hear, Releases;
    var twin := task.RunTo(count);
    var released := Releases(task.history, twin.promises, count);
    var heard := live.Hear(task.history[count]);
    HearTracks(task, live, twin, count);
    if released == [] {
      SkipStep(task, count);
      assert twin.queue + [] == twin.queue;
      assert twin.(queue := twin.queue) == twin;
    } else {
      DrainTracks(task, heard, twin.(queue := twin.queue + released), count + 1, task.settings.maxTurns);
    }
  }

  /** The live handler is where a replay of the first `count` events is, or hangs where it hangs. */
  ghost predicate IsAt(task: Decider, live: Live, count: nat)
    requires count <= |task.history|
  {
    !live.unsupported && Mirrors(live.machine, task.RunTo(count)) && Orderly(task, task.RunTo(count)) &&
    (!live.machine.hung ==> Tracks(task, live, task.RunTo(count), count))
  }

  lemma {:induction false} TracksIsAt(task: Decider, live: Live, count: nat)
    requires count <= |task.history| && Tracks(task, live, task.RunTo(count), count) && !live.unsupported
    ensures IsAt(task, live, count)
  {
  }

  /** Feeding a session the events from `start` to `stop` brings it where a replay of all of them is. */
  lemma {:induction false} FeedTracks(task: Decider, live: Live, start: nat, stop: nat)
    requires start <= stop <= |task.history| && IsAt(task, live, start)
    requires forall i :: start <= i < stop ==> IsSupported(task.history[i])
    requires OneOutcome(task.history) && Plausible(task.history)
    ensures var next := LiveFeed(task, live, start, stop);
            IsAt(task, next, stop) || (next.unsupported && Strays(task.handler, task.RunTo(stop).trace))
    decreases stop
  {
    hide OneOutcome, Plausible, Orderly, Halfway, LiveDeliver, Strays, Decider.Drain;
    if start < stop {
      FeedTracks(task, live, start, stop - 1);
      var before := LiveFeed(task, live, start, stop - 1);
      if before.unsupported {
        FeedingStaysRefused(task, before, task.history[stop - 1]);
        BeforeRun(task, stop - 1, stop);
        StraysOn(task.handler, task.RunTo(stop - 1).trace, task.RunTo(stop).trace);
      } else if before.machine.hung {
        StaysHung(task, before, stop - 1);
      } else {
        DeliverTracks(task, before, stop - 1);
        var next := LiveFeed(task, live, start, stop);
        if !next.unsupported {
          TracksIsAt(task, next, stop);
        }
      }
    }
  }

  lemma {:induction false} StaysHung(task: Decider, live: Live, count: nat)
    requires count < |task.history| && live.machine.hung && task.RunTo(count).hung
    ensures LiveDeliver(task, live, task.history[count]) == live && task.RunTo(count + 1) == task.RunTo(count)
  {
  }

  lemma {:induction false} StraysOn(handler: Handler, trace: seq<Observation>, longer: seq<Observation>)
    requires Strays(handler, trace) && trace <= longer
    ensures Strays(handler, longer)
  {
  }

  /** A handler just started, before it ran. */
  function LiveStart(input: Json): Live {
    Live(Machine([Started(input)], [], [], Counters(0, 0, 0, 0, map[]), Journal([], [], map[], {}, false),
                 [], None, None, false),
         Knowledge(map[], {}, map[]), map[], false)
  }

  lemma {:induction false} StartTracks(task: Decider)
    requires OneOutcome(task.history) && Plausible(task.history)
    ensures var next := LiveDrain(task, LiveStart(task.input), task.settings.maxTurns);
            IsAt(task, next, 0) || (next.unsupported && Strays(task.handler, task.RunTo(0).trace))
  {
    FreshTracks(task);
    hide OneOutcome, Plausible, LiveDrain, Decider.Drain, Strays, LiveStart, Tracks, Decider.Fresh;
    DrainTracks(task, LiveStart(task.input), task.Fresh(), 0, task.settings.maxTurns);
    var next := LiveDrain(task, LiveStart(task.input), task.settings.maxTurns);
    if !next.unsupported {
      TracksIsAt(task, next, 0);
    }
  }

  lemma {:induction false} FreshTracks(task: Decider)
    ensures Tracks(task, LiveStart(task.input), task.Fresh(), 0) && !LiveStart(task.input).unsupported
  {
    hide Shapes;
  }

  /** A session at the end of one history is at the same place in any history that continues it. */
  lemma {:induction false} RebaseTracks(a: Decider, b: Decider, live: Live)
    requires Continues(a, b, a.Run().journal) && Covers(b.history, a.Run().journal)
    requires Tracks(a, live, a.Run(), |a.history|) && !live.unsupported && !a.Run().hung && !a.Run().journal.alarmed
    ensures var kept := live.(machine := live.machine.(commands := []));
            IsAt(b, kept, |a.history|) && LiveDrain(b, kept, b.settings.maxTurns) == kept
  {
    hide Continues, Covers, Decider.Drain, Decider.Deliver;
    assert a.history <= b.history && b.handler == a.handler by { ContinuesBasics(a, b, a.Run().journal); }
    var twin, next := a.Run(), b.RunTo(|a.history|);
    var more := b.history[|a.history|..];
    assert b.history == a.history + more;
    RunAgrees(a, b, |a.history|);
    RunStops(a, |a.history|);
    assert next.trace == twin.trace && next.queue == twin.queue;
    RebaseKeeps(a, b, live);
    KnowledgeStable(a.history, more, |a.history|);
    RebaseOrderly(a, b);
  }

  lemma {:induction false} ContinuesBasics(a: Decider, b: Decider, end: Journal)
    requires Continues(a, b, end)
    ensures a.history <= b.history && b.handler == a.handler && b.settings == a.settings
  {
  }

  lemma {:induction false} RebaseOrderly(a: Decider, b: Decider)
    requires a.history <= b.history && InStep(|a.history|, a.Run(), b.RunTo(|a.history|))
    requires Orderly(a, a.Run())
    ensures Orderly(b, b.RunTo(|a.history|))
  {
    hide Decider.RunTo, Shapes;
    AccountedRun(b, |a.history|);
  }

  lemma {:induction false} RebaseKeeps(a: Decider, b: Decider, live: Live)
    requires a.history <= b.history && InStep(|a.history|, a.Run(), b.RunTo(|a.history|))
    requires KeepsAll(a.history, a.Run().promises, live.waiters, |a.history|)
    ensures KeepsAll(b.history, b.RunTo(|a.history|).promises, live.waiters, |a.history|)
  {
    hide Decider.RunTo, Find, Pending, Decider.Run;
    var left, right := a.Run().promises, b.RunTo(|a.history|).promises;
    var more := b.history[|a.history|..];
    assert b.history == a.history + more;
    DuesFoundRun(b, |a.history|);
    forall i | 0 <= i < |right|
      ensures LivePromise(b.history, right[i])
    {
      assert LivePromise(a.history, left[i]) && SamePromise(|a.history|, left[i], right[i]);
    }
    forall key
      ensures WaitersOf(live.waiters, key) == Pending(b.history, right, key, |a.history|)
    {
      PendingStable(a.history, more, left, right, key, |a.history|);
    }
  }
}
