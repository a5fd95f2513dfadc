/**
 The live session as it is written (packages/core/src/workflow/live-session.ts): maps of
 what happened, waiters kept under a key, counters, and a handler that is never run from
 the top again. It is proved to do what `CacheAgreement.Advance` says.
 */
module LiveSessions {
  import opened WorkflowTypes
  import opened CommandMatching
  import opened Replay
  import opened ReplayMonotone
  import opened GeneratedHistories
  import opened LiveKnowledge
  import opened LiveReplay
  import opened CacheAgreement

  class LiveSession {
    const workflow: Workflow
    const matcher: CommandMatcher

    var history: seq<Event>
    var finishedSteps: map<nat, Event>
    var firedTimers: set<nat>
    var signals: map<string, seq<Json>>
    var signalConsumption: map<string, nat>
    var waiters: map<Key, seq<Waiter>>
    var recordedTimes: seq<int>
    var timeCalls: nat
    var drawCalls: nat
    var moment: Moment
    var commands: seq<Command>
    var emitted: seq<Command>
    var stepSequence: nat
    var timerSequence: nat
    var unsupported: bool
    var started: bool
    var finished: bool
    var settled: Option<Settlement>
    var trace: seq<Observation>
    var ready: seq<Ready>
    var promiseCount: nat
    var hung: bool
    ghost var promises: seq<Promise>
    ghost var issuedLog: seq<CommandShape>
    ghost var timesLog: seq<int>
    ghost var alarmed: bool

    function Known(): Knowledge
      reads `finishedSteps, `firedTimers, `signals
    {
      Knowledge(finishedSteps, firedTimers, signals)
    }

    /** The machine the handler is in. */
    ghost function Underway(): Machine
      reads this
    {
      Machine(trace, ready, promises,
              Counters(stepSequence, timerSequence, 0, drawCalls, signalConsumption),
              Journal(issuedLog, timesLog, map[], {}, alarmed), commands, None, settled, hung)
    }

    /** The live handler this session keeps. */
    ghost function State(): Live
      reads this
    {
      Live(Underway(), Known(), waiters, unsupported)
    }

    ghost function Task(): Decider
      reads `history, `moment
    {
      workflow.On(history, moment)
    }

    ghost function Contents(): Session
      reads this
    {
      Session(history, State(), emitted, started, finished)
    }

    ghost predicate Valid()
      reads this, matcher
    {
      matcher.recorded == Shapes(history) && matcher.issued == |issuedLog| &&
      recordedTimes == Times(history) && timeCalls == |timesLog| && promiseCount == |promises|
    }

    constructor (workflow: Workflow)
      ensures Valid() && fresh(this) && fresh(matcher)
      ensures this.workflow == workflow && Contents() == NewSession(workflow)
    {
      this.workflow := workflow;
      matcher := new CommandMatcher();
      history, finishedSteps, firedTimers, signals, signalConsumption := [], map[], {}, map[], map[];
      waiters, recordedTimes, timeCalls, drawCalls, moment := map[], [], 0, 0, Moment(_ => 0, None);
      commands, emitted, stepSequence, timerSequence := [], [], 0, 0;
      unsupported, started, finished, settled, hung := false, false, false, None, false;
      trace, ready, promiseCount := [Started(workflow.input)], [], 0;
      promises, issuedLog, timesLog, alarmed := [], [], [], false;
    }

    /** Keeps a waiter unless what is known already resolves it. */
    method Register(wait: Wait) returns (answer: Answer)
      requires Valid() && KeyOf(wait).Some?
      modifies this`ready, this`waiters, this`promiseCount, this`promises
      ensures Valid()
      ensures (State(), answer) == old(State()).Register(wait)
    {
      hide Shapes, Times, Knowledge.Resolve, Keep;
      var id := promiseCount;
      promiseCount := promiseCount + 1;
      promises := promises + [Promise(wait, None)];
      var outcome := Known().Resolve(wait);
      if outcome.Some? {
        ready := ready + [Ready(id, outcome.value)];
      } else {
        waiters := Keep(waiters, KeyOf(wait).value, Waiter(id, wait));
      }
      answer := Promised(id);
    }

    method Issue(shape: CommandShape) returns (result: IssueResult)
      requires Valid()
      modifies matcher, this`issuedLog, this`alarmed
      ensures Valid()
      ensures result == Task().Verdict(old(Underway()), shape)
      ensures State() == old(State()).(machine := Task().Issue(old(Underway()), shape))
    {
      result := matcher.Issue(shape);
      issuedLog := issuedLog + [shape];
      alarmed := alarmed || result.Mismatch?;
    }

    /** Issues a command and waits for it; it is newly found unless it was recorded. */
    method IssueAndWait(shape: CommandShape, command: Command, wait: Wait) returns (answer: Answer)
      requires Valid() && KeyOf(wait).Some?
      modifies matcher, this`commands, this`ready, this`waiters, this`promiseCount, this`promises,
               this`issuedLog, this`alarmed
      ensures Valid()
      ensures (State(), answer) == LiveIssue(Task(), old(State()), shape, command, wait)
    {
      var recorded := Issue(shape);
      assert State() == old(State()).(machine := Task().Issue(old(Underway()), shape));
      hide Shapes, Times, Decider.Verdict, Decider.Issue, Live.Register;
      if recorded.Mismatch? {
        return Raised(recorded.error);
      }
      if recorded.New? {
        commands := commands + [command];
      }
      ghost var issued := State();
      answer := Register(wait);
      assert (State(), answer) == issued.Register(wait);
    }

    method Step(stepType: string, input: Json) returns (answer: Answer)
      requires Valid()
      modifies matcher, this`commands, this`ready, this`waiters, this`promiseCount, this`promises,
               this`issuedLog, this`alarmed, this`stepSequence
      ensures Valid()
      ensures (State(), answer) == LiveStep(Task(), old(State()), stepType, input)
    {
      hide Shapes, Times, LiveIssue;
      stepSequence := stepSequence + 1;
      var stepId := stepSequence;
      answer := IssueAndWait(StepShape(stepId, stepType, input), ScheduleStep(stepId, stepType, input),
                             OnStep(stepId, stepType));
    }

    /** A promise that rejects at once. */
    method RejectSleep() returns (answer: Answer)
      requires Valid()
      modifies this`ready, this`promiseCount, this`promises
      ensures Valid() && answer == Promised(|old(promises)|)
      ensures ready == old(ready) + [Ready(|old(promises)|, Rejected(InvalidSleepDuration))]
      ensures promises == old(promises) + [Promise(OnNothing, None)]
    {
      answer := Promised(promiseCount);
      ready := ready + [Ready(promiseCount, Rejected(InvalidSleepDuration))];
      promises := promises + [Promise(OnNothing, None)];
      promiseCount := promiseCount + 1;
    }

    method Sleep(duration: Duration) returns (answer: Answer)
      requires Valid()
      modifies matcher, this`commands, this`ready, this`waiters, this`promiseCount, this`promises,
               this`issuedLog, this`alarmed, this`timerSequence
      ensures Valid()
      ensures (State(), answer) == LiveSleep(Task(), old(State()), duration)
    {
      hide Shapes, Times, LiveIssue;
      if duration.NotFinite? || duration.ms < 0 {
        answer := RejectSleep();
        return;
      }
      timerSequence := timerSequence + 1;
      var timerId := timerSequence;
      var fireAt := moment.clock(matcher.issued + timeCalls) + duration.ms;
      answer := IssueAndWait(TimerShape(timerId, Some(duration.ms)), StartTimer(timerId, fireAt, duration.ms),
                             OnTimer(timerId));
    }

    method WaitForSignal(name: string) returns (answer: Answer)
      requires Valid()
      modifies this`ready, this`waiters, this`promiseCount, this`promises, this`signalConsumption
      ensures Valid()
      ensures (State(), answer) == LiveSignal(old(State()), name)
    {
      hide Shapes, Times, Live.Register;
      var index := SignalsTaken(signalConsumption, name);
      signalConsumption := signalConsumption[name := index + 1];
      answer := Register(OnSignal(name, index));
    }

    method Now() returns (answer: Answer)
      requires Valid()
      modifies this`timeCalls, this`timesLog, this`commands
      ensures Valid()
      ensures (Underway(), answer) == Task().AnswerNow(old(Underway()))
    {
      hide Shapes, Times;
      var index := timeCalls;
      var time;
      if index < |recordedTimes| {
        time := recordedTimes[index];
      } else {
        time := if moment.triggeredAt.Some? then moment.triggeredAt.value else moment.clock(matcher.issued + timeCalls);
        commands := commands + [RecordTime(time)];
      }
      timeCalls := timeCalls + 1;
      timesLog := timesLog + [time];
      answer := Instant(time);
    }

    /** A call this session cannot resume after. */
    method Refuse(call: Call) returns (answer: Answer)
      requires Valid()
      modifies this`unsupported, this`promiseCount, this`promises
      ensures Valid()
      ensures (State(), answer) == old(State()).Refuse(call)
    {
      hide Shapes, Times, LiveSession.Known;
      unsupported := true;
      if call.Patched? {
        return Flag(false);
      } else if call.OnCancel? {
        return Acknowledged;
      }
      answer := Promised(promiseCount);
      promises := promises + [Promise(OnNothing, None)];
      promiseCount := promiseCount + 1;
    }

    method Call(call: Call) returns (answer: Answer)
      requires Valid()
      modifies matcher, this`commands, this`ready, this`waiters, this`promiseCount, this`promises,
               this`issuedLog, this`alarmed, this`stepSequence, this`timerSequence, this`signalConsumption,
               this`timeCalls, this`timesLog, this`drawCalls, this`unsupported
      ensures Valid()
      ensures (State(), answer) == LiveCall(Task(), old(State()), call)
    {
      hide Shapes, Times, LiveStep, LiveSleep, LiveSignal, Decider.AnswerNow, Live.Refuse;
      match call
      case Step(stepType, input) => answer := Step(stepType, input);
      case Sleep(duration) => answer := Sleep(duration);
      case WaitForSignal(name) => answer := WaitForSignal(name);
      case Now => answer := Now();
      case Draw =>
        answer := Drawn(workflow.settings.draw(drawCalls));
        drawCalls := drawCalls + 1;
      case _ => answer := Refuse(call);
    }

    /** One turn of the handler: its next action, or the first ready promise when it waits. */
    method TakeTurn()
      requires Valid() && !Task().AtRest(Underway())
      modifies matcher, this`commands, this`ready, this`waiters, this`promiseCount, this`promises,
               this`issuedLog, this`alarmed, this`stepSequence, this`timerSequence, this`signalConsumption,
               this`timeCalls, this`timesLog, this`drawCalls, this`unsupported, this`trace, this`settled
      ensures Valid()
      ensures State() == LiveTurn(Task(), old(State()))
    {
      hide Shapes, Times, LiveCall, Decider.AnswerCall;
      match workflow.handler.next(trace)
      case Idle =>
        var first := ready[0];
        ready := ready[1..];
        trace := trace + [Resumed(first.promise, first.outcome)];
      case Do(call) =>
        var answer := Call(call);
        trace := trace + [Answered(answer)];
      case Settle(settlement) =>
        if settled.None? {
          settled := Some(settlement);
        }
        trace := trace + [Answered(Acknowledged)];
    }

    /** Runs the handler until nothing is ready and it waits, or until its turns run out. */
    method DrainToQuiescence()
      requires Valid()
      modifies matcher, this`commands, this`ready, this`waiters, this`promiseCount, this`promises,
               this`issuedLog, this`alarmed, this`stepSequence, this`timerSequence, this`signalConsumption,
               this`timeCalls, this`timesLog, this`drawCalls, this`unsupported, this`trace, this`settled, this`hung
      ensures Valid()
      ensures State() == LiveDrain(Task(), old(State()), workflow.settings.maxTurns)
    {
      hide Shapes, Times, LiveTurn;
      var turns := workflow.settings.maxTurns;
      while !hung && !(ready == [] && workflow.handler.next(trace).Idle?)
        invariant Valid()
        invariant LiveDrain(Task(), State(), turns) == LiveDrain(Task(), old(State()), workflow.settings.maxTurns)
        decreases turns, !hung
      {
        if turns == 0 {
          hung := true;
        } else {
          turns := turns - 1;
          TakeTurn();
        }
      }
    }

    /** Wakes the waiters kept under `key` that resolve now; says whether any did. */
    method Notify(key: Key) returns (woke: bool)
      requires Valid()
      modifies this`waiters, this`ready
      ensures Valid()
      ensures var pending := WaitersOf(old(waiters), key);
              if pending == [] then waiters == old(waiters) && ready == old(ready)
              else waiters == Retain(old(waiters), key, Remaining(Known(), pending)) &&
                   ready == old(ready) + Woken(Known(), pending)
      ensures woke <==> ready != old(ready)
    {
      hide Shapes, Times, Knowledge.Resolve;
      var pending := WaitersOf(waiters, key);
      if pending == [] {
        return false;
      }
      var remaining := [];
      for i := 0 to |pending|
        invariant waiters == old(waiters) && remaining == Remaining(Known(), pending[..i])
        invariant ready == old(ready) + Woken(Known(), pending[..i])
        invariant |remaining| + |ready| == |old(ready)| + i
      {
        assert pending[..i + 1][..i] == pending[..i];
        var outcome := Known().Resolve(pending[i].wait);
        if outcome.Some? {
          ready := ready + [Ready(pending[i].promise, outcome.value)];
        } else {
          remaining := remaining + [pending[i]];
        }
      }
      assert pending[..|pending|] == pending;
      waiters := Retain(waiters, key, remaining);
      woke := |remaining| < |pending|;
    }

    /** Files what an event says; `key` is what its waiters are kept under. */
    method File(event: Event) returns (key: Option<Key>)
      requires Valid()
      modifies this`finishedSteps, this`firedTimers, this`signals
      ensures Valid()
      ensures Known() == old(Known()).Learn(event) && key == KeyOfEvent(event)
    {
      hide Shapes, Times;
      match event
      case StepCompleted(stepId, _) =>
        finishedSteps := finishedSteps[stepId := event];
        key := Some(StepKey(stepId));
      case StepFailed(stepId, _, _) =>
        finishedSteps := finishedSteps[stepId := event];
        key := Some(StepKey(stepId));
      case TimerFired(timerId) =>
        firedTimers := firedTimers + {timerId};
        key := Some(TimerKey(timerId));
      case SignalReceived(name, payload) =>
        signals := signals[name := Known().SignalList(name) + [payload]];
        key := Some(SignalKey(name));
      case _ => key := None;
    }

    /** Files an event and wakes the waits it resolves. */
    method Deliver(event: Event) returns (woke: bool)
      requires Valid()
      modifies this`finishedSteps, this`firedTimers, this`signals, this`waiters, this`ready
      ensures Valid()
      ensures State() == old(State()).Hear(event)
      ensures woke <==> ready != old(ready)
    {
      hide Shapes, Times, Knowledge.Resolve, Knowledge.Learn, Remaining, Woken, Retain, WaitersOf, KeyOfEvent;
      var key := File(event);
      if key.Some? {
        woke := Notify(key.value);
      } else {
        woke := false;
      }
    }

    /** Takes note of an event before any is delivered. */
    method Index(event: Event)
      requires Valid()
      modifies matcher, this`history, this`recordedTimes
      ensures Valid() && history == old(history) + [event]
    {
      ShapesConcat(history, [event]);
      TimesConcat(history, [event]);
      SingleEvent(event);
      hide Shapes, Times;
      history := history + [event];
      var command := RecordedCommandOf(event);
      if command.Some? {
        matcher.Record([command.value]);
      }
      if event.TimeRecorded? {
        recordedTimes := recordedTimes + [event.time];
      }
    }

    method IndexAll(slice: seq<Event>)
      requires Valid()
      modifies matcher, this`history, this`recordedTimes
      ensures Valid() && history == old(history) + slice
    {
      hide Shapes, Times;
      for i := 0 to |slice|
        invariant Valid() && history == old(history) + slice[..i]
      {
        Index(slice[i]);
      }
    }

    /** Whether the slice records what was emitted last, as far as the session looks. */
    method CheckEmitted(slice: seq<Event>) returns (ok: bool)
      ensures ok == EmittedAreRecorded(emitted, slice)
    {
      hide Shapes, Times, TimesOf;
      if |Times(slice)| < |TimesOf(emitted)| {
        return false;
      }
      for i := 0 to |emitted|
        invariant forall k :: 0 <= k < i ==> IsRecordedIn(emitted[k], slice)
      {
        var found := FindRecorded(emitted[i], slice);
        if !found {
          return false;
        }
      }
      ok := true;
    }

    method FindRecorded(command: Command, slice: seq<Event>) returns (found: bool)
      ensures found == IsRecordedIn(command, slice)
    {
      if !command.ScheduleStep? && !command.StartTimer? {
        return true;
      }
      found := false;
      for i := 0 to |slice|
        invariant found <==> IsRecordedIn(command, slice[..i])
      {
        var event := slice[i];
        assert slice[..i + 1] == slice[..i] + [event];
        if (command.ScheduleStep? && event.StepScheduled? && event.stepId == command.stepId) ||
           (command.StartTimer? && event.TimerStarted? && event.timerId == command.timerId) {
          found := true;
        }
      }
      assert slice[..|slice|] == slice;
    }

    /** Delivers the events from `seen` on, draining after each that wakes a wait. */
    method Feed(seen: nat)
      requires Valid() && seen <= |history|
      modifies matcher, this`commands, this`ready, this`waiters, this`promiseCount, this`promises,
               this`issuedLog, this`alarmed, this`stepSequence, this`timerSequence, this`signalConsumption,
               this`timeCalls, this`timesLog, this`drawCalls, this`unsupported, this`trace, this`settled, this`hung,
               this`finishedSteps, this`firedTimers, this`signals
      ensures Valid()
      ensures State() == LiveFeed(Task(), old(State()), seen, |history|)
    {
      hide Shapes, Times, LiveDrain, Live.Hear;
      var next := seen;
      while next < |history| && !hung
        invariant Valid() && seen <= next <= |history|
        invariant State() == LiveFeed(Task(), old(State()), seen, next)
      {
        var woke := Deliver(history[next]);
        if woke {
          DrainToQuiescence();
        }
        next := next + 1;
      }
      HungFeedsNothing(Task(), old(State()), seen, next, |history|);
    }

    method GiveUp()
      requires Valid()
      modifies this`unsupported
      ensures Valid() && State() == old(State()).(unsupported := true)
    {
      unsupported := true;
    }

    method SetMoment(at: Moment)
      requires Valid()
      modifies this`moment
      ensures Valid() && moment == at && State() == old(State())
    {
      moment := at;
    }

    /** Whether `full` cannot continue what the session has seen. */
    predicate Foreign(full: seq<Event>)
      reads this
      ensures Foreign(full) == LooksForeign(Contents(), full)
    {
      finished || unsupported || |full| < |history| ||
      (|history| > 0 && full[|history| - 1] != history[|history| - 1])
    }

    /** Hands the session the whole history; it takes what it has not seen yet, and decides. */
    method Advance(full: seq<Event>, at: Moment) returns (result: LiveAdvance)
      requires Valid()
      modifies matcher, this
      ensures Valid()
      ensures (Contents(), result) == CacheAgreement.Advance(workflow, old(Contents()), full, at)
    {
      hide Shapes, Times, Fed, Conclusion, EmittedAreRecorded, IsSupported, LiveSession.State, LiveSession.Valid,
           LooksForeign, LiveSession.Foreign;
      SetMoment(at);
      if Foreign(full) {
        return Diverged;
      }
      ForeignIsShort(Contents(), full);
      var slice := full[|history|..];
      if exists event :: event in slice && !IsSupported(event) {
        GiveUp();
        return Unsupported;
      }
      var recorded := CheckEmitted(slice);
      if !recorded {
        return Diverged;
      }
      result := DecideOn(slice);
    }

    method DecideOn(slice: seq<Event>) returns (result: LiveAdvance)
      requires Valid() && !finished
      modifies matcher, this`commands, this`ready, this`waiters, this`promiseCount, this`promises,
               this`issuedLog, this`alarmed, this`stepSequence, this`timerSequence, this`signalConsumption,
               this`timeCalls, this`timesLog, this`drawCalls, this`unsupported, this`trace, this`settled, this`hung,
               this`finishedSteps, this`firedTimers, this`signals, this`history, this`recordedTimes, this`started,
               this`finished, this`emitted
      ensures Valid()
      ensures (Contents(), result) ==
              var task := workflow.On(old(history) + slice, moment);
              Conclusion(task, Fed(task, old(Contents())), old(emitted))
    {
      hide Shapes, Times, Fed, Conclusion, LiveSession.State, LiveSession.Valid;
      Resume(slice);
      result := Conclude();
    }

    /** Takes the slice in, with no command found yet. */
    method TakeIn(slice: seq<Event>)
      requires Valid()
      modifies matcher, this`commands, this`history, this`recordedTimes, this`started
      ensures Valid() && started && history == old(history) + slice
      ensures State() == old(State()).(machine := old(State()).machine.(commands := []))
    {
      hide Shapes, Times;
      commands := [];
      IndexAll(slice);
      started := true;
    }

    /** Takes the slice in, and runs the handler on as far as it goes. */
    method Resume(slice: seq<Event>)
      requires Valid()
      modifies matcher, this`commands, this`ready, this`waiters, this`promiseCount, this`promises,
               this`issuedLog, this`alarmed, this`stepSequence, this`timerSequence, this`signalConsumption,
               this`timeCalls, this`timesLog, this`drawCalls, this`unsupported, this`trace, this`settled, this`hung,
               this`finishedSteps, this`firedTimers, this`signals, this`history, this`recordedTimes, this`started
      ensures Valid() && started && history == old(history) + slice
      ensures State() == Fed(Task(), old(Contents()))
    {
      hide Shapes, Times, LiveDrain, LiveFeed, LiveSession.State, LiveSession.Valid;
      assert old(Contents()).history == old(history) && old(Contents()).live == old(State());
      var seen := |history|;
      TakeIn(slice);
      DrainToQuiescence();
      Feed(seen);
    }

    method Conclude() returns (result: LiveAdvance)
      requires Valid() && started && !finished
      modifies this`finished, this`emitted
      ensures Valid()
      ensures (Contents(), result) == Conclusion(Task(), old(State()), old(emitted))
    {
      hide Shapes, Times;
      if hung {
        return Advanced(Hung);
      }
      if unsupported {
        return Unsupported;
      }
      if settled.Some? && settled.value.Failed? && IsIntegrityError(settled.value.error) {
        finished := true;
        return Advanced(ThrewMismatch(settled.value.error));
      }
      var unissued := matcher.AssertAllIssued();
      if unissued.Some? {
        finished := true;
        return Advanced(ThrewMismatch(unissued.value));
      }
      var warning := Warning(workflow.settings, |history|);
      match settled
      case None =>
        emitted := commands;
        result := Advanced(Decided(Suspended(commands), warning));
      case Some(Completed(value)) =>
        finished, emitted := true, commands + [CompleteRun(value)];
        result := Advanced(Decided(CompletedRun(value, emitted), warning));
      case Some(Failed(error)) =>
        finished, emitted := true, commands + [FailRun(ToRecordedError(error))];
        result := Advanced(Decided(FailedRun(error, emitted), warning));
    }
  }

  lemma {:induction false} ForeignIsShort(s: Session, full: seq<Event>)
    requires !LooksForeign(s, full)
    ensures |s.history| <= |full| && !s.finished
  {
  }

  lemma {:induction false} HungFeedsNothing(task: Decider, live: Live, start: nat, next: nat, stop: nat)
    requires start <= next <= stop <= |task.history|
    requires next < stop ==> LiveFeed(task, live, start, next).machine.hung
    ensures LiveFeed(task, live, start, stop) == LiveFeed(task, live, start, next)
    decreases stop
  {
    if next < stop {
      HungFeedsNothing(task, live, start, next, stop - 1);
    }
  }
}
