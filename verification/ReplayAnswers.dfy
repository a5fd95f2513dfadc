/**
 What a replayed handler gets to hear, in terms of the events and of its own calls: every
 promise settles with what the first event for it says, and the decision is what the
 handler settled with.
 */
module ReplayAnswers {
  import opened WorkflowTypes
  import opened CommandMatching
  import opened Replay
  import opened ReplayFacts

  // ---- what the events say -------------------------------------------------------------------

  predicate EndsStep(event: Event, stepId: nat) {
    match event
    case StepCompleted(id, _) => id == stepId
    case StepFailed(id, _, _) => id == stepId
    case _ => false
  }

  predicate EndsChild(event: Event, childId: nat) {
    match event
    case ChildCompleted(id, _) => id == childId
    case ChildFailed(id, _) => id == childId
    case _ => false
  }

  function SignalsBefore(history: seq<Event>, i: nat, name: string): set<nat>
    requires i <= |history|
  {
    set j | 0 <= j < i && history[j].SignalReceived? && history[j].signalName == name
  }

  /** The event at `i` is the one a promise waits for: the first end of its step, timer or child, or its own signal. */
  predicate IsEventFor(history: seq<Event>, i: nat, wait: Wait)
    requires i < |history|
  {
    match wait
    case OnStep(stepId, _) => EndsStep(history[i], stepId) && forall j :: 0 <= j < i ==> !EndsStep(history[j], stepId)
    case OnTimer(timerId) => history[i] == TimerFired(timerId) && forall j :: 0 <= j < i ==> history[j] != TimerFired(timerId)
    case OnSignal(name, nth) =>
      history[i].SignalReceived? && history[i].signalName == name && |SignalsBefore(history, i, name)| == nth
    case OnChild(childId) => EndsChild(history[i], childId) && forall j :: 0 <= j < i ==> !EndsChild(history[j], childId)
    case _ => false
  }

  /** What an event says to a promise: a value, or an error; an exhausted step's error names the step. */
  predicate Says(event: Event, wait: Wait, outcome: Outcome) {
    match event
    case StepCompleted(_, value) => outcome == Fulfilled(value)
    case StepFailed(id, error, exhausted) =>
      wait.OnStep? && outcome == Rejected(if exhausted then StepExhausted(id, wait.stepType, error) else Recorded(error))
    case TimerFired(_) => outcome == Fulfilled(Null)
    case SignalReceived(_, payload) => outcome == Fulfilled(payload)
    case ChildCompleted(_, value) => outcome == Fulfilled(value)
    case ChildFailed(_, error) => outcome == Rejected(Recorded(error))
    case _ => false
  }

  /** The event for a promise is among the first `count`, and says that. */
  ghost predicate IsAnswer(history: seq<Event>, count: nat, wait: Wait, outcome: Outcome)
    requires count <= |history|
  {
    exists i :: 0 <= i < count && IsEventFor(history, i, wait) && Says(history[i], wait, outcome)
  }

  lemma {:induction false} SignalsAreCounted(history: seq<Event>, i: nat, name: string)
    requires i <= |history|
    ensures |SignalsBefore(history, i, name)| == CountSignals(history[..i], name)
  {
    if i > 0 {
      SignalsAreCounted(history, i - 1, name);
      assert history[..i][..i - 1] == history[..i - 1];
      var before, now := SignalsBefore(history, i - 1, name), SignalsBefore(history, i, name);
      if history[i - 1].SignalReceived? && history[i - 1].signalName == name {
        assert now == before + {i - 1};
      } else {
        assert now == before;
      }
    }
  }

  lemma {:induction false} FirstIsForIt(history: seq<Event>, i: nat, wait: Wait)
    requires i < |history| && Settles(history, i, wait) && forall j :: 0 <= j < i ==> !Settles(history, j, wait)
    ensures IsEventFor(history, i, wait) && Says(history[i], wait, Settled(history[i], wait))
  {
    match wait
    case OnStep(stepId, _) => assert forall j :: 0 <= j < i ==> (EndsStep(history[j], stepId) ==> Settles(history, j, wait));
    case OnTimer(timerId) => assert forall j :: 0 <= j < i ==> (history[j] == TimerFired(timerId) ==> Settles(history, j, wait));
    case OnSignal(name, _) => SignalsAreCounted(history, i, name);
    case OnChild(childId) => assert forall j :: 0 <= j < i ==> (EndsChild(history[j], childId) ==> Settles(history, j, wait));
    case _ =>
  }

  lemma {:induction false} ForItIsFound(history: seq<Event>, i: nat, wait: Wait)
    requires i < |history| && IsEventFor(history, i, wait)
    ensures Find(history, wait) == Some(i)
  {
    assert Settles(history, i, wait) by {
      if wait.OnSignal? {
        SignalsAreCounted(history, i, wait.name);
      }
    }
    forall j | 0 <= j < i
      ensures !Settles(history, j, wait)
    {
      if wait.OnSignal? && Settles(history, j, wait) {
        SignalsAreCounted(history, j, wait.name);
        assert j !in SignalsBefore(history, j, wait.name) && j in SignalsBefore(history, i, wait.name);
        SmallerSet(SignalsBefore(history, j, wait.name), SignalsBefore(history, i, wait.name), j);
      }
    }
  }

  lemma SmallerSet(few: set<nat>, many: set<nat>, extra: nat)
    requires few <= many && extra in many && extra !in few
    ensures |few| < |many|
  {
    assert |many - few| > 0;
    assert many == few + (many - few);
  }

  // ---- what is on its way to the handler -------------------------------------------------------

  /** What a promise settles with, by its due: `InvalidSleepDuration` for one that never had any. */
  predicate IsDueAnswer(history: seq<Event>, count: nat, promise: Promise, outcome: Outcome) {
    if promise.due.None? then promise.wait.OnNothing? && outcome == Rejected(InvalidSleepDuration)
    else promise.due.value.index < count && promise.due.value.index < |history| && outcome == OutcomeOf(history, promise.due.value)
  }

  predicate IsRightly(history: seq<Event>, count: nat, promises: seq<Promise>, promise: nat, outcome: Outcome) {
    promise < |promises| && IsDueAnswer(history, count, promises[promise], outcome)
  }

  ghost predicate AllRightly(a: Decider, m: Machine, count: nat) {
    (forall i :: 0 <= i < |m.queue| ==> IsRightly(a.history, count, m.promises, m.queue[i].promise, m.queue[i].outcome)) &&
    forall k :: 0 <= k < |m.trace| && m.trace[k].Resumed? ==>
      IsRightly(a.history, count, m.promises, m.trace[k].promise, m.trace[k].outcome)
  }

  // ---- what the handler asked for ----------------------------------------------------------------

  datatype Kind = Steps | Timers | Children | Signals(name: string)

  predicate IsOf(call: Call, kind: Kind) {
    match kind
    case Steps => call.Step?
    case Timers => call.Sleep? && call.duration.Finite? && call.duration.ms >= 0
    case Children => call.ExecuteChild?
    case Signals(name) => call == WaitForSignal(name)
  }

  /** How many calls of a kind the handler made along a trace. */
  function CallsOf(handler: Handler, trace: seq<Observation>, kind: Kind): nat {
    if |trace| <= 1 then 0
    else
      var before := trace[..|trace| - 1];
      CallsOf(handler, before, kind) +
      if handler.next(before).Do? && IsOf(handler.next(before).call, kind) then 1 else 0
  }

  /** What the promise waits for that the call after `before` gives out: the nth step, timer, child or signal by name. */
  function WaitAsked(handler: Handler, before: seq<Observation>): Wait {
    match handler.next(before)
    case Do(Step(stepType, _)) => OnStep(CallsOf(handler, before, Steps) + 1, stepType)
    case Do(Sleep(Finite(ms))) => if ms >= 0 then OnTimer(CallsOf(handler, before, Timers) + 1) else OnNothing
    case Do(WaitForSignal(name)) => OnSignal(name, CallsOf(handler, before, Signals(name)))
    case Do(ExecuteChild(_, _, _, _, _)) => OnChild(CallsOf(handler, before, Children) + 1)
    case Do(Select(_)) => OnSelect
    case _ => OnNothing
  }

  predicate AreCounted(handler: Handler, m: Machine) {
    m.counters.steps == CallsOf(handler, m.trace, Steps) && m.counters.timers == CallsOf(handler, m.trace, Timers) &&
    m.counters.children == CallsOf(handler, m.trace, Children)
  }

  ghost predicate SignalsCounted(handler: Handler, m: Machine) {
    forall name :: SignalsTaken(m.counters.signals, name) == CallsOf(handler, m.trace, Signals(name))
  }

  /** The first of the branches to settle, as the promises given out before have it. */
  function SelectDue(promises: seq<Promise>, branches: seq<nat>): Option<Due> {
    match Winner(promises, branches)
    case None => None
    case Some(winner) => Some(promises[branches[winner]].due.value.(branch := Some(winner)))
  }

  /** A promise given out along the trace waits for what was asked, and a select for its first branch. */
  predicate IsAsAsked(handler: Handler, trace: seq<Observation>, promises: seq<Promise>, k: nat)
    requires k < |trace|
  {
    Gives(trace[k]) ==>
      var p := trace[k].answer.promise;
      p < |promises| && handler.next(trace[..k]).Do? && promises[p].wait == WaitAsked(handler, trace[..k]) &&
      (handler.next(trace[..k]).call.Select? ==> promises[p].due == SelectDue(promises[..p], handler.next(trace[..k]).call.branches))
  }

  predicate Gives(seen: Observation) {
    seen.Answered? && seen.answer.Promised?
  }

  predicate GivenOut(trace: seq<Observation>, promise: nat) {
    exists k :: 0 <= k < |trace| && trace[k] == Answered(Promised(promise))
  }

  ghost predicate AllAsAsked(handler: Handler, m: Machine) {
    (forall k :: 0 <= k < |m.trace| ==> IsAsAsked(handler, m.trace, m.promises, k)) &&
    (forall p :: 0 <= p < |m.promises| ==> GivenOut(m.trace, p)) &&
    forall j, k :: 0 <= j < k < |m.trace| && Gives(m.trace[j]) && Gives(m.trace[k]) ==>
      m.trace[j].answer.promise < m.trace[k].answer.promise
  }

  // ---- one call ------------------------------------------------------------------------------------

  /** What a call waits for when it is made now. */
  function WaitNow(m: Machine, call: Call): Wait {
    match call
    case Step(stepType, _) => OnStep(m.counters.steps + 1, stepType)
    case Sleep(Finite(ms)) => if ms >= 0 then OnTimer(m.counters.timers + 1) else OnNothing
    case WaitForSignal(name) => OnSignal(name, SignalsTaken(m.counters.signals, name))
    case ExecuteChild(_, _, _, _, _) => OnChild(m.counters.children + 1)
    case Select(_) => OnSelect
    case _ => OnNothing
  }

  function DueNow(a: Decider, m: Machine, call: Call): Option<Due> {
    match WaitNow(m, call)
    case OnSelect => if call.Select? then SelectDue(m.promises, call.branches) else None
    case OnNothing => None
    case wait => a.DueOf(wait)
  }

  function CountersNow(counters: Counters, call: Call): Counters {
    match call
    case Step(_, _) => counters.(steps := counters.steps + 1)
    case Sleep(Finite(ms)) => if ms >= 0 then counters.(timers := counters.timers + 1) else counters
    case WaitForSignal(name) => counters.(signals := counters.signals[name := SignalsTaken(counters.signals, name) + 1])
    case ExecuteChild(_, _, _, _, _) => counters.(children := counters.children + 1)
    case Draw => counters.(draws := counters.draws + 1)
    case _ => counters
  }

  function ReadyNow(a: Decider, promise: nat, due: Option<Due>, fed: nat): seq<Ready> {
    if due.Some? && due.value.index < fed && due.value.index < |a.history| then [Ready(promise, OutcomeOf(a.history, due.value))] else []
  }

  /** A call gives out no promise, or one: for a sleep of no duration one that is rejected at once. */
  predicate GivesOut(a: Decider, m: Machine, after: Machine, answer: Answer, wait: Wait, due: Option<Due>, rejects: bool, fed: nat) {
    if answer.Promised? then
      answer.promise == |m.promises| && after.promises == m.promises + [Promise(wait, due)] &&
      after.queue == m.queue + if rejects then [Ready(|m.promises|, Rejected(InvalidSleepDuration))] else ReadyNow(a, |m.promises|, due, fed)
    else after.promises == m.promises && after.queue == m.queue
  }

  predicate IsBadSleep(call: Call) {
    call.Sleep? && (call.duration.NotFinite? || call.duration.ms < 0)
  }

  lemma {:induction false} IssueGivesOut(a: Decider, m: Machine, shape: CommandShape, command: Command, unlessDone: bool, wait: Wait, fed: nat)
    ensures var (after, answer) := a.IssueAndWait(m, shape, command, unlessDone, wait, fed);
            GivesOut(a, m, after, answer, wait, a.DueOf(wait), false, fed) && after.counters == m.counters && after.trace == m.trace &&
            after.settled == m.settled && after.continuation == m.continuation
  {
    var issued := a.IssueNew(m, shape, command, unlessDone, wait);
    IssueTouchesNoPromise(a, m, shape, command, unlessDone, wait);
    AddingGivesOut(a, issued, wait, a.DueOf(wait), fed);
    hide Decider.Verdict, Decider.Issue, Decider.IssueNew, Decider.AddPromise, Decider.DueOf, ReadyNow;
  }

  lemma {:induction false} IssueTouchesNoPromise(a: Decider, m: Machine, shape: CommandShape, command: Command, unlessDone: bool, wait: Wait)
    ensures forall after :: after == a.Issue(m, shape) || after == a.IssueNew(m, shape, command, unlessDone, wait) ==>
      after.promises == m.promises && after.queue == m.queue && after.counters == m.counters && after.trace == m.trace &&
      after.settled == m.settled && after.continuation == m.continuation
  {
    hide Decider.Verdict, Find;
  }

  lemma AddingGivesOut(a: Decider, m: Machine, wait: Wait, due: Option<Due>, fed: nat)
    ensures var after := a.AddPromise(m, wait, due, fed);
            after.promises == m.promises + [Promise(wait, due)] && after.queue == m.queue + ReadyNow(a, |m.promises|, due, fed) &&
            after == m.(promises := after.promises, queue := after.queue)
  {
    hide OutcomeOf;
  }

  lemma {:induction false} PatchGivesNothing(a: Decider, m: Machine, patchId: string)
    ensures var (after, answer) := a.AnswerPatched(m, patchId);
            !answer.Promised? && after.promises == m.promises && after.queue == m.queue && after.counters == m.counters &&
            after.trace == m.trace && after.settled == m.settled && after.continuation == m.continuation
  {
    hide Decider.Verdict, PatchIds, CommandCount;
  }

  lemma {:induction false} CallGivesOut(a: Decider, m: Machine, call: Call, fed: nat)
    ensures var (after, answer) := a.AnswerCall(m, call, fed);
            GivesOut(a, m, after, answer, WaitNow(m, call), DueNow(a, m, call), IsBadSleep(call), fed) &&
            after.counters == CountersNow(m.counters, call) && after.trace == m.trace && after.settled == m.settled &&
            after.continuation == if call.ContinueWith? && m.continuation.None? then Some(call.input) else m.continuation
  {
    hide Decider.IssueAndWait, Decider.AnswerPatched, Find, OutcomeOf, Winner, Times;
    match call
    case Step(stepType, input) =>
      var id := m.counters.steps + 1;
      IssueGivesOut(a, m.(counters := m.counters.(steps := id)), StepShape(id, stepType, input),
                    ScheduleStep(id, stepType, input), true, OnStep(id, stepType), fed);
    case Sleep(duration) =>
      if !IsBadSleep(call) {
        var id := m.counters.timers + 1;
        IssueGivesOut(a, m.(counters := m.counters.(timers := id)), TimerShape(id, Some(duration.ms)),
                      StartTimer(id, a.moment.clock(m.journal.Asked()) + duration.ms, duration.ms), true, OnTimer(id), fed);
      }
    case ExecuteChild(workflowType, input, policy, runTimeoutMs, executionTimeoutMs) =>
      var id := m.counters.children + 1;
      IssueGivesOut(a, m.(counters := m.counters.(children := id)), ChildShape(id, workflowType, input),
                    StartChild(id, workflowType, input, policy, runTimeoutMs, executionTimeoutMs), false, OnChild(id), fed);
    case Patched(patchId) => PatchGivesNothing(a, m, patchId);
    case _ =>
  }

  // ---- turn after turn -----------------------------------------------------------------------------

  lemma {:induction false} GivingIsRightly(a: Decider, m: Machine, after: Machine, answer: Answer, wait: Wait, due: Option<Due>,
      rejects: bool, fed: nat)
    requires AllRightly(a, m, fed) && GivesOut(a, m, after, answer, wait, due, rejects, fed) && after.trace == m.trace
    requires rejects ==> wait.OnNothing? && due.None?
    ensures AllRightly(a, after.(trace := m.trace + [Answered(answer)]), fed)
  {
    hide OutcomeOf;
  }

  lemma {:induction false} TurnIsRightly(a: Decider, m: Machine, fed: nat)
    requires AllRightly(a, m, fed) && !a.AtRest(m)
    ensures AllRightly(a, a.Turn(m, fed), fed)
  {
    hide Decider.AnswerCall, IsRightly;
    if a.handler.next(m.trace).Do? {
      var call := a.handler.next(m.trace).call;
      CallGivesOut(a, m, call, fed);
      var (after, answer) := a.AnswerCall(m, call, fed);
      GivingIsRightly(a, m, after, answer, WaitNow(m, call), DueNow(a, m, call), IsBadSleep(call), fed);
    }
    hide GivesOut;
  }

  lemma {:induction false} DrainIsRightly(a: Decider, m: Machine, fed: nat, turns: nat)
    requires AllRightly(a, m, fed)
    ensures AllRightly(a, a.Drain(m, fed, turns), fed)
    decreases turns
  {
    hide Decider.Turn, AllRightly;
    if !(m.hung || a.AtRest(m)) && turns != 0 {
      TurnIsRightly(a, m, fed);
      DrainIsRightly(a, a.Turn(m, fed), fed, turns - 1);
    } else if !(m.hung || a.AtRest(m)) {
      SameRightly(a, m, m.(hung := true), fed);
    }
  }

  lemma {:induction false} SameRightly(a: Decider, m: Machine, other: Machine, fed: nat)
    requires AllRightly(a, m, fed) && other.queue == m.queue && other.trace == m.trace && other.promises == m.promises
    ensures AllRightly(a, other, fed)
  {
  }

  lemma {:induction false} ReleasesAreRightly(history: seq<Event>, promises: seq<Promise>, index: nat)
    requires index < |history|
    ensures forall i :: 0 <= i < |Releases(history, promises, index)| ==>
      var ready := Releases(history, promises, index)[i];
      ready.promise < |promises| && promises[ready.promise].due.Some? && promises[ready.promise].due.value.index == index &&
      ready.outcome == OutcomeOf(history, promises[ready.promise].due.value)
  {
    hide OutcomeOf;
    if promises != [] {
      ReleasesAreRightly(history, promises[..|promises| - 1], index);
    }
  }

  lemma {:induction false} DeliveredRightly(a: Decider, m: Machine, index: nat)
    requires index < |a.history| && AllRightly(a, m, index)
    ensures AllRightly(a, m.(queue := m.queue + Releases(a.history, m.promises, index)), index + 1)
    ensures AllRightly(a, m, index + 1)
  {
    ReleasesAreRightly(a.history, m.promises, index);
    hide OutcomeOf, Releases;
  }

  lemma {:induction false} RunIsRightly(a: Decider, count: nat)
    requires count <= |a.history|
    ensures AllRightly(a, a.RunTo(count), count)
  {
    hide Decider.Drain, Releases;
    if count == 0 {
      assert AllRightly(a, a.Fresh(), 0);
      hide AllRightly;
      DrainIsRightly(a, a.Fresh(), 0, a.settings.maxTurns);
    } else {
      hide AllRightly;
      RunIsRightly(a, count - 1);
      var m := a.RunTo(count - 1);
      DeliveredRightly(a, m, count - 1);
      DrainIsRightly(a, m.(queue := m.queue + Releases(a.history, m.promises, count - 1)), count, a.settings.maxTurns);
    }
  }

  // ---- asked and answered --------------------------------------------------------------------------

  lemma {:induction false} CallsSnoc(handler: Handler, trace: seq<Observation>, seen: Observation, kind: Kind)
    requires trace != []
    ensures CallsOf(handler, trace + [seen], kind) ==
            CallsOf(handler, trace, kind) + if handler.next(trace).Do? && IsOf(handler.next(trace).call, kind) then 1 else 0
  {
    assert (trace + [seen])[..|trace + [seen]| - 1] == trace;
    hide IsOf;
  }

  lemma {:induction false} StillCounted(handler: Handler, m: Machine, after: Machine, seen: Observation)
    requires AreCounted(handler, m) && SignalsCounted(handler, m) && m.trace != [] && after.trace == m.trace + [seen]
    requires after.counters == if handler.next(m.trace).Do? then CountersNow(m.counters, handler.next(m.trace).call) else m.counters
    ensures AreCounted(handler, after) && SignalsCounted(handler, after)
  {
    CallsSnoc(handler, m.trace, seen, Steps);
    CallsSnoc(handler, m.trace, seen, Timers);
    CallsSnoc(handler, m.trace, seen, Children);
    forall name
      ensures SignalsTaken(after.counters.signals, name) == CallsOf(handler, after.trace, Signals(name))
    {
      CallsSnoc(handler, m.trace, seen, Signals(name));
      assert SignalsTaken(m.counters.signals, name) == CallsOf(handler, m.trace, Signals(name));
      hide CallsOf;
    }
    hide CallsOf;
  }

  lemma {:induction false} NowIsAsked(handler: Handler, m: Machine)
    requires AreCounted(handler, m) && SignalsCounted(handler, m) && handler.next(m.trace).Do?
    ensures WaitNow(m, handler.next(m.trace).call) == WaitAsked(handler, m.trace)
  {
    hide CallsOf;
  }

  /** What was asked for stays, when more is observed and more promises are given out. */
  lemma {:induction false} AskedStays(handler: Handler, trace: seq<Observation>, longer: seq<Observation>, promises: seq<Promise>,
      more: seq<Promise>, k: nat)
    requires trace <= longer && promises <= more && k < |trace| && IsAsAsked(handler, trace, promises, k)
    ensures IsAsAsked(handler, longer, more, k)
  {
    assert longer[..k] == trace[..k];
    if trace[k].Answered? && trace[k].answer.Promised? {
      assert more[..trace[k].answer.promise] == promises[..trace[k].answer.promise];
    }
    hide WaitAsked, SelectDue;
  }

  lemma {:induction false} StillAsAsked(handler: Handler, m: Machine, after: Machine, seen: Observation)
    requires AllAsAsked(handler, m) && after.trace == m.trace + [seen] && m.promises <= after.promises
    requires IsAsAsked(handler, after.trace, after.promises, |m.trace|)
    requires Gives(seen) ==> seen.answer.promise == |m.promises|
    requires after.promises == m.promises || (|after.promises| == |m.promises| + 1 && seen == Answered(Promised(|m.promises|)))
    ensures AllAsAsked(handler, after)
  {
    forall k | 0 <= k < |after.trace|
      ensures IsAsAsked(handler, after.trace, after.promises, k)
    {
      if k < |m.trace| {
        AskedStays(handler, m.trace, after.trace, m.promises, after.promises, k);
      }
    }
    forall j | 0 <= j < |m.trace| && Gives(m.trace[j])
      ensures m.trace[j].answer.promise < |m.promises|
    {
      assert IsAsAsked(handler, m.trace, m.promises, j);
    }
    hide IsAsAsked;
    forall p | 0 <= p < |after.promises|
      ensures GivenOut(after.trace, p)
    {
      if p < |m.promises| {
        assert GivenOut(m.trace, p);
        var k :| 0 <= k < |m.trace| && m.trace[k] == Answered(Promised(p));
        assert after.trace[k] == Answered(Promised(p));
      } else {
        assert after.trace[|m.trace|] == Answered(Promised(p));
      }
    }
  }

  /** What the handler settled with first along a trace, and what it first asked to continue with. */
  function SettledAlong(handler: Handler, trace: seq<Observation>): Option<Settlement> {
    if |trace| <= 1 then None
    else
      var before := trace[..|trace| - 1];
      match SettledAlong(handler, before)
      case Some(settlement) => Some(settlement)
      case None => if handler.next(before).Settle? then Some(handler.next(before).settlement) else None
  }

  function ContinuedAlong(handler: Handler, trace: seq<Observation>): Option<Json> {
    if |trace| <= 1 then None
    else
      var before := trace[..|trace| - 1];
      match ContinuedAlong(handler, before)
      case Some(input) => Some(input)
      case None =>
        if handler.next(before).Do? && handler.next(before).call.ContinueWith? then Some(handler.next(before).call.input) else None
  }

  /** Everything a machine knows of its handler is in the trace. */
  ghost predicate IsTold(a: Decider, m: Machine) {
    m.trace != [] && AreCounted(a.handler, m) && SignalsCounted(a.handler, m) && AllAsAsked(a.handler, m) &&
    m.settled == SettledAlong(a.handler, m.trace) && m.continuation == ContinuedAlong(a.handler, m.trace)
  }

  lemma {:induction false} SettlingIsTold(handler: Handler, m: Machine, after: Machine, seen: Observation)
    requires m.trace != [] && after.trace == m.trace + [seen]
    requires m.settled == SettledAlong(handler, m.trace) && m.continuation == ContinuedAlong(handler, m.trace)
    requires after.settled ==
      if m.settled.None? && handler.next(m.trace).Settle? then Some(handler.next(m.trace).settlement) else m.settled
    requires after.continuation ==
      if m.continuation.None? && handler.next(m.trace).Do? && handler.next(m.trace).call.ContinueWith?
      then Some(handler.next(m.trace).call.input) else m.continuation
    ensures after.settled == SettledAlong(handler, after.trace) && after.continuation == ContinuedAlong(handler, after.trace)
  {
    assert after.trace[..|after.trace| - 1] == m.trace;
  }

  lemma {:induction false} GivenAsAsked(a: Decider, m: Machine, after: Machine, answer: Answer, fed: nat)
    requires IsTold(a, m) && a.handler.next(m.trace).Do?
    requires var call := a.handler.next(m.trace).call; GivesOut(a, m, after, answer, WaitNow(m, call), DueNow(a, m, call), IsBadSleep(call), fed)
    requires after.trace == m.trace + [Answered(answer)]
    ensures AllAsAsked(a.handler, after)
  {
    NowIsAsked(a.handler, m);
    assert after.trace[..|m.trace|] == m.trace;
    if answer.Promised? {
      assert after.promises[..|m.promises|] == m.promises;
    }
    assert IsAsAsked(a.handler, after.trace, after.promises, |m.trace|) by {
      hide WaitAsked, SelectDue, AllAsAsked, AreCounted, SignalsCounted, SettledAlong, ContinuedAlong;
    }
    hide IsAsAsked, WaitNow, DueNow, SettledAlong, ContinuedAlong, AreCounted, SignalsCounted, ReadyNow;
    StillAsAsked(a.handler, m, after, Answered(answer));
  }

  lemma {:induction false} TurnIsTold(a: Decider, m: Machine, fed: nat)
    requires IsTold(a, m) && !a.AtRest(m)
    ensures IsTold(a, a.Turn(m, fed))
  {
    hide Decider.AnswerCall, SettledAlong, ContinuedAlong, AreCounted, SignalsCounted, AllAsAsked, GivesOut, CountersNow;
    var after := a.Turn(m, fed);
    var seen := after.trace[|m.trace|];
    if a.handler.next(m.trace).Do? {
      var call := a.handler.next(m.trace).call;
      CallGivesOut(a, m, call, fed);
      var (called, answer) := a.AnswerCall(m, call, fed);
      SameGiving(a, m, called, after, answer, fed);
      GivenAsAsked(a, m, after, answer, fed);
    } else {
      NothingAsked(a.handler, m, after, seen);
    }
    StillCounted(a.handler, m, after, seen);
    SettlingIsTold(a.handler, m, after, seen);
  }

  lemma SameGiving(a: Decider, m: Machine, called: Machine, after: Machine, answer: Answer, fed: nat)
    requires a.handler.next(m.trace).Do? && after == called.(trace := after.trace)
    requires var call := a.handler.next(m.trace).call; GivesOut(a, m, called, answer, WaitNow(m, call), DueNow(a, m, call), IsBadSleep(call), fed)
    ensures var call := a.handler.next(m.trace).call; GivesOut(a, m, after, answer, WaitNow(m, call), DueNow(a, m, call), IsBadSleep(call), fed)
  {
    hide WaitNow, DueNow, ReadyNow;
  }

  lemma {:induction false} NothingAsked(handler: Handler, m: Machine, after: Machine, seen: Observation)
    requires AllAsAsked(handler, m) && after.trace == m.trace + [seen] && after.promises == m.promises
    requires seen.Answered? ==> !seen.answer.Promised?
    ensures AllAsAsked(handler, after)
  {
    assert IsAsAsked(handler, after.trace, after.promises, |m.trace|);
    hide IsAsAsked;
    StillAsAsked(handler, m, after, seen);
  }

  lemma {:induction false} DrainIsTold(a: Decider, m: Machine, fed: nat, turns: nat)
    requires IsTold(a, m)
    ensures IsTold(a, a.Drain(m, fed, turns))
    decreases turns
  {
    hide Decider.Turn, IsTold;
    if !(m.hung || a.AtRest(m)) && turns != 0 {
      TurnIsTold(a, m, fed);
      DrainIsTold(a, a.Turn(m, fed), fed, turns - 1);
    } else if !(m.hung || a.AtRest(m)) {
      SameTold(a, m, m.(hung := true));
    }
  }

  lemma SameTold(a: Decider, m: Machine, other: Machine)
    requires IsTold(a, m) && other == m.(queue := other.queue, hung := other.hung)
    ensures IsTold(a, other)
  {
    hide IsAsAsked, SettledAlong, ContinuedAlong;
  }

  lemma {:induction false} FreshIsTold(a: Decider)
    ensures IsTold(a, a.Fresh())
  {
    hide WaitAsked;
  }

  lemma {:induction false} RunIsTold(a: Decider, count: nat)
    requires count <= |a.history|
    ensures IsTold(a, a.RunTo(count))
  {
    hide Decider.Drain, Releases, IsTold;
    FreshIsTold(a);
    if count == 0 {
      DrainIsTold(a, a.Fresh(), 0, a.settings.maxTurns);
    } else {
      RunIsTold(a, count - 1);
      var m := a.RunTo(count - 1);
      var delivered := m.(queue := m.queue + Releases(a.history, m.promises, count - 1));
      SameTold(a, m, delivered);
      DrainIsTold(a, delivered, count, a.settings.maxTurns);
    }
  }

  // ---- who is answered, and once ---------------------------------------------------------------------

  /** The promises that resumed the handler along a trace, and those about to. */
  function ResumedIn(trace: seq<Observation>): seq<nat> {
    if trace == [] then []
    else
      var last := trace[|trace| - 1];
      ResumedIn(trace[..|trace| - 1]) + if last.Resumed? then [last.promise] else []
  }

  function PromisesOf(queue: seq<Ready>): (promises: seq<nat>)
    ensures |promises| == |queue| && forall i :: 0 <= i < |queue| ==> promises[i] == queue[i].promise
  {
    seq(|queue|, i requires 0 <= i < |queue| => queue[i].promise)
  }

  function Line(m: Machine): seq<nat> {
    ResumedIn(m.trace) + PromisesOf(m.queue)
  }

  predicate AreApart(line: seq<nat>) {
    forall i, j :: 0 <= i < j < |line| ==> line[i] != line[j]
  }

  predicate IsBadSleepAt(handler: Handler, trace: seq<Observation>, promise: nat) {
    exists k :: 0 <= k < |trace| && trace[k] == Answered(Promised(promise)) &&
                handler.next(trace[..k]).Do? && IsBadSleep(handler.next(trace[..k]).call)
  }

  predicate IsPassed(handler: Handler, m: Machine, count: nat, promise: nat) {
    promise < |m.promises| &&
    if m.promises[promise].due.Some? then m.promises[promise].due.value.index < count else IsBadSleepAt(handler, m.trace, promise)
  }

  ghost predicate IsLine(handler: Handler, m: Machine, count: nat) {
    AreApart(Line(m)) && forall p :: p in Line(m) ==> IsPassed(handler, m, count, p)
  }

  /** A promise is in line, once, when its event was delivered, or when it is of a sleep of no duration. */
  ghost predicate IsInLine(handler: Handler, m: Machine, count: nat) {
    IsLine(handler, m, count) &&
    forall p :: 0 <= p < |m.promises| && m.promises[p].due.Some? && m.promises[p].due.value.index < count ==> p in Line(m)
  }

  lemma {:induction false} ResumedSnoc(trace: seq<Observation>, seen: Observation)
    ensures ResumedIn(trace + [seen]) == ResumedIn(trace) + if seen.Resumed? then [seen.promise] else []
  {
    assert (trace + [seen])[..|trace + [seen]| - 1] == trace;
  }

  lemma {:induction false} BadSleepStays(handler: Handler, trace: seq<Observation>, longer: seq<Observation>, promise: nat)
    requires trace <= longer && IsBadSleepAt(handler, trace, promise)
    ensures IsBadSleepAt(handler, longer, promise)
  {
    var k :| 0 <= k < |trace| && trace[k] == Answered(Promised(promise)) &&
             handler.next(trace[..k]).Do? && IsBadSleep(handler.next(trace[..k]).call);
    assert longer[..k] == trace[..k] && longer[k] == trace[k];
  }

  lemma {:induction false} PassedStays(handler: Handler, m: Machine, after: Machine, count: nat)
    requires m.promises <= after.promises && m.trace <= after.trace
    ensures forall p: nat :: IsPassed(handler, m, count, p) ==> IsPassed(handler, after, count, p)
  {
    forall p: nat | IsPassed(handler, m, count, p)
      ensures IsPassed(handler, after, count, p)
    {
      if m.promises[p].due.None? {
        BadSleepStays(handler, m.trace, after.trace, p);
      }
    }
  }

  lemma {:induction false} OneMoreInLine(line: seq<nat>, promise: nat)
    requires AreApart(line) && promise !in line
    ensures AreApart(line + [promise]) && forall p :: p in line + [promise] <==> p in line || p == promise
  {
  }

  lemma Regrouped(left: seq<nat>, middle: nat, right: seq<nat>)
    ensures (left + [middle]) + right == left + ([middle] + right)
  {
  }

  lemma {:induction false} ResumingLine(m: Machine, after: Machine)
    requires m.queue != [] && after.queue == m.queue[1..] && after.trace == m.trace + [Resumed(m.queue[0].promise, m.queue[0].outcome)]
    ensures Line(after) == Line(m)
  {
    var first := m.queue[0].promise;
    ResumedSnoc(m.trace, Resumed(first, m.queue[0].outcome));
    Regrouped(ResumedIn(m.trace), first, PromisesOf(m.queue[1..]));
    assert PromisesOf(m.queue) == [first] + PromisesOf(m.queue[1..]);
    hide ResumedIn, PromisesOf;
  }

  /** The next of the line resumes the handler. */
  lemma {:induction false} ResumingKeepsLine(handler: Handler, m: Machine, after: Machine, count: nat)
    requires IsInLine(handler, m, count) && m.queue != [] && after.promises == m.promises
    requires after.queue == m.queue[1..] && after.trace == m.trace + [Resumed(m.queue[0].promise, m.queue[0].outcome)]
    ensures IsInLine(handler, after, count)
  {
    ResumingLine(m, after);
    PassedStays(handler, m, after, count);
    hide Line, IsPassed, AreApart;
  }

  lemma {:induction false} AnsweringLine(m: Machine, after: Machine, answer: Answer, more: seq<Ready>)
    requires after.trace == m.trace + [Answered(answer)] && after.queue == m.queue + more
    ensures Line(after) == Line(m) + PromisesOf(more)
  {
    ResumedSnoc(m.trace, Answered(answer));
    assert PromisesOf(after.queue) == PromisesOf(m.queue) + PromisesOf(more);
    hide ResumedIn;
  }

  /** A call that gives out a promise puts it in line if its event was delivered before, or its sleep has no duration. */
  lemma {:induction false} GivingKeepsLine(a: Decider, m: Machine, after: Machine, answer: Answer, fed: nat)
    requires IsInLine(a.handler, m, fed) && a.handler.next(m.trace).Do? && after.trace == m.trace + [Answered(answer)]
    requires var call := a.handler.next(m.trace).call; GivesOut(a, m, after, answer, WaitNow(m, call), DueNow(a, m, call), IsBadSleep(call), fed)
    requires fed <= |a.history|
    ensures IsInLine(a.handler, after, fed)
  {
    var call := a.handler.next(m.trace).call;
    var due := DueNow(a, m, call);
    var new_ := |m.promises|;
    var more := if !answer.Promised? then [] else if IsBadSleep(call) then [Ready(new_, Rejected(InvalidSleepDuration))] else ReadyNow(a, new_, due, fed);
    assert m.queue + [] == m.queue;
    AnsweringLine(m, after, answer, more);
    PassedStays(a.handler, m, after, fed);
    assert IsBadSleep(call) ==> due.None?;
    if IsBadSleep(call) && answer.Promised? {
      assert after.trace[..|m.trace|] == m.trace && after.trace[|m.trace|] == Answered(Promised(new_));
      assert IsBadSleepAt(a.handler, after.trace, new_);
    }
    hide DueNow, WaitNow, IsBadSleep, IsBadSleepAt, OutcomeOf, Line;
    if more != [] {
      OneMoreInLine(Line(m), new_);
      assert PromisesOf(more) == [new_];
    } else {
      assert PromisesOf(more) == [] && Line(m) + [] == Line(m);
    }
  }

  lemma {:induction false} TurnKeepsLine(a: Decider, m: Machine, fed: nat)
    requires IsInLine(a.handler, m, fed) && !a.AtRest(m) && fed <= |a.history|
    ensures IsInLine(a.handler, a.Turn(m, fed), fed)
  {
    hide Decider.AnswerCall, IsInLine, GivesOut;
    var after := a.Turn(m, fed);
    match a.handler.next(m.trace)
    case Do(call) =>
      CallGivesOut(a, m, call, fed);
      var (called, answer) := a.AnswerCall(m, call, fed);
      SameGiving(a, m, called, after, answer, fed);
      GivingKeepsLine(a, m, after, answer, fed);
    case Settle(_) => SettlingKeepsLine(a.handler, m, after, fed);
    case Idle => ResumingKeepsLine(a.handler, m, after, fed);
  }

  lemma {:induction false} SettlingKeepsLine(handler: Handler, m: Machine, after: Machine, count: nat)
    requires IsInLine(handler, m, count) && after.promises == m.promises && after.queue == m.queue
    requires after.trace == m.trace + [Answered(Acknowledged)]
    ensures IsInLine(handler, after, count)
  {
    assert m.queue + [] == m.queue;
    AnsweringLine(m, after, Acknowledged, []);
    assert PromisesOf([]) == [] && Line(m) + [] == Line(m);
    PassedStays(handler, m, after, count);
    hide Line, IsPassed;
  }

  lemma {:induction false} DrainKeepsLine(a: Decider, m: Machine, fed: nat, turns: nat)
    requires IsInLine(a.handler, m, fed) && fed <= |a.history|
    ensures IsInLine(a.handler, a.Drain(m, fed, turns), fed)
    decreases turns
  {
    hide Decider.Turn, IsInLine;
    if !(m.hung || a.AtRest(m)) && turns != 0 {
      TurnKeepsLine(a, m, fed);
      DrainKeepsLine(a, a.Turn(m, fed), fed, turns - 1);
    } else if !(m.hung || a.AtRest(m)) {
      SameLine(a.handler, m, m.(hung := true), fed);
    }
  }

  lemma SameLine(handler: Handler, m: Machine, other: Machine, count: nat)
    requires IsInLine(handler, m, count) && other.queue == m.queue && other.trace == m.trace && other.promises == m.promises
    ensures IsInLine(handler, other, count)
  {
    hide IsBadSleepAt;
  }

  lemma {:induction false} ReleasesAll(history: seq<Event>, promises: seq<Promise>, index: nat)
    requires index < |history|
    ensures var released := PromisesOf(Releases(history, promises, index));
            AreApart(released) && forall p :: p in released <==>
              0 <= p < |promises| && promises[p].due.Some? && promises[p].due.value.index == index
  {
    hide OutcomeOf;
    if promises != [] {
      var last := |promises| - 1;
      var before := Releases(history, promises[..last], index);
      ReleasesAll(history, promises[..last], index);
      var released := PromisesOf(before);
      assert forall p :: p in released ==> p < last;
      if promises[last].due.Some? && promises[last].due.value.index == index {
        assert PromisesOf(Releases(history, promises, index)) == released + [last];
        OneMoreInLine(released, last);
      } else {
        assert PromisesOf(Releases(history, promises, index)) == released;
      }
      hide Releases;
    }
  }

  lemma {:induction false} JoinedLines(left: seq<nat>, right: seq<nat>)
    requires AreApart(left) && AreApart(right) && forall p :: p in left ==> p !in right
    ensures AreApart(left + right) && forall p :: p in left + right <==> p in left || p in right
  {
    var line := left + right;
    forall i, j | 0 <= i < j < |line|
      ensures line[i] != line[j]
    {
      if i < |left| <= j {
        assert line[i] in left && line[j] in right;
      }
    }
  }

  lemma {:induction false} DeliveringKeepsLine(a: Decider, m: Machine, index: nat)
    requires index < |a.history| && IsInLine(a.handler, m, index)
    ensures IsInLine(a.handler, m.(queue := m.queue + Releases(a.history, m.promises, index)), index + 1)
  {
    var released := PromisesOf(Releases(a.history, m.promises, index));
    var after := m.(queue := m.queue + Releases(a.history, m.promises, index));
    ReleasesAll(a.history, m.promises, index);
    assert PromisesOf(after.queue) == PromisesOf(m.queue) + released;
    assert Line(after) == Line(m) + released;
    hide Line, Releases, IsBadSleepAt, ResumedIn;
    forall p | p in Line(m)
      ensures p !in released && IsPassed(a.handler, after, index + 1, p)
    {
      assert IsPassed(a.handler, m, index, p);
    }
    JoinedLines(Line(m), released);
    hide AreApart;
  }

  lemma {:induction false} RunKeepsLine(a: Decider, count: nat)
    requires count <= |a.history|
    ensures IsLine(a.handler, a.RunTo(count), count) && (!a.RunTo(count).hung ==> IsInLine(a.handler, a.RunTo(count), count))
  {
    hide Decider.Drain, Releases, IsInLine, IsLine;
    if count == 0 {
      FreshIsInLine(a);
      DrainKeepsLine(a, a.Fresh(), 0, a.settings.maxTurns);
      InLineIsLine(a.handler, a.RunTo(0), 0, 0);
    } else {
      RunKeepsLine(a, count - 1);
      var m := a.RunTo(count - 1);
      if m.hung {
        LineLater(a.handler, m, count - 1, count);
      } else {
        DeliveringKeepsLine(a, m, count - 1);
        DrainKeepsLine(a, m.(queue := m.queue + Releases(a.history, m.promises, count - 1)), count, a.settings.maxTurns);
        InLineIsLine(a.handler, a.RunTo(count), count, count);
      }
    }
  }

  lemma InLineIsLine(handler: Handler, m: Machine, count: nat, later: nat)
    requires IsInLine(handler, m, count) && count <= later
    ensures IsLine(handler, m, later)
  {
    LineLater(handler, m, count, later);
  }

  lemma LineLater(handler: Handler, m: Machine, count: nat, later: nat)
    requires IsLine(handler, m, count) && count <= later
    ensures IsLine(handler, m, later)
  {
    hide Line, IsBadSleepAt;
  }

  lemma {:induction false} FreshIsInLine(a: Decider)
    ensures IsInLine(a.handler, a.Fresh(), 0)
  {
    ResumedSnoc([], Started(a.input));
    assert [] + [Started(a.input)] == [Started(a.input)];
    assert Line(a.Fresh()) == [];
  }

  // ---- what the handler hears --------------------------------------------------------------------------

  /** The call at `k` gave out a promise, and the event at `i` is the one for it. */
  predicate IsEventAt(handler: Handler, history: seq<Event>, trace: seq<Observation>, k: nat, i: nat)
    requires k < |trace| && i < |history|
  {
    Gives(trace[k]) && IsEventFor(history, i, WaitAsked(handler, trace[..k]))
  }

  /**
   What a select hears: of its branches given out before, the one whose event comes first
   wins, and hears what that event says.
   */
  ghost predicate IsSelected(handler: Handler, history: seq<Event>, count: nat, trace: seq<Observation>, k: nat, branches: seq<nat>,
      outcome: Outcome)
    requires count <= |history| && k < |trace|
  {
    exists b, j, i {:trigger branches[b], trace[j], history[i]} ::
      0 <= b < |branches| && 0 <= j < k && 0 <= i < count &&
      IsWinner(handler, history, trace, k, branches, b, j, i) &&
      exists own :: Says(history[i], WaitAsked(handler, trace[..j]), own) &&
                    outcome == if own.Fulfilled? then Selected(b, own.value) else own
  }

  ghost predicate IsWinner(handler: Handler, history: seq<Event>, trace: seq<Observation>, k: nat, branches: seq<nat>, b: nat, j: nat, i: nat)
    requires k < |trace| && b < |branches| && j < k && i < |history|
  {
    trace[j] == Answered(Promised(branches[b])) && IsEventAt(handler, history, trace, j, i) &&
    forall c, j', i' {:trigger branches[c], trace[j'], history[i']} ::
      0 <= c < |branches| && 0 <= j' < k && 0 <= i' < |history| &&
      trace[j'] == Answered(Promised(branches[c])) && IsEventAt(handler, history, trace, j', i') ==>
      i < i' || (i == i' && b <= c)
  }

  /** The outcome that answers the call at `k`. */
  ghost predicate IsHeard(handler: Handler, history: seq<Event>, count: nat, trace: seq<Observation>, k: nat, outcome: Outcome)
    requires count <= |history| && k < |trace|
  {
    handler.next(trace[..k]).Do? &&
    var call := handler.next(trace[..k]).call;
    if call.Select? then IsSelected(handler, history, count, trace, k, call.branches, outcome)
    else if IsBadSleep(call) then outcome == Rejected(InvalidSleepDuration)
    else IsAnswer(history, count, WaitAsked(handler, trace[..k]), outcome)
  }

  /** The handler is resumed at `l` with the promise it got at `k`. */
  predicate Answers(trace: seq<Observation>, k: nat, l: nat)
    requires k < |trace| && l < |trace|
  {
    Gives(trace[k]) && trace[l].Resumed? && trace[l].promise == trace[k].answer.promise
  }

  /** Whatever resumes the handler answers one of its calls, as the first `count` events say, and no call twice. */
  ghost predicate HearsRightly(handler: Handler, history: seq<Event>, count: nat, trace: seq<Observation>)
    requires count <= |history|
  {
    (forall l :: 0 <= l < |trace| && trace[l].Resumed? ==> GivenOut(trace, trace[l].promise)) &&
    (forall k, l :: 0 <= k < |trace| && 0 <= l < |trace| && Answers(trace, k, l) ==>
      IsHeard(handler, history, count, trace, k, trace[l].outcome)) &&
    forall k, l, l' :: 0 <= k < |trace| && 0 <= l < |trace| && 0 <= l' < |trace| && Answers(trace, k, l) && Answers(trace, k, l') ==> l == l'
  }

  lemma {:induction false} ResumedIsIn(trace: seq<Observation>, l: nat)
    requires l < |trace| && trace[l].Resumed?
    ensures trace[l].promise in ResumedIn(trace)
  {
    var last := |trace| - 1;
    if l == last {
      assert ResumedIn(trace)[|ResumedIn(trace[..last])|] == trace[l].promise;
    } else {
      ResumedIsIn(trace[..last], l);
    }
  }

  lemma {:induction false} InResumed(trace: seq<Observation>, promise: nat) returns (l: nat)
    requires promise in ResumedIn(trace)
    ensures l < |trace| && trace[l].Resumed? && trace[l].promise == promise
  {
    var last := |trace| - 1;
    if trace[last].Resumed? && trace[last].promise == promise {
      l := last;
    } else {
      l := InResumed(trace[..last], promise);
    }
  }

  lemma {:induction false} LastIsNew(trace: seq<Observation>, l: nat)
    requires AreApart(ResumedIn(trace)) && l < |trace| - 1 && trace[l].Resumed? && trace[|trace| - 1].Resumed?
    ensures trace[l].promise != trace[|trace| - 1].promise
  {
    var before := trace[..|trace| - 1];
    ResumedIsIn(before, l);
    var i :| 0 <= i < |ResumedIn(before)| && ResumedIn(before)[i] == trace[l].promise;
    assert ResumedIn(trace)[i] == trace[l].promise && ResumedIn(trace)[|ResumedIn(before)|] == trace[|trace| - 1].promise;
  }

  lemma {:induction false} ResumedOnce(trace: seq<Observation>, l: nat, l': nat)
    requires AreApart(ResumedIn(trace)) && l < |trace| && l' < |trace| && trace[l].Resumed? && trace[l'].Resumed?
    requires trace[l].promise == trace[l'].promise
    ensures l == l'
  {
    var last := |trace| - 1;
    var before := trace[..last];
    if l == last && l' < last {
      LastIsNew(trace, l');
    } else if l' == last && l < last {
      LastIsNew(trace, l);
    } else if l < last && l' < last {
      assert forall i :: 0 <= i < |ResumedIn(before)| ==> ResumedIn(trace)[i] == ResumedIn(before)[i];
      ResumedOnce(before, l, l');
    }
  }

  /** The call that gave out a promise, if it is of no select, and the event the promise is due at. */
  lemma {:induction false} DueIsItsEvent(a: Decider, count: nat, promise: nat) returns (k: nat)
    requires count <= |a.history| && promise < |a.RunTo(count).promises|
    ensures var m := a.RunTo(count);
            k < |m.trace| && m.trace[k] == Answered(Promised(promise)) && a.handler.next(m.trace[..k]).Do? &&
            m.promises[promise].wait == WaitAsked(a.handler, m.trace[..k]) &&
            (!m.promises[promise].wait.OnSelect? && m.promises[promise].due.Some? ==>
               var due := m.promises[promise].due.value;
               due.index < |a.history| && due == Due(due.index, m.promises[promise].wait, None) &&
               IsEventFor(a.history, due.index, due.wait) && Says(a.history[due.index], due.wait, OutcomeOf(a.history, due)))
  {
    var m := a.RunTo(count);
    RunIsTold(a, count);
    DuesFoundRun(a, count);
    hide Decider.RunTo, AreCounted, SignalsCounted, SettledAlong, ContinuedAlong;
    assert GivenOut(m.trace, promise);
    k :| 0 <= k < |m.trace| && m.trace[k] == Answered(Promised(promise));
    assert IsAsAsked(a.handler, m.trace, m.promises, k);
    if !m.promises[promise].wait.OnSelect? && m.promises[promise].due.Some? {
      assert m.promises[promise].due == a.DueOf(m.promises[promise].wait);
      FirstIsForIt(a.history, m.promises[promise].due.value.index, m.promises[promise].wait);
    }
    hide IsAsAsked, WaitAsked, IsEventFor, Says, Settled, FindFrom;
  }

  lemma {:induction false} OneGiving(handler: Handler, m: Machine, j: nat, k: nat)
    requires AllAsAsked(handler, m) && j < |m.trace| && k < |m.trace| && Gives(m.trace[j]) && Gives(m.trace[k])
    ensures m.trace[j].answer.promise == m.trace[k].answer.promise ==> j == k
    ensures m.trace[j].answer.promise < m.trace[k].answer.promise ==> j < k
  {
    hide IsAsAsked, GivenOut;
  }

  predicate SettlesFirst(promises: seq<Promise>, branches: seq<nat>, b: nat, c: nat)
    requires b < |branches| && c < |branches| && Placed(promises, branches[b]) && Placed(promises, branches[c])
  {
    var first, other := promises[branches[b]].due.value.index, promises[branches[c]].due.value.index;
    first < other || (first == other && b <= c)
  }

  /** The winner of a select, as `Winner` has it, is the first of its branches, and the earlier of two on a tie. */
  lemma {:induction false} WinnerIsFirst(promises: seq<Promise>, branches: seq<nat>)
    ensures var winner := Winner(promises, branches);
            winner.Some? ==>
              Placed(promises, branches[winner.value]) &&
              forall c :: 0 <= c < |branches| && Placed(promises, branches[c]) ==> SettlesFirst(promises, branches, winner.value, c)
    ensures Winner(promises, branches).None? ==> forall c :: 0 <= c < |branches| ==> !Placed(promises, branches[c])
  {
    if branches != [] {
      var last := |branches| - 1;
      WinnerIsFirst(promises, branches[..last]);
      assert forall c :: 0 <= c < last ==> branches[..last][c] == branches[c];
    }
  }

  lemma NoWaitForBadSleep(handler: Handler, before: seq<Observation>)
    ensures handler.next(before).Do? && IsBadSleep(handler.next(before).call) ==> WaitAsked(handler, before).OnNothing?
    ensures handler.next(before).Do? && handler.next(before).call.Select? <==> WaitAsked(handler, before).OnSelect?
  {
  }

  lemma {:induction false} RejectsItsOwn(a: Decider, count: nat, k: nat, l: nat)
    requires count <= |a.history|
    requires var m := a.RunTo(count);
             k < |m.trace| && l < |m.trace| && Answers(m.trace, k, l) && m.trace[l].promise < |m.promises| &&
             m.promises[m.trace[l].promise].due.None?
    ensures var trace := a.RunTo(count).trace; a.handler.next(trace[..k]).Do? && IsBadSleep(a.handler.next(trace[..k]).call)
  {
    var m := a.RunTo(count);
    var p := m.trace[l].promise;
    RunIsTold(a, count);
    RunKeepsLine(a, count);
    hide Decider.RunTo, AreCounted, SignalsCounted, SettledAlong, ContinuedAlong;
    ResumedIsIn(m.trace, l);
    assert p in Line(m) && IsPassed(a.handler, m, count, p);
    var own :| 0 <= own < |m.trace| && m.trace[own] == Answered(Promised(p)) &&
               a.handler.next(m.trace[..own]).Do? && IsBadSleep(a.handler.next(m.trace[..own]).call);
    OneGiving(a.handler, m, own, k);
  }

  /** What resumes the handler with the promise of a call that is no select. */
  lemma {:induction false} PlainIsHeard(a: Decider, count: nat, k: nat, l: nat)
    requires count <= |a.history|
    requires var trace := a.RunTo(count).trace;
             k < |trace| && l < |trace| && Answers(trace, k, l) && !WaitAsked(a.handler, trace[..k]).OnSelect?
    ensures IsHeard(a.handler, a.history, count, a.RunTo(count).trace, k, a.RunTo(count).trace[l].outcome)
  {
    var m := a.RunTo(count);
    var p := m.trace[l].promise;
    RunIsRightly(a, count);
    RunIsTold(a, count);
    assert IsRightly(a.history, count, m.promises, p, m.trace[l].outcome);
    var own := DueIsItsEvent(a, count, p);
    OneGiving(a.handler, m, own, k);
    NoWaitForBadSleep(a.handler, m.trace[..k]);
    if m.promises[p].due.None? {
      RejectsItsOwn(a, count, k, l);
    }
    hide AllAsAsked, AreCounted, SignalsCounted, SettledAlong, ContinuedAlong, Decider.RunTo, WaitAsked, IsEventFor, Says, OutcomeOf,
         AllRightly, IsBadSleep;
  }

  /** A branch given out before, with its event, has its place in the history. */
  lemma {:induction false} PlacedAtItsEvent(a: Decider, count: nat, j: nat, i: nat)
    requires count <= |a.history| && j < |a.RunTo(count).trace| && i < |a.history| && IsEventAt(a.handler, a.history, a.RunTo(count).trace, j, i)
    ensures var m := a.RunTo(count);
            var q := m.trace[j].answer.promise;
            Placed(m.promises, q) && m.promises[q].due.value.index == i
  {
    var m := a.RunTo(count);
    var q := m.trace[j].answer.promise;
    RunIsTold(a, count);
    DuesFoundRun(a, count);
    assert IsAsAsked(a.handler, m.trace, m.promises, j);
    ForItIsFound(a.history, i, WaitAsked(a.handler, m.trace[..j]));
    hide Decider.RunTo, AreCounted, SignalsCounted, SettledAlong, ContinuedAlong, AllAsAsked, WaitAsked, Find, SelectDue;
  }

  lemma {:induction false} WinsSelect(a: Decider, count: nat, k: nat, p: nat, branches: seq<nat>, b: nat, j: nat)
    requires count <= |a.history| && k < |a.RunTo(count).trace| && b < |branches| && j < k
    requires var m := a.RunTo(count);
             m.trace[k] == Answered(Promised(p)) && p <= |m.promises| && Winner(m.promises[..p], branches) == Some(b) &&
             Placed(m.promises[..p], branches[b]) && m.promises[branches[b]].due.value.index < |a.history| &&
             m.trace[j] == Answered(Promised(branches[b])) &&
             IsEventAt(a.handler, a.history, m.trace, j, m.promises[branches[b]].due.value.index)
    ensures IsWinner(a.handler, a.history, a.RunTo(count).trace, k, branches, b, j, a.RunTo(count).promises[branches[b]].due.value.index)
  {
    var m := a.RunTo(count);
    RunIsTold(a, count);
    WinnerIsFirst(m.promises[..p], branches);
    hide Decider.RunTo, AreCounted, SignalsCounted, SettledAlong, ContinuedAlong, IsEventAt, Winner;
    var i := m.promises[branches[b]].due.value.index;
    forall c, j', i' | 0 <= c < |branches| && 0 <= j' < k && 0 <= i' < |a.history| &&
                       m.trace[j'] == Answered(Promised(branches[c])) && IsEventAt(a.handler, a.history, m.trace, j', i')
      ensures i < i' || (i == i' && b <= c)
    {
      PlacedAtItsEvent(a, count, j', i');
      OneGiving(a.handler, m, k, j');
      assert Placed(m.promises[..p], branches[c]);
      assert SettlesFirst(m.promises[..p], branches, b, c);
    }
  }

  /** What resumes the handler with the promise of a select. */
  lemma {:induction false} SelectIsHeard(a: Decider, count: nat, k: nat, l: nat)
    requires count <= |a.history|
    requires var trace := a.RunTo(count).trace;
             k < |trace| && l < |trace| && Answers(trace, k, l) && WaitAsked(a.handler, trace[..k]).OnSelect?
    ensures IsHeard(a.handler, a.history, count, a.RunTo(count).trace, k, a.RunTo(count).trace[l].outcome)
  {
    var m := a.RunTo(count);
    var p := m.trace[l].promise;
    RunIsRightly(a, count);
    RunIsTold(a, count);
    assert IsRightly(a.history, count, m.promises, p, m.trace[l].outcome) && IsAsAsked(a.handler, m.trace, m.promises, k);
    NoWaitForBadSleep(a.handler, m.trace[..k]);
    var branches := a.handler.next(m.trace[..k]).call.branches;
    var earlier := m.promises[..p];
    WinnerIsFirst(earlier, branches);
    var b := Winner(earlier, branches).value;
    var q := branches[b];
    var j := DueIsItsEvent(a, count, q);
    OneGiving(a.handler, m, j, k);
    var i := m.promises[q].due.value.index;
    assert Says(a.history[i], m.promises[q].wait, OutcomeOf(a.history, m.promises[q].due.value));
    WinsSelect(a, count, k, p, branches, b, j);
    hide AllAsAsked, AreCounted, SignalsCounted, SettledAlong, ContinuedAlong, Decider.RunTo, WaitAsked, IsEventFor, Says,
         AllRightly, IsWinner, Winner;
    assert a.history[i] == a.history[i] && m.trace[j] == m.trace[j] && branches[b] == branches[b];
  }

  /**
   In every replay, after any number of events: whatever resumes the handler answers one of
   its calls, with what the first event for that call says, and no call is answered twice.
   */
  lemma {:induction false} RunHears(a: Decider, count: nat)
    requires count <= |a.history|
    ensures HearsRightly(a.handler, a.history, count, a.RunTo(count).trace)
  {
    var m := a.RunTo(count);
    RunIsRightly(a, count);
    RunIsTold(a, count);
    RunKeepsLine(a, count);
    ResumedApart(m);
    hide Decider.RunTo, AreCounted, SignalsCounted, SettledAlong, ContinuedAlong, IsHeard, WaitAsked, IsAsAsked, GivenOut, IsDueAnswer, IsLine;
    forall l | 0 <= l < |m.trace| && m.trace[l].Resumed?
      ensures GivenOut(m.trace, m.trace[l].promise)
    {
      assert IsRightly(a.history, count, m.promises, m.trace[l].promise, m.trace[l].outcome);
    }
    forall k, l | 0 <= k < |m.trace| && 0 <= l < |m.trace| && Answers(m.trace, k, l)
      ensures IsHeard(a.handler, a.history, count, m.trace, k, m.trace[l].outcome)
    {
      if WaitAsked(a.handler, m.trace[..k]).OnSelect? {
        SelectIsHeard(a, count, k, l);
      } else {
        PlainIsHeard(a, count, k, l);
      }
    }
    forall k, l, l' | 0 <= k < |m.trace| && 0 <= l < |m.trace| && 0 <= l' < |m.trace| && Answers(m.trace, k, l) && Answers(m.trace, k, l')
      ensures l == l'
    {
      ResumedOnce(m.trace, l, l');
    }
  }

  lemma ResumedApart(m: Machine)
    requires AreApart(Line(m))
    ensures AreApart(ResumedIn(m.trace))
  {
    hide ResumedIn;
    assert forall i :: 0 <= i < |ResumedIn(m.trace)| ==> Line(m)[i] == ResumedIn(m.trace)[i];
  }

  /** Of a step's call: the first event that completes or fails that step decides what it hears. */
  lemma {:induction false} StepHears(a: Decider, count: nat, k: nat, l: nat)
    requires count <= |a.history|
    requires var trace := a.RunTo(count).trace;
             k < |trace| && l < |trace| && Answers(trace, k, l) && a.handler.next(trace[..k]).Do? && a.handler.next(trace[..k]).call.Step?
    ensures var trace := a.RunTo(count).trace;
            var call, outcome, id := a.handler.next(trace[..k]).call, trace[l].outcome, CallsOf(a.handler, trace[..k], Steps) + 1;
            exists i :: 0 <= i < count && EndsStep(a.history[i], id) && (forall j :: 0 <= j < i ==> !EndsStep(a.history[j], id)) &&
              match a.history[i]
              case StepCompleted(_, value) => outcome == Fulfilled(value)
              case StepFailed(_, error, exhausted) =>
                outcome == Rejected(if exhausted then StepExhausted(id, call.stepType, error) else Recorded(error))
              case _ => false
  {
    var trace := a.RunTo(count).trace;
    RunHears(a, count);
    hide Decider.RunTo, CallsOf, HearsRightly, IsHeard;
    assert IsHeard(a.handler, a.history, count, trace, k, trace[l].outcome) by { HeardAt(a.handler, a.history, count, trace, k, l); }
    var wait := WaitAsked(a.handler, trace[..k]);
    assert IsAnswer(a.history, count, wait, trace[l].outcome) by { PlainAnswer(a.handler, a.history, count, trace, k, trace[l].outcome); }
    var i :| 0 <= i < count && IsEventFor(a.history, i, wait) && Says(a.history[i], wait, trace[l].outcome);
  }

  lemma HeardAt(handler: Handler, history: seq<Event>, count: nat, trace: seq<Observation>, k: nat, l: nat)
    requires count <= |history| && HearsRightly(handler, history, count, trace) && k < |trace| && l < |trace| && Answers(trace, k, l)
    ensures IsHeard(handler, history, count, trace, k, trace[l].outcome)
  {
    hide IsHeard;
  }

  lemma PlainAnswer(handler: Handler, history: seq<Event>, count: nat, trace: seq<Observation>, k: nat, outcome: Outcome)
    requires count <= |history| && k < |trace| && IsHeard(handler, history, count, trace, k, outcome)
    requires handler.next(trace[..k]).Do? && !handler.next(trace[..k]).call.Select? && !IsBadSleep(handler.next(trace[..k]).call)
    ensures IsAnswer(history, count, WaitAsked(handler, trace[..k]), outcome)
  {
    hide IsAnswer, WaitAsked;
  }

  ghost predicate IsAnswered(trace: seq<Observation>, k: nat)
    requires k < |trace|
  {
    exists l :: 0 <= l < |trace| && Answers(trace, k, l)
  }

  /** Some branch's event is among the first `count`. */
  ghost predicate IsDecided(handler: Handler, history: seq<Event>, count: nat, trace: seq<Observation>, k: nat, branches: seq<nat>)
    requires count <= |history| && k < |trace|
  {
    exists b, j, i {:trigger IsEventAt(handler, history, trace, j, i), branches[b]} ::
      0 <= b < |branches| && 0 <= j < k && 0 <= i < count &&
      trace[j] == Answered(Promised(branches[b])) && IsEventAt(handler, history, trace, j, i)
  }

  /** A replay that has come to rest has answered a call exactly when the event for it was delivered. */
  lemma {:induction false} AnsweredExactlyWhenDelivered(a: Decider, count: nat, k: nat)
    requires count <= |a.history| && !a.RunTo(count).hung
    requires var trace := a.RunTo(count).trace;
             k < |trace| && Gives(trace[k]) && a.handler.next(trace[..k]).Do? && !IsBadSleep(a.handler.next(trace[..k]).call)
    ensures var trace := a.RunTo(count).trace;
            IsAnswered(trace, k) <==>
            if a.handler.next(trace[..k]).call.Select?
            then IsDecided(a.handler, a.history, count, trace, k, a.handler.next(trace[..k]).call.branches)
            else exists i :: 0 <= i < count && IsEventAt(a.handler, a.history, trace, k, i)
  {
    var m := a.RunTo(count);
    var call := a.handler.next(m.trace[..k]).call;
    RunHears(a, count);
    if exists l :: 0 <= l < |m.trace| && Answers(m.trace, k, l) {
      var l :| 0 <= l < |m.trace| && Answers(m.trace, k, l);
      HeardAt(a.handler, a.history, count, m.trace, k, l);
      HeardIsDelivered(a.handler, a.history, count, m.trace, k, m.trace[l].outcome);
    }
    hide Decider.RunTo, HearsRightly, IsHeard, WaitAsked, IsBadSleep;
    if call.Select? {
      if IsDecided(a.handler, a.history, count, m.trace, k, call.branches) {
        DecidedIsAnswered(a, count, k);
      }
    } else if i :| 0 <= i < count && IsEventAt(a.handler, a.history, m.trace, k, i) {
      PlacedAtItsEvent(a, count, k, i);
      PassedIsAnswered(a, count, k);
    }
    hide IsEventAt, Answers, IsDecided;
  }

  lemma WinnerIsAt(handler: Handler, history: seq<Event>, trace: seq<Observation>, k: nat, branches: seq<nat>, b: nat, j: nat, i: nat)
    requires k < |trace| && b < |branches| && j < k && i < |history| && IsWinner(handler, history, trace, k, branches, b, j, i)
    ensures trace[j] == Answered(Promised(branches[b])) && IsEventAt(handler, history, trace, j, i)
  {
    hide IsEventAt;
  }

  lemma {:induction false} HeardIsDelivered(handler: Handler, history: seq<Event>, count: nat, trace: seq<Observation>, k: nat, outcome: Outcome)
    requires count <= |history| && k < |trace| && Gives(trace[k]) && IsHeard(handler, history, count, trace, k, outcome)
    requires handler.next(trace[..k]).Do? && !IsBadSleep(handler.next(trace[..k]).call)
    ensures var call := handler.next(trace[..k]).call;
            if call.Select? then IsDecided(handler, history, count, trace, k, call.branches)
            else exists i :: 0 <= i < count && IsEventAt(handler, history, trace, k, i)
  {
    hide WaitAsked, IsEventFor, Says, IsBadSleep;
    var call := handler.next(trace[..k]).call;
    if !call.Select? {
      var i :| 0 <= i < count && IsEventFor(history, i, WaitAsked(handler, trace[..k]));
      assert IsEventAt(handler, history, trace, k, i);
    } else {
      var b, j, i :| 0 <= b < |call.branches| && 0 <= j < k && 0 <= i < count && IsWinner(handler, history, trace, k, call.branches, b, j, i);
      WinnerIsAt(handler, history, trace, k, call.branches, b, j, i);
    }
  }

  /** A promise whose due was delivered has resumed the handler. */
  lemma {:induction false} PassedIsAnswered(a: Decider, count: nat, k: nat)
    requires count <= |a.history| && !a.RunTo(count).hung && k < |a.RunTo(count).trace| && Gives(a.RunTo(count).trace[k])
    requires var m := a.RunTo(count);
             var p := m.trace[k].answer.promise;
             p < |m.promises| && m.promises[p].due.Some? && m.promises[p].due.value.index < count
    ensures IsAnswered(a.RunTo(count).trace, k)
  {
    var m := a.RunTo(count);
    RunKeepsLine(a, count);
    RunStops(a, count);
    hide Decider.RunTo, IsLine;
    var p := m.trace[k].answer.promise;
    assert m.queue == [] && p in Line(m);
    assert PromisesOf(m.queue) == [] && ResumedIn(m.trace) + [] == ResumedIn(m.trace);
    var l := InResumed(m.trace, p);
    assert Answers(m.trace, k, l);
  }

  lemma {:induction false} DecidedIsAnswered(a: Decider, count: nat, k: nat)
    requires count <= |a.history| && !a.RunTo(count).hung && k < |a.RunTo(count).trace| && Gives(a.RunTo(count).trace[k])
    requires var trace := a.RunTo(count).trace;
             a.handler.next(trace[..k]).Do? && a.handler.next(trace[..k]).call.Select? &&
             IsDecided(a.handler, a.history, count, trace, k, a.handler.next(trace[..k]).call.branches)
    ensures IsAnswered(a.RunTo(count).trace, k)
  {
    var m := a.RunTo(count);
    var p := m.trace[k].answer.promise;
    var branches := a.handler.next(m.trace[..k]).call.branches;
    RunIsTold(a, count);
    assert IsAsAsked(a.handler, m.trace, m.promises, k);
    WinnerIsFirst(m.promises[..p], branches);
    hide Decider.RunTo, AreCounted, SignalsCounted, SettledAlong, ContinuedAlong, IsEventAt, Winner, WaitAsked;
    var b, j, i :| 0 <= b < |branches| && 0 <= j < k && 0 <= i < count &&
      m.trace[j] == Answered(Promised(branches[b])) && IsEventAt(a.handler, a.history, m.trace, j, i);
    PlacedAtItsEvent(a, count, j, i);
    OneGiving(a.handler, m, k, j);
    assert Placed(m.promises[..p], branches[b]);
    assert SettlesFirst(m.promises[..p], branches, Winner(m.promises[..p], branches).value, b);
    PassedIsAnswered(a, count, k);
  }

  // ---- what the decision says ------------------------------------------------------------------------

  /** The settlement along a trace is the first the handler made. */
  lemma {:induction false} SettledFirst(handler: Handler, trace: seq<Observation>)
    ensures SettledAlong(handler, trace).None? ==> forall k :: 1 <= k < |trace| ==> !handler.next(trace[..k]).Settle?
    ensures SettledAlong(handler, trace).Some? ==>
      exists k :: 1 <= k < |trace| && handler.next(trace[..k]) == Settle(SettledAlong(handler, trace).value) &&
                  forall j :: 1 <= j < k ==> !handler.next(trace[..j]).Settle?
  {
    if |trace| > 1 {
      var last := |trace| - 1;
      var before := trace[..last];
      SettledFirst(handler, before);
      assert forall j :: 1 <= j < last ==> before[..j] == trace[..j];
      if SettledAlong(handler, before).Some? {
        var k :| 1 <= k < last && handler.next(before[..k]) == Settle(SettledAlong(handler, before).value) &&
                 forall j :: 1 <= j < k ==> !handler.next(before[..j]).Settle?;
        assert trace[..k] == before[..k];
      } else if handler.next(before).Settle? {
        assert trace[..last] == before;
      }
    }
  }

  lemma FailureIsRecorded(settled: Option<Settlement>)
    ensures settled.Some? && settled.value.Failed? ==> IsRecordOf(ToRecordedError(settled.value.error), settled.value.error)
  {
  }

  /** The error on record for what a handler fails with: a recorded one as it was, an exhausted step's by its last message. */
  predicate IsRecordOf(recorded: RecordedError, error: WorkflowError) {
    match error
    case Recorded(original) => recorded == original
    case StepExhausted(_, _, cause) => recorded.name == "StepFailedError" && recorded.message == cause.message
    case InvalidSleepDuration => recorded.name == "InvalidSleepDurationError"
    case ChildLimitExceeded(_) => recorded.name == "ChildLimitExceededError"
    case NonDeterminism(_, _) => recorded.name == "NonDeterminismError"
    case Other(name, message) => recorded.name == name && recorded.message == message
  }

  /**
   A decision says what the handler did: it continues as new with the first input asked for,
   or else completes or fails with what the handler settled with first, and its last command
   records just that; a handler that did neither suspends.
   */
  lemma {:induction false} DecidesAsSettled(a: Decider)
    requires a.Decide().Decided?
    ensures var trace, decision := a.Run().trace, a.Decide().decision;
            match ContinuedAlong(a.handler, trace)
            case Some(input) => decision == ContinuedAsNew(input, [ContinueAsNew(input)])
            case None =>
              match SettledAlong(a.handler, trace)
              case None => decision == Suspended(a.Run().commands)
              case Some(Completed(value)) => decision == CompletedRun(value, a.Run().commands + [CompleteRun(value)])
              case Some(Failed(error)) =>
                exists recorded :: decision == FailedRun(error, a.Run().commands + [FailRun(recorded)]) && IsRecordOf(recorded, error)
  {
    hide IsRecordOf;
    FailureIsRecorded(a.Run().settled);
    RunIsTold(a, |a.history|);
    hide Decider.RunTo, AreCounted, SignalsCounted, AllAsAsked, SettledAlong, ContinuedAlong, Shapes, PatchIds;
  }
}
