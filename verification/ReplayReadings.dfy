/**
 What a replayed handler is answered at once (packages/core/src/workflow/decision-loop.ts):
 times, draws and patch flags, in terms of the history's events and the handler's own calls.
 */
module ReplayReadings {
  import opened WorkflowTypes
  import opened CommandMatching
  import opened Replay
  import opened ReplayAnswers

  // ---- what the history holds --------------------------------------------------------------

  function TimesBefore(history: seq<Event>, i: nat): set<nat>
    requires i <= |history|
  {
    set j | 0 <= j < i && history[j].TimeRecorded?
  }

  /** The commands whose order a history fixes. */
  function OrderedIn(history: seq<Event>, count: nat): set<nat>
    requires count <= |history|
  {
    set j | 0 <= j < count && (history[j].StepScheduled? || history[j].TimerStarted? || history[j].ChildStarted?)
  }

  predicate RecordsPatch(history: seq<Event>, patchId: string) {
    exists j :: 0 <= j < |history| && history[j].PatchRecorded? && history[j].patchId == patchId
  }

  /** The event at `i` is the history's nth recorded time. */
  predicate IsNthTime(history: seq<Event>, i: nat, n: nat) {
    i < |history| && history[i].TimeRecorded? && |TimesBefore(history, i)| == n
  }

  lemma OneMoreTime(history: seq<Event>, count: nat)
    requires count < |history|
    ensures |TimesBefore(history, count + 1)| == |TimesBefore(history, count)| + if history[count].TimeRecorded? then 1 else 0
  {
    var before, now := TimesBefore(history, count), TimesBefore(history, count + 1);
    assert now == if history[count].TimeRecorded? then before + {count} else before;
  }

  lemma {:induction false} TimesAreEvents(history: seq<Event>, count: nat, i: nat)
    requires count <= |history|
    ensures |Times(history[..count])| == |TimesBefore(history, count)|
    ensures i < count && history[i].TimeRecorded? ==>
      |TimesBefore(history, i)| < |Times(history[..count])| && Times(history[..count])[|TimesBefore(history, i)|] == history[i].time
  {
    if count > 0 {
      TimesAreEvents(history, count - 1, i);
      OneMoreTime(history, count - 1);
      assert history[..count][..count - 1] == history[..count - 1];
      hide TimesBefore;
    }
  }

  lemma OneMoreOrdered(history: seq<Event>, count: nat)
    requires count < |history|
    ensures |OrderedIn(history, count + 1)| == |OrderedIn(history, count)| +
      if history[count].StepScheduled? || history[count].TimerStarted? || history[count].ChildStarted? then 1 else 0
  {
    var before, now := OrderedIn(history, count), OrderedIn(history, count + 1);
    assert now ==
      if history[count].StepScheduled? || history[count].TimerStarted? || history[count].ChildStarted? then before + {count} else before;
  }

  lemma {:induction false} OrderedAreEvents(history: seq<Event>, count: nat)
    requires count <= |history|
    ensures CommandCount(history[..count]) == |OrderedIn(history, count)|
  {
    if count > 0 {
      OrderedAreEvents(history, count - 1);
      OneMoreOrdered(history, count - 1);
      assert history[..count][..count - 1] == history[..count - 1];
      hide OrderedIn;
    }
  }

  lemma PatchesAreEvents(history: seq<Event>, patchId: string)
    ensures patchId in PatchIds(history) <==> RecordsPatch(history, patchId)
  {
    if patchId in PatchIds(history) {
      var event :| event in history && event.PatchRecorded? && event.patchId == patchId;
      var j :| 0 <= j < |history| && history[j] == event;
    }
    if RecordsPatch(history, patchId) {
      var j :| 0 <= j < |history| && history[j].PatchRecorded? && history[j].patchId == patchId;
      assert history[j] in history;
    }
  }

  // ---- what the handler is told --------------------------------------------------------------

  /** How often the handler made a call along a trace. */
  function Asked(handler: Handler, trace: seq<Observation>, call: Call): nat {
    if |trace| <= 1 then 0
    else
      var before := trace[..|trace| - 1];
      Asked(handler, before, call) + if handler.next(before) == Do(call) then 1 else 0
  }

  /** The nth time told is the nth the history recorded; past those it is that of the trigger, or a reading of the clock. */
  ghost predicate IsTimeFor(a: Decider, n: nat, time: int) {
    (forall i: nat :: IsNthTime(a.history, i, n) ==> time == a.history[i].time) &&
    (n >= |TimesBefore(a.history, |a.history|)| ==>
       if a.moment.triggeredAt.Some? then time == a.moment.triggeredAt.value else exists r: nat :: time == a.moment.clock(r))
  }

  predicate IsFlag(handler: Handler, trace: seq<Observation>, k: nat, patchId: string, flag: bool) {
    k < |trace| && handler.next(trace[..k]) == Do(Patched(patchId)) && trace[k] == Answered(Flag(flag))
  }

  /** No call for that patch was answered before. */
  ghost predicate IsUndecided(handler: Handler, trace: seq<Observation>, k: nat, patchId: string) {
    forall j: nat, flag: bool :: j < k ==> !IsFlag(handler, trace, j, patchId, flag)
  }

  /** Patched code is taken when the history recorded the patch, or holds no ordered command past those already made. */
  predicate TakesPatch(a: Decider, before: seq<Observation>, patchId: string) {
    RecordsPatch(a.history, patchId) ||
    CallsOf(a.handler, before, Steps) + CallsOf(a.handler, before, Timers) + CallsOf(a.handler, before, Children) >= |OrderedIn(a.history, |a.history|)|
  }

  /** A patch is decided once: later answers repeat the first. */
  ghost predicate IsPatchAnswer(a: Decider, trace: seq<Observation>, k: nat, patchId: string, answer: Answer)
    requires k < |trace|
  {
    if answer.Flag? then
      (forall j: nat, flag: bool :: j < k && IsFlag(a.handler, trace, j, patchId, flag) ==> answer.flag == flag) &&
      (IsUndecided(a.handler, trace, k, patchId) ==> (answer.flag <==> TakesPatch(a, trace[..k], patchId)))
    else IsRefusal(answer)
  }

  predicate IsRefusal(answer: Answer) {
    answer.Raised? && IsIntegrityError(answer.error)
  }

  /** The answer at `k` is what the history and the handler's calls before it make it. */
  ghost predicate IsTrueAnswer(a: Decider, trace: seq<Observation>, k: nat)
    requires k < |trace|
  {
    trace[k].Answered? && a.handler.next(trace[..k]).Do? ==>
      var before, answer := trace[..k], trace[k].answer;
      match a.handler.next(before).call
      case Now => answer.Instant? && IsTimeFor(a, Asked(a.handler, before, Call.Now), answer.time)
      case Draw => answer == Drawn(a.settings.draw(Asked(a.handler, before, Draw)))
      case Patched(patchId) => IsPatchAnswer(a, trace, k, patchId, answer)
      case ExecuteChild(_, _, _, _, _) =>
        if CallsOf(a.handler, before, Children) >= a.settings.maxChildren then answer == Raised(ChildLimitExceeded(a.settings.maxChildren))
        else answer.Promised? || IsRefusal(answer)
      case OnCancel => answer == Acknowledged
      case _ => answer.Promised? || IsRefusal(answer)
  }

  // ---- what the machine keeps of it ------------------------------------------------------------

  ghost predicate KeepsFlags(a: Decider, m: Machine) {
    (forall k: nat, patchId: string, flag: bool :: IsFlag(a.handler, m.trace, k, patchId, flag) ==>
       patchId in m.journal.patches && m.journal.patches[patchId] == flag) &&
    forall patchId :: patchId in m.journal.patches ==> exists k: nat :: IsFlag(a.handler, m.trace, k, patchId, m.journal.patches[patchId])
  }

  ghost predicate KeepsCount(a: Decider, m: Machine) {
    |m.journal.times| == Asked(a.handler, m.trace, Call.Now) && m.counters.draws == Asked(a.handler, m.trace, Draw)
  }

  ghost predicate TellsTruly(a: Decider, m: Machine) {
    m.trace != [] && AreCounted(a.handler, m) && KeepsCount(a, m) && KeepsFlags(a, m) &&
    forall k :: 0 <= k < |m.trace| ==> IsTrueAnswer(a, m.trace, k)
  }

  // ---- one call ------------------------------------------------------------------------------------

  predicate IsReading(a: Decider, asked: nat, time: int) {
    time == if a.moment.triggeredAt.Some? then a.moment.triggeredAt.value else a.moment.clock(asked)
  }

  /** What a call does to the times told, the draws made and the patches decided, and what it answers. */
  predicate Tells(a: Decider, m: Machine, after: Machine, call: Call, answer: Answer) {
    match call
    case Now =>
      var n := |m.journal.times|;
      answer.Instant? && after.journal.times == m.journal.times + [answer.time] && after.journal.patches == m.journal.patches &&
      if n < |Times(a.history)| then answer.time == Times(a.history)[n] else IsReading(a, m.journal.Asked(), answer.time)
    case Draw =>
      answer == Drawn(a.settings.draw(m.counters.draws)) && after.journal.times == m.journal.times && after.journal.patches == m.journal.patches
    case Patched(patchId) =>
      after.journal.times == m.journal.times &&
      if answer.Flag? then
        after.journal.patches == m.journal.patches[patchId := answer.flag] &&
        (answer.flag <==> if patchId in m.journal.patches then m.journal.patches[patchId]
                          else patchId in PatchIds(a.history) || m.counters.Ordered() >= CommandCount(a.history))
      else IsRefusal(answer) && after.journal.patches == m.journal.patches
    case ExecuteChild(_, _, _, _, _) =>
      after.journal.times == m.journal.times && after.journal.patches == m.journal.patches &&
      if m.counters.children >= a.settings.maxChildren then answer == Raised(ChildLimitExceeded(a.settings.maxChildren))
      else answer.Promised? || IsRefusal(answer)
    case OnCancel => answer == Acknowledged && after.journal.times == m.journal.times && after.journal.patches == m.journal.patches
    case _ =>
      after.journal.times == m.journal.times && after.journal.patches == m.journal.patches && (answer.Promised? || IsRefusal(answer))
  }

  lemma {:induction false} IssueTells(a: Decider, m: Machine, shape: CommandShape, command: Command, unlessDone: bool, wait: Wait, fed: nat)
    ensures var (after, answer) := a.IssueAndWait(m, shape, command, unlessDone, wait, fed);
            after.journal.times == m.journal.times && after.journal.patches == m.journal.patches && (answer.Promised? || IsRefusal(answer))
  {
    var issued := a.IssueNew(m, shape, command, unlessDone, wait);
    AddingGivesOut(a, issued, wait, a.DueOf(wait), fed);
    hide Find, Shapes, SameCommand, Decider.AddPromise, Decider.DueOf, ReadyNow;
  }

  lemma {:induction false} PatchTells(a: Decider, m: Machine, patchId: string)
    ensures var (after, answer) := a.AnswerPatched(m, patchId); Tells(a, m, after, Patched(patchId), answer)
  {
    hide PatchIds, CommandCount, Shapes, SameCommand;
  }

  lemma {:induction false} NowTells(a: Decider, m: Machine)
    ensures var (after, answer) := a.AnswerNow(m); Tells(a, m, after, Call.Now, answer)
  {
    hide Times;
  }

  lemma {:induction false} CallTells(a: Decider, m: Machine, call: Call, fed: nat)
    ensures var (after, answer) := a.AnswerCall(m, call, fed); Tells(a, m, after, call, answer)
  {
    hide Decider.IssueAndWait, Decider.AnswerPatched, Decider.AnswerNow, Decider.DueOf, Find, OutcomeOf, Winner, IsRefusal;
    match call
    case Step(stepType, input) =>
      var id := m.counters.steps + 1;
      IssueTells(a, m.(counters := m.counters.(steps := id)), StepShape(id, stepType, input), ScheduleStep(id, stepType, input), true,
                 OnStep(id, stepType), fed);
    case Sleep(duration) =>
      if !IsBadSleep(call) {
        var id := m.counters.timers + 1;
        IssueTells(a, m.(counters := m.counters.(timers := id)), TimerShape(id, Some(duration.ms)),
                   StartTimer(id, a.moment.clock(m.journal.Asked()) + duration.ms, duration.ms), true, OnTimer(id), fed);
      }
    case ExecuteChild(workflowType, input, policy, runTimeoutMs, executionTimeoutMs) =>
      var id := m.counters.children + 1;
      IssueTells(a, m.(counters := m.counters.(children := id)), ChildShape(id, workflowType, input),
                 StartChild(id, workflowType, input, policy, runTimeoutMs, executionTimeoutMs), false, OnChild(id), fed);
    case Patched(patchId) => PatchTells(a, m, patchId);
    case Now => NowTells(a, m);
    case _ =>
  }

  // ---- along a run -------------------------------------------------------------------------------

  lemma {:induction false} AskedSnoc(handler: Handler, trace: seq<Observation>, seen: Observation, call: Call)
    requires trace != []
    ensures Asked(handler, trace + [seen], call) == Asked(handler, trace, call) + if handler.next(trace) == Do(call) then 1 else 0
  {
    assert (trace + [seen])[..|trace + [seen]| - 1] == trace;
  }

  lemma {:induction false} TimeIsTold(a: Decider, n: nat, asked: nat, time: int)
    requires if n < |Times(a.history)| then time == Times(a.history)[n] else IsReading(a, asked, time)
    ensures IsTimeFor(a, n, time)
  {
    assert a.history[..|a.history|] == a.history;
    TimesAreEvents(a.history, |a.history|, 0);
    forall i: nat | IsNthTime(a.history, i, n)
      ensures time == a.history[i].time
    {
      TimesAreEvents(a.history, |a.history|, i);
    }
    hide TimesBefore, Times;
  }

  lemma {:induction false} FlagStays(handler: Handler, trace: seq<Observation>, longer: seq<Observation>, k: nat, patchId: string, flag: bool)
    requires trace <= longer && k < |trace|
    ensures IsFlag(handler, trace, k, patchId, flag) <==> IsFlag(handler, longer, k, patchId, flag)
  {
    assert longer[..k] == trace[..k];
  }

  /** The answer to a question about a patch, from the patches decided so far. */
  lemma {:induction false} PatchIsAnswered(a: Decider, m: Machine, after: Machine, patchId: string, answer: Answer)
    requires AreCounted(a.handler, m) && KeepsFlags(a, m) && Tells(a, m, after, Patched(patchId), answer)
    requires after.trace == m.trace + [Answered(answer)]
    ensures IsPatchAnswer(a, after.trace, |m.trace|, patchId, answer)
  {
    var k := |m.trace|;
    assert after.trace[..k] == m.trace;
    PatchesAreEvents(a.history, patchId);
    assert a.history[..|a.history|] == a.history;
    OrderedAreEvents(a.history, |a.history|);
    hide CallsOf, PatchIds, CommandCount, OrderedIn, RecordsPatch, IsFlag;
    forall j: nat, flag: bool | j < k
      ensures IsFlag(a.handler, m.trace, j, patchId, flag) <==> IsFlag(a.handler, after.trace, j, patchId, flag)
    {
      FlagStays(a.handler, m.trace, after.trace, j, patchId, flag);
    }
    if patchId in m.journal.patches {
      var j: nat :| IsFlag(a.handler, m.trace, j, patchId, m.journal.patches[patchId]);
      FlagIsThere(a.handler, m.trace, j, patchId, m.journal.patches[patchId]);
    }
  }

  lemma FlagIsThere(handler: Handler, trace: seq<Observation>, k: nat, patchId: string, flag: bool)
    requires IsFlag(handler, trace, k, patchId, flag)
    ensures k < |trace|
  {
  }

  lemma {:induction false} CallIsTrue(a: Decider, m: Machine, after: Machine, call: Call, answer: Answer)
    requires AreCounted(a.handler, m) && KeepsCount(a, m) && KeepsFlags(a, m) && a.handler.next(m.trace) == Do(call)
    requires Tells(a, m, after, call, answer) && after.trace == m.trace + [Answered(answer)]
    ensures IsTrueAnswer(a, after.trace, |m.trace|)
  {
    assert after.trace[..|m.trace|] == m.trace;
    match call
    case Now => TimeIsTold(a, |m.journal.times|, m.journal.Asked(), answer.time);
    case Patched(patchId) => PatchIsAnswered(a, m, after, patchId, answer);
    case _ =>
    hide CallsOf, Asked, IsPatchAnswer, IsTimeFor, KeepsFlags;
  }

  /** The flags after one more observation: those there were, and perhaps one for the patch asked about. */
  lemma {:induction false} FlagsGoOn(a: Decider, m: Machine, after: Machine, seen: Observation)
    requires KeepsFlags(a, m) && after.trace == m.trace + [seen]
    requires a.handler.next(m.trace).Do? && a.handler.next(m.trace).call.Patched? && seen.Answered? && seen.answer.Flag? ==>
      var patchId := a.handler.next(m.trace).call.patchId;
      after.journal.patches == m.journal.patches[patchId := seen.answer.flag] &&
      (patchId in m.journal.patches ==> m.journal.patches[patchId] == seen.answer.flag)
    requires !(a.handler.next(m.trace).Do? && a.handler.next(m.trace).call.Patched? && seen.Answered? && seen.answer.Flag?) ==>
      after.journal.patches == m.journal.patches
    ensures KeepsFlags(a, after)
  {
    var k := |m.trace|;
    assert after.trace[..k] == m.trace;
    forall j: nat, patchId: string, flag: bool | j < k
      ensures IsFlag(a.handler, m.trace, j, patchId, flag) <==> IsFlag(a.handler, after.trace, j, patchId, flag)
    {
      FlagStays(a.handler, m.trace, after.trace, j, patchId, flag);
    }
    forall patchId | patchId in after.journal.patches
      ensures exists j: nat :: IsFlag(a.handler, after.trace, j, patchId, after.journal.patches[patchId])
    {
      if patchId in m.journal.patches {
        var j: nat :| IsFlag(a.handler, m.trace, j, patchId, m.journal.patches[patchId]);
        assert IsFlag(a.handler, after.trace, j, patchId, after.journal.patches[patchId]);
      } else {
        assert IsFlag(a.handler, after.trace, k, patchId, after.journal.patches[patchId]);
      }
    }
  }

  lemma {:induction false} TrueStays(a: Decider, trace: seq<Observation>, longer: seq<Observation>, k: nat)
    requires trace <= longer && k < |trace| && IsTrueAnswer(a, trace, k)
    ensures IsTrueAnswer(a, longer, k)
  {
    assert longer[..k] == trace[..k];
    forall j: nat, patchId: string, flag: bool | j < k
      ensures IsFlag(a.handler, trace, j, patchId, flag) <==> IsFlag(a.handler, longer, j, patchId, flag)
    {
      FlagStays(a.handler, trace, longer, j, patchId, flag);
    }
    hide CallsOf, Asked, IsTimeFor, TakesPatch, IsFlag;
  }

  /** One more observation, and everything told is still true. */
  lemma {:induction false} StillTrue(a: Decider, m: Machine, after: Machine, seen: Observation)
    requires TellsTruly(a, m) && after.trace == m.trace + [seen] && AreCounted(a.handler, after) && KeepsFlags(a, after)
    requires |after.journal.times| == |m.journal.times| + if a.handler.next(m.trace) == Do(Call.Now) then 1 else 0
    requires after.counters.draws == m.counters.draws + if a.handler.next(m.trace) == Do(Draw) then 1 else 0
    requires IsTrueAnswer(a, after.trace, |m.trace|)
    ensures TellsTruly(a, after)
  {
    AskedSnoc(a.handler, m.trace, seen, Call.Now);
    AskedSnoc(a.handler, m.trace, seen, Draw);
    forall k | 0 <= k < |m.trace|
      ensures IsTrueAnswer(a, after.trace, k)
    {
      TrueStays(a, m.trace, after.trace, k);
    }
    hide Asked, AreCounted, KeepsFlags, IsTrueAnswer;
  }

  lemma TurnMakesTheCall(a: Decider, m: Machine, fed: nat)
    requires !a.AtRest(m)
    ensures match a.handler.next(m.trace)
            case Do(call) => a.Turn(m, fed) == a.AnswerCall(m, call, fed).0.(trace := m.trace + [Answered(a.AnswerCall(m, call, fed).1)])
            case _ =>
              var after := a.Turn(m, fed);
              |after.trace| == |m.trace| + 1 && after.trace == m.trace + [after.trace[|m.trace|]] && after.journal == m.journal &&
              after.counters == m.counters
  {
    hide Decider.AnswerCall;
  }

  lemma {:induction false} TurnTells(a: Decider, m: Machine, fed: nat)
    requires IsTold(a, m) && TellsTruly(a, m) && !a.AtRest(m)
    ensures TellsTruly(a, a.Turn(m, fed))
  {
    TurnIsTold(a, m, fed);
    TurnMakesTheCall(a, m, fed);
    hide Decider.Turn, Decider.AtRest, Decider.AnswerCall, TellsTruly, IsTold;
    var after := a.Turn(m, fed);
    ToldIsCounted(a, after);
    if a.handler.next(m.trace).Do? {
      var call := a.handler.next(m.trace).call;
      CallTells(a, m, call, fed);
      CallGivesOut(a, m, call, fed);
      MakingIsTrue(a, m, a.AnswerCall(m, call, fed).0, after, call, a.AnswerCall(m, call, fed).1);
    } else {
      WaitingIsTrue(a, m, after, after.trace[|m.trace|]);
    }
  }

  lemma ToldIsCounted(a: Decider, m: Machine)
    requires IsTold(a, m)
    ensures AreCounted(a.handler, m)
  {
  }

  lemma {:induction false} MakingIsTrue(a: Decider, m: Machine, called: Machine, after: Machine, call: Call, answer: Answer)
    requires TellsTruly(a, m) && a.handler.next(m.trace) == Do(call) && AreCounted(a.handler, after)
    requires Tells(a, m, called, call, answer) && called.counters == CountersNow(m.counters, call)
    requires after == called.(trace := m.trace + [Answered(answer)])
    ensures TellsTruly(a, after)
  {
    hide IsTrueAnswer, KeepsFlags, KeepsCount, AreCounted, Tells, CountersNow;
    SameTelling(a, m, called, after, call, answer);
    CallIsTrue(a, m, after, call, answer);
    TellingCounts(a, m, after, call, answer);
    FlagsGoOn(a, m, after, Answered(answer));
    StillTrue(a, m, after, Answered(answer));
  }

  lemma {:induction false} WaitingIsTrue(a: Decider, m: Machine, after: Machine, seen: Observation)
    requires TellsTruly(a, m) && !a.handler.next(m.trace).Do? && AreCounted(a.handler, after)
    requires after.trace == m.trace + [seen] && after.journal == m.journal && after.counters == m.counters
    ensures TellsTruly(a, after)
  {
    hide IsTrueAnswer, KeepsFlags, KeepsCount, AreCounted;
    FlagsGoOn(a, m, after, seen);
    NoCallIsTrue(a, m.trace, seen);
    StillTrue(a, m, after, seen);
  }

  lemma SameTelling(a: Decider, m: Machine, called: Machine, after: Machine, call: Call, answer: Answer)
    requires Tells(a, m, called, call, answer) && after == called.(trace := after.trace)
    ensures Tells(a, m, after, call, answer)
  {
    hide Times, PatchIds, CommandCount;
  }

  lemma TellingCounts(a: Decider, m: Machine, after: Machine, call: Call, answer: Answer)
    requires Tells(a, m, after, call, answer) && after.counters == CountersNow(m.counters, call)
    ensures |after.journal.times| == |m.journal.times| + if call == Call.Now then 1 else 0
    ensures after.counters.draws == m.counters.draws + if call == Draw then 1 else 0
    ensures call.Patched? && answer.Flag? ==>
      after.journal.patches == m.journal.patches[call.patchId := answer.flag] &&
      (call.patchId in m.journal.patches ==> m.journal.patches[call.patchId] == answer.flag)
    ensures !(call.Patched? && answer.Flag?) ==> after.journal.patches == m.journal.patches
  {
    hide Times, PatchIds, CommandCount;
  }

  lemma NoCallIsTrue(a: Decider, trace: seq<Observation>, seen: Observation)
    requires !a.handler.next(trace).Do?
    ensures IsTrueAnswer(a, trace + [seen], |trace|)
  {
    assert (trace + [seen])[..|trace|] == trace;
  }

  lemma {:induction false} DrainTells(a: Decider, m: Machine, fed: nat, turns: nat)
    requires IsTold(a, m) && TellsTruly(a, m)
    ensures TellsTruly(a, a.Drain(m, fed, turns))
    decreases turns
  {
    hide Decider.Turn, IsTold, TellsTruly;
    if !(m.hung || a.AtRest(m)) && turns != 0 {
      TurnTells(a, m, fed);
      TurnIsTold(a, m, fed);
      DrainTells(a, a.Turn(m, fed), fed, turns - 1);
    } else if !(m.hung || a.AtRest(m)) {
      SameTruth(a, m, m.(hung := true));
    }
  }

  lemma SameTruth(a: Decider, m: Machine, other: Machine)
    requires TellsTruly(a, m) && other == m.(queue := other.queue, hung := other.hung)
    ensures TellsTruly(a, other)
  {
    hide IsTrueAnswer, IsFlag, Asked, CallsOf;
  }

  lemma {:induction false} FreshTells(a: Decider)
    ensures TellsTruly(a, a.Fresh())
  {
    FreshIsTold(a);
    hide CallsOf, IsPatchAnswer, IsTimeFor;
  }

  /**
   Whatever is fed of the history: every time, draw, flag and refusal the handler was answered
   is the one its history and its own earlier calls make it.
   */
  lemma {:induction false} RunTells(a: Decider, count: nat)
    requires count <= |a.history|
    ensures TellsTruly(a, a.RunTo(count))
  {
    hide Decider.Drain, Releases, TellsTruly, IsTold;
    FreshIsTold(a);
    FreshTells(a);
    if count == 0 {
      DrainTells(a, a.Fresh(), 0, a.settings.maxTurns);
    } else {
      RunTells(a, count - 1);
      RunIsTold(a, count - 1);
      var m := a.RunTo(count - 1);
      var delivered := m.(queue := m.queue + Releases(a.history, m.promises, count - 1));
      SameTold(a, m, delivered);
      SameTruth(a, m, delivered);
      DrainTells(a, delivered, count, a.settings.maxTurns);
    }
  }
}
