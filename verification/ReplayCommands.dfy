/**
 What the commands of a decision say (packages/core/src/workflow/decision-loop.ts): in their
 order they are those of calls the handler made, no call twice, each with everything its call
 asked for, the number of its kind, and the reading of the clock it was made by.
 */
module ReplayCommands {
  import opened WorkflowTypes
  import opened Replay
  import opened ReplayAnswers

  /** The command is what the handler asks for after `before`, when `asked` readings and commands have gone before. */
  ghost predicate IsFor(a: Decider, before: seq<Observation>, asked: nat, command: Command) {
    a.handler.next(before).Do? &&
    var call := a.handler.next(before).call;
    match command
    case ScheduleStep(id, stepType, input) => call == Step(stepType, input) && id == CallsOf(a.handler, before, Steps) + 1
    case StartTimer(id, fireAt, durationMs) =>
      durationMs >= 0 && call == Sleep(Finite(durationMs)) && id == CallsOf(a.handler, before, Timers) + 1 &&
      exists r :: 0 <= r <= asked && fireAt == a.moment.clock(r) + durationMs
    case StartChild(id, workflowType, input, policy, runTimeoutMs, executionTimeoutMs) =>
      call == ExecuteChild(workflowType, input, policy, runTimeoutMs, executionTimeoutMs) &&
      id == CallsOf(a.handler, before, Children) + 1 && id <= a.settings.maxChildren
    case RecordPatch(patchId, buildId) => call == Patched(patchId) && buildId == a.settings.buildId
    case RecordTime(time) =>
      call == Now &&
      if a.moment.triggeredAt.Some? then time == a.moment.triggeredAt.value else exists r :: 0 <= r <= asked && time == a.moment.clock(r)
    case _ => false
  }

  /** The commands, in order, are those of the calls at `places` of the trace. */
  ghost predicate AreAskedAt(a: Decider, m: Machine, places: seq<nat>) {
    |places| == |m.commands| && (forall i, j :: 0 <= i < j < |places| ==> places[i] < places[j]) &&
    forall i :: 0 <= i < |places| ==> IsAskedAt(a, m, places[i], m.commands[i])
  }

  ghost predicate IsAskedAt(a: Decider, m: Machine, place: nat, command: Command) {
    place < |m.trace| && m.trace[place].Answered? && IsFor(a, m.trace[..place], m.journal.Asked(), command)
  }

  /** One call finds the command it asks for, or none. */
  ghost predicate Finds(a: Decider, m: Machine, after: Machine) {
    m.journal.Asked() <= after.journal.Asked() &&
    (after.commands == m.commands ||
     (m.commands < after.commands && |after.commands| == |m.commands| + 1 &&
      IsFor(a, m.trace, m.journal.Asked(), after.commands[|m.commands|])))
  }

  predicate MayPush(m: Machine, after: Machine, command: Command) {
    m.journal.Asked() <= after.journal.Asked() && (after.commands == m.commands || after.commands == m.commands + [command])
  }

  lemma {:induction false} IssuePushes(a: Decider, m: Machine, shape: CommandShape, command: Command, unlessDone: bool, wait: Wait, fed: nat)
    ensures MayPush(m, a.IssueAndWait(m, shape, command, unlessDone, wait, fed).0, command)
  {
    var issued := a.IssueNew(m, shape, command, unlessDone, wait);
    NewPushes(a, m, shape, command, unlessDone, wait);
    AddingGivesOut(a, issued, wait, a.DueOf(wait), fed);
    hide Decider.Verdict, Decider.Issue, Decider.IssueNew, Decider.AddPromise, Decider.DueOf, ReadyNow;
  }

  lemma {:induction false} NewPushes(a: Decider, m: Machine, shape: CommandShape, command: Command, unlessDone: bool, wait: Wait)
    ensures MayPush(m, a.Issue(m, shape), command) && MayPush(m, a.IssueNew(m, shape, command, unlessDone, wait), command)
  {
    hide Decider.Verdict, Find;
  }

  lemma PushFinds(a: Decider, m: Machine, counted: Machine, after: Machine, command: Command)
    requires counted == m.(counters := counted.counters) && MayPush(counted, after, command)
    requires IsFor(a, m.trace, m.journal.Asked(), command)
    ensures Finds(a, m, after)
  {
    hide IsFor;
  }

  lemma {:induction false} CallFinds(a: Decider, m: Machine, call: Call, fed: nat)
    requires AreCounted(a.handler, m) && a.handler.next(m.trace) == Do(call)
    ensures Finds(a, m, a.AnswerCall(m, call, fed).0)
  {
    hide Decider.IssueAndWait, Find, OutcomeOf, Winner, Times, IsFor, CallsOf, PatchIds, CommandCount, Decider.Verdict;
    var after := a.AnswerCall(m, call, fed).0;
    match call
    case Step(stepType, input) =>
      var id := m.counters.steps + 1;
      var counted := m.(counters := m.counters.(steps := id));
      var command := ScheduleStep(id, stepType, input);
      IssuePushes(a, counted, StepShape(id, stepType, input), command, true, OnStep(id, stepType), fed);
      StepIsFor(a, m, command);
      PushFinds(a, m, counted, after, command);
    case Sleep(duration) =>
      if !IsBadSleep(call) {
        var id := m.counters.timers + 1;
        var counted := m.(counters := m.counters.(timers := id));
        var command := StartTimer(id, a.moment.clock(m.journal.Asked()) + duration.ms, duration.ms);
        IssuePushes(a, counted, TimerShape(id, Some(duration.ms)), command, true, OnTimer(id), fed);
        TimerIsFor(a, m, command);
        PushFinds(a, m, counted, after, command);
      }
    case ExecuteChild(workflowType, input, policy, runTimeoutMs, executionTimeoutMs) =>
      var id := m.counters.children + 1;
      if id <= a.settings.maxChildren {
        var counted := m.(counters := m.counters.(children := id));
        var command := StartChild(id, workflowType, input, policy, runTimeoutMs, executionTimeoutMs);
        IssuePushes(a, counted, ChildShape(id, workflowType, input), command, false, OnChild(id), fed);
        ChildIsFor(a, m, command);
        PushFinds(a, m, counted, after, command);
      }
    case Patched(patchId) =>
      PatchIsFor(a, m, RecordPatch(patchId, a.settings.buildId));
      PushFinds(a, m, m, after, RecordPatch(patchId, a.settings.buildId));
    case Now =>
      var command := RecordTime(if a.moment.triggeredAt.Some? then a.moment.triggeredAt.value else a.moment.clock(m.journal.Asked()));
      TimeIsFor(a, m, command);
      PushFinds(a, m, m, after, command);
    case _ =>
  }

  lemma StepIsFor(a: Decider, m: Machine, command: Command)
    requires AreCounted(a.handler, m) && command.ScheduleStep? && command.stepId == m.counters.steps + 1
    requires a.handler.next(m.trace) == Do(Step(command.stepType, command.input))
    ensures IsFor(a, m.trace, m.journal.Asked(), command)
  {
    hide CallsOf;
  }

  lemma TimerIsFor(a: Decider, m: Machine, command: Command)
    requires AreCounted(a.handler, m) && command.StartTimer? && command.timerId == m.counters.timers + 1 && command.durationMs >= 0
    requires a.handler.next(m.trace) == Do(Sleep(Finite(command.durationMs)))
    requires command.fireAt == a.moment.clock(m.journal.Asked()) + command.durationMs
    ensures IsFor(a, m.trace, m.journal.Asked(), command)
  {
    hide CallsOf;
  }

  lemma ChildIsFor(a: Decider, m: Machine, command: Command)
    requires AreCounted(a.handler, m) && command.StartChild? && command.childId == m.counters.children + 1 <= a.settings.maxChildren
    requires a.handler.next(m.trace) ==
      Do(ExecuteChild(command.workflowType, command.input, command.policy, command.runTimeoutMs, command.executionTimeoutMs))
    ensures IsFor(a, m.trace, m.journal.Asked(), command)
  {
    hide CallsOf;
  }

  lemma PatchIsFor(a: Decider, m: Machine, command: Command)
    requires command.RecordPatch? && command.buildId == a.settings.buildId && a.handler.next(m.trace) == Do(Patched(command.patchId))
    ensures IsFor(a, m.trace, m.journal.Asked(), command)
  {
    hide CallsOf;
  }

  lemma TimeIsFor(a: Decider, m: Machine, command: Command)
    requires command.RecordTime? && a.handler.next(m.trace) == Do(Call.Now)
    requires command.time == if a.moment.triggeredAt.Some? then a.moment.triggeredAt.value else a.moment.clock(m.journal.Asked())
    ensures IsFor(a, m.trace, m.journal.Asked(), command)
  {
    hide CallsOf;
  }

  /** What was asked for stays, as more is observed. */
  lemma {:induction false} PlaceStays(a: Decider, m: Machine, after: Machine, place: nat, command: Command)
    requires IsAskedAt(a, m, place, command) && m.trace <= after.trace && m.journal.Asked() <= after.journal.Asked()
    ensures IsAskedAt(a, after, place, command)
  {
    assert after.trace[..place] == m.trace[..place];
    hide CallsOf;
  }

  /** A turn adds one observation, and the command of its call if there is one. */
  lemma {:induction false} TurnFinds(a: Decider, m: Machine, fed: nat)
    requires AreCounted(a.handler, m) && !a.AtRest(m)
    ensures var after := a.Turn(m, fed);
            |after.trace| == |m.trace| + 1 && m.trace < after.trace && m.journal.Asked() <= after.journal.Asked() &&
            (after.commands != m.commands ==> after.trace[|m.trace|].Answered? && Finds(a, m, after))
  {
    hide Decider.AnswerCall, IsFor, AreCounted;
    if a.handler.next(m.trace).Do? {
      CallFinds(a, m, a.handler.next(m.trace).call, fed);
    }
  }

  lemma {:induction false} TurnAsks(a: Decider, m: Machine, fed: nat, places: seq<nat>) returns (more: seq<nat>)
    requires AreCounted(a.handler, m) && AreAskedAt(a, m, places) && !a.AtRest(m)
    ensures AreAskedAt(a, a.Turn(m, fed), more)
  {
    hide *;
    TurnFinds(a, m, fed);
    more := OneMorePlace(a, m, a.Turn(m, fed), places);
  }

  lemma {:induction false} OneMorePlace(a: Decider, m: Machine, after: Machine, places: seq<nat>) returns (more: seq<nat>)
    requires AreAskedAt(a, m, places) && |after.trace| == |m.trace| + 1 && m.trace < after.trace && m.journal.Asked() <= after.journal.Asked()
    requires after.commands != m.commands ==> after.trace[|m.trace|].Answered? && Finds(a, m, after)
    ensures AreAskedAt(a, after, more)
  {
    hide IsFor, IsAskedAt, Journal.Asked;
    more := if after.commands == m.commands then places else places + [|m.trace|];
    forall i | 0 <= i < |more|
      ensures IsAskedAt(a, after, more[i], after.commands[i])
    {
      if i < |places| {
        PlaceStays(a, m, after, places[i], m.commands[i]);
      } else {
        NowIsAskedAt(a, m, after, after.commands[i]);
      }
    }
    forall i | 0 <= i < |places|
      ensures places[i] < |m.trace|
    {
      PlaceIsThere(a, m, places[i], m.commands[i]);
    }
  }

  lemma PlaceIsThere(a: Decider, m: Machine, place: nat, command: Command)
    requires IsAskedAt(a, m, place, command)
    ensures place < |m.trace|
  {
  }

  lemma NowIsAskedAt(a: Decider, m: Machine, after: Machine, command: Command)
    requires m.trace < after.trace && after.trace[|m.trace|].Answered? && m.journal.Asked() <= after.journal.Asked()
    requires IsFor(a, m.trace, m.journal.Asked(), command)
    ensures IsAskedAt(a, after, |m.trace|, command)
  {
    assert after.trace[..|m.trace|] == m.trace;
    NowStays(a, m.trace, m.journal.Asked(), after.journal.Asked(), command);
    hide IsFor;
  }

  lemma NowStays(a: Decider, before: seq<Observation>, asked: nat, later: nat, command: Command)
    requires IsFor(a, before, asked, command) && asked <= later
    ensures IsFor(a, before, later, command)
  {
    hide CallsOf;
  }

  lemma {:induction false} DrainAsks(a: Decider, m: Machine, fed: nat, turns: nat, places: seq<nat>) returns (more: seq<nat>)
    requires IsTold(a, m) && AreAskedAt(a, m, places)
    ensures AreAskedAt(a, a.Drain(m, fed, turns), more)
    decreases turns
  {
    hide Decider.Turn, AreAskedAt, AllAsAsked, AreCounted, SignalsCounted, SettledAlong, ContinuedAlong;
    more := places;
    if !(m.hung || a.AtRest(m)) && turns != 0 {
      more := TurnAsks(a, m, fed, places);
      TurnIsTold(a, m, fed);
      more := DrainAsks(a, a.Turn(m, fed), fed, turns - 1, more);
    } else if !(m.hung || a.AtRest(m)) {
      SamePlaces(a, m, m.(hung := true), places);
    }
  }

  lemma SamePlaces(a: Decider, m: Machine, other: Machine, places: seq<nat>)
    requires AreAskedAt(a, m, places) && other == m.(queue := other.queue, hung := other.hung)
    ensures AreAskedAt(a, other, places)
  {
    hide IsFor;
    assert forall i :: 0 <= i < |places| ==> IsAskedAt(a, m, places[i], m.commands[i]);
  }

  /**
   Whatever the handler, the history and how much of it is fed: the commands found are, in
   their order, those of distinct calls the handler made, and say what those calls asked for.
   */
  lemma {:induction false} CommandsSayTheCalls(a: Decider, count: nat) returns (places: seq<nat>)
    requires count <= |a.history|
    ensures AreAskedAt(a, a.RunTo(count), places)
  {
    hide Decider.Drain, Releases, IsAskedAt, IsTold;
    if count == 0 {
      FreshIsTold(a);
      places := DrainAsks(a, a.Fresh(), 0, a.settings.maxTurns, []);
    } else {
      places := CommandsSayTheCalls(a, count - 1);
      var m := a.RunTo(count - 1);
      if !m.hung {
        RunIsTold(a, count - 1);
        var delivered := m.(queue := m.queue + Releases(a.history, m.promises, count - 1));
        SameTold(a, m, delivered);
        SamePlaces(a, m, delivered, places);
        places := DrainAsks(a, delivered, count, a.settings.maxTurns, places);
      }
    }
  }
}
