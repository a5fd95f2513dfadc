/**
 Histories that one handler wrote: decisions recorded at the end of the history they
 were made on, and completions the outside world appended. On such a history the
 matcher never raises a false alarm, and deciding again right after a decision was
 recorded finds nothing new.
 */
module GeneratedHistories {
  import opened WorkflowTypes
  import opened CommandMatching
  import opened Replay
  import opened ReplayFacts
  import opened ReplayMonotone

  /** An event the outside world appends to an open run. */
  predicate IsExternal(event: Event) {
    event.StepCompleted? || event.StepFailed? || event.StepAttemptFailed? || event.TimerFired? ||
    event.SignalReceived? || event.ChildCompleted? || event.ChildFailed?
  }

  predicate StepRecorded(history: seq<Event>, stepId: nat) {
    exists shape :: shape in Shapes(history) && shape.StepShape? && shape.id == stepId
  }

  predicate TimerRecorded(history: seq<Event>, timerId: nat) {
    exists shape :: shape in Shapes(history) && shape.TimerShape? && shape.id == timerId
  }

  /** Only what was recorded is ever completed. */
  predicate CompletesOnly(history: seq<Event>, event: Event) {
    (event.StepCompleted? || event.StepFailed? ==> StepRecorded(history, event.stepId)) &&
    (event.TimerFired? ==> TimerRecorded(history, event.timerId))
  }

  predicate Plausible(history: seq<Event>) {
    forall i :: 0 <= i < |history| ==> CompletesOnly(history, history[i])
  }

  // ---- what a replay newly found is exactly what it must record --------------

  function ShapesOf(commands: seq<Command>): seq<CommandShape> {
    Shapes(CommandsToEvents(commands))
  }

  function TimesOf(commands: seq<Command>): seq<int> {
    Times(CommandsToEvents(commands))
  }

  function Tail<T>(items: seq<T>, from: nat): seq<T> {
    if |items| <= from then [] else items[from..]
  }

  lemma {:induction false} TailSnoc<T>(items: seq<T>, from: nat, item: T)
    ensures Tail(items + [item], from) == if |items| < from then [] else Tail(items, from) + [item]
  {
  }

  lemma {:induction false} CommandsSnoc(commands: seq<Command>, command: Command)
    ensures ShapesOf(commands + [command]) == ShapesOf(commands) + Shapes([CommandToEvent(command)])
    ensures TimesOf(commands + [command]) == TimesOf(commands) + Times([CommandToEvent(command)])
  {
    assert CommandsToEvents(commands + [command]) == CommandsToEvents(commands) + [CommandToEvent(command)];
    ShapesConcat(CommandsToEvents(commands), [CommandToEvent(command)]);
    TimesConcat(CommandsToEvents(commands), [CommandToEvent(command)]);
  }

  lemma {:induction false} SingleEvent(event: Event)
    ensures Shapes([event]) == match RecordedCommandOf(event) case Some(shape) => [shape] case None => []
    ensures Times([event]) == if event.TimeRecorded? then [event.time] else []
  {
    assert [event][..0] == [];
  }

  /** Every shape issued was counted, and every patch issued was decided. */
  predicate Counted(m: Machine) {
    forall shape :: shape in m.journal.issued ==>
      (shape.StepShape? ==> shape.id <= m.counters.steps) &&
      (shape.TimerShape? ==> shape.id <= m.counters.timers) &&
      (shape.PatchShape? ==> shape.patchId in m.journal.patches && m.journal.patches[shape.patchId])
  }

  /** The new commands are the issued shapes and the answered times the history lacks. */
  predicate Faithful(history: seq<Event>, m: Machine) {
    ShapesOf(m.commands) == Tail(m.journal.issued, |Shapes(history)|) &&
    TimesOf(m.commands) == Tail(m.journal.times, |Times(history)|) &&
    Counted(m)
  }

  /** What the history completed, the code issued, once it issued all that was recorded. */
  lemma {:induction false} CompletedWasIssued(a: Decider, m: Machine, index: nat)
    requires Plausible(a.history) && MachineAccounted(a, m) && !m.journal.alarmed
    requires |Shapes(a.history)| <= |m.journal.issued|
    requires index < |a.history|
    ensures var event := a.history[index];
      (event.StepCompleted? || event.StepFailed? ==>
        exists shape :: shape in m.journal.issued && shape.StepShape? && shape.id == event.stepId) &&
      (event.TimerFired? ==>
        exists shape :: shape in m.journal.issued && shape.TimerShape? && shape.id == event.timerId)
  {
    var event := a.history[index];
    assert CompletesOnly(a.history, event);
    var recorded, issued := Shapes(a.history), m.journal.issued;
    if event.StepCompleted? || event.StepFailed? {
      var k :| 0 <= k < |recorded| && recorded[k].StepShape? && recorded[k].id == event.stepId;
      assert SameCommand(recorded[k], issued[k]);
      assert issued[k] in issued;
    } else if event.TimerFired? {
      var k :| 0 <= k < |recorded| && recorded[k].TimerShape? && recorded[k].id == event.timerId;
      assert SameCommand(recorded[k], issued[k]);
      assert issued[k] in issued;
    }
  }

  /** A step or timer the code issues for the first time has no completion yet. */
  lemma {:induction false} NewHasNoCompletion(a: Decider, m: Machine, wait: Wait)
    requires Plausible(a.history) && MachineAccounted(a, m) && Counted(m) && !m.journal.alarmed
    requires |Shapes(a.history)| <= |m.journal.issued|
    requires (wait.OnStep? && wait.stepId == m.counters.steps + 1) ||
             (wait.OnTimer? && wait.timerId == m.counters.timers + 1)
    ensures Find(a.history, wait).None?
  {
    forall index | 0 <= index < |a.history|
      ensures !Settles(a.history, index, wait)
    {
      CompletedWasIssued(a, m, index);
    }
  }

  lemma {:induction false} PushShape(recorded: nat, issued: seq<CommandShape>, commands: seq<Command>,
                                     shape: CommandShape, command: Command)
    requires RecordedCommandOf(CommandToEvent(command)) == Some(shape)
    requires ShapesOf(commands) == Tail(issued, recorded)
    ensures ShapesOf(if |issued| < recorded then commands else commands + [command]) ==
            Tail(issued + [shape], recorded)
    ensures TimesOf(if |issued| < recorded then commands else commands + [command]) == TimesOf(commands)
  {
    var event := CommandToEvent(command);
    TailSnoc(issued, recorded, shape);
    CommandsSnoc(commands, command);
    SingleEvent(event);
    assert !event.TimeRecorded?;
    assert TimesOf(commands) + [] == TimesOf(commands);
  }

  lemma {:induction false} CountedIssue(before: Machine, after: Machine, shape: CommandShape)
    requires Counted(before)
    requires after.journal.issued == before.journal.issued + [shape]
    requires after.journal.patches == before.journal.patches
    requires before.counters.steps <= after.counters.steps && before.counters.timers <= after.counters.timers
    requires !shape.PatchShape?
    requires shape.StepShape? ==> shape.id <= after.counters.steps
    requires shape.TimerShape? ==> shape.id <= after.counters.timers
    ensures Counted(after)
  {
  }

  lemma {:induction false} FaithfulIssue(a: Decider, before: Machine, m: Machine, shape: CommandShape,
                                         command: Command, unlessDone: bool, wait: Wait, fed: nat)
    requires Faithful(a.history, before) && m == before.(counters := m.counters)
    requires before.counters.steps <= m.counters.steps && before.counters.timers <= m.counters.timers
    requires !shape.PatchShape?
    requires shape.StepShape? ==> shape.id <= m.counters.steps
    requires shape.TimerShape? ==> shape.id <= m.counters.timers
    requires RecordedCommandOf(CommandToEvent(command)) == Some(shape)
    requires |Shapes(a.history)| <= |m.journal.issued| ==> !unlessDone || Find(a.history, wait).None?
    requires !a.Verdict(m, shape).Mismatch?
    ensures Faithful(a.history, a.IssueAndWait(m, shape, command, unlessDone, wait, fed).0)
  {
    var next := a.IssueNew(m, shape, command, unlessDone, wait);
    var after := a.IssueAndWait(m, shape, command, unlessDone, wait, fed).0;
    assert next.commands == if |m.journal.issued| < |Shapes(a.history)| then m.commands else m.commands + [command];
    assert after.journal == next.journal && after.counters == m.counters && after.commands == next.commands by {
      RegisterKeeps(a, next, wait, fed);
      IssueKeeps(a, m, shape, command, unlessDone, wait, fed);
    }
    hide Find, Shapes, Times, Decider.Register, CommandToEvent, RecordedCommandOf, Counted, ShapesOf, TimesOf,
         Decider.IssueAndWait, Tail;
    PushShape(|Shapes(a.history)|, m.journal.issued, m.commands, shape, command);
    CountedIssue(before, after, shape);
  }

  lemma {:induction false} FaithfulStep(a: Decider, m: Machine, stepType: string, input: Json, fed: nat)
    requires Plausible(a.history) && MachineAccounted(a, m) && Faithful(a.history, m)
    requires !a.AnswerStep(m, stepType, input, fed).0.journal.alarmed
    ensures Faithful(a.history, a.AnswerStep(m, stepType, input, fed).0)
  {
    hide Decider.IssueAndWait, Find, ShapesOf, TimesOf, Tail, Plausible;
    var id := m.counters.steps + 1;
    var m0 := m.(counters := m.counters.(steps := id));
    var shape, command, wait := StepShape(id, stepType, input), ScheduleStep(id, stepType, input), OnStep(id, stepType);
    IssueKeeps(a, m0, shape, command, true, wait, fed);
    if |Shapes(a.history)| <= |m.journal.issued| {
      NewHasNoCompletion(a, m, wait);
    }
    FaithfulIssue(a, m, m0, shape, command, true, wait, fed);
  }

  lemma {:induction false} FaithfulSleep(a: Decider, m: Machine, ms: nat, fed: nat)
    requires Plausible(a.history) && MachineAccounted(a, m) && Faithful(a.history, m)
    requires !a.AnswerSleep(m, Finite(ms), fed).0.journal.alarmed
    ensures Faithful(a.history, a.AnswerSleep(m, Finite(ms), fed).0)
  {
    hide Decider.IssueAndWait, Find, ShapesOf, TimesOf, Tail, Plausible;
    var id := m.counters.timers + 1;
    var m0 := m.(counters := m.counters.(timers := id));
    var shape, wait := TimerShape(id, Some(ms)), OnTimer(id);
    var command := StartTimer(id, a.moment.clock(m.journal.Asked()) + ms, ms);
    IssueKeeps(a, m0, shape, command, true, wait, fed);
    if |Shapes(a.history)| <= |m.journal.issued| {
      NewHasNoCompletion(a, m, wait);
    }
    FaithfulIssue(a, m, m0, shape, command, true, wait, fed);
  }

  lemma {:induction false} FaithfulChild(a: Decider, m: Machine, call: Call, fed: nat)
    requires call.ExecuteChild? && m.counters.children + 1 <= a.settings.maxChildren
    requires Faithful(a.history, m)
    requires !a.AnswerChild(m, call, fed).0.journal.alarmed
    ensures Faithful(a.history, a.AnswerChild(m, call, fed).0)
  {
    hide Decider.IssueAndWait, Find, ShapesOf, TimesOf, Tail, Plausible;
    var id := m.counters.children + 1;
    var m0 := m.(counters := m.counters.(children := id));
    var shape := ChildShape(id, call.workflowType, call.input);
    var command := StartChild(id, call.workflowType, call.input, call.policy, call.runTimeoutMs, call.executionTimeoutMs);
    IssueKeeps(a, m0, shape, command, false, OnChild(id), fed);
    FaithfulIssue(a, m, m0, shape, command, false, OnChild(id), fed);
  }

  /** A patch consulted for the first time is at the matcher's position, if it is recorded at all. */
  lemma {:induction false} NewPatchPosition(a: Decider, m: Machine, patchId: string)
    requires MachineAccounted(a, m) && Counted(m) && !m.journal.alarmed
    requires patchId !in m.journal.patches
    requires !a.Verdict(m, PatchShape(patchId)).Mismatch?
    ensures patchId in PatchIds(a.history) <==> |m.journal.issued| < |Shapes(a.history)|
  {
    var recorded, issued := Shapes(a.history), m.journal.issued;
    PatchIdsAreShapes(a.history, patchId);
    if |recorded| <= |issued| {
      forall k | 0 <= k < |recorded|
        ensures recorded[k] != PatchShape(patchId)
      {
        assert SameCommand(recorded[k], issued[k]);
        assert issued[k] in issued;
      }
    }
  }

  lemma {:induction false} FaithfulPatched(a: Decider, m: Machine, patchId: string)
    requires MachineAccounted(a, m) && Faithful(a.history, m)
    requires !a.AnswerPatched(m, patchId).0.journal.alarmed
    ensures Faithful(a.history, a.AnswerPatched(m, patchId).0)
  {
    var after := a.AnswerPatched(m, patchId).0;
    var shape, command := PatchShape(patchId), RecordPatch(patchId, a.settings.buildId);
    if patchId !in m.journal.patches && after.journal.issued != m.journal.issued {
      NewPatchPosition(a, m, patchId);
      PushShape(|Shapes(a.history)|, m.journal.issued, m.commands, shape, command);
    }
  }

  lemma {:induction false} PushTime(recorded: nat, times: seq<int>, commands: seq<Command>, time: int)
    requires TimesOf(commands) == Tail(times, recorded)
    ensures TimesOf(if |times| < recorded then commands else commands + [RecordTime(time)]) == Tail(times + [time], recorded)
    ensures ShapesOf(if |times| < recorded then commands else commands + [RecordTime(time)]) == ShapesOf(commands)
  {
    TailSnoc(times, recorded, time);
    CommandsSnoc(commands, RecordTime(time));
    SingleEvent(TimeRecorded(time));
    assert ShapesOf(commands) + [] == ShapesOf(commands);
  }

  lemma {:induction false} FaithfulNow(a: Decider, m: Machine)
    requires Faithful(a.history, m)
    ensures Faithful(a.history, a.AnswerNow(m).0)
  {
    var after := a.AnswerNow(m).0;
    var time := after.journal.times[|m.journal.times|];
    hide Times, Shapes, ShapesOf, TimesOf, Tail;
    PushTime(|Times(a.history)|, m.journal.times, m.commands, time);
  }

  lemma {:induction false} FaithfulCall(a: Decider, m: Machine, call: Call, fed: nat)
    requires Plausible(a.history) && MachineAccounted(a, m) && Faithful(a.history, m)
    requires !a.AnswerCall(m, call, fed).0.journal.alarmed
    ensures Faithful(a.history, a.AnswerCall(m, call, fed).0)
  {
    hide Decider.AnswerStep, Decider.AnswerPatched, Decider.AnswerNow, Decider.IssueAndWait, Decider.Register,
         Decider.AddPromise, Plausible, ShapesOf, TimesOf, Tail;
    match call
    case Step(stepType, input) => FaithfulStep(a, m, stepType, input, fed);
    case Sleep(duration) =>
      if duration.Finite? && 0 <= duration.ms {
        FaithfulSleep(a, m, duration.ms, fed);
      }
    case ExecuteChild(_, _, _, _, _) =>
      if m.counters.children + 1 <= a.settings.maxChildren {
        FaithfulChild(a, m, call, fed);
      }
    case WaitForSignal(name) =>
      var taken := SignalsTaken(m.counters.signals, name);
      RegisterKeeps(a, m.(counters := m.counters.(signals := m.counters.signals[name := taken + 1])),
                    OnSignal(name, taken), fed);
    case Patched(patchId) => FaithfulPatched(a, m, patchId);
    case Now => FaithfulNow(a, m);
    case Select(branches) => SelectKeeps(a, m, branches, fed);
    case _ =>
  }

  lemma {:induction false} SelectKeeps(a: Decider, m: Machine, branches: seq<nat>, fed: nat)
    ensures var after := a.AnswerSelect(m, branches, fed).0;
            after == m.(promises := after.promises, queue := after.queue)
  {
  }

  lemma {:induction false} FaithfulTurn(a: Decider, m: Machine, fed: nat)
    requires Plausible(a.history) && MachineAccounted(a, m) && Faithful(a.history, m)
    requires !a.AtRest(m) && !a.Turn(m, fed).journal.alarmed
    ensures Faithful(a.history, a.Turn(m, fed))
  {
    hide Decider.AnswerCall;
    if a.handler.next(m.trace).Do? {
      FaithfulCall(a, m, a.handler.next(m.trace).call, fed);
    }
  }

  lemma {:induction false} FaithfulDrain(a: Decider, m: Machine, fed: nat, turns: nat)
    requires Plausible(a.history) && MachineAccounted(a, m) && Faithful(a.history, m)
    requires !a.Drain(m, fed, turns).journal.alarmed
    ensures Faithful(a.history, a.Drain(m, fed, turns))
    decreases turns
  {
    hide Decider.Turn, Faithful, MachineAccounted;
    if !(m.hung || a.AtRest(m)) && turns != 0 {
      var next := a.Turn(m, fed);
      BeforeDrain(a, next, fed, turns - 1);
      FaithfulTurn(a, m, fed);
      AccountedTurn(a, m, fed);
      FaithfulDrain(a, next, fed, turns - 1);
    } else {
      FaithfulUpTo(a.history, m, m.(hung := true));
    }
  }

  /** `Faithful` looks only at the journal, the counters and the commands. */
  lemma {:induction false} FaithfulUpTo(history: seq<Event>, m: Machine, other: Machine)
    requires Faithful(history, m)
    requires other.journal == m.journal && other.counters == m.counters && other.commands == m.commands
    ensures Faithful(history, other)
  {
  }

  lemma {:induction false} FaithfulRun(a: Decider, count: nat)
    requires Plausible(a.history) && count <= |a.history|
    requires !a.RunTo(count).journal.alarmed
    ensures Faithful(a.history, a.RunTo(count))
  {
    hide Faithful, MachineAccounted, Decider.Drain;
    if count == 0 {
      FaithfulFresh(a);
      FaithfulDrain(a, a.Fresh(), 0, a.settings.maxTurns);
    } else {
      var m := a.RunTo(count - 1);
      BeforeRun(a, count - 1, count);
      FaithfulRun(a, count - 1);
      AccountedRun(a, count - 1);
      if !m.hung {
        var ready := m.(queue := m.queue + Releases(a.history, m.promises, count - 1));
        FaithfulUpTo(a.history, m, ready);
        AccountedUpTo(a, m, ready);
        FaithfulDrain(a, ready, count, a.settings.maxTurns);
      }
    }
  }

  lemma {:induction false} AccountedUpTo(a: Decider, m: Machine, other: Machine)
    requires MachineAccounted(a, m)
    requires other.journal == m.journal && other.counters == m.counters
    ensures MachineAccounted(a, other)
  {
  }

  lemma {:induction false} FaithfulFresh(a: Decider)
    ensures Faithful(a.history, a.Fresh()) && MachineAccounted(a, a.Fresh())
  {
  }

  // ---- a machine past everything recorded cannot be refused ------------------

  predicate Calm(history: seq<Event>, m: Machine) {
    !m.journal.alarmed && |Shapes(history)| <= |m.journal.issued|
  }

  lemma {:induction false} CalmCall(a: Decider, m: Machine, call: Call, fed: nat)
    requires Calm(a.history, m)
    ensures Calm(a.history, a.AnswerCall(m, call, fed).0)
  {
    if call.Patched? {
    } else {
      CallEffect(a, m, call, fed);
    }
  }

  lemma {:induction false} CalmDrain(a: Decider, m: Machine, fed: nat, turns: nat)
    requires Calm(a.history, m)
    ensures Calm(a.history, a.Drain(m, fed, turns))
    decreases turns
  {
    hide Decider.AnswerCall;
    if !(m.hung || a.AtRest(m)) && turns != 0 {
      if a.handler.next(m.trace).Do? {
        CalmCall(a, m, a.handler.next(m.trace).call, fed);
      }
      CalmDrain(a, a.Turn(m, fed), fed, turns - 1);
    }
  }

  lemma {:induction false} CalmRun(a: Decider, start: nat, stop: nat)
    requires start <= stop <= |a.history|
    requires Calm(a.history, a.RunTo(start))
    ensures Calm(a.history, a.RunTo(stop))
    decreases stop
  {
    if start < stop {
      CalmRun(a, start, stop - 1);
      var m := a.RunTo(stop - 1);
      if !m.hung {
        CalmDrain(a, m.(queue := m.queue + Releases(a.history, m.promises, stop - 1)), stop, a.settings.maxTurns);
      }
    }
  }

  // ---- events that settle nothing change nothing -----------------------------

  /** Events that record a decision's commands settle no promise. */
  predicate SettlesNothing(event: Event) {
    !event.StepCompleted? && !event.StepFailed? && !event.TimerFired? && !event.SignalReceived? &&
    !event.ChildCompleted? && !event.ChildFailed?
  }

  lemma {:induction false} NoReleases(history: seq<Event>, promises: seq<Promise>, index: nat)
    requires index < |history| && SettlesNothing(history[index])
    requires DuesSettle(history, promises)
    ensures Releases(history, promises, index) == []
  {
    if promises != [] {
      NoReleases(history, promises[..|promises| - 1], index);
    }
  }

  lemma {:induction false} QuietDelivery(a: Decider, start: nat, stop: nat)
    requires start <= stop <= |a.history|
    requires forall i :: start <= i < stop ==> SettlesNothing(a.history[i])
    ensures a.RunTo(stop) == a.RunTo(start)
  {
    DuesSettleRun(a, start);
    forall i | start <= i < stop
      ensures Releases(a.history, a.RunTo(start).promises, i) == []
    {
      NoReleases(a.history, a.RunTo(start).promises, i);
    }
    SkipTo(a, start, stop);
  }

  // ---- recording a decision --------------------------------------------------

  lemma {:induction false} RecordedEvents(commands: seq<Command>, event: Event)
    requires event in CommandsToEvents(commands)
    ensures SettlesNothing(event)
    ensures event.PatchRecorded? ==> PatchShape(event.patchId) in ShapesOf(commands)
  {
    if event.PatchRecorded? {
      PatchIdsAreShapes(CommandsToEvents(commands), event.patchId);
    }
  }

  /** No command was refused, none is missing, and every patch was asked about. */
  predicate AlarmFree(a: Decider) {
    var j := a.Run().journal;
    !j.alarmed && |Shapes(a.history)| <= |j.issued| && |Times(a.history)| <= |j.times| &&
    PatchIds(a.history) <= j.consulted
  }

  /** `b` decides on the history of `a` with everything `a` newly found recorded at its end. */
  ghost predicate Records(a: Decider, b: Decider) {
    b.handler == a.handler && b.input == a.input && b.settings == a.settings &&
    b.history == a.history + CommandsToEvents(a.Run().commands)
  }

  /** Recording everything a decision found lets any later decision continue from it. */
  lemma {:induction false} RecordingContinues(a: Decider, b: Decider)
    requires Plausible(a.history) && AlarmFree(a) && Records(a, b)
    ensures |Shapes(b.history)| == |a.Run().journal.issued| && |Times(b.history)| == |a.Run().journal.times|
    ensures PatchIds(b.history) <= a.Run().journal.consulted
    ensures Continues(a, b, a.Run().journal) && Covers(b.history, a.Run().journal)
  {
    hide Decider.RunTo;
    var m := a.Run();
    var added := CommandsToEvents(m.commands);
    FaithfulRun(a, |a.history|);
    AccountedRun(a, |a.history|);
    ShapesConcat(a.history, added);
    TimesConcat(a.history, added);
    forall p | p in PatchIds(b.history)
      ensures p in m.journal.consulted
      ensures p in PatchIds(a.history) || (p in m.journal.patches && m.journal.patches[p])
    {
      var event :| event in b.history && event.PatchRecorded? && event.patchId == p;
      if event in added {
        RecordedEvents(m.commands, event);
        assert PatchShape(p) in m.journal.issued;
      }
    }
  }

  /** After its decision is recorded, a replay stops exactly where it stopped before. */
  lemma {:induction false} RecordingSettles(a: Decider, b: Decider)
    requires Plausible(a.history) && AlarmFree(a) && Records(a, b)
    ensures InStep(|a.history|, a.Run(), b.Run()) && b.Run().commands == []
    ensures AlarmFree(b)
  {
    hide Decider.RunTo;
    RecordingContinues(a, b);
    RunAgrees(a, b, |a.history|);
    forall i | |a.history| <= i < |b.history|
      ensures SettlesNothing(b.history[i])
    {
      RecordedEvents(a.Run().commands, b.history[i]);
    }
    QuietDelivery(b, |a.history|, |b.history|);
  }

  /**
   Fixpoint: deciding again right after a suspended decision was recorded, whenever
   that happens, suspends again and finds no command.
   */
  lemma {:induction false} DecidingAgainFindsNothing(a: Decider, b: Decider)
    requires Plausible(a.history) && AlarmFree(a) && Records(a, b)
    requires a.Decide().Decided? && a.Decide().decision.Suspended?
    ensures b.Decide() == Decided(Suspended([]), Warning(b.settings, |b.history|))
  {
    hide Decider.RunTo;
    RecordingSettles(a, b);
  }

  /** The only mismatch such a decision can report is one the handler settled with by itself. */
  lemma {:induction false} AlarmFreeVerdict(a: Decider)
    requires AlarmFree(a)
    ensures !a.Decide().ThrewVersionMismatch?
    ensures a.Decide().ThrewMismatch? ==> a.Run().settled == Some(Failed(a.Decide().error))
  {
    assert PatchIds(a.history) - a.Run().journal.consulted == {};
  }

  // ---- every history one handler can write ------------------------------------

  datatype Move = Append(event: Event) | DecideAt(moment: Moment)

  /** The history after one more move; a move that is not possible changes nothing. */
  function Grow(handler: Handler, input: Json, settings: Settings, history: seq<Event>, move: Move): seq<Event> {
    match move
    case Append(event) =>
      if IsExternal(event) && CompletesOnly(history, event) then history + [event] else history
    case DecideAt(moment) =>
      var verdict := Decider(handler, input, history, settings, moment).Decide();
      if verdict.Decided? && verdict.decision.Suspended?
      then history + CommandsToEvents(verdict.decision.commands) else history
  }

  function Build(handler: Handler, input: Json, settings: Settings, workflowType: string, moves: seq<Move>): seq<Event> {
    if moves == [] then [RunStarted(workflowType, input)]
    else
      var last := |moves| - 1;
      Grow(handler, input, settings, Build(handler, input, settings, workflowType, moves[..last]), moves[last])
  }

  /** Whenever it is decided on next, the history raises no alarm. */
  ghost predicate Healthy(handler: Handler, input: Json, settings: Settings, history: seq<Event>) {
    Plausible(history) &&
    forall moment: Moment :: AlarmFree(Decider(handler, input, history, settings, moment))
  }

  lemma {:induction false} RecordedGrows(history: seq<Event>, more: seq<Event>, event: Event)
    requires CompletesOnly(history, event)
    ensures CompletesOnly(history + more, event)
  {
    ShapesConcat(history, more);
    if event.StepCompleted? || event.StepFailed? {
      var shape :| shape in Shapes(history) && shape.StepShape? && shape.id == event.stepId;
      assert shape in Shapes(history + more);
    } else if event.TimerFired? {
      var shape :| shape in Shapes(history) && shape.TimerShape? && shape.id == event.timerId;
      assert shape in Shapes(history + more);
    }
  }

  lemma {:induction false} PlausibleGrows(history: seq<Event>, more: seq<Event>)
    requires Plausible(history)
    requires forall i :: 0 <= i < |more| ==> CompletesOnly(history, more[i])
    ensures Plausible(history + more)
  {
    forall i | 0 <= i < |history + more|
      ensures CompletesOnly(history + more, (history + more)[i])
    {
      RecordedGrows(history, more, (history + more)[i]);
    }
  }

  lemma {:induction false} HealthyStart(handler: Handler, input: Json, settings: Settings, workflowType: string)
    ensures Healthy(handler, input, settings, [RunStarted(workflowType, input)])
  {
    var history := [RunStarted(workflowType, input)];
    SingleEvent(history[0]);
    assert PatchIds(history) == {};
    forall moment: Moment
      ensures AlarmFree(Decider(handler, input, history, settings, moment))
    {
      var a := Decider(handler, input, history, settings, moment);
      CalmDrain(a, a.Fresh(), 0, settings.maxTurns);
      CalmRun(a, 0, 1);
    }
  }

  lemma {:induction false} AppendKeepsAlarmFree(a: Decider, event: Event)
    requires AlarmFree(a) && IsExternal(event)
    ensures AlarmFree(a.(history := a.history + [event]))
  {
    hide Decider.RunTo;
    var b := a.(history := a.history + [event]);
    ShapesConcat(a.history, [event]);
    TimesConcat(a.history, [event]);
    SingleEvent(event);
    forall p | p in PatchIds(b.history)
      ensures p in PatchIds(a.history)
    {
      PatchIdsSnoc(a.history, event, p);
    }
    RunAgrees(a, b, |a.history|);
    CalmRun(b, |a.history|, |b.history|);
    BeforeRun(b, |a.history|, |b.history|);
  }

  lemma {:induction false} HealthyGrow(handler: Handler, input: Json, settings: Settings, history: seq<Event>, move: Move)
    requires Healthy(handler, input, settings, history)
    ensures Healthy(handler, input, settings, Grow(handler, input, settings, history, move))
  {
    hide AlarmFree, Decider.Run;
    var next := Grow(handler, input, settings, history, move);
    if next != history {
      match move
      case Append(event) =>
        assert CompletesOnly(history, event);
        PlausibleGrows(history, [event]);
        forall moment: Moment
          ensures AlarmFree(Decider(handler, input, next, settings, moment))
        {
          AppendKeepsAlarmFree(Decider(handler, input, history, settings, moment), event);
        }
      case DecideAt(moment) =>
        var a := Decider(handler, input, history, settings, moment);
        var added := CommandsToEvents(a.Run().commands);
        forall i | 0 <= i < |added|
          ensures CompletesOnly(history, added[i])
        {
          RecordedEvents(a.Run().commands, added[i]);
        }
        PlausibleGrows(history, added);
        forall later: Moment
          ensures AlarmFree(Decider(handler, input, next, settings, later))
        {
          RecordingSettles(a, Decider(handler, input, next, settings, later));
        }
    }
  }

  /**
   No false alarm: on any history that one handler's recorded decisions and the outside
   world's completions built, the matcher refuses nothing and misses nothing.
   */
  lemma {:induction false} NoFalseAlarm(handler: Handler, input: Json, settings: Settings, workflowType: string,
                                        moves: seq<Move>)
    ensures Healthy(handler, input, settings, Build(handler, input, settings, workflowType, moves))
  {
    if moves == [] {
      HealthyStart(handler, input, settings, workflowType);
    } else {
      var last := |moves| - 1;
      NoFalseAlarm(handler, input, settings, workflowType, moves[..last]);
      HealthyGrow(handler, input, settings, Build(handler, input, settings, workflowType, moves[..last]), moves[last]);
    }
  }
}
