/**
 The promise of the sticky cache: a session that is fed a run's history slice by slice
 decides what a replay of the whole history decides. It holds whenever the new events
 continue the history the session has seen, and the lemmas at the end say how a
 history can pass the session's own checks without continuing it.
 */
module CacheAgreement {
  import opened WorkflowTypes
  import opened CommandMatching
  import opened Replay
  import opened ReplayFacts
  import opened ReplayMonotone
  import opened GeneratedHistories
  import opened LiveKnowledge
  import opened LiveReplay

  datatype LiveAdvance = Advanced(verdict: Verdict) | Unsupported | Diverged

  /** The handler of a run and what stays the same for all its decisions. */
  datatype Workflow = Workflow(handler: Handler, input: Json, settings: Settings) {
    function On(history: seq<Event>, moment: Moment): Decider {
      Decider(handler, input, history, settings, moment)
    }
  }

  datatype Session = Session(history: seq<Event>, live: Live, emitted: seq<Command>, started: bool, finished: bool)

  function NewSession(workflow: Workflow): Session {
    Session([], LiveStart(workflow.input), [], false, false)
  }

  predicate IsRecordedIn(command: Command, slice: seq<Event>) {
    match command
    case ScheduleStep(stepId, _, _) => exists event :: event in slice && event.StepScheduled? && event.stepId == stepId
    case StartTimer(timerId, _, _) => exists event :: event in slice && event.TimerStarted? && event.timerId == timerId
    case _ => true
  }

  /** The session's check that what it emitted last was recorded: by id for steps and timers, by count for times. */
  predicate EmittedAreRecorded(emitted: seq<Command>, slice: seq<Event>) {
    |TimesOf(emitted)| <= |Times(slice)| &&
    forall i :: 0 <= i < |emitted| ==> IsRecordedIn(emitted[i], slice)
  }

  /** The history handed in does not pass for a continuation of what the session has seen. */
  predicate LooksForeign(s: Session, full: seq<Event>) {
    s.finished || s.live.unsupported || |full| < |s.history| ||
    (s.history != [] && full[|s.history| - 1] != s.history[|s.history| - 1])
  }

  predicate AllSupported(events: seq<Event>) {
    forall event :: event in events ==> IsSupported(event)
  }

  /** The session with the slice fed and the handler at rest again. */
  function Fed(task: Decider, s: Session): Live
    requires |s.history| <= |task.history|
  {
    var kept := s.live.(machine := s.live.machine.(commands := []));
    LiveFeed(task, LiveDrain(task, kept, task.settings.maxTurns), |s.history|, |task.history|)
  }

  function Conclusion(task: Decider, live: Live, emitted: seq<Command>): (Session, LiveAdvance) {
    var m := live.machine;
    var fed := Session(task.history, live, emitted, true, false);
    if m.hung then (fed, Advanced(Hung))
    else if live.unsupported then (fed, Unsupported)
    else if m.settled.Some? && m.settled.value.Failed? && IsIntegrityError(m.settled.value.error) then
      (fed.(finished := true), Advanced(ThrewMismatch(m.settled.value.error)))
    else if UnissuedError(Shapes(task.history), |m.journal.issued|).Some? then
      (fed.(finished := true), Advanced(ThrewMismatch(UnissuedError(Shapes(task.history), |m.journal.issued|).value)))
    else
      var warning := Warning(task.settings, |task.history|);
      match m.settled
      case None => (fed.(emitted := m.commands), Advanced(Decided(Suspended(m.commands), warning)))
      case Some(Completed(result)) =>
        var commands := m.commands + [CompleteRun(result)];
        (fed.(finished := true, emitted := commands), Advanced(Decided(CompletedRun(result, commands), warning)))
      case Some(Failed(error)) =>
        var commands := m.commands + [FailRun(ToRecordedError(error))];
        (fed.(finished := true, emitted := commands), Advanced(Decided(FailedRun(error, commands), warning)))
  }

  /** Hands a session the whole history, of which it has not seen the last part yet. */
  function Advance(workflow: Workflow, s: Session, full: seq<Event>, moment: Moment): (Session, LiveAdvance) {
    if LooksForeign(s, full) then (s, Diverged)
    else
      var slice := full[|s.history|..];
      if !AllSupported(slice) then (s.(live := s.live.(unsupported := true)), Unsupported)
      else if !EmittedAreRecorded(s.emitted, slice) then (s, Diverged)
      else
        var task := workflow.On(s.history + slice, moment);
        Conclusion(task, Fed(task, s), s.emitted)
  }

  // ---- agreement -----------------------------------------------------------------

  /** A history a session can be fed: supported events, one outcome a step, nothing completed unasked. */
  predicate IsFeedable(history: seq<Event>) {
    AllSupported(history) && OneOutcome(history) && Plausible(history)
  }

  /** The matcher refused a command and the handler did not fail with that refusal. */
  ghost predicate Swallows(task: Decider) {
    var m := task.Run();
    m.journal.alarmed &&
    !(m.settled.Some? && m.settled.value.Failed? && IsIntegrityError(m.settled.value.error))
  }

  /** The session is where a replay for its last decision `last` ended, and that decision left the run open. */
  ghost predicate StandsAt(s: Session, last: Decider) {
    s.started && !s.finished && s.history == last.history &&
    Tracks(last, s.live, last.Run(), |last.history|) && !s.live.unsupported &&
    IsFeedable(last.history) && !last.Run().hung && !last.Run().journal.alarmed &&
    |Shapes(last.history)| <= |last.Run().journal.issued| && s.emitted == last.Run().commands
  }

  /** `next` continues what the session has seen, and everything it emitted was recorded as it was emitted. */
  ghost predicate Follows(last: Decider, next: Decider) {
    Continues(last, next, last.Run().journal) && Covers(next.history, last.Run().journal)
  }

  lemma {:induction false} NoPatches(history: seq<Event>)
    requires AllSupported(history)
    ensures PatchIds(history) == {}
  {
  }

  /** A session that is where the replay ended concludes what the replay concludes. */
  lemma {:induction false} ConclusionAgrees(task: Decider, live: Live, emitted: seq<Command>)
    requires IsAt(task, live, |task.history|) && IsFeedable(task.history) && !Swallows(task)
    ensures var (after, result) := Conclusion(task, live, emitted);
            result == Advanced(task.Decide()) &&
            (task.Decide().Decided? && task.Decide().decision.Suspended? ==> StandsAt(after, task))
  {
    hide Shapes, OneOutcome, Plausible, KeepsAll, KnowledgeOf, MachineAccounted, Counted, Decider.RunTo;
    NoPatches(task.history);
    var m := task.Run();
    assert Mirrors(live.machine, m);
    assert m.continuation.None?;
  }

  lemma {:induction false} FedAgrees(task: Decider, s: Session)
    requires |s.history| <= |task.history| && IsFeedable(task.history)
    requires var kept := LiveDrain(task, s.live.(machine := s.live.machine.(commands := [])), task.settings.maxTurns);
             IsAt(task, kept, |s.history|) || (kept.unsupported && Strays(task.handler, task.RunTo(|s.history|).trace))
    ensures IsAt(task, Fed(task, s), |task.history|) || (Fed(task, s).unsupported && Strays(task.handler, task.Run().trace))
  {
    hide LiveDrain, LiveFeed, OneOutcome, Plausible, IsAt, Strays, Decider.RunTo;
    var kept := LiveDrain(task, s.live.(machine := s.live.machine.(commands := [])), task.settings.maxTurns);
    if kept.unsupported {
      FeedingManyStaysRefused(task, kept, |s.history|, |task.history|);
      BeforeRun(task, |s.history|, |task.history|);
      if !Strays(task.handler, task.RunTo(|s.history|).trace) {
        AtIsNotRefused(task, kept, |s.history|);
      }
      StraysOn(task.handler, task.RunTo(|s.history|).trace, task.Run().trace);
    } else {
      FeedTracks(task, kept, |s.history|, |task.history|);
    }
  }

  lemma {:induction false} AtIsNotRefused(task: Decider, live: Live, count: nat)
    requires count <= |task.history| && IsAt(task, live, count)
    ensures !live.unsupported
  {
  }

  lemma {:induction false} FeedingManyStaysRefused(task: Decider, live: Live, start: nat, stop: nat)
    requires start <= stop <= |task.history| && live.unsupported
    ensures LiveFeed(task, live, start, stop).unsupported
    decreases stop
  {
    if start < stop {
      FeedingManyStaysRefused(task, live, start, stop - 1);
      FeedingStaysRefused(task, LiveFeed(task, live, start, stop - 1), task.history[stop - 1]);
    }
  }

  /** The outcomes a session may report for a workflow that makes a call it cannot resume after. */
  predicate GivesUp(result: LiveAdvance) {
    result.Unsupported? || result == Advanced(Hung)
  }

  /**
   The first advance of a session decides what a replay decides, unless the workflow
   makes a call a session cannot resume after; then it never decides otherwise.
   */
  lemma {:induction false} FirstAdvanceAgrees(workflow: Workflow, full: seq<Event>, moment: Moment)
    requires IsFeedable(full) && !Swallows(workflow.On(full, moment))
    ensures var next := workflow.On(full, moment);
            var (after, result) := Advance(workflow, NewSession(workflow), full, moment);
            (result == Advanced(next.Decide()) &&
             (next.Decide().Decided? && next.Decide().decision.Suspended? ==> StandsAt(after, next))) ||
            (GivesUp(result) && Strays(workflow.handler, next.Run().trace))
  {
    hide OneOutcome, Plausible, Swallows, LiveDrain, Decider.RunTo, LiveFeed, IsAt, Strays, StandsAt;
    var s, task := NewSession(workflow), workflow.On(full, moment);
    assert full[0..] == full && [] + full == full;
    assert TimesOf([]) == [];
    assert s.live.(machine := s.live.machine.(commands := [])) == LiveStart(workflow.input);
    StartTracks(task);
    FedAgrees(task, s);
    if IsAt(task, Fed(task, s), |full|) {
      ConclusionAgrees(task, Fed(task, s), s.emitted);
    }
  }

  /**
   Every later advance decides what a replay of the whole history decides, unless the
   workflow now makes a call a session cannot resume after.
   */
  lemma {:induction false} LaterAdvanceAgrees(workflow: Workflow, s: Session, last: Decider, full: seq<Event>, moment: Moment)
    requires StandsAt(s, last) && last == workflow.On(last.history, last.moment)
    requires Follows(last, workflow.On(full, moment))
    requires IsFeedable(full) && !Swallows(workflow.On(full, moment))
    ensures var next := workflow.On(full, moment);
            var (after, result) := Advance(workflow, s, full, moment);
            (result == Advanced(next.Decide()) &&
             (next.Decide().Decided? && next.Decide().decision.Suspended? ==> StandsAt(after, next))) ||
            (GivesUp(result) && Strays(workflow.handler, next.Run().trace))
  {
    var task := workflow.On(full, moment);
    var slice := full[|s.history|..];
    assert full == s.history + slice;
    RecordedContinuationIsAccepted(s, last, task);
    RebaseTracks(last, task, s.live);
    hide OneOutcome, Plausible, Swallows, LiveDrain, Decider.RunTo, LiveFeed, IsAt, Strays, StandsAt, Follows, Tracks,
         EmittedAreRecorded, Continues, Covers;
    FedAgrees(task, s);
    if IsAt(task, Fed(task, s), |full|) {
      ConclusionAgrees(task, Fed(task, s), s.emitted);
    }
  }

  /** What a session may be handed and still be believed. */
  ghost predicate IsFair(task: Decider) {
    AllSupported(task.history) ==> OneOutcome(task.history) && Plausible(task.history) && !Swallows(task)
  }

  /** Whatever a session decides at all is what a replay decides, or it hangs in a call it cannot resume after. */
  ghost predicate Agrees(next: Decider, after: Session, result: LiveAdvance) {
    result.Advanced? ==>
      (result.verdict == next.Decide() && (result.verdict.Decided? && result.verdict.decision.Suspended? ==> StandsAt(after, next))) ||
      (result.verdict == Hung && Strays(next.handler, next.Run().trace))
  }

  lemma {:induction false} NewSessionAgrees(workflow: Workflow, full: seq<Event>, moment: Moment)
    requires IsFair(workflow.On(full, moment))
    ensures var (after, result) := Advance(workflow, NewSession(workflow), full, moment);
            Agrees(workflow.On(full, moment), after, result)
  {
    hide Swallows, OneOutcome, Plausible, Fed, Conclusion, Decider.Run, StandsAt, IsSupported, LiveStart;
    assert full[0..] == full;
    if AllSupported(full) {
      FirstAdvanceAgrees(workflow, full, moment);
    }
  }

  lemma {:induction false} KeptSessionAgrees(workflow: Workflow, s: Session, last: Decider, full: seq<Event>, moment: Moment)
    requires StandsAt(s, last) && last == workflow.On(last.history, last.moment)
    requires Follows(last, workflow.On(full, moment)) && IsFair(workflow.On(full, moment))
    ensures var (after, result) := Advance(workflow, s, full, moment);
            Agrees(workflow.On(full, moment), after, result)
  {
    assert AllSupported(s.history) && s.history <= full;
    if AllSupported(full) {
      hide Swallows, OneOutcome, Plausible, Fed, Conclusion, Decider.Run, StandsAt, IsSupported, Follows, Advance;
      LaterAdvanceAgrees(workflow, s, last, full, moment);
    } else {
      hide Swallows, OneOutcome, Plausible, Fed, Conclusion, Decider.Run, StandsAt, IsSupported, Follows;
      assert full == s.history + full[|s.history|..];
    }
  }

  lemma {:induction false} ShapeHasEvent(history: seq<Event>, k: nat)
    requires k < |Shapes(history)|
    ensures exists event :: event in history && RecordedCommandOf(event) == Some(Shapes(history)[k])
  {
    var last := |history| - 1;
    if k < |Shapes(history[..last])| {
      ShapeHasEvent(history[..last], k);
      var event :| event in history[..last] && RecordedCommandOf(event) == Some(Shapes(history)[k]);
      assert event in history;
    } else {
      assert history[last] in history && RecordedCommandOf(history[last]) == Some(Shapes(history)[k]);
    }
  }

  /** Where the command at `i` is among the shapes of `commands`. */
  lemma {:induction false} CommandHasShape(commands: seq<Command>, i: nat) returns (k: nat)
    requires i < |commands| && RecordedCommandOf(CommandToEvent(commands[i])).Some?
    ensures k < |ShapesOf(commands)| && RecordedCommandOf(CommandToEvent(commands[i])) == Some(ShapesOf(commands)[k])
  {
    var last := |commands| - 1;
    CommandsSnoc(commands[..last], commands[last]);
    SingleEvent(CommandToEvent(commands[last]));
    assert commands == commands[..last] + [commands[last]];
    if i < last {
      k := CommandHasShape(commands[..last], i);
    } else {
      k := |ShapesOf(commands[..last])|;
    }
  }

  lemma {:induction false} CommandIsRecorded(commands: seq<Command>, issued: seq<CommandShape>, before: seq<Event>,
                                             slice: seq<Event>, i: nat)
    requires i < |commands| && ShapesOf(commands) == Tail(issued, |Shapes(before)|)
    requires |issued| <= |Shapes(before)| + |Shapes(slice)|
    requires forall k :: |Shapes(before)| <= k < |issued| ==> SameCommand(Shapes(slice)[k - |Shapes(before)|], issued[k])
    ensures IsRecordedIn(commands[i], slice)
  {
    if commands[i].ScheduleStep? || commands[i].StartTimer? {
      var k := CommandHasShape(commands, i);
      ShapeHasEvent(slice, k);
      assert ShapesOf(commands)[k] == issued[|Shapes(before)| + k];
      hide Shapes, ShapesOf, Tail;
    }
  }

  /** A true continuation always passes the session's check of what it emitted. */
  lemma {:induction false} RecordedContinuationIsAccepted(s: Session, last: Decider, next: Decider)
    requires StandsAt(s, last) && Follows(last, next)
    ensures EmittedAreRecorded(s.emitted, next.history[|s.history|..])
  {
    var m, slice := last.Run(), next.history[|last.history|..];
    assert next.history == last.history + slice;
    FaithfulRun(last, |last.history|);
    ShapesConcat(last.history, slice);
    TimesConcat(last.history, slice);
    assert s.emitted == m.commands && s.history == last.history;
    assert ShapesOf(m.commands) == Tail(m.journal.issued, |Shapes(last.history)|);
    assert TimesOf(m.commands) == Tail(m.journal.times, |Times(last.history)|);
    hide Shapes, Times, ShapesOf, TimesOf, IsRecordedIn, Tracks, OneOutcome, Plausible, Decider.RunTo, SameCommand,
         StandsAt, Faithful, IsFeedable, Decider.Run;
    forall i | 0 <= i < |m.commands|
      ensures IsRecordedIn(m.commands[i], slice)
    {
      CommandIsRecorded(m.commands, m.journal.issued, last.history, slice, i);
    }
  }

  // ---- the histories the decider meets ---------------------------------------------

  /**
   A session whose last decision was recorded right where it was made may be advanced
   with any history that goes on from there, whoever wrote the rest.
   */
  lemma {:induction false} RecordedDecisionFollows(last: Decider, next: Decider)
    requires Plausible(last.history) && AlarmFree(last)
    requires next == last.(history := next.history, moment := next.moment)
    requires last.history + CommandsToEvents(last.Run().commands) <= next.history && AllSupported(next.history)
    ensures Follows(last, next)
  {
    hide Decider.RunTo;
    var recorded := last.(history := last.history + CommandsToEvents(last.Run().commands));
    RecordingContinues(last, recorded);
    var more := next.history[|recorded.history|..];
    assert next.history == recorded.history + more;
    ShapesConcat(recorded.history, more);
    TimesConcat(recorded.history, more);
    NoPatches(next.history);
  }

  lemma {:induction false} BuildGrows(workflow: Workflow, workflowType: string, moves: seq<Move>, more: seq<Move>)
    ensures Build(workflow.handler, workflow.input, workflow.settings, workflowType, moves) <=
            Build(workflow.handler, workflow.input, workflow.settings, workflowType, moves + more)
    decreases |more|
  {
    hide Decider.Decide;
    if more == [] {
      assert moves + more == moves;
    } else {
      var last := |more| - 1;
      BuildGrows(workflow, workflowType, moves, more[..last]);
      assert (moves + more)[..|moves + more| - 1] == moves + more[..last];
    }
  }

  /** A run's history after the given moves: decisions recorded and completions appended, in any order. */
  function RunHistory(workflow: Workflow, workflowType: string, moves: seq<Move>): seq<Event> {
    Build(workflow.handler, workflow.input, workflow.settings, workflowType, moves)
  }

  /**
   On any run that one workflow's recorded decisions and the outside world's completions
   built, a session kept since the decision that follows `before` decides, after any
   moves that came later, what a replay of the whole history decides.
   */
  lemma {:induction false} CacheAgreesOnEveryRun(workflow: Workflow, workflowType: string, s: Session, before: seq<Move>,
                                                 decided: Moment, later: seq<Move>, moment: Moment)
    requires var last := workflow.On(RunHistory(workflow, workflowType, before), decided);
             StandsAt(s, last) && last.Decide().Decided? && last.Decide().decision.Suspended?
    requires var full := RunHistory(workflow, workflowType, before + [DecideAt(decided)] + later);
             AllSupported(full) && OneOutcome(full)
    ensures var full := RunHistory(workflow, workflowType, before + [DecideAt(decided)] + later);
            var result := Advance(workflow, s, full, moment).1;
            result == Advanced(workflow.On(full, moment).Decide()) ||
            (GivesUp(result) && Strays(workflow.handler, workflow.On(full, moment).Run().trace))
  {
    var moves := before + [DecideAt(decided)];
    var history, full := RunHistory(workflow, workflowType, before), RunHistory(workflow, workflowType, moves + later);
    var last, next := workflow.On(history, decided), workflow.On(full, moment);
    NoFalseAlarm(workflow.handler, workflow.input, workflow.settings, workflowType, before);
    NoFalseAlarm(workflow.handler, workflow.input, workflow.settings, workflowType, moves + later);
    assert AlarmFree(last) && AlarmFree(next);
    assert moves[..|moves| - 1] == before;
    BuildGrows(workflow, workflowType, moves, later);
    hide Plausible, OneOutcome, Decider.Run, Tracks, Advance, Build;
    RecordedDecisionFollows(last, next);
    LaterAdvanceAgrees(workflow, s, last, full, moment);
  }

  // ---- what the session's own check lets through -------------------------------------

  /** Asks for the time, waits for the signal "go" and completes with the time it was told. */
  function ClockReader(): Workflow {
    Workflow(Handler((trace: seq<Observation>) =>
               if |trace| == 1 then Do(Now)
               else if |trace| == 2 then Do(WaitForSignal("go"))
               else if |trace| == 4 && trace[1].Answered? && trace[1].answer.Instant? then
                 Settle(Completed(Number(trace[1].answer.time as real)))
               else Idle),
             Null, Settings(0, _ => Null, 4, None, None))
  }

  /** What another worker recorded from the same state, and the signal. */
  function OvertakenHistory(time: int): seq<Event> {
    [RunStarted("clock", Null), TimeRecorded(time), SignalReceived("go", Null)]
  }

  /** Where the clock reader waits after it was told `time`. */
  function ToldTime(time: int, commands: seq<Command>, due: Option<Due>): Machine {
    Machine([Started(Null), Answered(Instant(time)), Answered(Promised(0))], [], [Promise(OnSignal("go", 0), due)],
            Counters(0, 0, 0, 0, map["go" := 1]), Journal([], [time], map[], {}, false), commands, None, None, false)
  }

  lemma {:induction false} OvertakenFacts(time: int)
    ensures var h := OvertakenHistory(time);
            Times(h) == [time] && Shapes(h) == [] && Find(h, OnSignal("go", 0)) == Some(2) && PatchIds(h) == {} &&
            Times(h[..1]) == [] && Shapes(h[..1]) == [] && Find(h[..1], OnSignal("go", 0)) == None
  {
    var h := OvertakenHistory(time);
    SingleEvent(h[0]);
    SingleEvent(h[1]);
    SingleEvent(h[2]);
    assert h[..1] == [h[0]] && h[..2] == [h[0]] + [h[1]] && h == h[..2] + [h[2]];
    ShapesConcat([h[0]], [h[1]]);
    ShapesConcat(h[..2], [h[2]]);
    TimesConcat([h[0]], [h[1]]);
    TimesConcat(h[..2], [h[2]]);
    assert AllSupported(h);
    NoPatches(h);
    hide Shapes, Times, PatchIds, AllSupported;
    SignalIsThird(time);
  }

  lemma {:induction false} SignalIsThird(time: int)
    ensures var h, wait := OvertakenHistory(time), OnSignal("go", 0);
            Find(h, wait) == Some(2) && Find(h[..1], wait) == None
  {
    var h := OvertakenHistory(time);
    assert h[..2][..1] == h[..1] && h[..1][..0] == [];
    assert CountSignals(h[..1], "go") == 0 && CountSignals(h[..2], "go") == 0;
    assert !Settles(h, 0, OnSignal("go", 0)) && !Settles(h, 1, OnSignal("go", 0)) && Settles(h, 2, OnSignal("go", 0));
  }

  /** The same after the signal: completed with the time it was told. */
  function Done(time: int, commands: seq<Command>, due: Option<Due>): Machine {
    var m := ToldTime(time, commands, due);
    m.(trace := m.trace + [Resumed(0, Fulfilled(Null)), Answered(Acknowledged)],
       settled := Some(Completed(Number(time as real))))
  }

  function Signalled(time: int, commands: seq<Command>, due: Option<Due>): Machine {
    ToldTime(time, commands, due).(queue := [Ready(0, Fulfilled(Null))])
  }

  lemma {:induction false} SignalCompletes(task: Decider, time: int, commands: seq<Command>, due: Option<Due>)
    requires task.handler == ClockReader().handler
    ensures task.Drain(Signalled(time, commands, due), 3, 4) == Done(time, commands, due)
    ensures forall live: Live :: live.machine == Signalled(time, commands, due) ==>
      LiveDrain(task, live, 4) == live.(machine := Done(time, commands, due))
  {
    hide Decider.AnswerCall, LiveCall;
    var m := Signalled(time, commands, due);
    var resumed := task.Turn(m, 3);
    assert resumed.trace == m.trace + [Resumed(0, Fulfilled(Null))] && resumed.queue == [];
    var settled := task.Turn(resumed, 3);
    assert settled == Done(time, commands, due);
    assert task.Drain(settled, 3, 2) == settled;
    assert task.Drain(resumed, 3, 3) == settled;
    forall live: Live | live.machine == m
      ensures LiveDrain(task, live, 4) == live.(machine := settled)
    {
      var l1 := LiveTurn(task, live);
      assert l1 == live.(machine := resumed);
      var l2 := LiveTurn(task, l1);
      assert l2 == live.(machine := settled);
      assert LiveDrain(task, l2, 2) == l2;
      assert LiveDrain(task, l1, 3) == l2;
    }
  }

  lemma {:induction false} ReplayStart(time: int, moment: Moment)
    ensures ClockReader().On(OvertakenHistory(time), moment).RunTo(0) ==
            ToldTime(time, [], Some(Due(2, OnSignal("go", 0), None)))
  {
    var task := ClockReader().On(OvertakenHistory(time), moment);
    OvertakenFacts(time);
    hide Times, Shapes, Find, FindFrom, PatchIds, Settles;
    var m0 := task.Fresh();
    var m1 := task.Turn(m0, 0);
    assert m1 == m0.(trace := [Started(Null), Answered(Instant(time))], journal := m0.journal.(times := [time]));
    var m2 := task.Turn(m1, 0);
    assert m2 == ToldTime(time, [], Some(Due(2, OnSignal("go", 0), None)));
    assert task.Drain(m2, 0, 2) == m2;
    assert task.Drain(m1, 0, 3) == m2;
  }

  lemma {:induction false} OneRelease(time: int, index: nat)
    requires index < 3
    ensures Releases(OvertakenHistory(time), [Promise(OnSignal("go", 0), Some(Due(2, OnSignal("go", 0), None)))], index) ==
            if index == 2 then [Ready(0, Fulfilled(Null))] else []
  {
    var promises := [Promise(OnSignal("go", 0), Some(Due(2, OnSignal("go", 0), None)))];
    assert promises[..0] == [];
  }

  lemma {:induction false} ReplayReadsRecordedTime(time: int, moment: Moment)
    ensures ClockReader().On(OvertakenHistory(time), moment).Run() ==
            Done(time, [], Some(Due(2, OnSignal("go", 0), None)))
  {
    var task := ClockReader().On(OvertakenHistory(time), moment);
    var due := Some(Due(2, OnSignal("go", 0), None));
    var m := ToldTime(time, [], due);
    ReplayStart(time, moment);
    SignalCompletes(task, time, [], due);
    OneRelease(time, 0);
    OneRelease(time, 1);
    OneRelease(time, 2);
    hide Releases, Decider.Drain, Done;
    SkipStep(task, 0);
    SkipStep(task, 1);
    assert task.RunTo(3) == task.Deliver(m, 2);
  }

  /** A session that was told `mine` and then overtaken keeps its own time. */
  function Overtaken(mine: int): Session {
    Session([RunStarted("clock", Null)],
            Live(ToldTime(mine, [RecordTime(mine)], None), Knowledge(map[], {}, map[]),
                 map[SignalKey("go") := [Waiter(0, OnSignal("go", 0))]], false),
            [RecordTime(mine)], true, false)
  }

  /** The reader's first turn asks for the time, and its second waits for the signal. */
  lemma {:induction false} FirstTurns(mine: int, task: Decider)
    requires task == ClockReader().On([RunStarted("clock", Null)], task.moment) && task.moment.triggeredAt == Some(mine)
    ensures !task.AtRest(LiveStart(Null).machine) && !task.AtRest(LiveTurn(task, LiveStart(Null)).machine)
    ensures LiveTurn(task, LiveTurn(task, LiveStart(Null))) == Overtaken(mine).live
  {
    OvertakenFacts(mine);
    assert OvertakenHistory(mine)[..1] == task.history;
    hide Times, Shapes, Find, FindFrom, PatchIds, Settles;
    var l0 := LiveStart(Null);
    var l1 := LiveTurn(task, l0);
    assert l1.machine == l0.machine.(trace := [Started(Null), Answered(Instant(mine))],
      journal := l0.machine.journal.(times := [mine]), commands := [RecordTime(mine)]);
    var waiter := Waiter(0, OnSignal("go", 0));
    assert [] + [waiter] == [waiter];
    assert LiveTurn(task, l1).machine == ToldTime(mine, [RecordTime(mine)], None);
  }

  lemma {:induction false} FirstRead(mine: int, task: Decider)
    requires task == ClockReader().On([RunStarted("clock", Null)], task.moment) && task.moment.triggeredAt == Some(mine)
    ensures LiveDrain(task, LiveStart(Null), 4) == Overtaken(mine).live
  {
    FirstTurns(mine, task);
    hide LiveTurn, LiveStart;
    var l1 := LiveTurn(task, LiveStart(Null));
    assert LiveDrain(task, LiveTurn(task, l1), 2) == LiveTurn(task, l1);
    assert LiveDrain(task, l1, 3) == LiveTurn(task, l1);
  }

  lemma {:induction false} FirstReading(mine: int, at: Moment)
    requires at.triggeredAt == Some(mine)
    ensures Advance(ClockReader(), NewSession(ClockReader()), [RunStarted("clock", Null)], at) ==
            (Overtaken(mine), Advanced(Decided(Suspended([RecordTime(mine)]), None)))
  {
    var h := [RunStarted("clock", Null)];
    var task := ClockReader().On(h, at);
    FirstRead(mine, task);
    assert h[0..] == h && [] + h == h && TimesOf([]) == [];
    FirstFed(task, mine);
    OvertakenFacts(mine);
    assert OvertakenHistory(mine)[..1] == h;
    hide LiveDrain, Shapes, Times, Fed, ToldTime, LiveStart;
    assert Advance(ClockReader(), NewSession(ClockReader()), h, at) == Conclusion(task, Overtaken(mine).live, []);
    ToldConcludes(task, mine);
  }

  lemma {:induction false} FirstFed(task: Decider, mine: int)
    requires task.history == [RunStarted("clock", Null)] && task.settings.maxTurns == 4
    requires LiveDrain(task, LiveStart(Null), 4) == Overtaken(mine).live
    ensures Fed(task, NewSession(ClockReader())) == Overtaken(mine).live
  {
    var l0, l2 := LiveStart(Null), Overtaken(mine).live;
    assert LiveFeed(task, l2, 0, 0) == l2;
    assert l2.Hear(task.history[0]) == l2;
    hide LiveDrain, ToldTime;
    assert LiveFeed(task, l2, 0, 1) == l2;
    assert l0.(machine := l0.machine.(commands := [])) == l0;
  }

  lemma {:induction false} ToldConcludes(task: Decider, mine: int)
    requires Shapes(task.history) == [] && task.settings.warningThreshold.None?
    requires task.history == [RunStarted("clock", Null)]
    ensures Conclusion(task, Overtaken(mine).live, []) ==
            (Overtaken(mine), Advanced(Decided(Suspended([RecordTime(mine)]), None)))
  {
    hide Shapes;
  }

  lemma {:induction false} HearsTheSignal(live: Live, time: int)
    requires live.machine == ToldTime(time, [], None) && live.known == Knowledge(map[], {}, map[])
    requires live.waiters == map[SignalKey("go") := [Waiter(0, OnSignal("go", 0))]]
    ensures live.Hear(SignalReceived("go", Null)).machine == Signalled(time, [], None)
    ensures live.Hear(SignalReceived("go", Null)).unsupported == live.unsupported
  {
    var pending := [Waiter(0, OnSignal("go", 0))];
    var next := live.known.Learn(SignalReceived("go", Null));
    assert pending[..0] == [];
    assert Woken(next, pending) == [Ready(0, Fulfilled(Null))];
  }

  lemma {:induction false} LaterFeed(task: Decider, theirs: int, kept: Live, heard: Live)
    requires task.history == OvertakenHistory(theirs) && task.settings.maxTurns == 4
    requires !kept.machine.hung && kept.Hear(TimeRecorded(theirs)) == kept
    requires heard == kept.Hear(SignalReceived("go", Null)) && heard.machine.queue != kept.machine.queue
    ensures LiveFeed(task, kept, 1, 3) == LiveDrain(task, heard, 4)
  {
    hide LiveDrain, Live.Hear;
    assert LiveFeed(task, kept, 1, 1) == kept;
    assert LiveFeed(task, kept, 1, 2) == kept;
    assert LiveFeed(task, kept, 1, 3) == LiveDeliver(task, kept, task.history[2]);
  }

  /** What the overtaken session keeps when it is advanced, before it is fed. */
  function OvertakenKept(mine: int): Live {
    Overtaken(mine).live.(machine := ToldTime(mine, [], None))
  }

  lemma {:induction false} OvertakenRests(task: Decider, mine: int, theirs: int)
    requires task.handler == ClockReader().handler
    ensures var live := Overtaken(mine).live;
            live.(machine := live.machine.(commands := [])) == OvertakenKept(mine)
    ensures LiveDrain(task, OvertakenKept(mine), 4) == OvertakenKept(mine)
    ensures OvertakenKept(mine).Hear(TimeRecorded(theirs)) == OvertakenKept(mine)
  {
  }

  lemma {:induction false} LaterReading(mine: int, theirs: int, moment: Moment)
    ensures var task := ClockReader().On(OvertakenHistory(theirs), moment);
            Fed(task, Overtaken(mine)).machine == Done(mine, [], None) && !Fed(task, Overtaken(mine)).unsupported
  {
    var task := ClockReader().On(OvertakenHistory(theirs), moment);
    var kept := OvertakenKept(mine);
    var heard := kept.Hear(SignalReceived("go", Null));
    SignalCompletes(task, mine, [], None);
    OvertakenRests(task, mine, theirs);
    HearsTheSignal(kept, mine);
    assert heard.machine.queue == [Ready(0, Fulfilled(Null))] && kept.machine.queue == [] && !kept.machine.hung;
    hide LiveDrain, Live.Hear, ToldTime, LiveFeed, OvertakenKept, Done;
    LaterFeed(task, theirs, kept, heard);
  }

  lemma {:induction false} CheckPasses(mine: int, theirs: int)
    ensures var slice := OvertakenHistory(theirs)[1..];
            AllSupported(slice) && EmittedAreRecorded([RecordTime(mine)], slice)
  {
    var full := OvertakenHistory(theirs);
    OvertakenFacts(theirs);
    assert CommandsToEvents([RecordTime(mine)]) == [TimeRecorded(mine)];
    SingleEvent(TimeRecorded(mine));
    assert full == full[..1] + full[1..];
    TimesConcat(full[..1], full[1..]);
  }

  lemma {:induction false} DoneConcludes(task: Decider, live: Live, emitted: seq<Command>, mine: int)
    requires live.machine == Done(mine, [], None) && !live.unsupported
    requires Shapes(task.history) == [] && task.settings.warningThreshold.None?
    ensures Conclusion(task, live, emitted).1 ==
            Advanced(Decided(CompletedRun(Number(mine as real), [CompleteRun(Number(mine as real))]), None))
  {
    hide Shapes;
    assert [] + [CompleteRun(Number(mine as real))] == [CompleteRun(Number(mine as real))];
  }

  lemma {:induction false} ReplayConcludes(theirs: int, moment: Moment)
    ensures ClockReader().On(OvertakenHistory(theirs), moment).Decide() ==
            Decided(CompletedRun(Number(theirs as real), [CompleteRun(Number(theirs as real))]), None)
  {
    ReplayReadsRecordedTime(theirs, moment);
    OvertakenFacts(theirs);
    assert [] + [CompleteRun(Number(theirs as real))] == [CompleteRun(Number(theirs as real))];
    hide Shapes, PatchIds, Decider.Run;
  }

  lemma {:induction false} OvertakenConcludes(mine: int, theirs: int, moment: Moment)
    ensures Advance(ClockReader(), Overtaken(mine), OvertakenHistory(theirs), moment).1 ==
            Advanced(Decided(CompletedRun(Number(mine as real), [CompleteRun(Number(mine as real))]), None))
  {
    var full := OvertakenHistory(theirs);
    var task := ClockReader().On(full, moment);
    LaterReading(mine, theirs, moment);
    OvertakenFacts(theirs);
    CheckPasses(mine, theirs);
    DoneConcludes(task, Fed(task, Overtaken(mine)), [RecordTime(mine)], mine);
    assert [RunStarted("clock", Null)] + full[1..] == full;
    hide Times, Shapes, Fed, EmittedAreRecorded, AllSupported, Conclusion;
  }

  /**
   Looking only at ids and at how many times were recorded is not enough: a session that
   another worker overtook passes its check, and completes with the time it was told
   itself where a replay completes with the time on record.
   */
  lemma {:induction false} StaleClockPassesTheCheck(mine: int, theirs: int, at: Moment, moment: Moment)
    requires mine != theirs && at.triggeredAt == Some(mine)
    ensures var first := Advance(ClockReader(), NewSession(ClockReader()), [RunStarted("clock", Null)], at);
            first.1 == Advanced(Decided(Suspended([RecordTime(mine)]), None)) &&
            Advance(ClockReader(), first.0, OvertakenHistory(theirs), moment).1 ==
              Advanced(Decided(CompletedRun(Number(mine as real), [CompleteRun(Number(mine as real))]), None)) &&
            ClockReader().On(OvertakenHistory(theirs), moment).Decide() ==
              Decided(CompletedRun(Number(theirs as real), [CompleteRun(Number(theirs as real))]), None)
  {
    FirstReading(mine, at);
    OvertakenConcludes(mine, theirs, moment);
    ReplayConcludes(theirs, moment);
    hide *;
  }
}
