/**
 Exactly when a kept session that passes its own check is where a replay is
 (packages/core/src/workflow/live-session.ts): the check looks for ids and counts times,
 and what decides is whether the slice begins with the commands and the times that were
 emitted, as they were emitted.
 */
module CacheExactness {
  import opened WorkflowTypes
  import opened CommandMatching
  import opened Replay
  import opened ReplayFacts
  import opened ReplayMonotone
  import opened GeneratedHistories
  import opened LiveKnowledge
  import opened LiveReplay
  import opened CacheAgreement
  import ReplayAnswers

  // ---- what a handler's observations tell of its replay ------------------------------------

  /** The commands issued and the times told along a trace, and which of the commands were refused. */
  datatype Account = Account(steps: nat, timers: nat, issued: seq<CommandShape>, refused: seq<bool>, times: seq<int>)

  predicate IsRefusal(seen: Observation) {
    seen.Answered? && seen.answer.Raised?
  }

  function AccountOf(handler: Handler, trace: seq<Observation>): (account: Account)
    ensures |account.refused| == |account.issued|
  {
    if |trace| <= 1 then Account(0, 0, [], [], [])
    else
      var before, last := AccountOf(handler, trace[..|trace| - 1]), trace[|trace| - 1];
      match handler.next(trace[..|trace| - 1])
      case Do(Step(stepType, input)) =>
        before.(steps := before.steps + 1, issued := before.issued + [StepShape(before.steps + 1, stepType, input)],
                refused := before.refused + [IsRefusal(last)])
      case Do(Sleep(Finite(ms))) =>
        if ms < 0 then before
        else before.(timers := before.timers + 1, issued := before.issued + [TimerShape(before.timers + 1, Some(ms))],
                     refused := before.refused + [IsRefusal(last)])
      case Do(Now) => if last.Answered? && last.answer.Instant? then before.(times := before.times + [last.answer.time]) else before
      case _ => before
  }

  /** A longer trace begins with the same account. */
  lemma {:induction false} AccountGrows(handler: Handler, trace: seq<Observation>, longer: seq<Observation>)
    requires trace <= longer
    ensures AccountOf(handler, trace).issued <= AccountOf(handler, longer).issued
    ensures AccountOf(handler, trace).refused <= AccountOf(handler, longer).refused
    ensures AccountOf(handler, trace).times <= AccountOf(handler, longer).times
    decreases |longer|
  {
    if |trace| < |longer| {
      AccountGrows(handler, trace, longer[..|longer| - 1]);
    } else {
      assert trace == longer;
    }
  }

  /** A command was refused exactly when the history recorded another in its place. */
  predicate IsJudged(history: seq<Event>, issued: seq<CommandShape>, refused: seq<bool>)
    requires |refused| == |issued|
  {
    forall k :: 0 <= k < |issued| ==>
      (refused[k] <==> k < |Shapes(history)| && !SameCommand(Shapes(history)[k], issued[k]))
  }

  predicate AreRecorded(history: seq<Event>, times: seq<int>) {
    forall k :: 0 <= k < |times| && k < |Times(history)| ==> times[k] == Times(history)[k]
  }

  /** A replay's journal is the account of its trace, and the history decided what was refused and told. */
  ghost predicate IsAccounted(a: Decider, m: Machine) {
    var account := AccountOf(a.handler, m.trace);
    m.trace != [] && m.counters.steps == account.steps && m.counters.timers == account.timers &&
    m.journal.issued == account.issued && m.journal.times == account.times &&
    IsJudged(a.history, account.issued, account.refused) && AreRecorded(a.history, account.times)
  }

  lemma {:induction false} AccountSnoc(handler: Handler, trace: seq<Observation>, seen: Observation)
    requires trace != []
    ensures (trace + [seen])[..|trace + [seen]| - 1] == trace && |trace + [seen]| > 1
  {
  }

  lemma {:induction false} CommandIsAccounted(a: Decider, m: Machine, shape: CommandShape, command: Command, wait: Wait, fed: nat)
    ensures var (after, answer) := a.IssueAndWait(m, shape, command, true, wait, fed);
            after.trace == m.trace && after.counters == m.counters && after.journal.issued == m.journal.issued + [shape] &&
            after.journal.times == m.journal.times &&
            (answer.Raised? <==> |m.journal.issued| < |Shapes(a.history)| && !SameCommand(Shapes(a.history)[|m.journal.issued|], shape))
  {
    IssueKeeps(a, m, shape, command, true, wait, fed);
    hide Find, Shapes, SameCommand, Decider.Register, Decider.IssueNew;
  }

  lemma {:induction false} JudgedOneMore(history: seq<Event>, issued: seq<CommandShape>, refused: seq<bool>, shape: CommandShape, no: bool)
    requires |refused| == |issued| && IsJudged(history, issued, refused)
    requires no <==> |issued| < |Shapes(history)| && !SameCommand(Shapes(history)[|issued|], shape)
    ensures IsJudged(history, issued + [shape], refused + [no])
  {
    hide Shapes, SameCommand;
  }

  /** A command issued along the trace, and its answer, in the account. */
  lemma {:induction false} IssueIsAccounted(a: Decider, m: Machine, counters: Counters, shape: CommandShape, command: Command,
      wait: Wait, fed: nat)
    requires IsAccounted(a, m)
    requires var before := AccountOf(a.handler, m.trace);
             var (after, answer) := a.IssueAndWait(m.(counters := counters), shape, command, true, wait, fed);
             AccountOf(a.handler, m.trace + [Answered(answer)]) ==
               Account(counters.steps, counters.timers, before.issued + [shape], before.refused + [answer.Raised?], before.times)
    ensures var (after, answer) := a.IssueAndWait(m.(counters := counters), shape, command, true, wait, fed);
            IsAccounted(a, after.(trace := m.trace + [Answered(answer)]))
  {
    var before := AccountOf(a.handler, m.trace);
    var (after, answer) := a.IssueAndWait(m.(counters := counters), shape, command, true, wait, fed);
    CommandIsAccounted(a, m.(counters := counters), shape, command, wait, fed);
    hide Decider.IssueAndWait, IsJudged, AreRecorded, AccountOf;
    JudgedOneMore(a.history, before.issued, before.refused, shape, answer.Raised?);
  }

  lemma {:induction false} StepIsAccounted(a: Decider, m: Machine, stepType: string, input: Json, fed: nat)
    requires IsAccounted(a, m) && a.handler.next(m.trace) == Do(Step(stepType, input))
    ensures IsAccounted(a, a.Turn(m, fed))
  {
    hide Decider.IssueAndWait, IsJudged, AreRecorded;
    var id := m.counters.steps + 1;
    var (after, answer) := a.AnswerStep(m, stepType, input, fed);
    AccountSnoc(a.handler, m.trace, Answered(answer));
    IssueIsAccounted(a, m, m.counters.(steps := id), StepShape(id, stepType, input), ScheduleStep(id, stepType, input), OnStep(id, stepType), fed);
  }

  lemma {:induction false} SleepIsAccounted(a: Decider, m: Machine, ms: nat, fed: nat)
    requires IsAccounted(a, m) && a.handler.next(m.trace) == Do(Sleep(Finite(ms)))
    ensures IsAccounted(a, a.Turn(m, fed))
  {
    hide Decider.IssueAndWait, IsJudged, AreRecorded;
    var id := m.counters.timers + 1;
    var (after, answer) := a.AnswerSleep(m, Finite(ms), fed);
    AccountSnoc(a.handler, m.trace, Answered(answer));
    var fireAt := a.moment.clock(m.journal.Asked()) + ms;
    IssueIsAccounted(a, m, m.counters.(timers := id), TimerShape(id, Some(ms)), StartTimer(id, fireAt, ms), OnTimer(id), fed);
  }

  lemma {:induction false} NowIsAccounted(a: Decider, m: Machine, fed: nat)
    requires IsAccounted(a, m) && a.handler.next(m.trace) == Do(Now)
    ensures IsAccounted(a, a.Turn(m, fed))
  {
    hide IsJudged, Times;
    var (after, answer) := a.AnswerNow(m);
    AccountSnoc(a.handler, m.trace, Answered(answer));
  }

  lemma {:induction false} OtherCallIsAccounted(a: Decider, m: Machine, fed: nat)
    requires IsAccounted(a, m) && a.handler.next(m.trace).Do?
    requires var call := a.handler.next(m.trace).call;
             call.WaitForSignal? || call.Draw? || (call.Sleep? && (call.duration.NotFinite? || call.duration.ms < 0))
    ensures IsAccounted(a, a.Turn(m, fed))
  {
    hide IsJudged, AreRecorded, Find;
    var (after, answer) := a.AnswerCall(m, a.handler.next(m.trace).call, fed);
    AccountSnoc(a.handler, m.trace, Answered(answer));
  }

  lemma {:induction false} CallIsAccounted(a: Decider, m: Machine, fed: nat)
    requires IsAccounted(a, m) && a.handler.next(m.trace).Do? && CanResume(a.handler.next(m.trace).call)
    ensures IsAccounted(a, a.Turn(m, fed))
  {
    hide IsAccounted, Decider.Turn;
    match a.handler.next(m.trace).call
    case Step(stepType, input) => StepIsAccounted(a, m, stepType, input, fed);
    case Now => NowIsAccounted(a, m, fed);
    case Sleep(duration) =>
      if duration.Finite? && duration.ms >= 0 {
        SleepIsAccounted(a, m, duration.ms, fed);
      } else {
        OtherCallIsAccounted(a, m, fed);
      }
    case _ => OtherCallIsAccounted(a, m, fed);
  }

  lemma {:induction false} TurnIsAccounted(a: Decider, m: Machine, fed: nat)
    requires IsAccounted(a, m) && !a.AtRest(m) && !AsksTooMuch(a.handler, m.trace)
    ensures IsAccounted(a, a.Turn(m, fed))
  {
    if a.handler.next(m.trace).Do? {
      CallIsAccounted(a, m, fed);
    } else {
      var after := a.Turn(m, fed);
      AccountSnoc(a.handler, m.trace, after.trace[|m.trace|]);
      hide IsJudged, AreRecorded;
    }
  }

  lemma {:induction false} DrainIsAccounted(a: Decider, m: Machine, fed: nat, turns: nat)
    requires IsAccounted(a, m) && !Strays(a.handler, a.Drain(m, fed, turns).trace)
    ensures IsAccounted(a, a.Drain(m, fed, turns))
    decreases turns
  {
    BeforeDrain(a, m, fed, turns);
    hide Decider.Turn, IsJudged, AreRecorded, AccountOf;
    if !(m.hung || a.AtRest(m)) && turns != 0 {
      TurnIsAccounted(a, m, fed);
      DrainIsAccounted(a, a.Turn(m, fed), fed, turns - 1);
    }
  }

  lemma {:induction false} RunIsAccounted(a: Decider, count: nat)
    requires count <= |a.history| && !Strays(a.handler, a.RunTo(count).trace)
    ensures IsAccounted(a, a.RunTo(count))
  {
    hide Decider.Drain, Releases, Strays;
    if count == 0 {
      FreshIsAccounted(a);
      DrainIsAccounted(a, a.Fresh(), 0, a.settings.maxTurns);
    } else {
      BeforeRun(a, count - 1, count);
      if Strays(a.handler, a.RunTo(count - 1).trace) {
        StraysOn(a.handler, a.RunTo(count - 1).trace, a.RunTo(count).trace);
      }
      RunIsAccounted(a, count - 1);
      var m := a.RunTo(count - 1);
      var ready := m.(queue := m.queue + Releases(a.history, m.promises, count - 1));
      SameAccount(a, m, ready);
      hide IsAccounted;
      if !m.hung {
        DrainIsAccounted(a, ready, count, a.settings.maxTurns);
      }
    }
  }

  lemma SameAccount(a: Decider, m: Machine, other: Machine)
    requires IsAccounted(a, m) && other.trace == m.trace && other.counters == m.counters && other.journal == m.journal
    ensures IsAccounted(a, other)
  {
  }

  lemma FreshIsAccounted(a: Decider)
    ensures IsAccounted(a, a.Fresh())
  {
  }

  // ---- ids -------------------------------------------------------------------------------------

  datatype CommandId = StepId(n: nat) | TimerId(n: nat) | NoId

  function IdOf(shape: CommandShape): CommandId {
    match shape
    case StepShape(id, _, _) => StepId(id)
    case TimerShape(id, _) => TimerId(id)
    case _ => NoId
  }

  function Ids(shapes: seq<CommandShape>): set<CommandId> {
    set i | 0 <= i < |shapes| :: IdOf(shapes[i])
  }

  predicate AreDistinct(shapes: seq<CommandShape>) {
    forall i, j :: 0 <= i < j < |shapes| ==> IdOf(shapes[i]) != IdOf(shapes[j])
  }

  predicate IsWithin(id: CommandId, steps: nat, timers: nat) {
    (id.StepId? && id.n <= steps) || (id.TimerId? && id.n <= timers)
  }

  /** Every command of an account is a step or a timer with an id of its own. */
  predicate HasOwnIds(account: Account) {
    (forall i :: 0 <= i < |account.issued| ==> IsWithin(IdOf(account.issued[i]), account.steps, account.timers)) &&
    AreDistinct(account.issued)
  }

  lemma {:induction false} OneMoreId(account: Account, shape: CommandShape, next: Account)
    requires HasOwnIds(account) && next.issued == account.issued + [shape]
    requires account.steps <= next.steps && account.timers <= next.timers
    requires IsWithin(IdOf(shape), next.steps, next.timers) && !IsWithin(IdOf(shape), account.steps, account.timers)
    ensures HasOwnIds(next)
  {
  }

  lemma {:induction false} IdsAreDistinct(handler: Handler, trace: seq<Observation>)
    ensures HasOwnIds(AccountOf(handler, trace))
  {
    if |trace| > 1 {
      IdsAreDistinct(handler, trace[..|trace| - 1]);
      var before, next := AccountOf(handler, trace[..|trace| - 1]), AccountOf(handler, trace);
      if |next.issued| > |before.issued| {
        OneMoreId(before, next.issued[|before.issued|], next);
      }
    }
  }

  lemma {:induction false} IdsAtMost(shapes: seq<CommandShape>)
    ensures |Ids(shapes)| <= |shapes|
  {
    if shapes != [] {
      var rest := shapes[..|shapes| - 1];
      IdsAtMost(rest);
      assert Ids(shapes) == Ids(rest) + {IdOf(shapes[|shapes| - 1])};
    }
  }

  lemma {:induction false} DistinctIdsAsMany(shapes: seq<CommandShape>)
    requires AreDistinct(shapes)
    ensures |Ids(shapes)| == |shapes|
  {
    if shapes != [] {
      var rest, last := shapes[..|shapes| - 1], IdOf(shapes[|shapes| - 1]);
      DistinctIdsAsMany(rest);
      assert Ids(shapes) == Ids(rest) + {last} && last !in Ids(rest);
    }
  }

  lemma {:induction false} EventHasShape(history: seq<Event>, event: Event)
    requires event in history && RecordedCommandOf(event).Some?
    ensures RecordedCommandOf(event).value in Shapes(history)
  {
    var last := |history| - 1;
    if event != history[last] {
      assert event in history[..last];
      EventHasShape(history[..last], event);
    }
  }

  lemma {:induction false} EmittedIdIsRecorded(emitted: seq<Command>, slice: seq<Event>, k: nat)
    requires k < |ShapesOf(emitted)| && EmittedAreRecorded(emitted, slice) && IdOf(ShapesOf(emitted)[k]) != NoId
    ensures IdOf(ShapesOf(emitted)[k]) in Ids(Shapes(slice))
  {
    ShapeHasEvent(CommandsToEvents(emitted), k);
    var event :| event in CommandsToEvents(emitted) && RecordedCommandOf(event) == Some(ShapesOf(emitted)[k]);
    var i :| 0 <= i < |emitted| && CommandToEvent(emitted[i]) == event;
    assert IsRecordedIn(emitted[i], slice);
    hide Shapes, EmittedAreRecorded;
    if emitted[i].ScheduleStep? {
      var recorded :| recorded in slice && recorded.StepScheduled? && recorded.stepId == emitted[i].stepId;
      EventHasShape(slice, recorded);
    } else {
      var recorded :| recorded in slice && recorded.TimerStarted? && recorded.timerId == emitted[i].timerId;
      EventHasShape(slice, recorded);
    }
  }

  /** A slice that passes the check holds at least as many commands as were emitted. */
  lemma {:induction false} EnoughIsRecorded(emitted: seq<Command>, slice: seq<Event>)
    requires EmittedAreRecorded(emitted, slice)
    requires forall i :: 0 <= i < |ShapesOf(emitted)| ==> IdOf(ShapesOf(emitted)[i]) != NoId
    requires AreDistinct(ShapesOf(emitted))
    ensures |ShapesOf(emitted)| <= |Shapes(slice)|
  {
    forall id | id in Ids(ShapesOf(emitted))
      ensures id in Ids(Shapes(slice))
    {
      var k :| 0 <= k < |ShapesOf(emitted)| && IdOf(ShapesOf(emitted)[k]) == id;
      EmittedIdIsRecorded(emitted, slice, k);
    }
    hide ShapesOf, Shapes, EmittedAreRecorded;
    DistinctIdsAsMany(ShapesOf(emitted));
    IdsAtMost(Shapes(slice));
    Within(Ids(ShapesOf(emitted)), Ids(Shapes(slice)));
  }

  lemma {:induction false} Within(few: set<CommandId>, many: set<CommandId>)
    requires few <= many
    ensures |few| <= |many|
  {
    assert many == few + (many - few);
  }

  // ---- exactly when ----------------------------------------------------------------------------

  /** The slice begins with the commands and the times that were emitted, as they were emitted. */
  predicate BeginsAsEmitted(emitted: seq<Command>, slice: seq<Event>) {
    TimesOf(emitted) <= Times(slice) && |ShapesOf(emitted)| <= |Shapes(slice)| &&
    forall k :: 0 <= k < |ShapesOf(emitted)| ==> SameCommand(Shapes(slice)[k], ShapesOf(emitted)[k])
  }

  /** What a kept session emitted is what its last decision issued and told past the history. */
  lemma {:induction false} EmittedIsTheTail(s: Session, last: Decider)
    requires StandsAt(s, last)
    ensures ShapesOf(s.emitted) == Tail(last.Run().journal.issued, |Shapes(last.history)|)
    ensures TimesOf(s.emitted) == Tail(last.Run().journal.times, |Times(last.history)|)
    ensures s.history == last.history && !last.Run().journal.alarmed && |Shapes(last.history)| <= |last.Run().journal.issued|
  {
    FaithfulRun(last, |last.history|);
    hide Shapes, Times, ShapesOf, TimesOf, Tracks, OneOutcome, Plausible, Decider.RunTo;
  }

  /** A slice that begins so continues what the session has seen. */
  lemma {:induction false} BeginningFollows(s: Session, last: Decider, next: Decider)
    requires StandsAt(s, last) && next == last.(history := next.history, moment := next.moment)
    requires s.history <= next.history && AllSupported(next.history)
    requires BeginsAsEmitted(s.emitted, next.history[|s.history|..])
    ensures Follows(last, next)
  {
    hide Shapes, Times, ShapesOf, TimesOf, SameCommand, AllSupported, PatchIds, Decider.Run;
    EmittedIsTheTail(s, last);
    var slice := next.history[|s.history|..];
    assert next.history == last.history + slice;
    ShapesConcat(last.history, slice);
    TimesConcat(last.history, slice);
    NoPatches(next.history);
    hide StandsAt;
  }

  lemma {:induction false} TurnGrows(task: Decider, live: Live)
    requires !task.AtRest(live.machine)
    ensures live.machine.trace <= LiveTurn(task, live).machine.trace
  {
    hide LiveCall;
  }

  lemma {:induction false} DrainGrows(task: Decider, live: Live, turns: nat)
    ensures live.machine.trace <= LiveDrain(task, live, turns).machine.trace
    decreases turns
  {
    hide LiveTurn;
    if !(live.machine.hung || task.AtRest(live.machine)) && turns != 0 {
      TurnGrows(task, live);
      DrainGrows(task, LiveTurn(task, live), turns - 1);
    }
  }

  lemma {:induction false} FeedGrows(task: Decider, live: Live, start: nat, stop: nat)
    requires start <= stop <= |task.history|
    ensures live.machine.trace <= LiveFeed(task, live, start, stop).machine.trace
    decreases stop
  {
    hide LiveDrain;
    if start < stop {
      FeedGrows(task, live, start, stop - 1);
      var before := LiveFeed(task, live, start, stop - 1);
      DrainGrows(task, before.Hear(task.history[stop - 1]), task.settings.maxTurns);
    }
  }

  /** The handler is not run from the top again: what it observed stays observed. */
  lemma {:induction false} FedGrows(task: Decider, s: Session)
    requires |s.history| <= |task.history|
    ensures s.live.machine.trace <= Fed(task, s).machine.trace
  {
    var kept := s.live.(machine := s.live.machine.(commands := []));
    DrainGrows(task, kept, task.settings.maxTurns);
    FeedGrows(task, LiveDrain(task, kept, task.settings.maxTurns), |s.history|, |task.history|);
    hide LiveDrain, LiveFeed;
  }

  /** On both histories the commands and times are accounted for by the traces, of which one begins the other. */
  lemma {:induction false} BothAreAccounted(last: Decider, next: Decider)
    requires next == last.(history := next.history, moment := next.moment)
    requires last.Run().trace <= next.Run().trace && !Strays(next.handler, next.Run().trace) && !last.Run().journal.alarmed
    ensures var early, late := AccountOf(last.handler, last.Run().trace), AccountOf(last.handler, next.Run().trace);
            last.Run().journal.issued == early.issued && last.Run().journal.times == early.times && HasOwnIds(early) &&
            early.issued <= late.issued && early.times <= late.times && early.refused <= late.refused &&
            (forall k :: 0 <= k < |early.issued| ==> !early.refused[k]) &&
            IsJudged(next.history, late.issued, late.refused) && AreRecorded(next.history, late.times)
  {
    if Strays(last.handler, last.Run().trace) {
      StraysOn(last.handler, last.Run().trace, next.Run().trace);
    }
    hide Strays, AccountOf, Decider.RunTo, Shapes, Times, SameCommand, Ordered;
    RunIsAccounted(last, |last.history|);
    RunIsAccounted(next, |next.history|);
    AccountedRun(last, |last.history|);
    AccountGrows(last.handler, last.Run().trace, next.Run().trace);
    IdsAreDistinct(last.handler, last.Run().trace);
  }

  /** What was never refused is recorded as it was issued, as far as the history goes. */
  lemma {:induction false} ShapesBegin(recorded: seq<CommandShape>, history: seq<Event>, early: seq<CommandShape>, late: Account, start: nat, k: nat)
    requires early <= late.issued && |late.refused| == |late.issued| && IsJudged(history, late.issued, late.refused)
    requires start + k < |early| && start + k < |Shapes(history)| && !late.refused[start + k]
    requires k < |recorded| && Shapes(history)[start + k] == recorded[k]
    ensures SameCommand(recorded[k], early[start + k])
  {
    hide Shapes, SameCommand;
  }

  /** A replay that repeats the session's trace met what was emitted in the places it was emitted for. */
  lemma {:induction false} RepeatingBegins(s: Session, last: Decider, next: Decider)
    requires StandsAt(s, last) && next == last.(history := next.history, moment := next.moment)
    requires s.history <= next.history && EmittedAreRecorded(s.emitted, next.history[|s.history|..])
    requires last.Run().trace <= next.Run().trace && !Strays(next.handler, next.Run().trace)
    ensures BeginsAsEmitted(s.emitted, next.history[|s.history|..])
  {
    hide Shapes, Times, ShapesOf, TimesOf, StandsAt, SameCommand, Decider.Run, AccountOf, EmittedAreRecorded, Strays;
    EmittedIsTheTail(s, last);
    var slice, start := next.history[|s.history|..], |Shapes(last.history)|;
    assert next.history == last.history + slice;
    ShapesConcat(last.history, slice);
    TimesConcat(last.history, slice);
    BothAreAccounted(last, next);
    var early, late := AccountOf(last.handler, last.Run().trace), AccountOf(last.handler, next.Run().trace);
    hide IsJudged, AreRecorded;
    TailIsDistinct(early, start);
    EnoughIsRecorded(s.emitted, slice);
    TimesEnough(s.emitted, slice);
    hide HasOwnIds, AreDistinct;
    TimesBegin(last.history, slice, early.times, late.times, TimesOf(s.emitted));
    forall k | 0 <= k < |ShapesOf(s.emitted)|
      ensures SameCommand(Shapes(slice)[k], ShapesOf(s.emitted)[k])
    {
      assert late.refused[start + k] == early.refused[start + k];
      ShapesBegin(Shapes(slice), next.history, early.issued, late, start, k);
    }
  }

  lemma TimesEnough(emitted: seq<Command>, slice: seq<Event>)
    requires EmittedAreRecorded(emitted, slice)
    ensures |TimesOf(emitted)| <= |Times(slice)|
  {
  }

  lemma {:induction false} TailIsDistinct(account: Account, start: nat)
    requires HasOwnIds(account) && start <= |account.issued|
    ensures var rest := Tail(account.issued, start);
            AreDistinct(rest) && forall i :: 0 <= i < |rest| ==> IdOf(rest[i]) != NoId
  {
  }

  lemma {:induction false} TimesBegin(history: seq<Event>, slice: seq<Event>, early: seq<int>, late: seq<int>, emitted: seq<int>)
    requires early <= late && AreRecorded(history + slice, late) && Times(history + slice) == Times(history) + Times(slice)
    requires emitted == Tail(early, |Times(history)|)
    ensures |emitted| <= |Times(slice)| ==> emitted <= Times(slice)
  {
    if |emitted| <= |Times(slice)| {
      forall k | 0 <= k < |emitted|
        ensures emitted[k] == Times(slice)[k]
      {
        var at := |Times(history)| + k;
        assert late[at] == early[at] == emitted[k] && Times(history + slice)[at] == Times(slice)[k];
      }
    }
  }

  /**
   Exactly when a kept session may be believed. Given a history that goes on from the one it
   saw and passes its check, and a handler that makes only calls it can resume after: the
   handler observes what a replay of the whole history observes if and only if the new events
   begin with the commands and the times the session emitted.
   */
  lemma {:induction false} AgreesExactlyWhenBegunAsEmitted(workflow: Workflow, s: Session, last: Decider, full: seq<Event>, moment: Moment)
    requires StandsAt(s, last) && last == workflow.On(last.history, last.moment) && s.history <= full && IsFeedable(full)
    requires EmittedAreRecorded(s.emitted, full[|s.history|..])
    requires !Strays(workflow.handler, workflow.On(full, moment).Run().trace)
    ensures var next := workflow.On(full, moment);
            Fed(next, s).machine.trace == next.Run().trace <==> BeginsAsEmitted(s.emitted, full[|s.history|..])
  {
    var next := workflow.On(full, moment);
    TraceOfSession(s, last);
    hide Decider.Run, OneOutcome, Plausible, EmittedAreRecorded, AllSupported, Fed, Strays, StandsAt, BeginsAsEmitted, Follows;
    if BeginsAsEmitted(s.emitted, full[|s.history|..]) {
      BeginningFollows(s, last, next);
      FollowingAgrees(s, last, next);
    }
    if Fed(next, s).machine.trace == next.Run().trace {
      FedGrows(next, s);
      RepeatingBegins(s, last, next);
    }
  }

  lemma TraceOfSession(s: Session, last: Decider)
    requires StandsAt(s, last)
    ensures s.live.machine.trace == last.Run().trace && s.history == last.history
  {
  }

  lemma {:induction false} FollowingAgrees(s: Session, last: Decider, next: Decider)
    requires StandsAt(s, last) && next == last.(history := next.history, moment := next.moment) && Follows(last, next)
    requires IsFeedable(next.history) && !Strays(next.handler, next.Run().trace) && |s.history| <= |next.history|
    ensures Fed(next, s).machine.trace == next.Run().trace
  {
    RebaseTracks(last, next, s.live);
    hide OneOutcome, Plausible, LiveDrain, Decider.RunTo, LiveFeed, IsAt, Strays, Tracks, EmittedAreRecorded, Continues, Covers;
    FedAgrees(next, s);
    assert IsAt(next, Fed(next, s), |next.history|);
    AtHasTrace(next, Fed(next, s));
  }

  lemma AtHasTrace(task: Decider, live: Live)
    requires IsAt(task, live, |task.history|)
    ensures live.machine.trace == task.Run().trace
  {
  }

  /** The session then decides what the replay decides. */
  lemma {:induction false} DecidesWhenBegunAsEmitted(workflow: Workflow, s: Session, last: Decider, full: seq<Event>, moment: Moment)
    requires StandsAt(s, last) && last == workflow.On(last.history, last.moment) && s.history <= full && IsFeedable(full)
    requires BeginsAsEmitted(s.emitted, full[|s.history|..])
    requires !Swallows(workflow.On(full, moment)) && !Strays(workflow.handler, workflow.On(full, moment).Run().trace)
    ensures Advance(workflow, s, full, moment).1 == Advanced(workflow.On(full, moment).Decide())
  {
    hide Decider.Run, OneOutcome, Plausible, EmittedAreRecorded, AllSupported, Fed, Strays, StandsAt, BeginsAsEmitted, Follows, Swallows, Advance;
    BeginningFollows(s, last, workflow.On(full, moment));
    LaterAdvanceAgrees(workflow, s, last, full, moment);
  }

  /** Whatever resumed a kept handler answers one of its calls as the events say, without a replay in between. */
  lemma {:induction false} KeptSessionHears(s: Session, last: Decider)
    requires StandsAt(s, last)
    ensures ReplayAnswers.HearsRightly(last.handler, s.history, |s.history|, s.live.machine.trace)
  {
    TraceOfSession(s, last);
    hide StandsAt, Decider.RunTo, ReplayAnswers.HearsRightly;
    ReplayAnswers.RunHears(last, |last.history|);
  }

  /** And so when it is fed a history that begins with what it emitted. */
  lemma {:induction false} FedSessionHears(workflow: Workflow, s: Session, last: Decider, full: seq<Event>, moment: Moment)
    requires StandsAt(s, last) && last == workflow.On(last.history, last.moment) && s.history <= full && IsFeedable(full)
    requires EmittedAreRecorded(s.emitted, full[|s.history|..]) && BeginsAsEmitted(s.emitted, full[|s.history|..])
    requires !Strays(workflow.handler, workflow.On(full, moment).Run().trace)
    ensures ReplayAnswers.HearsRightly(workflow.handler, full, |full|, Fed(workflow.On(full, moment), s).machine.trace)
  {
    hide Decider.RunTo, OneOutcome, Plausible, EmittedAreRecorded, AllSupported, Fed, Strays, StandsAt, BeginsAsEmitted,
         ReplayAnswers.HearsRightly;
    AgreesExactlyWhenBegunAsEmitted(workflow, s, last, full, moment);
    ReplayAnswers.RunHears(workflow.On(full, moment), |full|);
  }

  // ---- one advance after the other ---------------------------------------------------------------

  /** A history handed to a session, and the moment it decides at. */
  datatype Feed = Feed(history: seq<Event>, moment: Moment)

  function TaskOf(workflow: Workflow, feed: Feed): Decider {
    workflow.On(feed.history, feed.moment)
  }

  /** The session after the feeds were handed to it, one after the other. */
  function SessionAfter(workflow: Workflow, feeds: seq<Feed>): Session {
    if feeds == [] then NewSession(workflow)
    else
      var last := feeds[|feeds| - 1];
      Advance(workflow, SessionAfter(workflow, feeds[..|feeds| - 1]), last.history, last.moment).0
  }

  /** What the session says to the feed at `i`. */
  function AnswerTo(workflow: Workflow, feeds: seq<Feed>, i: nat): LiveAdvance
    requires i < |feeds|
  {
    Advance(workflow, SessionAfter(workflow, feeds[..i]), feeds[i].history, feeds[i].moment).1
  }

  ghost predicate IsPlainFeed(workflow: Workflow, feed: Feed) {
    IsFeedable(feed.history) && !Swallows(TaskOf(workflow, feed)) && !Strays(workflow.handler, TaskOf(workflow, feed).Run().trace)
  }

  /** The next history goes on from this one, with what a suspended decision on this one found. */
  ghost predicate GoesOn(workflow: Workflow, feed: Feed, next: Feed) {
    var verdict := TaskOf(workflow, feed).Decide();
    verdict.Decided? && verdict.decision.Suspended? && feed.history <= next.history &&
    BeginsAsEmitted(verdict.decision.commands, next.history[|feed.history|..])
  }

  /** A history cut into slices, of which each begins with what the decision before it found. */
  ghost predicate IsCut(workflow: Workflow, feeds: seq<Feed>) {
    (forall i :: 0 <= i < |feeds| ==> IsPlainFeed(workflow, feeds[i])) &&
    forall i :: 0 <= i < |feeds| - 1 ==> GoesOn(workflow, feeds[i], feeds[i + 1])
  }

  lemma {:induction false} StandsAfter(workflow: Workflow, feeds: seq<Feed>, n: nat)
    requires IsCut(workflow, feeds) && 0 < n < |feeds|
    ensures StandsAt(SessionAfter(workflow, feeds[..n]), TaskOf(workflow, feeds[n - 1]))
    decreases n
  {
    hide Advance, StandsAt, IsFeedable, Swallows, Strays, Decider.Decide, BeginsAsEmitted;
    assert feeds[..n][..n - 1] == feeds[..n - 1];
    assert IsPlainFeed(workflow, feeds[n - 1]) && GoesOn(workflow, feeds[n - 1], feeds[n]);
    if n == 1 {
      FirstAdvanceAgrees(workflow, feeds[0].history, feeds[0].moment);
    } else {
      StandsAfter(workflow, feeds, n - 1);
      assert GoesOn(workflow, feeds[n - 2], feeds[n - 1]);
      NextFollows(workflow, SessionAfter(workflow, feeds[..n - 1]), feeds[n - 2], feeds[n - 1]);
      LaterAdvanceAgrees(workflow, SessionAfter(workflow, feeds[..n - 1]), TaskOf(workflow, feeds[n - 2]),
                         feeds[n - 1].history, feeds[n - 1].moment);
    }
  }

  lemma {:induction false} NextFollows(workflow: Workflow, s: Session, feed: Feed, next: Feed)
    requires StandsAt(s, TaskOf(workflow, feed)) && GoesOn(workflow, feed, next) && IsFeedable(next.history)
    ensures Follows(TaskOf(workflow, feed), TaskOf(workflow, next))
  {
    SuspendedFound(TaskOf(workflow, feed));
    EmittedWasFound(s, TaskOf(workflow, feed));
    hide StandsAt, Decider.Decide, BeginsAsEmitted, Decider.Run, OneOutcome, Plausible;
    BeginningFollows(s, TaskOf(workflow, feed), TaskOf(workflow, next));
  }

  lemma SuspendedFound(task: Decider)
    ensures var verdict := task.Decide();
            verdict.Decided? && verdict.decision.Suspended? ==> verdict.decision.commands == task.Run().commands
  {
    hide Decider.Run, Shapes, PatchIds;
  }

  lemma EmittedWasFound(s: Session, last: Decider)
    requires StandsAt(s, last)
    ensures s.emitted == last.Run().commands && s.history == last.history
  {
  }

  /**
   Every history cut into slices, each beginning with what the decision before it found: handed
   to a session one after the other, each is decided as a replay of all up to it decides.
   */
  lemma {:induction false} EveryAdvanceDecides(workflow: Workflow, feeds: seq<Feed>, i: nat)
    requires IsCut(workflow, feeds) && i < |feeds|
    ensures AnswerTo(workflow, feeds, i) == Advanced(TaskOf(workflow, feeds[i]).Decide())
  {
    hide Advance, StandsAt, IsFeedable, Swallows, Strays, Decider.Decide, BeginsAsEmitted;
    assert IsPlainFeed(workflow, feeds[i]);
    if i == 0 {
      assert feeds[..0] == [];
      FirstAdvanceAgrees(workflow, feeds[0].history, feeds[0].moment);
    } else {
      StandsAfter(workflow, feeds, i);
      assert GoesOn(workflow, feeds[i - 1], feeds[i]);
      NextFollows(workflow, SessionAfter(workflow, feeds[..i]), feeds[i - 1], feeds[i]);
      LaterAdvanceAgrees(workflow, SessionAfter(workflow, feeds[..i]), TaskOf(workflow, feeds[i - 1]), feeds[i].history, feeds[i].moment);
    }
  }

  // ---- a step of another type passes the check ---------------------------------------------------

  /** Runs step "a" and completes when it does; fails with whatever the call throws. */
  function StepCaller(): Workflow {
    Workflow(Handler((trace: seq<Observation>) =>
               if |trace| == 1 then Do(Step("a", Null))
               else if |trace| == 2 && trace[1].Answered? && trace[1].answer.Raised? then Settle(Failed(trace[1].answer.error))
               else if |trace| == 3 && trace[2].Resumed? then Settle(Completed(Null))
               else Idle),
             Null, Settings(0, _ => Null, 4, None, None))
  }

  const MISMATCH: WorkflowError := NonDeterminism(Some(StepShape(1, "b", Null)), Some(StepShape(1, "a", Null)))

  /** What another worker, running other code, recorded from the same state. */
  const OTHER_STEP: seq<Event> := [RunStarted("steps", Null), StepScheduled(1, "b", Null), StepCompleted(1, Null)]

  function Calling(commands: seq<Command>): Machine {
    Machine([Started(Null), Answered(Promised(0))], [], [Promise(OnStep(1, "a"), None)], Counters(1, 0, 0, 0, map[]),
            Journal([StepShape(1, "a", Null)], [], map[], {}, false), commands, None, None, false)
  }

  /** The session that scheduled step "a" and waits for it. */
  function Calls(commands: seq<Command>): Live {
    Live(Calling(commands), Knowledge(map[], {}, map[]), map[StepKey(1) := [Waiter(0, OnStep(1, "a"))]], false)
  }

  function Caller(): Session {
    Session([RunStarted("steps", Null)], Calls([ScheduleStep(1, "a", Null)]), [ScheduleStep(1, "a", Null)], true, false)
  }

  lemma {:induction false} OtherParts()
    ensures var h := OTHER_STEP;
            h[..1] == [h[0]] && h[..2] == [h[0]] + [h[1]] && h == h[..2] + [h[2]] && h == h[..1] + h[1..] && AllSupported(h)
  {
  }

  lemma {:induction false} OtherFacts()
    ensures Shapes(OTHER_STEP) == [StepShape(1, "b", Null)] && Times(OTHER_STEP) == [] && PatchIds(OTHER_STEP) == {}
    ensures OTHER_STEP[..1] == [RunStarted("steps", Null)] && OTHER_STEP == OTHER_STEP[..1] + OTHER_STEP[1..]
    ensures Shapes(OTHER_STEP[..1]) == [] && Times(OTHER_STEP[..1]) == [] && AllSupported(OTHER_STEP)
  {
    hide Shapes, Times, PatchIds, AllSupported;
    var h := OTHER_STEP;
    OtherParts();
    SingleEvent(h[0]);
    SingleEvent(h[1]);
    SingleEvent(h[2]);
    ShapesConcat([h[0]], [h[1]]);
    ShapesConcat(h[..2], [h[2]]);
    TimesConcat([h[0]], [h[1]]);
    TimesConcat(h[..2], [h[2]]);
    NoPatches(h);
  }

  lemma {:induction false} CallerStarts(task: Decider)
    requires task == StepCaller().On(OTHER_STEP[..1], task.moment)
    ensures LiveDrain(task, LiveStart(Null), 4) == Calls([ScheduleStep(1, "a", Null)])
  {
    OtherFacts();
    hide Times, Shapes, Find, FindFrom, PatchIds, Settles;
    var l0, waiter := LiveStart(Null), Waiter(0, OnStep(1, "a"));
    assert [] + [waiter] == [waiter];
    var l1 := LiveTurn(task, l0);
    assert l1.machine == Calling([ScheduleStep(1, "a", Null)]);
    assert l1 == Calls([ScheduleStep(1, "a", Null)]);
    assert LiveDrain(task, l1, 3) == l1;
  }

  lemma {:induction false} CallerIsFed(task: Decider)
    requires task == StepCaller().On(OTHER_STEP[..1], task.moment)
    ensures Fed(task, NewSession(StepCaller())) == Caller().live
  {
    CallerStarts(task);
    OtherFacts();
    var l0, l1 := LiveStart(Null), Caller().live;
    hide LiveDrain;
    assert LiveFeed(task, l1, 0, 0) == l1;
    assert l1.Hear(task.history[0]) == l1;
    hide Calling, Live.Hear;
    assert LiveFeed(task, l1, 0, 1) == l1;
    assert l0.(machine := l0.machine.(commands := [])) == l0;
  }

  lemma {:induction false} CallerSuspends(at: Moment)
    ensures Advance(StepCaller(), NewSession(StepCaller()), OTHER_STEP[..1], at) ==
            (Caller(), Advanced(Decided(Suspended([ScheduleStep(1, "a", Null)]), None)))
  {
    var h := OTHER_STEP[..1];
    var task := StepCaller().On(h, at);
    CallerIsFed(task);
    OtherFacts();
    assert h[0..] == h && [] + h == h && TimesOf([]) == [];
    hide LiveDrain, Shapes, Times, Fed, LiveStart;
  }

  lemma {:induction false} CallerHears(task: Decider)
    requires task == StepCaller().On(OTHER_STEP, task.moment)
    ensures var next := Fed(task, Caller());
            next.machine == Calling([]).(trace := Calling([]).trace + [Resumed(0, Fulfilled(Null)), Answered(Acknowledged)],
                                         settled := Some(Completed(Null))) && !next.unsupported
  {
    OtherFacts();
    hide Times, Shapes, Find, FindFrom, PatchIds, Settles, LiveCall, Decider.AnswerCall;
    var kept := Calls([]);
    assert LiveDrain(task, kept, 4) == kept;
    assert kept.Hear(OTHER_STEP[1]) == kept;
    var heard := kept.Hear(OTHER_STEP[2]);
    var pending := [Waiter(0, OnStep(1, "a"))];
    var known := kept.known.Learn(OTHER_STEP[2]);
    assert pending[..0] == [];
    assert Woken(known, pending) == [Ready(0, Fulfilled(Null))];
    assert heard.machine == Calling([]).(queue := [Ready(0, Fulfilled(Null))]) && !heard.unsupported;
    var resumed := LiveTurn(task, heard);
    assert resumed == heard.(machine := Calling([]).(trace := Calling([]).trace + [Resumed(0, Fulfilled(Null))]));
    var settled := LiveTurn(task, resumed);
    assert LiveDrain(task, settled, 2) == settled;
    assert LiveDrain(task, resumed, 3) == settled;
    assert LiveDrain(task, heard, 4) == settled;
    hide LiveDrain, Live.Hear;
    assert LiveFeed(task, kept, 1, 1) == kept;
    assert LiveFeed(task, kept, 1, 2) == kept;
    assert LiveFeed(task, kept, 1, 3) == LiveDeliver(task, kept, task.history[2]);
  }

  lemma {:induction false} CallerPasses()
    ensures EmittedAreRecorded(Caller().emitted, OTHER_STEP[1..])
  {
    OtherFacts();
    assert OTHER_STEP[1] in OTHER_STEP[1..];
    SingleEvent(StepScheduled(1, "a", Null));
    assert CommandsToEvents([ScheduleStep(1, "a", Null)]) == [StepScheduled(1, "a", Null)];
    hide Shapes, Times;
  }

  lemma {:induction false} CallerConcludes(task: Decider, live: Live)
    requires Shapes(task.history) == [StepShape(1, "b", Null)] && task.settings.warningThreshold.None?
    requires live.machine.settled == Some(Completed(Null)) && live.machine.commands == [] && !live.machine.hung && !live.unsupported
    requires live.machine.journal.issued == [StepShape(1, "a", Null)]
    ensures Conclusion(task, live, []).1 == Advanced(Decided(CompletedRun(Null, [CompleteRun(Null)]), None))
    ensures Conclusion(task, live, Caller().emitted).1 == Conclusion(task, live, []).1
  {
    hide Shapes;
    assert [] + [CompleteRun(Null)] == [CompleteRun(Null)];
  }

  lemma {:induction false} CallerCompletes(moment: Moment)
    ensures Advance(StepCaller(), Caller(), OTHER_STEP, moment).1 ==
            Advanced(Decided(CompletedRun(Null, [CompleteRun(Null)]), None))
  {
    var task := StepCaller().On(OTHER_STEP, moment);
    CallerHears(task);
    OtherFacts();
    CallerPasses();
    CallerConcludes(task, Fed(task, Caller()));
    assert Caller().history + OTHER_STEP[1..] == OTHER_STEP;
    hide Shapes, Times, Fed, Conclusion, EmittedAreRecorded, AllSupported;
  }

  lemma {:induction false} CallerIsRefused(moment: Moment)
    ensures StepCaller().On(OTHER_STEP, moment).Decide() == ThrewMismatch(MISMATCH)
  {
    var task := StepCaller().On(OTHER_STEP, moment);
    OtherFacts();
    hide Times, Shapes, Find, FindFrom, PatchIds, Settles;
    var m0 := task.Fresh();
    var m1 := task.Turn(m0, 0);
    assert m1.trace == [Started(Null), Answered(Raised(MISMATCH))] && m1.promises == [] && m1.queue == [];
    var m2 := task.Turn(m1, 0);
    assert m2.settled == Some(Failed(MISMATCH)) && m2.promises == [] && task.AtRest(m2) && !m2.hung;
    assert task.Drain(m1, 0, 3) == m2;
    assert task.RunTo(0) == m2;
    hide Decider.Drain;
    SkipStep(task, 0);
    SkipStep(task, 1);
    SkipStep(task, 2);
    assert task.RunTo(3) == m2;
  }

  /**
   The check does not look at what a step is either: a session that scheduled step "a" is fed a
   history in which another worker scheduled step "b" by the same id. It passes the check and
   completes, where a replay refuses the history.
   */
  lemma {:induction false} OtherStepPassesTheCheck(at: Moment, moment: Moment)
    ensures var first := Advance(StepCaller(), NewSession(StepCaller()), OTHER_STEP[..1], at);
            first.1 == Advanced(Decided(Suspended([ScheduleStep(1, "a", Null)]), None)) &&
            EmittedAreRecorded(first.0.emitted, OTHER_STEP[1..]) &&
            Advance(StepCaller(), first.0, OTHER_STEP, moment).1 == Advanced(Decided(CompletedRun(Null, [CompleteRun(Null)]), None)) &&
            StepCaller().On(OTHER_STEP, moment).Decide() == ThrewMismatch(MISMATCH)
  {
    CallerSuspends(at);
    CallerPasses();
    CallerCompletes(moment);
    CallerIsRefused(moment);
    hide Advance, Decider.Decide, EmittedAreRecorded;
  }
}
