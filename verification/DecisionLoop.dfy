/**
 The replay loop as it is written (packages/core/src/workflow/decision-loop.ts):
 counters, a map from history index to the promises to release there, and a loop that
 feeds the smallest index next. It is proved to decide what `Replay` says.
 */
module DecisionLoop {
  import opened WorkflowTypes
  import opened CommandMatching
  import opened Replay
  import opened ReplayFacts
  import opened ReplayMonotone

  /** The promises due at `index`, in creation order. */
  function DueIds(promises: seq<Promise>, index: nat): seq<nat> {
    if promises == [] then []
    else
      var last := |promises| - 1;
      DueIds(promises[..last], index) +
      if promises[last].due.Some? && promises[last].due.value.index == index then [last] else []
  }

  /** The resolutions of the given promises by the event at `index`. */
  function Resolutions(history: seq<Event>, promises: seq<Promise>, ids: seq<nat>): (ready: seq<Ready>)
    requires forall k :: 0 <= k < |ids| ==>
      ids[k] < |promises| && promises[ids[k]].due.Some? && promises[ids[k]].due.value.index < |history|
    ensures |ready| == |ids|
  {
    seq(|ids|, k requires 0 <= k < |ids| =>
      Ready(ids[k], OutcomeOf(history, promises[ids[k]].due.value)))
  }

  lemma {:induction false} DueIdsRange(promises: seq<Promise>, index: nat)
    ensures forall k :: 0 <= k < |DueIds(promises, index)| ==>
      var id := DueIds(promises, index)[k];
      id < |promises| && promises[id].due.Some? && promises[id].due.value.index == index
  {
    if promises != [] {
      DueIdsRange(promises[..|promises| - 1], index);
    }
  }

  lemma {:induction false} ReleasesAreResolutions(history: seq<Event>, promises: seq<Promise>, index: nat)
    requires index < |history|
    ensures forall k :: 0 <= k < |DueIds(promises, index)| ==>
      var id := DueIds(promises, index)[k];
      id < |promises| && promises[id].due.Some? && promises[id].due.value.index < |history|
    ensures Releases(history, promises, index) == Resolutions(history, promises, DueIds(promises, index))
  {
    DueIdsRange(promises, index);
    if promises != [] {
      var last := |promises| - 1;
      ReleasesAreResolutions(history, promises[..last], index);
      var fewer := DueIds(promises[..last], index);
      forall k | 0 <= k < |fewer|
        ensures Resolutions(history, promises[..last], fewer)[k] == Resolutions(history, promises, DueIds(promises, index))[k]
      {
      }
    }
  }

  lemma {:induction false} DueIdsSnoc(promises: seq<Promise>, promise: Promise)
    ensures forall index: nat ::
      (DueIds(promises + [promise], index) ==
       DueIds(promises, index) +
       if promise.due.Some? && promise.due.value.index == index then [|promises|] else [])
  {
    assert (promises + [promise])[..|promises|] == promises;
  }

  /** `deliveries` holds, for every index past `fed`, the promises to release there. */
  predicate Queued(promises: seq<Promise>, deliveries: map<nat, seq<nat>>, fed: int, count: nat) {
    -1 <= fed < count &&
    (forall index :: index in deliveries ==> fed < index < count && deliveries[index] != []) &&
    (forall index: nat :: fed < index < count ==>
       DueIds(promises, index) == if index in deliveries then deliveries[index] else [])
  }

  /** `deliveries` with one more promise to release at `index`. */
  function Enqueue(deliveries: map<nat, seq<nat>>, index: nat, id: nat): map<nat, seq<nat>> {
    deliveries[index := (if index in deliveries then deliveries[index] else []) + [id]]
  }

  lemma {:induction false} EnqueueKeepsQueued(promises: seq<Promise>, deliveries: map<nat, seq<nat>>, fed: int,
                                              count: nat, promise: Promise)
    requires Queued(promises, deliveries, fed, count)
    requires promise.due.Some? ==> promise.due.value.index < count
    ensures Queued(promises + [promise],
                   if promise.due.None? || promise.due.value.index <= fed then deliveries
                   else Enqueue(deliveries, promise.due.value.index, |promises|), fed, count)
  {
    DueIdsSnoc(promises, promise);
  }

  lemma {:induction false} ReleaseKeepsQueued(promises: seq<Promise>, deliveries: map<nat, seq<nat>>, fed: int,
                                              index: nat, count: nat)
    requires Queued(promises, deliveries, fed, count) && index in deliveries
    requires forall other :: other in deliveries ==> index <= other
    ensures Queued(promises, deliveries - {index}, index, count)
  {
    hide DueIds;
  }

  lemma {:induction false} DeliveryIsDue(promises: seq<Promise>, deliveries: map<nat, seq<nat>>, fed: int, index: nat, count: nat)
    requires Queued(promises, deliveries, fed, count) && index in deliveries
    ensures index < count && deliveries[index] == DueIds(promises, index)
  {
    assert fed < index < count;
  }

  class ReplayContext {
    const task: Decider
    const matcher: CommandMatcher
    const recordedPatchIds: set<string>
    const recordedCommandCount: nat
    const recordedTimes: seq<int>

    var trace: seq<Observation>
    var ready: seq<Ready>
    var promises: seq<Promise>
    var stepSequence: nat
    var timerSequence: nat
    var childSequence: nat
    var timeCalls: nat
    var drawCalls: nat
    var signalSequences: map<string, nat>
    var deliveries: map<nat, seq<nat>>
    var fedUpTo: int
    var patchDecisions: map<string, bool>
    var consultedPatches: set<string>
    var newCommands: seq<Command>
    var continuation: Option<Json>
    var settled: Option<Settlement>
    var hung: bool
    ghost var issuedLog: seq<CommandShape>
    ghost var timesLog: seq<int>
    ghost var alarmed: bool

    /** The machine this context stands for. */
    ghost function State(): Machine
      reads this
    {
      Machine(trace, ready, promises,
              Counters(stepSequence, timerSequence, childSequence, drawCalls, signalSequences),
              Journal(issuedLog, timesLog, patchDecisions, consultedPatches, alarmed),
              newCommands, continuation, settled, hung)
    }

    ghost predicate Valid()
      reads this, matcher
    {
      matcher.recorded == Shapes(task.history) &&
      matcher.issued == |issuedLog| &&
      recordedPatchIds == PatchIds(task.history) &&
      recordedCommandCount == CommandCount(task.history) &&
      recordedTimes == Times(task.history) &&
      timeCalls == |timesLog| && -1 <= fedUpTo &&
      Queued(promises, deliveries, fedUpTo, |task.history|)
    }

    constructor (task: Decider)
      ensures Valid() && fresh(this) && fresh(matcher)
      ensures this.task == task && State() == task.Fresh() && fedUpTo == -1
    {
      this.task := task;
      var commands := new CommandMatcher();
      this.matcher := commands;
      recordedPatchIds := PatchIds(task.history);
      recordedCommandCount := CommandCount(task.history);
      recordedTimes := Times(task.history);
      trace, ready, promises := [Started(task.input)], [], [];
      stepSequence, timerSequence, childSequence, timeCalls, drawCalls := 0, 0, 0, 0, 0;
      signalSequences, deliveries, fedUpTo := map[], map[], -1;
      patchDecisions, consultedPatches, newCommands := map[], {}, [];
      continuation, settled, hung := None, None, false;
      issuedLog, timesLog, alarmed := [], [], false;
      new;
      matcher.Record(Shapes(task.history));
    }

    /** A promise for the completion `due`: released now if it was fed already, else queued. */
    method CompletedAt(wait: Wait, due: Option<Due>) returns (answer: Answer)
      requires Valid() && (due.Some? ==> due.value.index < |task.history|)
      modifies this`promises, this`ready, this`deliveries
      ensures Valid()
      ensures State() == task.AddPromise(old(State()), wait, due, fedUpTo + 1)
      ensures answer == Promised(old(|promises|))
    {
      var id := |promises|;
      EnqueueKeepsQueued(promises, deliveries, fedUpTo, |task.history|, Promise(wait, due));
      hide Queued, DueIds, Shapes, Times, PatchIds, CommandCount, Settles, Settled, Enqueue;
      promises := promises + [Promise(wait, due)];
      if due.Some? {
        var index := due.value.index;
        if index <= fedUpTo {
          ready := ready + [Ready(id, OutcomeOf(task.history, due.value))];
        } else {
          deliveries := Enqueue(deliveries, index, id);
        }
      }
      answer := Promised(id);
    }

    method Issue(shape: CommandShape) returns (result: IssueResult)
      requires Valid()
      modifies this`issuedLog, this`alarmed, matcher
      ensures Valid()
      ensures result == task.Verdict(old(State()), shape)
      ensures State() == task.Issue(old(State()), shape)
    {
      result := matcher.Issue(shape);
      issuedLog := issuedLog + [shape];
      alarmed := alarmed || result.Mismatch?;
    }

    /** Issues a command and waits for it; it is newly found unless it was recorded, or completed if that counts. */
    method IssueAndWait(shape: CommandShape, command: Command, unlessDone: bool, wait: Wait) returns (answer: Answer)
      requires Valid()
      modifies matcher, this`issuedLog, this`alarmed, this`newCommands, this`promises, this`ready, this`deliveries
      ensures Valid()
      ensures (State(), answer) == task.IssueAndWait(old(State()), shape, command, unlessDone, wait, fedUpTo + 1)
    {
      hide Shapes, Times, PatchIds, CommandCount, Queued, Settles, FindFrom, IssueVerdict, ReplayContext.Valid, Decider.AddPromise;
      ghost var m0 := State();
      var recorded := Issue(shape);
      if recorded.Mismatch? {
        return Raised(recorded.error);
      }
      var due := task.DueOf(wait);
      if recorded.New? && !(unlessDone && due.Some?) {
        Push(command);
      }
      assert State() == task.IssueNew(m0, shape, command, unlessDone, wait);
      hide Decider.Issue, Decider.IssueNew, Decider.Verdict;
      answer := CompletedAt(wait, due);
    }

    /** One more command newly found. */
    method Push(command: Command)
      requires Valid()
      modifies this`newCommands
      ensures Valid() && newCommands == old(newCommands) + [command]
    {
      hide Queued, Shapes, Times, PatchIds, CommandCount;
      newCommands := newCommands + [command];
    }

    method Step(stepType: string, input: Json) returns (answer: Answer)
      requires Valid()
      modifies matcher, this`issuedLog, this`alarmed, this`newCommands, this`promises, this`ready, this`deliveries,
               this`stepSequence
      ensures Valid()
      ensures (State(), answer) == task.AnswerStep(old(State()), stepType, input, fedUpTo + 1)
    {
      hide Shapes, Times, PatchIds, CommandCount, Queued, Decider.IssueAndWait;
      stepSequence := stepSequence + 1;
      var stepId := stepSequence;
      answer := IssueAndWait(StepShape(stepId, stepType, input), ScheduleStep(stepId, stepType, input), true,
                             OnStep(stepId, stepType));
    }

    /** A promise that rejects at once. */
    method RejectSleep() returns (answer: Answer)
      requires Valid()
      modifies this`promises, this`ready, this`deliveries
      ensures Valid() && answer == Promised(old(|promises|))
      ensures State() == old(State()).(
        promises := old(promises) + [Promise(OnNothing, None)],
        queue := old(ready) + [Ready(old(|promises|), Rejected(InvalidSleepDuration))])
    {
      answer := CompletedAt(OnNothing, None);
      ready := ready + [Ready(answer.promise, Rejected(InvalidSleepDuration))];
    }

    method Sleep(duration: Duration) returns (answer: Answer)
      requires Valid()
      modifies matcher, this`issuedLog, this`alarmed, this`newCommands, this`promises, this`ready, this`deliveries,
               this`timerSequence
      ensures Valid()
      ensures (State(), answer) == task.AnswerSleep(old(State()), duration, fedUpTo + 1)
    {
      hide Shapes, Times, PatchIds, CommandCount, Queued, Decider.IssueAndWait;
      if duration.NotFinite? || duration.ms < 0 {
        answer := RejectSleep();
        return;
      }
      timerSequence := timerSequence + 1;
      var timerId := timerSequence;
      var fireAt := task.moment.clock(matcher.issued + timeCalls) + duration.ms;
      answer := IssueAndWait(TimerShape(timerId, Some(duration.ms)), StartTimer(timerId, fireAt, duration.ms), true,
                             OnTimer(timerId));
    }

    method WaitForSignal(name: string) returns (answer: Answer)
      requires Valid()
      modifies this`promises, this`ready, this`deliveries, this`signalSequences
      ensures Valid()
      ensures (State(), answer) == task.AnswerSignal(old(State()), name, fedUpTo + 1)
    {
      hide Shapes, Times, PatchIds, CommandCount, Queued, Decider.AddPromise;
      var consumed := SignalsTaken(signalSequences, name);
      signalSequences := signalSequences[name := consumed + 1];
      answer := CompletedAt(OnSignal(name, consumed), task.DueOf(OnSignal(name, consumed)));
    }

    method ExecuteChild(call: Call) returns (answer: Answer)
      requires Valid() && call.ExecuteChild?
      modifies matcher, this`issuedLog, this`alarmed, this`newCommands, this`promises, this`ready, this`deliveries,
               this`childSequence
      ensures Valid()
      ensures (State(), answer) == task.AnswerChild(old(State()), call, fedUpTo + 1)
    {
      hide Shapes, Times, PatchIds, CommandCount, Queued, Decider.IssueAndWait;
      childSequence := childSequence + 1;
      var childId := childSequence;
      if childId > task.settings.maxChildren {
        return Raised(ChildLimitExceeded(task.settings.maxChildren));
      }
      answer := IssueAndWait(ChildShape(childId, call.workflowType, call.input),
                             StartChild(childId, call.workflowType, call.input, call.policy,
                                        call.runTimeoutMs, call.executionTimeoutMs), false, OnChild(childId));
    }

    /** The branch with the smallest known history index, found by one pass over the branches. */
    method ChooseWinner(branches: seq<nat>) returns (winner: Option<nat>)
      ensures winner == Winner(promises, branches)
    {
      winner := None;
      for i := 0 to |branches|
        invariant winner == Winner(promises, branches[..i])
      {
        assert branches[..i + 1][..i] == branches[..i];
        if Placed(promises, branches[i]) &&
           (winner.None? ||
            promises[branches[i]].due.value.index < promises[branches[winner.value]].due.value.index) {
          winner := Some(i);
        }
      }
      assert branches[..|branches|] == branches;
    }

    method Select(branches: seq<nat>) returns (answer: Answer)
      requires Valid() && DuesSettle(task.history, promises)
      modifies this`promises, this`ready, this`deliveries
      ensures Valid()
      ensures (State(), answer) == task.AnswerSelect(old(State()), branches, fedUpTo + 1)
    {
      hide Shapes, Times, PatchIds, CommandCount, Queued, Decider.AddPromise, Settles;
      var winner := ChooseWinner(branches);
      if winner.None? {
        answer := CompletedAt(OnSelect, None);
      } else {
        answer := CompletedAt(OnSelect, Some(promises[branches[winner.value]].due.value.(branch := winner)));
      }
    }

    method DecidePatch(patchId: string) returns (answer: Answer)
      requires Valid()
      modifies matcher, this`issuedLog, this`alarmed, this`newCommands, this`patchDecisions, this`consultedPatches
      ensures Valid()
      ensures (State(), answer) == task.AnswerPatched(old(State()), patchId)
    {
      hide Shapes, Times, PatchIds, CommandCount, Queued, SameCommand;
      consultedPatches := consultedPatches + {patchId};
      if patchId in patchDecisions {
        return Flag(patchDecisions[patchId]);
      }
      if patchId !in recordedPatchIds && stepSequence + timerSequence + childSequence < recordedCommandCount {
        patchDecisions := patchDecisions[patchId := false];
        return Flag(false);
      }
      answer := TakeNewPath(patchId);
    }

    /** Issues the patch at the matcher's position, and records it if it is not recorded yet. */
    method TakeNewPath(patchId: string) returns (answer: Answer)
      requires Valid()
      modifies matcher, this`issuedLog, this`alarmed, this`newCommands, this`patchDecisions
      ensures Valid()
      ensures var m, shape := old(State()), PatchShape(patchId);
              var issued := task.Issue(m, shape);
              if task.Verdict(m, shape).Mismatch? then
                State() == issued && answer == Raised(task.Verdict(m, shape).error)
              else
                var found := if patchId in PatchIds(task.history) then issued
                             else issued.Push(RecordPatch(patchId, task.settings.buildId));
                State() == found.(journal := found.journal.(patches := m.journal.patches[patchId := true])) &&
                answer == Flag(true)
    {
      hide Shapes, Times, PatchIds, CommandCount, Queued, Decider.Verdict;
      var result := Issue(PatchShape(patchId));
      if result.Mismatch? {
        return Raised(result.error);
      }
      if patchId !in recordedPatchIds {
        newCommands := newCommands + [RecordPatch(patchId, task.settings.buildId)];
      }
      patchDecisions := patchDecisions[patchId := true];
      answer := Flag(true);
    }

    method Now() returns (answer: Answer)
      requires Valid()
      modifies this`timeCalls, this`timesLog, this`newCommands
      ensures Valid()
      ensures (State(), answer) == task.AnswerNow(old(State()))
    {
      hide Shapes, Times, PatchIds, CommandCount, Queued;
      var index := timeCalls;
      var time;
      if index < |recordedTimes| {
        time := recordedTimes[index];
      } else {
        time := if task.moment.triggeredAt.Some? then task.moment.triggeredAt.value
                else task.moment.clock(matcher.issued + timeCalls);
        newCommands := newCommands + [RecordTime(time)];
      }
      timeCalls := timeCalls + 1;
      timesLog := timesLog + [time];
      answer := Instant(time);
    }

    method Draw() returns (answer: Answer)
      requires Valid()
      modifies this`drawCalls
      ensures Valid()
      ensures (State(), answer) == task.AnswerCall(old(State()), WorkflowTypes.Call.Draw, fedUpTo + 1)
    {
      hide Shapes, Times, PatchIds, CommandCount, Queued;
      answer := Drawn(task.settings.draw(drawCalls));
      drawCalls := drawCalls + 1;
    }

    method ContinueWith(input: Json) returns (answer: Answer)
      requires Valid()
      modifies this`promises, this`ready, this`deliveries, this`continuation
      ensures Valid()
      ensures (State(), answer) == task.AnswerCall(old(State()), WorkflowTypes.Call.ContinueWith(input), fedUpTo + 1)
    {
      hide Shapes, Times, PatchIds, CommandCount, Queued;
      answer := CompletedAt(OnNothing, None);
      if continuation.None? {
        continuation := Some(input);
      }
    }

    method Call(call: Call) returns (answer: Answer)
      requires Valid() && DuesSettle(task.history, promises)
      modifies matcher, this`issuedLog, this`alarmed, this`newCommands, this`promises, this`ready, this`deliveries,
               this`stepSequence, this`timerSequence, this`childSequence, this`signalSequences, this`drawCalls,
               this`patchDecisions, this`consultedPatches, this`timeCalls, this`timesLog, this`continuation
      ensures Valid()
      ensures (State(), answer) == task.AnswerCall(old(State()), call, fedUpTo + 1)
    {
      hide Shapes, Times, PatchIds, CommandCount, Queued, Decider.AnswerStep, Decider.AnswerSleep, Decider.AnswerSignal,
           Decider.AnswerChild, Decider.AnswerSelect, Decider.AnswerPatched, Decider.AnswerNow,
           ReplayContext.State, ReplayContext.Valid;
      match call
      case Step(stepType, input) => answer := Step(stepType, input);
      case Sleep(duration) => answer := Sleep(duration);
      case WaitForSignal(name) => answer := WaitForSignal(name);
      case ExecuteChild(_, _, _, _, _) => answer := ExecuteChild(call);
      case Select(branches) => answer := Select(branches);
      case Patched(patchId) => answer := DecidePatch(patchId);
      case Now => answer := Now();
      case Draw => answer := Draw();
      case ContinueWith(input) => answer := ContinueWith(input);
      case OnCancel => answer := Acknowledged;
    }

    /** One turn of the handler: its next action, or the first ready promise when it waits. */
    method TakeTurn()
      requires Valid() && DuesSettle(task.history, promises) && !task.AtRest(State())
      modifies matcher, this`issuedLog, this`alarmed, this`newCommands, this`promises, this`ready, this`deliveries,
               this`stepSequence, this`timerSequence, this`childSequence, this`signalSequences, this`drawCalls,
               this`patchDecisions, this`consultedPatches, this`timeCalls, this`timesLog, this`continuation,
               this`trace, this`settled
      ensures Valid() && DuesSettle(task.history, promises)
      ensures State() == task.Turn(old(State()), fedUpTo + 1)
    {
      hide Decider.AnswerCall, DuesSettle, Shapes, Times, PatchIds, CommandCount, Queued;
      match task.handler.next(trace)
      case Idle =>
        var first := ready[0];
        ready := ready[1..];
        trace := trace + [Resumed(first.promise, first.outcome)];
      case Do(call) =>
        DuesSettleCall(task, State(), call, fedUpTo + 1);
        BeforeCall(task, State(), call, fedUpTo + 1);
        var answer := Call(call);
        trace := trace + [Answered(answer)];
      case Settle(settlement) =>
        if settled.None? {
          settled := Some(settlement);
        }
        trace := trace + [Answered(Acknowledged)];
    }

    /** Runs the handler until nothing is ready and it waits, or until its turns run out. */
    method DrainToQuiescence()
      requires Valid() && DuesSettle(task.history, promises)
      modifies matcher, this`issuedLog, this`alarmed, this`newCommands, this`promises, this`ready, this`deliveries,
               this`stepSequence, this`timerSequence, this`childSequence, this`signalSequences, this`drawCalls,
               this`patchDecisions, this`consultedPatches, this`timeCalls, this`timesLog, this`continuation,
               this`trace, this`settled, this`hung
      ensures Valid() && DuesSettle(task.history, promises)
      ensures State() == task.Drain(old(State()), fedUpTo + 1, task.settings.maxTurns)
    {
      hide Decider.Turn, DuesSettle, Shapes, Times, PatchIds, CommandCount, Queued;
      var turns := task.settings.maxTurns;
      while !hung && !(ready == [] && task.handler.next(trace).Idle?)
        invariant Valid() && DuesSettle(task.history, promises)
        invariant task.Drain(State(), fedUpTo + 1, turns) ==
                  task.Drain(old(State()), fedUpTo + 1, task.settings.maxTurns)
        decreases turns, !hung
      {
        if turns == 0 {
          hung := true;
        } else {
          turns := turns - 1;
          TakeTurn();
        }
      }
    }

    /** The smallest index with a queued delivery. */
    method NextDelivery() returns (next: nat)
      requires Valid() && deliveries != map[]
      ensures next in deliveries && forall index :: index in deliveries ==> next <= index
    {
      var keys := deliveries.Keys;
      next :| next in deliveries;
      keys := keys - {next};
      while keys != {}
        invariant keys <= deliveries.Keys && next in deliveries
        invariant forall index :: index in deliveries && index !in keys ==> next <= index
        decreases keys
      {
        var index :| index in keys;
        keys := keys - {index};
        if index < next {
          next := index;
        }
      }
    }

    /** Releases the promises due at history index `index`, which becomes the last index fed. */
    method Release(index: nat)
      requires Valid() && index in deliveries && forall other :: other in deliveries ==> index <= other
      modifies this`ready, this`deliveries, this`fedUpTo
      ensures Valid() && fedUpTo == index
      ensures State() == old(State()).(queue := old(ready) + Releases(task.history, promises, index))
    {
      ReleaseKeepsQueued(promises, deliveries, fedUpTo, index, |task.history|);
      DeliveryIsDue(promises, deliveries, fedUpTo, index, |task.history|);
      ReleasesAreResolutions(task.history, promises, index);
      hide *;
      MakeReady(index);
      Pass(index);
    }

    /** What is queued at `index` becomes ready. */
    method MakeReady(index: nat)
      requires Valid() && index in deliveries
      requires forall k :: 0 <= k < |deliveries[index]| ==>
        var id := deliveries[index][k];
        id < |promises| && promises[id].due.Some? && promises[id].due.value.index < |task.history|
      modifies this`ready
      ensures Valid() && ready == old(ready) + Resolutions(task.history, promises, deliveries[index])
      ensures State() == old(State()).(queue := ready)
    {
      hide Queued, Shapes, Times, PatchIds, CommandCount, Resolutions;
      ready := ready + Resolutions(task.history, promises, deliveries[index]);
    }

    /** `index` was fed. */
    method Pass(index: nat)
      requires Valid() && Queued(promises, deliveries - {index}, index, |task.history|)
      modifies this`deliveries, this`fedUpTo
      ensures Valid() && fedUpTo == index && State() == old(State())
    {
      hide Queued, Shapes, Times, PatchIds, CommandCount;
      fedUpTo := index;
      deliveries := deliveries - {index};
    }

    /** Feeds the recorded completions in history order, draining after each. */
    method FeedHistory()
      requires Valid() && fedUpTo == -1 && State() == task.RunTo(0)
      modifies this, matcher
      ensures Valid() && State() == task.Run()
    {
      hide Decider.Drain, Releases, DuesSettle, DueIds;
      DuesSettleRun(task, 0);
      while !hung && deliveries != map[]
        invariant Valid() && DuesSettle(task.history, promises)
        invariant State() == task.RunTo(fedUpTo + 1)
        decreases |task.history| - fedUpTo
      {
        var next := NextDelivery();
        NothingDueBefore(next);
        SkipTo(task, fedUpTo + 1, next);
        Release(next);
        DrainToQuiescence();
        assert State() == task.Deliver(task.RunTo(next), next);
      }
      if hung {
        HungStaysHung(task, fedUpTo + 1);
      } else {
        NothingDueBefore(|task.history|);
        SkipTo(task, fedUpTo + 1, |task.history|);
      }
    }

    /** No promise is due between the last index fed and the next queued delivery. */
    lemma NothingDueBefore(next: nat)
      requires Valid() && fedUpTo < next <= |task.history|
      requires forall index :: index in deliveries ==> next <= index
      ensures forall index :: fedUpTo < index < next ==> Releases(task.history, promises, index) == []
    {
      forall index: nat | fedUpTo < index < next
        ensures Releases(task.history, promises, index) == []
      {
        assert DueIds(promises, index) == [];
        ReleasesAreResolutions(task.history, promises, index);
      }
    }
  }

  lemma {:induction false} HungStaysHung(a: Decider, count: nat)
    requires count <= |a.history| && a.RunTo(count).hung
    ensures a.Run() == a.RunTo(count)
    decreases |a.history| - count
  {
    if count < |a.history| {
      HungStaysHung(a, count + 1);
    }
  }

  /** Replays a handler over a history from the top, and decides. */
  method RunDecisionLoop(task: Decider) returns (verdict: Verdict)
    ensures verdict == task.Decide()
  {
    hide Decider.Drain, Decider.RunTo;
    var context := new ReplayContext(task);
    assert context.State() == task.Fresh();
    assert DuesSettle(task.history, context.promises);
    context.DrainToQuiescence();
    RunToZero(task);
    context.FeedHistory();
    if context.hung {
      return Hung;
    }
    var unconsulted := context.recordedPatchIds - context.consultedPatches;
    if unconsulted != {} {
      return ThrewVersionMismatch(unconsulted);
    }
    if context.settled.Some? && context.settled.value.Failed? && IsIntegrityError(context.settled.value.error) {
      return ThrewMismatch(context.settled.value.error);
    }
    var unissued := context.matcher.AssertAllIssued();
    if unissued.Some? {
      return ThrewMismatch(unissued.value);
    }
    var warning := Warning(task.settings, |task.history|);
    if context.continuation.Some? {
      var input := context.continuation.value;
      return Decided(ContinuedAsNew(input, [ContinueAsNew(input)]), warning);
    }
    var commands := context.newCommands;
    match context.settled
    case None => verdict := Decided(Suspended(commands), warning);
    case Some(Completed(result)) =>
      verdict := Decided(CompletedRun(result, commands + [CompleteRun(result)]), warning);
    case Some(Failed(error)) =>
      verdict := Decided(FailedRun(error, commands + [FailRun(ToRecordedError(error))]), warning);
  }

  lemma RunToZero(task: Decider)
    ensures task.RunTo(0) == task.Drain(task.Fresh(), 0, task.settings.maxTurns)
  {
  }
}
