/**
 The loop behind `ctx.all()` and `ctx.allSettled()` (packages/core/src/workflow/parallel.ts)
 on a replayed history: it starts tasks in index order up to a limit, and waits for the one
 running task the history settles first. A task is given by what its promise waits for.
 */
module Parallel {
  import opened WorkflowTypes
  import opened Replay
  import opened ReplayMonotone
  import ReplayAnswers

  datatype Mode = All | AllSettled

  datatype Step = Starts(task: nat) | Settles(task: nat)

  /** The tasks, how many may run at once, and whether the first rejection ends the loop. */
  datatype Setup = Setup(waits: seq<Wait>, limit: nat, mode: Mode)

  datatype Result =
    | Returned(outcomes: seq<Outcome>)
    | Threw(error: WorkflowError)
    | Waits
    | BadConcurrency

  // ---- what a trace says ---------------------------------------------------------------------

  /** The tasks started, in the order they were. */
  function Started(trace: seq<Step>): seq<nat> {
    if trace == [] then []
    else
      var last := trace[|trace| - 1];
      Started(trace[..|trace| - 1]) + if last.Starts? then [last.task] else []
  }

  function Without(tasks: seq<nat>, task: nat): (rest: seq<nat>)
    ensures forall i :: i in rest <==> i in tasks && i != task
  {
    if tasks == [] then []
    else (if tasks[0] == task then [] else [tasks[0]]) + Without(tasks[1..], task)
  }

  /** The tasks in flight, in the order they were started. */
  function Running(trace: seq<Step>): seq<nat> {
    if trace == [] then []
    else
      var last, before := trace[|trace| - 1], Running(trace[..|trace| - 1]);
      if last.Starts? then before + [last.task] else Without(before, last.task)
  }

  function SettledCount(trace: seq<Step>): nat {
    if trace == [] then 0
    else SettledCount(trace[..|trace| - 1]) + if trace[|trace| - 1].Settles? then 1 else 0
  }

  // ---- what the history says -------------------------------------------------------------------

  predicate IsKnown(setup: Setup, history: seq<Event>, task: nat) {
    task < |setup.waits| && Find(history, setup.waits[task]).Some?
  }

  function PositionOf(setup: Setup, history: seq<Event>, task: nat): nat
    requires IsKnown(setup, history, task)
  {
    Find(history, setup.waits[task]).value
  }

  function OutcomeFor(setup: Setup, history: seq<Event>, task: nat): (outcome: Outcome)
    requires IsKnown(setup, history, task)
    ensures outcome.Fulfilled? || outcome.Rejected?
  {
    Settled(history[PositionOf(setup, history, task)], setup.waits[task])
  }

  /** What a task came to is what the first event for it says. */
  lemma {:induction false} OutcomeIsAnswer(setup: Setup, history: seq<Event>, task: nat)
    requires IsKnown(setup, history, task)
    ensures ReplayAnswers.IsAnswer(history, |history|, setup.waits[task], OutcomeFor(setup, history, task))
  {
    ReplayAnswers.FirstIsForIt(history, PositionOf(setup, history, task), setup.waits[task]);
    hide FindFrom, ReplayAnswers.IsEventFor, ReplayAnswers.Says, Settled;
  }

  /** Of the running tasks, the one settled first; on a tie, the one started first. */
  function Chosen(setup: Setup, history: seq<Event>, running: seq<nat>): (task: Option<nat>)
    ensures task.Some? ==> task.value in running && IsKnown(setup, history, task.value)
  {
    if running == [] then None
    else
      var best, last := Chosen(setup, history, running[..|running| - 1]), running[|running| - 1];
      if IsKnown(setup, history, last) &&
         (best.None? || PositionOf(setup, history, last) < PositionOf(setup, history, best.value))
      then Some(last) else best
  }

  /** The loop has thrown: under `All`, the task that settled last was rejected. */
  predicate HasThrown(setup: Setup, history: seq<Event>, trace: seq<Step>) {
    setup.mode.All? && trace != [] && trace[|trace| - 1].Settles? && IsKnown(setup, history, trace[|trace| - 1].task) &&
    OutcomeFor(setup, history, trace[|trace| - 1].task).Rejected?
  }

  /** The one step the loop takes after a trace, if it takes any. */
  function NextStep(setup: Setup, history: seq<Event>, trace: seq<Step>): Option<Step> {
    if SettledCount(trace) >= |setup.waits| || HasThrown(setup, history, trace) then None
    else if |Started(trace)| < |setup.waits| && |Running(trace)| < setup.limit then Some(Starts(|Started(trace)|))
    else match Chosen(setup, history, Running(trace))
      case Some(task) => Some(Settles(task))
      case None => None
  }

  /** A trace of the loop: every step is the one it takes there. */
  ghost predicate IsTrace(setup: Setup, history: seq<Event>, trace: seq<Step>) {
    forall k :: 0 <= k < |trace| ==> NextStep(setup, history, trace[..k]) == Some(trace[k])
  }

  lemma {:induction false} EarlierTrace(setup: Setup, history: seq<Event>, trace: seq<Step>, n: nat)
    requires IsTrace(setup, history, trace) && n <= |trace|
    ensures IsTrace(setup, history, trace[..n])
  {
    forall k | 0 <= k < n
      ensures NextStep(setup, history, trace[..n][..k]) == Some(trace[..n][k])
    {
      assert trace[..n][..k] == trace[..k];
    }
  }

  lemma {:induction false} LongerTrace(setup: Setup, history: seq<Event>, trace: seq<Step>, step: Step)
    requires IsTrace(setup, history, trace) && NextStep(setup, history, trace) == Some(step)
    ensures IsTrace(setup, history, trace + [step])
  {
    var longer := trace + [step];
    forall k | 0 <= k < |longer|
      ensures NextStep(setup, history, longer[..k]) == Some(longer[k])
    {
      assert longer[..k] == trace[..k];
      assert k == |trace| ==> trace[..k] == trace;
    }
  }

  /** The last step of a trace. */
  lemma {:induction false} LastStep(setup: Setup, history: seq<Event>, trace: seq<Step>)
    requires IsTrace(setup, history, trace) && trace != []
    ensures IsTrace(setup, history, trace[..|trace| - 1])
    ensures NextStep(setup, history, trace[..|trace| - 1]) == Some(trace[|trace| - 1])
  {
    hide NextStep;
    EarlierTrace(setup, history, trace, |trace| - 1);
  }

  // ---- what every trace keeps -------------------------------------------------------------------

  /** Tasks start once each, in index order. */
  lemma {:induction false} TasksStartInOrder(setup: Setup, history: seq<Event>, trace: seq<Step>)
    requires IsTrace(setup, history, trace)
    ensures |Started(trace)| <= |setup.waits| && forall i :: 0 <= i < |Started(trace)| ==> Started(trace)[i] == i
  {
    if trace != [] {
      var last := |trace| - 1;
      EarlierTrace(setup, history, trace, last);
      TasksStartInOrder(setup, history, trace[..last]);
      hide Chosen, Running, SettledCount, IsTrace;
      assert NextStep(setup, history, trace[..last]) == Some(trace[last]);
    }
  }

  lemma {:induction false} WithoutOne(tasks: seq<nat>, task: nat)
    requires task in tasks && AreDistinct(tasks)
    ensures |Without(tasks, task)| == |tasks| - 1 && AreDistinct(Without(tasks, task))
  {
    var rest := Without(tasks[1..], task);
    if tasks[0] == task {
      WithoutNone(tasks[1..], task);
    } else {
      WithoutOne(tasks[1..], task);
      assert tasks[0] !in rest;
    }
  }

  lemma {:induction false} WithoutNone(tasks: seq<nat>, task: nat)
    requires task !in tasks
    ensures Without(tasks, task) == tasks
  {
    if tasks != [] {
      WithoutNone(tasks[1..], task);
    }
  }

  predicate AreDistinct(tasks: seq<nat>) {
    forall i, j :: 0 <= i < j < |tasks| ==> tasks[i] != tasks[j]
  }

  lemma {:induction false} StillDistinct(tasks: seq<nat>, task: nat)
    requires AreDistinct(tasks) && task !in tasks
    ensures AreDistinct(tasks + [task])
  {
  }

  /** What the next step can be. */
  lemma {:induction false} StepIs(setup: Setup, history: seq<Event>, trace: seq<Step>, step: Step)
    requires NextStep(setup, history, trace) == Some(step)
    ensures step.Starts? ==> step.task == |Started(trace)| < |setup.waits| && |Running(trace)| < setup.limit
    ensures step.Settles? ==> step.task in Running(trace) && IsKnown(setup, history, step.task)
    ensures !HasThrown(setup, history, trace) && SettledCount(trace) < |setup.waits|
  {
    hide HasThrown, Started, Running, SettledCount, IsKnown;
  }

  /** How the counts move with one more step. */
  lemma {:induction false} OneMoreStep(trace: seq<Step>, step: Step)
    requires step.Starts? ==> forall i :: i in Running(trace) ==> i < step.task
    requires step.Settles? ==> step.task in Running(trace)
    requires AreDistinct(Running(trace))
    ensures AreDistinct(Running(trace + [step]))
    ensures Started(trace + [step]) == if step.Starts? then Started(trace) + [step.task] else Started(trace)
    ensures |Running(trace + [step])| == if step.Starts? then |Running(trace)| + 1 else |Running(trace)| - 1
    ensures SettledCount(trace + [step]) == if step.Starts? then SettledCount(trace) else SettledCount(trace) + 1
    ensures forall i :: i in Running(trace + [step]) ==> i in Running(trace) || step == Starts(i)
  {
    assert (trace + [step])[..|trace|] == trace;
    if step.Settles? {
      WithoutOne(Running(trace), step.task);
    } else {
      StillDistinct(Running(trace), step.task);
    }
    hide Without, AreDistinct;
  }

  /** The tasks in flight are started ones, each once, never more than the limit; the others have settled. */
  ghost predicate IsInLimit(setup: Setup, trace: seq<Step>) {
    |Running(trace)| <= setup.limit && |Running(trace)| + SettledCount(trace) == |Started(trace)| &&
    AreDistinct(Running(trace)) && forall i :: i in Running(trace) ==> i < |Started(trace)|
  }

  lemma {:induction false} StepStaysInLimit(setup: Setup, trace: seq<Step>, step: Step)
    requires IsInLimit(setup, trace)
    requires step.Starts? ==> step.task == |Started(trace)| && |Running(trace)| < setup.limit
    requires step.Settles? ==> step.task in Running(trace)
    ensures IsInLimit(setup, trace + [step])
  {
    hide Running, Started, SettledCount, AreDistinct;
    OneMoreStep(trace, step);
  }

  lemma {:induction false} NothingInFlight(setup: Setup)
    ensures IsInLimit(setup, [])
  {
  }

  lemma {:induction false} NeverTooMany(setup: Setup, history: seq<Event>, trace: seq<Step>)
    requires IsTrace(setup, history, trace)
    ensures IsInLimit(setup, trace)
  {
    hide *;
    if trace == [] {
      NothingInFlight(setup);
    } else {
      var before, step := trace[..|trace| - 1], trace[|trace| - 1];
      LastStep(setup, history, trace);
      NeverTooMany(setup, history, before);
      StepIs(setup, history, before, step);
      StepStaysInLimit(setup, before, step);
      assert trace == before + [step];
    }
  }

  /** A task that settles is in flight, and of those the history knows, none settles before it. */
  lemma {:induction false} EarliestSettles(setup: Setup, history: seq<Event>, trace: seq<Step>, k: nat)
    requires IsTrace(setup, history, trace) && k < |trace| && trace[k].Settles?
    ensures trace[k].task in Running(trace[..k]) && IsKnown(setup, history, trace[k].task)
    ensures forall i :: i in Running(trace[..k]) && IsKnown(setup, history, i) ==>
      PositionOf(setup, history, trace[k].task) <= PositionOf(setup, history, i)
  {
    ChosenIsEarliest(setup, history, Running(trace[..k]));
    hide Chosen, IsKnown, Running, Started;
  }

  lemma {:induction false} ChosenIsEarliest(setup: Setup, history: seq<Event>, running: seq<nat>)
    ensures var task := Chosen(setup, history, running);
            if task.None? then forall i :: i in running ==> !IsKnown(setup, history, i)
            else forall i :: i in running && IsKnown(setup, history, i) ==>
              PositionOf(setup, history, task.value) <= PositionOf(setup, history, i)
  {
    if running != [] {
      var rest := running[..|running| - 1];
      ChosenIsEarliest(setup, history, rest);
      assert forall i :: i in running <==> i in rest || i == running[|running| - 1];
      hide IsKnown, PositionOf;
    }
  }

  /** The loop waits for a task only when it may not start another. */
  lemma {:induction false} StartsWhatItMay(setup: Setup, history: seq<Event>, trace: seq<Step>, k: nat)
    requires IsTrace(setup, history, trace) && k < |trace| && trace[k].Settles?
    ensures |Started(trace[..k])| == |setup.waits| || |Running(trace[..k])| == setup.limit
  {
    EarlierTrace(setup, history, trace, k);
    TasksStartInOrder(setup, history, trace[..k]);
    NeverTooMany(setup, history, trace[..k]);
    hide Chosen, Started, Running, SettledCount;
    assert NextStep(setup, history, trace[..k]) == Some(trace[k]);
  }

  // ---- on a longer history ------------------------------------------------------------------------

  lemma {:induction false} KnownStays(setup: Setup, history: seq<Event>, longer: seq<Event>, task: nat)
    requires history <= longer && task < |setup.waits|
    ensures IsKnown(setup, history, task) ==>
      IsKnown(setup, longer, task) && PositionOf(setup, longer, task) == PositionOf(setup, history, task) < |history| &&
      OutcomeFor(setup, longer, task) == OutcomeFor(setup, history, task)
    ensures !IsKnown(setup, history, task) && IsKnown(setup, longer, task) ==> |history| <= PositionOf(setup, longer, task)
  {
    hide FindFrom;
    assert longer == history + longer[|history|..];
    FindStable(history, longer[|history|..], setup.waits[task]);
  }

  lemma {:induction false} ChosenStays(setup: Setup, history: seq<Event>, longer: seq<Event>, running: seq<nat>)
    requires history <= longer
    ensures var chosen, later := Chosen(setup, history, running), Chosen(setup, longer, running);
            (chosen.Some? ==> later == chosen) && (chosen.None? && later.Some? ==> |history| <= PositionOf(setup, longer, later.value))
  {
    if running != [] {
      ChosenStays(setup, history, longer, running[..|running| - 1]);
      var best := Chosen(setup, history, running[..|running| - 1]);
      if best.Some? {
        KnownStays(setup, history, longer, best.value);
      }
      if running[|running| - 1] < |setup.waits| {
        KnownStays(setup, history, longer, running[|running| - 1]);
      }
      hide PositionOf;
    }
  }

  /** What the loop does next, it also does when more has happened since. */
  lemma {:induction false} StepStays(setup: Setup, history: seq<Event>, longer: seq<Event>, trace: seq<Step>)
    requires history <= longer && IsTrace(setup, history, trace) && NextStep(setup, history, trace).Some?
    ensures NextStep(setup, longer, trace) == NextStep(setup, history, trace)
  {
    ChosenStays(setup, history, longer, Running(trace));
    if trace != [] && trace[|trace| - 1].Settles? {
      var last := |trace| - 1;
      EarliestSettles(setup, history, trace, last);
      KnownStays(setup, history, longer, trace[last].task);
    }
    hide Chosen, IsKnown, Started, Running, SettledCount, PositionOf, OutcomeFor, IsTrace;
  }

  /** On a longer history the loop starts and settles the same tasks in the same order, and then goes on. */
  lemma {:induction false} TraceGoesOn(setup: Setup, history: seq<Event>, longer: seq<Event>, trace: seq<Step>)
    requires history <= longer && IsTrace(setup, history, trace)
    ensures IsTrace(setup, longer, trace)
  {
    forall k | 0 <= k < |trace|
      ensures NextStep(setup, longer, trace[..k]) == Some(trace[k])
    {
      EarlierTrace(setup, history, trace, k);
      StepStays(setup, history, longer, trace[..k]);
    }
  }

  lemma {:induction false} StepAt(setup: Setup, history: seq<Event>, trace: seq<Step>, k: nat)
    requires IsTrace(setup, history, trace) && k < |trace|
    ensures NextStep(setup, history, trace[..k]) == Some(trace[k])
  {
    hide NextStep;
  }

  /** The loop is deterministic: of two traces one begins the other. */
  lemma {:induction false} OneTrace(setup: Setup, history: seq<Event>, left: seq<Step>, right: seq<Step>, n: nat)
    requires IsTrace(setup, history, left) && IsTrace(setup, history, right) && n <= |left| && n <= |right|
    ensures left[..n] == right[..n]
  {
    hide *;
    if n > 0 {
      OneTrace(setup, history, left, right, n - 1);
      StepAt(setup, history, left, n - 1);
      StepAt(setup, history, right, n - 1);
      assert left[..n] == left[..n - 1] + [left[n - 1]];
      assert right[..n] == right[..n - 1] + [right[n - 1]];
    }
  }

  // ---- the loop --------------------------------------------------------------------------------

  function LimitOf(concurrency: Option<int>, count: nat): int {
    if concurrency.Some? then concurrency.value else if count > 1 then count else 1
  }

  method ChooseNext(setup: Setup, history: seq<Event>, running: seq<nat>) returns (winner: Option<nat>)
    requires forall i :: i in running ==> i < |setup.waits|
    ensures winner == Chosen(setup, history, running)
  {
    winner := None;
    var winnerPosition := 0;
    for i := 0 to |running|
      invariant winner == Chosen(setup, history, running[..i])
      invariant winner.Some? ==> winnerPosition == PositionOf(setup, history, winner.value)
    {
      assert running[..i + 1][..i] == running[..i];
      assert running[i] in running;
      var position := Find(history, setup.waits[running[i]]);
      if position.Some? && (winner.None? || position.value < winnerPosition) {
        winner, winnerPosition := Some(running[i]), position.value;
      }
    }
    assert running[..|running|] == running;
  }

  /** What the loop has put in the slots of settled tasks. */
  ghost predicate AreSlots(setup: Setup, history: seq<Event>, trace: seq<Step>, outcomes: map<nat, Outcome>) {
    |outcomes| == SettledCount(trace) &&
    (forall i: nat :: i in outcomes <==> i < |Started(trace)| && i !in Running(trace)) &&
    forall i :: i in outcomes ==> IsSlot(setup, history, i, outcomes[i])
  }

  /** A slot holds the task's own outcome, which under `All` is no rejection. */
  predicate IsSlot(setup: Setup, history: seq<Event>, task: nat, outcome: Outcome) {
    IsKnown(setup, history, task) && outcome == OutcomeFor(setup, history, task) && (setup.mode.All? ==> outcome.Fulfilled?)
  }

  lemma {:induction false} SlotsAfterStart(setup: Setup, history: seq<Event>, trace: seq<Step>, outcomes: map<nat, Outcome>)
    requires IsTrace(setup, history, trace) && AreSlots(setup, history, trace, outcomes)
    requires NextStep(setup, history, trace) == Some(Starts(|Started(trace)|))
    ensures AreSlots(setup, history, trace + [Starts(|Started(trace)|)], outcomes)
    ensures Running(trace + [Starts(|Started(trace)|)]) == Running(trace) + [|Started(trace)|]
  {
    hide IsTrace, NextStep, IsSlot, Without, AreDistinct, Started, Running, SettledCount;
    RunningAfter(trace, Starts(|Started(trace)|));
    NeverTooMany(setup, history, trace);
    OneMoreStep(trace, Starts(|Started(trace)|));
  }

  lemma {:induction false} RunningAfter(trace: seq<Step>, step: Step)
    ensures Running(trace + [step]) == if step.Starts? then Running(trace) + [step.task] else Without(Running(trace), step.task)
  {
    assert (trace + [step])[..|trace|] == trace;
    hide Without;
  }

  lemma {:induction false} SlotsAfterSettling(setup: Setup, history: seq<Event>, trace: seq<Step>, outcomes: map<nat, Outcome>, task: nat)
    requires IsTrace(setup, history, trace) && AreSlots(setup, history, trace, outcomes) && task in Running(trace)
    requires IsKnown(setup, history, task) && IsSlot(setup, history, task, OutcomeFor(setup, history, task))
    ensures AreSlots(setup, history, trace + [Settles(task)], outcomes[task := OutcomeFor(setup, history, task)])
    ensures Running(trace + [Settles(task)]) == Without(Running(trace), task)
  {
    hide IsTrace, NextStep, IsSlot, Without, AreDistinct, Started, Running, SettledCount, IsKnown, OutcomeFor;
    RunningAfter(trace, Settles(task));
    NeverTooMany(setup, history, trace);
    OneMoreStep(trace, Settles(task));
    assert task !in outcomes;
  }

  lemma {:induction false} AllSettledSlots(setup: Setup, history: seq<Event>, trace: seq<Step>, outcomes: map<nat, Outcome>,
      running: seq<nat>, next: nat, settled: nat)
    requires IsLooping(setup, history, trace, outcomes, running, next, settled) && settled >= |setup.waits|
    ensures forall i: nat :: i < |setup.waits| ==> i in outcomes
    ensures IsResult(setup, history, trace, Returned(seq(|setup.waits|, i requires 0 <= i < |setup.waits| => outcomes[i])))
  {
    NeverTooMany(setup, history, trace);
    TasksStartInOrder(setup, history, trace);
    hide IsTrace, IsSlot, Started, Running, SettledCount, AreDistinct, HasThrown;
    assert Running(trace) == [];
  }

  /** What a result of the loop means for the tasks. */
  ghost predicate IsResult(setup: Setup, history: seq<Event>, trace: seq<Step>, result: Result) {
    IsTrace(setup, history, trace) && NextStep(setup, history, trace) == None &&
    match result
    case Returned(outcomes) =>
      |outcomes| == |setup.waits| == SettledCount(trace) && forall i :: 0 <= i < |outcomes| ==> IsSlot(setup, history, i, outcomes[i])
    case Threw(error) =>
      HasThrown(setup, history, trace) && OutcomeFor(setup, history, trace[|trace| - 1].task) == Rejected(error)
    case Waits => SettledCount(trace) < |setup.waits| && forall i :: i in Running(trace) ==> !IsKnown(setup, history, i)
    case BadConcurrency => false
  }

  /** What a result says of the tasks is what the events for them say. */
  ghost predicate IsAnswered(waits: seq<Wait>, history: seq<Event>, mode: Mode, result: Result) {
    match result
    case Returned(outcomes) =>
      |outcomes| == |waits| && forall i :: 0 <= i < |waits| ==>
        ReplayAnswers.IsAnswer(history, |history|, waits[i], outcomes[i]) && (mode.All? ==> outcomes[i].Fulfilled?)
    case Threw(error) =>
      mode.All? && exists i :: 0 <= i < |waits| && ReplayAnswers.IsAnswer(history, |history|, waits[i], Rejected(error))
    case _ => true
  }

  lemma {:induction false} ResultIsAnswered(setup: Setup, history: seq<Event>, trace: seq<Step>, result: Result)
    requires IsResult(setup, history, trace, result)
    ensures IsAnswered(setup.waits, history, setup.mode, result)
  {
    hide IsTrace, NextStep, Started, Running, SettledCount, ReplayAnswers.IsAnswer, OutcomeFor;
    match result
    case Returned(outcomes) =>
      forall i | 0 <= i < |outcomes|
        ensures ReplayAnswers.IsAnswer(history, |history|, setup.waits[i], outcomes[i])
      {
        assert IsSlot(setup, history, i, outcomes[i]);
        OutcomeIsAnswer(setup, history, i);
      }
    case Threw(error) => OutcomeIsAnswer(setup, history, trace[|trace| - 1].task);
    case _ =>
  }

  /**
   Runs the tasks. It returns every task's outcome in the task's own slot, throws the first
   rejection under `All`, or waits for ever because the history settles nothing in flight.
   */
  method RunParallel(waits: seq<Wait>, concurrency: Option<int>, mode: Mode, history: seq<Event>)
    returns (result: Result, ghost trace: seq<Step>)
    ensures result.BadConcurrency? <==> LimitOf(concurrency, |waits|) < 1
    ensures !result.BadConcurrency? ==> IsResult(Setup(waits, LimitOf(concurrency, |waits|), mode), history, trace, result)
    ensures IsAnswered(waits, history, mode, result)
  {
    trace := [];
    if LimitOf(concurrency, |waits|) < 1 {
      return BadConcurrency, [];
    }
    var setup := Setup(waits, LimitOf(concurrency, |waits|), mode);
    var outcomes: map<nat, Outcome> := map[];
    var running: seq<nat> := [];
    var next, settled := 0, 0;
    hide IsTrace, IsResult, IsLooping, IsKnown, NextStep, Started, Running, SettledCount, HasThrown, OutcomeFor, Without, Chosen, IsAnswered;
    LoopBegins(setup, history);
    while settled < |waits|
      invariant IsLooping(setup, history, trace, outcomes, running, next, settled)
      decreases |waits| - settled
    {
      running, next, trace := StartTasks(setup, history, trace, outcomes, running, next, settled);
      RunningAreTasks(setup, history, trace, outcomes, running, next, settled);
      var chosen := ChooseNext(setup, history, running);
      if chosen.None? {
        NothingToSettle(setup, history, trace, outcomes, running, next, settled);
        ResultIsAnswered(setup, history, trace, Waits);
        return Waits, trace;
      }
      var outcome := OutcomeFor(setup, history, chosen.value);
      ghost var before := trace;
      trace := trace + [Settles(chosen.value)];
      if mode.All? && outcome.Rejected? {
        ThrowsNow(setup, history, before, outcomes, running, next, settled, chosen.value);
        ResultIsAnswered(setup, history, trace, Threw(outcome.error));
        return Threw(outcome.error), trace;
      }
      SettledOne(setup, history, before, outcomes, running, next, settled, chosen.value);
      running := Without(running, chosen.value);
      outcomes := outcomes[chosen.value := outcome];
      settled := settled + 1;
    }
    AllSettledSlots(setup, history, trace, outcomes, running, next, settled);
    result := Returned(seq(|waits|, i requires 0 <= i < |waits| => outcomes[i]));
    ResultIsAnswered(setup, history, trace, result);
  }

  lemma {:induction false} LoopBegins(setup: Setup, history: seq<Event>)
    ensures IsLooping(setup, history, [], map[], [], 0, 0)
  {
  }

  /** Nothing more may start, and of what runs nothing is settled by the history. */
  lemma {:induction false} NothingToSettle(setup: Setup, history: seq<Event>, trace: seq<Step>, outcomes: map<nat, Outcome>,
      running: seq<nat>, next: nat, settled: nat)
    requires IsLooping(setup, history, trace, outcomes, running, next, settled) && settled < |setup.waits|
    requires !(next < |setup.waits| && |running| < setup.limit) && Chosen(setup, history, running).None?
    ensures IsResult(setup, history, trace, Waits)
  {
    ChosenIsEarliest(setup, history, running);
    hide Chosen, IsKnown, Started, Running, SettledCount, HasThrown, IsTrace, AreSlots;
  }

  lemma {:induction false} SettlesNext(setup: Setup, history: seq<Event>, trace: seq<Step>, outcomes: map<nat, Outcome>,
      running: seq<nat>, next: nat, settled: nat, task: nat)
    requires IsLooping(setup, history, trace, outcomes, running, next, settled) && settled < |setup.waits|
    requires !(next < |setup.waits| && |running| < setup.limit) && Chosen(setup, history, running) == Some(task)
    ensures IsTrace(setup, history, trace + [Settles(task)]) && task in running && IsKnown(setup, history, task)
  {
    assert NextStep(setup, history, trace) == Some(Settles(task)) by {
      hide Chosen, Started, Running, SettledCount, HasThrown, IsTrace, AreSlots;
    }
    LongerTrace(setup, history, trace, Settles(task));
    hide *;
  }

  lemma {:induction false} ThrowsNow(setup: Setup, history: seq<Event>, trace: seq<Step>, outcomes: map<nat, Outcome>,
      running: seq<nat>, next: nat, settled: nat, task: nat)
    requires IsLooping(setup, history, trace, outcomes, running, next, settled) && settled < |setup.waits|
    requires !(next < |setup.waits| && |running| < setup.limit) && Chosen(setup, history, running) == Some(task)
    requires setup.mode.All? && IsKnown(setup, history, task) && OutcomeFor(setup, history, task).Rejected?
    ensures IsResult(setup, history, trace + [Settles(task)], Threw(OutcomeFor(setup, history, task).error))
  {
    SettlesNext(setup, history, trace, outcomes, running, next, settled, task);
    hide Chosen, Started, Running, SettledCount, IsTrace, IsLooping, OutcomeFor, IsKnown;
  }

  lemma NotThrown(setup: Setup, history: seq<Event>, trace: seq<Step>, task: nat)
    requires IsKnown(setup, history, task) && !(setup.mode.All? && OutcomeFor(setup, history, task).Rejected?)
    ensures !HasThrown(setup, history, trace + [Settles(task)])
  {
    hide IsKnown, OutcomeFor;
  }

  lemma {:induction false} SettledOne(setup: Setup, history: seq<Event>, trace: seq<Step>, outcomes: map<nat, Outcome>,
      running: seq<nat>, next: nat, settled: nat, task: nat)
    requires IsLooping(setup, history, trace, outcomes, running, next, settled) && settled < |setup.waits|
    requires !(next < |setup.waits| && |running| < setup.limit) && Chosen(setup, history, running) == Some(task)
    requires IsKnown(setup, history, task) && !(setup.mode.All? && OutcomeFor(setup, history, task).Rejected?)
    ensures IsLooping(setup, history, trace + [Settles(task)], outcomes[task := OutcomeFor(setup, history, task)],
              Without(running, task), next, settled + 1)
  {
    hide Chosen, Started, Running, SettledCount, IsTrace, OutcomeFor, IsKnown, AreSlots, Without, AreDistinct, HasThrown;
    SettlesNext(setup, history, trace, outcomes, running, next, settled, task);
    NotThrown(setup, history, trace, task);
    SlotsAfterSettling(setup, history, trace, outcomes, task);
    NeverTooMany(setup, history, trace);
    OneMoreStep(trace, Settles(task));
  }

  /** Where the loop stands: its variables say what its trace says. */
  ghost predicate IsLooping(setup: Setup, history: seq<Event>, trace: seq<Step>, outcomes: map<nat, Outcome>, running: seq<nat>,
      next: nat, settled: nat) {
    IsTrace(setup, history, trace) && AreSlots(setup, history, trace, outcomes) && running == Running(trace) &&
    next == |Started(trace)| && settled == SettledCount(trace) && !HasThrown(setup, history, trace)
  }

  lemma {:induction false} RunningAreTasks(setup: Setup, history: seq<Event>, trace: seq<Step>, outcomes: map<nat, Outcome>,
      running: seq<nat>, next: nat, settled: nat)
    requires IsLooping(setup, history, trace, outcomes, running, next, settled)
    ensures forall i :: i in running ==> i < |setup.waits|
  {
    NeverTooMany(setup, history, trace);
    TasksStartInOrder(setup, history, trace);
    hide IsTrace, AreSlots, HasThrown;
  }

  /** Starts as many tasks as may run. */
  method StartTasks(setup: Setup, history: seq<Event>, ghost trace: seq<Step>, ghost outcomes: map<nat, Outcome>,
      running: seq<nat>, next: nat, ghost settled: nat) returns (running': seq<nat>, next': nat, ghost trace': seq<Step>)
    requires IsLooping(setup, history, trace, outcomes, running, next, settled) && settled < |setup.waits| && setup.limit >= 1
    ensures IsLooping(setup, history, trace', outcomes, running', next', settled)
    ensures !(next' < |setup.waits| && |running'| < setup.limit)
  {
    running', next', trace' := running, next, trace;
    while next' < |setup.waits| && |running'| < setup.limit
      invariant IsLooping(setup, history, trace', outcomes, running', next', settled)
      decreases |setup.waits| - next'
    {
      StartedOne(setup, history, trace', outcomes, running', next', settled);
      trace' := trace' + [Starts(next')];
      running' := running' + [next'];
      next' := next' + 1;
    }
  }

  lemma {:induction false} StartedOne(setup: Setup, history: seq<Event>, trace: seq<Step>, outcomes: map<nat, Outcome>,
      running: seq<nat>, next: nat, settled: nat)
    requires IsLooping(setup, history, trace, outcomes, running, next, settled) && settled < |setup.waits|
    requires next < |setup.waits| && |running| < setup.limit
    ensures IsLooping(setup, history, trace + [Starts(next)], outcomes, running + [next], next + 1, settled)
  {
    assert NextStep(setup, history, trace) == Some(Starts(next)) by {
      hide Started, Running, SettledCount, HasThrown, IsTrace, AreSlots;
    }
    hide IsTrace, NextStep, AreSlots, Running, Started, SettledCount, AreDistinct;
    NeverTooMany(setup, history, trace);
    OneMoreStep(trace, Starts(next));
    LongerTrace(setup, history, trace, Starts(next));
    SlotsAfterStart(setup, history, trace, outcomes);
  }
}
