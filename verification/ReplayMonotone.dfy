/**
 Replay is monotone: replaying a longer history repeats everything replaying the
 shorter one did, before anything new happens.
 */
module ReplayMonotone {
  import opened WorkflowTypes
  import opened CommandMatching
  import opened Replay

  // ---- what a longer history leaves unchanged --------------------------------

  lemma {:induction false} SettlesStable(history: seq<Event>, more: seq<Event>, index: nat, wait: Wait)
    requires index < |history|
    ensures Settles(history + more, index, wait) == Settles(history, index, wait)
  {
    assert (history + more)[..index] == history[..index];
  }

  lemma {:induction false} FindStable(history: seq<Event>, more: seq<Event>, wait: Wait)
    ensures Find(history, wait).Some? ==> Find(history + more, wait) == Find(history, wait)
    ensures Find(history, wait).None? && Find(history + more, wait).Some? ==>
      |history| <= Find(history + more, wait).value
  {
    forall i | 0 <= i < |history|
      ensures Settles(history + more, i, wait) == Settles(history, i, wait)
    {
      SettlesStable(history, more, i, wait);
    }
  }

  lemma {:induction false} TimesConcat(left: seq<Event>, right: seq<Event>)
    ensures Times(left + right) == Times(left) + Times(right)
  {
    if right == [] {
      assert left + right == left;
    } else {
      TimesConcat(left, right[..|right| - 1]);
      assert (left + right)[..|left + right| - 1] == left + right[..|right| - 1];
    }
  }

  lemma {:induction false} CommandCountIsShapes(history: seq<Event>)
    ensures CommandCount(history) == Ordered(Shapes(history))
  {
    if history != [] {
      var last := |history| - 1;
      CommandCountIsShapes(history[..last]);
      var before := Shapes(history[..last]);
      match RecordedCommandOf(history[last])
      case Some(shape) => OrderedSnoc(before, shape);
      case None => assert before + [] == before;
    }
  }

  lemma {:induction false} PatchIdsAreShapes(history: seq<Event>, patchId: string)
    ensures patchId in PatchIds(history) <==> PatchShape(patchId) in Shapes(history)
  {
    if history != [] {
      var last := |history| - 1;
      PatchIdsAreShapes(history[..last], patchId);
      assert history == history[..last] + [history[last]];
      assert patchId in PatchIds(history) <==>
        patchId in PatchIds(history[..last]) || (history[last].PatchRecorded? && history[last].patchId == patchId) by {
        PatchIdsSnoc(history[..last], history[last], patchId);
      }
    }
  }

  lemma {:induction false} PatchIdsSnoc(history: seq<Event>, event: Event, patchId: string)
    ensures patchId in PatchIds(history + [event]) <==>
      patchId in PatchIds(history) || (event.PatchRecorded? && event.patchId == patchId)
  {
    if patchId in PatchIds(history) {
      var e :| e in history && e.PatchRecorded? && e.patchId == patchId;
      assert e in history + [event];
    }
    if event.PatchRecorded? && event.patchId == patchId {
      assert event in history + [event];
    }
  }

  /** How many of `shapes` are steps, timers or children. */
  function Ordered(shapes: seq<CommandShape>): nat {
    if shapes == [] then 0
    else Ordered(shapes[..|shapes| - 1]) + if shapes[|shapes| - 1].PatchShape? then 0 else 1
  }

  lemma {:induction false} OrderedConcat(left: seq<CommandShape>, right: seq<CommandShape>)
    ensures Ordered(left + right) == Ordered(left) + Ordered(right)
  {
    if right == [] {
      assert left + right == left;
    } else {
      OrderedConcat(left, right[..|right| - 1]);
      assert (left + right)[..|left + right| - 1] == left + right[..|right| - 1];
    }
  }

  lemma {:induction false} OrderedDominates(more: seq<CommandShape>, fewer: seq<CommandShape>)
    requires |fewer| <= |more|
    requires forall k :: 0 <= k < |fewer| ==> SameCommand(fewer[k], more[k])
    ensures Ordered(fewer) <= Ordered(more)
  {
    if |fewer| < |more| {
      OrderedDominates(more[..|more| - 1], fewer);
    } else if fewer != [] {
      OrderedDominates(more[..|more| - 1], fewer[..|fewer| - 1]);
      assert SameCommand(fewer[|fewer| - 1], more[|fewer| - 1]);
    }
  }

  lemma {:induction false} ReleasesAgree(
      history: seq<Event>, more: seq<Event>, left: seq<Promise>, right: seq<Promise>, index: nat)
    requires index < |history|
    requires SamePromises(|history|, left, right)
    ensures Releases(history, left, index) == Releases(history + more, right, index)
  {
    if left != [] {
      var last := |left| - 1;
      ReleasesAgree(history, more, left[..last], right[..last], index);
    }
  }

  // ---- two machines in step --------------------------------------------------

  /** The same promise, seen by a replay that knows only the first `known` events. */
  predicate SamePromise(known: nat, left: Promise, right: Promise) {
    left.wait == right.wait &&
    (left.due.Some? ==> left.due.value.index < known && right.due == left.due) &&
    (left.due.None? && right.due.Some? ==> known <= right.due.value.index)
  }

  predicate SamePromises(known: nat, left: seq<Promise>, right: seq<Promise>) {
    |left| == |right| && forall i :: 0 <= i < |left| ==> SamePromise(known, left[i], right[i])
  }

  /** Equal but for the events past `known` and the commands newly found. */
  predicate InStep(known: nat, left: Machine, right: Machine) {
    SamePromises(known, left.promises, right.promises) &&
    right == left.(promises := right.promises, commands := right.commands)
  }

  /** `early` is a moment of the replay that ends as `late`. */
  predicate JournalBefore(early: Journal, late: Journal) {
    early.issued <= late.issued &&
    early.times <= late.times &&
    (forall p :: p in early.patches ==> p in late.patches && late.patches[p] == early.patches[p]) &&
    early.consulted <= late.consulted &&
    (early.alarmed ==> late.alarmed)
  }

  predicate Before(early: Machine, late: Machine) {
    early.trace <= late.trace &&
    early.commands <= late.commands &&
    JournalBefore(early.journal, late.journal)
  }

  lemma {:induction false} RegisterKeeps(a: Decider, m: Machine, wait: Wait, fed: nat)
    ensures var after := a.Register(m, wait, fed);
            after == m.(promises := after.promises, queue := after.queue)
  {
  }

  lemma {:induction false} IssueNewKeeps(a: Decider, m: Machine, shape: CommandShape, command: Command, unlessDone: bool, wait: Wait)
    ensures var after := a.IssueNew(m, shape, command, unlessDone, wait);
            after == a.Issue(m, shape) || after == a.Issue(m, shape).Push(command)
    ensures a.Issue(m, shape) == m.(journal := a.Issue(m, shape).journal)
  {
  }

  lemma {:induction false} IssueKeeps(a: Decider, m: Machine, shape: CommandShape, command: Command, unlessDone: bool,
                   wait: Wait, fed: nat)
    ensures var after := a.IssueAndWait(m, shape, command, unlessDone, wait, fed).0;
            after.trace == m.trace && after.counters == m.counters &&
            after.journal == a.Issue(m, shape).journal && m.commands <= after.commands
  {
    var issued := a.IssueNew(m, shape, command, unlessDone, wait);
    IssueNewKeeps(a, m, shape, command, unlessDone, wait);
    RegisterKeeps(a, issued, wait, fed);
    assert a.IssueAndWait(m, shape, command, unlessDone, wait, fed).0 in
      {a.Issue(m, shape), a.Register(issued, wait, fed)};
  }

  /** The shape a call issues, if it issues one when it is made on `m`. */
  function ShapeOf(a: Decider, m: Machine, call: Call): Option<CommandShape> {
    match call
    case Step(stepType, input) => Some(StepShape(m.counters.steps + 1, stepType, input))
    case Sleep(Finite(ms)) => if ms < 0 then None else Some(TimerShape(m.counters.timers + 1, Some(ms)))
    case ExecuteChild(workflowType, input, _, _, _) =>
      if m.counters.children + 1 > a.settings.maxChildren then None
      else Some(ChildShape(m.counters.children + 1, workflowType, input))
    case _ => None
  }

  /** What calls other than `patched` do to the journal, the counters and the commands. */
  lemma {:induction false} CallEffect(a: Decider, m: Machine, call: Call, fed: nat)
    requires !call.Patched?
    ensures var after := a.AnswerCall(m, call, fed).0;
            var shape := ShapeOf(a, m, call);
            after.trace == m.trace && m.commands <= after.commands &&
            m.counters.Ordered() <= after.counters.Ordered() &&
            (shape.Some? ==> after.counters.Ordered() == m.counters.Ordered() + 1 &&
                             after.journal == a.Issue(m, shape.value).journal) &&
            (shape.None? && !call.Now? ==> after.journal == m.journal) &&
            (call.Now? ==> after.journal == m.journal.(times := after.journal.times) &&
                           m.journal.times <= after.journal.times)
  {
    hide Decider.IssueAndWait, Find;
    match call
    case Step(stepType, input) =>
      var id := m.counters.steps + 1;
      IssueKeeps(a, m.(counters := m.counters.(steps := id)), StepShape(id, stepType, input),
                 ScheduleStep(id, stepType, input), true, OnStep(id, stepType), fed);
    case Sleep(duration) =>
      if duration.Finite? {
        var id := m.counters.timers + 1;
        IssueKeeps(a, m.(counters := m.counters.(timers := id)), TimerShape(id, Some(duration.ms)),
                   StartTimer(id, a.moment.clock(m.journal.Asked()) + duration.ms, duration.ms), true, OnTimer(id), fed);
      }
    case ExecuteChild(workflowType, input, policy, runTimeoutMs, executionTimeoutMs) =>
      var id := m.counters.children + 1;
      IssueKeeps(a, m.(counters := m.counters.(children := id)), ChildShape(id, workflowType, input),
                 StartChild(id, workflowType, input, policy, runTimeoutMs, executionTimeoutMs),
                 false, OnChild(id), fed);
    case _ =>
  }

  lemma {:induction false} BeforePatched(a: Decider, m: Machine, patchId: string)
    ensures Before(m, a.AnswerPatched(m, patchId).0)
    ensures a.AnswerPatched(m, patchId).0.trace == m.trace
  {
  }

  lemma {:induction false} BeforeCall(a: Decider, m: Machine, call: Call, fed: nat)
    ensures Before(m, a.AnswerCall(m, call, fed).0)
    ensures a.AnswerCall(m, call, fed).0.trace == m.trace
  {
    hide Decider.AnswerPatched, Decider.AnswerStep, Decider.AnswerSleep, Decider.AnswerChild;
    if call.Patched? {
      BeforePatched(a, m, call.patchId);
    } else {
      CallEffect(a, m, call, fed);
    }
  }

  lemma {:induction false} BeforeTurn(a: Decider, m: Machine, fed: nat)
    requires !a.AtRest(m)
    ensures Before(m, a.Turn(m, fed))
  {
    if a.handler.next(m.trace).Do? {
      BeforeCall(a, m, a.handler.next(m.trace).call, fed);
    }
  }

  lemma {:induction false} BeforeDrain(a: Decider, m: Machine, fed: nat, turns: nat)
    ensures Before(m, a.Drain(m, fed, turns))
    decreases turns
  {
    if !(m.hung || a.AtRest(m)) && turns != 0 {
      BeforeTurn(a, m, fed);
      BeforeDrain(a, a.Turn(m, fed), fed, turns - 1);
    }
  }

  lemma {:induction false} BeforeRun(a: Decider, from: nat, to: nat)
    requires from <= to <= |a.history|
    ensures Before(a.RunTo(from), a.RunTo(to))
  {
    if from < to {
      BeforeRun(a, from, to - 1);
      var m := a.RunTo(to - 1);
      BeforeDrain(a, m.(queue := m.queue + Releases(a.history, m.promises, to - 1)), to, a.settings.maxTurns);
    }
  }

  // ---- what the matcher has compared so far ----------------------------------

  /** Every counted call was issued, and an unalarmed machine issued what was recorded. */
  predicate Accounted(history: seq<Event>, counted: nat, j: Journal) {
    Ordered(j.issued) <= counted &&
    (!j.alarmed ==> forall k :: 0 <= k < |j.issued| && k < |Shapes(history)| ==>
                                  SameCommand(Shapes(history)[k], j.issued[k])) &&
    j.patches.Keys <= j.consulted
  }

  predicate MachineAccounted(a: Decider, m: Machine) {
    Accounted(a.history, m.counters.Ordered(), m.journal)
  }

  lemma {:induction false} OrderedSnoc(shapes: seq<CommandShape>, shape: CommandShape)
    ensures Ordered(shapes + [shape]) == Ordered(shapes) + if shape.PatchShape? then 0 else 1
  {
    assert (shapes + [shape])[..|shapes + [shape]| - 1] == shapes;
  }

  lemma {:induction false} AccountedIssue(a: Decider, m: Machine, shape: CommandShape, counted: nat)
    requires MachineAccounted(a, m)
    requires m.counters.Ordered() + (if shape.PatchShape? then 0 else 1) <= counted
    ensures Accounted(a.history, counted, a.Issue(m, shape).journal)
  {
    OrderedSnoc(m.journal.issued, shape);
  }

  lemma {:induction false} AccountedPatched(a: Decider, m: Machine, patchId: string)
    requires MachineAccounted(a, m)
    ensures MachineAccounted(a, a.AnswerPatched(m, patchId).0)
  {
    var j := m.journal.(consulted := m.journal.consulted + {patchId});
    AccountedIssue(a, m.(journal := j), PatchShape(patchId), m.counters.Ordered());
  }

  lemma {:induction false} AccountedCall(a: Decider, m: Machine, call: Call, fed: nat)
    requires MachineAccounted(a, m)
    ensures MachineAccounted(a, a.AnswerCall(m, call, fed).0)
  {
    if call.Patched? {
      AccountedPatched(a, m, call.patchId);
    } else {
      CallEffect(a, m, call, fed);
      var shape := ShapeOf(a, m, call);
      if shape.Some? {
        AccountedIssue(a, m, shape.value, m.counters.Ordered() + 1);
      }
    }
  }

  lemma {:induction false} AccountedTurn(a: Decider, m: Machine, fed: nat)
    requires MachineAccounted(a, m) && !a.AtRest(m)
    ensures MachineAccounted(a, a.Turn(m, fed))
  {
    if a.handler.next(m.trace).Do? {
      AccountedCall(a, m, a.handler.next(m.trace).call, fed);
    }
  }

  lemma {:induction false} AccountedDrain(a: Decider, m: Machine, fed: nat, turns: nat)
    requires MachineAccounted(a, m)
    ensures MachineAccounted(a, a.Drain(m, fed, turns))
    decreases turns
  {
    if !(m.hung || a.AtRest(m)) && turns != 0 {
      AccountedTurn(a, m, fed);
      AccountedDrain(a, a.Turn(m, fed), fed, turns - 1);
    }
  }

  lemma {:induction false} AccountedRun(a: Decider, count: nat)
    requires count <= |a.history|
    ensures MachineAccounted(a, a.RunTo(count))
  {
    hide Decider.Turn, Releases;
    if count == 0 {
      AccountedDrain(a, a.Fresh(), 0, a.settings.maxTurns);
    } else {
      AccountedRun(a, count - 1);
      var m := a.RunTo(count - 1);
      AccountedDrain(a, m.(queue := m.queue + Releases(a.history, m.promises, count - 1)),
                     count, a.settings.maxTurns);
    }
  }

  // ---- when a longer history continues a replay ------------------------------

  /**
   `b` decides on a continuation of the history `a` decided on: whatever the added
   events record of the calls `a` answered is what `a` answered, in that order.
   `end` is the journal `a`'s replay ended with.
   */
  ghost predicate Continues(a: Decider, b: Decider, end: Journal) {
    b.handler == a.handler && b.input == a.input && b.settings == a.settings &&
    a.history <= b.history &&
    // recorded commands, compared with the ones issued
    (forall k :: |Shapes(a.history)| <= k < |Shapes(b.history)| && k < |end.issued| ==>
                   SameCommand(Shapes(b.history)[k], end.issued[k])) &&
    // recorded clock answers, compared with the ones given
    (forall k :: |Times(a.history)| <= k < |Times(b.history)| && k < |end.times| ==>
                   Times(b.history)[k] == end.times[k]) &&
    (|end.times| <= |Times(b.history)| || b.moment == a.moment ||
     (a.moment.triggeredAt.Some? && b.moment.triggeredAt == a.moment.triggeredAt)) &&
    // a patch refused once is not recorded later
    (forall p :: p in end.patches && !end.patches[p] && p in PatchIds(b.history) ==> p in PatchIds(a.history)) &&
    (end.consulted == {} || !end.alarmed)
  }

  /** The added events record everything `a` discovered. */
  predicate Covers(history: seq<Event>, end: Journal) {
    |end.issued| <= |Shapes(history)| && |end.times| <= |Times(history)|
  }

  lemma {:induction false} VerdictAgrees(a: Decider, b: Decider, m: Machine, m': Machine, shape: CommandShape, end: Journal)
    requires Continues(a, b, end)
    requires m'.journal.issued == m.journal.issued
    requires m.journal.issued + [shape] <= end.issued
    ensures a.Verdict(m, shape).Mismatch? ==> b.Verdict(m', shape) == a.Verdict(m, shape)
    ensures !a.Verdict(m, shape).Mismatch? ==> !b.Verdict(m', shape).Mismatch?
    ensures a.Verdict(m, shape).Known? ==> b.Verdict(m', shape).Known?
    ensures Covers(b.history, end) ==> !b.Verdict(m', shape).New?
  {
    ShapesConcat(a.history, b.history[|a.history|..]);
    assert b.history == a.history + b.history[|a.history|..];
    assert end.issued[|m.journal.issued|] == shape;
  }

  lemma {:induction false} AddPromiseAgrees(a: Decider, b: Decider, m: Machine, m': Machine, wait: Wait,
                         due: Option<Due>, due': Option<Due>, fed: nat)
    requires a.history <= b.history && fed <= |a.history|
    requires InStep(|a.history|, m, m')
    requires SamePromise(|a.history|, Promise(wait, due), Promise(wait, due'))
    ensures InStep(|a.history|, a.AddPromise(m, wait, due, fed), b.AddPromise(m', wait, due', fed))
  {
  }

  lemma {:induction false} RegisterAgrees(a: Decider, b: Decider, m: Machine, m': Machine, wait: Wait, fed: nat)
    requires a.history <= b.history && fed <= |a.history|
    requires InStep(|a.history|, m, m')
    ensures InStep(|a.history|, a.Register(m, wait, fed), b.Register(m', wait, fed))
  {
    var more := b.history[|a.history|..];
    assert b.history == a.history + more;
    FindStable(a.history, more, wait);
    AddPromiseAgrees(a, b, m, m', wait, a.DueOf(wait), b.DueOf(wait), fed);
  }

  lemma {:induction false} IssueNewAgrees(a: Decider, b: Decider, m: Machine, m': Machine, shape: CommandShape,
                       command: Command, command': Command, unlessDone: bool, wait: Wait, end: Journal)
    requires Continues(a, b, end)
    requires InStep(|a.history|, m, m')
    requires m.journal.issued + [shape] <= end.issued
    requires !a.Verdict(m, shape).Mismatch?
    ensures var y := b.IssueNew(m', shape, command', unlessDone, wait);
            InStep(|a.history|, a.IssueNew(m, shape, command, unlessDone, wait), y) &&
            (Covers(b.history, end) ==> y.commands == m'.commands)
  {
    VerdictAgrees(a, b, m, m', shape, end);
    IssueNewKeeps(a, m, shape, command, unlessDone, wait);
    IssueNewKeeps(b, m', shape, command', unlessDone, wait);
    IssueJournalAgrees(a, b, m, m', shape);
  }

  lemma {:induction false} IssueJournalAgrees(a: Decider, b: Decider, m: Machine, m': Machine, shape: CommandShape)
    requires m.journal == m'.journal
    requires a.Verdict(m, shape).Mismatch? == b.Verdict(m', shape).Mismatch?
    ensures b.Issue(m', shape).journal == a.Issue(m, shape).journal
  {
  }

  lemma {:induction false} IssueAgrees(a: Decider, b: Decider, m: Machine, m': Machine, shape: CommandShape,
                    command: Command, command': Command, unlessDone: bool, wait: Wait, fed: nat, end: Journal)
    requires Continues(a, b, end) && fed <= |a.history|
    requires InStep(|a.history|, m, m')
    requires m.journal.issued + [shape] <= end.issued
    ensures var x := a.IssueAndWait(m, shape, command, unlessDone, wait, fed);
            var y := b.IssueAndWait(m', shape, command', unlessDone, wait, fed);
            x.1 == y.1 && InStep(|a.history|, x.0, y.0) &&
            (Covers(b.history, end) ==> y.0.commands == m'.commands)
  {
    VerdictAgrees(a, b, m, m', shape, end);
    IssueJournalAgrees(a, b, m, m', shape);
    IssueNewKeeps(a, m, shape, command, unlessDone, wait);
    IssueNewKeeps(b, m', shape, command', unlessDone, wait);
    if !a.Verdict(m, shape).Mismatch? {
      IssueNewAgrees(a, b, m, m', shape, command, command', unlessDone, wait, end);
      var x, y := a.IssueNew(m, shape, command, unlessDone, wait), b.IssueNew(m', shape, command', unlessDone, wait);
      RegisterAgrees(a, b, x, y, wait, fed);
      RegisterKeeps(b, y, wait, fed);
    }
  }

  lemma {:induction false} WinnerAgrees(known: nat, left: seq<Promise>, right: seq<Promise>, branches: seq<nat>)
    requires SamePromises(known, left, right)
    ensures Winner(left, branches).Some? ==> Winner(right, branches) == Winner(left, branches)
    ensures Winner(left, branches).None? && Winner(right, branches).Some? ==>
      known <= right[branches[Winner(right, branches).value]].due.value.index
  {
    if branches != [] {
      var last := |branches| - 1;
      WinnerAgrees(known, left, right, branches[..last]);
      if branches[last] < |left| {
        assert SamePromise(known, left[branches[last]], right[branches[last]]);
      }
      var best := Winner(left, branches[..last]);
      if best.Some? {
        assert SamePromise(known, left[branches[best.value]], right[branches[best.value]]);
      }
    }
  }

  lemma {:induction false} SelectAgrees(a: Decider, b: Decider, m: Machine, m': Machine, branches: seq<nat>, fed: nat)
    requires a.history <= b.history && fed <= |a.history|
    requires InStep(|a.history|, m, m')
    ensures var x, y := a.AnswerSelect(m, branches, fed), b.AnswerSelect(m', branches, fed);
            x.1 == y.1 && InStep(|a.history|, x.0, y.0) && y.0.commands == m'.commands
  {
    WinnerAgrees(|a.history|, m.promises, m'.promises, branches);
    var w, w' := Winner(m.promises, branches), Winner(m'.promises, branches);
    if w.Some? {
      var p, p' := m.promises[branches[w.value]], m'.promises[branches[w.value]];
      assert SamePromise(|a.history|, p, p');
      var due := Some(p.due.value.(branch := w));
      AddPromiseAgrees(a, b, m, m', OnSelect, due, due, fed);
    } else {
      var due := if w'.None? then None else Some(m'.promises[branches[w'.value]].due.value.(branch := w'));
      AddPromiseAgrees(a, b, m, m', OnSelect, None, due, fed);
    }
  }

  lemma {:induction false} FrontierAgrees(a: Decider, b: Decider, m: Machine, patchId: string, end: Journal)
    requires Continues(a, b, end) && MachineAccounted(a, m) && !m.journal.alarmed
    requires m.journal.issued + [PatchShape(patchId)] <= end.issued
    requires !a.Verdict(m, PatchShape(patchId)).Mismatch?
    requires patchId !in PatchIds(b.history)
    ensures CommandCount(b.history) <= m.counters.Ordered()
    ensures |Shapes(b.history)| <= |m.journal.issued|
  {
    var more := b.history[|a.history|..];
    assert b.history == a.history + more;
    ShapesConcat(a.history, more);
    PatchIdsAreShapes(b.history, patchId);
    var issued, recorded := m.journal.issued, Shapes(b.history);
    assert end.issued[|issued|] == PatchShape(patchId);
    assert |recorded| <= |issued| by {
      if |issued| < |recorded| {
        assert false;
      }
    }
    forall k | 0 <= k < |recorded|
      ensures SameCommand(recorded[k], issued[k])
    {
      assert end.issued[k] == issued[k];
    }
    OrderedDominates(issued, recorded);
    CommandCountIsShapes(b.history);
  }

  lemma {:induction false} PatchIdsGrow(history: seq<Event>, longer: seq<Event>)
    requires history <= longer
    ensures PatchIds(history) <= PatchIds(longer)
    ensures CommandCount(history) <= CommandCount(longer)
  {
    var more := longer[|history|..];
    assert longer == history + more;
    ShapesConcat(history, more);
    CommandCountIsShapes(history);
    CommandCountIsShapes(longer);
    OrderedConcat(Shapes(history), Shapes(more));
    forall event | event in history
      ensures event in longer
    {
    }
  }

  lemma {:induction false} PatchedAgrees(a: Decider, b: Decider, m: Machine, m': Machine, patchId: string, end: Journal)
    requires Continues(a, b, end) && MachineAccounted(a, m)
    requires InStep(|a.history|, m, m')
    requires JournalBefore(a.AnswerPatched(m, patchId).0.journal, end)
    ensures var x, y := a.AnswerPatched(m, patchId), b.AnswerPatched(m', patchId);
            x.1 == y.1 && InStep(|a.history|, x.0, y.0) &&
            (Covers(b.history, end) ==> y.0.commands == m'.commands)
  {
    var x := a.AnswerPatched(m, patchId);
    var shape := PatchShape(patchId);
    PatchIdsGrow(a.history, b.history);
    assert patchId in x.0.journal.consulted;
    if patchId in m.journal.patches {
    } else if patchId !in PatchIds(a.history) && m.counters.Ordered() < CommandCount(a.history) {
      assert patchId in x.0.journal.patches && !x.0.journal.patches[patchId];
    } else {
      assert !a.Verdict(m, shape).Mismatch? && !m.journal.alarmed;
      assert x.0.journal.issued == m.journal.issued + [shape];
      VerdictAgrees(a, b, m, m', shape, end);
      if patchId !in PatchIds(b.history) {
        FrontierAgrees(a, b, m, patchId, end);
      }
    }
  }

  lemma {:induction false} NowAgrees(a: Decider, b: Decider, m: Machine, m': Machine, end: Journal)
    requires Continues(a, b, end)
    requires InStep(|a.history|, m, m')
    requires JournalBefore(a.AnswerNow(m).0.journal, end)
    ensures var x, y := a.AnswerNow(m), b.AnswerNow(m');
            x.1 == y.1 && InStep(|a.history|, x.0, y.0) &&
            (Covers(b.history, end) ==> y.0.commands == m'.commands)
  {
    var more := b.history[|a.history|..];
    assert b.history == a.history + more;
    TimesConcat(a.history, more);
    var times := a.AnswerNow(m).0.journal.times;
    assert end.times[|m.journal.times|] == times[|m.journal.times|];
  }

  lemma {:induction false} StepAgrees(a: Decider, b: Decider, m: Machine, m': Machine, stepType: string, input: Json,
                   fed: nat, end: Journal)
    requires Continues(a, b, end) && fed <= |a.history|
    requires InStep(|a.history|, m, m')
    requires m.journal.issued + [StepShape(m.counters.steps + 1, stepType, input)] <= end.issued
    ensures var x, y := a.AnswerStep(m, stepType, input, fed), b.AnswerStep(m', stepType, input, fed);
            x.1 == y.1 && InStep(|a.history|, x.0, y.0) && (Covers(b.history, end) ==> y.0.commands == m'.commands)
  {
    hide Decider.IssueAndWait, Covers, Continues;
    var id := m.counters.steps + 1;
    var counters := m.counters.(steps := id);
    var command := ScheduleStep(id, stepType, input);
    IssueAgrees(a, b, m.(counters := counters), m'.(counters := counters), StepShape(id, stepType, input),
                command, command, true, OnStep(id, stepType), fed, end);
  }

  lemma {:induction false} SleepAgrees(a: Decider, b: Decider, m: Machine, m': Machine, duration: Duration, fed: nat, end: Journal)
    requires Continues(a, b, end) && fed <= |a.history|
    requires InStep(|a.history|, m, m')
    requires duration.Finite? && 0 <= duration.ms ==>
      m.journal.issued + [TimerShape(m.counters.timers + 1, Some(duration.ms))] <= end.issued
    ensures var x, y := a.AnswerSleep(m, duration, fed), b.AnswerSleep(m', duration, fed);
            x.1 == y.1 && InStep(|a.history|, x.0, y.0) && (Covers(b.history, end) ==> y.0.commands == m'.commands)
  {
    hide Decider.IssueAndWait, Covers, Continues;
    if duration.Finite? && 0 <= duration.ms {
      var id := m.counters.timers + 1;
      var counters := m.counters.(timers := id);
      IssueAgrees(a, b, m.(counters := counters), m'.(counters := counters), TimerShape(id, Some(duration.ms)),
                  StartTimer(id, a.moment.clock(m.journal.Asked()) + duration.ms, duration.ms),
                  StartTimer(id, b.moment.clock(m'.journal.Asked()) + duration.ms, duration.ms),
                  true, OnTimer(id), fed, end);
    }
  }

  lemma {:induction false} ChildAgrees(a: Decider, b: Decider, m: Machine, m': Machine, call: Call, fed: nat, end: Journal)
    requires Continues(a, b, end) && fed <= |a.history| && call.ExecuteChild?
    requires InStep(|a.history|, m, m')
    requires m.counters.children + 1 <= a.settings.maxChildren ==>
      m.journal.issued + [ChildShape(m.counters.children + 1, call.workflowType, call.input)] <= end.issued
    ensures var x, y := a.AnswerChild(m, call, fed), b.AnswerChild(m', call, fed);
            x.1 == y.1 && InStep(|a.history|, x.0, y.0) && (Covers(b.history, end) ==> y.0.commands == m'.commands)
  {
    hide Decider.IssueAndWait, Covers;
    var id := m.counters.children + 1;
    if id <= a.settings.maxChildren {
      var counters := m.counters.(children := id);
      var command := StartChild(id, call.workflowType, call.input, call.policy,
                                call.runTimeoutMs, call.executionTimeoutMs);
      IssueAgrees(a, b, m.(counters := counters), m'.(counters := counters),
                  ChildShape(id, call.workflowType, call.input), command, command, false, OnChild(id), fed, end);
    }
  }

  lemma {:induction false} SignalAgrees(a: Decider, b: Decider, m: Machine, m': Machine, name: string, fed: nat)
    requires a.history <= b.history && fed <= |a.history|
    requires InStep(|a.history|, m, m')
    ensures var x, y := a.AnswerSignal(m, name, fed), b.AnswerSignal(m', name, fed);
            x.1 == y.1 && InStep(|a.history|, x.0, y.0) && y.0.commands == m'.commands
  {
    var taken := SignalsTaken(m.counters.signals, name);
    var counters := m.counters.(signals := m.counters.signals[name := taken + 1]);
    RegisterAgrees(a, b, m.(counters := counters), m'.(counters := counters), OnSignal(name, taken), fed);
    RegisterKeeps(b, m'.(counters := counters), OnSignal(name, taken), fed);
  }

  lemma {:induction false} CallAgrees(a: Decider, b: Decider, m: Machine, m': Machine, call: Call, fed: nat, end: Journal)
    requires Continues(a, b, end) && MachineAccounted(a, m) && fed <= |a.history|
    requires InStep(|a.history|, m, m')
    requires JournalBefore(a.AnswerCall(m, call, fed).0.journal, end)
    ensures var x, y := a.AnswerCall(m, call, fed), b.AnswerCall(m', call, fed);
            x.1 == y.1 && InStep(|a.history|, x.0, y.0) &&
            (Covers(b.history, end) ==> y.0.commands == m'.commands)
  {
    hide Decider.AnswerStep, Decider.AnswerSleep, Decider.AnswerChild, Decider.AnswerSignal,
         Decider.AnswerSelect, Decider.AnswerNow, Decider.AnswerPatched, Covers, MachineAccounted;
    if call.Patched? {
      PatchedAgrees(a, b, m, m', call.patchId, end);
    } else {
      assert ShapeOf(a, m, call).Some? ==> m.journal.issued + [ShapeOf(a, m, call).value] <= end.issued by {
        CallEffect(a, m, call, fed);
      }
      match call
      case Step(stepType, input) => StepAgrees(a, b, m, m', stepType, input, fed, end);
      case Sleep(duration) => SleepAgrees(a, b, m, m', duration, fed, end);
      case ExecuteChild(_, _, _, _, _) => ChildAgrees(a, b, m, m', call, fed, end);
      case WaitForSignal(name) => SignalAgrees(a, b, m, m', name, fed);
      case Select(branches) => SelectAgrees(a, b, m, m', branches, fed);
      case Now => NowAgrees(a, b, m, m', end);
      case _ =>
    }
  }

  lemma {:induction false} TurnAgrees(a: Decider, b: Decider, m: Machine, m': Machine, fed: nat, end: Journal)
    requires Continues(a, b, end) && MachineAccounted(a, m) && fed <= |a.history|
    requires InStep(|a.history|, m, m') && !a.AtRest(m)
    requires JournalBefore(a.Turn(m, fed).journal, end)
    ensures !b.AtRest(m') && InStep(|a.history|, a.Turn(m, fed), b.Turn(m', fed))
    ensures Covers(b.history, end) ==> b.Turn(m', fed).commands == m'.commands
  {
    if a.handler.next(m.trace).Do? {
      CallAgrees(a, b, m, m', a.handler.next(m.trace).call, fed, end);
    }
  }

  lemma {:induction false} DrainAgrees(a: Decider, b: Decider, m: Machine, m': Machine, fed: nat, turns: nat, end: Journal)
    requires Continues(a, b, end) && MachineAccounted(a, m) && fed <= |a.history|
    requires InStep(|a.history|, m, m')
    requires JournalBefore(a.Drain(m, fed, turns).journal, end)
    ensures InStep(|a.history|, a.Drain(m, fed, turns), b.Drain(m', fed, turns))
    ensures Covers(b.history, end) ==> b.Drain(m', fed, turns).commands == m'.commands
    decreases turns
  {
    hide Decider.Turn, Decider.AnswerCall, MachineAccounted, Covers, SamePromises;
    if !(m.hung || a.AtRest(m)) && turns != 0 {
      var next := a.Turn(m, fed);
      BeforeDrain(a, next, fed, turns - 1);
      TurnAgrees(a, b, m, m', fed, end);
      AccountedTurn(a, m, fed);
      DrainAgrees(a, b, next, b.Turn(m', fed), fed, turns - 1, end);
    }
  }

  lemma {:induction false} DeliverAgrees(a: Decider, b: Decider, m: Machine, m': Machine, index: nat, end: Journal)
    requires Continues(a, b, end) && MachineAccounted(a, m) && index < |a.history|
    requires InStep(|a.history|, m, m')
    requires JournalBefore(a.Deliver(m, index).journal, end)
    ensures InStep(|a.history|, a.Deliver(m, index), b.Deliver(m', index))
    ensures Covers(b.history, end) ==> b.Deliver(m', index).commands == m'.commands
  {
    var more := b.history[|a.history|..];
    assert b.history == a.history + more;
    ReleasesAgree(a.history, more, m.promises, m'.promises, index);
    if !m.hung {
      var released := Releases(a.history, m.promises, index);
      DrainAgrees(a, b, m.(queue := m.queue + released), m'.(queue := m'.queue + released),
                  index + 1, a.settings.maxTurns, end);
    }
  }

  lemma {:induction false} FreshAgrees(a: Decider, b: Decider, end: Journal)
    requires Continues(a, b, end)
    requires JournalBefore(a.RunTo(0).journal, end)
    ensures InStep(|a.history|, a.RunTo(0), b.RunTo(0))
    ensures Covers(b.history, end) ==> b.RunTo(0).commands == []
  {
    DrainAgrees(a, b, a.Fresh(), b.Fresh(), 0, a.settings.maxTurns, end);
  }

  /** Up to the end of the shorter history, the two replays are in step. */
  lemma {:induction false} RunAgrees(a: Decider, b: Decider, count: nat)
    requires count <= |a.history|
    requires Continues(a, b, a.Run().journal)
    ensures InStep(|a.history|, a.RunTo(count), b.RunTo(count))
    ensures Covers(b.history, a.Run().journal) ==> b.RunTo(count).commands == []
  {
    hide Decider.Drain, Decider.Deliver, Covers, MachineAccounted;
    var end := a.Run().journal;
    BeforeRun(a, count, |a.history|);
    if count == 0 {
      FreshAgrees(a, b, end);
    } else {
      RunAgrees(a, b, count - 1);
      AccountedRun(a, count - 1);
      DeliverAgrees(a, b, a.RunTo(count - 1), b.RunTo(count - 1), count - 1, end);
    }
  }

  /**
   Replay is monotone: a handler replayed over a history that continues another
   observes everything it observed on the shorter one, in the same order, issues
   the same commands first, and gives the same answers to the same questions.
   */
  lemma {:induction false} ReplayIsMonotone(a: Decider, b: Decider)
    requires Continues(a, b, a.Run().journal)
    ensures a.Run().trace <= b.Run().trace
    ensures JournalBefore(a.Run().journal, b.Run().journal)
    ensures a.Run().settled.Some? ==> b.RunTo(|a.history|).settled == a.Run().settled
  {
    RunAgrees(a, b, |a.history|);
    BeforeRun(b, |a.history|, |b.history|);
  }
}
