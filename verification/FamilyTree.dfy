/**
 Chains and families of runs: every continue-as-new chain is an unbroken numbered list
 whose last run alone may be anything but CONTINUED_AS_NEW, and an open parent's log
 holds the outcome of a child exactly when the child's chain has ended.
 */
module FamilyTree {
  import opened WorkflowTypes
  import opened Projections
  import opened RunTables
  import opened CloseCascade
  import opened RunFacts

  /** The state a run stands in, counting a closing event its row has not seen yet. */
  function Standing(run: Run): RunState {
    if run.IsRunning() then ClosingState(run) else run.row.state
  }

  /** How a run hangs on its chain: the first of it, or the successor of the run it continues. */
  ghost predicate ChainLink(runs: Runs, x: nat)
    requires x in runs
  {
    var link := runs[x].link;
    link.first in runs && link.first <= x && runs[link.first].link.index == 0 &&
    runs[link.first].link.parent == link.parent && runs[link.first].link.policy == link.policy &&
    runs[link.first].link.deadline == link.deadline && runs[link.first].link.schedule == link.schedule &&
    (link.childKey.Some? ==> link.parent.Some?) &&
    if link.index == 0 then link.first == x && link.continuedFrom.None? && (link.parent.Some? ==> link.childKey.Some?)
    else link.childKey.None? && link.continuedFrom.Some? && Continues(runs, link.continuedFrom.value, x)
  }

  ghost predicate Continues(runs: Runs, y: nat, x: nat)
    requires x in runs
  {
    y in runs && y < x && runs[y].link.index + 1 == runs[x].link.index && runs[y].link.first == runs[x].link.first &&
    Standing(runs[y]) == RunState.ContinuedAsNew && HandsOn(runs[y], runs[x].link)
  }

  /** A run's log asks to continue as new with the input of its successor, which has its type and its run limit. */
  predicate HandsOn(run: Run, next: Link) {
    next.workflowType == run.link.workflowType && next.runTimeoutMs == run.link.runTimeoutMs && Asks(run.log, next.input)
  }

  predicate Asks(log: seq<StoredEvent>, input: Json) {
    exists i :: 0 <= i < |log| && log[i].event == RunContinuedAsNew(input)
  }

  /** No two runs of a chain have the same number, and no two chains the same parent and name. */
  ghost predicate Unlike(runs: Runs, x: nat, y: nat)
    requires x in runs && y in runs
  {
    ((runs[x].link.first == runs[y].link.first && runs[x].link.index == runs[y].link.index) ==> x == y) &&
    ((runs[x].link.childKey.Some? && runs[x].link.childKey == runs[y].link.childKey &&
      runs[x].link.parent == runs[y].link.parent) ==> x == y)
  }

  ghost predicate IsContinued(runs: Runs, x: nat) {
    exists y :: y in runs && runs[y].link.continuedFrom == Some(x)
  }

  /** Every chain is an unbroken list of numbered runs; who continued as new has a successor. */
  ghost predicate ChainsOk(runs: Runs) {
    (forall x {:trigger ChainLink(runs, x)} :: x in runs ==> ChainLink(runs, x)) &&
    (forall x, y {:trigger Unlike(runs, x, y)} :: x in runs && y in runs ==> Unlike(runs, x, y)) &&
    (forall x {:trigger IsContinued(runs, x)} ::
       x in runs && Standing(runs[x]) == RunState.ContinuedAsNew ==> IsContinued(runs, x))
  }

  /** A child of `p` by that name has ended: the run is closed, and not by continuing as new. */
  predicate EndedAs(runs: Runs, p: nat, childId: nat, x: nat) {
    x in runs && runs[x].link.parent == Some(p) && ChildKeyOf(runs, x) == Some(childId) &&
    IsTerminal(runs[x].row.state) && runs[x].row.state != RunState.ContinuedAsNew
  }

  ghost predicate ChildEnded(runs: Runs, p: nat, childId: nat) {
    exists x :: EndedAs(runs, p, childId, x)
  }

  /** An open parent's log holds one outcome of a child whose chain has ended, and none of any other. */
  ghost predicate OutcomesOk(runs: Runs) {
    forall p, childId: nat {:trigger Count(runs[p].log, ChildEnd(childId))} {:trigger ChildEnded(runs, p, childId)} ::
      p in runs && runs[p].IsRunning() ==>
      Count(runs[p].log, ChildEnd(childId)) == if ChildEnded(runs, p, childId) then 1 else 0
  }

  /** The error that stands for how a child was closed, when it has none of its own. */
  function NamedError(closing: Event): RecordedError {
    match closing
    case RunTimedOut(_) => RecordedError("TimedOutError", "child workflow timed out")
    case RunCancelled(_) => RecordedError("CancelledError", "child workflow was cancelled")
    case _ => RecordedError("TerminatedError", "child workflow was terminated")
  }

  /** What a parent is told of a child that was closed by `closing`. */
  predicate IsOutcomeOf(outcome: Event, childId: nat, closing: Event) {
    match closing
    case RunCompleted(result) => outcome == ChildCompleted(childId, result)
    case RunFailed(error) => outcome == ChildFailed(childId, error)
    case RunTimedOut(_) => outcome == ChildFailed(childId, NamedError(closing))
    case RunCancelled(_) => outcome == ChildFailed(childId, NamedError(closing))
    case RunTerminated(_) => outcome == ChildFailed(childId, NamedError(closing))
    case _ => false
  }

  predicate IsToldBy(outcome: Event, childId: nat, log: seq<StoredEvent>) {
    exists i :: 0 <= i < |log| && IsOutcomeOf(outcome, childId, log[i].event)
  }

  /** An outcome in the log of `p` is that of a child that has ended, as the child's own log says. */
  ghost predicate IsHeard(runs: Runs, p: nat, outcome: Event)
    requires IsChildOutcome(outcome)
  {
    exists x :: EndedAs(runs, p, outcome.childId, x) && IsToldBy(outcome, outcome.childId, runs[x].log)
  }

  ghost predicate HearsTruly(runs: Runs, p: nat)
    requires p in runs
  {
    runs[p].IsRunning() ==>
      forall i :: 0 <= i < |runs[p].log| && IsChildOutcome(runs[p].log[i].event) ==> IsHeard(runs, p, runs[p].log[i].event)
  }

  ghost predicate OutcomesSay(runs: Runs) {
    forall p :: p in runs ==> HearsTruly(runs, p)
  }

  ghost predicate FamilyOk(runs: Runs) {
    IsForest(runs) && ChainsOk(runs) && OutcomesOk(runs) && OutcomesSay(runs)
  }

  // ---- reading the invariant ---------------------------------------------------------

  /** Before any run of a chain there is one of every smaller number, and it continued as new. */
  lemma {:induction false} EarlierInChain(runs: Runs, x: nat, index: nat) returns (y: nat)
    requires ChainsOk(runs) && x in runs && index < runs[x].link.index
    ensures y in runs && runs[y].link.first == runs[x].link.first && runs[y].link.index == index
    ensures Standing(runs[y]) == RunState.ContinuedAsNew
    decreases runs[x].link.index
  {
    assert ChainLink(runs, x);
    var before := runs[x].link.continuedFrom.value;
    if runs[before].link.index == index {
      y := before;
    } else {
      y := EarlierInChain(runs, before, index);
    }
  }

  lemma {:induction false} EarlierContinued(runs: Runs, x: nat, y: nat)
    requires ChainsOk(runs) && x in runs && y in runs && runs[x].link.first == runs[y].link.first
    requires runs[x].link.index < runs[y].link.index
    ensures Standing(runs[x]) == RunState.ContinuedAsNew
  {
    var z := EarlierInChain(runs, y, runs[x].link.index);
    assert Unlike(runs, x, z);
  }

  /** Every run of a chain but its last continued as new: two runs of which neither did are one. */
  lemma {:induction false} OneEndPerChain(runs: Runs, x: nat, y: nat)
    requires ChainsOk(runs) && x in runs && y in runs && runs[x].link.first == runs[y].link.first
    requires Standing(runs[x]) != RunState.ContinuedAsNew && Standing(runs[y]) != RunState.ContinuedAsNew
    ensures x == y
  {
    assert Unlike(runs, x, y);
    if runs[x].link.index < runs[y].link.index {
      EarlierContinued(runs, x, y);
    } else if runs[y].link.index < runs[x].link.index {
      EarlierContinued(runs, y, x);
    }
  }

  /** Who continued as new has a successor in the chain. */
  lemma {:induction false} Successor(runs: Runs, x: nat) returns (y: nat)
    requires ChainsOk(runs) && x in runs && Standing(runs[x]) == RunState.ContinuedAsNew
    ensures y in runs && runs[y].link.first == runs[x].link.first && runs[y].link.index == runs[x].link.index + 1
  {
    assert IsContinued(runs, x);
    y :| y in runs && runs[y].link.continuedFrom == Some(x);
    assert ChainLink(runs, y);
  }

  /** One deadline, one parent, one policy and one schedule hold for the whole chain. */
  lemma {:induction false} ChainSharesItsLimits(runs: Runs, x: nat, y: nat)
    requires ChainsOk(runs) && x in runs && y in runs && runs[x].link.first == runs[y].link.first
    ensures runs[x].link.deadline == runs[y].link.deadline && runs[x].link.parent == runs[y].link.parent &&
            runs[x].link.policy == runs[y].link.policy && runs[x].link.schedule == runs[y].link.schedule
  {
    assert ChainLink(runs, x) && ChainLink(runs, y);
  }

  /** The child key of a run in a chain is that of the chain's first run. */
  lemma {:induction false} KeyOfChain(runs: Runs, x: nat)
    requires ChainsOk(runs) && x in runs
    ensures runs[x].link.first in runs && ChildKeyOf(runs, x) == runs[runs[x].link.first].link.childKey
  {
    assert ChainLink(runs, x);
    assert Unlike(runs, x, runs[x].link.first);
  }

  /** Two children of one parent by one name belong to one chain. */
  lemma {:induction false} SameNameSameChain(runs: Runs, x: nat, y: nat)
    requires ChainsOk(runs) && x in runs && y in runs
    requires runs[x].link.parent.Some? && runs[x].link.parent == runs[y].link.parent
    requires ChildKeyOf(runs, x) == ChildKeyOf(runs, y)
    ensures runs[x].link.first == runs[y].link.first && ChildKeyOf(runs, x).Some?
  {
    KeyOfChain(runs, x);
    KeyOfChain(runs, y);
    assert ChainLink(runs, x) && ChainLink(runs, y);
    var f, g := runs[x].link.first, runs[y].link.first;
    assert ChainLink(runs, f) && ChainLink(runs, g);
    assert Unlike(runs, f, g);
  }

  /**
   While a parent is open, its log holds an outcome of a child exactly when the last run
   of the child's chain is closed, and never two.
   */
  lemma {:induction false} OutcomeExactlyWhenChainEnded(runs: Runs, p: nat, x: nat)
    requires FamilyOk(runs) && p in runs && runs[p].IsRunning()
    requires x in runs && runs[x].link.parent == Some(p)
    // `x` is the last of its chain
    requires forall y :: y in runs && runs[y].link.first == runs[x].link.first ==> runs[y].link.index <= runs[x].link.index
    requires runs[x].IsRunning() ==> Standing(runs[x]) == Running
    ensures ChildKeyOf(runs, x).Some?
    ensures Count(runs[p].log, ChildEnd(ChildKeyOf(runs, x).value)) == if runs[x].IsRunning() then 0 else 1
  {
    SameNameSameChain(runs, x, x);
    var childId := ChildKeyOf(runs, x).value;
    if Standing(runs[x]) == RunState.ContinuedAsNew {
      var y := Successor(runs, x);
    }
    if !runs[x].IsRunning() {
      assert EndedAs(runs, p, childId, x);
    }
    if ChildEnded(runs, p, childId) {
      var y :| EndedAs(runs, p, childId, y);
      SameNameSameChain(runs, x, y);
      OneEndPerChain(runs, x, y);
    }
    assert Count(runs[p].log, ChildEnd(childId)) == if ChildEnded(runs, p, childId) then 1 else 0;
  }

  // ---- what parents hear stays true ----------------------------------------------------------

  /** The log of a run only grew, and a closed run is as closed as it was. */
  predicate LogGoesOn(before: Run, after: Run) {
    after.link == before.link && before.log <= after.log && (after.IsRunning() ==> before.IsRunning()) &&
    (!before.IsRunning() ==> after.row.state == before.row.state)
  }

  lemma {:induction false} ToldStill(outcome: Event, childId: nat, log: seq<StoredEvent>, longer: seq<StoredEvent>)
    requires log <= longer && IsToldBy(outcome, childId, log)
    ensures IsToldBy(outcome, childId, longer)
  {
    var i :| 0 <= i < |log| && IsOutcomeOf(outcome, childId, log[i].event);
    assert longer[i] == log[i];
  }

  lemma {:induction false} HeardStill(left: Runs, right: Runs, p: nat, outcome: Event)
    requires IsForest(left) && left.Keys <= right.Keys && (forall x :: x in left ==> LogGoesOn(left[x], right[x]))
    requires IsChildOutcome(outcome) && IsHeard(left, p, outcome)
    ensures IsHeard(right, p, outcome)
  {
    var x :| EndedAs(left, p, outcome.childId, x) && IsToldBy(outcome, outcome.childId, left[x].log);
    assert OlderParent(left, x) && LogGoesOn(left[x], right[x]) && LogGoesOn(left[left[x].link.first], right[left[x].link.first]);
    ToldStill(outcome, outcome.childId, left[x].log, right[x].log);
    hide IsToldBy, IsForest;
    assert EndedAs(right, p, outcome.childId, x);
  }

  /** An open run's log holds an outcome that it did not hold before. */
  predicate IsNewOutcome(left: Runs, right: Runs, p: nat, i: nat) {
    p in right && right[p].IsRunning() && (if p in left then |left[p].log| else 0) <= i < |right[p].log| &&
    IsChildOutcome(right[p].log[i].event)
  }

  /** Where logs only grow, what was heard stays true; what is new must be. */
  lemma {:induction false} SayingStays(left: Runs, right: Runs)
    requires IsForest(left) && OutcomesSay(left) && left.Keys <= right.Keys
    requires forall x :: x in left ==> LogGoesOn(left[x], right[x])
    requires forall p: nat, i: nat :: IsNewOutcome(left, right, p, i) ==> IsHeard(right, p, right[p].log[i].event)
    ensures OutcomesSay(right)
  {
    forall p | p in right
      ensures HearsTruly(right, p)
    {
      if right[p].IsRunning() {
        forall i | 0 <= i < |right[p].log| && IsChildOutcome(right[p].log[i].event)
          ensures IsHeard(right, p, right[p].log[i].event)
        {
          if p in left && i < |left[p].log| {
            assert LogGoesOn(left[p], right[p]) && HearsTruly(left, p) && right[p].log[i] == left[p].log[i];
            HeardStill(left, right, p, left[p].log[i].event);
          } else {
            assert IsNewOutcome(left, right, p, i);
          }
        }
      }
    }
  }

  /** One run's log went on without hearing of a child; everything else is as it was. */
  lemma {:induction false} OneRunHearsNothing(runs: Runs, r: nat, run: Run)
    requires IsForest(runs) && OutcomesSay(runs) && r in runs && HearsNothing(runs[r], run) && run.link == runs[r].link
    requires run.row.state == runs[r].row.state
    ensures OutcomesSay(runs[r := run])
  {
    var after := runs[r := run];
    assert forall x :: x in runs ==> LogGoesOn(runs[x], after[x]);
    hide OutcomesSay, IsHeard, IsForest;
    SayingStays(runs, after);
  }

  /** A run is added that has heard of no child. */
  lemma {:induction false} AddedHearsNothing(runs: Runs, id: nat, run: Run)
    requires IsForest(runs) && OutcomesSay(runs) && id !in runs
    requires forall i :: 0 <= i < |run.log| ==> !IsChildOutcome(run.log[i].event)
    ensures OutcomesSay(runs[id := run])
  {
    var after := runs[id := run];
    assert forall x :: x in runs ==> LogGoesOn(runs[x], after[x]);
    hide OutcomesSay, IsHeard, IsForest;
    SayingStays(runs, after);
  }

  // ---- closing keeps the families ------------------------------------------------------

  ghost predicate AllOk(runs: Runs, except: nat) {
    forall x {:trigger RunOk(runs[x])} :: x in runs && x != except ==> RunOk(runs[x])
  }

  /** The families are in order, and `r` is the one run about to close. */
  ghost predicate ReadyToClose(runs: Runs, r: nat) {
    FamilyOk(runs) && r in runs && AboutToClose(runs[r]) && AllOk(runs, r)
  }

  ghost predicate StoreOk(runs: Runs) {
    FamilyOk(runs) && forall x {:trigger RunOk(runs[x])} :: x in runs ==> RunOk(runs[x])
  }

  lemma {:induction false} EndingKeepsOk(run: Run, now: int)
    requires RunOk(run) && run.IsRunning()
    ensures RunOk(Ended(run, now)) && Ended(run, now).row.state == Terminated
    ensures forall i :: 0 <= i < |Ended(run, now).tasks| ==> Ended(run, now).tasks[i].state != TaskPending
  {
    var event := RunTerminated(Some("parent run closed"));
    ClosingIsAboutToClose(run, event, now);
    hide RunOk, AboutToClose, Run.Append, Run.Closed, ClosingState;
    ClosingKeepsOk(run.Append(event, now));
  }

  lemma {:induction false} AskedKeepsOk(run: Run, now: int)
    requires RunOk(run) && run.IsRunning()
    ensures RunOk(Asked(run, now)) && Asked(run, now).IsRunning() && Count(Asked(run, now).log, CancelWish) == 1
    ensures forall childId: nat :: Count(Asked(run, now).log, ChildEnd(childId)) == Count(run.log, ChildEnd(childId))
  {
    var event := CancelRequested(Some("parent run closed"));
    CountAppend(run, event, now);
    assert Count(run.log, CancelWish) <= 1;
    if Count(run.log, CancelWish) == 0 {
      AskingKeepsOk(run, event, now);
    }
    hide RunOk, Count;
  }

  lemma {:induction false} ToldKeepsOk(run: Run, childKey: Option<nat>, row: Projection, now: int)
    requires RunOk(run)
    ensures var after := Told(run, childKey, row, now);
            RunOk(after) && after.row == run.row &&
            forall childId: nat ::
              Count(after.log, ChildEnd(childId)) == Count(run.log, ChildEnd(childId)) +
                if run.IsRunning() && childKey == Some(childId) && IsTerminal(row.state) && row.state != RunState.ContinuedAsNew
                then 1 else 0
  {
    if childKey.Some? {
      var event := ChildOutcome(childKey.value, row);
      OutcomeIsPlain(childKey.value, row);
      if run.IsRunning() {
        CountAppend(run, event, now);
        PlainKeepsOk(run, event, now);
        assert Sound(run.Append(event, now)) && ClosedMeansClosed(run.Append(event, now));
        EnqueueKeepsSound(run.Append(event, now), WorkflowTask);
        assert RunOk(run.Append(event, now).Enqueue(WorkflowTask));
      }
    }
    hide RunOk, Sound, ClosedMeansClosed, Count, ChildOutcome;
  }

  lemma {:induction false} OutcomeIsPlain(childId: nat, row: Projection)
    ensures var event := ChildOutcome(childId, row);
            IsPlain(event) && !IsClosing(event) && TopicOf(event) == Some(ChildEnd(childId))
  {
  }

  /** Whatever its fate, a run stays as it must be. */
  lemma {:induction false} FateKeepsOk(base: Runs, r: nat, x: nat, now: int)
    requires ReadyToClose(base, r) && x in base
    ensures RunOk(After(base, r, x, now))
  {
    var run := base[x];
    assert x != r ==> RunOk(run);
    assert FateOf(base, r, x) in {IsEnded, IsAsked} ==> run.IsRunning();
    match FateOf(base, r, x)
    case Closes => ClosingKeepsOk(run);
    case IsEnded => EndingKeepsOk(run, now);
    case IsAsked => AskedKeepsOk(run, now);
    case IsTold => ToldKeepsOk(run, ChildKeyOf(base, r), base[r].Closed().row, now);
    case Stays =>
    hide RunOk, Run.Closed, Ended, Asked, Told, FateOf, ChildKeyOf;
  }

  lemma {:induction false} OpenStandsRunning(run: Run)
    requires RunOk(run) && run.IsRunning()
    ensures Standing(run) == Running
  {
  }

  /** Closing changes who continued as new for nobody. */
  lemma {:induction false} FateKeepsStanding(base: Runs, r: nat, x: nat, now: int)
    requires ReadyToClose(base, r) && x in base
    ensures var after := After(base, r, x, now);
            after.link == base[x].link &&
            (Standing(after) == RunState.ContinuedAsNew <==> Standing(base[x]) == RunState.ContinuedAsNew) &&
            (after.IsRunning() <==> base[x].IsRunning() && x != r && !Doomed(base, r, x)) &&
            (!base[x].IsRunning() ==> after.row.state == base[x].row.state) &&
            (x == r ==> after.row.state == Standing(base[r])) && (x != r && Doomed(base, r, x) ==> after.row.state == Terminated)
  {
    var run := base[x];
    FateKeepsOk(base, r, x, now);
    var after := After(base, r, x, now);
    assert x != r ==> RunOk(run);
    FatedKeepsLink(FateOf(base, r, x), run, ChildKeyOf(base, r), base[r].Closed().row, now);
    assert FateOf(base, r, x) in {IsEnded, IsAsked} ==> run.IsRunning();
    if x != r && run.IsRunning() {
      OpenStandsRunning(run);
    }
    if after.IsRunning() {
      OpenStandsRunning(after);
    }
    match FateOf(base, r, x)
    case Closes => ClosedRowFolds(run);
    case IsEnded => EndingKeepsOk(run, now);
    case IsAsked => AskedKeepsOk(run, now);
    case IsTold => ToldKeepsOk(run, ChildKeyOf(base, r), base[r].Closed().row, now);
    case Stays =>
    hide RunOk, Run.Closed, Ended, Asked, Told, ChildKeyOf, ClosingState, Doomed, AboutToClose;
  }

  lemma {:induction false} AsksStill(log: seq<StoredEvent>, longer: seq<StoredEvent>, input: Json)
    requires log <= longer
    ensures Asks(log, input) ==> Asks(longer, input)
  {
    if Asks(log, input) {
      var i :| 0 <= i < |log| && log[i].event == RunContinuedAsNew(input);
      assert longer[i].event == RunContinuedAsNew(input);
    }
  }

  /** Chains look only at links, at who continued as new and at what with, which logs that grow still say. */
  lemma {:induction false} SameChains(left: Runs, right: Runs)
    requires ChainsOk(left) && SameLinks(left, right)
    requires forall x :: x in left ==>
      (Standing(right[x]) == RunState.ContinuedAsNew <==> Standing(left[x]) == RunState.ContinuedAsNew)
    requires forall x :: x in left ==> left[x].log <= right[x].log
    ensures ChainsOk(right)
  {
    hide Standing, Asks;
    forall x | x in right
      ensures ChainLink(right, x)
    {
      assert ChainLink(left, x);
      if left[x].link.continuedFrom.Some? && left[x].link.continuedFrom.value in left {
        AsksStill(left[left[x].link.continuedFrom.value].log, right[left[x].link.continuedFrom.value].log, left[x].link.input);
      }
    }
    forall x, y | x in right && y in right
      ensures Unlike(right, x, y)
    {
      assert Unlike(left, x, y);
    }
    forall x | x in right && Standing(right[x]) == RunState.ContinuedAsNew
      ensures IsContinued(right, x)
    {
      assert IsContinued(left, x);
      var y :| y in left && left[y].link.continuedFrom == Some(x);
      assert right[y].link.continuedFrom == Some(x);
    }
  }

  /** Before `r` closes, its open parent has heard no outcome of it. */
  lemma {:induction false} NotYetEnded(base: Runs, r: nat)
    requires ReadyToClose(base, r) && base[r].link.parent.Some? && Standing(base[r]) != RunState.ContinuedAsNew
    ensures ChildKeyOf(base, r).Some?
    ensures !ChildEnded(base, base[r].link.parent.value, ChildKeyOf(base, r).value)
  {
    var p := base[r].link.parent.value;
    SameNameSameChain(base, r, r);
    var childId := ChildKeyOf(base, r).value;
    forall x | x in base
      ensures !EndedAs(base, p, childId, x)
    {
      if EndedAs(base, p, childId, x) {
        SameNameSameChain(base, r, x);
        OneEndPerChain(base, r, x);
      }
    }
  }

  /** Who has ended as that child once `r` is closed: who had, and `r` unless it continued as new. */
  lemma {:induction false} WhoEndsAs(base: Runs, after: Runs, r: nat, now: int, p: nat, childId: nat, x: nat)
    requires ReadyToClose(base, r) && after.Keys == base.Keys
    requires forall x :: x in base ==> after[x] == After(base, r, x, now)
    requires x in base && p in base && after[p].IsRunning()
    ensures EndedAs(after, p, childId, x) <==>
      EndedAs(base, p, childId, x) ||
      (x == r && base[r].link.parent == Some(p) && ChildKeyOf(base, r) == Some(childId) &&
       Standing(base[r]) != RunState.ContinuedAsNew)
  {
    hide After, ReadyToClose, FamilyOk, Standing;
    ReadyStands(base, r);
    FateKeepsStanding(base, r, p, now);
    FateKeepsStanding(base, r, x, now);
    if base[x].link.first in base {
      FateKeepsStanding(base, r, base[x].link.first, now);
    }
  }

  /** Which children have ended once `r` is closed: those that had, and `r` unless it continued as new. */
  lemma {:induction false} WhoHasEnded(base: Runs, after: Runs, r: nat, now: int, p: nat, childId: nat)
    requires ReadyToClose(base, r) && after.Keys == base.Keys
    requires forall x :: x in base ==> after[x] == After(base, r, x, now)
    requires p in base && after[p].IsRunning()
    ensures ChildEnded(after, p, childId) <==>
      ChildEnded(base, p, childId) ||
      (base[r].link.parent == Some(p) && ChildKeyOf(base, r) == Some(childId) && Standing(base[r]) != RunState.ContinuedAsNew)
  {
    ReadyStands(base, r);
    hide After, ReadyToClose, EndedAs, Standing, ChildKeyOf;
    var ends := base[r].link.parent == Some(p) && ChildKeyOf(base, r) == Some(childId) && Standing(base[r]) != RunState.ContinuedAsNew;
    if ChildEnded(after, p, childId) {
      var x :| EndedAs(after, p, childId, x);
      EndedIsThere(after, p, childId, x);
      WhoEndsAs(base, after, r, now, p, childId, x);
    }
    if ChildEnded(base, p, childId) {
      var x :| EndedAs(base, p, childId, x);
      EndedIsThere(base, p, childId, x);
      WhoEndsAs(base, after, r, now, p, childId, x);
    }
    if ends {
      WhoEndsAs(base, after, r, now, p, childId, r);
    }
  }

  lemma EndedIsThere(runs: Runs, p: nat, childId: nat, x: nat)
    requires EndedAs(runs, p, childId, x)
    ensures x in runs
  {
  }

  lemma {:induction false} ReadyStands(base: Runs, r: nat)
    requires ReadyToClose(base, r)
    ensures r in base && IsTerminal(Standing(base[r])) && base[r].IsRunning()
  {
  }

  lemma {:induction false} ClosedKeepsLog(run: Run)
    ensures run.Closed().log == run.log
  {
    hide Fold, Withdrawn;
  }

  /** What closing a run adds to the logs: the end of its descendants, and its own outcome in its parent's. */
  lemma {:induction false} FateAppends(fate: Fate, run: Run, childKey: Option<nat>, row: Projection, now: int)
    ensures var after := Fated(fate, run, childKey, row, now);
            run.log <= after.log &&
            forall i :: |run.log| <= i < |after.log| && IsChildOutcome(after.log[i].event) ==>
              fate == IsTold && childKey.Some? && row.state != RunState.ContinuedAsNew && IsTerminal(row.state) &&
              after.log[i].event == ChildOutcome(childKey.value, row)
  {
    ClosedKeepsLog(run);
    ClosedKeepsLog(run.Append(RunTerminated(Some("parent run closed")), now));
    hide Run.Closed, ChildOutcome, Count;
  }

  lemma {:induction false} FateGrows(base: Runs, r: nat, x: nat, now: int)
    requires ReadyToClose(base, r) && x in base
    ensures LogGoesOn(base[x], After(base, r, x, now))
  {
    FateKeepsStanding(base, r, x, now);
    FateAppends(FateOf(base, r, x), base[x], ChildKeyOf(base, r), base[r].Closed().row, now);
    hide Fated, FateOf, ReadyToClose, Standing, Doomed, Run.Closed, ChildKeyOf;
  }

  /** What a parent is told is how the run was closed. */
  lemma {:induction false} TellsHowItClosed(run: Run, childId: nat)
    requires AboutToClose(run) && run.Closed().row.state != RunState.ContinuedAsNew
    ensures IsOutcomeOf(ChildOutcome(childId, run.Closed().row), childId, run.log[|run.log| - 1].event)
    ensures IsToldBy(ChildOutcome(childId, run.Closed().row), childId, run.Closed().log)
  {
    ClosingRowSays(run);
    ClosedKeepsLog(run);
    hide AboutToClose, Run.Closed;
  }

  lemma {:induction false} ClosingKeepsSaying(base: Runs, after: Runs, r: nat, now: int)
    requires ReadyToClose(base, r) && after.Keys == base.Keys && IsForest(base) && OutcomesSay(base)
    requires forall x :: x in base ==> after[x] == After(base, r, x, now)
    ensures OutcomesSay(after)
  {
    hide OutcomesSay, After, FateOf, ReadyToClose, IsForest;
    forall x | x in base
      ensures LogGoesOn(base[x], after[x])
    {
      FateGrows(base, r, x, now);
    }
    forall p: nat, i: nat | IsNewOutcome(base, after, p, i)
      ensures IsHeard(after, p, after[p].log[i].event)
    {
      HeardOfTheClosing(base, after, r, now, p, i);
    }
    SayingStays(base, after);
  }

  lemma {:induction false} HeardOfTheClosing(base: Runs, after: Runs, r: nat, now: int, p: nat, i: nat)
    requires ReadyToClose(base, r) && after.Keys == base.Keys && forall x :: x in base ==> after[x] == After(base, r, x, now)
    requires p in after && after[p].IsRunning() && |base[p].log| <= i < |after[p].log| && IsChildOutcome(after[p].log[i].event)
    ensures IsHeard(after, p, after[p].log[i].event)
  {
    assert AboutToClose(base[r]) && IsForest(base);
    FateAppends(FateOf(base, r, p), base[p], ChildKeyOf(base, r), base[r].Closed().row, now);
    assert FateOf(base, r, p) == IsTold && base[r].link.parent == Some(p);
    var childId := ChildKeyOf(base, r).value;
    TellsHowItClosed(base[r], childId);
    assert OlderParent(base, r);
    FateKeepsStanding(base, r, r, now);
    FateKeepsStanding(base, r, base[r].link.first, now);
    assert after[r] == base[r].Closed();
    OutcomeIsOfKey(childId, base[r].Closed().row);
    hide Run.Closed, FateOf, Fated, ReadyToClose, IsForest, AboutToClose, ChildOutcome, IsToldBy, Standing, Doomed;
    assert EndedAs(after, p, childId, r);
  }

  lemma OutcomeIsOfKey(childId: nat, row: Projection)
    ensures IsChildOutcome(ChildOutcome(childId, row)) && ChildOutcome(childId, row).childId == childId
  {
  }

  /** Closing a run and everything that goes with it leaves every family in order. */
  lemma {:induction false} ClosingKeepsFamilies(base: Runs, after: Runs, r: nat, now: int)
    requires ReadyToClose(base, r) && after.Keys == base.Keys
    requires forall x :: x in base ==> after[x] == After(base, r, x, now)
    ensures StoreOk(after)
  {
    hide After, FateOf, RunOk, Standing, AboutToClose, ChainsOk, OutcomesOk, OutcomesSay;
    forall x | x in base
      ensures after[x].link == base[x].link && RunOk(after[x]) && base[x].log <= after[x].log
      ensures Standing(after[x]) == RunState.ContinuedAsNew <==> Standing(base[x]) == RunState.ContinuedAsNew
    {
      FateKeepsStanding(base, r, x, now);
      FateKeepsOk(base, r, x, now);
      FateGrows(base, r, x, now);
    }
    assert SameLinks(base, after);
    ForestSameLinks(base, after);
    SameChains(base, after);
    ClosingKeepsOutcomes(base, after, r, now);
    ClosingKeepsSaying(base, after, r, now);
  }

  lemma {:induction false} ClosingKeepsOutcomes(base: Runs, after: Runs, r: nat, now: int)
    requires ReadyToClose(base, r) && after.Keys == base.Keys
    requires forall x :: x in base ==> after[x] == After(base, r, x, now)
    ensures OutcomesOk(after)
  {
    hide After, FateOf, RunOk, Standing, AboutToClose, ChainsOk, Count, ChildEnded;
    forall p, childId: nat | p in after && after[p].IsRunning()
      ensures Count(after[p].log, ChildEnd(childId)) == if ChildEnded(after, p, childId) then 1 else 0
    {
      FateKeepsStanding(base, r, p, now);
      assert Count(base[p].log, ChildEnd(childId)) == if ChildEnded(base, p, childId) then 1 else 0;
      WhoHasEnded(base, after, r, now, p, childId);
      HearsOf(base, r, now, p, childId);
      if base[r].link.parent == Some(p) && Standing(base[r]) != RunState.ContinuedAsNew {
        NotYetEnded(base, r);
      }
    }
  }

  /** What an open run's log hears of its children when `r` closes. */
  lemma {:induction false} HearsOf(base: Runs, r: nat, now: int, p: nat, childId: nat)
    requires ReadyToClose(base, r) && p in base && After(base, r, p, now).IsRunning()
    ensures Count(After(base, r, p, now).log, ChildEnd(childId)) ==
            Count(base[p].log, ChildEnd(childId)) +
            if base[r].link.parent == Some(p) && ChildKeyOf(base, r) == Some(childId) &&
               Standing(base[r]) != RunState.ContinuedAsNew then 1 else 0
  {
    FateKeepsStanding(base, r, p, now);
    assert p != r && !Doomed(base, r, p) && base[p].IsRunning() && RunOk(base[p]);
    ReadyStands(base, r);
    ClosedRowFolds(base[r]);
    assert OlderParent(base, r);
    if base[r].link.parent == Some(p) {
      ParentIsTold(base, r);
    }
    match FateOf(base, r, p)
    case IsAsked => AskedKeepsOk(base[p], now);
    case IsTold => ToldKeepsOk(base[p], ChildKeyOf(base, r), base[r].Closed().row, now);
    case Stays =>
    hide RunOk, Run.Closed, Ended, Asked, Told, ChildKeyOf, Doomed, AboutToClose, Count, ChainsOk, OutcomesOk, IsForest;
  }

  // ---- one run at a time -----------------------------------------------------------------

  /** A transaction on one run's own tables, which closes nothing and tells it of no child. */
  lemma {:induction false} UpdateKeepsStore(runs: Runs, r: nat, run: Run)
    requires StoreOk(runs) && r in runs && RunOk(run) && run.link == runs[r].link && run.row == runs[r].row
    requires forall childId: nat :: Count(run.log, ChildEnd(childId)) == Count(runs[r].log, ChildEnd(childId))
    requires HearsNothing(runs[r], run)
    ensures StoreOk(runs[r := run])
  {
    hide RunOk, Standing, Count, ChainsOk, OutcomesOk, OutcomesSay, IsForest, IsTerminal;
    var after := runs[r := run];
    StandsAsBefore(runs, r, run);
    OneRunHearsNothing(runs, r, run);
    assert forall x :: x in after ==> RunOk(after[x]);
    UpdateKeepsFamilies(runs, after);
  }

  lemma {:induction false} StandsAsBefore(runs: Runs, r: nat, run: Run)
    requires StoreOk(runs) && r in runs && RunOk(run) && run.row == runs[r].row
    ensures Standing(run) == Standing(runs[r])
  {
    assert RunOk(runs[r]);
    if run.IsRunning() {
      OpenStandsRunning(run);
      OpenStandsRunning(runs[r]);
    }
    hide RunOk;
  }

  lemma {:induction false} UpdateKeepsFamilies(runs: Runs, after: Runs)
    requires FamilyOk(runs) && SameLinks(runs, after) && (forall x :: x in runs ==> after[x].row == runs[x].row) && OutcomesSay(after)
    requires forall x :: x in runs ==> (Standing(after[x]) == Standing(runs[x])) && runs[x].log <= after[x].log
    requires forall x, childId: nat :: x in runs ==> Count(after[x].log, ChildEnd(childId)) == Count(runs[x].log, ChildEnd(childId))
    ensures FamilyOk(after)
  {
    hide Standing, Count, ChainsOk, OutcomesOk, OutcomesSay;
    ForestSameLinks(runs, after);
    SameChains(runs, after);
    UpdateKeepsOutcomes(runs, after);
  }

  lemma {:induction false} UpdateKeepsOutcomes(runs: Runs, after: Runs)
    requires OutcomesOk(runs) && SameLinks(runs, after) && forall x :: x in runs ==> after[x].row == runs[x].row
    requires forall x, childId: nat :: x in runs ==> Count(after[x].log, ChildEnd(childId)) == Count(runs[x].log, ChildEnd(childId))
    ensures OutcomesOk(after)
  {
    hide Count, ChildEnded;
    forall p, childId: nat | p in after && after[p].IsRunning()
      ensures Count(after[p].log, ChildEnd(childId)) == if ChildEnded(after, p, childId) then 1 else 0
    {
      SameEnded(runs, after, p, childId);
      assert Count(runs[p].log, ChildEnd(childId)) == if ChildEnded(runs, p, childId) then 1 else 0;
    }
  }

  lemma {:induction false} SameEnded(left: Runs, right: Runs, p: nat, childId: nat)
    requires SameLinks(left, right) && forall x :: x in left ==> left[x].row == right[x].row
    ensures ChildEnded(left, p, childId) == ChildEnded(right, p, childId)
  {
    if ChildEnded(left, p, childId) {
      var x :| EndedAs(left, p, childId, x);
      assert EndedAs(right, p, childId, x);
    }
    if ChildEnded(right, p, childId) {
      var x :| EndedAs(right, p, childId, x);
      assert EndedAs(left, p, childId, x);
    }
  }

  // ---- new runs ----------------------------------------------------------------------------

  /** A run just created: its start is recorded, its limits are timers, and its first task waits. */
  function NewRun(link: Link, startedAt: int): Run {
    var limits := map[] + (if link.runTimeoutMs.Some? then map[RunTimeout := Timer(startedAt + link.runTimeoutMs.value, TimerPending)] else map[])
                        + (if link.deadline.Some? then map[ExecutionTimeout := Timer(link.deadline.value, TimerPending)] else map[]);
    Run(link, Initial().(input := link.input), [StoredEvent(1, RunStarted(link.workflowType, link.input), startedAt)],
        map[], map[], limits, [Task(WorkflowTask, TaskPending)])
  }

  lemma {:induction false} NewRunOk(link: Link, startedAt: int)
    ensures var run := NewRun(link, startedAt);
            RunOk(run) && run.IsRunning() && Standing(run) == Running &&
            forall topic :: Count(run.log, topic) == 0
  {
    var run := NewRun(link, startedAt);
    assert run.log[..0] == [];
    assert forall topic :: Count(run.log, topic) == 0;
    forall timerId: nat
      ensures TimerIsKept(run, timerId)
    {
      assert FirstStart(run.log[..0], timerId).None?;
    }
  }

  /** A new run takes its place: the first of a new chain, under a name its parent has not used. */
  ghost predicate FirstPlace(runs: Runs, id: nat, link: Link) {
    id !in runs && (forall x :: x in runs ==> x < id) && link.first == id && link.index == 0 && link.continuedFrom.None? &&
    (link.parent.Some? <==> link.childKey.Some?) && (link.parent.Some? ==> link.parent.value in runs) &&
    forall x :: x in runs && link.childKey.Some? ==>
      !(runs[x].link.parent == link.parent && runs[x].link.childKey == link.childKey)
  }

  lemma {:induction false} AddKeepsForest(runs: Runs, id: nat, run: Run)
    requires IsForest(runs) && id !in runs && (forall x :: x in runs ==> x < id)
    requires (run.link.parent.Some? ==> run.link.parent.value in runs) && (run.link.first in runs || run.link.first == id)
    ensures IsForest(runs[id := run])
  {
    var after := runs[id := run];
    forall x | x in after
      ensures OlderParent(after, x)
    {
      if x != id {
        assert OlderParent(runs, x);
      }
    }
  }

  /** An open run that starts a chain, or goes on with one, has ended nobody's child. */
  lemma {:induction false} AddKeepsEnded(runs: Runs, id: nat, run: Run, p: nat, childId: nat)
    requires IsForest(runs) && id !in runs && run.IsRunning() && p in runs
    ensures ChildEnded(runs[id := run], p, childId) <==> ChildEnded(runs, p, childId)
  {
    var after := runs[id := run];
    forall x | x in runs
      ensures EndedAs(after, p, childId, x) <==> EndedAs(runs, p, childId, x)
    {
      assert OlderParent(runs, x);
    }
    if ChildEnded(runs, p, childId) {
      var x :| EndedAs(runs, p, childId, x);
      assert EndedAs(after, p, childId, x);
    }
    if ChildEnded(after, p, childId) {
      var x :| EndedAs(after, p, childId, x);
      assert EndedAs(runs, p, childId, x);
    }
  }

  lemma {:induction false} AddKeepsOutcomes(runs: Runs, id: nat, run: Run)
    requires IsForest(runs) && OutcomesOk(runs) && id !in runs && run.IsRunning()
    requires forall x :: x in runs ==> x < id
    requires forall childId: nat :: Count(run.log, ChildEnd(childId)) == 0
    requires run.link.parent != Some(id)
    ensures OutcomesOk(runs[id := run])
  {
    var after := runs[id := run];
    hide ChildEnded, Count;
    forall p, childId: nat | p in after && after[p].IsRunning()
      ensures Count(after[p].log, ChildEnd(childId)) == if ChildEnded(after, p, childId) then 1 else 0
    {
      if p == id {
        NobodysChildYet(runs, id, run, childId);
      } else {
        AddKeepsEnded(runs, id, run, p, childId);
        assert Count(runs[p].log, ChildEnd(childId)) == if ChildEnded(runs, p, childId) then 1 else 0;
      }
    }
  }

  lemma {:induction false} NobodysChildYet(runs: Runs, id: nat, run: Run, childId: nat)
    requires IsForest(runs) && id !in runs && (forall x :: x in runs ==> x < id) && run.link.parent != Some(id)
    ensures !ChildEnded(runs[id := run], id, childId)
  {
    forall x | x in runs
      ensures runs[x].link.parent != Some(id)
    {
      assert OlderParent(runs, x);
    }
  }

  /** Creating the first run of a chain keeps the store in order. */
  lemma {:induction false} FirstKeepsStore(runs: Runs, id: nat, link: Link, startedAt: int)
    requires StoreOk(runs) && FirstPlace(runs, id, link)
    ensures StoreOk(runs[id := NewRun(link, startedAt)])
  {
    var run := NewRun(link, startedAt);
    var after := runs[id := run];
    NewRunOk(link, startedAt);
    AddKeepsForest(runs, id, run);
    AddKeepsOutcomes(runs, id, run);
    FirstKeepsChains(runs, id, run);
    AddedHearsNothing(runs, id, run);
    hide RunOk, FamilyOk, NewRun, FirstPlace;
    assert forall x :: x in after ==> RunOk(after[x]);
    hide ChainsOk, OutcomesOk, OutcomesSay, IsForest;
    assert FamilyOk(after) by { Together(after); }
  }

  lemma {:induction false} Together(runs: Runs)
    requires IsForest(runs) && ChainsOk(runs) && OutcomesOk(runs) && OutcomesSay(runs)
    ensures FamilyOk(runs)
  {
  }

  lemma {:induction false} FirstKeepsChains(runs: Runs, id: nat, run: Run)
    requires ChainsOk(runs) && FirstPlace(runs, id, run.link) && Standing(run) == Running
    ensures ChainsOk(runs[id := run])
  {
    var after := runs[id := run];
    hide Standing;
    forall x | x in after
      ensures ChainLink(after, x)
    {
      if x != id {
        assert ChainLink(runs, x);
      }
    }
    forall x, y | x in after && y in after
      ensures Unlike(after, x, y)
    {
      if x != id && y != id {
        assert Unlike(runs, x, y);
      } else if x != id {
        assert ChainLink(runs, x);
      } else if y != id {
        assert ChainLink(runs, y);
      }
    }
    StillContinued(runs, after);
  }

  lemma {:induction false} StillContinued(runs: Runs, after: Runs)
    requires ChainsOk(runs) && runs.Keys <= after.Keys
    requires forall x :: x in runs ==> after[x] == runs[x]
    requires forall x :: x in after && x !in runs ==> Standing(after[x]) == Running
    ensures forall x {:trigger IsContinued(after, x)} ::
      x in after && Standing(after[x]) == RunState.ContinuedAsNew ==> IsContinued(after, x)
  {
    hide Standing;
    forall x | x in after && Standing(after[x]) == RunState.ContinuedAsNew
      ensures IsContinued(after, x)
    {
      assert x in runs && IsContinued(runs, x);
      var y :| y in runs && runs[y].link.continuedFrom == Some(x);
      assert after[y].link.continuedFrom == Some(x);
    }
  }

  // ---- a run about to close ------------------------------------------------------------------

  /** The closing event is recorded and does not continue as new: everything is ready for the closing. */
  lemma {:induction false} ClosingEventReady(runs: Runs, r: nat, run: Run)
    requires StoreOk(runs) && r in runs && runs[r].IsRunning() && AboutToClose(run)
    requires Standing(run) != RunState.ContinuedAsNew && run.link == runs[r].link
    requires forall childId: nat :: Count(run.log, ChildEnd(childId)) == Count(runs[r].log, ChildEnd(childId))
    requires HearsNothing(runs[r], run)
    ensures ReadyToClose(runs[r := run], r)
  {
    var after := runs[r := run];
    assert RunOk(runs[r]);
    OpenStandsRunning(runs[r]);
    assert run.IsRunning();
    hide RunOk, Standing, Count, ChainsOk, AboutToClose, OutcomesOk, OutcomesSay, IsForest;
    OneRunHearsNothing(runs, r, run);
    assert SameLinks(runs, after);
    ForestSameLinks(runs, after);
    SameChains(runs, after);
    SameOutcomes(runs, after);
    assert AllOk(after, r);
    Together(after);
  }

  lemma {:induction false} SameOutcomes(left: Runs, right: Runs)
    requires OutcomesOk(left) && SameLinks(left, right)
    requires forall x :: x in left ==> left[x].row.state == right[x].row.state
    requires forall x, childId: nat :: x in left ==> Count(right[x].log, ChildEnd(childId)) == Count(left[x].log, ChildEnd(childId))
    ensures OutcomesOk(right)
  {
    hide Count;
    forall p, childId: nat | p in right && right[p].IsRunning()
      ensures Count(right[p].log, ChildEnd(childId)) == if ChildEnded(right, p, childId) then 1 else 0
    {
      SameEndedStates(left, right, p, childId);
      assert Count(left[p].log, ChildEnd(childId)) == if ChildEnded(left, p, childId) then 1 else 0;
    }
  }

  lemma {:induction false} SameEndedStates(left: Runs, right: Runs, p: nat, childId: nat)
    requires SameLinks(left, right) && forall x :: x in left ==> left[x].row.state == right[x].row.state
    ensures ChildEnded(left, p, childId) == ChildEnded(right, p, childId)
  {
    if ChildEnded(left, p, childId) {
      var x :| EndedAs(left, p, childId, x);
      assert EndedAs(right, p, childId, x);
    }
    if ChildEnded(right, p, childId) {
      var x :| EndedAs(right, p, childId, x);
      assert EndedAs(left, p, childId, x);
    }
  }

  /** The next run of the chain of `runs[r]`: same parent, chain, limits and schedule, one number on. */
  function NextLink(link: Link, r: nat, input: Json): Link {
    link.(childKey := None, index := link.index + 1, continuedFrom := Some(r), input := input)
  }

  /** The run continues as new and its successor is created: everything is ready for the closing. */
  lemma {:induction false} ContinuedReady(runs: Runs, r: nat, run: Run, id: nat, input: Json, startedAt: int)
    requires StoreOk(runs) && r in runs && runs[r].IsRunning() && AboutToClose(run)
    requires Standing(run) == RunState.ContinuedAsNew && run.link == runs[r].link
    requires forall childId: nat :: Count(run.log, ChildEnd(childId)) == Count(runs[r].log, ChildEnd(childId))
    requires HearsNothing(runs[r], run) && Asks(run.log, input)
    requires id !in runs && forall x :: x in runs ==> x < id
    ensures ReadyToClose(runs[r := run][id := NewRun(NextLink(run.link, r, input), startedAt)], r)
  {
    hide ChainsOk, OutcomesOk, OutcomesSay, IsForest, RunOk, Standing, Count, AboutToClose, NewRun, Asks, NextLink;
    var mid := runs[r := run];
    var link := NextLink(run.link, r, input);
    var next := NewRun(link, startedAt);
    var after := mid[id := next];
    StoreParts(runs, r);
    NextBegins(run.link, r, input, startedAt);
    AboutToCloseIsOpen(run);
    OneRunHearsNothing(runs, r, run);
    assert SameLinks(runs, mid);
    ForestSameLinks(runs, mid);
    SameOutcomes(runs, mid);
    AddedHearsNothing(mid, id, next);
    AddKeepsForest(mid, id, next);
    AddKeepsOutcomes(mid, id, next);
    NextKeepsChains(runs, r, run, id, next, input);
    assert AllOk(after, r);
    Together(after);
  }

  lemma {:induction false} StoreParts(runs: Runs, r: nat)
    requires StoreOk(runs) && r in runs
    ensures RunOk(runs[r]) && (runs[r].link.parent.Some? ==> runs[r].link.parent.value in runs && runs[r].link.parent.value < r)
    ensures runs[r].link.first in runs && (runs[r].IsRunning() ==> Standing(runs[r]) == Running)
    ensures forall x :: x in runs ==> RunOk(runs[x])
  {
    assert RunOk(runs[r]) && OlderParent(runs, r);
    if runs[r].IsRunning() {
      OpenStandsRunning(runs[r]);
    }
    hide RunOk, Standing, ChainsOk, OutcomesOk, OutcomesSay;
  }

  lemma {:induction false} NextBegins(link: Link, r: nat, input: Json, startedAt: int)
    ensures var next := NewRun(NextLink(link, r, input), startedAt);
            RunOk(next) && next.IsRunning() && Standing(next) == Running && next.link == NextLink(link, r, input) &&
            next.link.parent == link.parent && next.link.first == link.first &&
            (forall childId: nat :: Count(next.log, ChildEnd(childId)) == 0) &&
            forall i :: 0 <= i < |next.log| ==> !IsChildOutcome(next.log[i].event)
  {
    NewRunOk(NextLink(link, r, input), startedAt);
    hide RunOk, Standing, Count;
  }

  lemma AboutToCloseIsOpen(run: Run)
    requires AboutToClose(run)
    ensures run.IsRunning()
  {
    hide Sound;
  }

  lemma {:induction false} NextKeepsChains(runs: Runs, r: nat, run: Run, id: nat, next: Run, input: Json)
    requires ChainsOk(runs) && r in runs && Standing(runs[r]) == Running && run.link == runs[r].link
    requires Standing(run) == RunState.ContinuedAsNew && Standing(next) == Running && next.link == NextLink(run.link, r, input)
    requires id !in runs && forall x :: x in runs ==> x < id
    requires runs[r].log <= run.log && Asks(run.log, input)
    ensures ChainsOk(runs[r := run][id := next])
  {
    hide Standing, Asks, Unlike, ChainsOk, ChainLink;
    var after := runs[r := run][id := next];
    forall x | x in after
      ensures ChainLink(after, x)
    {
      if x != id {
        LinkStays(runs, r, run, after, x);
      } else {
        NextLinks(runs, r, run, after, id, input);
      }
    }
    NextIsUnlike(runs, r, run, after, id);
    NextIsContinued(runs, r, run, after, id);
    ChainsTogether(after);
  }

  lemma ChainsTogether(runs: Runs)
    requires forall x {:trigger ChainLink(runs, x)} :: x in runs ==> ChainLink(runs, x)
    requires forall x, y {:trigger Unlike(runs, x, y)} :: x in runs && y in runs ==> Unlike(runs, x, y)
    requires forall x {:trigger IsContinued(runs, x)} :: x in runs && Standing(runs[x]) == RunState.ContinuedAsNew ==> IsContinued(runs, x)
    ensures ChainsOk(runs)
  {
    hide ChainLink, Unlike, IsContinued, Standing;
  }

  lemma {:induction false} LinkStays(runs: Runs, r: nat, run: Run, after: Runs, x: nat)
    requires ChainsOk(runs) && r in runs && x in runs && Standing(runs[r]) == Running && run.link == runs[r].link && runs[r].log <= run.log
    requires runs.Keys <= after.Keys && after[r] == run && forall y :: y in runs && y != r ==> after[y] == runs[y]
    ensures ChainLink(after, x)
  {
    hide Standing, Asks;
    assert ChainLink(runs, x);
    if runs[x].link.continuedFrom.Some? && runs[x].link.continuedFrom.value in runs {
      AsksStill(runs[runs[x].link.continuedFrom.value].log, after[runs[x].link.continuedFrom.value].log, runs[x].link.input);
    }
  }

  lemma {:induction false} NextLinks(runs: Runs, r: nat, run: Run, after: Runs, id: nat, input: Json)
    requires ChainsOk(runs) && r in runs && r < id && id !in runs && run.link == runs[r].link && Standing(run) == RunState.ContinuedAsNew
    requires runs.Keys <= after.Keys && id in after && after[r] == run && after[id].link == NextLink(run.link, r, input)
    requires (forall y :: y in runs && y != r ==> after[y] == runs[y]) && Asks(run.log, input)
    ensures ChainLink(after, id)
  {
    hide Standing, Asks;
    assert ChainLink(runs, r);
  }

  lemma {:induction false} NextIsUnlike(runs: Runs, r: nat, run: Run, after: Runs, id: nat)
    requires ChainsOk(runs) && r in runs && id !in runs && Standing(runs[r]) == Running && run.link == runs[r].link
    requires after.Keys == runs.Keys + {id} && after[r] == run && forall y :: y in runs && y != r ==> after[y] == runs[y]
    requires after[id].link.first == run.link.first && after[id].link.index == run.link.index + 1 && after[id].link.childKey.None?
    ensures forall x, y {:trigger Unlike(after, x, y)} :: x in after && y in after ==> Unlike(after, x, y)
  {
    hide Standing, ChainLink;
    forall x, y | x in after && y in after
      ensures Unlike(after, x, y)
    {
      if x != id && y != id {
        assert Unlike(runs, x, y);
      } else if x != id {
        NumberIsFree(runs, r, x);
      } else if y != id {
        NumberIsFree(runs, r, y);
      }
    }
  }

  lemma {:induction false} NextIsContinued(runs: Runs, r: nat, run: Run, after: Runs, id: nat)
    requires ChainsOk(runs) && r in runs && id !in runs && run.link == runs[r].link
    requires after.Keys == runs.Keys + {id} && Standing(after[id]) == Running && after[r] == run && forall y :: y in runs && y != r ==> after[y] == runs[y]
    requires after[id].link.continuedFrom == Some(r)
    ensures forall x {:trigger IsContinued(after, x)} ::
      x in after && Standing(after[x]) == RunState.ContinuedAsNew ==> IsContinued(after, x)
  {
    hide Standing, ChainLink, Unlike;
    forall x | x in after && Standing(after[x]) == RunState.ContinuedAsNew
      ensures IsContinued(after, x)
    {
      if x == r {
        assert after[id].link.continuedFrom == Some(r);
      } else {
        assert IsContinued(runs, x);
        var y :| y in runs && runs[y].link.continuedFrom == Some(x);
        assert after[y].link.continuedFrom == Some(x);
      }
    }
  }

  /** An open run is the last of its chain. */
  lemma {:induction false} NumberIsFree(runs: Runs, r: nat, x: nat)
    requires ChainsOk(runs) && r in runs && Standing(runs[r]) == Running && x in runs
    ensures !(runs[x].link.first == runs[r].link.first && runs[x].link.index == runs[r].link.index + 1)
  {
    if runs[x].link.first == runs[r].link.first && runs[x].link.index == runs[r].link.index + 1 {
      EarlierContinued(runs, r, x);
    }
  }
}
