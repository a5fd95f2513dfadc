/**
 Closing a run (packages/core/src/cancellation/close-run.ts): its row is folded, its
 waiting tasks are withdrawn, its parent is told, and every open child is cancelled,
 terminated or left alone by its policy, which closes further runs. `After` says run by
 run what has happened when all of that is done.
 */
module CloseCascade {
  import opened WorkflowTypes
  import opened Projections
  import opened RunTables

  type Runs = map<nat, Run>

  /** Parents exist and are older than their children. */
  ghost predicate IsForest(runs: Runs) {
    forall x {:trigger OlderParent(runs, x)} :: x in runs ==> OlderParent(runs, x)
  }

  predicate OlderParent(runs: Runs, x: nat)
    requires x in runs
  {
    (runs[x].link.parent.Some? ==> runs[x].link.parent.value in runs && runs[x].link.parent.value < x) &&
    runs[x].link.first in runs
  }

  /** Same runs, same parents, chains and limits. */
  predicate SameLinks(left: Runs, right: Runs) {
    left.Keys == right.Keys && forall x :: x in left ==> left[x].link == right[x].link
  }

  predicate IsOpenChild(runs: Runs, x: nat, parent: nat) {
    x in runs && runs[x].IsRunning() && runs[x].link.parent == Some(parent)
  }

  /** `x` is `r`, or is terminated because its parent is closed with `r`. */
  predicate Doomed(runs: Runs, r: nat, x: nat) {
    x == r ||
    (x in runs && runs[x].IsRunning() && runs[x].link.policy == Some(Terminate) &&
     runs[x].link.parent.Some? && runs[x].link.parent.value < x && Doomed(runs, r, runs[x].link.parent.value))
  }

  /** `x` is asked to cancel because its parent is closed with `r`. */
  predicate ToldToCancel(runs: Runs, r: nat, x: nat) {
    x in runs && x != r && runs[x].IsRunning() && runs[x].link.policy == Some(Cancel) &&
    runs[x].link.parent.Some? && runs[x].link.parent.value < x && Doomed(runs, r, runs[x].link.parent.value)
  }

  /** `x` is `c` or one of its descendants. */
  predicate Below(runs: Runs, c: nat, x: nat) {
    x == c ||
    (x in runs && runs[x].link.parent.Some? && runs[x].link.parent.value < x && Below(runs, c, runs[x].link.parent.value))
  }

  /** The name a child run has in its parent's history; a continued run goes by its chain's. */
  function ChildKeyOf(runs: Runs, x: nat): Option<nat>
    requires x in runs
  {
    if runs[x].link.childKey.Some? || runs[x].link.first !in runs then runs[x].link.childKey
    else runs[runs[x].link.first].link.childKey
  }

  function ChildOutcome(childId: nat, row: Projection): Event {
    match row.state
    case Completed => ChildCompleted(childId, row.result)
    case Failed =>
      ChildFailed(childId, if row.error.Some? then row.error.value else RecordedError("Error", "child workflow failed"))
    case TimedOut => ChildFailed(childId, RecordedError("TimedOutError", "child workflow timed out"))
    case Cancelled => ChildFailed(childId, RecordedError("CancelledError", "child workflow was cancelled"))
    case _ => ChildFailed(childId, RecordedError("TerminatedError", "child workflow was terminated"))
  }

  /** Records a cancellation request and wakes the run, unless a request is pending. */
  function Asked(run: Run, now: int): Run {
    if Count(run.log, CancelWish) > 0 then run
    else run.Append(CancelRequested(Some("parent run closed")), now).Enqueue(WorkflowTask)
  }

  function Ended(run: Run, now: int): Run {
    run.Append(RunTerminated(Some("parent run closed")), now).Closed()
  }

  /** The parent after its child `x` closed as `row` says. */
  function Told(parent: Run, childKey: Option<nat>, row: Projection, now: int): Run {
    if !parent.IsRunning() || childKey.None? || row.state == RunState.ContinuedAsNew || !IsTerminal(row.state) then parent
    else parent.Append(ChildOutcome(childKey.value, row), now).Enqueue(WorkflowTask)
  }

  /** What closing a run does to another: `IsEnded` is terminated with it, `IsTold` is its parent. */
  datatype Fate = Closes | IsEnded | IsAsked | IsTold | Stays

  function FateOf(runs: Runs, r: nat, x: nat): Fate
    requires r in runs
  {
    if x == r then Closes
    else if Doomed(runs, r, x) then IsEnded
    else if ToldToCancel(runs, r, x) then IsAsked
    else if runs[r].link.parent == Some(x) then IsTold
    else Stays
  }

  /** The run after its fate; `childKey` and `row` are what its parent hears of the run that closes. */
  function Fated(fate: Fate, run: Run, childKey: Option<nat>, row: Projection, now: int): Run {
    match fate
    case Closes => run.Closed()
    case IsEnded => Ended(run, now)
    case IsAsked => Asked(run, now)
    case IsTold => Told(run, childKey, row, now)
    case Stays => run
  }

  /** What has become of `x` once `r` is closed. */
  function After(runs: Runs, r: nat, x: nat, now: int): Run
    requires r in runs && x in runs
  {
    Fated(FateOf(runs, r, x), runs[x], ChildKeyOf(runs, r), runs[r].Closed().row, now)
  }

  // ---- trees ---------------------------------------------------------------------

  lemma {:induction false} BelowIsLater(runs: Runs, c: nat, x: nat)
    requires Below(runs, c, x)
    ensures c <= x
  {
    if x != c {
      BelowIsLater(runs, c, runs[x].link.parent.value);
    }
  }

  /** A run is below at most one child of another. */
  lemma {:induction false} SiblingsApart(runs: Runs, c: nat, d: nat, x: nat)
    requires Below(runs, c, x) && Below(runs, d, x) && c in runs && d in runs
    requires runs[c].link.parent.Some? && runs[c].link.parent == runs[d].link.parent
    requires runs[c].link.parent.value < c && runs[d].link.parent.value < d
    ensures c == d
  {
    if x == c {
      if x != d {
        BelowIsLater(runs, d, runs[c].link.parent.value);
      }
    } else if x == d {
      BelowIsLater(runs, c, runs[d].link.parent.value);
    } else {
      SiblingsApart(runs, c, d, runs[x].link.parent.value);
    }
  }

  lemma {:induction false} BelowSameLinks(left: Runs, right: Runs, c: nat, x: nat)
    requires SameLinks(left, right)
    ensures Below(left, c, x) == Below(right, c, x)
  {
    if x in left && left[x].link.parent.Some? && left[x].link.parent.value < x {
      BelowSameLinks(left, right, c, left[x].link.parent.value);
    }
  }

  lemma {:induction false} DoomedIsBelow(runs: Runs, r: nat, x: nat)
    requires Doomed(runs, r, x)
    ensures Below(runs, r, x)
  {
    if x != r {
      DoomedIsBelow(runs, r, runs[x].link.parent.value);
    }
  }

  /** Below `r` there is nothing but `r` and what is below its children. */
  lemma {:induction false} BelowAChild(runs: Runs, r: nat, x: nat) returns (c: nat)
    requires Below(runs, r, x) && x != r
    ensures c in runs && runs[c].link.parent == Some(r) && r < c && Below(runs, c, x)
  {
    var p := runs[x].link.parent.value;
    if p == r {
      c := x;
    } else {
      c := BelowAChild(runs, r, p);
    }
  }

  /** What is doomed with `r` below its doomed child `c` is what is doomed with `c`, if the runs below `c` are the same. */
  lemma {:induction false} DoomedBelowChild(old_: Runs, new_: Runs, r: nat, c: nat, x: nat)
    requires SameLinks(old_, new_) && Below(old_, c, x) && c in old_ && old_[c].link.parent == Some(r) && r < c
    requires forall y :: y in old_ && Below(old_, c, y) ==> new_[y].IsRunning() == old_[y].IsRunning()
    requires old_[c].IsRunning()
    ensures Doomed(old_, r, x) <==> old_[c].link.policy == Some(Terminate) && Doomed(new_, c, x)
  {
    if x == c {
    } else {
      BelowIsLater(old_, c, x);
      DoomedBelowChild(old_, new_, r, c, old_[x].link.parent.value);
    }
  }

  /** What is doomed with `r` has every run between itself and `r` doomed too. */
  lemma {:induction false} DoomedAbove(runs: Runs, r: nat, c: nat, x: nat)
    requires Doomed(runs, r, x) && Below(runs, c, x) && c in runs && runs[c].link.parent == Some(r) && r < c
    ensures Doomed(runs, r, c)
  {
    if x != c {
      BelowIsLater(runs, c, x);
      DoomedAbove(runs, r, c, runs[x].link.parent.value);
    }
  }

  // ---- open runs can be closed -----------------------------------------------------

  /** The events the row has not seen yet follow on it and close nothing. */
  predicate Open(run: Run) {
    run.IsRunning() && run.row.lastSequenceNumber <= |run.log| &&
    (forall i :: run.row.lastSequenceNumber <= i < |run.log| ==>
       run.log[i].sequenceNumber == i + 1 && !IsClosing(run.log[i].event))
  }

  lemma {:induction false} ClosingFolds(run: Run, event: Event, now: int)
    requires Open(run) && IsClosing(event)
    ensures var closed := run.Append(event, now).Closed();
            Some(closed.row.state) == TerminalStateFor(event) && closed.log == run.log + [StoredEvent(|run.log| + 1, event, now)] &&
            closed.row.lastSequenceNumber == |closed.log| && IsTerminal(closed.row.state) &&
            closed == run.(row := closed.row, log := closed.log, tasks := Withdrawn(run.tasks))
  {
    var appended := run.Append(event, now);
    var unseen := appended.log[run.row.lastSequenceNumber..];
    assert forall i :: 0 <= i < |unseen| ==> unseen[i] == appended.log[run.row.lastSequenceNumber + i];
    FoldsExactlyWhen(unseen, run.row);
  }

  lemma {:induction false} OpenAppend(run: Run, event: Event, now: int, kind: TaskKind)
    requires Open(run) && !IsClosing(event)
    ensures Open(run.Append(event, now)) && Open(run.Append(event, now).Enqueue(kind))
  {
  }

  // ---- the children, one after the other -------------------------------------------

  /** The open children of a run, oldest first. */
  function OpenChildren(runs: Runs, r: nat, count: nat): (children: seq<nat>)
    ensures forall i :: 0 <= i < |children| ==> children[i] < count && IsOpenChild(runs, children[i], r)
    ensures forall x: nat :: x < count && IsOpenChild(runs, x, r) ==> x in children
    ensures forall i, j :: 0 <= i < j < |children| ==> children[i] < children[j]
  {
    if count == 0 then []
    else OpenChildren(runs, r, count - 1) + if IsOpenChild(runs, count - 1, r) then [count - 1] else []
  }

  predicate Handled(runs: Runs, children: seq<nat>, x: nat) {
    exists i :: 0 <= i < |children| && Below(runs, children[i], x)
  }

  /** `x` when the given children are dealt with. */
  function Partial(base: Runs, r: nat, children: seq<nat>, x: nat, now: int): Run
    requires r in base && x in base
  {
    if x == r || base[r].link.parent == Some(x) || Handled(base, children, x) then After(base, r, x, now) else base[x]
  }

  lemma {:induction false} ClosedKeepsLink(run: Run)
    ensures run.Closed().link == run.link
  {
    hide Fold, Withdrawn;
  }

  lemma {:induction false} FatedKeepsLink(fate: Fate, run: Run, childKey: Option<nat>, row: Projection, now: int)
    ensures Fated(fate, run, childKey, row, now).link == run.link
  {
    ClosedKeepsLink(run);
    ClosedKeepsLink(run.Append(RunTerminated(Some("parent run closed")), now));
    hide Run.Closed, ChildOutcome, Count;
  }

  lemma {:induction false} PartialKeepsLink(base: Runs, r: nat, children: seq<nat>, x: nat, now: int)
    requires IsForest(base) && r in base && x in base
    ensures Partial(base, r, children, x, now).link == base[x].link
  {
    FatedKeepsLink(FateOf(base, r, x), base[x], ChildKeyOf(base, r), base[r].Closed().row, now);
    hide Run.Closed, Fated, FateOf, ChildKeyOf, Handled;
  }

  /** Halfway: `r` is closed, its parent told, and the given children are dealt with. */
  ghost predicate Midway(base: Runs, mid: Runs, r: nat, children: seq<nat>, now: int)
    requires r in base
  {
    mid.Keys == base.Keys && forall x :: x in base ==> mid[x] == Partial(base, r, children, x, now)
  }

  lemma {:induction false} ForestSameLinks(left: Runs, right: Runs)
    requires IsForest(left) && SameLinks(left, right)
    ensures IsForest(right)
  {
    forall x | x in right
      ensures OlderParent(right, x)
    {
      assert OlderParent(left, x);
    }
  }

  lemma {:induction false} AppendKeepsRow(run: Run, event: Event, now: int)
    ensures run.Append(event, now).row == run.row && run.Append(event, now).link == run.link
  {
  }

  lemma {:induction false} MidwaySameLinks(base: Runs, mid: Runs, r: nat, children: seq<nat>, now: int)
    requires IsForest(base) && r in base && Midway(base, mid, r, children, now)
    ensures SameLinks(base, mid) && IsForest(mid)
  {
    hide Partial, IsForest;
    forall x | x in base
      ensures mid[x].link == base[x].link
    {
      PartialKeepsLink(base, r, children, x, now);
    }
    ForestSameLinks(base, mid);
  }

  /** `c` is an open child of `r`, and not one of the open children dealt with before. */
  ghost predicate IsNext(base: Runs, r: nat, prior: seq<nat>, c: nat) {
    r in base && c in base && IsOpenChild(base, c, r) && r < c &&
    (base[r].link.parent.Some? ==> base[r].link.parent.value < r) &&
    forall i :: 0 <= i < |prior| ==> IsOpenChild(base, prior[i], r) && prior[i] != c && r < prior[i]
  }

  lemma {:induction false} HandledOneMore(runs: Runs, prior: seq<nat>, c: nat, x: nat)
    ensures Handled(runs, prior + [c], x) <==> Handled(runs, prior, x) || Below(runs, c, x)
  {
    hide Below;
    if Handled(runs, prior, x) {
      var i :| 0 <= i < |prior| && Below(runs, prior[i], x);
      assert (prior + [c])[i] == prior[i];
    }
    if Below(runs, c, x) {
      assert (prior + [c])[|prior|] == c;
    }
  }

  /** A run below the next child is as it was, and is neither `r` nor its parent. */
  lemma {:induction false} NextUntouched(base: Runs, r: nat, prior: seq<nat>, c: nat, now: int, x: nat)
    requires IsNext(base, r, prior, c) && Below(base, c, x) && x in base
    ensures Partial(base, r, prior, x, now) == base[x] && r < c <= x && base[r].link.parent != Some(x)
  {
    BelowIsLater(base, c, x);
    forall i | 0 <= i < |prior|
      ensures !Below(base, prior[i], x)
    {
      if Below(base, prior[i], x) {
        SiblingsApart(base, c, prior[i], x);
      }
    }
    hide After, Below;
  }

  /** Away from the next child, dealing with it changes nothing; below it, everything happens. */
  lemma {:induction false} PartialOneMore(base: Runs, r: nat, prior: seq<nat>, c: nat, now: int, x: nat)
    requires r in base && x in base
    ensures Partial(base, r, prior + [c], x, now) ==
            if Below(base, c, x) then After(base, r, x, now) else Partial(base, r, prior, x, now)
  {
    HandledOneMore(base, prior, c, x);
    hide After, Handled, Below;
  }

  /** Below a child that is not terminated with its parent, only the child itself can change, by a request to cancel. */
  lemma {:induction false} BelowSpared(base: Runs, r: nat, c: nat, x: nat)
    requires r in base && x in base && IsOpenChild(base, c, r) && r < c && Below(base, c, x)
    requires base[c].link.policy != Some(Terminate) && base[r].link.parent != Some(x)
    ensures FateOf(base, r, x) == if x == c && base[c].link.policy == Some(Cancel) then IsAsked else Stays
  {
    BelowIsLater(base, c, x);
    assert r < c <= x;
    if Doomed(base, r, x) {
      DoomedAbove(base, r, c, x);
    }
    if x != c && ToldToCancel(base, r, x) {
      DoomedAbove(base, r, c, base[x].link.parent.value);
    }
  }

  /** A child after its parent closed, if its policy is not to terminate it. */
  function Spared(run: Run, now: int): Run {
    if run.link.policy == Some(Cancel) then Asked(run, now) else run
  }

  lemma {:induction false} SparedFate(base: Runs, r: nat, c: nat, x: nat, now: int)
    requires r in base && x in base && c in base
    requires FateOf(base, r, x) == if x == c && base[c].link.policy == Some(Cancel) then IsAsked else Stays
    ensures After(base, r, x, now) == if x == c then Spared(base[x], now) else base[x]
  {
    hide FateOf, Run.Closed, Asked, ChildKeyOf, Told, Ended;
  }

  lemma {:induction false} SparePartial(base: Runs, r: nat, prior: seq<nat>, c: nat, now: int, x: nat)
    requires IsNext(base, r, prior, c) && x in base && base[c].link.policy != Some(Terminate)
    ensures Partial(base, r, prior + [c], x, now) ==
            if x == c then Spared(Partial(base, r, prior, x, now), now) else Partial(base, r, prior, x, now)
  {
    PartialOneMore(base, r, prior, c, now, x);
    if Below(base, c, x) {
      NextUntouched(base, r, prior, c, now, x);
      BelowSpared(base, r, c, x);
      SparedFate(base, r, c, x, now);
    }
    hide Partial, After, FateOf, IsNext, Spared;
  }

  /** Dealing with a child that is asked to cancel, or left alone. */
  lemma {:induction false} SpareStep(base: Runs, mid: Runs, r: nat, prior: seq<nat>, c: nat, now: int)
    requires IsNext(base, r, prior, c) && Midway(base, mid, r, prior, now) && c in mid
    requires base[c].link.policy != Some(Terminate)
    ensures Midway(base, mid[c := Spared(mid[c], now)], r, prior + [c], now)
  {
    assert r in base;
    hide Partial, Spared, IsNext;
    var next := mid[c := Spared(mid[c], now)];
    forall x | x in base
      ensures next[x] == Partial(base, r, prior + [c], x, now)
    {
      SparePartial(base, r, prior, c, now, x);
    }
  }

  /** Below a child that is terminated with its parent, what closing the child does is what closing the parent does. */
  lemma {:induction false} BelowEnded(base: Runs, mid: Runs, r: nat, c: nat, x: nat)
    requires r in base && x in base && IsOpenChild(base, c, r) && r < c && Below(base, c, x)
    requires base[r].link.parent != Some(x) && base[c].link.policy == Some(Terminate) && SameLinks(base, mid)
    requires forall y :: y in base && Below(base, c, y) ==> mid[y].IsRunning() == base[y].IsRunning()
    ensures FateOf(base, r, x) == if x == c then IsEnded else FateOf(mid, c, x)
  {
    BelowIsLater(base, c, x);
    DoomedBelowChild(base, mid, r, c, x);
    if x != c {
      BelowEndedTold(base, mid, r, c, x);
      assert mid[c].link == base[c].link;
      hide Doomed, Below, SameLinks, ToldToCancel;
    }
  }

  lemma {:induction false} BelowEndedTold(base: Runs, mid: Runs, r: nat, c: nat, x: nat)
    requires r in base && x in base && x != c && IsOpenChild(base, c, r) && r < c && Below(base, c, x)
    requires base[c].link.policy == Some(Terminate) && SameLinks(base, mid)
    requires forall y :: y in base && Below(base, c, y) ==> mid[y].IsRunning() == base[y].IsRunning()
    ensures ToldToCancel(mid, c, x) == ToldToCancel(base, r, x)
  {
    var p := base[x].link.parent.value;
    BelowIsLater(base, c, p);
    DoomedBelowChild(base, mid, r, c, p);
    assert mid[x].link == base[x].link && mid[x].IsRunning() == base[x].IsRunning();
    hide Doomed, Below, SameLinks;
  }

  /** Away from a child that is terminated, closing the child tells its parent at most. */
  lemma {:induction false} AwayFromEnded(base: Runs, mid: Runs, c: nat, x: nat)
    requires c in mid && SameLinks(base, mid) && x in mid && !Below(base, c, x)
    ensures FateOf(mid, c, x) == if mid[c].link.parent == Some(x) then IsTold else Stays
  {
    BelowSameLinks(base, mid, c, x);
    if Doomed(mid, c, x) {
      DoomedIsBelow(mid, c, x);
    }
    if ToldToCancel(mid, c, x) {
      DoomedIsBelow(mid, c, mid[x].link.parent.value);
    }
  }

  /** The run with its closing event, if it is the child to end. */
  function WithEnd(run: Run, isChild: bool, now: int): Run {
    if isChild then run.Append(RunTerminated(Some("parent run closed")), now) else run
  }

  lemma {:induction false} WithEndKeepsRow(run: Run, isChild: bool, now: int)
    ensures WithEnd(run, isChild, now).row == run.row && WithEnd(run, isChild, now).link == run.link
  {
  }

  lemma {:induction false} EndBelow(base: Runs, ended: Runs, r: nat, c: nat, x: nat, now: int)
    requires r in base && x in base && c in ended && x in ended
    requires FateOf(base, r, x) == if x == c then IsEnded else FateOf(ended, c, x)
    requires base[r].link.parent != Some(x) && ended[c].link.parent != Some(x) && x != r
    requires ended[x] == WithEnd(base[x], x == c, now)
    ensures After(ended, c, x, now) == After(base, r, x, now)
  {
    assert FateOf(base, r, x) != IsTold && FateOf(base, r, x) != Closes;
    assert x == c ==> FateOf(ended, c, x) == Closes;
    hide FateOf, Run.Closed, Run.Append, ChildOutcome, ChildKeyOf, Asked, Told;
  }

  lemma {:induction false} EndAway(ended: Runs, r: nat, c: nat, x: nat, now: int)
    requires r in ended && x in ended && c in ended && !ended[r].IsRunning() && ended[c].link.parent == Some(r)
    requires FateOf(ended, c, x) == if x == r then IsTold else Stays
    ensures After(ended, c, x, now) == ended[x]
  {
    hide FateOf, Run.Closed, ChildOutcome, ChildKeyOf, Asked, Ended;
  }

  /** What closing the next child makes of `x`, when the child is terminated with its parent. */
  lemma {:induction false} EndPartial(base: Runs, ended: Runs, r: nat, prior: seq<nat>, c: nat, now: int, x: nat)
    requires IsNext(base, r, prior, c) && x in base && base[c].link.policy == Some(Terminate)
    requires SameLinks(base, ended) && r in ended && x in ended && c in ended && !ended[r].IsRunning()
    requires ended[x] == WithEnd(Partial(base, r, prior, x, now), x == c, now)
    requires forall y :: y in base && Below(base, c, y) ==> ended[y].IsRunning() == base[y].IsRunning()
    ensures After(ended, c, x, now) == Partial(base, r, prior + [c], x, now)
  {
    PartialOneMore(base, r, prior, c, now, x);
    assert ended[c].link == base[c].link && base[c].link.parent == Some(r) && r < c;
    if Below(base, c, x) {
      NextUntouched(base, r, prior, c, now, x);
      BelowEnded(base, ended, r, c, x);
      EndBelow(base, ended, r, c, x, now);
      hide Below, SameLinks, IsNext, Partial, FateOf, After, WithEnd;
    } else {
      assert Below(base, c, c);
      AwayFromEnded(base, ended, c, x);
      EndAway(ended, r, c, x, now);
      hide Below, SameLinks, IsNext, Partial, FateOf, After;
    }
  }

  /** Dealing with a child that is terminated: it got its closing event, and was closed itself. */
  lemma {:induction false} EndStep(base: Runs, ended: Runs, after: Runs, r: nat, prior: seq<nat>, c: nat, now: int)
    requires IsNext(base, r, prior, c) && base[c].link.policy == Some(Terminate)
    requires SameLinks(base, ended) && r in ended && c in ended && !ended[r].IsRunning()
    requires forall x :: x in base && x in ended ==> ended[x] == WithEnd(Partial(base, r, prior, x, now), x == c, now)
    requires after.Keys == base.Keys
    requires forall x :: x in ended && x in after ==> after[x] == After(ended, c, x, now)
    ensures Midway(base, after, r, prior + [c], now)
  {
    hide Partial, After, FateOf, WithEnd;
    forall y | y in base && Below(base, c, y)
      ensures ended[y].IsRunning() == base[y].IsRunning()
    {
      NextUntouched(base, r, prior, c, now, y);
      WithEndKeepsRow(base[y], y == c, now);
    }
    assert ended.Keys == base.Keys;
    hide Below, IsForest, SameLinks, IsNext;
    forall x | x in base
      ensures after[x] == Partial(base, r, prior + [c], x, now)
    {
      EndPartial(base, ended, r, prior, c, now, x);
    }
  }

  /** Once every open child is dealt with, everything has happened. */
  lemma {:induction false} AllHandled(base: Runs, r: nat, children: seq<nat>, x: nat, now: int)
    requires IsForest(base) && r in base && x in base
    requires forall c :: IsOpenChild(base, c, r) ==> c in children
    ensures Partial(base, r, children, x, now) == After(base, r, x, now)
  {
    if x != r && base[r].link.parent != Some(x) && !Handled(base, children, x) {
      NotHandledNotTouched(base, r, children, x);
    }
    hide Handled, Doomed, ToldToCancel, Run.Closed, ChildKeyOf;
  }

  lemma {:induction false} NotHandledNotTouched(base: Runs, r: nat, children: seq<nat>, x: nat)
    requires IsForest(base) && r in base && x in base && x != r
    requires forall c :: IsOpenChild(base, c, r) ==> c in children
    requires !Handled(base, children, x)
    ensures !Doomed(base, r, x) && !ToldToCancel(base, r, x)
  {
    if Below(base, r, x) {
      assert OlderParent(base, x);
      var c := BelowAChild(base, r, x);
      assert c !in children;
      assert !IsOpenChild(base, c, r);
      if Doomed(base, r, x) {
        DoomedAbove(base, r, c, x);
      }
      if ToldToCancel(base, r, x) && c != x {
        DoomedAbove(base, r, c, base[x].link.parent.value);
      }
    } else {
      if Doomed(base, r, x) {
        DoomedIsBelow(base, r, x);
      }
      if ToldToCancel(base, r, x) {
        DoomedIsBelow(base, r, base[x].link.parent.value);
      }
    }
  }

  /** Every open run but `r` can still be closed. */
  ghost predicate OthersOpen(runs: Runs, r: nat) {
    forall x :: x in runs && x != r && runs[x].IsRunning() ==> Open(runs[x])
  }

  lemma {:induction false} FatedStaysOpen(fate: Fate, run: Run, childKey: Option<nat>, row: Projection, now: int)
    requires Open(run) && fate != Closes
    ensures var after := Fated(fate, run, childKey, row, now);
            if fate.IsEnded? then !after.IsRunning() else Open(after)
  {
    ClosingFolds(run, RunTerminated(Some("parent run closed")), now);
    OpenAppend(run, CancelRequested(Some("parent run closed")), now, WorkflowTask);
    if childKey.Some? {
      OpenAppend(run, ChildOutcome(childKey.value, row), now, WorkflowTask);
    }
    hide Run.Closed, Run.Append, Run.Enqueue, Open, Count, ChildOutcome;
  }

  lemma {:induction false} PartialStaysOpen(base: Runs, r: nat, children: seq<nat>, x: nat, now: int)
    requires IsForest(base) && r in base && x in base && x != r && OthersOpen(base, r)
    ensures Partial(base, r, children, x, now).IsRunning() ==> Open(Partial(base, r, children, x, now))
  {
    assert base[x].IsRunning() ==> Open(base[x]);
    var fate := FateOf(base, r, x);
    assert fate in {IsEnded, IsAsked} ==> base[x].IsRunning();
    if base[x].IsRunning() {
      FatedStaysOpen(fate, base[x], ChildKeyOf(base, r), base[r].Closed().row, now);
    }
    hide Run.Closed, Run.Append, Ended, Asked, ChildKeyOf, Open, OthersOpen, IsForest, FateOf, Handled;
  }

  lemma {:induction false} MidwayOthersOpen(base: Runs, mid: Runs, r: nat, children: seq<nat>, now: int)
    requires IsForest(base) && r in base && OthersOpen(base, r) && Midway(base, mid, r, children, now)
    ensures OthersOpen(mid, r)
  {
    forall x | x in mid && x != r && mid[x].IsRunning()
      ensures Open(mid[x])
    {
      PartialStaysOpen(base, r, children, x, now);
    }
    hide Partial, Open;
  }

  lemma {:induction false} ClosingKeepsKey(base: Runs, r: nat)
    requires r in base
    ensures ChildKeyOf(base[r := base[r].Closed()], r) == ChildKeyOf(base, r)
  {
    ClosedKeepsLink(base[r]);
    hide Run.Closed;
  }

  // ---- before and between the children -----------------------------------------------

  /** The rows once `r` is closed and its parent told. */
  lemma {:induction false} MidwayStarts(base: Runs, mid: Runs, r: nat, now: int)
    requires IsForest(base) && r in base && mid.Keys == base.Keys
    requires forall x :: x in base ==>
      mid[x] == if x == r then base[r].Closed()
                else if base[r].link.parent == Some(x) then Told(base[x], ChildKeyOf(base, r), base[r].Closed().row, now)
                else base[x]
    ensures Midway(base, mid, r, [], now)
  {
    var parent := base[r].link.parent;
    assert OlderParent(base, r);
    if parent.Some? {
      ParentIsTold(base, r);
    }
    hide Run.Closed, Told, ChildKeyOf, FateOf, IsForest;
    forall x | x in base
      ensures mid[x] == Partial(base, r, [], x, now)
    {
      assert !Handled(base, [], x);
    }
  }

  lemma {:induction false} ParentIsTold(base: Runs, r: nat)
    requires IsForest(base) && r in base && base[r].link.parent.Some?
    ensures FateOf(base, r, base[r].link.parent.value) == IsTold
  {
    var p := base[r].link.parent.value;
    assert OlderParent(base, r) && p < r;
    if Doomed(base, r, p) {
      DoomedIsBelow(base, r, p);
      BelowIsLater(base, r, p);
    }
    if ToldToCancel(base, r, p) {
      DoomedIsBelow(base, r, base[p].link.parent.value);
      BelowIsLater(base, r, base[p].link.parent.value);
    }
  }

  /** Closing `r` and telling its parent leaves the open children of `r` as they were. */
  lemma {:induction false} SameOpenChildren(base: Runs, mid: Runs, r: nat, now: int, count: nat)
    requires IsForest(base) && r in base && Midway(base, mid, r, [], now)
    ensures OpenChildren(mid, r, count) == OpenChildren(base, r, count)
  {
    if count > 0 {
      SameOpenChildren(base, mid, r, now, count - 1);
      var c := count - 1;
      assert OlderParent(base, r);
      if c in base && base[c].link.parent == Some(r) {
        assert OlderParent(base, c) && r < c;
        assert base[r].link.parent.Some? ==> base[r].link.parent.value < r;
        assert !Handled(base, [], c);
        assert mid[c] == base[c] by { hide After, Handled; }
      } else if c in base {
        PartialKeepsLink(base, r, [], c, now);
        hide Partial;
      }
    }
  }

  lemma {:induction false} NextChild(base: Runs, r: nat, count: nat, k: nat)
    requires IsForest(base) && r in base && k < |OpenChildren(base, r, count)|
    ensures var children := OpenChildren(base, r, count);
            IsNext(base, r, children[..k], children[k]) && children[..k + 1] == children[..k] + [children[k]]
  {
    var children := OpenChildren(base, r, count);
    assert OlderParent(base, r);
    forall i | 0 <= i < |children|
      ensures IsOpenChild(base, children[i], r) && r < children[i]
    {
      assert OlderParent(base, children[i]);
    }
    assert forall i :: 0 <= i < k ==> children[..k][i] == children[i];
  }

  /** The next child, given its closing event, can be closed like any run. */
  lemma {:induction false} ChildCanEnd(base: Runs, mid: Runs, r: nat, prior: seq<nat>, c: nat, now: int)
    requires IsForest(base) && IsNext(base, r, prior, c) && Midway(base, mid, r, prior, now) && OthersOpen(base, r)
    requires !mid[r].IsRunning()
    ensures c in mid && mid[c] == base[c]
    ensures var ended := mid[c := mid[c].Append(RunTerminated(Some("parent run closed")), now)];
            SameLinks(base, ended) && IsForest(ended) && !ended[r].IsRunning() && OthersOpen(ended, c) &&
            IsTerminal(ended[c].Refreshed().row.state) &&
            (forall x :: x in base ==> ended[x] == WithEnd(Partial(base, r, prior, x, now), x == c, now))
  {
    NextUntouched(base, r, prior, c, now, c);
    MidwaySameLinks(base, mid, r, prior, now);
    MidwayOthersOpen(base, mid, r, prior, now);
    assert Open(base[c]);
    ClosingFolds(base[c], RunTerminated(Some("parent run closed")), now);
    AppendKeepsRow(base[c], RunTerminated(Some("parent run closed")), now);
    var ended := mid[c := mid[c].Append(RunTerminated(Some("parent run closed")), now)];
    assert ended[c].Closed().row == ended[c].Refreshed().row;
    assert WithEnd(mid[c], true, now) == ended[c] && forall x :: x in base ==> WithEnd(mid[x], false, now) == mid[x];
    hide Run.Append, Run.Closed, Run.Refreshed, Open, Partial, IsNext, WithEnd;
    assert SameLinks(base, ended);
    ForestSameLinks(base, ended);
  }

  /** The store's run rows, and the transactions on them that close runs. */
  class RunRows {
    var runs: Runs
    var nextId: nat

    /** Runs are named below `nextId`, parents before children. */
    ghost predicate Named()
      reads this
    {
      IsForest(runs) && forall x :: x in runs ==> x < nextId
    }

    constructor ()
      ensures runs == map[] && nextId == 0
    {
      runs, nextId := map[], 0;
    }

    /** Tells the parent of a closed run its outcome, if the parent is still open. */
    method NotifyParent(r: nat, now: int)
      requires r in runs && IsTerminal(runs[r].row.state)
      requires runs[r].link.parent.Some? ==> runs[r].link.parent.value in runs && runs[r].link.parent.value != r
      modifies this`runs
      ensures runs.Keys == old(runs.Keys)
      ensures forall x :: x in runs ==>
        runs[x] == if old(runs)[r].link.parent == Some(x)
                   then Told(old(runs)[x], ChildKeyOf(old(runs), r), old(runs)[r].row, now) else old(runs)[x]
    {
      hide Run.Append, Run.Enqueue, ChildOutcome, ChildKeyOf;
      var run := runs[r];
      if run.row.state == RunState.ContinuedAsNew || run.link.parent.None? {
        return;
      }
      var parent, childKey := run.link.parent.value, ChildKeyOf(runs, r);
      if childKey.None? || !runs[parent].IsRunning() {
        return;
      }
      runs := runs[parent := runs[parent].Append(ChildOutcome(childKey.value, run.row), now).Enqueue(WorkflowTask)];
    }

    /** Closes the row of `r` and tells its parent. */
    method CloseRow(r: nat, now: int)
      requires IsForest(runs) && r in runs && IsTerminal(runs[r].Refreshed().row.state)
      modifies this`runs
      ensures r in old(runs) && Midway(old(runs), runs, r, [], now) && r in runs && !runs[r].IsRunning()
      ensures runs[r].row == old(runs)[r].Refreshed().row
    {
      ghost var base := runs;
      assert OlderParent(base, r);
      assert base[r].Closed().row == base[r].Refreshed().row;
      ClosedKeepsLink(base[r]);
      ClosingKeepsKey(base, r);
      hide Run.Closed, Run.Refreshed, ChildKeyOf, Told;
      runs := runs[r := runs[r].Closed()];
      NotifyParent(r, now);
      MidwayStarts(base, runs, r, now);
    }

    /**
     Brings a run's row up to date and, when that closes it, closes everything that goes
     with it: exactly the runs `After` names change, each as it says.
     */
    method CloseRunIfTerminal(r: nat, now: int) returns (state: RunState)
      requires Named() && r in runs && OthersOpen(runs, r)
      modifies this`runs
      ensures runs.Keys == old(runs.Keys) && r in old(runs) && state == old(runs)[r].Refreshed().row.state
      ensures IsTerminal(state) ==> forall x :: x in runs ==> runs[x] == After(old(runs), r, x, now)
      ensures !IsTerminal(state) ==> runs == old(runs)[r := old(runs)[r].Refreshed()]
      decreases nextId - r, 1
    {
      hide Run.Refreshed, Run.Append, After, Partial, OthersOpen;
      ghost var base := runs;
      var run := runs[r].Refreshed();
      state := run.row.state;
      if !IsTerminal(state) {
        runs := runs[r := run];
        return;
      }
      CloseRow(r, now);
      var children := OpenChildren(runs, r, nextId);
      SameOpenChildren(base, runs, r, now, nextId);
      for k := 0 to |children|
        invariant Midway(base, runs, r, children[..k], now) && r in runs && !runs[r].IsRunning()
      {
        NextChild(base, r, nextId, k);
        CloseChild(base, r, children[..k], children[k], now);
      }
      assert children[..|children|] == children;
      forall x | x in base
        ensures runs[x] == After(base, r, x, now)
      {
        AllHandled(base, r, children, x, now);
      }
    }

    /** Applies the policy of one open child of the closed run `r`. */
    method CloseChild(ghost base: Runs, ghost r: nat, ghost prior: seq<nat>, c: nat, now: int)
      requires IsForest(base) && IsNext(base, r, prior, c) && Midway(base, runs, r, prior, now) && OthersOpen(base, r)
      requires r in runs && !runs[r].IsRunning() && forall x :: x in base ==> x < nextId
      modifies this`runs
      ensures Midway(base, runs, r, prior + [c], now) && r in runs && !runs[r].IsRunning()
      decreases nextId - c, 2
    {
      ChildCanEnd(base, runs, r, prior, c, now);
      hide Run.Refreshed, Run.Append, After, Partial, OthersOpen, IsNext, IsForest, SameLinks;
      if runs[c].link.policy == Some(Terminate) {
        runs := runs[c := runs[c].Append(RunTerminated(Some("parent run closed")), now)];
        ghost var ended := runs;
        var _ := CloseRunIfTerminal(c, now);
        EndStep(base, ended, runs, r, prior, c, now);
      } else {
        SpareStep(base, runs, r, prior, c, now);
        runs := runs[c := Spared(runs[c], now)];
      }
    }
  }
}
