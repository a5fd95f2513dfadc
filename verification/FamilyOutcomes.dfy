/**
 What the families of runs come to, read from the logs (packages/core/src/cancellation/close-run.ts,
 packages/core/src/continuation/continued-run.ts): how a parent hears of its children, what a
 continued run starts with, and what a closing does to every descendant.
 */
module FamilyOutcomes {
  import opened WorkflowTypes
  import opened Projections
  import opened RunTables
  import opened CloseCascade
  import opened RunFacts
  import opened FamilyTree

  // ---- outcomes and inputs -----------------------------------------------------------------------

  lemma {:induction false} CountMeansThere(log: seq<StoredEvent>, topic: Topic)
    ensures Count(log, topic) > 0 <==> exists i :: 0 <= i < |log| && TopicOf(log[i].event) == Some(topic)
  {
    if log != [] {
      var last := |log| - 1;
      CountMeansThere(log[..last], topic);
      assert forall i :: 0 <= i < last ==> log[..last][i] == log[i];
      hide TopicOf;
    }
  }

  /** A closed run's log holds one closing event, and its row says what that event says. */
  lemma {:induction false} ClosedOnce(run: Run)
    requires RunOk(run) && !run.IsRunning()
    ensures var at := run.row.lastSequenceNumber - 1;
            0 <= at < |run.log| && IsClosing(run.log[at].event) && ClosedBy(run.row, run.log[at]) &&
            forall j :: 0 <= j < |run.log| && IsClosing(run.log[j].event) ==> j == at
  {
    var folded := run.log[..run.row.lastSequenceNumber];
    FoldsExactlyWhen(folded, Origin(run));
    FoldSays(folded, Origin(run));
    assert forall i :: 0 <= i < |folded| ==> folded[i] == run.log[i];
    hide Fold, ResultsAreOutcomes, DecisionsAreRanges, TimersFireOnce, StepsAreKept, TimersAreKept, FollowOn;
  }

  /** `x` is a child of `p`, and the last run of its chain. */
  ghost predicate IsLastOf(runs: Runs, p: nat, x: nat) {
    x in runs && runs[x].link.parent == Some(p) && (runs[x].IsRunning() ==> Standing(runs[x]) == Running) &&
    forall y :: y in runs && runs[y].link.first == runs[x].link.first ==> runs[y].link.index <= runs[x].link.index
  }

  /** Every outcome an open parent holds of a child is that of the last run of the child's chain, as its closing event says. */
  lemma {:induction false} OutcomeIsOfTheLast(runs: Runs, p: nat, x: nat, i: nat)
    requires FamilyOk(runs) && p in runs && runs[p].IsRunning() && IsLastOf(runs, p, x) && i < |runs[p].log|
    requires IsChildOutcome(runs[p].log[i].event) && ChildKeyOf(runs, x) == Some(runs[p].log[i].event.childId)
    ensures !runs[x].IsRunning() && IsToldBy(runs[p].log[i].event, runs[p].log[i].event.childId, runs[x].log)
  {
    var outcome := runs[p].log[i].event;
    assert HearsTruly(runs, p);
    var y :| EndedAs(runs, p, outcome.childId, y) && IsToldBy(outcome, outcome.childId, runs[y].log);
    SameNameSameChain(runs, x, y);
    if Standing(runs[x]) == RunState.ContinuedAsNew {
      var next := Successor(runs, x);
    }
    OneEndPerChain(runs, x, y);
  }

  /**
   What an open parent's log says of a child: that it completed with a value exactly when the
   last run of the child's chain was closed by completing with it, that it failed with an error
   exactly when that run failed with it, was timed out, cancelled or terminated.
   */
  lemma {:induction false} OutcomeSaysHowItEnded(runs: Runs, p: nat, x: nat, outcome: Event)
    requires FamilyOk(runs) && p in runs && runs[p].IsRunning() && IsLastOf(runs, p, x) && RunOk(runs[x])
    requires IsChildOutcome(outcome) && ChildKeyOf(runs, x) == Some(outcome.childId)
    ensures (exists i :: 0 <= i < |runs[p].log| && runs[p].log[i].event == outcome) <==>
            (exists j :: 0 <= j < |runs[x].log| && IsOutcomeOf(outcome, outcome.childId, runs[x].log[j].event))
  {
    assert x in runs;
    hide FamilyOk, RunOk, IsLastOf, IsOutcomeOf;
    if i :| 0 <= i < |runs[p].log| && runs[p].log[i].event == outcome {
      OutcomeIsOfTheLast(runs, p, x, i);
    }
    if j :| 0 <= j < |runs[x].log| && IsOutcomeOf(outcome, outcome.childId, runs[x].log[j].event) {
      var i := OutcomeIsThere(runs, p, x, outcome.childId, j, outcome);
      OutcomeIsOfTheLast(runs, p, x, i);
      var k :| 0 <= k < |runs[x].log| && IsOutcomeOf(runs[p].log[i].event, outcome.childId, runs[x].log[k].event);
      OneOutcomeOf(runs[x], outcome.childId, outcome, j, runs[p].log[i].event, k);
    }
  }

  lemma OutcomeCloses(outcome: Event, childId: nat, closing: Event)
    requires IsOutcomeOf(outcome, childId, closing)
    ensures IsClosing(closing)
  {
    hide NamedError;
  }

  lemma OutcomesAgree(outcome: Event, other: Event, childId: nat, closing: Event)
    requires IsOutcomeOf(outcome, childId, closing) && IsOutcomeOf(other, childId, closing)
    ensures outcome == other
  {
    hide NamedError;
  }

  lemma OneOutcomeOf(run: Run, childId: nat, outcome: Event, j: nat, other: Event, k: nat)
    requires RunOk(run) && !run.IsRunning() && j < |run.log| && k < |run.log|
    requires IsOutcomeOf(outcome, childId, run.log[j].event) && IsOutcomeOf(other, childId, run.log[k].event)
    ensures outcome == other
  {
    hide RunOk, IsOutcomeOf, IsClosing, ClosedBy;
    ClosedOnce(run);
    OutcomeCloses(outcome, childId, run.log[j].event);
    OutcomeCloses(other, childId, run.log[k].event);
    OutcomesAgree(outcome, other, childId, run.log[j].event);
  }

  lemma OpenHoldsNoClosing(run: Run, j: nat)
    requires RunOk(run) && j < |run.log| && IsClosing(run.log[j].event)
    ensures !run.IsRunning()
  {
    hide Sound;
  }

  lemma {:induction false} OutcomeIsThere(runs: Runs, p: nat, x: nat, childId: nat, j: nat, outcome: Event) returns (i: nat)
    requires FamilyOk(runs) && p in runs && runs[p].IsRunning() && IsLastOf(runs, p, x) && RunOk(runs[x])
    requires ChildKeyOf(runs, x) == Some(childId) && j < |runs[x].log| && IsOutcomeOf(outcome, childId, runs[x].log[j].event)
    ensures i < |runs[p].log| && IsChildOutcome(runs[p].log[i].event) && runs[p].log[i].event.childId == childId && !runs[x].IsRunning()
  {
    hide FamilyOk, RunOk, IsOutcomeOf, IsClosing, Count, Standing;
    OutcomeExactlyWhenChainEnded(runs, p, x);
    OutcomeCloses(outcome, childId, runs[x].log[j].event);
    OpenHoldsNoClosing(runs[x], j);
    hide IsLastOf;
    CountMeansThere(runs[p].log, ChildEnd(childId));
    i :| 0 <= i < |runs[p].log| && TopicOf(runs[p].log[i].event) == Some(ChildEnd(childId));
  }

  /** A run that goes on with a chain starts by its predecessor's type, with the input its predecessor asked to continue with. */
  lemma {:induction false} ContinuesWithWhatWasAsked(runs: Runs, x: nat, y: nat)
    requires StoreOk(runs) && x in runs && runs[x].link.continuedFrom == Some(y)
    ensures y in runs && runs[x].log != [] && runs[y].log != [] && runs[x].log[0].event.RunStarted? && runs[y].log[0].event.RunStarted?
    ensures runs[x].log[0].event.workflowType == runs[y].log[0].event.workflowType
    ensures exists j :: 0 <= j < |runs[y].log| && runs[y].log[j].event == RunContinuedAsNew(runs[x].log[0].event.input)
    ensures runs[x].link.runTimeoutMs == runs[y].link.runTimeoutMs && runs[x].link.deadline == runs[y].link.deadline
  {
    assert ChainLink(runs, x);
    assert RunOk(runs[x]) && RunOk(runs[y]);
    assert BeginsAsLinked(runs[x]) && BeginsAsLinked(runs[y]);
    ChainSharesItsLimits(runs, x, y);
    hide RunOk, StoreOk;
  }

  // ---- closings --------------------------------------------------------------------------------

  /** A run that was not asked to cancel before is asked, and woken; one that was is left alone. */
  predicate IsAskedOnce(run: Run, after: Run, now: int) {
    if exists i :: 0 <= i < |run.log| && run.log[i].event.CancelRequested? then after == run
    else after.log == run.log + [StoredEvent(|run.log| + 1, CancelRequested(Some("parent run closed")), now)] &&
         after.tasks == run.tasks + [Task(WorkflowTask, TaskPending)]
  }

  lemma {:induction false} AskedIsAskedOnce(run: Run, now: int)
    ensures IsAskedOnce(run, Asked(run, now), now)
  {
    CountMeansThere(run.log, CancelWish);
    assert forall i :: 0 <= i < |run.log| ==> (TopicOf(run.log[i].event) == Some(CancelWish) <==> run.log[i].event.CancelRequested?);
    hide Count, TopicOf;
  }

  /** An open parent is told how its child was closed, in one event, and woken by one task. */
  lemma {:induction false} ParentIsToldAndWoken(base: Runs, after: Runs, r: nat, p: nat, now: int)
    requires ReadyToClose(base, r) && after.Keys == base.Keys && p in base && base[r].link.parent == Some(p) && base[p].IsRunning()
    requires Standing(base[r]) != RunState.ContinuedAsNew && after[p] == After(base, r, p, now)
    ensures |after[p].log| == |base[p].log| + 1 && base[p].log <= after[p].log && ChildKeyOf(base, r).Some?
    ensures IsOutcomeOf(after[p].log[|base[p].log|].event, ChildKeyOf(base, r).value, base[r].log[|base[r].log| - 1].event)
    ensures after[p].tasks == base[p].tasks + [Task(WorkflowTask, TaskPending)]
  {
    NotYetEnded(base, r);
    ReadyStands(base, r);
    TheParentsFate(base, r, p, now);
    ClosesAsItStands(base, r);
    hide *;
    TellsHowItClosed(base[r], ChildKeyOf(base, r).value);
    TellingWakes(base[p], ChildKeyOf(base, r), base[r].Closed().row, now);
  }

  lemma ClosesAsItStands(base: Runs, r: nat)
    requires ReadyToClose(base, r)
    ensures AboutToClose(base[r]) && base[r].Closed().row.state == Standing(base[r])
  {
    ClosedRowFolds(base[r]);
    hide AboutToClose, FamilyOk, AllOk;
  }

  lemma {:induction false} TheParentsFate(base: Runs, r: nat, p: nat, now: int)
    requires ReadyToClose(base, r) && p in base && base[r].link.parent == Some(p)
    ensures After(base, r, p, now) == Told(base[p], ChildKeyOf(base, r), base[r].Closed().row, now)
  {
    ParentIsTold(base, r);
    hide Run.Closed, Told, ChildKeyOf, AboutToClose, FamilyOk, AllOk, Ended, Asked;
  }

  lemma TellingWakes(run: Run, childKey: Option<nat>, row: Projection, now: int)
    requires run.IsRunning() && childKey.Some? && IsTerminal(row.state) && row.state != RunState.ContinuedAsNew
    ensures var after := Told(run, childKey, row, now);
            after.log == run.log + [StoredEvent(|run.log| + 1, ChildOutcome(childKey.value, row), now)] &&
            |after.log| == |run.log| + 1 && run.log <= after.log && after.log[|run.log|].event == ChildOutcome(childKey.value, row) &&
            after.tasks == run.tasks + [Task(WorkflowTask, TaskPending)]
  {
    hide ChildOutcome;
  }

  /**
   The cascade: once `r` is closed, every descendant reached through open runs that are
   terminated with their parent is TERMINATED by one closing event and has no waiting
   task, every open run whose closed parent asks it to cancel holds exactly one request,
   and apart from `r` and its parent nothing else changed.
   */
  lemma {:induction false} CascadeReaches(base: Runs, after: Runs, r: nat, x: nat, now: int)
    requires ReadyToClose(base, r) && after.Keys == base.Keys && x in base && x != r
    requires after[x] == After(base, r, x, now)
    ensures Doomed(base, r, x) ==>
      after[x].row.state == Terminated && (forall i :: 0 <= i < |base[x].log| ==> !IsClosing(base[x].log[i].event)) &&
      after[x].log == base[x].log + [StoredEvent(|base[x].log| + 1, RunTerminated(Some("parent run closed")), now)] &&
      forall i :: 0 <= i < |after[x].tasks| ==> after[x].tasks[i].state != TaskPending
    ensures ToldToCancel(base, r, x) && !Doomed(base, r, x) ==> after[x].IsRunning() && Count(after[x].log, CancelWish) == 1
    ensures ToldToCancel(base, r, x) && !Doomed(base, r, x) ==> IsAskedOnce(base[x], after[x], now)
    ensures !Doomed(base, r, x) && !ToldToCancel(base, r, x) && base[r].link.parent != Some(x) ==> after[x] == base[x]
  {
    hide IsAskedOnce, Doomed, ToldToCancel, Run.Closed, Run.Append, Ended, Asked, Told, ChildKeyOf, RunOk, FamilyOk, AboutToClose, Count;
    assert RunOk(base[x]);
    if Doomed(base, r, x) {
      assert base[x].IsRunning() by { DoomedIsOpen(base, r, x); }
      EndsOnce(base[x], now);
    } else if ToldToCancel(base, r, x) {
      assert base[x].IsRunning() by { ToldIsOpen(base, r, x); }
      AskedKeepsOk(base[x], now);
      AskedIsAskedOnce(base[x], now);
    }
  }

  lemma DoomedIsOpen(runs: Runs, r: nat, x: nat)
    requires Doomed(runs, r, x) && x != r
    ensures x in runs && runs[x].IsRunning()
  {
  }

  lemma ToldIsOpen(runs: Runs, r: nat, x: nat)
    requires ToldToCancel(runs, r, x)
    ensures x in runs && runs[x].IsRunning()
  {
  }

  /** A run that is ended with its parent gets one closing event, its first, and no task of it waits any more. */
  lemma {:induction false} EndsOnce(run: Run, now: int)
    requires RunOk(run) && run.IsRunning()
    ensures var after := Ended(run, now);
            after.row.state == Terminated && (forall i :: 0 <= i < |run.log| ==> !IsClosing(run.log[i].event)) &&
            after.log == run.log + [StoredEvent(|run.log| + 1, RunTerminated(Some("parent run closed")), now)] &&
            forall i :: 0 <= i < |after.tasks| ==> after.tasks[i].state != TaskPending
  {
    EndingKeepsOk(run, now);
    OkIsOpen(run);
    ClosingFolds(run, RunTerminated(Some("parent run closed")), now);
    hide Sound, Run.Closed;
  }
}
