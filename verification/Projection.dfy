/**
 The read model of a run: a fold over its event log
 (packages/core/src/run/projection.ts, packages/core/src/run/state-machine.ts).
 */
module Projections {
  import opened WorkflowTypes

  datatype RunState = Running | Completed | Failed | TimedOut | Cancelled | Terminated | ContinuedAsNew

  /** The states a run may move to: any terminal state from RUNNING, and none from there. */
  function Transitions(state: RunState): set<RunState> {
    if state == Running
    then {RunState.Completed, RunState.Failed, TimedOut, Cancelled, Terminated, RunState.ContinuedAsNew}
    else {}
  }

  predicate IsTerminal(state: RunState)
    ensures IsTerminal(state) <==> state != Running
  {
    assert Terminated in Transitions(Running);
    Transitions(state) == {}
  }

  datatype StoredEvent = StoredEvent(sequenceNumber: nat, event: Event, createdAt: int)

  datatype Projection = Projection(
    state: RunState,
    input: Json,
    result: Json,
    error: Option<RecordedError>,
    closedAt: Option<int>,
    lastSequenceNumber: nat)

  function Initial(): Projection {
    Projection(Running, Object(map[]), Null, None, None, 0)
  }

  /** What folding yields: a projection, or the error a replayed transition throws. */
  datatype Folded = Projected(projection: Projection) | SequenceGap | InvalidTransition(state: RunState)

  function TerminalStateFor(event: Event): Option<RunState> {
    match event
    case RunCompleted(_) => Some(RunState.Completed)
    case RunFailed(_) => Some(RunState.Failed)
    case RunTimedOut(_) => Some(TimedOut)
    case RunCancelled(_) => Some(Cancelled)
    case RunTerminated(_) => Some(Terminated)
    case RunContinuedAsNew(_) => Some(RunState.ContinuedAsNew)
    case _ => None
  }

  predicate IsClosing(event: Event) {
    TerminalStateFor(event).Some?
  }

  function Apply(p: Projection, stored: StoredEvent): Folded {
    if stored.sequenceNumber != p.lastSequenceNumber + 1 then SequenceGap
    else if IsTerminal(p.state) then InvalidTransition(p.state)
    else
      var advanced := p.(lastSequenceNumber := stored.sequenceNumber);
      var target := TerminalStateFor(stored.event);
      if target.Some? then
        if target.value !in Transitions(p.state) then InvalidTransition(p.state)
        else
          var closed := advanced.(state := target.value, closedAt := Some(stored.createdAt));
          match stored.event
          case RunCompleted(result) => Projected(closed.(result := result))
          case RunFailed(error) => Projected(closed.(error := Some(error)))
          case _ => Projected(closed)
      else if stored.event.RunStarted? then Projected(advanced.(input := stored.event.input))
      else Projected(advanced)
  }

  /** Folds events, oldest first, onto a projection. */
  function Fold(events: seq<StoredEvent>, start: Projection): Folded {
    if events == [] then Projected(start)
    else
      var last := |events| - 1;
      match Fold(events[..last], start)
      case Projected(p) => Apply(p, events[last])
      case failed => failed
  }

  /** Folding in two parts is folding the whole. */
  lemma {:induction false} FoldConcat(left: seq<StoredEvent>, right: seq<StoredEvent>, start: Projection)
    ensures Fold(left + right, start) ==
            match Fold(left, start) case Projected(p) => Fold(right, p) case failed => failed
  {
    if right == [] {
      assert left + right == left;
    } else {
      FoldConcat(left, right[..|right| - 1], start);
      assert (left + right)[..|left + right| - 1] == left + right[..|right| - 1];
    }
  }

  /** The events follow on the sequence number of `start`. */
  predicate FollowOn(events: seq<StoredEvent>, start: Projection) {
    forall i :: 0 <= i < |events| ==> events[i].sequenceNumber == start.lastSequenceNumber + i + 1
  }

  /** Nothing comes after the event that closes the run. */
  predicate EndsWithItsClosing(events: seq<StoredEvent>, start: Projection) {
    (IsTerminal(start.state) ==> events == []) &&
    forall i :: 0 <= i < |events| - 1 ==> !IsClosing(events[i].event)
  }

  /** The state a fold ends in is the one its last event closes the run with, if it closes it. */
  function StateAfter(events: seq<StoredEvent>, start: Projection): RunState {
    if events == [] then start.state
    else match TerminalStateFor(events[|events| - 1].event) case Some(state) => state case None => start.state
  }

  /** Exactly the gapless logs in which nothing follows a closing event fold. */
  lemma {:induction false} FoldsExactlyWhen(events: seq<StoredEvent>, start: Projection)
    ensures Fold(events, start).Projected? <==> FollowOn(events, start) && EndsWithItsClosing(events, start)
    ensures Fold(events, start).Projected? ==>
      Fold(events, start).projection.lastSequenceNumber == start.lastSequenceNumber + |events| &&
      Fold(events, start).projection.state == StateAfter(events, start)
  {
    if events != [] {
      var last := |events| - 1;
      var before := events[..last];
      FoldsExactlyWhen(before, start);
      if FollowOn(events, start) && EndsWithItsClosing(events, start) {
        assert FollowOn(before, start) && EndsWithItsClosing(before, start);
        assert last > 0 ==> !IsClosing(before[last - 1].event);
      }
      if Fold(events, start).Projected? {
        assert forall i :: 0 <= i < last ==> events[i] == before[i];
        assert last > 0 ==> TerminalStateFor(before[last - 1].event).None?;
      }
    }
  }

  /** A row says how its run was closed, when, and with what result or error. */
  predicate ClosedBy(row: Projection, closing: StoredEvent) {
    row.closedAt == Some(closing.createdAt) &&
    match closing.event
    case RunCompleted(result) => row.state == RunState.Completed && row.result == result
    case RunFailed(error) => row.state == RunState.Failed && row.error == Some(error)
    case RunTimedOut(_) => row.state == TimedOut
    case RunCancelled(_) => row.state == Cancelled
    case RunTerminated(_) => row.state == Terminated
    case RunContinuedAsNew(_) => row.state == RunState.ContinuedAsNew
    case _ => false
  }

  /** What a fold leaves: how the run was closed if it was, and else what it began with. */
  lemma {:induction false} FoldSays(events: seq<StoredEvent>, start: Projection)
    requires Fold(events, start).Projected?
    ensures var row := Fold(events, start).projection;
            (events != [] && IsClosing(events[|events| - 1].event) ==> ClosedBy(row, events[|events| - 1])) &&
            (events == [] || !IsClosing(events[|events| - 1].event) ==>
               row.state == start.state && row.result == start.result && row.error == start.error && row.closedAt == start.closedAt)
  {
    if events != [] {
      var last := |events| - 1;
      var before := events[..last];
      FoldSays(before, start);
      assert forall i :: 0 <= i < last ==> events[i] == before[i];
      FoldsExactlyWhen(events, start);
      assert last > 0 ==> !IsClosing(before[last - 1].event);
      hide FollowOn, StateAfter;
    }
  }

  /** No event from `i` on starts the run. */
  predicate StartsBefore(events: seq<StoredEvent>, i: nat) {
    forall j :: i <= j < |events| ==> !events[j].event.RunStarted?
  }

  /** The input is that of the last start, and else the one the fold began with. */
  lemma {:induction false} FoldTakesTheInput(events: seq<StoredEvent>, start: Projection, i: nat)
    requires Fold(events, start).Projected?
    ensures StartsBefore(events, 0) ==> Fold(events, start).projection.input == start.input
    ensures i < |events| && events[i].event.RunStarted? && StartsBefore(events, i + 1) ==>
      Fold(events, start).projection.input == events[i].event.input
  {
    if events != [] {
      var last := |events| - 1;
      var before := events[..last];
      FoldTakesTheInput(before, start, i);
      assert StartsBefore(events, 0) ==> StartsBefore(before, 0) && !events[last].event.RunStarted?;
      assert i < last && StartsBefore(events, i + 1) ==> StartsBefore(before, i + 1) && !events[last].event.RunStarted?;
      hide StartsBefore;
    }
  }
}
