/**
 Durable timers (packages/core/src/timers/timer-scheduler.ts) over the run store, read with
 a clock that never goes back (packages/core/src/timers/monotonic-clock.ts). The database
 names timer rows; `idOf` stands for those names, which order timers due at the same time.
 */
module Timers {
  import opened WorkflowTypes
  import opened RunTables
  import opened CloseCascade
  import opened FamilyTree
  import opened RunStores

  // ---- the clock -------------------------------------------------------------------------

  function Later(high: Option<int>, reading: int): int {
    if high.Some? && reading < high.value then high.value else reading
  }

  /** What a clock that has shown `high` answers while its source shows `readings`. */
  function Answers(high: Option<int>, readings: seq<int>): (answers: seq<int>)
    ensures |answers| == |readings|
    decreases readings
  {
    if readings == [] then []
    else [Later(high, readings[0])] + Answers(Some(Later(high, readings[0])), readings[1..])
  }

  /** Every answer is the latest reading so far: at least every one of them, and one of them. */
  lemma {:induction false} AnswersAreLatest(high: Option<int>, readings: seq<int>, i: nat)
    requires i < |readings|
    ensures var answer := Answers(high, readings)[i];
            (forall k :: 0 <= k <= i ==> readings[k] <= answer) && (high.Some? ==> high.value <= answer) &&
            (answer in readings[..i + 1] || high == Some(answer))
    decreases readings
  {
    if i > 0 {
      var next := Some(Later(high, readings[0]));
      AnswersAreLatest(next, readings[1..], i - 1);
      var answer := Answers(high, readings)[i];
      assert answer == Answers(next, readings[1..])[i - 1];
      forall k | 0 <= k <= i
        ensures readings[k] <= answer
      {
        if k > 0 {
          assert readings[k] == readings[1..][k - 1];
        }
      }
      if answer in readings[1..][..i] {
        var k :| 0 <= k < i && readings[1..][..i][k] == answer;
        assert readings[..i + 1][k + 1] == answer;
      } else if high != Some(answer) {
        assert readings[..i + 1][0] == answer;
      }
    }
  }

  /** Answers never go back. */
  lemma {:induction false} AnswersNeverGoBack(high: Option<int>, readings: seq<int>, i: nat, j: nat)
    requires i <= j < |readings|
    ensures Answers(high, readings)[i] <= Answers(high, readings)[j]
    decreases readings
  {
    if i > 0 {
      AnswersNeverGoBack(Some(Later(high, readings[0])), readings[1..], i - 1, j - 1);
    } else if j > 0 {
      AnswersAreLatest(Some(Later(high, readings[0])), readings[1..], j - 1);
    }
  }

  class MonotonicClock {
    var highWater: Option<int>
    var regressions: nat

    constructor ()
      ensures highWater == None && regressions == 0
    {
      highWater, regressions := None, 0;
    }

    /** Answers the latest reading seen, and counts the readings that went back. */
    method Now(reading: int) returns (served: int)
      modifies this
      ensures served == Later(old(highWater), reading) && highWater == Some(served)
      ensures regressions == old(regressions) + if old(highWater).Some? && reading < old(highWater).value then 1 else 0
    {
      if highWater.Some? && reading < highWater.value {
        regressions := regressions + 1;
        return highWater.value;
      }
      highWater := Some(reading);
      return reading;
    }
  }

  // ---- timers in order ---------------------------------------------------------------------

  datatype TimerRef = TimerRef(run: nat, key: TimerKey)

  datatype Handled = Handled(timer: TimerRef, fireAt: int, at: int, fired: bool)

  predicate IsTimer(runs: Runs, t: TimerRef) {
    t.run in runs && t.key in runs[t.run].timers
  }

  function RowOf(runs: Runs, t: TimerRef): Timer
    requires IsTimer(runs, t)
  {
    runs[t.run].timers[t.key]
  }

  predicate IsPending(runs: Runs, t: TimerRef) {
    IsTimer(runs, t) && RowOf(runs, t).state.TimerPending?
  }

  predicate IsDue(runs: Runs, t: TimerRef, now: int) {
    IsPending(runs, t) && RowOf(runs, t).fireAt <= now
  }

  function PendingTimers(runs: Runs): set<TimerRef> {
    set r, key | r in runs && key in runs[r].timers && runs[r].timers[key].state.TimerPending? :: TimerRef(r, key)
  }

  /** Firing order: by the time a timer is due, then by the name of its row. */
  predicate IsBefore(idOf: TimerRef -> int, a: TimerRef, aAt: int, b: TimerRef, bAt: int) {
    aAt < bAt || (aAt == bAt && idOf(a) < idOf(b))
  }

  ghost predicate AreNames(idOf: TimerRef -> int) {
    forall a, b :: idOf(a) == idOf(b) ==> a == b
  }

  /** What was handled comes in order, and everything still pending comes after it. */
  ghost predicate InOrder(idOf: TimerRef -> int, handled: seq<Handled>, runs: Runs) {
    (forall i, j :: 0 <= i < j < |handled| ==>
      IsBefore(idOf, handled[i].timer, handled[i].fireAt, handled[j].timer, handled[j].fireAt)) &&
    forall i, t :: 0 <= i < |handled| && IsPending(runs, t) ==>
      IsBefore(idOf, handled[i].timer, handled[i].fireAt, t, RowOf(runs, t).fireAt)
  }

  /** What order means for the times themselves: nothing is handled before something due earlier, or due at once under a smaller name. */
  lemma {:induction false} EarlierIsHandledFirst(idOf: TimerRef -> int, handled: seq<Handled>, runs: Runs)
    requires InOrder(idOf, handled, runs)
    ensures forall i, j :: 0 <= i < j < |handled| ==>
      handled[i].fireAt <= handled[j].fireAt &&
      (handled[i].fireAt == handled[j].fireAt ==> idOf(handled[i].timer) < idOf(handled[j].timer))
    ensures forall i, t :: 0 <= i < |handled| && IsPending(runs, t) ==> handled[i].fireAt <= RowOf(runs, t).fireAt
  {
    forall i, j | 0 <= i < j < |handled|
      ensures IsBefore(idOf, handled[i].timer, handled[i].fireAt, handled[j].timer, handled[j].fireAt)
    {
    }
    forall i, t | 0 <= i < |handled| && IsPending(runs, t)
      ensures IsBefore(idOf, handled[i].timer, handled[i].fireAt, t, RowOf(runs, t).fireAt)
    {
    }
  }

  function Mark(h: Handled): TimerState {
    if h.fired then TimerFiredAt(h.at) else TimerCancelledAt(h.at)
  }

  /** Each handled timer was pending and due, and carries what became of it; every other timer is as before. */
  ghost predicate AreHandled(handled: seq<Handled>, before: Runs, after: Runs) {
    before.Keys == after.Keys &&
    (forall t {:trigger IsTimer(after, t)} {:trigger IsTimer(before, t)} :: IsTimer(before, t) <==> IsTimer(after, t)) &&
    (forall t {:trigger RowOf(after, t)} :: IsTimer(before, t) && IsTimer(after, t) && (forall i :: 0 <= i < |handled| ==> handled[i].timer != t) ==>
      RowOf(after, t) == RowOf(before, t)) &&
    forall i :: 0 <= i < |handled| ==> IsHandled(handled[i], before, after)
  }

  predicate IsHandled(h: Handled, before: Runs, after: Runs) {
    IsDue(before, h.timer, h.at) && RowOf(before, h.timer).fireAt == h.fireAt &&
    IsTimer(after, h.timer) && RowOf(after, h.timer) == Timer(h.fireAt, Mark(h))
  }

  lemma {:induction false} OneHandled(h: Handled, before: Runs, after: Runs)
    requires IsDue(before, h.timer, h.at) && RowOf(before, h.timer).fireAt == h.fireAt
    requires OneTimer(before, after, h.timer.run, h.timer.key, Mark(h))
    ensures AreHandled([h], before, after)
  {
    forall t
      ensures IsTimer(before, t) <==> IsTimer(after, t)
      ensures IsTimer(before, t) && IsTimer(after, t) && t != h.timer ==> RowOf(after, t) == RowOf(before, t)
    {
    }
    assert IsHandled(h, before, after);
    assert [h][0].timer == h.timer;
    hide Mark, IsHandled, IsTimer, RowOf;
  }

  /** What is handled once is not pending any more, so nothing is handled twice. */
  lemma {:induction false} HandledOnce(h: Handled, later: seq<Handled>, before: Runs, mid: Runs, after: Runs)
    requires IsHandled(h, before, mid) && AreHandled(later, mid, after)
    ensures IsHandled(h, before, after) && forall i :: 0 <= i < |later| ==> later[i].timer != h.timer
  {
    forall i | 0 <= i < |later|
      ensures later[i].timer != h.timer
    {
      assert IsHandled(later[i], mid, after);
    }
    assert IsTimer(mid, h.timer) && IsTimer(after, h.timer);
    assert RowOf(after, h.timer) == RowOf(mid, h.timer);
  }

  lemma {:induction false} HandledInTurn(earlier: seq<Handled>, later: seq<Handled>, before: Runs, mid: Runs, after: Runs)
    requires AreHandled(earlier, before, mid) && AreHandled(later, mid, after)
    ensures AreHandled(earlier + later, before, after)
  {
    var all := earlier + later;
    forall i | 0 <= i < |all|
      ensures IsHandled(all[i], before, after)
    {
      if i < |earlier| {
        HandledOnce(earlier[i], later, before, mid, after);
      } else {
        HandledFromStart(earlier, later[i - |earlier|], later, before, mid, after);
      }
    }
    hide IsHandled;
    forall t | IsTimer(before, t) && IsTimer(after, t) && forall i :: 0 <= i < |all| ==> all[i].timer != t
      ensures RowOf(after, t) == RowOf(before, t)
    {
      assert IsTimer(mid, t);
      assert forall i :: 0 <= i < |earlier| ==> earlier[i] == all[i];
      assert forall i :: 0 <= i < |later| ==> later[i] == all[|earlier| + i];
      assert RowOf(mid, t) == RowOf(before, t);
    }
  }

  lemma {:induction false} HandledFromStart(earlier: seq<Handled>, h: Handled, later: seq<Handled>, before: Runs, mid: Runs, after: Runs)
    requires AreHandled(earlier, before, mid) && AreHandled(later, mid, after) && h in later
    ensures IsHandled(h, before, after)
  {
    assert IsHandled(h, mid, after);
    forall i | 0 <= i < |earlier|
      ensures earlier[i].timer != h.timer
    {
      assert IsHandled(earlier[i], before, mid);
    }
    assert IsTimer(before, h.timer) && RowOf(mid, h.timer) == RowOf(before, h.timer);
  }

  /** Timers pending later were pending before, on the same row. */
  lemma {:induction false} PendingBefore(later: seq<Handled>, mid: Runs, after: Runs, t: TimerRef)
    requires AreHandled(later, mid, after) && IsPending(after, t)
    ensures IsPending(mid, t) && RowOf(mid, t) == RowOf(after, t)
  {
    assert IsTimer(mid, t);
    forall i | 0 <= i < |later|
      ensures later[i].timer != t
    {
      assert IsHandled(later[i], mid, after);
    }
  }

  lemma {:induction false} OrderGoesOn(idOf: TimerRef -> int, earlier: seq<Handled>, later: seq<Handled>, mid: Runs, after: Runs)
    requires InOrder(idOf, earlier, mid) && InOrder(idOf, later, after) && AreHandled(later, mid, after)
    ensures InOrder(idOf, earlier + later, after)
  {
    var all := earlier + later;
    forall i, j | 0 <= i < |earlier| && 0 <= j < |later|
      ensures IsBefore(idOf, earlier[i].timer, earlier[i].fireAt, later[j].timer, later[j].fireAt)
    {
      assert IsHandled(later[j], mid, after);
    }
    hide IsBefore, AreHandled;
    forall i, t | 0 <= i < |all| && IsPending(after, t)
      ensures IsBefore(idOf, all[i].timer, all[i].fireAt, t, RowOf(after, t).fireAt)
    {
      PendingBefore(later, mid, after, t);
    }
  }

  /** Marking one timer takes it off the pending ones and changes no other. */
  lemma {:induction false} OneFewerPending(before: Runs, after: Runs, t: TimerRef, state: TimerState)
    requires IsPending(before, t) && !state.TimerPending? && OneTimer(before, after, t.run, t.key, state)
    ensures PendingTimers(after) == PendingTimers(before) - {t}
    ensures forall other :: IsPending(after, other) ==> other != t && IsPending(before, other) && RowOf(after, other) == RowOf(before, other)
  {
    forall other
      ensures IsPending(after, other) <==> IsPending(before, other) && other != t
      ensures IsPending(after, other) ==> RowOf(after, other) == RowOf(before, other)
    {
      if IsTimer(before, other) || IsTimer(after, other) {
        assert other.run in before && other.run in after;
        assert after[other.run].timers == if other.run == t.run then before[t.run].timers[t.key := before[t.run].timers[t.key].(state := state)] else before[other.run].timers;
      }
    }
  }

  ghost predicate NothingDue(runs: Runs, now: int) {
    forall t :: !IsDue(runs, t, now)
  }

  /** Every timer an open run's log started to be due by `now` has fired, as the same log says. */
  ghost predicate AllHaveFired(runs: Runs, now: int) {
    forall r: nat, k: nat :: r in runs && IsStarted(runs[r], k, now) ==> HasFired(runs[r].log, runs[r].log[k].event.timerId)
  }

  /** An open run's log starts a timer at `k`, for the first time, to be due by `now`. */
  predicate IsStarted(run: Run, k: nat, now: int) {
    run.IsRunning() && k < |run.log| && run.log[k].event.TimerStarted? && IsFirstStart(run.log, k) && run.log[k].event.fireAt <= now
  }

  /** No timer is lost: where nothing is due any more, all that were recorded have fired. */
  lemma {:induction false} NothingDueMeansAllFired(runs: Runs, now: int)
    requires StoreOk(runs) && NothingDue(runs, now)
    ensures AllHaveFired(runs, now)
  {
    hide StoreOk, IsFirstStart;
    forall r: nat, k: nat | r in runs && IsStarted(runs[r], k, now)
      ensures HasFired(runs[r].log, runs[r].log[k].event.timerId)
    {
      NoTimerIsLost(runs, r, k);
      assert !IsDue(runs, TimerRef(r, WorkflowTimer(runs[r].log[k].event.timerId)), now);
    }
  }

  // ---- the scheduler -------------------------------------------------------------------------

  class TimerScheduler {
    const store: RunStore
    const clock: MonotonicClock
    const idOf: TimerRef -> int
    const batchSize: nat

    ghost predicate Valid()
      reads this, store, store.rows
    {
      store.Valid() && batchSize > 0 && AreNames(idOf)
    }

    constructor (store: RunStore, clock: MonotonicClock, batchSize: nat, idOf: TimerRef -> int)
      requires store.Valid() && batchSize > 0 && AreNames(idOf)
      ensures Valid() && this.store == store && this.clock == clock && this.batchSize == batchSize && this.idOf == idOf
    {
      this.store, this.clock, this.batchSize, this.idOf := store, clock, batchSize, idOf;
    }

    /** The first of the timers that are due, if any is. */
    method FirstDue(now: int) returns (first: Option<TimerRef>)
      requires Valid()
      ensures first.None? ==> forall t :: !IsDue(store.rows.runs, t, now)
      ensures first.Some? ==> IsDue(store.rows.runs, first.value, now)
      ensures first.Some? ==> forall t :: IsPending(store.rows.runs, t) && t != first.value ==>
        IsBefore(idOf, first.value, RowOf(store.rows.runs, first.value).fireAt, t, RowOf(store.rows.runs, t).fireAt)
    {
      hide StoreOk;
      var runs := store.rows.runs;
      first := None;
      var rest := PendingTimers(runs);
      assert forall t :: IsPending(runs, t) ==> t in rest;
      while rest != {}
        invariant rest <= PendingTimers(runs)
        invariant first.Some? ==> IsDue(runs, first.value, now)
        invariant forall t :: IsPending(runs, t) && t !in rest && IsDue(runs, t, now) ==> first.Some?
        invariant first.Some? ==> forall t :: IsDue(runs, t, now) && t !in rest && t != first.value ==>
          IsBefore(idOf, first.value, RowOf(runs, first.value).fireAt, t, RowOf(runs, t).fireAt)
        decreases |rest|
      {
        var t :| t in rest;
        rest := rest - {t};
        if IsDue(runs, t, now) &&
           (first.None? || IsBefore(idOf, t, RowOf(runs, t).fireAt, first.value, RowOf(runs, first.value).fireAt)) {
          first := Some(t);
        }
      }
    }

    /** Handles the first due timer: on an open run it fires, on a closed run it is only cancelled. */
    method FireNext(now: int) returns (outcome: Option<Handled>)
      requires Valid()
      modifies store.rows`runs
      ensures Valid()
      ensures outcome.None? ==> store.rows.runs == old(store.rows.runs) && NothingDue(store.rows.runs, now)
      ensures outcome.Some? ==> IsNext(outcome.value, now, old(store.rows.runs), store.rows.runs)
    {
      var first := FirstDue(now);
      if first.None? {
        return None;
      }
      hide StoreOk, RunsAdvance, OneTimer, IsFiredFor;
      var t := first.value;
      var fireAt := RowOf(store.rows.runs, t).fireAt;
      var fired := store.FireTimer(t.run, t.key, now);
      return Some(Handled(t, fireAt, now, fired));
    }

    /** The timer handled is the first one due; only its row among the timers changes, and it fires, as the log tells, exactly on an open run. */
    ghost predicate IsNext(h: Handled, now: int, before: Runs, after: Runs) {
      h.at == now && IsDue(before, h.timer, now) && RowOf(before, h.timer).fireAt == h.fireAt &&
      (h.fired <==> before[h.timer.run].IsRunning()) && h.timer.run in after &&
      (h.fired ==> IsFiredFor(before[h.timer.run], after[h.timer.run], h.timer.key, now)) && OneTimer(before, after, h.timer.run, h.timer.key, Mark(h)) &&
      forall t :: IsPending(before, t) && t != h.timer ==> IsBefore(idOf, h.timer, h.fireAt, t, RowOf(before, t).fireAt)
    }

    /** Among the timers handled in one go: handled as they should be, in order, and fewer left. */
    ghost predicate IsBatch(handled: seq<Handled>, before: Runs, after: Runs) {
      AreHandled(handled, before, after) && InOrder(idOf, handled, after) && PendingTimers(after) <= PendingTimers(before) &&
      (handled != [] ==> PendingTimers(after) < PendingTimers(before))
    }

    lemma NothingHandled(runs: Runs)
      ensures IsBatch([], runs, runs)
    {
    }

    lemma NextIsBatch(h: Handled, now: int, before: Runs, after: Runs)
      requires IsNext(h, now, before, after)
      ensures IsBatch([h], before, after)
    {
      OneHandled(h, before, after);
      OneFewerPending(before, after, h.timer, Mark(h));
      assert h.timer in PendingTimers(before);
      hide OneTimer, Mark, IsBefore, AreHandled;
    }

    lemma BatchesJoin(earlier: seq<Handled>, later: seq<Handled>, before: Runs, mid: Runs, after: Runs)
      requires IsBatch(earlier, before, mid) && IsBatch(later, mid, after)
      ensures IsBatch(earlier + later, before, after)
    {
      HandledInTurn(earlier, later, before, mid, after);
      OrderGoesOn(idOf, earlier, later, mid, after);
      hide AreHandled, InOrder, PendingTimers;
    }

    /** Handles due timers one after the other, `batchSize` at most, all by one reading of the clock. */
    method Tick(reading: int) returns (handled: seq<Handled>, now: int)
      requires Valid()
      modifies clock, store.rows`runs
      ensures Valid() && now == Later(old(clock.highWater), reading) && clock.highWater == Some(now)
      ensures |handled| <= batchSize && IsBatch(handled, old(store.rows.runs), store.rows.runs)
      ensures |handled| < batchSize ==> NothingDue(store.rows.runs, now) && AllHaveFired(store.rows.runs, now)
      ensures forall i :: 0 <= i < |handled| ==> handled[i].at == now
    {
      hide *;
      now := clock.Now(reading);
      handled := [];
      ghost var before := store.rows.runs;
      NothingHandled(before);
      while |handled| < batchSize
        invariant Valid() && |handled| <= batchSize && IsBatch(handled, before, store.rows.runs)
        invariant forall i :: 0 <= i < |handled| ==> handled[i].at == now
        modifies store.rows`runs
        decreases batchSize - |handled|
      {
        ghost var mid := store.rows.runs;
        var outcome := FireNext(now);
        if outcome.None? {
          ValidIsOk();
          NothingDueMeansAllFired(store.rows.runs, now);
          return;
        }
        NextIsBatch(outcome.value, now, mid, store.rows.runs);
        BatchesJoin(handled, [outcome.value], before, mid, store.rows.runs);
        AtNow(outcome.value, now, mid, store.rows.runs);
        handled := handled + [outcome.value];
      }
    }

    lemma ValidIsOk()
      requires Valid()
      ensures StoreOk(store.rows.runs)
    {
      store.ValidIsOk();
      hide StoreOk, AreNames, RunStore.Valid;
    }

    lemma AtNow(h: Handled, now: int, before: Runs, after: Runs)
      requires IsNext(h, now, before, after)
      ensures h.at == now
    {
    }

    /**
     Ticks until a tick is not full. It ends whatever the clock shows, leaves nothing due at
     the last reading, so that every timer recorded by an open run to be due by then has fired,
     and handles every timer in order, across its ticks too.
     */
    method CatchUp(readings: nat -> int) returns (handled: seq<Handled>, ticks: nat)
      requires Valid()
      modifies clock, store.rows`runs
      ensures Valid() && IsBatch(handled, old(store.rows.runs), store.rows.runs)
      ensures ticks > 0 && clock.highWater.Some? && NothingDue(store.rows.runs, clock.highWater.value)
      ensures AllHaveFired(store.rows.runs, clock.highWater.value)
      ensures readings(ticks - 1) <= clock.highWater.value
      ensures forall i :: 0 <= i < |handled| ==> handled[i].at <= clock.highWater.value
    {
      hide *;
      handled, ticks := [], 0;
      ghost var before := store.rows.runs;
      NothingHandled(before);
      while true
        invariant Valid() && IsBatch(handled, before, store.rows.runs)
        invariant handled != [] ==> clock.highWater.Some? && forall i :: 0 <= i < |handled| ==> handled[i].at <= clock.highWater.value
        modifies clock, store.rows`runs
        decreases PendingTimers(store.rows.runs)
      {
        ghost var mid, high := store.rows.runs, clock.highWater;
        var report, now := Tick(readings(ticks));
        NeverBack(high, readings(ticks));
        ticks := ticks + 1;
        BatchesJoin(handled, report, before, mid, store.rows.runs);
        SomeBatch();
        FewerLeft(report, mid, store.rows.runs);
        handled := handled + report;
        if |report| < batchSize {
          return;
        }
      }
    }

    lemma SomeBatch()
      requires Valid()
      ensures batchSize > 0
    {
      hide RunStore.Valid, AreNames;
    }

    lemma NeverBack(high: Option<int>, reading: int)
      ensures reading <= Later(high, reading) && (high.Some? ==> high.value <= Later(high, reading))
    {
    }

    lemma FewerLeft(handled: seq<Handled>, before: Runs, after: Runs)
      requires IsBatch(handled, before, after)
      ensures handled != [] ==> PendingTimers(after) < PendingTimers(before)
    {
    }
  }

  /** A handled workflow timer fired exactly when its run's log holds one firing of it, and not before it was due. */
  lemma {:induction false} FiredExactlyOnce(runs: Runs, t: TimerRef)
    requires StoreOk(runs) && IsTimer(runs, t) && t.key.WorkflowTimer?
    ensures Count(runs[t.run].log, TimerEnd(t.key.timerId)) == if RowOf(runs, t).state.TimerFiredAt? then 1 else 0
    ensures RowOf(runs, t).state.TimerFiredAt? ==> RowOf(runs, t).fireAt <= RowOf(runs, t).state.at
  {
    StoredIsOk(runs, t.run);
    hide StoreOk, Count, RowFollowsLog, ResultsAreOutcomes, DecisionsAreRanges, StepsAreKept, Numbered, ClosedMeansClosed;
  }
}
