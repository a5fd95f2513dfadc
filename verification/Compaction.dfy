/**
 The event log of one run and its compaction: a pruned prefix is replaced by a snapshot
 of the read model (packages/core/src/event-store/event-store.ts,
 packages/core/src/compaction/history-compactor.ts).
 */
module Compaction {
  import opened WorkflowTypes
  import opened Projections

  datatype Snapshot = Snapshot(lastSequenceNumber: nat, prunedEventCount: nat, projection: Projection)

  /** What is stored of a run's log. */
  datatype History = History(events: seq<StoredEvent>, snapshot: Option<Snapshot>) {
    function Pruned(): nat {
      if snapshot.None? then 0 else snapshot.value.prunedEventCount
    }

    /** Where folding the stored events starts. */
    function Start(): Projection {
      if snapshot.None? then Initial() else snapshot.value.projection
    }

    /** The sequence number the next append has to expect. */
    function CurrentSequence(): nat {
      var logged := if events == [] then 0 else events[|events| - 1].sequenceNumber;
      var folded := if snapshot.None? then 0 else snapshot.value.lastSequenceNumber;
      if logged < folded then folded else logged
    }

    /** The read model rebuilt from the snapshot and what is stored after it. */
    function Rebuilt(): Folded {
      Fold(events, Start())
    }

    /** Prunes all but the last `tail` events into the snapshot; fails where folding them fails. */
    function Compacted(tail: nat): Option<History> {
      var cut := if |events| < tail then 0 else |events| - tail;
      match Fold(events[..cut], Start())
      case Projected(p) => Some(History(events[cut..], Some(Snapshot(p.lastSequenceNumber, Pruned() + cut, p))))
      case _ => None
    }
  }

  /** A log numbered 1, 2, 3, ... */
  predicate Numbered(log: seq<StoredEvent>) {
    forall i :: 0 <= i < |log| ==> log[i].sequenceNumber == i + 1
  }

  /** `h` stores the log `whole`: its snapshot is the fold of what was pruned. */
  ghost predicate Stores(h: History, whole: seq<StoredEvent>) {
    Numbered(whole) && h.Pruned() <= |whole| && h.events == whole[h.Pruned()..] &&
    (h.snapshot.Some? ==>
       h.snapshot.value.lastSequenceNumber == h.Pruned() &&
       Fold(whole[..h.Pruned()], Initial()) == Projected(h.snapshot.value.projection))
  }

  lemma {:induction false} StartIsNumbered(h: History, whole: seq<StoredEvent>)
    requires Stores(h, whole)
    ensures h.Start().lastSequenceNumber == h.Pruned()
    ensures Fold(whole[..h.Pruned()], Initial()) == Projected(h.Start())
  {
    FoldsExactlyWhen(whole[..h.Pruned()], Initial());
  }

  /** Whatever was pruned, the log's length is the next sequence number and folding agrees with the whole log. */
  lemma {:induction false} StoredHistoryMeansTheLog(h: History, whole: seq<StoredEvent>)
    requires Stores(h, whole)
    ensures h.CurrentSequence() == |whole|
    ensures h.Rebuilt() == Fold(whole, Initial())
  {
    StartIsNumbered(h, whole);
    assert whole == whole[..h.Pruned()] + h.events;
    FoldConcat(whole[..h.Pruned()], h.events, Initial());
  }

  /** Folding `cut` more stored events is folding that much more of the log. */
  lemma {:induction false} PrunedFolds(h: History, whole: seq<StoredEvent>, cut: nat)
    requires Stores(h, whole) && cut <= |h.events|
    ensures Fold(whole[..h.Pruned() + cut], Initial()) == Fold(h.events[..cut], h.Start())
    ensures Fold(whole, Initial()).Projected? ==> Fold(h.events[..cut], h.Start()).Projected?
    ensures FollowOn(h.events[..cut], h.Start())
  {
    var front := h.events[..cut];
    StartIsNumbered(h, whole);
    assert whole[..h.Pruned()] + front == whole[..h.Pruned() + cut];
    FoldConcat(whole[..h.Pruned()], front, Initial());
    assert whole == whole[..h.Pruned() + cut] + whole[h.Pruned() + cut..];
    FoldConcat(whole[..h.Pruned() + cut], whole[h.Pruned() + cut..], Initial());
  }

  /** Compaction keeps the log; it fails only where the events to prune hold one after the closing event. */
  lemma {:induction false} CompactionKeepsTheLog(h: History, whole: seq<StoredEvent>, tail: nat)
    requires Stores(h, whole)
    ensures h.Compacted(tail).Some? ==> Stores(h.Compacted(tail).value, whole)
    ensures h.Compacted(tail).Some? ==> h.Compacted(tail).value.Pruned() == if |h.events| < tail then h.Pruned() else |whole| - tail
    ensures Fold(whole, Initial()).Projected? ==> h.Compacted(tail).Some?
    ensures h.Compacted(tail).None? <==>
      !EndsWithItsClosing(h.events[..if |h.events| < tail then 0 else |h.events| - tail], h.Start())
  {
    var cut := if |h.events| < tail then 0 else |h.events| - tail;
    PrunedFolds(h, whole, cut);
    FoldsExactlyWhen(h.events[..cut], h.Start());
    StartIsNumbered(h, whole);
    assert h.events[cut..] == whole[h.Pruned() + cut..];
    hide Fold, FollowOn, EndsWithItsClosing, StateAfter;
  }

  /** Any series of compactions. */
  function CompactedAll(h: History, tails: seq<nat>): Option<History> {
    if tails == [] then Some(h)
    else match CompactedAll(h, tails[..|tails| - 1])
      case None => None
      case Some(next) => next.Compacted(tails[|tails| - 1])
  }

  /**
   For a log that folds, any series of compactions with any tails succeeds, leaves the
   sequence number the next append has to expect and the folded read model as they were,
   and keeps the snapshot at the end of what was pruned.
   */
  lemma {:induction false} CompactionIsInvisible(h: History, whole: seq<StoredEvent>, tails: seq<nat>)
    requires Stores(h, whole) && Fold(whole, Initial()).Projected?
    ensures CompactedAll(h, tails).Some?
    ensures var after := CompactedAll(h, tails).value;
            Stores(after, whole) &&
            after.CurrentSequence() == h.CurrentSequence() && after.Rebuilt() == h.Rebuilt() &&
            (after.snapshot.Some? ==> after.snapshot.value.prunedEventCount == after.snapshot.value.lastSequenceNumber)
  {
    if tails != [] {
      var last := |tails| - 1;
      CompactionIsInvisible(h, whole, tails[..last]);
      CompactionKeepsTheLog(CompactedAll(h, tails[..last]).value, whole, tails[last]);
    }
    StoredHistoryMeansTheLog(h, whole);
    StoredHistoryMeansTheLog(CompactedAll(h, tails).value, whole);
  }

  /** Compacting again with the same tail changes nothing. */
  lemma {:induction false} CompactionIsIdempotent(h: History, whole: seq<StoredEvent>, tail: nat)
    requires Stores(h, whole) && h.Compacted(tail).Some?
    ensures h.Compacted(tail).value.Compacted(tail) == h.Compacted(tail)
  {
    var once := h.Compacted(tail).value;
    assert |once.events| <= tail;
    assert once.events[..0] == [] && once.events[0..] == once.events;
  }

  datatype AppendResult = Appended(stored: seq<StoredEvent>) | Conflict(actual: nat)

  /** A run's stored log and the status on its row. */
  class RunHistory {
    var status: RunState
    var events: seq<StoredEvent>
    var snapshot: Option<Snapshot>
    ghost var whole: seq<StoredEvent>

    ghost function Contents(): History
      reads this
    {
      History(events, snapshot)
    }

    ghost predicate Valid()
      reads this
    {
      Stores(Contents(), whole)
    }

    constructor ()
      ensures Valid() && whole == [] && status == Running
    {
      status, events, snapshot, whole := Running, [], None, [];
    }

    method ReadCurrentSequence() returns (current: nat)
      requires Valid()
      ensures current == |whole|
    {
      StoredHistoryMeansTheLog(Contents(), whole);
      current := if events == [] then 0 else events[|events| - 1].sequenceNumber;
      if snapshot.Some? && current < snapshot.value.lastSequenceNumber {
        current := snapshot.value.lastSequenceNumber;
      }
    }

    /** Appends at the sequence number the caller expects, or nothing at all. */
    method Append(expectedSeq: nat, more: seq<Event>, now: int) returns (result: AppendResult)
      requires Valid()
      modifies this`events, this`whole
      ensures Valid()
      ensures result.Conflict? <==> expectedSeq != |old(whole)|
      ensures result.Conflict? ==> result.actual == |old(whole)| && whole == old(whole)
      ensures result.Appended? ==>
        whole == old(whole) + result.stored && |result.stored| == |more| &&
        forall i :: 0 <= i < |more| ==> result.stored[i] == StoredEvent(expectedSeq + i + 1, more[i], now)
    {
      var current := ReadCurrentSequence();
      if current != expectedSeq {
        return Conflict(current);
      }
      var stored := seq(|more|, i requires 0 <= i < |more| => StoredEvent(expectedSeq + i + 1, more[i], now));
      events := events + stored;
      whole := whole + stored;
      assert snapshot.Some? ==> whole[..Contents().Pruned()] == old(whole)[..Contents().Pruned()];
      result := Appended(stored);
    }

    /** The logical log after `fromSeq`, as far as it was not pruned. */
    method ReadAfter(fromSeq: nat) returns (read: seq<StoredEvent>)
      requires Valid()
      ensures read == whole[if fromSeq < Contents().Pruned() then Contents().Pruned()
                            else if |whole| < fromSeq then |whole| else fromSeq..]
    {
      read := [];
      var pruned := if snapshot.None? then 0 else snapshot.value.prunedEventCount;
      var start := if fromSeq < pruned then 0 else if |events| < fromSeq - pruned then |events| else fromSeq - pruned;
      for i := 0 to |events|
        invariant read == if i <= start then [] else events[start..i]
      {
        if events[i].sequenceNumber > fromSeq {
          read := read + [events[i]];
        }
      }
    }

    /** Prunes a closed run's log down to its last `tail` events; nothing changes when folding fails. */
    method CompactRun(tail: nat) returns (pruned: Option<nat>, failed: bool)
      requires Valid()
      modifies this`events, this`snapshot
      ensures Valid()
      ensures status == Running ==> pruned.None? && !failed && Contents() == old(Contents())
      ensures failed <==> status != Running && old(Contents()).Compacted(tail).None?
      ensures failed ==> pruned.None? && Contents() == old(Contents())
      ensures status != Running && !failed ==>
        Some(Contents()) == old(Contents()).Compacted(tail) &&
        pruned == Some(|old(events)| - |events|)
    {
      if status == Running {
        return None, false;
      }
      CompactionKeepsTheLog(Contents(), whole, tail);
      var start := if snapshot.None? then Initial() else snapshot.value.projection;
      var count := if snapshot.None? then 0 else snapshot.value.prunedEventCount;
      var cut := if |events| < tail then 0 else |events| - tail;
      var folded := Fold(events[..cut], start);
      if !folded.Projected? {
        return None, true;
      }
      var p := folded.projection;
      snapshot := Some(Snapshot(p.lastSequenceNumber, count + cut, p));
      events := events[cut..];
      return Some(cut), false;
    }
  }
}
