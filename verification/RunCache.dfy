/**
 The per-worker cache of live sessions (packages/core/src/sticky/run-cache.ts): least
 recently used first, with entries dropped after they were idle too long.
 */
module RunCaches {
  import opened WorkflowTypes

  datatype Entry<V> = Entry(runId: nat, value: V, lastUsedAt: int)

  /** Where a run is cached. */
  function Position<V>(entries: seq<Entry<V>>, runId: nat): (at: Option<nat>)
    ensures at.Some? ==> at.value < |entries| && entries[at.value].runId == runId
    ensures at.None? ==> forall i :: 0 <= i < |entries| ==> entries[i].runId != runId
  {
    if entries == [] then None
    else if entries[0].runId == runId then Some(0)
    else match Position(entries[1..], runId) case None => None case Some(i) => Some(i + 1)
  }

  /** Each run is cached once. */
  predicate Distinct<V>(entries: seq<Entry<V>>) {
    forall i, j :: 0 <= i < j < |entries| ==> entries[i].runId != entries[j].runId
  }

  /** The entries without the one of `runId`. */
  function Without<V>(entries: seq<Entry<V>>, runId: nat): (rest: seq<Entry<V>>)
    requires Distinct(entries)
    ensures Distinct(rest)
    ensures forall i :: 0 <= i < |rest| ==> rest[i] in entries && rest[i].runId != runId
    ensures forall i :: 0 <= i < |entries| && entries[i].runId != runId ==> entries[i] in rest
    ensures |rest| == if Position(entries, runId).Some? then |entries| - 1 else |entries|
  {
    match Position(entries, runId)
    case None => entries
    case Some(i) => entries[..i] + entries[i + 1..]
  }

  /** The entries left when the oldest give way to the limit. */
  function Trim<V>(entries: seq<Entry<V>>, maxRuns: nat): seq<Entry<V>> {
    if |entries| <= maxRuns then entries else entries[|entries| - maxRuns..]
  }

  /** Entries stand in the order of their last use. */
  predicate ByLastUse<V>(entries: seq<Entry<V>>) {
    forall i, j :: 0 <= i <= j < |entries| ==> entries[i].lastUsedAt <= entries[j].lastUsedAt
  }

  lemma {:induction false} WithoutKeepsOrder<V>(entries: seq<Entry<V>>, runId: nat)
    requires Distinct(entries) && ByLastUse(entries)
    ensures ByLastUse(Without(entries, runId))
  {
  }

  /**
   With a clock that does not step back, what a full cache gives up for a new entry is
   the entry used least recently, and it gives up nothing else.
   */
  lemma {:induction false} EvictsLeastRecentlyUsed<V>(entries: seq<Entry<V>>, runId: nat, value: V, now: int, maxRuns: nat)
    requires 0 < maxRuns && Distinct(entries) && |entries| <= maxRuns && ByLastUse(entries)
    requires forall i :: 0 <= i < |entries| ==> entries[i].lastUsedAt <= now
    ensures var rest := Without(entries, runId);
            var after := Trim(rest + [Entry(runId, value, now)], maxRuns);
            Distinct(after) && ByLastUse(after) && |after| <= maxRuns && after[|after| - 1] == Entry(runId, value, now) &&
            (if |rest| < maxRuns then after == rest + [Entry(runId, value, now)]
             else rest != [] && after == rest[1..] + [Entry(runId, value, now)] &&
                  forall i :: 0 <= i < |after| ==> rest[0].lastUsedAt <= after[i].lastUsedAt)
  {
    var rest := Without(entries, runId);
    var all := rest + [Entry(runId, value, now)];
    WithoutKeepsOrder(entries, runId);
    hide Without, Position;
    assert forall i :: 0 <= i < |rest| ==> rest[i].lastUsedAt <= now;
    assert Distinct(all) && ByLastUse(all);
    if |rest| == maxRuns {
      assert all[1..] == rest[1..] + [Entry(runId, value, now)];
    }
  }

  class RunCache<V(==)> {
    const maxRuns: nat
    const stickyTimeoutMs: nat
    var entries: seq<Entry<V>>
    var hits: nat
    var misses: nat
    var evictions: nat
    var expirations: nat

    predicate Valid()
      reads this
    {
      0 < maxRuns && Distinct(entries) && |entries| <= maxRuns
    }

    constructor (maxRuns: nat, stickyTimeoutMs: nat)
      requires 0 < maxRuns && 0 < stickyTimeoutMs
      ensures Valid() && entries == [] && this.maxRuns == maxRuns && this.stickyTimeoutMs == stickyTimeoutMs
    {
      this.maxRuns, this.stickyTimeoutMs := maxRuns, stickyTimeoutMs;
      entries, hits, misses, evictions, expirations := [], 0, 0, 0, 0;
    }

    /** The cached value, which becomes the most recently used; an entry idle too long is dropped instead. */
    method Get(runId: nat, now: int) returns (value: Option<V>)
      requires Valid()
      modifies this
      ensures Valid() && evictions == old(evictions)
      ensures hits + misses == old(hits + misses) + 1 && (value.Some? <==> hits == old(hits) + 1)
      ensures match Position(old(entries), runId)
        case None => value.None? && entries == old(entries) && expirations == old(expirations)
        case Some(i) =>
          if now - old(entries)[i].lastUsedAt > stickyTimeoutMs then
            value.None? && entries == Without(old(entries), runId) && expirations == old(expirations) + 1
          else
            value == Some(old(entries)[i].value) && expirations == old(expirations) &&
            entries == Without(old(entries), runId) + [Entry(runId, old(entries)[i].value, now)]
    {
      var at := Position(entries, runId);
      if at.None? {
        misses := misses + 1;
        return None;
      }
      var entry := entries[at.value];
      entries := Without(entries, runId);
      if now - entry.lastUsedAt > stickyTimeoutMs {
        expirations := expirations + 1;
        misses := misses + 1;
        return None;
      }
      entries := entries + [entry.(lastUsedAt := now)];
      hits := hits + 1;
      value := Some(entry.value);
    }

    /** Caches a value as the most recently used, giving up the oldest entries past the limit. */
    method Set(runId: nat, value: V, now: int)
      requires Valid()
      modifies this
      ensures Valid() && hits == old(hits) && misses == old(misses) && expirations == old(expirations)
      ensures entries == Trim(Without(old(entries), runId) + [Entry(runId, value, now)], maxRuns)
      ensures evictions == old(evictions) + |Without(old(entries), runId)| + 1 - |entries|
    {
      entries := Without(entries, runId) + [Entry(runId, value, now)];
      ghost var all := entries;
      while |entries| > maxRuns
        invariant |all| >= |entries| && entries == all[|all| - |entries|..] && 0 < |entries|
        invariant |entries| >= maxRuns || entries == all
        invariant evictions == old(evictions) + |all| - |entries|
        invariant hits == old(hits) && misses == old(misses) && expirations == old(expirations)
      {
        entries := entries[1..];
        evictions := evictions + 1;
      }
    }

    method Delete(runId: nat) returns (deleted: bool)
      requires Valid()
      modifies this`entries
      ensures Valid() && entries == Without(old(entries), runId)
      ensures deleted <==> Position(old(entries), runId).Some?
    {
      deleted := Position(entries, runId).Some?;
      entries := Without(entries, runId);
    }

    method Clear()
      requires Valid()
      modifies this`entries
      ensures Valid() && entries == []
    {
      entries := [];
    }
  }
}
