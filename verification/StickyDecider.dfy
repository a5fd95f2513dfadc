/**
 Deciding with a cache of live sessions (packages/core/src/sticky/sticky-decider.ts):
 advance the cached session, or start one, or replay from the top. Whichever it is, the
 decision is the one a replay of the whole history gives.
 */
module StickyDeciders {
  import opened WorkflowTypes
  import opened Replay
  import opened LiveReplay
  import opened CacheAgreement
  import opened LiveSessions
  import opened RunCaches
  import opened DecisionLoop

  datatype Source = FromCache | FromReplay

  predicate IsOpen(verdict: Verdict) {
    verdict.Decided? && verdict.decision.Suspended?
  }

  predicate Threw(verdict: Verdict) {
    verdict.ThrewMismatch? || verdict.ThrewVersionMismatch?
  }

  ghost function Sessions(entries: seq<Entry<LiveSession>>): set<object> {
    set i | 0 <= i < |entries| :: entries[i].value
  }

  ghost function Matchers(entries: seq<Entry<LiveSession>>): set<object> {
    set i | 0 <= i < |entries| :: entries[i].value.matcher
  }

  /** No two cached runs share anything. */
  ghost predicate Apart(entries: seq<Entry<LiveSession>>) {
    forall i, j :: 0 <= i < |entries| && 0 <= j < |entries| && entries[i].runId != entries[j].runId ==>
      entries[i].value != entries[j].value && entries[i].value.matcher != entries[j].value.matcher
  }

  /** Every cached session is usable, and stands where the last decision known to be its own left it. */
  ghost predicate Sound(entries: seq<Entry<LiveSession>>, lasts: map<nat, Decider>)
    reads Sessions(entries), Matchers(entries)
  {
    forall i :: 0 <= i < |entries| ==>
      entries[i].value.Valid() && (entries[i].runId in lasts ==> IsLast(entries[i].value, lasts[entries[i].runId]))
  }

  ghost predicate IsLast(session: LiveSession, last: Decider)
    reads session
  {
    StandsAt(session.Contents(), last) && last == session.workflow.On(last.history, last.moment)
  }

  lemma {:induction false} SoundWithOneMore(rest: seq<Entry<LiveSession>>, entry: Entry<LiveSession>,
                                            before: map<nat, Decider>, after: map<nat, Decider>)
    requires Sound(rest, before) && entry.value.Valid()
    requires forall i :: 0 <= i < |rest| ==> rest[i].runId != entry.runId
    requires entry.runId in after ==> IsLast(entry.value, after[entry.runId])
    requires forall r :: r != entry.runId && r in after ==> r in before && before[r] == after[r]
    ensures Sound(rest + [entry], after)
  {
    hide LiveSession.Valid, IsLast;
  }

  lemma {:induction false} ApartWithOneMore(entries: seq<Entry<LiveSession>>, rest: seq<Entry<LiveSession>>,
                                            entry: Entry<LiveSession>)
    requires Apart(entries)
    requires forall i :: 0 <= i < |rest| ==> rest[i] in entries && rest[i].runId != entry.runId
    requires forall i :: 0 <= i < |entries| && entries[i].runId != entry.runId ==>
      entries[i].value != entry.value && entries[i].value.matcher != entry.value.matcher
    ensures Apart(rest + [entry])
  {
  }

  lemma {:induction false} TrimKeeps(entries: seq<Entry<LiveSession>>, maxRuns: nat, lasts: map<nat, Decider>)
    requires Apart(entries) && Sound(entries, lasts)
    ensures Apart(Trim(entries, maxRuns)) && Sound(Trim(entries, maxRuns), lasts)
    ensures forall i :: 0 <= i < |Trim(entries, maxRuns)| ==> Trim(entries, maxRuns)[i] in entries
  {
    hide LiveSession.Valid, IsLast;
  }

  lemma {:induction false} WithoutKeeps(entries: seq<Entry<LiveSession>>, lasts: map<nat, Decider>, runId: nat)
    requires Distinct(entries) && Apart(entries) && Sound(entries, lasts)
    ensures Apart(Without(entries, runId)) && Sound(Without(entries, runId), lasts)
    ensures forall i, j :: 0 <= i < |entries| && entries[i].runId == runId && 0 <= j < |Without(entries, runId)| ==>
      Without(entries, runId)[j].value != entries[i].value &&
      Without(entries, runId)[j].value.matcher != entries[i].value.matcher
  {
    hide LiveSession.Valid, IsLast, Without;
  }

  lemma {:induction false} WithoutNothing(entries: seq<Entry<LiveSession>>, runId: nat)
    requires Distinct(entries) && Position(entries, runId).None?
    ensures Without(entries, runId) == entries
    ensures forall i :: 0 <= i < |entries| ==> entries[i].runId != runId
  {
  }

  lemma {:induction false} RestLacks(entries: seq<Entry<LiveSession>>, runId: nat)
    requires Distinct(entries)
    ensures Position(Without(entries, runId), runId).None?
  {
    hide Without;
  }

  lemma {:induction false} WithoutLast(rest: seq<Entry<LiveSession>>, entry: Entry<LiveSession>)
    requires Distinct(rest + [entry])
    ensures Without(rest + [entry], entry.runId) == rest
  {
    var all := rest + [entry];
    var at := Position(all, entry.runId);
    assert all[|rest|].runId == entry.runId;
    assert at == Some(|rest|);
    assert all[..|rest|] + all[|rest| + 1..] == rest;
  }

  /** A session that shares nothing with the other cached runs is not among them. */
  lemma {:induction false} RestIsApart(entries: seq<Entry<LiveSession>>, runId: nat, session: LiveSession)
    requires Distinct(entries) && Apart(entries)
    requires forall i :: 0 <= i < |entries| && entries[i].runId != runId ==>
      entries[i].value != session && entries[i].value.matcher != session.matcher
    ensures var rest := Without(entries, runId);
            Apart(rest) && session !in Sessions(rest) && session.matcher !in Matchers(rest) &&
            session !in Matchers(rest) && session.matcher !in Sessions(rest)
  {
    hide Without;
  }

  lemma {:induction false} SharesNoMore(entries: seq<Entry<LiveSession>>, kept: seq<Entry<LiveSession>>, session: LiveSession)
    requires forall i :: 0 <= i < |kept| ==> kept[i].value == session || kept[i] in entries
    ensures Sessions(kept) <= Sessions(entries) + {session}
    ensures Matchers(kept) <= Matchers(entries) + {session.matcher}
  {
  }

  lemma {:induction false} SharesLess(entries: seq<Entry<LiveSession>>, kept: seq<Entry<LiveSession>>)
    requires forall i :: 0 <= i < |kept| ==> kept[i] in entries
    ensures Sessions(kept) <= Sessions(entries) && Matchers(kept) <= Matchers(entries)
  {
  }

  /** What taking a session out of the cache leaves true of it and of the others. */
  lemma {:induction false} TakenHolds(entries: seq<Entry<LiveSession>>, lasts: map<nat, Decider>, runId: nat, now: int)
    requires Distinct(entries) && Apart(entries) && Sound(entries, lasts) && Position(entries, runId).Some?
    ensures var session := entries[Position(entries, runId).value].value;
            var taken := Without(entries, runId) + [Entry(runId, session, now)];
            session.Valid() && (runId in lasts ==> IsLast(session, lasts[runId])) &&
            Apart(taken) && Sound(taken, lasts) && Without(taken, runId) == Without(entries, runId) &&
            Sound(Without(entries, runId), lasts) &&
            Sessions(taken) <= Sessions(entries) && Matchers(taken) <= Matchers(entries) &&
            session in Sessions(entries) && session.matcher in Matchers(entries) &&
            (forall i :: 0 <= i < |taken| && taken[i].runId != runId ==>
               taken[i].value != session && taken[i].value.matcher != session.matcher)
  {
    var session := entries[Position(entries, runId).value].value;
    var rest, entry := Without(entries, runId), Entry(runId, session, now);
    WithoutKeeps(entries, lasts, runId);
    SoundWithOneMore(rest, entry, lasts, lasts);
    ApartWithOneMore(entries, rest, entry);
    assert Distinct(rest + [entry]);
    WithoutLast(rest, entry);
    assert session in Sessions(entries) && session.matcher in Matchers(entries);
    SharesNoMore(entries, rest + [entry], session);
  }

  /** The same when the run is not cached, or its session is dropped. */
  lemma {:induction false} GoneHolds(entries: seq<Entry<LiveSession>>, lasts: map<nat, Decider>, runId: nat)
    requires Distinct(entries) && Apart(entries) && Sound(entries, lasts)
    ensures var rest := Without(entries, runId);
            Apart(rest) && Sound(rest, lasts) && Position(rest, runId).None? &&
            Sessions(rest) <= Sessions(entries) && Matchers(rest) <= Matchers(entries) &&
            (Position(entries, runId).None? ==> rest == entries)
  {
    WithoutKeeps(entries, lasts, runId);
    RestLacks(entries, runId);
    SharesLess(entries, Without(entries, runId));
    if Position(entries, runId).None? {
      WithoutNothing(entries, runId);
    }
  }

  class StickyDecider {
    const cache: RunCache<LiveSession>
    var uncacheable: set<nat>
    var cacheHits: nat
    var cacheMisses: nat
    var fullReplays: nat
    var replayedEvents: nat
    var invalidations: nat
    ghost var lasts: map<nat, Decider>

    ghost predicate Valid()
      reads this, cache, Sessions(cache.entries), Matchers(cache.entries)
    {
      cache.Valid() && Apart(cache.entries) && Sound(cache.entries, lasts)
    }

    constructor (cache: RunCache<LiveSession>)
      requires cache.Valid() && cache.entries == []
      ensures Valid() && this.cache == cache && lasts == map[]
    {
      this.cache, uncacheable, lasts := cache, {}, map[];
      cacheHits, cacheMisses, fullReplays, replayedEvents, invalidations := 0, 0, 0, 0, 0;
    }

    /** If the run is cached, its session stands where this decision was made. */
    ghost predicate LastIs(runId: nat, next: Decider)
      reads `lasts, cache
    {
      Position(cache.entries, runId).Some? ==> runId in lasts && lasts[runId] == next
    }

    /** A decision may be asked of the cache: what is cached for the run is continued by the history. */
    ghost predicate MayAsk(runId: nat, next: Decider)
      reads this, cache
    {
      IsFair(next) &&
      forall i :: 0 <= i < |cache.entries| && cache.entries[i].runId == runId ==>
        Continued(runId, cache.entries[i].value, next)
    }

    /** Keeps a session as the most recently used one of its run. */
    method Keep(runId: nat, session: LiveSession, now: int, ghost last: Option<Decider>)
      requires cache.Valid() && session.Valid()
      requires Apart(cache.entries) && Sound(Without(cache.entries, runId), lasts)
      requires forall i :: 0 <= i < |cache.entries| && cache.entries[i].runId != runId ==>
        cache.entries[i].value != session && cache.entries[i].value.matcher != session.matcher
      requires last.Some? ==> IsLast(session, last.value)
      modifies cache, this`lasts
      ensures Valid()
      ensures Sessions(cache.entries) <= old(Sessions(cache.entries)) + {session}
      ensures Matchers(cache.entries) <= old(Matchers(cache.entries)) + {session.matcher}
      ensures last.Some? ==> runId in lasts && lasts[runId] == last.value
    {
      hide LiveSession.Valid, IsLast, Without, Trim, Sound, Position, Apart;
      ghost var rest := Without(cache.entries, runId);
      ghost var entry := Entry(runId, session, now);
      ghost var known := if last.Some? then lasts[runId := last.value] else lasts - {runId};
      SoundWithOneMore(rest, entry, lasts, known);
      ApartWithOneMore(cache.entries, rest, entry);
      TrimKeeps(rest + [entry], cache.maxRuns, known);
      ghost var kept := Trim(rest + [entry], cache.maxRuns);
      SharesNoMore(cache.entries, kept, session);
      assert this !in Sessions(kept) && this !in Matchers(kept) && cache !in Sessions(kept) && cache !in Matchers(kept);
      hide Sessions, Matchers;
      lasts := known;
      cache.Set(runId, session, now);
      assert cache.entries == kept && Sound(kept, known);
    }

    /** Runs the workflow from the top in a session of its own, which is kept if the run stays open. */
    method AdvanceNew(runId: nat, workflow: Workflow, history: seq<Event>, moment: Moment, now: int) returns (advanced: LiveAdvance)
      requires Valid() && Position(cache.entries, runId).None?
      modifies cache, this`lasts
      ensures Valid()
      ensures fresh(Sessions(cache.entries) - old(Sessions(cache.entries)))
      ensures fresh(Matchers(cache.entries) - old(Matchers(cache.entries)))
      ensures advanced == CacheAgreement.Advance(workflow, NewSession(workflow), history, moment).1
      ensures !advanced.Advanced? ==> cache.entries == old(cache.entries)
      ensures var next := workflow.On(history, moment);
              IsFair(next) && advanced.Advanced? ==> IsRight(next, advanced.verdict) && LastIs(runId, next)
    {
      hide LiveSession.Valid, LiveSession.Contents, Trim, Sound, Position, Apart, IsFair, Strays, StandsAt,
           Decider.Run, CacheAgreement.Advance, NewSession, Without;
      ghost var next, entries := workflow.On(history, moment), cache.entries;
      WithoutNothing(entries, runId);
      assert this !in Sessions(entries) && this !in Matchers(entries);
      assert cache !in Sessions(entries) && cache !in Matchers(entries);
      var session := new LiveSession(workflow);
      assert session !in Sessions(entries) && session !in Matchers(entries);
      assert session.matcher !in Sessions(entries) && session.matcher !in Matchers(entries);
      hide Sessions, Matchers;
      advanced := session.Advance(history, moment);
      assert Sound(entries, lasts);
      if IsFair(next) {
        NewSessionAgrees(workflow, history, moment);
      }
      if advanced.Advanced? && IsOpen(advanced.verdict) {
        Keep(runId, session, now, if IsFair(next) then Some(next) else None);
      }
    }

    /** Runs the workflow from the top: in a session worth keeping when that works, else as a plain replay. */
    method ReplayFromScratch(runId: nat, handlerId: nat, workflow: Workflow, history: seq<Event>, moment: Moment, now: int)
      returns (verdict: Verdict)
      requires Valid() && Position(cache.entries, runId).None?
      modifies this, cache
      ensures Valid()
      ensures fresh(Sessions(cache.entries) - old(Sessions(cache.entries)))
      ensures fresh(Matchers(cache.entries) - old(Matchers(cache.entries)))
      ensures var next := workflow.On(history, moment);
              IsFair(next) ==> IsRight(next, verdict) && LastIs(runId, next)
      ensures handlerId in old(uncacheable) ==> uncacheable == old(uncacheable) && verdict == workflow.On(history, moment).Decide()
      ensures handlerId !in old(uncacheable) ==>
        var tried := CacheAgreement.Advance(workflow, NewSession(workflow), history, moment).1;
        if tried.Advanced? then uncacheable == old(uncacheable) && verdict == tried.verdict
        else uncacheable == old(uncacheable) + {handlerId} && verdict == workflow.On(history, moment).Decide()
    {
      hide *;
      ghost var sessions, matchers := Sessions(cache.entries), Matchers(cache.entries);
      if handlerId !in uncacheable {
        var advanced := AdvanceNew(runId, workflow, history, moment, now);
        CountReplay(|history|);
        if advanced.Advanced? {
          return advanced.verdict;
        }
        Remember(handlerId);
      }
      CountReplay(|history|);
      verdict := ReplayOnly(workflow.On(history, moment));
      ReplayIsRight(workflow.On(history, moment), verdict);
      NoneLasts(runId, workflow.On(history, moment));
      assert Sessions(cache.entries) == sessions;
      assert Matchers(cache.entries) == matchers;
    }

    /** A replay, which leaves the cache alone. */
    method ReplayOnly(next: Decider) returns (verdict: Verdict)
      requires Valid()
      ensures Valid() && verdict == next.Decide()
    {
      ghost var entries := cache.entries;
      hide Sound, Sessions, Matchers, Apart, LiveSession.Valid, Decider.Decide;
      assert Sound(entries, lasts);
      verdict := RunDecisionLoop(next);
      assert cache.entries == entries && Sound(entries, lasts);
    }

    method CountReplay(events: nat)
      requires Valid()
      modifies this`fullReplays, this`replayedEvents
      ensures Valid() && fullReplays == old(fullReplays) + 1 && replayedEvents == old(replayedEvents) + events
    {
      fullReplays := fullReplays + 1;
      replayedEvents := replayedEvents + events;
    }

    method Remember(handlerId: nat)
      requires Valid()
      modifies this`uncacheable
      ensures Valid() && uncacheable == old(uncacheable) + {handlerId}
    {
      uncacheable := uncacheable + {handlerId};
    }

    lemma NoneLasts(runId: nat, next: Decider)
      requires Position(cache.entries, runId).None?
      ensures LastIs(runId, next)
    {
    }

    lemma ReplayIsRight(next: Decider, verdict: Verdict)
      requires verdict == next.Decide()
      ensures IsRight(next, verdict)
    {
      hide Decider.Run, Decider.Decide;
    }

    /** `session` is cached for the run, and nothing else in the cache shares anything with it. */
    ghost predicate Holds(runId: nat, session: LiveSession)
      reads this, cache, session, session.matcher, Sessions(cache.entries), Matchers(cache.entries)
    {
      cache.Valid() && Apart(cache.entries) && session.Valid() &&
      (forall i :: 0 <= i < |cache.entries| && cache.entries[i].runId != runId ==>
         cache.entries[i].value != session && cache.entries[i].value.matcher != session.matcher) &&
      Sound(Without(cache.entries, runId), lasts) && (runId in lasts ==> IsLast(session, lasts[runId]))
    }

    /** Takes the run's session out for use, as the most recently used one. */
    method TakeCached(runId: nat, now: int) returns (cached: Option<LiveSession>)
      requires Valid()
      modifies cache
      ensures Valid()
      ensures Sessions(cache.entries) <= old(Sessions(cache.entries))
      ensures Matchers(cache.entries) <= old(Matchers(cache.entries))
      ensures cached.Some? ==>
        cached.value in old(Sessions(cache.entries)) && cached.value.matcher in old(Matchers(cache.entries))
      ensures cached.None? ==> Position(cache.entries, runId).None?
      ensures cached.Some? ==> Position(old(cache.entries), runId).Some? && Holds(runId, cached.value) &&
                               cached.value == old(cache.entries)[Position(old(cache.entries), runId).value].value
    {
      ghost var entries := cache.entries;
      assert cache !in Sessions(entries) && cache !in Matchers(entries);
      hide LiveSession.Valid, IsLast, Sound, Sessions, Matchers, Apart, Without;
      cached := cache.Get(runId, now);
      assert Sound(entries, lasts);
      if cached.None? {
        GoneHolds(entries, lasts, runId);
      } else {
        TakenHolds(entries, lasts, runId, now);
      }
    }

    /** Forgets the session of a run. */
    method Forget(runId: nat)
      requires cache.Valid() && Apart(cache.entries) && Sound(Without(cache.entries, runId), lasts)
      modifies cache
      ensures Valid() && Position(cache.entries, runId).None? && cache.entries == old(Without(cache.entries, runId))
      ensures Sessions(cache.entries) <= old(Sessions(cache.entries))
      ensures Matchers(cache.entries) <= old(Matchers(cache.entries))
    {
      ghost var entries, rest := cache.entries, Without(cache.entries, runId);
      assert cache !in Sessions(rest) && cache !in Matchers(rest);
      assert Apart(rest);
      SharesLess(entries, rest);
      RestLacks(entries, runId);
      hide LiveSession.Valid, IsLast, Sound, Sessions, Matchers, Apart, Without, Position;
      var _ := cache.Delete(runId);
      assert cache.entries == rest;
    }

    /** Feeds the session taken out; it goes back if the run stays open, and is forgotten if not. */
    method UseCached(runId: nat, session: LiveSession, workflow: Workflow, history: seq<Event>, moment: Moment, now: int,
                     ghost sure: bool)
      returns (advanced: LiveAdvance)
      requires Holds(runId, session) && (sure ==> Continued(runId, session, workflow.On(history, moment)))
      modifies cache, this`lasts, session, session.matcher
      ensures Valid()
      ensures Sessions(cache.entries) <= old(Sessions(cache.entries)) + {session}
      ensures Matchers(cache.entries) <= old(Matchers(cache.entries)) + {session.matcher}
      ensures !advanced.Advanced? ==> Position(cache.entries, runId).None?
      ensures sure && advanced.Advanced? ==>
        IsRight(workflow.On(history, moment), advanced.verdict) && LastIs(runId, workflow.On(history, moment))
    {
      hide LiveSession.Valid, IsLast, IsFair, Follows, IsRight, Position;
      ghost var next, rest := workflow.On(history, moment), Without(cache.entries, runId);
      ghost var last := if runId in lasts then Some(lasts[runId]) else None;
      assert sure ==> last.Some? && IsFair(next) && Follows(last.value, next) && session.workflow == workflow;
      RestIsApart(cache.entries, runId, session);
      hide LiveSession.Valid, IsLast, Sound, Sessions, Matchers, Apart, Without, IsFair, Follows, IsRight, Position,
           StickyDecider.Continued, StickyDecider.Valid;
      advanced := AdvanceCached(session, workflow, history, moment, last);
      assert Sound(rest, lasts);
      if advanced.Advanced? && IsOpen(advanced.verdict) {
        Keep(runId, session, now, if sure then Some(next) else None);
      } else {
        Forget(runId);
      }
    }

    /** The history continues what the cached session of this workflow last decided on. */
    ghost predicate Continued(runId: nat, session: LiveSession, next: Decider)
      reads this
    {
      runId in lasts && IsFair(next) && Follows(lasts[runId], next) &&
      session.workflow == Workflow(next.handler, next.input, next.settings)
    }

    lemma CachedIsContinued(runId: nat, next: Decider)
      ensures MayAsk(runId, next) ==>
        forall i :: Position(cache.entries, runId) == Some(i) ==> Continued(runId, cache.entries[i].value, next)
    {
      hide Continued, IsFair;
    }

    /** Asks the cached session of the run, if there is one and it can tell. */
    method AskCache(runId: nat, workflow: Workflow, history: seq<Event>, moment: Moment, now: int)
      returns (verdict: Option<Verdict>)
      requires Valid()
      modifies this, cache, Sessions(cache.entries), Matchers(cache.entries)
      ensures Valid()
      ensures Sessions(cache.entries) <= old(Sessions(cache.entries))
      ensures Matchers(cache.entries) <= old(Matchers(cache.entries))
      ensures verdict.None? ==> Position(cache.entries, runId).None?
      ensures old(MayAsk(runId, workflow.On(history, moment))) && verdict.Some? ==>
        IsRight(workflow.On(history, moment), verdict.value) && LastIs(runId, workflow.On(history, moment))
    {
      ghost var next := workflow.On(history, moment);
      ghost var fair := MayAsk(runId, next);
      hide *;
      CachedIsContinued(runId, next);
      var cached := TakeCached(runId, now);
      if cached.None? {
        Note(false, false);
        return None;
      }
      var advanced := UseCached(runId, cached.value, workflow, history, moment, now, fair);
      Note(advanced.Advanced?, !advanced.Advanced?);
      verdict := if advanced.Advanced? then Some(advanced.verdict) else None;
    }

    /** A decision of this run: what is cached for it is advanced, or the workflow runs from the top. */
    method Decide(runId: nat, handlerId: nat, workflow: Workflow, history: seq<Event>, moment: Moment, now: int)
      returns (verdict: Verdict, source: Source)
      requires Valid()
      modifies this, cache, Sessions(cache.entries), Matchers(cache.entries)
      ensures Valid()
      ensures fresh(Sessions(cache.entries) - old(Sessions(cache.entries)))
      ensures fresh(Matchers(cache.entries) - old(Matchers(cache.entries)))
      ensures old(MayAsk(runId, workflow.On(history, moment))) ==>
        IsRight(workflow.On(history, moment), verdict) && LastIs(runId, workflow.On(history, moment))
      ensures source.FromReplay? && IsFair(workflow.On(history, moment)) ==>
        IsRight(workflow.On(history, moment), verdict) && LastIs(runId, workflow.On(history, moment))
    {
      assert MayAsk(runId, workflow.On(history, moment)) ==> IsFair(workflow.On(history, moment));
      hide *;
      var asked := AskCache(runId, workflow, history, moment, now);
      if asked.Some? {
        return asked.value, FromCache;
      }
      verdict := ReplayFromScratch(runId, handlerId, workflow, history, moment, now);
      source := FromReplay;
    }

    /** Drops the session of a run: its last decision was not recorded, or the run is closed. */
    method Invalidate(runId: nat)
      requires Valid()
      modifies this, cache
      ensures Valid() && Position(cache.entries, runId).None?
      ensures Distinct(old(cache.entries)) && cache.entries == Without(old(cache.entries), runId)
      ensures invalidations == old(invalidations) + (if Position(old(cache.entries), runId).Some? then 1 else 0)
    {
      assert this !in Sessions(cache.entries) && this !in Matchers(cache.entries);
      var cached := Position(cache.entries, runId).Some?;
      GoneHolds(cache.entries, lasts, runId);
      Forget(runId);
      if cached {
        Discount();
      }
    }

    method Discount()
      requires Valid()
      modifies this`invalidations
      ensures Valid() && invalidations == old(invalidations) + 1
    {
      assert this !in Sessions(cache.entries) && this !in Matchers(cache.entries);
      hide Sound, Sessions, Matchers, Apart;
      invalidations := invalidations + 1;
    }

    method Flush()
      requires Valid()
      modifies cache
      ensures Valid() && cache.entries == []
    {
      cache.Clear();
    }

    method Note(hit: bool, invalidated: bool)
      requires Valid()
      modifies this`cacheHits, this`cacheMisses, this`invalidations
      ensures Valid()
      ensures cacheHits == old(cacheHits) + (if hit then 1 else 0) && cacheMisses == old(cacheMisses) + (if hit then 0 else 1)
      ensures invalidations == old(invalidations) + (if invalidated then 1 else 0)
    {
      assert this !in Sessions(cache.entries) && this !in Matchers(cache.entries);
      hide Sound, Sessions, Matchers, Apart;
      if hit {
        cacheHits := cacheHits + 1;
      } else {
        cacheMisses := cacheMisses + 1;
      }
      if invalidated {
        invalidations := invalidations + 1;
      }
    }
  }

  method AdvanceCached(session: LiveSession, workflow: Workflow, history: seq<Event>, moment: Moment,
                       ghost last: Option<Decider>)
    returns (advanced: LiveAdvance)
    requires session.Valid() && (last.Some? ==> IsLast(session, last.value))
    modifies session, session.matcher
    ensures session.Valid()
    ensures var next := workflow.On(history, moment);
            last.Some? && IsFair(next) && Follows(last.value, next) && session.workflow == workflow && advanced.Advanced? ==>
              IsRight(next, advanced.verdict) && (IsOpen(advanced.verdict) ==> IsLast(session, next))
  {
    ghost var next := workflow.On(history, moment);
    if last.Some? && IsFair(next) && Follows(last.value, next) && session.workflow == workflow {
      KeptSessionAgrees(workflow, session.Contents(), last.value, history, moment);
    }
    hide LiveSession.Valid, LiveSession.Contents, IsFair, Strays, StandsAt, Follows, Decider.Run, CacheAgreement.Advance;
    advanced := session.Advance(history, moment);
  }

  /** What a replay decides, or a hang in a call no session can resume after. */
  ghost predicate IsRight(next: Decider, verdict: Verdict) {
    verdict == next.Decide() || (verdict == Hung && Strays(next.handler, next.Run().trace))
  }
}
