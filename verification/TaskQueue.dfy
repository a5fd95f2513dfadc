/**
 Task leases (packages/core/src/queue/task-queue.ts) and their recovery
 (packages/core/src/recovery/janitor.ts). Each call is one statement of the database, which
 skips the rows other statements have locked; tokens are numbered in the order drawn.
 */
module TaskQueues {
  import opened WorkflowTypes

  datatype State = Pending | Leased | Completed | Quarantined

  datatype Task = Task(
    queue: string,
    run: nat,
    isDecision: bool,
    state: State,
    token: Option<nat>,
    attempts: nat,
    reclaims: nat,
    visibleAt: int,
    createdAt: int)

  /** What the callers of the queue can see happen to a task. */
  datatype Event =
    | Delivered(id: nat, token: nat, until: int)
    | Extended(id: nat, token: nat, until: int)
    | Acked(id: nat, token: nat)
    | Nacked(id: nat, token: nat)
    | GivenUp(id: nat, token: nat)
    | Expired(id: nat, token: nat, at: int)
    | Released(id: nat)

  // ---- what a lawful record of events looks like -------------------------------------------

  /** Where a task stands: waiting, held by one delivery until a time, parked, or done; and how many leases it lost. */
  datatype Standing =
    | Waiting(losses: nat)
    | Held(token: nat, until: int, losses: nat)
    | Parked
    | Done

  /** The one standing a lawful event leads to, or none when the event is against the law. */
  function Judge(s: Standing, e: Event, threshold: nat): Option<Standing> {
    match e
    case Delivered(_, token, until) => if s.Waiting? then Some(Held(token, until, s.losses)) else None
    case Released(_) => if s.Parked? then Some(Waiting(0)) else None
    case Extended(_, token, until) => if s.Held? && s.token == token then Some(s.(until := until)) else None
    case Acked(_, token) => if s.Held? && s.token == token then Some(Done) else None
    case Nacked(_, token) => if s.Held? && s.token == token then Some(Waiting(s.losses)) else None
    case GivenUp(_, token) => if s.Held? && s.token == token then Some(Parked) else None
    case Expired(_, token, at) =>
      if s.Held? && s.token == token && s.until <= at
        then Some(if s.losses + 1 >= threshold then Parked else Waiting(s.losses + 1))
        else None
  }

  /** Where a record of events leaves a task, if all its events were lawful. */
  function StandingAfter(log: seq<Event>, id: nat, threshold: nat): Option<Standing> {
    if log == [] then Some(Waiting(0))
    else
      var before := StandingAfter(log[..|log| - 1], id, threshold);
      if log[|log| - 1].id != id || before.None? then before
      else Judge(before.value, log[|log| - 1], threshold)
  }

  lemma {:induction false} LawfulBefore(log: seq<Event>, id: nat, threshold: nat, n: nat)
    requires StandingAfter(log, id, threshold).Some? && n <= |log|
    ensures StandingAfter(log[..n], id, threshold).Some?
  {
    if n < |log| {
      LawfulBefore(log[..|log| - 1], id, threshold, n);
      assert log[..|log| - 1][..n] == log[..n];
    } else {
      assert log[..n] == log;
    }
  }

  /** One event further along a lawful record. */
  lemma {:induction false} NextStanding(log: seq<Event>, id: nat, threshold: nat, n: nat)
    requires StandingAfter(log, id, threshold).Some? && n < |log|
    ensures StandingAfter(log[..n], id, threshold).Some? && StandingAfter(log[..n + 1], id, threshold).Some?
    ensures var s := StandingAfter(log[..n], id, threshold);
            StandingAfter(log[..n + 1], id, threshold) == if log[n].id == id then Judge(s.value, log[n], threshold) else s
  {
    LawfulBefore(log, id, threshold, n);
    LawfulBefore(log, id, threshold, n + 1);
    assert log[..n + 1][..n] == log[..n];
  }

  /** The delivery ends: by its holder, or because its time ran out. */
  predicate Ends(e: Event, id: nat, token: nat) {
    (e.Nacked? || e.GivenUp? || e.Acked? || e.Expired?) && e.id == id && e.token == token
  }

  /** Up to when a delivery was last promised the task. */
  function PromisedUntil(log: seq<Event>, id: nat, token: nat): Option<int> {
    if log == [] then None
    else
      var e := log[|log| - 1];
      if (e.Delivered? || e.Extended?) && e.id == id && e.token == token then Some(e.until)
      else PromisedUntil(log[..|log| - 1], id, token)
  }

  /** While a task is held, the promise on record is the one that counts. */
  lemma {:induction false} HeldAsPromised(log: seq<Event>, id: nat, threshold: nat)
    requires StandingAfter(log, id, threshold).Some? && StandingAfter(log, id, threshold).value.Held?
    ensures var s := StandingAfter(log, id, threshold).value; PromisedUntil(log, id, s.token) == Some(s.until)
  {
    var earlier := log[..|log| - 1];
    if log[|log| - 1].id != id {
      HeldAsPromised(earlier, id, threshold);
    }
  }

  /** A lease is lost only at or after the time its holder was last promised. */
  lemma {:induction false} NoLeaseIsLostEarly(log: seq<Event>, threshold: nat, k: nat)
    requires k < |log| && log[k].Expired? && StandingAfter(log, log[k].id, threshold).Some?
    ensures var promise := PromisedUntil(log[..k], log[k].id, log[k].token); promise.Some? && promise.value <= log[k].at
  {
    NextStanding(log, log[k].id, threshold, k);
    HeldAsPromised(log[..k], log[k].id, threshold);
  }

  /** From a held task to the end of the record, either the same delivery holds it still or it has ended. */
  lemma {:induction false} HeldOrEnded(log: seq<Event>, id: nat, threshold: nat, i: nat, n: nat) returns (k: nat)
    requires i < n <= |log| && StandingAfter(log, id, threshold).Some? && log[i].Delivered? && log[i].id == id
    ensures StandingAfter(log[..n], id, threshold).Some?
    ensures var s := StandingAfter(log[..n], id, threshold).value;
            (s.Held? && s.token == log[i].token) || (i < k < n && Ends(log[k], id, log[i].token))
    decreases n
  {
    NextStanding(log, id, threshold, n - 1);
    k := i;
    if n > i + 1 {
      k := HeldOrEnded(log, id, threshold, i, n - 1);
      if log[n - 1].id == id && !(i < k < n - 1 && Ends(log[k], id, log[i].token)) {
        k := n - 1;
      }
    }
  }

  /** A parked task stays parked until an operator releases it. */
  lemma {:induction false} ParkedUntilReleased(log: seq<Event>, id: nat, threshold: nat, k: nat, n: nat) returns (m: nat)
    requires k <= n <= |log| && StandingAfter(log, id, threshold).Some?
    requires StandingAfter(log[..k], id, threshold) == Some(Parked)
    ensures StandingAfter(log[..n], id, threshold) == Some(Parked) || (k <= m < n && log[m] == Released(id))
    decreases n
  {
    m := k;
    if k < n {
      NextStanding(log, id, threshold, n - 1);
      m := ParkedUntilReleased(log, id, threshold, k, n - 1);
      if !(k <= m < n - 1 && log[m] == Released(id)) {
        m := n - 1;
      }
    }
  }

  /**
   Between two deliveries of a task the first one ended: its holder handed the task back, or
   lost it for lateness. When that parked the task, an operator also released it in between.
   */
  lemma {:induction false} DeliveriesAreSeparated(log: seq<Event>, id: nat, threshold: nat, i: nat, j: nat)
    returns (k: nat, m: nat)
    requires i < j < |log| && StandingAfter(log, id, threshold).Some?
    requires log[i].Delivered? && log[j].Delivered? && log[i].id == id && log[j].id == id
    ensures i < k < j && Ends(log[k], id, log[i].token) && !log[k].Acked?
    ensures StandingAfter(log[..k + 1], id, threshold) == Some(Parked) ==> k < m < j && log[m] == Released(id)
    ensures log[k].GivenUp? ==> StandingAfter(log[..k + 1], id, threshold) == Some(Parked)
  {
    NextStanding(log, id, threshold, j);
    k := HeldOrEnded(log, id, threshold, i, j);
    NextStanding(log, id, threshold, k);
    m := k;
    if log[k].Acked? {
      DoneForGood(log, id, threshold, k + 1, j);
    } else if StandingAfter(log[..k + 1], id, threshold) == Some(Parked) {
      m := ParkedUntilReleased(log, id, threshold, k + 1, j);
    }
  }

  lemma {:induction false} DoneForGood(log: seq<Event>, id: nat, threshold: nat, k: nat, n: nat)
    requires k <= n <= |log| && StandingAfter(log, id, threshold).Some?
    requires StandingAfter(log[..k], id, threshold) == Some(Done)
    ensures StandingAfter(log[..n], id, threshold) == Some(Done)
    ensures forall i :: k <= i < n ==> log[i].id != id
    decreases n
  {
    if k < n {
      DoneForGood(log, id, threshold, k, n - 1);
      NextStanding(log, id, threshold, n - 1);
    }
  }

  /** Once acknowledged, a task is never heard of again. */
  lemma {:induction false} AckedIsFinal(log: seq<Event>, threshold: nat, i: nat, j: nat)
    requires i < j < |log| && log[i].Acked? && StandingAfter(log, log[i].id, threshold).Some?
    ensures log[j].id != log[i].id
  {
    NextStanding(log, log[i].id, threshold, i);
    DoneForGood(log, log[i].id, threshold, i + 1, |log|);
  }

  /** How many leases a task lost since an operator last released it. */
  function LossesSince(log: seq<Event>, id: nat): nat {
    if log == [] then 0
    else
      var e, earlier := log[|log| - 1], LossesSince(log[..|log| - 1], id);
      if e == Released(id) then 0 else if e.Expired? && e.id == id then earlier + 1 else earlier
  }

  lemma {:induction false} LossesAreCounted(log: seq<Event>, id: nat, threshold: nat)
    requires StandingAfter(log, id, threshold).Some?
    ensures var s := StandingAfter(log, id, threshold).value; s.Waiting? || s.Held? ==> s.losses == LossesSince(log, id)
  {
    if log != [] {
      LossesAreCounted(log[..|log| - 1], id, threshold);
    }
  }

  /** A lost lease parks the task exactly when it is the threshold's loss since the last release. */
  lemma {:induction false} ParkedAtTheThreshold(log: seq<Event>, threshold: nat, k: nat)
    requires k < |log| && log[k].Expired? && StandingAfter(log, log[k].id, threshold).Some?
    ensures StandingAfter(log[..k + 1], log[k].id, threshold) == Some(Parked) <==> LossesSince(log[..k + 1], log[k].id) >= threshold
  {
    NextStanding(log, log[k].id, threshold, k);
    LossesAreCounted(log[..k], log[k].id, threshold);
    assert log[..k + 1][..k] == log[..k];
  }

  // ---- the rows ------------------------------------------------------------------------------

  function StandingOf(t: Task): Standing {
    match t.state
    case Pending => Waiting(t.reclaims)
    case Leased => if t.token.Some? then Held(t.token.value, t.visibleAt, t.reclaims) else Done
    case Completed => Done
    case Quarantined => Parked
  }

  predicate IsTask(t: Task, issued: nat, threshold: nat) {
    (t.state == Leased <==> t.token.Some?) && (t.token.Some? ==> t.token.value < issued) &&
    (t.state == Pending || t.state == Leased ==> t.reclaims < threshold)
  }

  /** A delivery draws a token that no delivery has had before. */
  ghost predicate TokensAreFresh(log: seq<Event>, issued: nat) {
    (forall i :: 0 <= i < |log| && log[i].Delivered? ==> log[i].token < issued) &&
    forall i, j :: 0 <= i < j < |log| && log[i].Delivered? && log[j].Delivered? ==> log[i].token != log[j].token
  }

  /** Delivery order: by the time a task became visible, then by the time it was created. */
  predicate Before(tasks: map<nat, Task>, a: nat, b: nat)
    requires a in tasks && b in tasks
  {
    var x, y := tasks[a], tasks[b];
    x.visibleAt < y.visibleAt ||
    (x.visibleAt == y.visibleAt && (x.createdAt < y.createdAt || (x.createdAt == y.createdAt && a < b)))
  }

  /** Whether a task can be taken at `now` by a caller that other workers' sticky claims keep from `claimed` runs. */
  predicate IsDeliverable(t: Task, queue: string, claimed: set<nat>, now: int) {
    t.queue == queue && (t.state == Pending || t.state == Leased) && t.visibleAt <= now &&
    (t.isDecision ==> t.run !in claimed)
  }

  /** Taking a task whose lease ran out for the last permitted time. */
  predicate IsPoisoned(t: Task, threshold: nat) {
    t.state == Leased && t.reclaims + 1 >= threshold
  }

  function AsParked(t: Task): Task {
    t.(state := Quarantined, token := None, reclaims := t.reclaims + 1)
  }

  function AsLeased(t: Task, token: nat, until: int): Task {
    t.(state := Leased, token := Some(token), attempts := t.attempts + 1,
       reclaims := if t.state == Leased then t.reclaims + 1 else t.reclaims, visibleAt := until)
  }

  /** `taken` are the first of the candidates in delivery order, and `limit` or all of them. */
  ghost predicate AreFirst(taken: seq<nat>, candidates: set<nat>, tasks: map<nat, Task>, limit: nat)
    requires candidates <= tasks.Keys
  {
    |taken| <= limit && (forall i :: 0 <= i < |taken| ==> taken[i] in candidates) &&
    (forall i, j :: 0 <= i < j < |taken| ==> Before(tasks, taken[i], taken[j])) &&
    (forall i, id :: 0 <= i < |taken| && id in candidates && id !in taken ==> Before(tasks, taken[i], id)) &&
    (|taken| < limit ==> forall id :: id in candidates ==> id in taken)
  }

  method FirstOf(tasks: map<nat, Task>, candidates: set<nat>) returns (first: nat)
    requires candidates <= tasks.Keys && candidates != {}
    ensures first in candidates && forall id :: id in candidates && id != first ==> Before(tasks, first, id)
  {
    first :| first in candidates;
    var rest := candidates - {first};
    while rest != {}
      invariant rest <= candidates && first in candidates && first !in rest
      invariant forall id :: id in candidates && id !in rest && id != first ==> Before(tasks, first, id)
      decreases |rest|
    {
      var id :| id in rest;
      rest := rest - {id};
      if Before(tasks, id, first) {
        first := id;
      }
    }
  }

  datatype Lease = Lease(id: nat, token: nat, attempts: nat)

  class TaskQueue {
    const threshold: nat
    var tasks: map<nat, Task>
    var nextId: nat
    var issued: nat
    ghost var log: seq<Event>

    /** Every row is where its events have brought it; rows not yet inserted have no events. */
    ghost predicate Valid()
      reads this
    {
      threshold > 0 && TokensAreFresh(log, issued) &&
      (forall id :: id in tasks ==> id < nextId && IsRight(id)) &&
      (forall id: nat {:trigger StandingAfter(log, id, threshold)} :: id !in tasks ==>
        StandingAfter(log, id, threshold) == Some(Waiting(0)))
    }

    ghost predicate IsRight(id: nat)
      requires id in tasks
      reads this
    {
      IsTask(tasks[id], issued, threshold) && StandingAfter(log, id, threshold) == Some(StandingOf(tasks[id]))
    }

    constructor (poisonThreshold: nat)
      requires poisonThreshold > 0
      ensures Valid() && threshold == poisonThreshold && tasks == map[] && log == []
    {
      threshold, tasks, nextId, issued, log := poisonThreshold, map[], 0, 0, [];
    }

    /** Only the task an event is about moves. */
    lemma OthersStand(earlier: seq<Event>, e: Event, id: nat)
      ensures StandingAfter(earlier + [e], id, threshold) ==
        var s := StandingAfter(earlier, id, threshold);
        if e.id == id && s.Some? then Judge(s.value, e, threshold) else s
    {
      assert (earlier + [e])[..|earlier|] == earlier;
    }

    lemma RightRow(id: nat)
      requires Valid() && id in tasks
      ensures IsTask(tasks[id], issued, threshold) && threshold > 0
    {
      assert IsRight(id);
    }

    /** Puts a task where a lawful event takes it. */
    method Put(id: nat, task: Task, ghost e: Event)
      requires Valid() && id in tasks && e.id == id && !e.Delivered?
      requires IsTask(task, issued, threshold) && Judge(StandingOf(tasks[id]), e, threshold) == Some(StandingOf(task))
      modifies this`tasks, this`log
      ensures Valid() && tasks == old(tasks)[id := task] && log == old(log) + [e]
    {
      tasks := tasks[id := task];
      log := log + [e];
      hide Judge, StandingOf, IsTask;
      forall other: nat
        ensures StandingAfter(log, other, threshold) == var s := StandingAfter(old(log), other, threshold);
          if e.id == other && s.Some? then Judge(s.value, e, threshold) else s
      {
        OthersStand(old(log), e, other);
      }
      hide StandingAfter;
      assert forall other :: other in tasks && other != id ==> old(IsRight(other));
    }

    method Enqueue(queue: string, run: nat, isDecision: bool, delayMs: nat, now: int) returns (id: nat)
      requires Valid()
      modifies this`tasks, this`nextId
      ensures Valid() && id !in old(tasks)
      ensures tasks == old(tasks)[id := Task(queue, run, isDecision, Pending, None, 0, 0, now + delayMs, now)]
    {
      hide StandingAfter;
      id := nextId;
      tasks := tasks[id := Task(queue, run, isDecision, Pending, None, 0, 0, now + delayMs, now)];
      nextId := nextId + 1;
      assert forall other :: other in tasks && other != id ==> old(IsRight(other));
    }

    /** Whether the row's lease is the caller's; by Valid, whether the record says that delivery holds the task. */
    predicate IsCurrent(id: nat, token: nat)
      reads this
    {
      id in tasks && tasks[id].state == Leased && tasks[id].token == Some(token)
    }

    /** The delivery that holds a task is the one its events name. */
    lemma CurrentIsHolder(id: nat, token: nat)
      requires Valid() && id in tasks
      ensures IsCurrent(id, token) <==> exists until, losses :: StandingAfter(log, id, threshold) == Some(Held(token, until, losses))
    {
      assert IsRight(id);
      hide StandingAfter;
      if IsCurrent(id, token) {
        assert StandingAfter(log, id, threshold) == Some(Held(token, tasks[id].visibleAt, tasks[id].reclaims));
      }
    }

    method Ack(id: nat, token: nat) returns (applied: bool)
      requires Valid()
      modifies this`tasks, this`log
      ensures Valid() && applied == old(IsCurrent(id, token))
      ensures if applied then tasks == old(tasks)[id := old(tasks)[id].(state := State.Completed, token := None)] && log == old(log) + [Acked(id, token)]
              else tasks == old(tasks) && log == old(log)
    {
      applied := IsCurrent(id, token);
      if applied {
        Put(id, tasks[id].(state := State.Completed, token := None), Acked(id, token));
      }
    }

    method Nack(id: nat, token: nat, delayMs: nat, now: int) returns (applied: bool)
      requires Valid()
      modifies this`tasks, this`log
      ensures Valid() && applied == old(IsCurrent(id, token))
      ensures if applied then tasks == old(tasks)[id := old(tasks)[id].(state := Pending, token := None, visibleAt := now + delayMs)] &&
                log == old(log) + [Nacked(id, token)]
              else tasks == old(tasks) && log == old(log)
    {
      applied := IsCurrent(id, token);
      if applied {
        assert IsRight(id);
        Put(id, tasks[id].(state := Pending, token := None, visibleAt := now + delayMs), Nacked(id, token));
      }
    }

    /** A worker parks a task it cannot handle; its losses stay on the row. */
    method Quarantine(id: nat, token: nat) returns (applied: bool)
      requires Valid()
      modifies this`tasks, this`log
      ensures Valid() && applied == old(IsCurrent(id, token))
      ensures if applied then tasks == old(tasks)[id := old(tasks)[id].(state := Quarantined, token := None)] && log == old(log) + [GivenUp(id, token)]
              else tasks == old(tasks) && log == old(log)
    {
      applied := IsCurrent(id, token);
      if applied {
        Put(id, tasks[id].(state := Quarantined, token := None), GivenUp(id, token));
      }
    }

    /** Moves the end of a lease; a lease that ran out is not extended, even while nobody else took the task. */
    method Extend(id: nat, token: nat, timeoutMs: nat, now: int) returns (applied: bool)
      requires Valid() && timeoutMs > 0
      modifies this`tasks, this`log
      ensures Valid() && applied == old(IsCurrent(id, token) && tasks[id].visibleAt > now)
      ensures if applied then tasks == old(tasks)[id := old(tasks)[id].(visibleAt := now + timeoutMs)] &&
                log == old(log) + [Extended(id, token, now + timeoutMs)]
              else tasks == old(tasks) && log == old(log)
    {
      applied := IsCurrent(id, token) && tasks[id].visibleAt > now;
      if applied {
        assert IsRight(id);
        Put(id, tasks[id].(visibleAt := now + timeoutMs), Extended(id, token, now + timeoutMs));
      }
    }

    /** An operator lets a parked task be delivered again, with its losses forgotten. */
    method Release(id: nat, now: int) returns (applied: bool)
      requires Valid()
      modifies this`tasks, this`log
      ensures Valid() && applied == old(id in tasks && tasks[id].state == Quarantined)
      ensures if applied then tasks == old(tasks)[id := old(tasks)[id].(state := Pending, reclaims := 0, visibleAt := now)] &&
                log == old(log) + [Released(id)]
              else tasks == old(tasks) && log == old(log)
    {
      applied := id in tasks && tasks[id].state == Quarantined;
      if applied {
        assert IsRight(id);
        Put(id, tasks[id].(state := Pending, reclaims := 0, visibleAt := now), Released(id));
      }
    }

    /** What the janitor makes of a task whose lease ran out. */
    function Reclaimed(t: Task, now: int): Task {
      t.(state := if t.reclaims + 1 >= threshold then Quarantined else Pending, token := None,
         reclaims := t.reclaims + 1, visibleAt := now)
    }

    predicate IsOrphaned(t: Task, now: int) {
      t.state == Leased && t.visibleAt <= now
    }

    method Reclaim(id: nat, now: int)
      requires Valid() && id in tasks && IsOrphaned(tasks[id], now)
      modifies this`tasks, this`log
      ensures Valid() && tasks == old(tasks)[id := Reclaimed(old(tasks)[id], now)]
    {
      RightRow(id);
      hide TaskQueue.Valid;
      Put(id, Reclaimed(tasks[id], now), Expired(id, tasks[id].token.value, now));
    }

    /** Takes back every lease that ran out, but for the rows that are locked. */
    method ReclaimOrphanedLeases(locked: set<nat>, now: int) returns (reclaimed: set<nat>)
      requires Valid()
      modifies this`tasks, this`log
      ensures Valid() && tasks.Keys == old(tasks).Keys
      ensures reclaimed == set id | id in old(tasks) && id !in locked && IsOrphaned(old(tasks)[id], now)
      ensures forall id :: id in tasks ==> tasks[id] == if id in reclaimed then Reclaimed(old(tasks)[id], now) else old(tasks)[id]
    {
      reclaimed := set id | id in tasks && id !in locked && IsOrphaned(tasks[id], now);
      hide TaskQueue.Valid, TaskQueue.Reclaimed;
      var rest := reclaimed;
      while rest != {}
        invariant Valid() && tasks.Keys == old(tasks).Keys && rest <= reclaimed
        invariant forall id :: id in tasks ==>
          tasks[id] == if id in reclaimed && id !in rest then Reclaimed(old(tasks)[id], now) else old(tasks)[id]
        decreases |rest|
      {
        var id :| id in rest;
        rest := rest - {id};
        Reclaim(id, now);
      }
    }

    /** A task found with its lease run out, as its next consumer leaves it behind. */
    function Lost(t: Task): Task {
      t.(state := if IsPoisoned(t, threshold) then Quarantined else Pending, token := None, reclaims := t.reclaims + 1)
    }

    method Lose(id: nat, now: int)
      requires Valid() && id in tasks && tasks[id].visibleAt <= now && tasks[id].state == Leased
      modifies this`tasks, this`log
      ensures Valid() && tasks == old(tasks)[id := Lost(old(tasks)[id])]
    {
      RightRow(id);
      hide TaskQueue.Valid;
      Put(id, Lost(tasks[id]), Expired(id, tasks[id].token.value, now));
    }

    lemma LeasedAtLast(t: Task, token: nat, until: int)
      ensures t.state == Leased && !IsPoisoned(t, threshold) ==> AsLeased(Lost(t), token, until) == AsLeased(t, token, until)
      ensures IsPoisoned(t, threshold) ==> Lost(t) == AsParked(t)
    {
    }

    /** Takes one task for a caller: parks it if it is poisoned, otherwise leases it under a fresh token. */
    method Deliver(id: nat, timeoutMs: nat, now: int) returns (lease: Option<Lease>)
      requires Valid() && id in tasks && tasks[id].visibleAt <= now && (tasks[id].state == Pending || tasks[id].state == Leased)
      modifies this`tasks, this`log, this`issued
      ensures Valid() && lease.None? == IsPoisoned(old(tasks)[id], threshold)
      ensures lease.None? ==> tasks == old(tasks)[id := AsParked(old(tasks)[id])] && issued == old(issued)
      ensures lease.Some? ==> issued == old(issued) + 1 && lease.value == Lease(id, old(issued), old(tasks)[id].attempts + 1)
      ensures lease.Some? ==> tasks == old(tasks)[id := AsLeased(old(tasks)[id], old(issued), now + timeoutMs)]
    {
      hide TaskQueue.Valid;
      var task := tasks[id];
      LeasedAtLast(task, issued, now + timeoutMs);
      if task.state == Leased {
        Lose(id, now);
        if tasks[id].state == Quarantined {
          return None;
        }
      }
      StartLease(id, now + timeoutMs);
      hide AsLeased, AsParked, TaskQueue.Lost;
      return Some(Lease(id, issued - 1, task.attempts + 1));
    }

    method StartLease(id: nat, until: int)
      requires Valid() && id in tasks && tasks[id].state == Pending
      modifies this`tasks, this`log, this`issued
      ensures Valid() && issued == old(issued) + 1 && tasks == old(tasks)[id := AsLeased(old(tasks)[id], old(issued), until)]
      ensures log == old(log) + [Delivered(id, old(issued), until)]
    {
      var e := Delivered(id, issued, until);
      assert IsRight(id);
      tasks := tasks[id := AsLeased(tasks[id], issued, until)];
      issued := issued + 1;
      log := log + [e];
      forall other: nat
        ensures StandingAfter(log, other, threshold) == var s := StandingAfter(old(log), other, threshold);
          if id == other && s.Some? then Judge(s.value, e, threshold) else s
      {
        OthersStand(old(log), e, other);
      }
      hide StandingAfter;
      assert forall other :: other in tasks && other != id ==> old(IsRight(other));
    }

    /** A lease as handed out: of a task that was not poisoned, and now on its row. */
    predicate IsLeaseOf(lease: Lease, before: map<nat, Task>, after: map<nat, Task>, until: int) {
      lease.id in before && lease.id in after && !IsPoisoned(before[lease.id], threshold) &&
      after[lease.id] == AsLeased(before[lease.id], lease.token, until) && lease.attempts == after[lease.id].attempts
    }

    /** Every taken task is leased under a token of its own, or parked if it is poisoned; the others keep their rows. */
    ghost predicate AreHandedOut(taken: seq<nat>, leases: seq<Lease>, before: map<nat, Task>, after: map<nat, Task>, until: int) {
      after.Keys == before.Keys &&
      (forall id :: id in before && id !in taken ==> after[id] == before[id]) &&
      (forall id :: id in before && id in taken && IsPoisoned(before[id], threshold) ==> after[id] == AsParked(before[id])) &&
      (forall id :: id in before && id in taken && !IsPoisoned(before[id], threshold) ==>
        exists i :: 0 <= i < |leases| && leases[i].id == id) &&
      (forall i :: 0 <= i < |leases| ==> leases[i].id in taken && IsLeaseOf(leases[i], before, after, until)) &&
      forall i, j :: 0 <= i < j < |leases| ==> leases[i].token < leases[j].token && leases[i].id != leases[j].id
    }

    /** One more task parked instead of handed out. */
    lemma OneMoreParked(taken: seq<nat>, leases: seq<Lease>, before: map<nat, Task>, after: map<nat, Task>, until: int, id: nat)
      requires AreHandedOut(taken, leases, before, after, until) && id in before && id !in taken
      requires IsPoisoned(before[id], threshold)
      ensures AreHandedOut(taken + [id], leases, before, after[id := AsParked(before[id])], until)
    {
      hide IsPoisoned, AsParked, AsLeased;
    }

    /** One more task leased. */
    lemma OneMoreLeased(taken: seq<nat>, leases: seq<Lease>, before: map<nat, Task>, after: map<nat, Task>, until: int, lease: Lease,
        low: nat)
      requires AreHandedOut(taken, leases, before, after, until) && lease.id in before && lease.id !in taken
      requires !IsPoisoned(before[lease.id], threshold) && lease.attempts == before[lease.id].attempts + 1
      requires AreNew(leases, low, lease.token)
      ensures AreHandedOut(taken + [lease.id], leases + [lease], before, after[lease.id := AsLeased(before[lease.id], lease.token, until)], until)
    {
      var more := leases + [lease];
      assert AsLeased(before[lease.id], lease.token, until).attempts == lease.attempts;
      hide IsPoisoned, AsParked, AsLeased;
      forall id | id in before && id in taken + [lease.id] && !IsPoisoned(before[id], threshold)
        ensures exists i :: 0 <= i < |more| && more[i].id == id
      {
        if id == lease.id {
          assert more[|leases|].id == id;
        } else {
          var i :| 0 <= i < |leases| && leases[i].id == id;
          assert more[i].id == id;
        }
      }
    }

    /** The tasks taken so far, and those that are left, in delivery order. */
    ghost predicate AreTaken(taken: seq<nat>, rest: set<nat>, candidates: set<nat>, before: map<nat, Task>) {
      candidates <= before.Keys && rest <= candidates &&
      (forall id :: id in candidates <==> id in taken || id in rest) &&
      (forall i :: 0 <= i < |taken| ==> taken[i] in candidates && taken[i] !in rest) &&
      (forall i, j :: 0 <= i < j < |taken| ==> Before(before, taken[i], taken[j])) &&
      forall i, id :: 0 <= i < |taken| && id in rest ==> Before(before, taken[i], id)
    }

    /** The next task to take: not taken yet, so its row is as it was. */
    lemma IsUntouched(taken: seq<nat>, rest: set<nat>, candidates: set<nat>, leases: seq<Lease>, before: map<nat, Task>,
        after: map<nat, Task>, until: int, id: nat)
      requires AreTaken(taken, rest, candidates, before) && AreHandedOut(taken, leases, before, after, until) && id in rest
      ensures id in candidates && id in before && id in after && id !in taken && after[id] == before[id]
    {
    }

    lemma OneMoreTaken(taken: seq<nat>, rest: set<nat>, candidates: set<nat>, before: map<nat, Task>, id: nat)
      requires AreTaken(taken, rest, candidates, before) && id in rest
      requires forall other :: other in rest && other != id ==> Before(before, id, other)
      ensures AreTaken(taken + [id], rest - {id}, candidates, before)
    {
      hide Before;
    }

    /** The tasks a caller may take. */
    function Deliverable(rows: map<nat, Task>, queue: string, claimed: set<nat>, locked: set<nat>, now: int): (ids: set<nat>)
      ensures ids <= rows.Keys
    {
      set id | id in rows && id !in locked && IsDeliverable(rows[id], queue, claimed, now)
    }

    /**
     Nobody is passed over: what is handed out was due in the queue asked for, and of what was
     due there, was not locked and was no decision kept by another worker, only tasks no older
     than any of those taken are left, and none before the limit is reached.
     */
    lemma NobodyIsPassedOver(taken: seq<nat>, leases: seq<Lease>, before: map<nat, Task>, after: map<nat, Task>, queue: string, limit: nat,
        claimed: set<nat>, locked: set<nat>, until: int, now: int, id: nat)
      requires AreFirst(taken, Deliverable(before, queue, claimed, locked, now), before, limit)
      requires AreHandedOut(taken, leases, before, after, until)
      ensures forall i :: 0 <= i < |taken| ==>
        taken[i] in before && taken[i] !in locked && before[taken[i]].queue == queue && before[taken[i]].visibleAt <= now &&
        before[taken[i]].state in {Pending, Leased} && !(before[taken[i]].isDecision && before[taken[i]].run in claimed)
      ensures forall i :: 0 <= i < |leases| ==>
        leases[i].id in taken && leases[i].id in after && after[leases[i].id].state == Leased &&
        after[leases[i].id].token == Some(leases[i].token) && after[leases[i].id].visibleAt == until &&
        after[leases[i].id].attempts == before[leases[i].id].attempts + 1
      ensures (id in before && id !in locked && before[id].queue == queue && before[id].visibleAt <= now &&
               before[id].state in {Pending, Leased} && !(before[id].isDecision && before[id].run in claimed) && id !in taken) ==>
        |taken| == limit && forall i :: 0 <= i < |taken| ==> before[taken[i]].visibleAt <= before[id].visibleAt
    {
      var candidates := Deliverable(before, queue, claimed, locked, now);
      forall i | 0 <= i < |taken|
        ensures taken[i] in candidates
      {
      }
      if id in candidates && id !in taken {
        forall i | 0 <= i < |taken|
          ensures Before(before, taken[i], id)
        {
        }
      }
      hide IsPoisoned, AsParked;
    }

    /** The leases' tokens were drawn since `low`. */
    ghost predicate AreNew(leases: seq<Lease>, low: nat, high: nat) {
      low <= high && forall i :: 0 <= i < |leases| ==> low <= leases[i].token < high
    }

    lemma OneMoreNew(leases: seq<Lease>, low: nat, lease: Lease)
      requires AreNew(leases, low, lease.token)
      ensures AreNew(leases + [lease], low, lease.token + 1)
    {
    }

    /** Takes the first task that is left. */
    method TakeNext(id: nat, timeoutMs: nat, now: int, taken: seq<nat>, leases: seq<Lease>,
        ghost rest: set<nat>, ghost candidates: set<nat>, ghost before: map<nat, Task>, ghost low: nat)
      returns (more: seq<Lease>)
      requires Valid() && AreTaken(taken, rest, candidates, before)
      requires AreHandedOut(taken, leases, before, tasks, now + timeoutMs)
      requires id in rest && id in before && before[id].visibleAt <= now && (before[id].state == Pending || before[id].state == Leased)
      requires AreNew(leases, low, issued)
      modifies this`tasks, this`log, this`issued
      ensures Valid() && AreHandedOut(taken + [id], more, before, tasks, now + timeoutMs)
      ensures AreNew(more, low, issued)
    {
      hide *;
      IsUntouched(taken, rest, candidates, leases, before, tasks, now + timeoutMs, id);
      ghost var rows := tasks;
      var lease := Deliver(id, timeoutMs, now);
      if lease.None? {
        OneMoreParked(taken, leases, before, rows, now + timeoutMs, id);
        return leases;
      }
      OneMoreLeased(taken, leases, before, rows, now + timeoutMs, lease.value, low);
      OneMoreNew(leases, low, lease.value);
      return leases + [lease.value];
    }

    /**
     Takes up to `limit` deliverable tasks in order, passing over locked rows and over the
     decisions of runs that other workers hold. Every task taken is either leased to the
     caller under a token of its own or, when it is poisoned, parked instead.
     */
    method Dequeue(queue: string, timeoutMs: nat, limit: nat, claimed: set<nat>, locked: set<nat>, now: int)
      returns (leases: seq<Lease>, taken: seq<nat>)
      requires Valid() && timeoutMs > 0 && limit > 0
      modifies this`tasks, this`log, this`issued
      ensures Valid() && AreFirst(taken, Deliverable(old(tasks), queue, claimed, locked, now), old(tasks), limit)
      ensures AreHandedOut(taken, leases, old(tasks), tasks, now + timeoutMs)
      ensures AreNew(leases, old(issued), issued)
    {
      var before := tasks;
      var candidates := Deliverable(tasks, queue, claimed, locked, now);
      var rest := candidates;
      leases, taken := [], [];
      while |taken| < limit && rest != {}
        invariant Valid() && |taken| <= limit && AreTaken(taken, rest, candidates, before)
        invariant AreHandedOut(taken, leases, before, tasks, now + timeoutMs)
        invariant AreNew(leases, old(issued), issued)
        decreases limit - |taken|
      {
        hide TaskQueue.Valid, TaskQueue.AreHandedOut, Before;
        var id := FirstOf(before, rest);
        OneMoreTaken(taken, rest, candidates, before, id);
        leases := TakeNext(id, timeoutMs, now, taken, leases, rest, candidates, before, old(issued));
        rest, taken := rest - {id}, taken + [id];
      }
    }
  }
}
