/**
 What a live session remembers of the events it was fed, and why that is enough: asking
 the session's maps whether a wait can resolve gives the answer a replay finds by
 searching the history.
 */
module LiveKnowledge {
  import opened WorkflowTypes
  import opened Replay
  import opened ReplayMonotone

  /** The events a live session can be fed. */
  predicate IsSupported(event: Event) {
    event.RunStarted? || event.StepScheduled? || event.StepCompleted? || event.StepFailed? ||
    event.StepAttemptFailed? || event.TimerStarted? || event.TimerFired? || event.SignalReceived? ||
    event.TimeRecorded?
  }

  /** No step is completed or failed twice. */
  predicate OneOutcome(history: seq<Event>) {
    forall i, j :: 0 <= i < j < |history| &&
      (history[i].StepCompleted? || history[i].StepFailed?) && (history[j].StepCompleted? || history[j].StepFailed?)
      ==> history[i].stepId != history[j].stepId
  }

  /** The name waiters for an event are kept under. */
  datatype Key = StepKey(stepId: nat) | TimerKey(timerId: nat) | SignalKey(name: string)

  function KeyOf(wait: Wait): Option<Key> {
    match wait
    case OnStep(stepId, _) => Some(StepKey(stepId))
    case OnTimer(timerId) => Some(TimerKey(timerId))
    case OnSignal(name, _) => Some(SignalKey(name))
    case _ => None
  }

  function KeyOfEvent(event: Event): Option<Key> {
    match event
    case StepCompleted(stepId, _) => Some(StepKey(stepId))
    case StepFailed(stepId, _, _) => Some(StepKey(stepId))
    case TimerFired(timerId) => Some(TimerKey(timerId))
    case SignalReceived(name, _) => Some(SignalKey(name))
    case _ => None
  }

  /** The session's maps: finished steps, fired timers, and signal payloads by name. */
  datatype Knowledge = Knowledge(
    finishedSteps: map<nat, Event>,
    firedTimers: set<nat>,
    signals: map<string, seq<Json>>)
  {
    function SignalList(name: string): seq<Json> {
      if name in signals then signals[name] else []
    }

    function Learn(event: Event): Knowledge {
      match event
      case StepCompleted(stepId, _) => this.(finishedSteps := finishedSteps[stepId := event])
      case StepFailed(stepId, _, _) => this.(finishedSteps := finishedSteps[stepId := event])
      case TimerFired(timerId) => this.(firedTimers := firedTimers + {timerId})
      case SignalReceived(name, payload) => this.(signals := signals[name := SignalList(name) + [payload]])
      case _ => this
    }

    /** How a wait resolves by what is known, if it does. */
    function Resolve(wait: Wait): Option<Outcome> {
      match wait
      case OnStep(stepId, _) =>
        if stepId in finishedSteps then Some(Settled(finishedSteps[stepId], wait)) else None
      case OnTimer(timerId) => if timerId in firedTimers then Some(Fulfilled(Null)) else None
      case OnSignal(name, index) =>
        if index < |SignalList(name)| then Some(Fulfilled(SignalList(name)[index])) else None
      case _ => None
    }
  }

  /** What is known after the first `count` events. */
  function KnowledgeOf(history: seq<Event>, count: nat): Knowledge
    requires count <= |history|
  {
    if count == 0 then Knowledge(map[], {}, map[])
    else KnowledgeOf(history, count - 1).Learn(history[count - 1])
  }

  /** How a replay of the first `count` events resolves a wait. */
  function Resolved(history: seq<Event>, wait: Wait, count: nat): Option<Outcome>
    requires count <= |history|
  {
    var found := Find(history, wait);
    if found.Some? && found.value < count
    then Some(OutcomeOf(history, Due(found.value, wait, None))) else None
  }

  lemma {:induction false} SignalsKnown(history: seq<Event>, count: nat, name: string)
    requires count <= |history|
    ensures |KnowledgeOf(history, count).SignalList(name)| == CountSignals(history[..count], name)
    ensures forall i :: 0 <= i < count && history[i].SignalReceived? && history[i].signalName == name ==>
      var nth := CountSignals(history[..i], name);
      nth < |KnowledgeOf(history, count).SignalList(name)| &&
      KnowledgeOf(history, count).SignalList(name)[nth] == history[i].payload
  {
    if count > 0 {
      SignalsKnown(history, count - 1, name);
      assert history[..count][..count - 1] == history[..count - 1];
    }
  }

  lemma {:induction false} TimersKnown(history: seq<Event>, count: nat, timerId: nat)
    requires count <= |history|
    ensures timerId in KnowledgeOf(history, count).firedTimers <==>
      exists i :: 0 <= i < count && Settles(history, i, OnTimer(timerId))
  {
    if count > 0 {
      TimersKnown(history, count - 1, timerId);
      assert KeyOfEvent(history[count - 1]) == Some(TimerKey(timerId)) <==>
        Settles(history, count - 1, OnTimer(timerId));
    }
  }

  lemma {:induction false} StepsKnown(history: seq<Event>, count: nat, stepId: nat)
    requires count <= |history| && OneOutcome(history)
    ensures stepId in KnowledgeOf(history, count).finishedSteps <==>
      exists i :: 0 <= i < count && Settles(history, i, OnStep(stepId, ""))
    ensures forall i :: 0 <= i < count && Settles(history, i, OnStep(stepId, "")) ==>
      stepId in KnowledgeOf(history, count).finishedSteps &&
      KnowledgeOf(history, count).finishedSteps[stepId] == history[i]
  {
    if count > 0 {
      StepsKnown(history, count - 1, stepId);
      assert KeyOfEvent(history[count - 1]) == Some(StepKey(stepId)) <==>
        Settles(history, count - 1, OnStep(stepId, ""));
    }
  }

  /** The `nth` signal of a name exists among the first `count` events iff that many arrived. */
  lemma {:induction false} NthSignal(history: seq<Event>, count: nat, name: string, nth: nat)
    requires count <= |history|
    ensures nth < CountSignals(history[..count], name) <==>
      exists i :: 0 <= i < count && Settles(history, i, OnSignal(name, nth))
  {
    if count > 0 {
      NthSignal(history, count - 1, name, nth);
      assert history[..count][..count - 1] == history[..count - 1];
      if Settles(history, count - 1, OnSignal(name, nth)) {
        assert nth < CountSignals(history[..count], name);
      }
    }
  }

  /** Asking what is known resolves a wait exactly as searching the history does. */
  lemma {:induction false} KnowledgeResolves(history: seq<Event>, count: nat, wait: Wait)
    requires count <= |history| && OneOutcome(history)
    requires KeyOf(wait).Some?
    ensures KnowledgeOf(history, count).Resolve(wait) == Resolved(history, wait, count)
  {
    var found := Find(history, wait);
    match wait
    case OnStep(stepId, _) =>
      StepsKnown(history, count, stepId);
      assert forall i :: 0 <= i < |history| ==>
        Settles(history, i, wait) == Settles(history, i, OnStep(stepId, ""));
    case OnTimer(timerId) =>
      TimersKnown(history, count, timerId);
    case OnSignal(name, nth) =>
      SignalsKnown(history, count, name);
      NthSignal(history, count, name, nth);
    case _ =>
  }

  // ---- waiters ---------------------------------------------------------------

  datatype Waiter = Waiter(promise: nat, wait: Wait)

  /** The promises kept under `key` that the first `count` events leave unresolved, oldest first. */
  function Pending(history: seq<Event>, promises: seq<Promise>, key: Key, count: nat): seq<Waiter>
    requires count <= |history|
  {
    if promises == [] then []
    else
      var last := |promises| - 1;
      Pending(history, promises[..last], key, count) +
      if KeyOf(promises[last].wait) == Some(key) && Resolved(history, promises[last].wait, count).None?
      then [Waiter(last, promises[last].wait)] else []
  }

  lemma {:induction false} PendingSnoc(history: seq<Event>, promises: seq<Promise>, promise: Promise, count: nat)
    requires count <= |history|
    ensures forall key ::
      (Pending(history, promises + [promise], key, count) ==
       Pending(history, promises, key, count) +
       if KeyOf(promise.wait) == Some(key) && Resolved(history, promise.wait, count).None?
       then [Waiter(|promises|, promise.wait)] else [])
  {
    assert (promises + [promise])[..|promises|] == promises;
  }

  /** The waiters that still cannot resolve. */
  function Remaining(known: Knowledge, waiters: seq<Waiter>): seq<Waiter> {
    if waiters == [] then []
    else
      var last := |waiters| - 1;
      Remaining(known, waiters[..last]) +
      if known.Resolve(waiters[last].wait).None? then [waiters[last]] else []
  }

  /** The waiters that resolve now, with their outcomes. */
  function Woken(known: Knowledge, waiters: seq<Waiter>): seq<Ready> {
    if waiters == [] then []
    else
      var last := |waiters| - 1;
      Woken(known, waiters[..last]) +
      match known.Resolve(waiters[last].wait)
      case Some(outcome) => [Ready(waiters[last].promise, outcome)]
      case None => []
  }

  /** Promises a live session hands out, each due where the history settles it. */
  predicate LivePromises(history: seq<Event>, promises: seq<Promise>) {
    forall i :: 0 <= i < |promises| ==> LivePromise(history, promises[i])
  }

  predicate LivePromise(history: seq<Event>, promise: Promise) {
    (KeyOf(promise.wait).Some? || promise.wait.OnNothing?) &&
    promise.due == (match Find(history, promise.wait) case None => None case Some(i) => Some(Due(i, promise.wait, None)))
  }

  /** One more event resolves a wait only if the event is filed under the wait's key. */
  lemma {:induction false} ResolvedStep(history: seq<Event>, wait: Wait, count: nat)
    requires count < |history|
    ensures Resolved(history, wait, count).Some? ==>
      Resolved(history, wait, count + 1) == Resolved(history, wait, count)
    ensures Resolved(history, wait, count).None? && Resolved(history, wait, count + 1).Some? <==>
      Find(history, wait) == Some(count)
    ensures Find(history, wait) == Some(count) ==>
      KeyOfEvent(history[count]) == KeyOf(wait) || history[count].ChildCompleted? || history[count].ChildFailed?
    ensures Find(history, wait) == Some(count) ==>
      Resolved(history, wait, count + 1) == Some(OutcomeOf(history, Due(count, wait, None)))
  {
  }

  /** What becomes of one promise when the event at `count`, filed under `key`, arrives. */
  lemma {:induction false} NotifyOne(history: seq<Event>, promise: Promise, count: nat, key: Key)
    requires count < |history| && OneOutcome(history) && LivePromise(history, promise)
    requires KeyOfEvent(history[count]) == Some(key)
    ensures var due := promise.due.Some? && promise.due.value.index == count;
            var waits := KeyOf(promise.wait) == Some(key) && Resolved(history, promise.wait, count).None?;
            (due ==> waits) &&
            (KeyOf(promise.wait) == Some(key) && Resolved(history, promise.wait, count + 1).None? <==> waits && !due) &&
            (waits ==> KnowledgeOf(history, count + 1).Resolve(promise.wait) ==
                       if due then Some(OutcomeOf(history, promise.due.value)) else None)
  {
    ResolvedStep(history, promise.wait, count);
    if KeyOf(promise.wait).Some? {
      KnowledgeResolves(history, count + 1, promise.wait);
    }
  }

  /** `ReleaseOf` and `WaiterOf`: what one promise adds to `Releases` and `Pending`. */
  function ReleaseOf(history: seq<Event>, promises: seq<Promise>, id: nat, index: nat): seq<Ready>
    requires id < |promises| && index < |history|
  {
    if promises[id].due.Some? && promises[id].due.value.index == index
    then [Ready(id, OutcomeOf(history, promises[id].due.value))] else []
  }

  function WaiterOf(history: seq<Event>, promises: seq<Promise>, id: nat, key: Key, count: nat): seq<Waiter>
    requires id < |promises| && count <= |history|
  {
    if KeyOf(promises[id].wait) == Some(key) && Resolved(history, promises[id].wait, count).None?
    then [Waiter(id, promises[id].wait)] else []
  }

  lemma {:induction false} ReleaseStep(history: seq<Event>, promises: seq<Promise>, index: nat)
    requires promises != [] && index < |history|
    ensures var last := |promises| - 1;
      Releases(history, promises, index) ==
      Releases(history, promises[..last], index) + ReleaseOf(history, promises, last, index)
  {
  }

  lemma {:induction false} PendingStep(history: seq<Event>, promises: seq<Promise>, key: Key, count: nat)
    requires promises != [] && count <= |history|
    ensures var last := |promises| - 1;
      Pending(history, promises, key, count) ==
      Pending(history, promises[..last], key, count) + WaiterOf(history, promises, last, key, count)
  {
  }

  /** Notifying the waiters of an event's key releases what a replay releases at that event. */
  lemma {:induction false} NotifyReleases(history: seq<Event>, promises: seq<Promise>, count: nat, key: Key)
    requires count < |history| && OneOutcome(history) && LivePromises(history, promises)
    requires KeyOfEvent(history[count]) == Some(key)
    ensures Woken(KnowledgeOf(history, count + 1), Pending(history, promises, key, count)) ==
            Releases(history, promises, count)
    ensures Remaining(KnowledgeOf(history, count + 1), Pending(history, promises, key, count)) ==
            Pending(history, promises, key, count + 1)
  {
    if promises != [] {
      var last := |promises| - 1;
      var known := KnowledgeOf(history, count + 1);
      var waiters := WaiterOf(history, promises, last, key, count);
      NotifyReleases(history, promises[..last], count, key);
      NotifyLast(history, promises, count, key);
      PendingStep(history, promises, key, count);
      PendingStep(history, promises, key, count + 1);
      ReleaseStep(history, promises, count);
      assert |waiters| <= 1;
      hide *;
      FilterConcat(known, Pending(history, promises[..last], key, count), waiters);
    }
  }

  lemma {:induction false} FilterConcat(known: Knowledge, left: seq<Waiter>, right: seq<Waiter>)
    requires |right| <= 1
    ensures Remaining(known, left + right) == Remaining(known, left) + Remaining(known, right)
    ensures Woken(known, left + right) == Woken(known, left) + Woken(known, right)
  {
    if right == [] {
      assert left + right == left;
    } else {
      assert (left + right)[..|left|] == left;
      assert right[..0] == [];
    }
  }

  /** The same for the youngest promise alone. */
  lemma {:induction false} NotifyLast(history: seq<Event>, promises: seq<Promise>, count: nat, key: Key)
    requires count < |history| && OneOutcome(history) && LivePromises(history, promises) && promises != []
    requires KeyOfEvent(history[count]) == Some(key)
    ensures var last := |promises| - 1;
            var known := KnowledgeOf(history, count + 1);
            var waiters := WaiterOf(history, promises, last, key, count);
            Woken(known, waiters) == ReleaseOf(history, promises, last, count) &&
            Remaining(known, waiters) == WaiterOf(history, promises, last, key, count + 1)
  {
    var last := |promises| - 1;
    var known := KnowledgeOf(history, count + 1);
    var waiters := WaiterOf(history, promises, last, key, count);
    assert LivePromise(history, promises[last]);
    NotifyOne(history, promises[last], count, key);
    if waiters != [] {
      assert waiters[..0] == [];
    }
    hide KnowledgeOf, Knowledge.Resolve, Settles, Settled, OutcomeOf, Find, Resolved, LivePromises, LivePromise,
         OneOutcome, KeyOf, KeyOfEvent;
  }

  /** An event releases nothing that is kept under another key. */
  lemma {:induction false} OtherKeysWait(history: seq<Event>, promises: seq<Promise>, count: nat, key: Key)
    requires count < |history| && LivePromises(history, promises)
    requires KeyOfEvent(history[count]) != Some(key)
    requires !history[count].ChildCompleted? && !history[count].ChildFailed?
    ensures Pending(history, promises, key, count + 1) == Pending(history, promises, key, count)
  {
    if promises != [] {
      var last := |promises| - 1;
      OtherKeysWait(history, promises[..last], count, key);
      ResolvedStep(history, promises[last].wait, count);
    }
  }

  lemma {:induction false} UnfiledReleasesNothing(history: seq<Event>, promises: seq<Promise>, count: nat)
    requires count < |history| && LivePromises(history, promises)
    requires KeyOfEvent(history[count]).None?
    requires !history[count].ChildCompleted? && !history[count].ChildFailed?
    ensures Releases(history, promises, count) == []
  {
    if promises != [] {
      var last := |promises| - 1;
      UnfiledReleasesNothing(history, promises[..last], count);
      assert LivePromise(history, promises[last]);
    }
  }

  // ---- the same knowledge, on a longer history -------------------------------

  lemma {:induction false} KnowledgeStable(history: seq<Event>, more: seq<Event>, count: nat)
    requires count <= |history|
    ensures KnowledgeOf(history + more, count) == KnowledgeOf(history, count)
  {
    if count > 0 {
      KnowledgeStable(history, more, count - 1);
    }
  }

  lemma {:induction false} PendingStable(history: seq<Event>, more: seq<Event>, left: seq<Promise>, right: seq<Promise>,
                                         key: Key, count: nat)
    requires count <= |history| && SamePromises(|history|, left, right)
    ensures Pending(history + more, right, key, count) == Pending(history, left, key, count)
  {
    if left != [] {
      var last := |left| - 1;
      PendingStable(history, more, left[..last], right[..last], key, count);
      assert SamePromise(|history|, left[last], right[last]);
      FindStable(history, more, left[last].wait);
    }
  }
}
