/**
 Facts about a single replay: it only stops hung or at rest, its promises are due where
 an event settles them, and an event no promise is due at can be skipped.
 */
module ReplayFacts {
  import opened WorkflowTypes
  import opened CommandMatching
  import opened Replay

  /** A run stopped: hung, or at rest. */
  predicate Stopped(a: Decider, m: Machine) {
    m.hung || a.AtRest(m)
  }

  lemma {:induction false} DrainStops(a: Decider, m: Machine, fed: nat, turns: nat)
    ensures Stopped(a, a.Drain(m, fed, turns))
    decreases turns
  {
    hide Decider.Turn;
    if !(m.hung || a.AtRest(m)) && turns != 0 {
      DrainStops(a, a.Turn(m, fed), fed, turns - 1);
    }
  }

  lemma {:induction false} RunStops(a: Decider, count: nat)
    requires count <= |a.history|
    ensures Stopped(a, a.RunTo(count))
  {
    hide Decider.Turn, Decider.Drain;
    if count == 0 {
      DrainStops(a, a.Fresh(), 0, a.settings.maxTurns);
    } else {
      RunStops(a, count - 1);
      var m := a.RunTo(count - 1);
      DrainStops(a, m.(queue := m.queue + Releases(a.history, m.promises, count - 1)), count, a.settings.maxTurns);
    }
  }

  /** Promises are due only where an event settles what they wait for. */
  predicate DuesSettle(history: seq<Event>, promises: seq<Promise>) {
    forall i :: 0 <= i < |promises| && promises[i].due.Some? ==>
      promises[i].due.value.index < |history| &&
      Settles(history, promises[i].due.value.index, promises[i].due.value.wait)
  }

  lemma {:induction false} DuesSettleCall(a: Decider, m: Machine, call: Call, fed: nat)
    requires DuesSettle(a.history, m.promises)
    ensures DuesSettle(a.history, a.AnswerCall(m, call, fed).0.promises)
  {
    hide Settles, Decider.Verdict, IssueVerdict, PatchIds, CommandCount, Times;
    match call
    case Sleep(duration) =>
    case Select(branches) =>
      var w := Winner(m.promises, branches);
    case _ =>
  }

  lemma {:induction false} DuesSettleDrain(a: Decider, m: Machine, fed: nat, turns: nat)
    requires DuesSettle(a.history, m.promises)
    ensures DuesSettle(a.history, a.Drain(m, fed, turns).promises)
    decreases turns
  {
    hide Decider.AnswerCall, DuesSettle;
    if !(m.hung || a.AtRest(m)) && turns != 0 {
      if a.handler.next(m.trace).Do? {
        DuesSettleCall(a, m, a.handler.next(m.trace).call, fed);
      }
      DuesSettleDrain(a, a.Turn(m, fed), fed, turns - 1);
    }
  }

  lemma {:induction false} DuesSettleRun(a: Decider, count: nat)
    requires count <= |a.history|
    ensures DuesSettle(a.history, a.RunTo(count).promises)
  {
    hide Decider.Drain;
    if count == 0 {
      DuesSettleDrain(a, a.Fresh(), 0, a.settings.maxTurns);
    } else {
      DuesSettleRun(a, count - 1);
      var m := a.RunTo(count - 1);
      DuesSettleDrain(a, m.(queue := m.queue + Releases(a.history, m.promises, count - 1)), count, a.settings.maxTurns);
    }
  }

  /** Except for selects, promises are due exactly where the history first settles what they wait for. */
  predicate DuesFound(a: Decider, promises: seq<Promise>) {
    forall i :: 0 <= i < |promises| && !promises[i].wait.OnSelect? ==> promises[i].due == a.DueOf(promises[i].wait)
  }

  lemma {:induction false} DuesFoundCall(a: Decider, m: Machine, call: Call, fed: nat)
    requires DuesFound(a, m.promises)
    ensures DuesFound(a, a.AnswerCall(m, call, fed).0.promises)
  {
    hide Decider.Verdict, IssueVerdict, PatchIds, CommandCount, Times, Winner;
    assert Find(a.history, OnNothing).None?;
    hide Settles, FindFrom, Find;
    match call
    case Sleep(duration) =>
    case _ =>
  }

  lemma {:induction false} DuesFoundDrain(a: Decider, m: Machine, fed: nat, turns: nat)
    requires DuesFound(a, m.promises)
    ensures DuesFound(a, a.Drain(m, fed, turns).promises)
    decreases turns
  {
    hide Decider.AnswerCall, DuesFound;
    if !(m.hung || a.AtRest(m)) && turns != 0 {
      if a.handler.next(m.trace).Do? {
        DuesFoundCall(a, m, a.handler.next(m.trace).call, fed);
      }
      DuesFoundDrain(a, a.Turn(m, fed), fed, turns - 1);
    }
  }

  lemma {:induction false} DuesFoundRun(a: Decider, count: nat)
    requires count <= |a.history|
    ensures DuesFound(a, a.RunTo(count).promises)
  {
    hide Decider.Drain, Decider.DueOf;
    if count == 0 {
      DuesFoundDrain(a, a.Fresh(), 0, a.settings.maxTurns);
    } else {
      DuesFoundRun(a, count - 1);
      var m := a.RunTo(count - 1);
      DuesFoundDrain(a, m.(queue := m.queue + Releases(a.history, m.promises, count - 1)), count, a.settings.maxTurns);
    }
  }

  lemma {:induction false} SkipStep(a: Decider, index: nat)
    requires index < |a.history| && Releases(a.history, a.RunTo(index).promises, index) == []
    ensures a.RunTo(index + 1) == a.RunTo(index)
  {
    hide Decider.Turn, Releases;
    var m := a.RunTo(index);
    RunStops(a, index);
    assert m.queue + [] == m.queue;
    assert m.(queue := m.queue + []) == m;
    assert a.RunTo(index + 1) == a.Deliver(m, index);
  }

  /** Events at which no promise is due can be skipped. */
  lemma {:induction false} SkipTo(a: Decider, start: nat, stop: nat)
    requires start <= stop <= |a.history|
    requires forall i :: start <= i < stop ==> Releases(a.history, a.RunTo(start).promises, i) == []
    ensures a.RunTo(stop) == a.RunTo(start)
  {
    hide Decider.Drain, Decider.Deliver, Releases;
    if start < stop {
      SkipTo(a, start, stop - 1);
      SkipStep(a, stop - 1);
    }
  }
}
