/**
 What no transaction of the run store takes back: recorded results, the closing of a run, and
 its tasks, of which a closing withdraws only those that wait.
 */
module RunProgress {
  import opened WorkflowTypes
  import opened RunTables
  import opened CloseCascade
  import opened RunFacts
  import opened FamilyTree

  /**
   Results stay, a closed run stays closed, tasks stay as they are but for waiting ones a
   closing withdraws, and new tasks are nobody's yet.
   */
  ghost predicate RunAdvances(before: Run, after: Run) {
    before.results.Keys <= after.results.Keys && (after.IsRunning() ==> before.IsRunning()) &&
    |before.tasks| <= |after.tasks| &&
    (forall i :: 0 <= i < |before.tasks| ==> TaskAdvances(before.tasks[i], after.tasks[i], after.IsRunning())) &&
    forall i :: |before.tasks| <= i < |after.tasks| ==> !after.tasks[i].state.TaskLeased?
  }

  predicate TaskAdvances(before: Task, after: Task, open: bool) {
    after.kind == before.kind &&
    (after.state == before.state || (before.state == TaskPending && after.state == TaskCompleted && !open))
  }

  lemma StandsStill(run: Run)
    ensures RunAdvances(run, run)
  {
  }

  /** One transaction after another takes nothing back either. */
  lemma {:induction false} AdvancesOn(before: Run, mid: Run, after: Run)
    requires RunAdvances(before, mid) && RunAdvances(mid, after)
    ensures RunAdvances(before, after)
  {
    forall i | 0 <= i < |before.tasks|
      ensures TaskAdvances(before.tasks[i], after.tasks[i], after.IsRunning())
    {
      assert TaskAdvances(before.tasks[i], mid.tasks[i], mid.IsRunning()) && TaskAdvances(mid.tasks[i], after.tasks[i], after.IsRunning());
    }
    forall i | |before.tasks| <= i < |after.tasks|
      ensures !after.tasks[i].state.TaskLeased?
    {
      if i < |mid.tasks| {
        assert TaskAdvances(mid.tasks[i], after.tasks[i], after.IsRunning());
      }
    }
  }

  /** Whatever closing a run makes of another, or of itself, it takes nothing back. */
  lemma {:induction false} ClosingAdvances(base: Runs, r: nat, x: nat, now: int)
    requires ReadyToClose(base, r) && x in base
    ensures RunAdvances(base[x], After(base, r, x, now))
  {
    var run := base[x];
    FateKeepsStanding(base, r, x, now);
    FateTables(base, r, x, now);
    hide After, ReadyToClose, Doomed, Standing;
  }

  lemma {:induction false} FateTables(base: Runs, r: nat, x: nat, now: int)
    requires ReadyToClose(base, r) && x in base
    ensures var run, after := base[x], After(base, r, x, now);
            after.results == run.results &&
            ((after.tasks == Withdrawn(run.tasks) && !after.IsRunning()) || after.tasks == run.tasks ||
             after.tasks == run.tasks + [Task(WorkflowTask, TaskPending)])
  {
    var run := base[x];
    match FateOf(base, r, x)
    case Closes => ClosedRowFolds(run);
    case IsEnded =>
      assert RunOk(run);
      OkIsOpen(run);
      ClosingFolds(run, RunTerminated(Some("parent run closed")), now);
    case _ =>
    hide Run.Closed, ReadyToClose, ChildKeyOf, Count, ChildOutcome, FateOf;
  }

  /** Recording a result, firing a timer, delivering a signal or a failed attempt take nothing back. */
  lemma {:induction false} TransactionsAdvance(run: Run, stepId: nat, result: StepResult, exhausted: bool, event: Event, now: int)
    ensures RunAdvances(run, WithResult(run, stepId, result, exhausted, now))
    ensures RunAdvances(run, run.Append(event, now)) && RunAdvances(run, run.Append(event, now).Enqueue(WorkflowTask))
    ensures forall timerId :: WorkflowTimer(timerId) in run.timers ==> RunAdvances(run, WithFired(run, timerId, now, now))
  {
  }
}
