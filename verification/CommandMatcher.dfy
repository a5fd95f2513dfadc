/**
 Positional matching of the commands replaying code issues against the commands
 the history recorded (packages/core/src/workflow/command-matcher.ts).
 */
module CommandMatching {
  import opened WorkflowTypes

  /** The command an event records, if it records one. */
  function RecordedCommandOf(event: Event): Option<CommandShape> {
    match event
    case StepScheduled(stepId, stepType, input) => Some(StepShape(stepId, stepType, input))
    case TimerStarted(timerId, _, durationMs) => Some(TimerShape(timerId, durationMs))
    case ChildStarted(childId, workflowType, input, _, _, _) => Some(ChildShape(childId, workflowType, input))
    case PatchRecorded(patchId, _) => Some(PatchShape(patchId))
    case _ => None
  }

  /** The commands a history recorded, in order. */
  function Shapes(history: seq<Event>): seq<CommandShape> {
    if history == [] then []
    else
      var last := |history| - 1;
      Shapes(history[..last]) +
      match RecordedCommandOf(history[last]) case Some(shape) => [shape] case None => []
  }

  lemma {:induction false} ShapesConcat(left: seq<Event>, right: seq<Event>)
    ensures Shapes(left + right) == Shapes(left) + Shapes(right)
  {
    if right == [] {
      assert left + right == left;
    } else {
      var last := |right| - 1;
      ShapesConcat(left, right[..last]);
      assert (left + right)[..|left + right| - 1] == left + right[..last];
    }
  }

  predicate SameCommand(recorded: CommandShape, issued: CommandShape) {
    match recorded
    case StepShape(_, _, _) => recorded == issued
    case TimerShape(id, durationMs) =>
      issued.TimerShape? && issued.id == id && (durationMs.None? || durationMs == issued.durationMs)
    case ChildShape(_, _, _) => recorded == issued
    case PatchShape(_) => recorded == issued
  }

  /** What the matcher says about one issued command. */
  datatype IssueResult = Known | New | Mismatch(error: WorkflowError)

  /** The verdict on issuing `shape` after `issued` other commands were issued. */
  function IssueVerdict(recorded: seq<CommandShape>, issued: nat, shape: CommandShape): IssueResult {
    if |recorded| <= issued then New
    else if SameCommand(recorded[issued], shape) then Known
    else Mismatch(NonDeterminism(Some(recorded[issued]), Some(shape)))
  }

  /** The error for recorded commands the code never issued, if there are any. */
  function UnissuedError(recorded: seq<CommandShape>, issued: nat): Option<WorkflowError> {
    if issued < |recorded| then Some(NonDeterminism(Some(recorded[issued]), None)) else None
  }

  /** Code that issued `shapes`, in this order, was never refused and left nothing recorded unissued. */
  predicate Accepts(recorded: seq<CommandShape>, shapes: seq<CommandShape>) {
    (forall k :: 0 <= k < |shapes| ==> !IssueVerdict(recorded, k, shapes[k]).Mismatch?) && UnissuedError(recorded, |shapes|).None?
  }

  /** Code is accepted exactly when it issues every recorded command again, in the recorded order, before anything new. */
  lemma {:induction false} AcceptedExactlyWhenRepeated(recorded: seq<CommandShape>, shapes: seq<CommandShape>)
    ensures Accepts(recorded, shapes) <==>
            |recorded| <= |shapes| && forall k :: 0 <= k < |recorded| ==> SameCommand(recorded[k], shapes[k])
  {
    hide SameCommand;
    if Accepts(recorded, shapes) {
      forall k | 0 <= k < |recorded|
        ensures SameCommand(recorded[k], shapes[k])
      {
        assert !IssueVerdict(recorded, k, shapes[k]).Mismatch?;
      }
    }
  }

  class CommandMatcher {
    var recorded: seq<CommandShape>
    var issued: nat

    constructor ()
      ensures recorded == [] && issued == 0
    {
      recorded := [];
      issued := 0;
    }

    method Record(shapes: seq<CommandShape>)
      modifies this
      ensures recorded == old(recorded) + shapes && issued == old(issued)
    {
      recorded := recorded + shapes;
    }

    method Issue(shape: CommandShape) returns (result: IssueResult)
      modifies this
      ensures recorded == old(recorded) && issued == old(issued) + 1
      ensures result == IssueVerdict(recorded, old(issued), shape)
    {
      var position := issued;
      issued := issued + 1;
      if |recorded| <= position {
        return New;
      }
      var expected := recorded[position];
      if !SameCommand(expected, shape) {
        return Mismatch(NonDeterminism(Some(expected), Some(shape)));
      }
      return Known;
    }

    /** No error exactly when every recorded command was issued; otherwise the first that was not is named. */
    method AssertAllIssued() returns (error: Option<WorkflowError>)
      ensures error.None? <==> |recorded| <= issued
      ensures error.Some? ==> issued < |recorded| && error.value == NonDeterminism(Some(recorded[issued]), None)
      ensures error == UnissuedError(recorded, issued)
    {
      if issued < |recorded| {
        error := Some(NonDeterminism(Some(recorded[issued]), None));
      } else {
        error := None;
      }
    }
  }
}
