/** The baseline inference engine: it passes the user's hints through as predictions. */
module Baseline {
  import opened Workflow
  import Go = GreedyPlanner

  /** The prediction for a name is the hint of the last entry of that name that has one. */
  function Predicted(tasks: seq<TaskTemplate>): Predictions {
    if tasks == [] then map[]
    else
      var last := tasks[|tasks| - 1];
      var before := Predicted(tasks[..|tasks| - 1]);
      if Go.HasHint(last) then before[last.name := last.baseResources] else before
  }

  method Predict(spec: Spec) returns (predictions: Predictions)
    ensures predictions == Predicted(spec.tasks)
  {
    predictions := map[];
    for i := 0 to |spec.tasks|
      invariant predictions == Predicted(spec.tasks[..i])
    {
      assert spec.tasks[..i + 1][..i] == spec.tasks[..i];
      var task := spec.tasks[i];
      if task.baseResources.requests != map[] || task.baseResources.limits != map[] {
        predictions := predictions[task.name := task.baseResources];
      }
    }
    assert spec.tasks[..|spec.tasks|] == spec.tasks;
  }

  /** The i-th entry is the last one of this name that asks for or limits anything. */
  ghost predicate LastHint(tasks: seq<TaskTemplate>, name: string, i: nat) {
    && i < |tasks| && tasks[i].name == name && Go.HasHint(tasks[i])
    && forall k :: i < k < |tasks| && tasks[k].name == name ==> !Go.HasHint(tasks[k])
  }

  ghost predicate IsPredicted(tasks: seq<TaskTemplate>, name: string) {
    exists i: nat ::
      LastHint(tasks, name, i) && name in Predicted(tasks) && Predicted(tasks)[name] == tasks[i].baseResources
  }

  lemma EarlierHint(tasks: seq<TaskTemplate>, name: string, i: nat)
    requires tasks != [] && LastHint(tasks[..|tasks| - 1], name, i)
    requires tasks[|tasks| - 1].name != name || !Go.HasHint(tasks[|tasks| - 1])
    ensures LastHint(tasks, name, i) && tasks[..|tasks| - 1][i] == tasks[i]
  {
    var front := tasks[..|tasks| - 1];
    assert forall k :: 0 <= k < |front| ==> front[k] == tasks[k];
  }

  lemma {:induction false} PredictedIff(tasks: seq<TaskTemplate>, name: string)
    ensures name in Predicted(tasks) <==> exists i :: 0 <= i < |tasks| && tasks[i].name == name && Go.HasHint(tasks[i])
  {
    if tasks != [] {
      var front := tasks[..|tasks| - 1];
      PredictedIff(front, name);
      assert forall k :: 0 <= k < |front| ==> front[k] == tasks[k];
    }
  }

  lemma {:induction false} PredictedIsLast(tasks: seq<TaskTemplate>, name: string)
    requires name in Predicted(tasks)
    ensures IsPredicted(tasks, name)
  {
    var front, n := tasks[..|tasks| - 1], |tasks| - 1;
    if tasks[n].name == name && Go.HasHint(tasks[n]) {
      assert LastHint(tasks, name, n);
    } else {
      PredictedIsLast(front, name);
      var i: nat :| LastHint(front, name, i) && Predicted(front)[name] == front[i].baseResources;
      EarlierHint(tasks, name, i);
    }
  }

  /** A name has a prediction exactly when some entry of that name carries a hint, and the prediction is
      the last such hint. */
  lemma PredictedIsHint(tasks: seq<TaskTemplate>, name: string)
    ensures name in Predicted(tasks) <==> exists i :: 0 <= i < |tasks| && tasks[i].name == name && Go.HasHint(tasks[i])
    ensures name in Predicted(tasks) ==> IsPredicted(tasks, name)
  {
    PredictedIff(tasks, name);
    if name in Predicted(tasks) {
      PredictedIsLast(tasks, name);
    }
  }

  /** With unique names the Go planner resolves every entry to the same resources with the baseline's
      predictions as with none at all. */
  lemma BaselineChangesNothing(spec: Spec, i: nat)
    requires UniqueNames(spec) && i < |spec.tasks|
    ensures Go.Resolve(spec.tasks[i], Predicted(spec.tasks)) == Go.Resolve(spec.tasks[i], map[])
  {
    PredictedIsHint(spec.tasks, spec.tasks[i].name);
  }
}
