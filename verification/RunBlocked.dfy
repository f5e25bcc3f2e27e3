/** Which tasks can never start. */
module RunBlocked {
  import opened Workflow
  import opened Planning
  import opened Machine
  import opened SafetyProof
  import Go = GreedyPlanner

  /** A set of task names that hold each other up: every entry of each name waits for a dependency that is
      in the set or that no task of the workflow provides. */
  ghost predicate Blocked(spec: Spec, b: set<string>) {
    && b <= Names(spec)
    && forall i :: 0 <= i < |spec.tasks| && spec.tasks[i].name in b ==> WaitsFor(spec, spec.tasks[i], b)
  }

  ghost predicate WaitsFor(spec: Spec, task: TaskTemplate, b: set<string>) {
    exists k :: 0 <= k < |task.dependencies| && (task.dependencies[k] in b || task.dependencies[k] !in Names(spec))
  }

  ghost predicate AllPending(tasks: Statuses, b: set<string>) {
    forall t :: t in b && t in tasks ==> tasks[t].phase == Pending
  }

  ghost predicate Untouched(s: State, b: set<string>) {
    && AllPending(s.status.tasks, b)
    && AllPending(View(s), b)
    && (s.activity.Spawning? ==> forall a :: a in s.activity.plan ==> a.task !in b)
    && (forall n :: n in s.pods ==> s.pods[n].task !in b)
  }

  lemma BlockedIsNotEligible(spec: Spec, tasks: Statuses, b: set<string>, i: nat)
    requires Blocked(spec, b) && AllPending(tasks, b) && tasks.Keys == Names(spec)
    requires i < |spec.tasks| && spec.tasks[i].name in b
    ensures !Go.Eligible(spec.tasks[i], tasks)
  {
    var task := spec.tasks[i];
    assert WaitsFor(spec, task, b);
    var k :| 0 <= k < |task.dependencies| && (task.dependencies[k] in b || task.dependencies[k] !in Names(spec));
    assert !Go.Satisfied(task.dependencies[k], tasks);
  }

  lemma BlockedIsNotPlanned(cfg: Config, tasks: Statuses, predictions: Predictions, b: set<string>)
    requires Blocked(cfg.spec, b) && AllPending(tasks, b) && tasks.Keys == Names(cfg.spec)
    ensures forall a :: a in PlanWith(cfg.planner, cfg.spec, tasks, predictions) ==> a.task !in b
  {
    forall a | a in PlanWith(cfg.planner, cfg.spec, tasks, predictions)
      ensures a.task !in b
    {
      PlanIsEligible(cfg.planner, cfg.spec, tasks, predictions, a);
      var i :| 0 <= i < |cfg.spec.tasks| && Go.Eligible(cfg.spec.tasks[i], tasks) && cfg.spec.tasks[i].name == a.task;
      if a.task in b {
        BlockedIsNotEligible(cfg.spec, tasks, b, i);
      }
    }
  }

  lemma SpawnUntouched(cfg: Config, s: State, outcome: CreateOutcome, b: set<string>)
    requires Untouched(s, b) && s.activity.Spawning? && s.activity.plan != []
    ensures Untouched(SpawnFirst(cfg, s, outcome), b)
  {
    assert s.activity.plan[0] in s.activity.plan;
    assert forall a :: a in s.activity.plan[1..] ==> a in s.activity.plan;
  }

  lemma StepUntouched(cfg: Config, s: State, step: Step, b: set<string>)
    requires Shape(cfg, s) && Blocked(cfg.spec, b) && Untouched(s, b) && Enabled(cfg, s, step)
    ensures Untouched(Do(cfg, s, step), b)
  {
    match step
    case Initialise =>
    case Begin(_) =>
    case SyncOne =>
    case Judge(predictions) => BlockedIsNotPlanned(cfg, s.activity.tasks, predictions, b);
    case Spawn(outcome) => SpawnUntouched(cfg, s, outcome, b);
    case Finish =>
    case Abort =>
    case PodMoves(_, _) =>
  }

  /** A blocked task never leaves Pending and never gets a pod, in any run whatsoever. */
  lemma {:induction false} BlockedNeverStarts(cfg: Config, states: seq<State>, steps: seq<Step>, i: nat, b: set<string>)
    requires IsRun(cfg, states, steps) && i < |states| && Blocked(cfg.spec, b)
    ensures Untouched(states[i], b)
  {
    if i > 0 {
      BlockedNeverStarts(cfg, states, steps, i - 1, b);
      RunsAreSafe(cfg, states, steps, i - 1);
      StepUntouched(cfg, states[i - 1], steps[i - 1], b);
    }
  }

  // ---- Cycles ----

  ghost predicate DependsOn(spec: Spec, a: string, b: string) {
    exists i :: 0 <= i < |spec.tasks| && spec.tasks[i].name == a && b in spec.tasks[i].dependencies
  }

  /** A chain of tasks, each depending on the next. */
  ghost predicate Chain(spec: Spec, path: seq<string>) {
    && path != []
    && (forall i :: 0 <= i < |path| ==> path[i] in Names(spec))
    && (forall i :: 0 <= i < |path| - 1 ==> DependsOn(spec, path[i], path[i + 1]))
  }

  ghost predicate Cycle(spec: Spec, path: seq<string>) {
    Chain(spec, path) && DependsOn(spec, path[|path| - 1], path[0])
  }

  lemma CycleIsBlocked(spec: Spec, path: seq<string>)
    requires UniqueNames(spec) && Cycle(spec, path)
    ensures Blocked(spec, set i | 0 <= i < |path| :: path[i])
  {
    var b := set i | 0 <= i < |path| :: path[i];
    forall i | 0 <= i < |spec.tasks| && spec.tasks[i].name in b
      ensures WaitsFor(spec, spec.tasks[i], b)
    {
      var p :| 0 <= p < |path| && path[p] == spec.tasks[i].name;
      var next := if p + 1 < |path| then path[p + 1] else path[0];
      assert DependsOn(spec, path[p], next);
      var j :| 0 <= j < |spec.tasks| && spec.tasks[j].name == path[p] && next in spec.tasks[j].dependencies;
      assert i == j;
      var k :| 0 <= k < |spec.tasks[i].dependencies| && spec.tasks[i].dependencies[k] == next;
      assert next in b;
    }
  }

  lemma CycleBlocks(spec: Spec, path: seq<string>)
    requires UniqueNames(spec) && Cycle(spec, path)
    ensures exists b :: Blocked(spec, b) && b != {}
  {
    var b := set i | 0 <= i < |path| :: path[i];
    CycleIsBlocked(spec, path);
    assert path[0] in b;
  }

  lemma CompletedLeavesNoneBlocked(cfg: Config, states: seq<State>, steps: seq<Step>, i: nat, b: set<string>)
    requires IsRun(cfg, states, steps) && i < |states| && states[i].status.phase == Completed
    requires Blocked(cfg.spec, b)
    ensures b == {}
  {
    RunsAreSafe(cfg, states, steps, i);
    BlockedNeverStarts(cfg, states, steps, i, b);
    forall t | t in Names(cfg.spec)
      ensures t !in b
    {
      assert states[i].status.tasks[t].phase == Succeeded;
    }
  }

  /** A workflow that completes in some run has no blocked tasks: in particular its dependency graph is
      acyclic and no dependency is missing. */
  lemma CompletedImpliesAcyclic(cfg: Config, states: seq<State>, steps: seq<Step>, i: nat)
    requires IsRun(cfg, states, steps) && i < |states| && states[i].status.phase == Completed
    ensures forall b :: Blocked(cfg.spec, b) ==> b == {}
    ensures UniqueNames(cfg.spec) ==> forall path :: !Cycle(cfg.spec, path)
  {
    forall b | Blocked(cfg.spec, b)
      ensures b == {}
    {
      CompletedLeavesNoneBlocked(cfg, states, steps, i, b);
    }
    if UniqueNames(cfg.spec) {
      forall path
        ensures !Cycle(cfg.spec, path)
      {
        if Cycle(cfg.spec, path) {
          CycleBlocks(cfg.spec, path);
        }
      }
    }
  }

  // ---- The task without a name ----

  ghost predicate NamelessUnfinished(s: State) {
    && ("" in s.status.tasks ==> s.status.tasks[""].phase in {Pending, Running})
    && ("" in View(s) ==> View(s)[""].phase in {Pending, Running})
  }

  lemma StepNameless(cfg: Config, s: State, step: Step)
    requires NamelessUnfinished(s) && Enabled(cfg, s, step)
    ensures NamelessUnfinished(Do(cfg, s, step))
  {
    match step
    case Initialise =>
    case Begin(_) =>
    case SyncOne =>
    case Judge(_) =>
    case Spawn(_) =>
    case Finish =>
    case Abort =>
    case PodMoves(_, _) =>
  }

  /** The sync skips pods whose label is empty, so the end of a task named "" is never noticed. */
  lemma {:induction false} NamelessNeverFinishes(cfg: Config, states: seq<State>, steps: seq<Step>, i: nat)
    requires IsRun(cfg, states, steps) && i < |states|
    ensures NamelessUnfinished(states[i])
  {
    if i > 0 {
      NamelessNeverFinishes(cfg, states, steps, i - 1);
      StepNameless(cfg, states[i - 1], steps[i - 1]);
    }
  }

  /** Tasks whose pod names clash cannot all succeed: there is only one pod, and it bears one label. */
  lemma CompletedImpliesLowerUnique(cfg: Config, states: seq<State>, steps: seq<Step>, i: nat)
    requires IsRun(cfg, states, steps) && i < |states| && states[i].status.phase == Completed && UniqueNames(cfg.spec)
    ensures LowerUnique(cfg.spec)
  {
    RunsAreSafe(cfg, states, steps, i);
    forall j, k | 0 <= j < k < |cfg.spec.tasks|
      ensures Lower(cfg.spec.tasks[j].name) != Lower(cfg.spec.tasks[k].name)
    {
      PodNameClash(cfg.workflow, cfg.spec.tasks[j].name, cfg.spec.tasks[k].name);
      assert PodIs(cfg, states[i].pods, cfg.spec.tasks[j].name, PodSucceeded);
      assert PodIs(cfg, states[i].pods, cfg.spec.tasks[k].name, PodSucceeded);
    }
  }
}
