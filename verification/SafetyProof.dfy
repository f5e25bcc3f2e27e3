/** Every reachable state is safe: one lemma per kind of step. */
module SafetyProof {
  import opened Loads
  import opened Workflow
  import opened Planning
  import opened Machine
  import Go = GreedyPlanner

  /** Pods are never deleted, never change hands, and stay as they finished. */
  ghost predicate PodsGrow(before: Pods, after: Pods) {
    forall n :: n in before ==>
      && n in after
      && after[n].task == before[n].task
      && (TerminalPod(before[n].phase) ==> after[n].phase == before[n].phase)
  }

  lemma StepGrowsPods(cfg: Config, s: State, step: Step)
    requires Enabled(cfg, s, step)
    ensures PodsGrow(s.pods, Do(cfg, s, step).pods)
  {
    match step
    case Initialise =>
    case Begin(_) =>
    case SyncOne =>
    case Judge(_) =>
    case Spawn(_) =>
    case Finish =>
    case Abort =>
    case PodMoves(_, _) =>
  }

  lemma GrowthKeepsStart(cfg: Config, before: Pods, after: Pods, t: string)
    requires PodsGrow(before, after) && MayStart(cfg, before, t)
    ensures MayStart(cfg, after, t)
  {
    var i :| 0 <= i < |cfg.spec.tasks| && cfg.spec.tasks[i].name == t && DependenciesDone(cfg, before, i);
    forall k | 0 <= k < |cfg.spec.tasks[i].dependencies|
      ensures PodIs(cfg, after, cfg.spec.tasks[i].dependencies[k], PodSucceeded)
    {
      assert PodIs(cfg, before, cfg.spec.tasks[i].dependencies[k], PodSucceeded);
    }
    assert DependenciesDone(cfg, after, i);
  }

  lemma GrowthKeepsBacking(cfg: Config, before: Pods, after: Pods, tasks: Statuses)
    requires PodsGrow(before, after) && Backed(cfg, before, tasks)
    ensures Backed(cfg, after, tasks)
  {
    forall t | t in tasks && tasks[t].phase == Succeeded
      ensures PodIs(cfg, after, t, PodSucceeded)
    {
      assert PodIs(cfg, before, t, PodSucceeded);
    }
    forall t | t in tasks && tasks[t].phase == Failed
      ensures PodIs(cfg, after, t, PodFailed)
    {
      assert PodIs(cfg, before, t, PodFailed);
    }
  }

  lemma GrowthKeepsOrder(cfg: Config, before: Pods, after: Pods)
    requires PodsGrow(before, after) && Ordered(cfg, before)
    requires forall n :: n in after && n !in before ==> MayStart(cfg, before, after[n].task)
    ensures Ordered(cfg, after)
  {
    forall n | n in after
      ensures MayStart(cfg, after, after[n].task)
    {
      GrowthKeepsStart(cfg, before, after, after[n].task);
    }
  }

  lemma GrowthKeepsPlan(cfg: Config, before: Pods, after: Pods, plan: seq<TaskAllocation>)
    requires PodsGrow(before, after) && forall a :: a in plan ==> MayStart(cfg, before, a.task)
    ensures forall a :: a in plan ==> MayStart(cfg, after, a.task)
  {
    forall a | a in plan
      ensures MayStart(cfg, after, a.task)
    {
      GrowthKeepsStart(cfg, before, after, a.task);
    }
  }

  lemma InitialiseSafe(cfg: Config, s: State)
    requires Safe(cfg, s) && Enabled(cfg, s, Initialise)
    ensures Safe(cfg, Do(cfg, s, Initialise))
  {
  }

  lemma BeginSafe(cfg: Config, s: State, listing: seq<Pod>)
    requires Safe(cfg, s) && Enabled(cfg, s, Begin(listing))
    ensures Safe(cfg, Do(cfg, s, Begin(listing)))
  {
  }

  /** Folding in a pod keeps the statuses backed by pods, and only moves a phase forward. */
  lemma SyncTaskBacked(cfg: Config, pods: Pods, tasks: Statuses, p: Pod)
    requires PodsNamed(cfg, pods) && Backed(cfg, pods, tasks)
    requires p.name in pods && pods[p.name].task == p.task && (TerminalPod(p.phase) ==> pods[p.name].phase == p.phase)
    ensures SyncTask(tasks, p).Keys == tasks.Keys
    ensures Backed(cfg, pods, SyncTask(tasks, p))
    ensures forall t :: t in tasks ==> PhaseLe(tasks[t].phase, SyncTask(tasks, p)[t].phase)
  {
  }

  lemma SyncSafe(cfg: Config, s: State)
    requires Safe(cfg, s) && s.activity.Syncing? && s.activity.todo != []
    ensures Safe(cfg, SyncFirst(s))
  {
    var p, rest := s.activity.todo[0], s.activity.todo[1..];
    var tasks := s.activity.tasks;
    assert p in s.activity.todo;
    SyncTaskBacked(cfg, s.pods, tasks, p);
    assert forall q :: q in rest ==> q in s.activity.todo;
    forall t | t in s.status.tasks
      ensures PhaseLe(s.status.tasks[t].phase, SyncTask(tasks, p)[t].phase)
    {
      assert PhaseLe(tasks[t].phase, SyncTask(tasks, p)[t].phase);
    }
  }

  lemma EndSafe(cfg: Config, s: State, phase: WorkflowPhase, usage: Load)
    requires Safe(cfg, s) && s.activity.Syncing?
    requires phase == Completed ==> AllSucceeded(s.activity.tasks)
    requires phase == WorkflowFailed ==> AnyFailed(s.activity.tasks)
    requires TerminalWorkflow(phase)
    ensures Safe(cfg, s.(status := Status(phase, s.activity.tasks, usage), activity := Idle))
  {
  }

  lemma PlanningSafe(cfg: Config, s: State, plan: seq<TaskAllocation>)
    requires Safe(cfg, s) && s.activity.Syncing?
    requires forall a :: a in plan ==>
               a.task in s.activity.tasks && s.activity.tasks[a.task].phase == Pending && MayStart(cfg, s.pods, a.task)
    ensures Safe(cfg, s.(activity := Spawning(s.activity.tasks, plan)))
  {
  }

  lemma JudgeSafe(cfg: Config, s: State, predictions: Predictions)
    requires Safe(cfg, s) && s.activity.Syncing?
    ensures Safe(cfg, JudgeTasks(cfg, s, predictions))
  {
    if AnyFailed(s.activity.tasks) {
      EndSafe(cfg, s, WorkflowFailed, s.status.usage);
    } else if AllSucceeded(s.activity.tasks) && s.activity.tasks != map[] {
      EndSafe(cfg, s, Completed, Load(0, 0));
    } else {
      PlanStepSafe(cfg, s, predictions);
    }
  }

  lemma PlanStepSafe(cfg: Config, s: State, predictions: Predictions)
    requires Safe(cfg, s) && s.activity.Syncing?
    ensures Safe(cfg, s.(activity := Spawning(s.activity.tasks,
                                              PlanWith(cfg.planner, cfg.spec, s.activity.tasks, predictions))))
  {
    var plan := PlanWith(cfg.planner, cfg.spec, s.activity.tasks, predictions);
    forall a | a in plan
      ensures a.task in s.activity.tasks && s.activity.tasks[a.task].phase == Pending && MayStart(cfg, s.pods, a.task)
    {
      PlannedMayStart(cfg, s, predictions, a);
    }
    PlanningSafe(cfg, s, plan);
  }

  lemma PlannedMayStart(cfg: Config, s: State, predictions: Predictions, a: TaskAllocation)
    requires Safe(cfg, s) && s.activity.Syncing?
    requires a in PlanWith(cfg.planner, cfg.spec, s.activity.tasks, predictions)
    ensures a.task in s.activity.tasks && s.activity.tasks[a.task].phase == Pending
    ensures MayStart(cfg, s.pods, a.task)
  {
    var tasks := s.activity.tasks;
    PlanIsEligible(cfg.planner, cfg.spec, tasks, predictions, a);
    var i :| 0 <= i < |cfg.spec.tasks| && Go.Eligible(cfg.spec.tasks[i], tasks) && cfg.spec.tasks[i].name == a.task;
    assert a.task in Names(cfg.spec);
    forall k | 0 <= k < |cfg.spec.tasks[i].dependencies|
      ensures PodIs(cfg, s.pods, cfg.spec.tasks[i].dependencies[k], PodSucceeded)
    {
      assert Go.Satisfied(cfg.spec.tasks[i].dependencies[k], tasks);
    }
    assert DependenciesDone(cfg, s.pods, i);
  }

  lemma CreatePodSafe(cfg: Config, pods: Pods, a: TaskAllocation)
    requires PodsNamed(cfg, pods) && Ordered(cfg, pods)
    requires a.task in Names(cfg.spec) && MayStart(cfg, pods, a.task)
    ensures PodsGrow(pods, CreatePod(cfg.workflow, pods, a))
    ensures PodsNamed(cfg, CreatePod(cfg.workflow, pods, a))
    ensures Ordered(cfg, CreatePod(cfg.workflow, pods, a))
  {
    GrowthKeepsOrder(cfg, pods, CreatePod(cfg.workflow, pods, a));
  }

  /** Working on with more pods and a shorter plan. */
  lemma SpawningSafe(cfg: Config, s: State, pods: Pods, tasks: Statuses, plan: seq<TaskAllocation>)
    requires Safe(cfg, s) && s.activity.Spawning?
    requires PodsGrow(s.pods, pods) && PodsNamed(cfg, pods) && Ordered(cfg, pods)
    requires tasks.Keys == s.activity.tasks.Keys
    requires forall t :: t in tasks && tasks[t] != s.activity.tasks[t] ==>
               s.activity.tasks[t].phase in {Pending, Running} && tasks[t].phase == Running
    requires forall a :: a in plan ==> a in s.activity.plan
    ensures Safe(cfg, s.(pods := pods, activity := Spawning(tasks, plan)))
  {
    GrowthKeepsBacking(cfg, s.pods, pods, s.status.tasks);
    GrowthKeepsBacking(cfg, s.pods, pods, s.activity.tasks);
    GrowthKeepsPlan(cfg, s.pods, pods, s.activity.plan);
  }

  lemma SpawnSafe(cfg: Config, s: State, outcome: CreateOutcome)
    requires Safe(cfg, s) && Enabled(cfg, s, Spawn(outcome))
    ensures Safe(cfg, SpawnFirst(cfg, s, outcome))
  {
    var a, rest := s.activity.plan[0], s.activity.plan[1..];
    var tasks, pods := s.activity.tasks, s.pods;
    assert a in s.activity.plan;
    assert forall b :: b in rest ==> b in s.activity.plan;
    match outcome
    case Created =>
      CreatePodSafe(cfg, pods, a);
      SpawningSafe(cfg, s, CreatePod(cfg.workflow, pods, a), Launch(cfg.workflow, tasks, a), rest);
    case Refused =>
      SpawningSafe(cfg, s, pods, tasks, rest);
    case Lost =>
      CreatePodSafe(cfg, pods, a);
      SpawningSafe(cfg, s, CreatePod(cfg.workflow, pods, a), tasks, rest);
  }

  lemma FinishSafe(cfg: Config, s: State)
    requires Safe(cfg, s) && s.activity.Spawning?
    ensures Safe(cfg, WriteRunning(s))
  {
  }

  lemma AbortSafe(cfg: Config, s: State)
    requires Safe(cfg, s)
    ensures Safe(cfg, s.(activity := Idle))
  {
  }

  lemma PodMovesSafe(cfg: Config, s: State, name: string, phase: PodPhase)
    requires Safe(cfg, s) && name in s.pods && !TerminalPod(s.pods[name].phase)
    ensures Safe(cfg, MovePod(s, name, phase))
  {
    var after := MovePod(s, name, phase).pods;
    assert PodsGrow(s.pods, after);
    GrowthKeepsBacking(cfg, s.pods, after, s.status.tasks);
    GrowthKeepsBacking(cfg, s.pods, after, View(s));
    GrowthKeepsOrder(cfg, s.pods, after);
    if s.activity.Spawning? {
      GrowthKeepsPlan(cfg, s.pods, after, s.activity.plan);
    }
  }

  lemma StepSafe(cfg: Config, s: State, step: Step)
    requires Safe(cfg, s) && Enabled(cfg, s, step)
    ensures Safe(cfg, Do(cfg, s, step))
  {
    match step
    case Initialise => InitialiseSafe(cfg, s);
    case Begin(listing) => BeginSafe(cfg, s, listing);
    case SyncOne => SyncSafe(cfg, s);
    case Judge(predictions) => JudgeSafe(cfg, s, predictions);
    case Spawn(outcome) => SpawnSafe(cfg, s, outcome);
    case Finish => FinishSafe(cfg, s);
    case Abort => AbortSafe(cfg, s);
    case PodMoves(name, phase) => PodMovesSafe(cfg, s, name, phase);
  }

  /** Every state of every run is safe, however crashes, lost writes and pod moves are interleaved. */
  lemma {:induction false} RunsAreSafe(cfg: Config, states: seq<State>, steps: seq<Step>, i: nat)
    requires IsRun(cfg, states, steps) && i < |states|
    ensures Safe(cfg, states[i])
  {
    if i > 0 {
      RunsAreSafe(cfg, states, steps, i - 1);
      StepSafe(cfg, states[i - 1], steps[i - 1]);
    }
  }
}
