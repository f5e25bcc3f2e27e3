/** The resource budget over whole runs. */
module RunBudget {
  import opened Loads
  import opened Quantities
  import opened Workflow
  import opened Remote
  import opened Planning
  import opened Machine
  import opened SafetyProof

  // ---- How the pieces of a Reconcile change usage ----

  lemma NoUsage(tasks: Statuses, d: Dim)
    requires forall t :: t in tasks ==> tasks[t].phase != Running
    ensures Usage(tasks, d) == 0
  {
    SumOfZeros(Shares(tasks, d));
  }

  lemma SyncFreesUsage(tasks: Statuses, p: Pod, d: Dim)
    ensures Usage(SyncTask(tasks, p), d) <= Usage(tasks, d)
  {
    if SyncTask(tasks, p) != tasks {
      UsageUpdate(tasks, p.task, SyncTask(tasks, p)[p.task], d);
      assert SyncTask(tasks, p) == tasks[p.task := SyncTask(tasks, p)[p.task]];
    }
  }

  lemma SyncKeepsBudget(tasks: Statuses, p: Pod, planner: Planner, cap: Load)
    requires UsageFits(tasks, cap) && Tidy(planner, tasks)
    ensures UsageFits(SyncTask(tasks, p), cap) && Tidy(planner, SyncTask(tasks, p))
  {
    SyncFreesUsage(tasks, p, CPU);
    SyncFreesUsage(tasks, p, MEM);
  }

  lemma BudgetAfterLaunch(workflow: string, tasks: Statuses, plan: seq<TaskAllocation>, cap: Load)
    requires plan != [] && plan[0].task in tasks && BudgetKept(tasks, plan, cap)
    ensures BudgetKept(Launch(workflow, tasks, plan[0]), plan[1..], cap)
  {
    LaunchUsage(workflow, tasks, plan[0], CPU);
    LaunchUsage(workflow, tasks, plan[0], MEM);
  }

  lemma BudgetAfterSkip(tasks: Statuses, plan: seq<TaskAllocation>, cap: Load)
    requires plan != [] && BudgetKept(tasks, plan, cap)
    ensures BudgetKept(tasks, plan[1..], cap)
  {
  }

  // ---- The invariant ----

  ghost predicate WithinCap(cfg: Config, tasks: Statuses) {
    UsageFits(tasks, EffectiveCap(cfg.planner, cfg.spec)) && Tidy(cfg.planner, tasks)
  }

  ghost predicate Affords(cfg: Config, tasks: Statuses, plan: seq<TaskAllocation>) {
    && WithinCap(cfg, tasks)
    && BudgetKept(tasks, plan, EffectiveCap(cfg.planner, cfg.spec))
    && (cfg.planner != InProcess ==> AlignedPlan(plan))
  }

  ghost predicate Budgeted(cfg: Config, s: State) {
    && WithinCap(cfg, s.status.tasks)
    && WithinCap(cfg, View(s))
    && (s.activity.Spawning? ==> Affords(cfg, s.activity.tasks, s.activity.plan))
  }

  lemma FreshWithinCap(cfg: Config, tasks: Statuses)
    requires forall t :: t in tasks ==> tasks[t].phase != Running
    ensures WithinCap(cfg, tasks)
  {
    NoUsage(tasks, CPU);
    NoUsage(tasks, MEM);
  }

  lemma PlanningBudgeted(cfg: Config, tasks: Statuses, predictions: Predictions)
    requires WithinCap(cfg, tasks)
    ensures var plan := PlanWith(cfg.planner, cfg.spec, tasks, predictions);
            && BudgetKept(tasks, plan, EffectiveCap(cfg.planner, cfg.spec))
            && (cfg.planner != InProcess ==> AlignedPlan(plan))
  {
    var plan := PlanWith(cfg.planner, cfg.spec, tasks, predictions);
    PlanWithinBudget(cfg.planner, cfg.spec, tasks, predictions);
    if cfg.planner != InProcess {
      forall a | a in plan
        ensures Aligned(LoadOf(a.resources.requests))
      {
        PlanIsEligible(cfg.planner, cfg.spec, tasks, predictions, a);
      }
    }
  }

  lemma LaunchAffords(cfg: Config, tasks: Statuses, plan: seq<TaskAllocation>)
    requires Affords(cfg, tasks, plan) && plan != [] && plan[0].task in tasks
    ensures Affords(cfg, Launch(cfg.workflow, tasks, plan[0]), plan[1..])
  {
    var cap := EffectiveCap(cfg.planner, cfg.spec);
    assert plan[0] in plan && forall a :: a in plan[1..] ==> a in plan;
    BudgetAfterLaunch(cfg.workflow, tasks, plan, cap);
    KeptMeansFits(Launch(cfg.workflow, tasks, plan[0]), plan[1..], cap);
    LaunchTidy(cfg, tasks, plan[0]);
  }

  lemma LaunchTidy(cfg: Config, tasks: Statuses, a: TaskAllocation)
    requires Tidy(cfg.planner, tasks)
    requires cfg.planner != InProcess ==> Aligned(LoadOf(a.resources.requests))
    ensures Tidy(cfg.planner, Launch(cfg.workflow, tasks, a))
  {
  }

  lemma SkipAffords(cfg: Config, tasks: Statuses, plan: seq<TaskAllocation>)
    requires Affords(cfg, tasks, plan) && plan != []
    ensures Affords(cfg, tasks, plan[1..])
  {
    assert forall a :: a in plan[1..] ==> a in plan;
    BudgetAfterSkip(tasks, plan, EffectiveCap(cfg.planner, cfg.spec));
  }

  lemma SpawningBudgeted(cfg: Config, s: State, pods: Pods, tasks: Statuses, plan: seq<TaskAllocation>)
    requires Budgeted(cfg, s) && Affords(cfg, tasks, plan)
    ensures Budgeted(cfg, s.(pods := pods, activity := Spawning(tasks, plan)))
  {
  }

  lemma SpawnBudgeted(cfg: Config, s: State, outcome: CreateOutcome)
    requires Budgeted(cfg, s) && s.activity.Spawning? && s.activity.plan != []
    requires s.activity.plan[0].task in s.activity.tasks
    ensures Budgeted(cfg, SpawnFirst(cfg, s, outcome))
  {
    var tasks, plan := s.activity.tasks, s.activity.plan;
    var pods := SpawnFirst(cfg, s, outcome).pods;
    if outcome == Created {
      LaunchAffords(cfg, tasks, plan);
      SpawningBudgeted(cfg, s, pods, Launch(cfg.workflow, tasks, plan[0]), plan[1..]);
    } else {
      SkipAffords(cfg, tasks, plan);
      SpawningBudgeted(cfg, s, pods, tasks, plan[1..]);
    }
  }

  lemma KeptMeansFits(tasks: Statuses, plan: seq<TaskAllocation>, cap: Load)
    requires BudgetKept(tasks, plan, cap)
    ensures UsageFits(tasks, cap)
  {
  }

  lemma InitialiseBudgeted(cfg: Config, s: State)
    requires Budgeted(cfg, s) && s.activity == Idle
    ensures Budgeted(cfg, s.(status := Status(WorkflowPending, FreshStatuses(cfg.spec), s.status.usage)))
  {
    FreshWithinCap(cfg, FreshStatuses(cfg.spec));
  }

  lemma SyncBudgeted(cfg: Config, s: State)
    requires Budgeted(cfg, s) && s.activity.Syncing? && s.activity.todo != []
    ensures Budgeted(cfg, SyncFirst(s))
  {
    SyncKeepsBudget(s.activity.tasks, s.activity.todo[0], cfg.planner, EffectiveCap(cfg.planner, cfg.spec));
  }

  lemma WriteBudgeted(cfg: Config, s: State, phase: WorkflowPhase, usage: Load)
    requires Budgeted(cfg, s) && s.activity != Idle
    ensures Budgeted(cfg, s.(status := Status(phase, s.activity.tasks, usage), activity := Idle))
  {
  }

  lemma PlanStepBudgeted(cfg: Config, s: State, predictions: Predictions)
    requires Budgeted(cfg, s) && s.activity.Syncing?
    ensures Budgeted(cfg,
                     s.(activity := Spawning(s.activity.tasks,
                                             PlanWith(cfg.planner, cfg.spec, s.activity.tasks, predictions))))
  {
    PlanningBudgeted(cfg, s.activity.tasks, predictions);
  }

  lemma JudgeBudgeted(cfg: Config, s: State, predictions: Predictions)
    requires Budgeted(cfg, s) && s.activity.Syncing?
    ensures Budgeted(cfg, JudgeTasks(cfg, s, predictions))
  {
    if AnyFailed(s.activity.tasks) {
      WriteBudgeted(cfg, s, WorkflowFailed, s.status.usage);
    } else if AllSucceeded(s.activity.tasks) && s.activity.tasks != map[] {
      WriteBudgeted(cfg, s, Completed, Load(0, 0));
    } else {
      PlanStepBudgeted(cfg, s, predictions);
    }
  }

  lemma StepBudgeted(cfg: Config, s: State, step: Step)
    requires Budgeted(cfg, s) && Enabled(cfg, s, step)
    requires PlanReady(cfg, s)
    ensures Budgeted(cfg, Do(cfg, s, step))
  {
    match step
    case Initialise => InitialiseBudgeted(cfg, s);
    case Begin(_) =>
    case SyncOne => SyncBudgeted(cfg, s);
    case Judge(predictions) => JudgeBudgeted(cfg, s, predictions);
    case Spawn(outcome) =>
      assert s.activity.plan[0] in s.activity.plan;
      SpawnBudgeted(cfg, s, outcome);
    case Finish => WriteBudgeted(cfg, s, WorkflowRunning, UsageOf(s.activity.tasks));
    case Abort =>
    case PodMoves(_, _) =>
  }

  lemma RunStepBudgeted(cfg: Config, states: seq<State>, steps: seq<Step>, i: nat)
    requires IsRun(cfg, states, steps) && i < |steps| && Budgeted(cfg, states[i])
    ensures Budgeted(cfg, states[i + 1])
  {
    RunsAreSafe(cfg, states, steps, i);
    StepBudgeted(cfg, states[i], steps[i]);
  }

  lemma StartBudgeted(cfg: Config)
    ensures Budgeted(cfg, START)
  {
    FreshWithinCap(cfg, map[]);
  }

  lemma {:induction false} RunsAreBudgeted(cfg: Config, states: seq<State>, steps: seq<Step>, i: nat)
    requires IsRun(cfg, states, steps) && i < |states|
    ensures Budgeted(cfg, states[i])
  {
    if i == 0 {
      StartBudgeted(cfg);
    } else {
      RunsAreBudgeted(cfg, states, steps, i - 1);
      RunStepBudgeted(cfg, states, steps, i - 1);
    }
  }

  /** In every reachable persisted status the Running tasks' requests stay within MaxResources as the
      planner sees it: with duplicate names, lost pods, crashes and predictions that change every time. */
  lemma BudgetHolds(cfg: Config, states: seq<State>, steps: seq<Step>, i: nat)
    requires IsRun(cfg, states, steps) && i < |states|
    ensures UsageFits(states[i].status.tasks, EffectiveCap(cfg.planner, cfg.spec))
    ensures cfg.planner == InProcess ==> UsageFits(states[i].status.tasks, Cap(cfg.spec))
  {
    RunsAreBudgeted(cfg, states, steps, i);
  }

  /** Through a service, running CPU stays below the cap plus one millicore, and running memory within a
      cap of whole bytes that is at least one MiB. */
  lemma RemoteBudgetHolds(cfg: Config, states: seq<State>, steps: seq<Step>, i: nat)
    requires IsRun(cfg, states, steps) && i < |states|
    ensures Cap(cfg.spec).cpu != 0 ==> Usage(states[i].status.tasks, CPU) < Cap(cfg.spec).cpu + Millis(1)
    ensures Cap(cfg.spec).mem >= Mebis(1) && WholeBytes(Cap(cfg.spec).mem) ==>
              Usage(states[i].status.tasks, MEM) <= Cap(cfg.spec).mem
    ensures Cap(cfg.spec).mem >= Mebis(1) ==> Usage(states[i].status.tasks, MEM) < Cap(cfg.spec).mem + 1_000_000_000
  {
    BudgetHolds(cfg, states, steps, i);
    ServiceCapRounding(cfg.planner, cfg.spec, Usage(states[i].status.tasks, CPU), Usage(states[i].status.tasks, MEM));
  }
}
