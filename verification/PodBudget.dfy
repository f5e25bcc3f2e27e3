/** What the live pods of any reachable state request: each one fits the cap, and where tasks follow one
    another there is only one. */
module PodBudget {
  import opened Loads
  import opened Quantities
  import opened Workflow
  import opened Planning
  import opened Machine
  import opened RunSafety
  import opened RunBudget
  import opened RunBlocked
  import opened RunClean
  import opened Reconciling
  import opened Levels
  import opened Ancestors

  // ---- Every pod on its own ----

  ghost predicate FitsCap(r: Requirements, cap: Load) {
    Fits(Amount(r.requests, CPU), Amount(r.requests, MEM), cap)
  }

  /** These resources passed a planner's check. */
  ghost predicate Checked(cfg: Config, r: Requirements) {
    && FitsCap(r, EffectiveCap(cfg.planner, cfg.spec))
    && (cfg.planner != InProcess ==> Aligned(LoadOf(r.requests)))
  }

  ghost predicate PodsChecked(cfg: Config, s: State) {
    && (forall n :: n in s.pods ==> Checked(cfg, s.pods[n].resources))
    && (s.activity.Spawning? ==> forall a :: a in s.activity.plan ==> Checked(cfg, a.resources))
  }

  lemma PlanChecked(cfg: Config, tasks: Statuses, predictions: Predictions)
    requires WithinCap(cfg, tasks)
    ensures forall a :: a in PlanWith(cfg.planner, cfg.spec, tasks, predictions) ==> Checked(cfg, a.resources)
  {
    forall a | a in PlanWith(cfg.planner, cfg.spec, tasks, predictions)
      ensures Checked(cfg, a.resources)
    {
      PlannedFits(cfg.planner, cfg.spec, tasks, predictions, a);
      PlanIsEligible(cfg.planner, cfg.spec, tasks, predictions, a);
    }
  }

  lemma JudgeChecked(cfg: Config, s: State, predictions: Predictions)
    requires PodsChecked(cfg, s) && WithinCap(cfg, View(s)) && s.activity.Syncing?
    ensures PodsChecked(cfg, JudgeTasks(cfg, s, predictions))
  {
    PlanChecked(cfg, s.activity.tasks, predictions);
  }

  lemma SpawnChecked(cfg: Config, s: State, outcome: CreateOutcome)
    requires PodsChecked(cfg, s) && s.activity.Spawning? && s.activity.plan != []
    ensures PodsChecked(cfg, SpawnFirst(cfg, s, outcome))
  {
    var a, after := s.activity.plan[0], SpawnFirst(cfg, s, outcome);
    assert a in s.activity.plan && Checked(cfg, a.resources);
    forall n | n in after.pods
      ensures Checked(cfg, after.pods[n].resources)
    {
      assert n in s.pods ==> Checked(cfg, s.pods[n].resources);
    }
  }

  lemma MoveChecked(cfg: Config, s: State, name: string, phase: PodPhase)
    requires PodsChecked(cfg, s) && name in s.pods
    ensures PodsChecked(cfg, MovePod(s, name, phase))
  {
    var after := MovePod(s, name, phase);
    forall n | n in after.pods
      ensures Checked(cfg, after.pods[n].resources)
    {
      assert Checked(cfg, s.pods[n].resources);
    }
  }

  lemma StepChecked(cfg: Config, s: State, step: Step)
    requires PodsChecked(cfg, s) && WithinCap(cfg, View(s)) && Enabled(cfg, s, step)
    ensures PodsChecked(cfg, Do(cfg, s, step))
  {
    match step
    case Initialise =>
    case Begin(_) =>
    case SyncOne =>
    case Judge(predictions) => JudgeChecked(cfg, s, predictions);
    case Spawn(outcome) => SpawnChecked(cfg, s, outcome);
    case Finish =>
    case Abort =>
    case PodMoves(name, phase) => MoveChecked(cfg, s, name, phase);
  }

  /** Every pod ever created fits, on its own, the cap that the planner sees. */
  lemma {:induction false} RunsCheckPods(cfg: Config, states: seq<State>, steps: seq<Step>, i: nat)
    requires IsRun(cfg, states, steps) && i < |states|
    ensures PodsChecked(cfg, states[i])
  {
    if i > 0 {
      RunsCheckPods(cfg, states, steps, i - 1);
      RunsAreBudgeted(cfg, states, steps, i - 1);
      StepChecked(cfg, states[i - 1], steps[i - 1]);
    }
  }

  lemma ReachablePodsChecked(cfg: Config, s: State)
    requires Reachable(cfg, s)
    ensures PodsChecked(cfg, s)
  {
    var states, steps :| EndsIn(cfg, states, steps, s);
    RunsCheckPods(cfg, states, steps, |steps|);
  }

  // ---- One live pod at a time ----

  lemma DependencySucceeded(cfg: Config, s: State, n: string, d: string)
    requires UniqueNames(cfg.spec) && Reachable(cfg, s) && n in s.pods && DependsOn(cfg.spec, s.pods[n].task, d)
    ensures PodIs(cfg, s.pods, d, PodSucceeded)
  {
    var states, steps :| EndsIn(cfg, states, steps, s);
    var e :| 0 <= e < |cfg.spec.tasks| && cfg.spec.tasks[e].name == s.pods[n].task
             && d in cfg.spec.tasks[e].dependencies;
    DependenciesPrecedePods(cfg, states, steps, |steps|, n, e);
  }

  /** Whatever a task with a pod depends on, directly or not, has a pod that has Succeeded. */
  lemma {:induction false} BelowSucceeded(cfg: Config, s: State, n: string, path: seq<string>)
    requires UniqueNames(cfg.spec) && Reachable(cfg, s) && Chain(cfg.spec, path) && |path| >= 2
    requires n in s.pods && s.pods[n].task == path[0]
    ensures PodIs(cfg, s.pods, path[|path| - 1], PodSucceeded)
    decreases |path|
  {
    assert DependsOn(cfg.spec, path[0], path[1]);
    DependencySucceeded(cfg, s, n, path[1]);
    if |path| > 2 {
      TailOfChain(cfg.spec, path);
      BelowSucceeded(cfg, s, PodName(cfg.workflow, path[1]), path[1..]);
    }
  }

  lemma PodTaskStartable(cfg: Config, s: State, n: string)
    requires Reachable(cfg, s) && n in s.pods
    ensures s.pods[n].task in Startable(cfg.spec) && n == PodName(cfg.workflow, s.pods[n].task)
  {
    var states, steps :| EndsIn(cfg, states, steps, s);
    ReachableIsSafe(cfg, s);
    StuckIsGreatestBlocked(cfg.spec);
    BlockedNeverStarts(cfg, states, steps, |steps|, Stuck(cfg.spec));
  }

  ghost predicate Live(s: State, n: string) {
    n in s.pods && !TerminalPod(s.pods[n].phase)
  }

  lemma AboveIsNotLive(cfg: Config, s: State, n: string, m: string)
    requires UniqueNames(cfg.spec) && Reachable(cfg, s) && n in s.pods && m in s.pods
    requires Above(cfg.spec, s.pods[n].task, s.pods[m].task)
    ensures !Live(s, m)
  {
    var path :| AboveBy(cfg.spec, s.pods[n].task, s.pods[m].task, path);
    BelowSucceeded(cfg, s, n, path);
    PodTaskStartable(cfg, s, m);
  }

  /** Where of any two startable tasks one depends on the other, no two pods are alive together. */
  lemma LiveIsUnique(cfg: Config, s: State, n: string, m: string)
    requires UniqueNames(cfg.spec) && AllComparable(cfg.spec) && Reachable(cfg, s) && Live(s, n) && Live(s, m)
    ensures n == m
  {
    PodTaskStartable(cfg, s, n);
    PodTaskStartable(cfg, s, m);
    if s.pods[n].task != s.pods[m].task {
      assert Comparable(cfg.spec, s.pods[n].task, s.pods[m].task);
      if Above(cfg.spec, s.pods[n].task, s.pods[m].task) {
        AboveIsNotLive(cfg, s, n, m);
      } else {
        AboveIsNotLive(cfg, s, m, n);
      }
    }
  }

  function LiveShares(pods: Pods, d: Dim): map<string, nat> {
    map n | n in pods :: LiveShare(pods[n], d)
  }

  lemma LoneLiveUsage(s: State, n: string, d: Dim)
    requires Live(s, n) && forall m :: Live(s, m) ==> m == n
    ensures LiveUsage(s.pods, d) == Amount(s.pods[n].resources.requests, d)
  {
    var shares := LiveShares(s.pods, d);
    assert forall m :: m in shares && m != n ==> !Live(s, m);
    SumOfOne(shares, n);
  }

  lemma NoLiveUsage(s: State, d: Dim)
    requires forall n :: !Live(s, n)
    ensures LiveUsage(s.pods, d) == 0
  {
    var shares := LiveShares(s.pods, d);
    assert forall m :: m in shares ==> !Live(s, m);
    SumOfZeros(shares);
  }

  /** So a cap that each pod fits is one that the live pods fit together. */
  lemma LiveFits(cfg: Config, s: State, cap: Load)
    requires UniqueNames(cfg.spec) && AllComparable(cfg.spec) && Reachable(cfg, s)
    requires forall n :: n in s.pods ==> FitsCap(s.pods[n].resources, cap)
    ensures Fits(LiveUsage(s.pods, CPU), LiveUsage(s.pods, MEM), cap)
  {
    if n :| Live(s, n) {
      forall m | Live(s, m)
        ensures m == n
      {
        LiveIsUnique(cfg, s, n, m);
      }
      LoneLiveUsage(s, n, CPU);
      LoneLiveUsage(s, n, MEM);
      assert FitsCap(s.pods[n].resources, cap);
    } else {
      NoLiveUsage(s, CPU);
      NoLiveUsage(s, MEM);
    }
  }
}
