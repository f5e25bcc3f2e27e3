/** When the limits of an allocation cover its requests, as a pod needs. */
module Limits {
  import opened Quantities
  import opened Workflow
  import opened Wire
  import opened Planning
  import opened Schedule
  import opened Allocations
  import opened Machine
  import opened Reconciling
  import opened Witnesses
  import Cpp = CppPlanner
  import Go = GreedyPlanner

  /** Where a resource has both, the limit is at least the request. */
  predicate LimitsCover(r: Requirements) {
    forall n :: n in r.requests && n in r.limits ==> r.requests[n] <= r.limits[n]
  }

  // ---- The exact condition ----

  /** In process it is up to the prediction or the hint; the Go service drops the limits of a hint and so
      hands out zero limits for one that asks for anything; the C++ service always doubles the requests. */
  predicate Covered(planner: Planner, task: TaskTemplate, predictions: Predictions) {
    match planner
    case InProcess =>
      if task.name in predictions then LimitsCover(predictions[task.name]) else LimitsCover(task.baseResources)
    case GoService =>
      || task.name in predictions
      || task.baseResources.requests == map[]
      || (SendLoad(task.baseResources.requests).cpu == 0 && SendLoad(task.baseResources.requests).mem == 0)
    case CppService => true
  }

  lemma WireLimitsCoverIff(wa: WireAllocation)
    ensures LimitsCover(ReceiveAllocation(wa).resources) <==>
            wa.request.cpu <= wa.limit.cpu && wa.request.mem <= wa.limit.mem
  {
    var r := ReceiveAllocation(wa).resources;
    if LimitsCover(r) {
      assert Cpu in r.requests && Cpu in r.limits && Memory in r.requests && Memory in r.limits;
    }
  }

  lemma CppCovers(task: TaskTemplate, predictions: Predictions)
    ensures LimitsCover(Allocation(CppService, task, predictions).resources)
  {
    var wa := Cpp.Resolve(SendTask(task), Sent(predictions));
    HeadroomCovers(wa.request);
    WireLimitsCoverIff(wa);
  }

  lemma GoServerCoversIff(task: TaskTemplate, predictions: Predictions)
    ensures LimitsCover(Allocation(GoService, task, predictions).resources) <==> Covered(GoService, task, predictions)
  {
    var sent := Sent(predictions);
    var wa := Respond(Go.OfferOf(ServerTask(SendTask(task)), ServerPredictions(sent)));
    WireLimitsCoverIff(wa);
    if task.name in predictions {
      LoadRoundTrip(sent[task.name]);
      LoadRoundTrip(Headroom(sent[task.name]));
      HeadroomCovers(sent[task.name]);
    } else if task.baseResources.requests != map[] {
      var load := SendLoad(task.baseResources.requests);
      LoadRoundTrip(load);
      assert Cpu in ReceiveLoad(load);
      assert wa.request == load && wa.limit.cpu == 0 && wa.limit.mem == 0;
    }
  }

  lemma GoCoversIff(task: TaskTemplate, predictions: Predictions)
    ensures LimitsCover(Allocation(InProcess, task, predictions).resources) <==> Covered(InProcess, task, predictions)
  {
  }

  lemma CoversIff(planner: Planner, task: TaskTemplate, predictions: Predictions)
    ensures LimitsCover(Allocation(planner, task, predictions).resources) <==> Covered(planner, task, predictions)
  {
    match planner
    case InProcess => GoCoversIff(task, predictions);
    case GoService => GoServerCoversIff(task, predictions);
    case CppService => CppCovers(task, predictions);
  }

  /** With unique names, the limits of a planned allocation cover its requests exactly when its entry is
      covered. */
  lemma PlannedLimitsIff(planner: Planner, spec: Spec, statuses: Statuses, predictions: Predictions,
                         a: TaskAllocation, i: nat)
    requires UniqueNames(spec) && a in PlanWith(planner, spec, statuses, predictions)
    requires i < |spec.tasks| && a.task == spec.tasks[i].name
    ensures LimitsCover(a.resources) <==> Covered(planner, spec.tasks[i], predictions)
  {
    EntryAllocation(planner, spec, statuses, predictions, a, i);
    CoversIff(planner, spec.tasks[i], predictions);
  }

  // ---- Over runs ----

  /** All entries are covered whenever a plan is made. */
  ghost predicate CoveredStep(cfg: Config, step: Step) {
    step.Judge? ==> forall i :: 0 <= i < |cfg.spec.tasks| ==> Covered(cfg.planner, cfg.spec.tasks[i], step.predictions)
  }

  ghost predicate PodsCovered(s: State) {
    && (forall n :: n in s.pods ==> LimitsCover(s.pods[n].resources))
    && (s.activity.Spawning? ==> forall a :: a in s.activity.plan ==> LimitsCover(a.resources))
  }

  lemma PlanCovered(cfg: Config, tasks: Statuses, predictions: Predictions)
    requires CoveredStep(cfg, Judge(predictions))
    ensures forall a :: a in PlanWith(cfg.planner, cfg.spec, tasks, predictions) ==> LimitsCover(a.resources)
  {
    forall a | a in PlanWith(cfg.planner, cfg.spec, tasks, predictions)
      ensures LimitsCover(a.resources)
    {
      PlannedAllocation(cfg.planner, cfg.spec, tasks, predictions, a);
      var i :| 0 <= i < |cfg.spec.tasks| && a == Allocation(cfg.planner, cfg.spec.tasks[i], predictions);
      CoversIff(cfg.planner, cfg.spec.tasks[i], predictions);
    }
  }

  lemma StepCovered(cfg: Config, s: State, step: Step)
    requires PodsCovered(s) && Enabled(cfg, s, step) && CoveredStep(cfg, step)
    ensures PodsCovered(Do(cfg, s, step))
  {
    match step
    case Initialise =>
    case Begin(_) =>
    case SyncOne =>
    case Judge(predictions) => PlanCovered(cfg, s.activity.tasks, predictions);
    case Spawn(_) => assert s.activity.plan[0] in s.activity.plan;
    case Finish =>
    case Abort =>
    case PodMoves(_, _) =>
  }

  /** As long as all entries are covered whenever a plan is made, every pod ever created has limits that
      cover its requests; with the C++ service that is so in every run. */
  lemma {:induction false} PodsAreCovered(cfg: Config, states: seq<State>, steps: seq<Step>, i: nat)
    requires IsRun(cfg, states, steps) && i < |states|
    requires cfg.planner == CppService || forall j :: 0 <= j < i ==> CoveredStep(cfg, steps[j])
    ensures PodsCovered(states[i])
  {
    if i > 0 {
      PodsAreCovered(cfg, states, steps, i - 1);
      assert CoveredStep(cfg, steps[i - 1]);
      StepCovered(cfg, states[i - 1], steps[i - 1]);
    }
  }

  // ---- The failing input ----

  const HINT := Requirements(map[Cpu := Millis(100), Memory := Mebis(128)], map[])

  /** A single task with an ordinary hint and no prediction, planned by the Go service: its pod requests
      100m and 128Mi under limits of zero. */
  lemma HintGetsZeroLimits(workflow: string) returns (cfg: Config, s: State)
    ensures cfg == OneConfig(workflow, HINT, map[], GoService) && Reachable(cfg, s)
    ensures PodName(workflow, "a") in s.pods
    ensures var r := s.pods[PodName(workflow, "a")].resources;
            r.requests == HINT.requests && r.limits == map[Cpu := 0, Memory := 0] && !LimitsCover(r)
  {
    cfg := OneConfig(workflow, HINT, map[], GoService);
    var a;
    s, a := OneStarted(cfg, HINT, map[], map[]);
    PlannedAllocation(GoService, cfg.spec, FreshStatuses(cfg.spec), map[], a);
    HintAllocation();
    GoServerCoversIff(TaskTemplate("a", [], HINT), map[]);
  }

  lemma HintAllocation()
    ensures SendLoad(HINT.requests).cpu == 100 && SendLoad(HINT.requests).mem == 128
    ensures Allocation(GoService, TaskTemplate("a", [], HINT), map[]) ==
            TaskAllocation("a", Requirements(HINT.requests, map[Cpu := 0, Memory := 0]))
  {
    var load := SendLoad(HINT.requests);
    LoadRoundTrip(load);
    assert Cpu in ReceiveLoad(load);
  }
}
