/** Runs of a workflow with a single task, for showing how the exceptional cases come about. */
module Witnesses {
  import opened Loads
  import opened Quantities
  import opened Workflow
  import opened Wire
  import opened Remote
  import opened Planning
  import opened Schedule
  import opened Machine
  import opened RunBudget
  import opened Reconciling
  import opened ReconcileEffects
  import opened Repeating
  import opened Rounds
  import Go = GreedyPlanner

  function OneTask(hint: Requirements, max: ResourceList): Spec {
    Spec([TaskTemplate("a", [], hint)], max)
  }

  function OneConfig(workflow: string, hint: Requirements, max: ResourceList, planner: Planner): Config {
    Config(workflow, OneTask(hint, max), planner)
  }

  lemma OneName(hint: Requirements, max: ResourceList)
    ensures Names(OneTask(hint, max)) == {"a"} && UniqueNames(OneTask(hint, max)) && LowerUnique(OneTask(hint, max))
    ensures FreshStatuses(OneTask(hint, max)) == map["a" := TaskStatus(Pending, "", NOTHING)]
  {
    var spec := OneTask(hint, max);
    assert spec.tasks[0].name in Names(spec);
    assert Names(spec) == {"a"};
  }

  lemma OneUsage(ts: TaskStatus, d: Dim)
    ensures Usage(map["a" := ts], d) == Share(ts, d)
  {
    UsageRemove(map["a" := ts], "a", d);
    assert map["a" := ts] - {"a"} == map[];
  }

  lemma OneIsIdle(hint: Requirements, max: ResourceList, planner: Planner)
    ensures var tasks := FreshStatuses(OneTask(hint, max));
            && Usage(tasks, CPU) == 0 && Usage(tasks, MEM) == 0 && Tidy(planner, tasks)
            && Go.Eligible(OneTask(hint, max).tasks[0], tasks)
  {
    OneName(hint, max);
    NoUsage(FreshStatuses(OneTask(hint, max)), CPU);
    NoUsage(FreshStatuses(OneTask(hint, max)), MEM);
  }

  /** If its demand fits the cap, the plan for the fresh workflow is to start the task with its demand. */
  lemma OnePlan(cfg: Config, hint: Requirements, max: ResourceList, predictions: Predictions)
    returns (a: TaskAllocation)
    requires cfg == OneConfig(cfg.workflow, hint, max, cfg.planner) && FitsAlone(cfg, cfg.spec.tasks[0], predictions)
    ensures PlanWith(cfg.planner, cfg.spec, FreshStatuses(cfg.spec), predictions) == [a]
    ensures a.task == "a" && LoadOf(a.resources.requests) == Demand(cfg.planner, cfg.spec.tasks[0], predictions)
  {
    var tasks := FreshStatuses(cfg.spec);
    OneName(hint, max);
    OneIsIdle(hint, max, cfg.planner);
    PlanNamesEntries(cfg, tasks, predictions);
    a := SoloPlan(cfg.planner, cfg.spec, tasks, predictions, 0);
  }

  function Calm(listing: seq<Pod>, predictions: Predictions, creations: seq<CreateOutcome>): World {
    World(true, listing, predictions, true, creations, true)
  }

  /** The initialised workflow. */
  lemma Initialised(cfg: Config) returns (s: State)
    ensures Reachable(cfg, s)
    ensures s == State(Status(WorkflowPending, FreshStatuses(cfg.spec), Load(0, 0)), map[], [], Idle)
  {
    StartIsReachable(cfg);
    ReconcileStaysReachable(cfg, START, Calm([], map[], []));
    s := Reconcile(cfg, START, Calm([], map[], []));
  }

  lemma OnePlans(cfg: Config, hint: Requirements, max: ResourceList, s: State, w: World)
    requires cfg == OneConfig(cfg.workflow, hint, max, cfg.planner)
    requires s.activity == Idle && s.status.tasks == FreshStatuses(cfg.spec) && !TerminalWorkflow(s.status.phase)
    requires w == Calm(w.listing, w.predictions, w.creations) && IsListing(s.pods, w.listing)
    ensures Plans(cfg, s, w) && Observed(cfg, s.pods, s.status.tasks) == FreshStatuses(cfg.spec)
  {
    OneName(hint, max);
    assert "a" in Observed(cfg, s.pods, s.status.tasks);
  }

  function OnePod(workflow: string, resources: Requirements, phase: PodPhase): Pods {
    map[PodName(workflow, "a") := Pod(PodName(workflow, "a"), "a", resources, phase)]
  }

  lemma OneLaunch(workflow: string, a: TaskAllocation)
    requires a.task == "a"
    ensures LaunchAll(workflow, map["a" := TaskStatus(Pending, "", NOTHING)], Successes([a], [])) ==
            map["a" := TaskStatus(Running, PodName(workflow, "a"), a.resources)]
    ensures CreateAll(workflow, map[], [a], []) == OnePod(workflow, a.resources, PodPending)
    ensures Successes([a], [Lost]) == []
    ensures CreateAll(workflow, map[], [a], [Lost]) == OnePod(workflow, a.resources, PodPending)
  {
    assert Successes([a], []) == [a];
    assert CreateAll(workflow, CreatePod(workflow, map[], a), [], []) == CreatePod(workflow, map[], a);
  }

  /** The state after the Reconcile that starts the task, with its pod not yet running. */
  lemma OneStarted(cfg: Config, hint: Requirements, max: ResourceList, predictions: Predictions)
    returns (s: State, a: TaskAllocation)
    requires cfg == OneConfig(cfg.workflow, hint, max, cfg.planner) && FitsAlone(cfg, cfg.spec.tasks[0], predictions)
    ensures Reachable(cfg, s) && s.activity == Idle && s.status.phase == WorkflowRunning && s.executions == []
    ensures s.status.tasks == map["a" := TaskStatus(Running, PodName(cfg.workflow, "a"), a.resources)]
    ensures s.pods == OnePod(cfg.workflow, a.resources, PodPending)
    ensures a in PlanWith(cfg.planner, cfg.spec, FreshStatuses(cfg.spec), predictions) && a.task == "a"
    ensures LoadOf(a.resources.requests) == Demand(cfg.planner, cfg.spec.tasks[0], predictions)
    ensures Usage(s.status.tasks, CPU) == Amount(a.resources.requests, CPU)
    ensures Usage(s.status.tasks, MEM) == Amount(a.resources.requests, MEM)
    ensures s.status.usage == UsageOf(s.status.tasks)
  {
    var before := Initialised(cfg);
    var w := Calm([], predictions, []);
    OneName(hint, max);
    a := OnePlan(cfg, hint, max, predictions);
    OnePlans(cfg, hint, max, before, w);
    ReachableIsSafe(cfg, before);
    PlansResult(cfg, before, w);
    ReconcileStaysReachable(cfg, before, w);
    s := Reconcile(cfg, before, w);
    OneLaunch(cfg.workflow, a);
    OneUsage(s.status.tasks["a"], CPU);
    OneUsage(s.status.tasks["a"], MEM);
  }

  // ---- What goes wrong ----

  /** Without hint, prediction or cap the task gets the default resources, whatever the planner. */
  lemma DefaultDemand(cfg: Config)
    requires cfg == OneConfig(cfg.workflow, NOTHING, map[], cfg.planner)
    ensures Demand(cfg.planner, cfg.spec.tasks[0], map[]) == Load(Millis(100), Mebis(128))
    ensures Unlimited(EffectiveCap(cfg.planner, cfg.spec))
  {
  }

  lemma OneListing(pods: Pods, name: string)
    requires pods.Keys == {name} && pods[name].name == name
    ensures IsListing(pods, [pods[name]])
  {
  }

  /** The task's pod ends with the given phase. */
  lemma OneMoved(cfg: Config, s: State, resources: Requirements, phase: PodPhase)
    returns (after: State, listing: seq<Pod>)
    requires Reachable(cfg, s) && s.activity == Idle && s.pods == OnePod(cfg.workflow, resources, PodPending)
    ensures Reachable(cfg, after) && after == s.(pods := OnePod(cfg.workflow, resources, phase))
    ensures IsListing(after.pods, listing)
  {
    var name := PodName(cfg.workflow, "a");
    PodMoveStaysReachable(cfg, s, name, phase);
    after := MovePod(s, name, phase);
    assert after.pods == OnePod(cfg.workflow, resources, phase);
    OneListing(after.pods, name);
    listing := [after.pods[name]];
  }

  /** Whatever the planner: the only task fails, and the failed workflow goes on reporting its requests as
      usage although nothing runs. */
  lemma FailedUsageIsStale(workflow: string, planner: Planner) returns (cfg: Config, s: State, w: World)
    ensures cfg == OneConfig(workflow, NOTHING, map[], planner) && Reachable(cfg, s) && Sees(s, w)
    ensures var after := Reconcile(cfg, s, w).status;
            && after.phase == WorkflowFailed
            && after.usage == Load(Millis(100), Mebis(128))
            && Usage(after.tasks, CPU) == 0 && Usage(after.tasks, MEM) == 0
  {
    cfg := OneConfig(workflow, NOTHING, map[], planner);
    DefaultDemand(cfg);
    var started, a := OneStarted(cfg, NOTHING, map[], map[]);
    var listing;
    s, listing := OneMoved(cfg, started, a.resources, PodFailed);
    w := Calm(listing, map[], []);
    ReachableIsSafe(cfg, s);
    OneFailed(cfg, a.resources);
    FailsNow(cfg, s, w);
    OneUsage(TaskStatus(Failed, PodName(cfg.workflow, "a"), a.resources), CPU);
    OneUsage(TaskStatus(Failed, PodName(cfg.workflow, "a"), a.resources), MEM);
  }

  lemma OneFailed(cfg: Config, resources: Requirements)
    ensures var observed := Observed(cfg, OnePod(cfg.workflow, resources, PodFailed),
                                     map["a" := TaskStatus(Running, PodName(cfg.workflow, "a"), resources)]);
            observed == map["a" := TaskStatus(Failed, PodName(cfg.workflow, "a"), resources)] && AnyFailed(observed)
  {
    var observed := Observed(cfg, OnePod(cfg.workflow, resources, PodFailed),
                             map["a" := TaskStatus(Running, PodName(cfg.workflow, "a"), resources)]);
    assert "a" in observed && observed["a"].phase == Failed;
  }

  lemma FailsNow(cfg: Config, s: State, w: World)
    requires Sees(s, w) && w.listOk && w.writeOk && PodsNamed(cfg, s.pods)
    requires s.status.tasks != map[] && !TerminalWorkflow(s.status.phase)
    requires AnyFailed(Observed(cfg, s.pods, s.status.tasks))
    ensures Reconcile(cfg, s, w).status ==
            Status(WorkflowFailed, Observed(cfg, s.pods, s.status.tasks), s.status.usage)
  {
    SyncIgnoresOrder(cfg, s.pods, w.listing, s.status.tasks);
  }

  lemma OneRecorded(cfg: Config, s: State, resources: Requirements, w: World)
    requires Sees(s, w) && w.listOk && !w.writeOk && s.status.phase == WorkflowRunning
    requires s.status.tasks == map["a" := TaskStatus(Running, PodName(cfg.workflow, "a"), resources)]
    requires w.listing == [Pod(PodName(cfg.workflow, "a"), "a", resources, PodSucceeded)]
    ensures Reconcile(cfg, s, w) == s.(executions := s.executions + ["a"])
  {
    var before := s.status.tasks;
    var after := map["a" := TaskStatus(Succeeded, PodName(cfg.workflow, "a"), resources)];
    assert "a" in before && "a" in after;
    assert w.listing[1..] == [];
    assert SyncTask(before, w.listing[0]) == after && SyncAll(before, w.listing) == after;
    assert Recorded(before, w.listing[0]) == ["a"] && RecordAll(before, w.listing) == ["a"] + [] == ["a"];
    assert !AnyFailed(after) && AllSucceeded(after) && after != map[];
  }

  lemma RecordsAgain(cfg: Config, s: State, resources: Requirements) returns (after: State)
    requires Reachable(cfg, s) && s.activity == Idle && s.status.phase == WorkflowRunning
    requires s.status.tasks == map["a" := TaskStatus(Running, PodName(cfg.workflow, "a"), resources)]
    requires s.pods == OnePod(cfg.workflow, resources, PodSucceeded)
    ensures Reachable(cfg, after) && after == s.(executions := s.executions + ["a"])
  {
    var name := PodName(cfg.workflow, "a");
    var w := World(true, [s.pods[name]], map[], true, [], false);
    OneListing(s.pods, name);
    OneRecorded(cfg, s, resources, w);
    ReconcileStaysReachable(cfg, s, w);
    after := Reconcile(cfg, s, w);
  }

  lemma OneSucceeded(cfg: Config) returns (s: State, resources: Requirements)
    requires cfg == OneConfig(cfg.workflow, NOTHING, map[], cfg.planner)
    ensures Reachable(cfg, s) && s.activity == Idle && s.status.phase == WorkflowRunning && s.executions == []
    ensures s.status.tasks == map["a" := TaskStatus(Running, PodName(cfg.workflow, "a"), resources)]
    ensures s.pods == OnePod(cfg.workflow, resources, PodSucceeded)
  {
    DefaultDemand(cfg);
    var started, a := OneStarted(cfg, NOTHING, map[], map[]);
    var listing;
    s, listing := OneMoved(cfg, started, a.resources, PodSucceeded);
    resources := a.resources;
  }

  /** Whatever the planner: the only task succeeds, the write that would complete the workflow fails, and so
      does the next one; the success has then been recorded twice. */
  lemma RecordedTwice(workflow: string, planner: Planner) returns (cfg: Config, s: State)
    ensures cfg == OneConfig(workflow, NOTHING, map[], planner) && Reachable(cfg, s) && s.executions == ["a", "a"]
  {
    cfg := OneConfig(workflow, NOTHING, map[], planner);
    var done, resources := OneSucceeded(cfg);
    var once := RecordsAgain(cfg, done, resources);
    s := RecordsAgain(cfg, once, resources);
  }

  /** The state in which the pod exists but the controller has not learned of it. */
  lemma OneLost(cfg: Config) returns (s: State, a: TaskAllocation)
    requires cfg == OneConfig(cfg.workflow, NOTHING, map[], cfg.planner)
    ensures Reachable(cfg, s) && s.activity == Idle && s.status.phase == WorkflowRunning
    ensures s.status.tasks == FreshStatuses(cfg.spec) && s.pods == OnePod(cfg.workflow, a.resources, PodPending)
  {
    var before := Initialised(cfg);
    var w := Calm([], map[], [Lost]);
    OneName(NOTHING, map[]);
    DefaultDemand(cfg);
    a := OnePlan(cfg, NOTHING, map[], map[]);
    OnePlans(cfg, NOTHING, map[], before, w);
    ReachableIsSafe(cfg, before);
    PlansResult(cfg, before, w);
    ReconcileStaysReachable(cfg, before, w);
    s := Reconcile(cfg, before, w);
    OneLaunch(cfg.workflow, a);
  }

  lemma OneLeftover(cfg: Config, resources: Requirements, a: TaskAllocation)
    requires a.task == "a"
    ensures !NoLeftovers(cfg, OnePod(cfg.workflow, resources, PodSucceeded), [a])
  {
    assert a in [a] && HasEnded(cfg, OnePod(cfg.workflow, resources, PodSucceeded), a.task);
  }

  /** Whatever the planner: a pod whose creation was reported as failed succeeds before the next Reconcile,
      which then starts a task with a finished pod. */
  lemma LeftoverExists(workflow: string, planner: Planner) returns (cfg: Config, s: State, w: World)
    ensures cfg == OneConfig(workflow, NOTHING, map[], planner) && Reachable(cfg, s) && Plans(cfg, s, w)
    ensures w.creations == [] && !NoLeftovers(cfg, s.pods, PlanOf(cfg, s, w))
  {
    cfg := OneConfig(workflow, NOTHING, map[], planner);
    DefaultDemand(cfg);
    var lost, a := OneLost(cfg);
    var listing;
    s, listing := OneMoved(cfg, lost, a.resources, PodSucceeded);
    w := Calm(listing, map[], []);
    OnePlans(cfg, NOTHING, map[], s, w);
    var b := OnePlan(cfg, NOTHING, map[], map[]);
    OneLeftover(cfg, a.resources, b);
  }

  /** Repeating that Reconcile does change something. */
  lemma LeftoverChangesRepetition(workflow: string, planner: Planner, again: World)
    returns (cfg: Config, s: State, w: World)
    ensures cfg == OneConfig(workflow, NOTHING, map[], planner) && Reachable(cfg, s) && Plans(cfg, s, w)
    ensures Sees(Reconcile(cfg, s, w), again) && again.listOk && again.planOk && again.writeOk
            && again.predictions == w.predictions ==>
              Reconcile(cfg, Reconcile(cfg, s, w), again) != Reconcile(cfg, s, w)
  {
    cfg, s, w := LeftoverExists(workflow, planner);
    OneName(NOTHING, map[]);
    if Sees(Reconcile(cfg, s, w), again) && again.listOk && again.planOk && again.writeOk
       && again.predictions == w.predictions {
      RepeatChangesNothingIff(cfg, s, w, again);
    }
  }

  // ---- Where the planners disagree ----

  lemma OneStartedIn(cfg: Config, hint: Requirements, load: Load)
    requires cfg == OneConfig(cfg.workflow, hint, map[], cfg.planner)
    requires Demand(cfg.planner, cfg.spec.tasks[0], map[]) == load && Unlimited(EffectiveCap(cfg.planner, cfg.spec))
    ensures StartedIn(PlanWith(cfg.planner, cfg.spec, FreshStatuses(cfg.spec), map[])) == [("a", load)]
  {
    var a := OnePlan(cfg, hint, map[], map[]);
    assert StartedIn([a]) == [(a.task, LoadOf(a.resources.requests))] + StartedIn([]);
  }

  lemma NoCap(planner: Planner, hint: Requirements)
    ensures Unlimited(EffectiveCap(planner, OneTask(hint, map[])))
  {
  }

  const LIMITS_ONLY := Requirements(map[], map[Cpu := Millis(500)])

  lemma LimitsOnlyDemands()
    ensures LoadOf(LIMITS_ONLY.requests) == Demand(InProcess, OneTask(LIMITS_ONLY, map[]).tasks[0], map[])
    ensures Demand(CppService, OneTask(LIMITS_ONLY, map[]).tasks[0], map[]) == Load(Millis(100), Mebis(128))
  {
  }

  /** A task whose hint has limits and no requests: the Go planner starts it with nothing, the C++ planner
      with its default. */
  lemma GoAndCppDisagree()
    ensures var spec := OneTask(LIMITS_ONLY, map[]);
            var tasks := FreshStatuses(spec);
            && StartedIn(PlanWith(InProcess, spec, tasks, map[])) == [("a", LoadOf(map[]))]
            && StartedIn(PlanWith(CppService, spec, tasks, map[])) == [("a", Load(Millis(100), Mebis(128)))]
  {
    LimitsOnlyDemands();
    NoCap(InProcess, LIMITS_ONLY);
    NoCap(CppService, LIMITS_ONLY);
    OneStartedIn(OneConfig("w", LIMITS_ONLY, map[], InProcess), LIMITS_ONLY, LoadOf(map[]));
    OneStartedIn(OneConfig("w", LIMITS_ONLY, map[], CppService), LIMITS_ONLY, Load(Millis(100), Mebis(128)));
  }

  /** Half a MiB: on the wire an empty hint. */
  const TINY := Requirements(map[Memory := Mebis(1) / 2], map[])

  lemma TinyDemands()
    ensures SendTask(OneTask(TINY, map[]).tasks[0]).base.Some?
    ensures var demand := Demand(GoService, OneTask(TINY, map[]).tasks[0], map[]); demand.cpu == 0 && demand.mem == 0
    ensures Demand(CppService, OneTask(TINY, map[]).tasks[0], map[]) == Load(Millis(100), Mebis(128))
  {
    var sent := SendLoad(TINY.requests);
    assert Memory in TINY.requests && sent.cpu == 0 && sent.mem == 0;
    LoadRoundTrip(sent);
    assert Cpu in ReceiveLoad(sent);
  }

  /** A task whose hint is empty once sent: the Go service starts it with nothing, the C++ service with its
      default. */
  lemma ServicesDisagree()
    ensures var spec := OneTask(TINY, map[]);
            var tasks := FreshStatuses(spec);
            && StartedIn(PlanWith(GoService, spec, tasks, map[])) == [("a", Demand(GoService, spec.tasks[0], map[]))]
            && Demand(GoService, spec.tasks[0], map[]).cpu == 0 && Demand(GoService, spec.tasks[0], map[]).mem == 0
            && StartedIn(PlanWith(CppService, spec, tasks, map[])) == [("a", Load(Millis(100), Mebis(128)))]
  {
    TinyDemands();
    NoCap(GoService, TINY);
    NoCap(CppService, TINY);
    OneStartedIn(OneConfig("w", TINY, map[], GoService), TINY, Demand(GoService, OneTask(TINY, map[]).tasks[0], map[]));
    OneStartedIn(OneConfig("w", TINY, map[], CppService), TINY, Load(Millis(100), Mebis(128)));
  }
}
