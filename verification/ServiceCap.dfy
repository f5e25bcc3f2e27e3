/** When MaxResources bounds the persisted Running tasks over whole runs. */
module ServiceCap {
  import opened Loads
  import opened Quantities
  import opened Workflow
  import opened Wire
  import opened Remote
  import opened Planning
  import opened Schedule
  import opened Machine
  import opened Reconciling
  import opened ReconcileEffects
  import opened Witnesses
  import Cpp = CppPlanner

  /** With this planner no workflow with these MaxResources ever persists Running tasks that request more.
      What the live pods request is another matter: see PodCeiling. */
  ghost predicate BoundsRunning(planner: Planner, max: ResourceList) {
    forall workflow: string, tasks: seq<TaskTemplate>, s: State ::
      Reachable(Config(workflow, Spec(tasks, max), planner), s) ==> UsageFits(s.status.tasks, LoadOf(max))
  }

  /** What a service counts as usage is a load in wire units. */
  lemma AlignedUsage(tasks: Statuses) returns (l: Load)
    requires AlignedStatuses(tasks)
    ensures Usage(tasks, CPU) == Scale(l).cpu && Usage(tasks, MEM) == Scale(l).mem
  {
    var sent := map t | t in tasks :: SendStatus(tasks[t]);
    SentUsage(tasks);
    l := Load(Cpp.Usage(sent, CPU), Cpp.Usage(sent, MEM));
  }

  lemma ExactCapBounds(cfg: Config, s: State)
    requires Reachable(cfg, s) && (cfg.planner == InProcess || ExactCap(Cap(cfg.spec)))
    ensures UsageFits(s.status.tasks, Cap(cfg.spec))
  {
    ReachableFits(cfg, s);
    if cfg.planner != InProcess {
      ReachableIsTidy(cfg, s);
      var l := AlignedUsage(s.status.tasks);
      CapSurvivesIff(Cap(cfg.spec));
    }
  }

  /** A prediction of this wire load, for the task of the one-task workflow. */
  function Predicting(l: Load): Predictions {
    map["a" := Requirements(ReceiveLoad(l), map[])]
  }

  lemma PredictedDemand(planner: Planner, max: ResourceList, l: Load)
    requires planner != InProcess
    ensures Demand(planner, OneTask(NOTHING, max).tasks[0], Predicting(l)) == Scale(l)
  {
    LoadRoundTrip(l);
    assert Sent(Predicting(l))["a"] == l;
  }

  /** A wire load that passes the service's check and exceeds the cap is reached in two Reconciles: a single
      task predicted to need it is started. */
  lemma CapExceeded(workflow: string, planner: Planner, max: ResourceList, l: Load) returns (cfg: Config, s: State)
    requires planner != InProcess
    requires Fits(Scale(l).cpu, Scale(l).mem, Scale(ToWire(LoadOf(max))))
    requires !Fits(Scale(l).cpu, Scale(l).mem, LoadOf(max))
    ensures cfg == OneConfig(workflow, NOTHING, max, planner) && Reachable(cfg, s)
    ensures Usage(s.status.tasks, CPU) == Scale(l).cpu && Usage(s.status.tasks, MEM) == Scale(l).mem
    ensures !UsageFits(s.status.tasks, LoadOf(max))
  {
    cfg := OneConfig(workflow, NOTHING, max, planner);
    PredictedDemand(planner, max, l);
    var a;
    s, a := OneStarted(cfg, NOTHING, max, Predicting(l));
  }

  /** With the in-process planner the persisted Running tasks always stay within MaxResources; with a service
      they do exactly when the cap survives the conversion. */
  lemma BoundsRunningIff(planner: Planner, max: ResourceList)
    ensures BoundsRunning(planner, max) <==> planner == InProcess || ExactCap(LoadOf(max))
  {
    var cap := LoadOf(max);
    CapSurvivesIff(cap);
    if planner == InProcess || ExactCap(cap) {
      forall workflow: string, tasks: seq<TaskTemplate>, s: State
             | Reachable(Config(workflow, Spec(tasks, max), planner), s)
        ensures UsageFits(s.status.tasks, cap)
      {
        ExactCapBounds(Config(workflow, Spec(tasks, max), planner), s);
      }
    } else {
      var l: Load :| Fits(Scale(l).cpu, Scale(l).mem, Scale(ToWire(cap))) && !Fits(Scale(l).cpu, Scale(l).mem, cap);
      var cfg, s := CapExceeded("", planner, max, l);
      assert cfg == Config("", Spec(cfg.spec.tasks, max), planner);
    }
  }
}
