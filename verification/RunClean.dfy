/** What holds additionally as long as every pod that is created has its task's start persisted: live pods
    respect the budget. Refused creations, failed listings, failed planning, and crashes and failed writes
    while nothing has been created are all allowed. */
module RunClean {
  import opened Loads
  import opened Quantities
  import opened Workflow
  import opened Planning
  import opened Machine
  import opened SafetyProof
  import opened RunSafety
  import opened RunBudget
  import opened RunRecords

  /** A task has been started since the statuses were last persisted. */
  ghost predicate StartUnwritten(s: State) {
    exists t :: t in s.status.tasks && t in View(s) && s.status.tasks[t].phase == Pending && View(s)[t].phase != Pending
  }

  ghost predicate CleanStep(s: State, step: Step) {
    step != Spawn(Lost) && (step == Abort ==> !StartUnwritten(s))
  }

  ghost predicate CleanRun(cfg: Config, states: seq<State>, steps: seq<Step>) {
    IsRun(cfg, states, steps) && forall i :: 0 <= i < |steps| ==> CleanStep(states[i], steps[i])
  }

  // ---- Live pods ----

  /** Every pod belongs to a started task and carries exactly the resources recorded for it. */
  ghost predicate Carried(s: State) {
    forall n :: n in s.pods ==> CarriedPod(View(s), s.pods[n])
  }

  predicate CarriedPod(view: Statuses, p: Pod) {
    && p.task in view
    && view[p.task].phase != Pending
    && view[p.task].resources == p.resources
  }

  /** The tasks still to be spawned are distinct and Pending. */
  ghost predicate PlanPending(s: State) {
    s.activity.Spawning? ==>
      && DistinctTasks(s.activity.plan)
      && forall a :: a in s.activity.plan ==> a.task in s.activity.tasks && s.activity.tasks[a.task].phase == Pending
  }

  function LiveShare(p: Pod, d: Dim): nat {
    if TerminalPod(p.phase) then 0 else Amount(p.resources.requests, d)
  }

  /** The summed requests of all pods that have not finished. */
  ghost function LiveUsage(pods: Pods, d: Dim): nat {
    Sum(map n | n in pods :: LiveShare(pods[n], d))
  }

  lemma LiveWithinView(cfg: Config, s: State, d: Dim)
    requires PodsNamed(cfg, s.pods) && Backed(cfg, s.pods, View(s)) && Carried(s)
    ensures LiveUsage(s.pods, d) <= Usage(View(s), d)
  {
    var live := map n | n in s.pods :: LiveShare(s.pods[n], d);
    var image := map n | n in s.pods :: s.pods[n].task;
    forall n | n in live && live[n] != 0
      ensures image[n] in View(s) && Shares(View(s), d)[image[n]] == live[n]
    {
      assert CarriedPod(View(s), s.pods[n]);
      assert View(s)[s.pods[n].task].phase == Running;
    }
    SumEmbeds(live, Shares(View(s), d), image);
  }

  lemma SyncCarried(cfg: Config, tasks: Statuses, p: Pod, q: Pod)
    requires CarriedPod(tasks, q)
    ensures CarriedPod(SyncTask(tasks, p), q)
  {
  }

  lemma CreateCarried(cfg: Config, pods: Pods, tasks: Statuses, a: TaskAllocation)
    requires LowerUnique(cfg.spec) && PodsNamed(cfg, pods) && a.task in Names(cfg.spec)
    requires a.task in tasks && tasks[a.task].phase == Pending
    requires forall n :: n in pods ==> CarriedPod(tasks, pods[n])
    ensures var after := CreatePod(cfg.workflow, pods, a);
            forall n :: n in after ==> CarriedPod(Launch(cfg.workflow, tasks, a), after[n])
  {
    var name := PodName(cfg.workflow, a.task);
    if name in pods {
      assert CarriedPod(tasks, pods[name]);
      PodNameClash(cfg.workflow, a.task, pods[name].task);
      LowerUniqueNames(cfg.spec, a.task, pods[name].task);
      assert false;
    }
    var after := CreatePod(cfg.workflow, pods, a);
    forall n | n in after
      ensures CarriedPod(Launch(cfg.workflow, tasks, a), after[n])
    {
      if n != name {
        assert CarriedPod(tasks, pods[n]);
      }
    }
  }

  lemma SpawnCarried(cfg: Config, s: State, outcome: CreateOutcome)
    requires LowerUnique(cfg.spec) && PodsNamed(cfg, s.pods) && Carried(s) && PlanPending(s)
    requires Enabled(cfg, s, Spawn(outcome)) && outcome != Lost
    ensures Carried(SpawnFirst(cfg, s, outcome)) && PlanPending(SpawnFirst(cfg, s, outcome))
  {
    var plan := s.activity.plan;
    assert plan[0] in plan;
    if outcome == Created {
      CreateCarried(cfg, s.pods, s.activity.tasks, plan[0]);
    }
    forall a | a in plan[1..]
      ensures a in plan && a.task != plan[0].task
    {
      var i :| 0 <= i < |plan| - 1 && plan[1..][i] == a;
      assert plan[i + 1] == a;
    }
  }

  lemma MoveCarried(s: State, name: string, phase: PodPhase)
    requires Carried(s) && name in s.pods
    ensures Carried(MovePod(s, name, phase))
  {
    var after := MovePod(s, name, phase);
    forall n | n in after.pods
      ensures CarriedPod(View(after), after.pods[n])
    {
      assert CarriedPod(View(s), s.pods[n]);
    }
  }

  lemma SyncFirstCarried(cfg: Config, s: State)
    requires Carried(s) && s.activity.Syncing? && s.activity.todo != []
    ensures Carried(SyncFirst(s))
  {
    forall n | n in s.pods
      ensures CarriedPod(View(SyncFirst(s)), s.pods[n])
    {
      assert CarriedPod(View(s), s.pods[n]);
      SyncCarried(cfg, s.activity.tasks, s.activity.todo[0], s.pods[n]);
    }
  }

  lemma PlanStepPending(cfg: Config, s: State, predictions: Predictions)
    requires UniqueNames(cfg.spec) && Safe(cfg, s) && s.activity.Syncing?
    ensures PlanPending(s.(activity := Spawning(s.activity.tasks,
                                                PlanWith(cfg.planner, cfg.spec, s.activity.tasks, predictions))))
  {
    PlanIsDistinct(cfg.planner, cfg.spec, s.activity.tasks, predictions);
    forall a | a in PlanWith(cfg.planner, cfg.spec, s.activity.tasks, predictions)
      ensures a.task in s.activity.tasks && s.activity.tasks[a.task].phase == Pending
    {
      PlannedMayStart(cfg, s, predictions, a);
    }
  }

  lemma JudgePending(cfg: Config, s: State, predictions: Predictions)
    requires UniqueNames(cfg.spec) && Safe(cfg, s) && s.activity.Syncing?
    ensures PlanPending(JudgeTasks(cfg, s, predictions))
  {
    PlanStepPending(cfg, s, predictions);
  }

  /** The resources persisted for started tasks are those in the working copy. */
  ghost predicate Remembered(s: State) {
    forall t :: t in s.status.tasks && s.status.tasks[t].phase != Pending ==>
      t in View(s) && View(s)[t].resources == s.status.tasks[t].resources
  }

  lemma SpawnRemembered(cfg: Config, s: State, outcome: CreateOutcome)
    requires Remembered(s) && PlanPending(s) && Ahead(s) && Enabled(cfg, s, Spawn(outcome))
    ensures Remembered(SpawnFirst(cfg, s, outcome))
  {
    assert s.activity.plan[0] in s.activity.plan;
  }

  lemma StepRemembered(cfg: Config, s: State, step: Step)
    requires Ahead(s) && Remembered(s) && PlanPending(s) && Enabled(cfg, s, step)
    ensures Remembered(Do(cfg, s, step))
  {
    match step
    case Initialise =>
    case Begin(_) =>
    case SyncOne =>
    case Judge(_) =>
    case Spawn(outcome) => SpawnRemembered(cfg, s, outcome);
    case Finish =>
    case Abort =>
    case PodMoves(_, _) =>
  }

  lemma AbortCarried(cfg: Config, s: State)
    requires Shape(cfg, s) && Carried(s) && Remembered(s) && s.activity != Idle && !StartUnwritten(s)
    ensures Carried(s.(activity := Idle))
  {
    forall n | n in s.pods
      ensures CarriedPod(s.status.tasks, s.pods[n])
    {
      assert CarriedPod(View(s), s.pods[n]);
    }
  }

  lemma InitialiseCarried(cfg: Config, s: State)
    requires Carried(s) && s.activity == Idle && s.status.tasks == map[]
    ensures Carried(s.(status := Status(WorkflowPending, FreshStatuses(cfg.spec), s.status.usage)))
  {
    assert forall n :: n in s.pods ==> CarriedPod(View(s), s.pods[n]);
    assert s.pods.Keys == {};
  }

  lemma StepCarried(cfg: Config, s: State, step: Step)
    requires LowerUnique(cfg.spec) && Safe(cfg, s) && Carried(s) && Remembered(s) && PlanPending(s)
    requires Enabled(cfg, s, step) && CleanStep(s, step)
    ensures Carried(Do(cfg, s, step)) && PlanPending(Do(cfg, s, step))
  {
    match step
    case Initialise => InitialiseCarried(cfg, s);
    case Begin(_) =>
    case SyncOne => SyncFirstCarried(cfg, s);
    case Judge(predictions) =>
      LowerUniqueIsUnique(cfg.spec);
      JudgeKeepsView(cfg, s, predictions);
      JudgePending(cfg, s, predictions);
    case Spawn(outcome) => SpawnCarried(cfg, s, outcome);
    case Finish =>
    case Abort => AbortCarried(cfg, s);
    case PodMoves(name, phase) => MoveCarried(s, name, phase);
  }

  lemma LowerUniqueIsUnique(spec: Spec)
    requires LowerUnique(spec)
    ensures UniqueNames(spec)
  {
    forall i, j | 0 <= i < j < |spec.tasks|
      ensures spec.tasks[i].name != spec.tasks[j].name
    {
      assert Lower(spec.tasks[i].name) != Lower(spec.tasks[j].name);
    }
  }

  lemma RunStepCarried(cfg: Config, states: seq<State>, steps: seq<Step>, i: nat)
    requires LowerUnique(cfg.spec) && CleanRun(cfg, states, steps) && i < |steps|
    requires Carried(states[i]) && Remembered(states[i]) && PlanPending(states[i])
    ensures Carried(states[i + 1]) && Remembered(states[i + 1]) && PlanPending(states[i + 1])
  {
    RunsAreSafe(cfg, states, steps, i);
    StepRemembered(cfg, states[i], steps[i]);
    StepCarried(cfg, states[i], steps[i]);
  }

  lemma {:induction false} CleanRunsCarry(cfg: Config, states: seq<State>, steps: seq<Step>, i: nat)
    requires LowerUnique(cfg.spec) && CleanRun(cfg, states, steps) && i < |states|
    ensures Carried(states[i]) && Remembered(states[i]) && PlanPending(states[i])
  {
    if i > 0 {
      CleanRunsCarry(cfg, states, steps, i - 1);
      RunStepCarried(cfg, states, steps, i - 1);
    }
  }

  /** As long as no start goes unwritten, the pods that are actually alive respect the budget at every
      moment, also between two creations of the same Reconcile. */
  lemma LivePodsWithinBudget(cfg: Config, states: seq<State>, steps: seq<Step>, i: nat)
    requires LowerUnique(cfg.spec) && CleanRun(cfg, states, steps) && i < |states|
    ensures Fits(LiveUsage(states[i].pods, CPU), LiveUsage(states[i].pods, MEM), EffectiveCap(cfg.planner, cfg.spec))
  {
    RunsAreSafe(cfg, states, steps, i);
    CleanRunsCarry(cfg, states, steps, i);
    RunsAreBudgeted(cfg, states, steps, i);
    LiveWithinView(cfg, states[i], CPU);
    LiveWithinView(cfg, states[i], MEM);
  }
}
