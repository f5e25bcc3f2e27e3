/** What one uninterrupted Reconcile does to the statuses, the execution records and the usage. */
module ReconcileEffects {
  import opened Loads
  import opened Workflow
  import opened Planning
  import opened Machine
  import opened RunBudget
  import opened RunRecords
  import opened RunUsage
  import opened Reconciling

  // ---- Folding the pods in: the result is what each task's own pod says, whatever the listing order ----

  predicate HasEnded(cfg: Config, pods: Pods, t: string) {
    t != "" && (PodIs(cfg, pods, t, PodSucceeded) || PodIs(cfg, pods, t, PodFailed))
  }

  function ObservedPhase(cfg: Config, pods: Pods, t: string, phase: TaskPhase): TaskPhase {
    if phase != Running || !HasEnded(cfg, pods, t) then phase
    else if PodIs(cfg, pods, t, PodSucceeded) then Succeeded
    else Failed
  }

  function Observed(cfg: Config, pods: Pods, tasks: Statuses): Statuses {
    map t | t in tasks :: tasks[t].(phase := ObservedPhase(cfg, pods, t, tasks[t].phase))
  }

  /** Pods not labelled t do not touch t; the first finished pod labelled t decides. */
  lemma {:induction false} SyncAllAt(tasks: Statuses, listing: seq<Pod>, t: string)
    requires t in tasks
    ensures t in SyncAll(tasks, listing)
    ensures (t == "" || tasks[t].phase != Running || forall p :: p in listing && p.task == t ==> !TerminalPod(p.phase))
            ==> SyncAll(tasks, listing)[t] == tasks[t]
    ensures t != "" && tasks[t].phase == Running ==>
              forall p :: p in listing && p.task == t && TerminalPod(p.phase)
                          && (forall q :: q in listing && q.task == t ==> q.phase == p.phase) ==>
                SyncAll(tasks, listing)[t] == tasks[t].(phase := if p.phase == PodSucceeded then Succeeded else Failed)
    decreases |listing|
  {
    if listing != [] {
      var next := SyncTask(tasks, listing[0]);
      SyncAllAt(next, listing[1..], t);
      assert forall p :: p in listing <==> p == listing[0] || p in listing[1..];
    }
  }

  lemma SyncedTask(cfg: Config, pods: Pods, listing: seq<Pod>, tasks: Statuses, t: string)
    requires IsListing(pods, listing) && PodsNamed(cfg, pods) && t in tasks
    ensures t in SyncAll(tasks, listing) && SyncAll(tasks, listing)[t] == Observed(cfg, pods, tasks)[t]
  {
    SyncAllAt(tasks, listing, t);
    var n := PodName(cfg.workflow, t);
    forall p | p in listing && p.task == t
      ensures n in pods && pods[n] == p
    {
      assert p.name == n;
    }
    if HasEnded(cfg, pods, t) && tasks[t].phase == Running {
      assert pods[n] in listing;
    }
  }

  /** The statuses after folding in a listing are a function of the pods alone: every order of the same
      pods gives the same statuses, and the same execution records up to order. */
  lemma SyncIgnoresOrder(cfg: Config, pods: Pods, listing: seq<Pod>, tasks: Statuses)
    requires IsListing(pods, listing) && PodsNamed(cfg, pods)
    ensures SyncAll(tasks, listing) == Observed(cfg, pods, tasks)
    ensures multiset(RecordAll(tasks, listing)) ==
            multiset(SucceededIn(Observed(cfg, pods, tasks)) - SucceededIn(tasks))
  {
    SyncAllKeys(tasks, listing);
    forall t | t in tasks
      ensures SyncAll(tasks, listing)[t] == Observed(cfg, pods, tasks)[t]
    {
      SyncedTask(cfg, pods, listing, tasks, t);
    }
    assert SyncAll(tasks, listing) == Observed(cfg, pods, tasks);
    RecordsOfSync(tasks, listing);
  }

  /** Whether the pod of a task named "" has failed makes no difference to what the controller sees. */
  lemma NamelessFailureIsIgnored(cfg: Config, pods: Pods, name: string, tasks: Statuses)
    requires PodsNamed(cfg, pods) && name in pods && pods[name].task == ""
    ensures Observed(cfg, pods[name := pods[name].(phase := PodFailed)], tasks) == Observed(cfg, pods, tasks)
  {
    var failed := pods[name := pods[name].(phase := PodFailed)];
    forall t | t in tasks
      ensures HasEnded(cfg, failed, t) == HasEnded(cfg, pods, t)
      ensures t != "" ==> PodIs(cfg, failed, t, PodSucceeded) == PodIs(cfg, pods, t, PodSucceeded)
    {
    }
  }

  lemma {:induction false} RecordsOfSync(tasks: Statuses, listing: seq<Pod>)
    ensures SucceededIn(tasks) <= SucceededIn(SyncAll(tasks, listing))
    ensures multiset(RecordAll(tasks, listing)) == multiset(SucceededIn(SyncAll(tasks, listing)) - SucceededIn(tasks))
    decreases |listing|
  {
    if listing != [] {
      var next := SyncTask(tasks, listing[0]);
      RecordsOfSync(next, listing[1..]);
      SyncRecords(tasks, listing[0]);
      var end := SucceededIn(SyncAll(tasks, listing));
      AddedInTwoSteps(SucceededIn(tasks), SucceededIn(next), end);
      AddedInTwoSteps({}, SucceededIn(tasks), SucceededIn(next));
      assert SucceededIn(tasks) - {} == SucceededIn(tasks) && SucceededIn(next) - {} == SucceededIn(next);
    }
  }

  lemma AddedInTwoSteps(a: set<string>, b: set<string>, c: set<string>)
    requires a <= b <= c
    ensures multiset(c - a) == multiset(b - a) + multiset(c - b)
  {
  }

  // ---- Conservation of usage ----

  /** The sync only ends Running tasks: everything else about them, and every other task, stays. */
  lemma SyncFolds(cfg: Config, pods: Pods, tasks: Statuses)
    ensures Folded(tasks, Observed(cfg, pods, tasks))
  {
  }

  lemma SyncConserves(cfg: Config, pods: Pods, tasks: Statuses, d: Dim)
    ensures Usage(Observed(cfg, pods, tasks), d) + Freed(tasks, Observed(cfg, pods, tasks), d) == Usage(tasks, d)
  {
    SyncFolds(cfg, pods, tasks);
    FoldConserves(tasks, Observed(cfg, pods, tasks), d);
  }

  /** This Reconcile gets as far as writing a plan's outcome. */
  ghost predicate Plans(cfg: Config, s: State, w: World) {
    && Sees(s, w)
    && s.status.tasks != map[]
    && !TerminalWorkflow(s.status.phase)
    && w.listOk && w.planOk && w.writeOk
    && !AnyFailed(Observed(cfg, s.pods, s.status.tasks))
    && !AllSucceeded(Observed(cfg, s.pods, s.status.tasks))
  }

  ghost function PlanOf(cfg: Config, s: State, w: World): seq<TaskAllocation> {
    PlanWith(cfg.planner, cfg.spec, Observed(cfg, s.pods, s.status.tasks), w.predictions)
  }

  lemma PlansResult(cfg: Config, s: State, w: World)
    requires Plans(cfg, s, w) && PodsNamed(cfg, s.pods)
    ensures var after := LaunchAll(cfg.workflow, Observed(cfg, s.pods, s.status.tasks),
                                   Successes(PlanOf(cfg, s, w), w.creations));
            Reconcile(cfg, s, w).status == Status(WorkflowRunning, after, UsageOf(after))
    ensures Reconcile(cfg, s, w).pods == CreateAll(cfg.workflow, s.pods, PlanOf(cfg, s, w), w.creations)
    ensures Reconcile(cfg, s, w).activity == Idle
  {
    SyncIgnoresOrder(cfg, s.pods, w.listing, s.status.tasks);
  }

  lemma {:induction false} SuccessesAreCreated(plan: seq<TaskAllocation>, creations: seq<CreateOutcome>)
    requires forall o :: o in creations ==> o == Created
    ensures Successes(plan, creations) == plan
    decreases |plan|
  {
    if plan != [] {
      assert creations != [] ==> creations[0] in creations;
      assert forall o :: o in Later(creations) ==> o in creations;
      SuccessesAreCreated(plan[1..], Later(creations));
    }
  }

  lemma {:induction false} SuccessesArePlanned(plan: seq<TaskAllocation>, creations: seq<CreateOutcome>)
    ensures forall a :: a in Successes(plan, creations) ==> a in plan
    decreases |plan|
  {
    if plan != [] {
      SuccessesArePlanned(plan[1..], Later(creations));
    }
  }

  lemma {:induction false} SuccessesAreDistinct(plan: seq<TaskAllocation>, creations: seq<CreateOutcome>)
    requires DistinctTasks(plan)
    ensures DistinctTasks(Successes(plan, creations))
    decreases |plan|
  {
    if plan != [] {
      var rest := Successes(plan[1..], Later(creations));
      SuccessesAreDistinct(plan[1..], Later(creations));
      SuccessesArePlanned(plan[1..], Later(creations));
      forall a | a in rest
        ensures a.task != plan[0].task
      {
        var i :| 0 <= i < |plan| - 1 && plan[1..][i] == a;
        assert plan[i + 1] == a;
      }
    }
  }

  lemma SuccessesOfPlan(plan: seq<TaskAllocation>, creations: seq<CreateOutcome>)
    ensures forall a :: a in Successes(plan, creations) ==> a in plan
    ensures DistinctTasks(plan) ==> DistinctTasks(Successes(plan, creations))
    ensures (forall o :: o in creations ==> o == Created) ==> Successes(plan, creations) == plan
  {
    SuccessesArePlanned(plan, creations);
    if DistinctTasks(plan) {
      SuccessesAreDistinct(plan, creations);
    }
    if forall o :: o in creations ==> o == Created {
      SuccessesAreCreated(plan, creations);
    }
  }

  lemma PlannedArePending(cfg: Config, s: State, w: World)
    requires Safe(cfg, s) && Plans(cfg, s, w)
    ensures Observed(cfg, s.pods, s.status.tasks).Keys == Names(cfg.spec)
    ensures forall a :: a in PlanOf(cfg, s, w) ==>
              && a.task in Observed(cfg, s.pods, s.status.tasks)
              && Observed(cfg, s.pods, s.status.tasks)[a.task].phase == Pending
  {
    forall a | a in PlanOf(cfg, s, w)
      ensures a.task in s.status.tasks && Observed(cfg, s.pods, s.status.tasks)[a.task].phase == Pending
    {
      PlanIsEligible(cfg.planner, cfg.spec, Observed(cfg, s.pods, s.status.tasks), w.predictions, a);
    }
  }

  /** Usage is conserved: what the new status reports is the old usage, less the requests of the tasks
      found finished, plus the requests of the tasks actually started; when every creation succeeds that
      is exactly what the planner reckoned with. */
  lemma UsageIsConserved(cfg: Config, s: State, w: World, d: Dim)
    requires UniqueNames(cfg.spec) && Safe(cfg, s) && Plans(cfg, s, w)
    ensures var plan := PlanOf(cfg, s, w);
            var after := Reconcile(cfg, s, w).status;
            && after.usage.At(d) == Usage(after.tasks, d)
            && Usage(after.tasks, d) + Freed(s.status.tasks, Observed(cfg, s.pods, s.status.tasks), d)
               == Usage(s.status.tasks, d) + PlanAmount(Successes(plan, w.creations), d)
            && ((forall o :: o in w.creations ==> o == Created) ==>
                  Usage(after.tasks, d) == Usage(Observed(cfg, s.pods, s.status.tasks), d) + PlanAmount(plan, d))
  {
    var plan := PlanOf(cfg, s, w);
    PlansResult(cfg, s, w);
    SyncConserves(cfg, s.pods, s.status.tasks, d);
    PlannedArePending(cfg, s, w);
    PlanIsDistinct(cfg.planner, cfg.spec, Observed(cfg, s.pods, s.status.tasks), w.predictions);
    SuccessesOfPlan(plan, w.creations);
    LaunchAllUsage(cfg.workflow, Observed(cfg, s.pods, s.status.tasks), Successes(plan, w.creations), d);
  }

  lemma ReachableFits(cfg: Config, s: State)
    requires Reachable(cfg, s)
    ensures UsageFits(s.status.tasks, EffectiveCap(cfg.planner, cfg.spec))
  {
    var states, steps :| EndsIn(cfg, states, steps, s);
    BudgetHolds(cfg, states, steps, |steps|);
  }

  lemma ReachableIsTidy(cfg: Config, s: State)
    requires Reachable(cfg, s)
    ensures Tidy(cfg.planner, s.status.tasks)
  {
    var states, steps :| EndsIn(cfg, states, steps, s);
    RunsAreBudgeted(cfg, states, steps, |steps|);
  }

  lemma ReachableIsReported(cfg: Config, s: State)
    requires Reachable(cfg, s)
    ensures Reported(s)
  {
    var states, steps :| EndsIn(cfg, states, steps, s);
    ReportedUsageIsAccurate(cfg, states, steps, |steps|);
  }

  lemma FailingReconcile(cfg: Config, s: State, w: World)
    requires Sees(s, w) && PodsNamed(cfg, s.pods) && !TerminalWorkflow(s.status.phase)
    requires Reconcile(cfg, s, w).status.phase == WorkflowFailed
    ensures Reconcile(cfg, s, w).status ==
            Status(WorkflowFailed, Observed(cfg, s.pods, s.status.tasks), s.status.usage)
  {
    if s.status.tasks != map[] && w.listOk {
      SyncIgnoresOrder(cfg, s.pods, w.listing, s.status.tasks);
    }
  }

  /** A Reconcile that fails the workflow leaves the right usage behind exactly when the tasks whose pods
      it finds finished had requested nothing. */
  lemma FailedReconcileUsageIff(cfg: Config, s: State, w: World)
    requires Reachable(cfg, s) && Sees(s, w) && !TerminalWorkflow(s.status.phase)
    requires Reconcile(cfg, s, w).status.phase == WorkflowFailed
    ensures var after := Reconcile(cfg, s, w).status;
            && after.tasks == Observed(cfg, s.pods, s.status.tasks)
            && (after.usage == UsageOf(after.tasks) <==>
                Freed(s.status.tasks, after.tasks, CPU) == 0 && Freed(s.status.tasks, after.tasks, MEM) == 0)
  {
    var observed := Observed(cfg, s.pods, s.status.tasks);
    ReachableIsSafe(cfg, s);
    ReachableIsReported(cfg, s);
    FailingReconcile(cfg, s, w);
    SyncConserves(cfg, s.pods, s.status.tasks, CPU);
    SyncConserves(cfg, s.pods, s.status.tasks, MEM);
    LoadsEqualIff(UsageOf(s.status.tasks), UsageOf(observed),
                  Freed(s.status.tasks, observed, CPU), Freed(s.status.tasks, observed, MEM));
  }
}
