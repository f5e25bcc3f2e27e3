/** Repeating a Reconcile. */
module Repeating {
  import opened Workflow
  import opened Planning
  import opened Schedule
  import opened Machine
  import opened RunClean
  import opened Reconciling
  import opened ReconcileEffects

  lemma CreatePodEnds(cfg: Config, pods: Pods, a: TaskAllocation, t: string)
    ensures HasEnded(cfg, CreatePod(cfg.workflow, pods, a), t) <==> HasEnded(cfg, pods, t)
  {
  }

  /** Creating pods finishes nobody. */
  lemma {:induction false} CreateAllEnds(cfg: Config, pods: Pods, plan: seq<TaskAllocation>,
                                         creations: seq<CreateOutcome>, t: string)
    ensures HasEnded(cfg, CreateAll(cfg.workflow, pods, plan, creations), t) <==> HasEnded(cfg, pods, t)
    decreases |plan|
  {
    if plan != [] {
      CreatePodEnds(cfg, pods, plan[0], t);
      CreateAllEnds(cfg, if First(creations) == Refused then pods else CreatePod(cfg.workflow, pods, plan[0]),
                    plan[1..], Later(creations), t);
    }
  }

  /** None of the tasks about to be started has a finished pod from an earlier, interrupted attempt. */
  predicate NoLeftovers(cfg: Config, pods: Pods, plan: seq<TaskAllocation>) {
    forall a :: a in plan ==> !HasEnded(cfg, pods, a.task)
  }

  lemma NothingToObserve(cfg: Config, pods: Pods, tasks: Statuses)
    ensures Observed(cfg, pods, tasks) == tasks <==>
            forall t :: t in tasks && tasks[t].phase == Running ==> !HasEnded(cfg, pods, t)
  {
    if Observed(cfg, pods, tasks) == tasks {
      forall t | t in tasks && tasks[t].phase == Running
        ensures !HasEnded(cfg, pods, t)
      {
        assert Observed(cfg, pods, tasks)[t] == tasks[t];
      }
    }
  }

  lemma StillRunning(cfg: Config, before: Pods, after: Pods, tasks: Statuses, plan: seq<TaskAllocation>)
    requires forall t :: HasEnded(cfg, after, t) <==> HasEnded(cfg, before, t)
    requires DistinctTasks(plan) && forall a :: a in plan ==> a.task in tasks
    ensures var launched := LaunchAll(cfg.workflow, Observed(cfg, before, tasks), plan);
            (forall t :: t in launched && launched[t].phase == Running ==> !HasEnded(cfg, after, t)) <==>
            NoLeftovers(cfg, before, plan)
  {
    var observed := Observed(cfg, before, tasks);
    var launched := LaunchAll(cfg.workflow, observed, plan);
    LaunchAllEffect(cfg.workflow, observed, plan);
    if NoLeftovers(cfg, before, plan) {
      forall t | t in launched && launched[t].phase == Running
        ensures !HasEnded(cfg, after, t)
      {
        if !Has(plan, t) {
          assert launched[t] == observed[t];
        }
      }
    } else {
      var a :| a in plan && HasEnded(cfg, before, a.task);
      assert launched[a.task].phase == Running;
    }
  }

  /** After a Reconcile whose creations all succeeded, the next sync finds nothing new exactly when none
      of the started tasks had a finished pod already. */
  lemma NextSyncIsIdle(cfg: Config, s: State, w: World)
    requires UniqueNames(cfg.spec) && Safe(cfg, s) && Plans(cfg, s, w)
    requires forall o :: o in w.creations ==> o == Created
    ensures var next := Reconcile(cfg, s, w);
            Observed(cfg, next.pods, next.status.tasks) == next.status.tasks <==>
            NoLeftovers(cfg, s.pods, PlanOf(cfg, s, w))
  {
    var next, plan := Reconcile(cfg, s, w), PlanOf(cfg, s, w);
    PlansResult(cfg, s, w);
    SuccessesOfPlan(plan, w.creations);
    PlannedArePending(cfg, s, w);
    PlanIsDistinct(cfg.planner, cfg.spec, Observed(cfg, s.pods, s.status.tasks), w.predictions);
    forall t
      ensures HasEnded(cfg, next.pods, t) <==> HasEnded(cfg, s.pods, t)
    {
      CreateAllEnds(cfg, s.pods, plan, w.creations, t);
    }
    StillRunning(cfg, s.pods, next.pods, s.status.tasks, plan);
    NothingToObserve(cfg, next.pods, next.status.tasks);
  }

  lemma ObservedTidy(cfg: Config, pods: Pods, tasks: Statuses)
    requires Tidy(cfg.planner, tasks)
    ensures Tidy(cfg.planner, Observed(cfg, pods, tasks))
  {
  }

  lemma LaunchedGoesOn(workflow: string, tasks: Statuses, plan: seq<TaskAllocation>)
    requires !AnyFailed(tasks) && !AllSucceeded(tasks)
    requires DistinctTasks(plan) && forall a :: a in plan ==> a.task in tasks
    ensures !AnyFailed(LaunchAll(workflow, tasks, plan)) && !AllSucceeded(LaunchAll(workflow, tasks, plan))
  {
    var launched := LaunchAll(workflow, tasks, plan);
    LaunchAllEffect(workflow, tasks, plan);
    forall t | t in launched
      ensures launched[t].phase != Failed && (launched[t].phase == Succeeded ==> tasks[t].phase == Succeeded)
    {
      if !Has(plan, t) {
        assert launched[t] == tasks[t];
      }
    }
    var t :| t in tasks && tasks[t].phase != Succeeded;
    assert t in launched;
  }

  /** What the first Reconcile leaves behind for the second. */
  lemma FirstReconcile(cfg: Config, s: State, w: World)
    requires UniqueNames(cfg.spec) && Reachable(cfg, s) && Plans(cfg, s, w)
    requires forall o :: o in w.creations ==> o == Created
    ensures var next := Reconcile(cfg, s, w);
            && next.activity == Idle && next.status.phase == WorkflowRunning
            && next.status.tasks.Keys == Names(cfg.spec) && next.status.tasks != map[]
            && next.status.usage == UsageOf(next.status.tasks)
            && !AnyFailed(next.status.tasks) && !AllSucceeded(next.status.tasks)
            && PlanWith(cfg.planner, cfg.spec, next.status.tasks, w.predictions) == []
  {
    ReachableIsSafe(cfg, s);
    ReachableIsTidy(cfg, s);
    var observed, plan := Observed(cfg, s.pods, s.status.tasks), PlanOf(cfg, s, w);
    PlansResult(cfg, s, w);
    SuccessesOfPlan(plan, w.creations);
    PlannedArePending(cfg, s, w);
    PlanIsDistinct(cfg.planner, cfg.spec, observed, w.predictions);
    LaunchedGoesOn(cfg.workflow, observed, plan);
    LaunchAllEffect(cfg.workflow, observed, plan);
    ObservedTidy(cfg, s.pods, s.status.tasks);
    ReplanStartsNothing(cfg.planner, cfg.workflow, cfg.spec, observed, w.predictions);
  }

  /** If the sync finds nothing and the plan is empty, the Reconcile changes nothing. */
  lemma QuietReconcile(cfg: Config, s: State, w: World)
    requires Sees(s, w) && w.listOk && PodsNamed(cfg, s.pods)
    requires s.status.phase == WorkflowRunning && s.status.tasks != map[] && s.status.usage == UsageOf(s.status.tasks)
    requires Observed(cfg, s.pods, s.status.tasks) == s.status.tasks
    requires !AnyFailed(s.status.tasks) && !AllSucceeded(s.status.tasks)
    requires PlanWith(cfg.planner, cfg.spec, s.status.tasks, w.predictions) == []
    ensures Reconcile(cfg, s, w) == s
  {
    SyncIgnoresOrder(cfg, s.pods, w.listing, s.status.tasks);
    var records := RecordAll(s.status.tasks, w.listing);
    assert |records| == |multiset(records)| == 0;
    assert s.executions + records == s.executions;
  }

  lemma BusyPlan(cfg: Config, s: State, w: World, t: string)
    requires Safe(cfg, s) && Plans(cfg, s, w)
    requires t in s.status.tasks && Observed(cfg, s.pods, s.status.tasks)[t].phase != Pending
    ensures t in Reconcile(cfg, s, w).status.tasks
    ensures Reconcile(cfg, s, w).status.tasks[t] == Observed(cfg, s.pods, s.status.tasks)[t]
  {
    PlansResult(cfg, s, w);
    PlannedArePending(cfg, s, w);
    SuccessesOfPlan(PlanOf(cfg, s, w), w.creations);
    LaunchAllEffect(cfg.workflow, Observed(cfg, s.pods, s.status.tasks), Successes(PlanOf(cfg, s, w), w.creations));
  }

  lemma EndingReconcile(cfg: Config, s: State, w: World)
    requires Sees(s, w) && w.listOk && w.planOk && w.writeOk && PodsNamed(cfg, s.pods)
    requires s.status.tasks != map[] && !TerminalWorkflow(s.status.phase) && !Plans(cfg, s, w)
    ensures Reconcile(cfg, s, w).status.tasks == Observed(cfg, s.pods, s.status.tasks)
  {
    SyncIgnoresOrder(cfg, s.pods, w.listing, s.status.tasks);
  }

  /** If the sync finds something, the statuses change. */
  lemma BusyReconcile(cfg: Config, s: State, w: World)
    requires Sees(s, w) && w.listOk && w.planOk && w.writeOk && Safe(cfg, s)
    requires s.status.tasks != map[] && !TerminalWorkflow(s.status.phase)
    requires Observed(cfg, s.pods, s.status.tasks) != s.status.tasks
    ensures Reconcile(cfg, s, w).status.tasks != s.status.tasks
  {
    NothingToObserve(cfg, s.pods, s.status.tasks);
    var t :| t in s.status.tasks && s.status.tasks[t].phase == Running && HasEnded(cfg, s.pods, t);
    if Plans(cfg, s, w) {
      BusyPlan(cfg, s, w, t);
    } else {
      EndingReconcile(cfg, s, w);
    }
  }

  /** Repeating a Reconcile whose creations all succeeded, with the same predictions and with no pod
      having moved in between, changes nothing at all, exactly when none of the tasks it started had a
      finished pod left over from an interrupted attempt. */
  lemma RepeatChangesNothingIff(cfg: Config, s: State, w: World, again: World)
    requires UniqueNames(cfg.spec) && Reachable(cfg, s) && Plans(cfg, s, w)
    requires forall o :: o in w.creations ==> o == Created
    requires Sees(Reconcile(cfg, s, w), again) && again.listOk && again.planOk && again.writeOk
    requires again.predictions == w.predictions
    ensures Reconcile(cfg, Reconcile(cfg, s, w), again) == Reconcile(cfg, s, w) <==>
            NoLeftovers(cfg, s.pods, PlanOf(cfg, s, w))
  {
    var next := Reconcile(cfg, s, w);
    ReachableIsSafe(cfg, s);
    ReconcileStaysReachable(cfg, s, w);
    ReachableIsSafe(cfg, next);
    FirstReconcile(cfg, s, w);
    NextSyncIsIdle(cfg, s, w);
    if Observed(cfg, next.pods, next.status.tasks) == next.status.tasks {
      QuietReconcile(cfg, next, again);
    } else {
      BusyReconcile(cfg, next, again);
    }
  }

  lemma NoPodNoLeftover(cfg: Config, s: State, w: World)
    requires Safe(cfg, s) && Carried(s) && Plans(cfg, s, w)
    ensures NoLeftovers(cfg, s.pods, PlanOf(cfg, s, w))
  {
    PlannedArePending(cfg, s, w);
    forall a | a in PlanOf(cfg, s, w)
      ensures !HasEnded(cfg, s.pods, a.task)
    {
      var n := PodName(cfg.workflow, a.task);
      assert n in s.pods ==> CarriedPod(View(s), s.pods[n]);
    }
  }

  lemma RunPrefix(cfg: Config, states: seq<State>, steps: seq<Step>, i: nat)
    requires IsRun(cfg, states, steps) && i < |states|
    ensures Reachable(cfg, states[i])
  {
    assert EndsIn(cfg, states[..i + 1], steps[..i], states[i]);
  }

  /** As long as no start goes unwritten there are no leftovers, and every such repetition changes nothing. */
  lemma CleanRunsRepeatQuietly(cfg: Config, states: seq<State>, steps: seq<Step>, i: nat, w: World, again: World)
    requires LowerUnique(cfg.spec) && CleanRun(cfg, states, steps) && i < |states|
    requires Plans(cfg, states[i], w) && forall o :: o in w.creations ==> o == Created
    requires Sees(Reconcile(cfg, states[i], w), again) && again.listOk && again.planOk && again.writeOk
    requires again.predictions == w.predictions
    ensures Reconcile(cfg, Reconcile(cfg, states[i], w), again) == Reconcile(cfg, states[i], w)
  {
    RunPrefix(cfg, states, steps, i);
    ReachableIsSafe(cfg, states[i]);
    CleanRunsCarry(cfg, states, steps, i);
    NoPodNoLeftover(cfg, states[i], w);
    LowerUniqueIsUnique(cfg.spec);
    RepeatChangesNothingIff(cfg, states[i], w, again);
  }
}
