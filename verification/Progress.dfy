/** How many rounds a workflow takes. */
module Progress {
  import opened Loads
  import opened Quantities
  import opened Workflow
  import opened Planning
  import opened Schedule
  import opened Machine
  import opened SafetyProof
  import opened RunSafety
  import opened RunBudget
  import opened RunBlocked
  import opened Reconciling
  import opened ReconcileEffects
  import opened Repeating
  import opened Levels
  import opened Rounds
  import Go = GreedyPlanner

  // ---- What a round can start ----

  /** Between rounds an entry is eligible exactly when it is not started and all its dependencies are. */
  lemma EligibleIff(cfg: Config, s: State, i: nat)
    requires Nameable(cfg.spec) && Rested(cfg, s) && i < |cfg.spec.tasks|
    ensures Go.Eligible(cfg.spec.tasks[i], Observed(cfg, s.pods, s.status.tasks)) <==>
            cfg.spec.tasks[i].name in Todo(s) && Ready(cfg.spec.tasks[i], Begun(cfg.spec, s))
  {
    RestedIsRecoverable(cfg, s);
    RestedObserves(cfg, s);
    var task, observed := cfg.spec.tasks[i], Observed(cfg, s.pods, s.status.tasks);
    assert task.name in observed;
    forall k | 0 <= k < |task.dependencies|
      ensures Go.Satisfied(task.dependencies[k], observed) <==> task.dependencies[k] in Begun(cfg.spec, s)
    {
    }
  }

  lemma NothingRuns(cfg: Config, s: State)
    requires Nameable(cfg.spec) && Rested(cfg, s)
    ensures var observed := Observed(cfg, s.pods, s.status.tasks);
            Usage(observed, CPU) == 0 && Usage(observed, MEM) == 0 && Tidy(cfg.planner, observed)
  {
    RestedObserves(cfg, s);
    NoUsage(Observed(cfg, s.pods, s.status.tasks), CPU);
    NoUsage(Observed(cfg, s.pods, s.status.tasks), MEM);
  }

  /** As nothing runs between rounds, an eligible entry that fits on its own makes the plan non-empty. */
  lemma EligibleMeansPlan(cfg: Config, s: State, w: World, i: nat)
    requires Nameable(cfg.spec) && Rested(cfg, s) && i < |cfg.spec.tasks|
    requires FitsAlone(cfg, cfg.spec.tasks[i], w.predictions)
    requires Go.Eligible(cfg.spec.tasks[i], Observed(cfg, s.pods, s.status.tasks))
    ensures PlanOf(cfg, s, w) != []
  {
    NothingRuns(cfg, s);
    PlansWhenIdle(cfg.planner, cfg.spec, Observed(cfg, s.pods, s.status.tasks), w.predictions, i);
  }

  lemma StuckIsPending(cfg: Config, s: State)
    requires Reachable(cfg, s) && s.status.tasks.Keys == Names(cfg.spec)
    ensures Stuck(cfg.spec) <= Todo(s)
  {
    var states, steps :| EndsIn(cfg, states, steps, s);
    StuckIsGreatestBlocked(cfg.spec);
    BlockedNeverStarts(cfg, states, steps, |steps|, Stuck(cfg.spec));
  }

  /** As long as something other than the stuck tasks is pending, an entry is eligible. */
  lemma SomethingEligible(cfg: Config, s: State) returns (i: nat)
    requires Nameable(cfg.spec) && Rested(cfg, s) && Todo(s) != Stuck(cfg.spec)
    ensures i < |cfg.spec.tasks| && cfg.spec.tasks[i].name in Todo(s)
    ensures Go.Eligible(cfg.spec.tasks[i], Observed(cfg, s.pods, s.status.tasks))
  {
    StuckIsPending(cfg, s);
    StuckIsGreatestBlocked(cfg.spec);
    assert !Blocked(cfg.spec, Todo(s));
    i :| 0 <= i < |cfg.spec.tasks| && cfg.spec.tasks[i].name in Todo(s)
         && !WaitsFor(cfg.spec, cfg.spec.tasks[i], Todo(s));
    EligibleIff(cfg, s, i);
  }

  lemma Shrinks(todo: set<string>, plan: seq<TaskAllocation>)
    requires plan != [] && forall a :: a in plan ==> a.task in todo
    ensures |todo - PlannedTasks(plan)| < |todo|
  {
    assert plan[0] in plan;
    assert plan[0].task in PlannedTasks(plan);
    CountWithin(todo - PlannedTasks(plan), todo - {plan[0].task});
  }

  lemma RoundProgress(cfg: Config, s: State, w: World)
    requires Nameable(cfg.spec) && Rested(cfg, s) && Smoothly(cfg, s, w)
    requires Affordable(cfg, Todo(s), w.predictions)
    ensures Todo(Round(cfg, s, w)) <= Todo(s)
    ensures Todo(s) != Stuck(cfg.spec) && Todo(s) != {} ==> |Todo(Round(cfg, s, w))| < |Todo(s)|
  {
    if Todo(s) == {} {
      LastRound(cfg, s, w);
    } else {
      MiddleRound(cfg, s, w);
      if Todo(s) != Stuck(cfg.spec) {
        var i := SomethingEligible(cfg, s);
        EligibleMeansPlan(cfg, s, w, i);
        PlannedAreTodo(cfg, s, w);
        Shrinks(Todo(s), PlanOf(cfg, s, w));
      }
    }
  }

  lemma PlannedAreTodo(cfg: Config, s: State, w: World)
    requires Nameable(cfg.spec) && Rested(cfg, s) && Plans(cfg, s, w)
    ensures forall a :: a in PlanOf(cfg, s, w) ==> a.task in Todo(s)
  {
    ReachableIsSafe(cfg, s);
    PlannedArePending(cfg, s, w);
    RestedObserves(cfg, s);
  }

  // ---- Many rounds ----

  lemma SmoothIsRecoverable(cfg: Config, s: State, ws: seq<World>)
    requires Recoverable(cfg, s) && Smooth(cfg, s, ws)
    ensures Recoverable(cfg, After(cfg, s, ws)) && Forward(s.status, After(cfg, s, ws).status)
    decreases |ws|
  {
    if ws != [] {
      var before, w := After(cfg, s, ws[..|ws| - 1]), ws[|ws| - 1];
      SmoothIsRecoverable(cfg, s, ws[..|ws| - 1]);
      RoundIsReachable(cfg, before, w);
      RoundSucceeds(cfg, before, w);
      ForwardTwice(s.status, before.status, Round(cfg, before, w).status);
    }
  }

  /** From the first round on, every round leaves a rested state behind. */
  lemma RoundsRest(cfg: Config, s: State, ws: seq<World>)
    requires Nameable(cfg.spec) && Recoverable(cfg, s) && Smooth(cfg, s, ws) && ws != []
    ensures Rested(cfg, After(cfg, s, ws))
  {
    SmoothIsRecoverable(cfg, s, ws[..|ws| - 1]);
    RoundRests(cfg, After(cfg, s, ws[..|ws| - 1]), ws[|ws| - 1]);
  }

  /** In every round each of these tasks fits the cap alone; predictions may differ from round to round. */
  ghost predicate AllAffordable(cfg: Config, names: set<string>, ws: seq<World>) {
    forall k :: 0 <= k < |ws| ==> Affordable(cfg, names, ws[k].predictions)
  }

  /** The first round may start nothing, as tasks may be running; each later one starts something until
      only the stuck tasks are left. */
  lemma {:induction false} RoundsProgress(cfg: Config, s: State, ws: seq<World>)
    requires Nameable(cfg.spec) && Recoverable(cfg, s) && Smooth(cfg, s, ws) && ws != []
    requires AllAffordable(cfg, Waiting(cfg.spec, s), ws)
    ensures Stuck(cfg.spec) <= Todo(After(cfg, s, ws)) <= Waiting(cfg.spec, s)
    ensures Todo(After(cfg, s, ws)) == Stuck(cfg.spec)
            || |Todo(After(cfg, s, ws))| + |ws| <= |Waiting(cfg.spec, s)| + 1
    decreases |ws|
  {
    var front, w := ws[..|ws| - 1], ws[|ws| - 1];
    RoundsRest(cfg, s, ws);
    StuckIsPending(cfg, After(cfg, s, ws));
    if front == [] {
      RoundRests(cfg, s, w);
      CountWithin(Todo(After(cfg, s, ws)), Waiting(cfg.spec, s));
    } else {
      RoundsRest(cfg, s, front);
      RoundsProgress(cfg, s, front);
      RoundProgress(cfg, After(cfg, s, front), w);
    }
  }

  /** Recovery: from any state that a run reaches without a failed pod, however many Reconciles crashed on
      the way, one more round than there are waiting tasks leaves exactly the tasks in the greatest blocked
      set Pending, however tight the budget, as long as each waiting task fits alone. */
  lemma OnlyStuckTasksRemain(cfg: Config, s: State, ws: seq<World>)
    requires Nameable(cfg.spec) && Recoverable(cfg, s) && Smooth(cfg, s, ws)
    requires AllAffordable(cfg, Waiting(cfg.spec, s), ws) && |ws| >= |Waiting(cfg.spec, s)| + 1
    ensures Todo(After(cfg, s, ws)) == Stuck(cfg.spec)
  {
    RoundsProgress(cfg, s, ws);
  }

  /** What any Completed workflow, however it got there, has going for it. */
  lemma CompletedImplies(cfg: Config, s: State)
    requires UniqueNames(cfg.spec) && Reachable(cfg, s) && s.status.phase == Completed
    ensures Nameable(cfg.spec) && Stuck(cfg.spec) == {}
  {
    var states, steps :| EndsIn(cfg, states, steps, s);
    RunsAreSafe(cfg, states, steps, |steps|);
    NamelessNeverFinishes(cfg, states, steps, |steps|);
    CompletedImpliesLowerUnique(cfg, states, steps, |steps|);
    assert s.status.tasks.Keys == Names(cfg.spec) && s.status.tasks.Keys != {};
    StuckIsGreatestBlocked(cfg.spec);
    CompletedImpliesAcyclic(cfg, states, steps, |steps|);
  }

  /** With nothing stuck, two more rounds than there are waiting tasks complete the workflow. */
  lemma CompletesInTime(cfg: Config, s: State, ws: seq<World>)
    requires Nameable(cfg.spec) && Recoverable(cfg, s) && Smooth(cfg, s, ws)
    requires AllAffordable(cfg, Waiting(cfg.spec, s), ws) && |ws| >= |Waiting(cfg.spec, s)| + 2
    requires Stuck(cfg.spec) == {}
    ensures After(cfg, s, ws).status.phase == Completed
  {
    var front := ws[..|ws| - 1];
    RoundsRest(cfg, s, front);
    OnlyStuckTasksRemain(cfg, s, front);
    LastRound(cfg, After(cfg, s, front), ws[|ws| - 1]);
  }

  // ---- A task that does not fit never starts ----

  lemma FitsAsLoad(list: ResourceList, load: Load, cap: Load)
    requires LoadOf(list) == load && Fits(Amount(list, CPU), Amount(list, MEM), cap)
    ensures Fits(load.cpu, load.mem, cap)
  {
  }

  lemma PlannedFitsAlone(cfg: Config, tasks: Statuses, predictions: Predictions, a: TaskAllocation) returns (i: nat)
    requires Tidy(cfg.planner, tasks) && UsageFits(tasks, EffectiveCap(cfg.planner, cfg.spec))
    requires a in PlanWith(cfg.planner, cfg.spec, tasks, predictions)
    ensures i < |cfg.spec.tasks| && cfg.spec.tasks[i].name == a.task && FitsAlone(cfg, cfg.spec.tasks[i], predictions)
  {
    PlannedFits(cfg.planner, cfg.spec, tasks, predictions, a);
    i := PlannedDemand(cfg.planner, cfg.spec, tasks, predictions, a);
    FitsAsLoad(a.resources.requests, Demand(cfg.planner, cfg.spec.tasks[i], predictions),
               EffectiveCap(cfg.planner, cfg.spec));
  }

  /** A task that a Reconcile starts fitted alone. */
  lemma NewlyBegunFits(cfg: Config, s: State, w: World, i: nat)
    requires UniqueNames(cfg.spec) && Recoverable(cfg, s) && Sees(s, w) && i < |cfg.spec.tasks|
    requires cfg.spec.tasks[i].name in Waiting(cfg.spec, s)
    requires cfg.spec.tasks[i].name in Begun(cfg.spec, Round(cfg, s, w))
    ensures FitsAlone(cfg, cfg.spec.tasks[i], w.predictions)
  {
    var observed := Observed(cfg, s.pods, s.status.tasks);
    ReachableIsSafe(cfg, s);
    NewlyBegunIsPlanned(cfg, s, w, cfg.spec.tasks[i].name);
    var a :| a in PlanOf(cfg, s, w) && a.task == cfg.spec.tasks[i].name;
    ObservedFits(cfg, s);
    var j := PlannedFitsAlone(cfg, observed, w.predictions, a);
    assert i == j;
  }

  lemma ObservedFits(cfg: Config, s: State)
    requires Reachable(cfg, s)
    ensures var observed := Observed(cfg, s.pods, s.status.tasks);
            Tidy(cfg.planner, observed) && UsageFits(observed, EffectiveCap(cfg.planner, cfg.spec))
  {
    ReachableIsTidy(cfg, s);
    ObservedTidy(cfg, s.pods, s.status.tasks);
    ReachableFits(cfg, s);
    SyncConserves(cfg, s.pods, s.status.tasks, CPU);
    SyncConserves(cfg, s.pods, s.status.tasks, MEM);
  }

  lemma ConcludedWithoutPlan(cfg: Config, s: State, tasks: Statuses, w: World)
    requires AnyFailed(tasks) || (AllSucceeded(tasks) && tasks != map[]) || !w.planOk || !w.writeOk
    ensures Conclude(cfg, s, tasks, w).status.tasks == tasks || Conclude(cfg, s, tasks, w).status == s.status
  {
  }

  /** Only a Reconcile that plans starts anything. */
  lemma WithoutPlan(cfg: Config, s: State, w: World)
    requires PodsNamed(cfg, s.pods) && Sees(s, w) && !Plans(cfg, s, w)
    ensures || Reconcile(cfg, s, w).status == s.status
            || Reconcile(cfg, s, w).status.tasks == FreshStatuses(cfg.spec)
            || Reconcile(cfg, s, w).status.tasks == Observed(cfg, s.pods, s.status.tasks)
  {
    if s.status.tasks != map[] && !TerminalWorkflow(s.status.phase) && w.listOk {
      SyncIgnoresOrder(cfg, s.pods, w.listing, s.status.tasks);
      SyncAllKeys(s.status.tasks, w.listing);
      ConcludedWithoutPlan(cfg, s.(executions := s.executions + RecordAll(s.status.tasks, w.listing)),
                           Observed(cfg, s.pods, s.status.tasks), w);
    }
  }

  lemma NothingBegun(cfg: Config, s: State, w: World)
    requires PodsNamed(cfg, s.pods) && Sees(s, w) && !Plans(cfg, s, w)
    ensures Begun(cfg.spec, Reconcile(cfg, s, w)) <= Begun(cfg.spec, s)
  {
    WithoutPlan(cfg, s, w);
  }

  lemma PlannedOrBegun(cfg: Config, s: State, w: World, t: string)
    requires Safe(cfg, s) && Plans(cfg, s, w) && t in Begun(cfg.spec, Reconcile(cfg, s, w))
    ensures t in PlannedTasks(PlanOf(cfg, s, w)) || t in Begun(cfg.spec, s)
  {
    var observed, started := Observed(cfg, s.pods, s.status.tasks), Successes(PlanOf(cfg, s, w), w.creations);
    PlansResult(cfg, s, w);
    PlannedArePending(cfg, s, w);
    SuccessesOfPlan(PlanOf(cfg, s, w), w.creations);
    LaunchAllEffect(cfg.workflow, observed, started);
    if !Has(started, t) {
      assert Reconcile(cfg, s, w).status.tasks[t] == observed[t];
    }
  }

  lemma NewlyBegunIsPlanned(cfg: Config, s: State, w: World, t: string)
    requires Safe(cfg, s) && Sees(s, w)
    requires t in Waiting(cfg.spec, s) && t in Begun(cfg.spec, Reconcile(cfg, s, w))
    ensures t in PlannedTasks(PlanOf(cfg, s, w))
  {
    if Plans(cfg, s, w) {
      PlannedOrBegun(cfg, s, w, t);
    } else {
      NothingBegun(cfg, s, w);
    }
  }

  lemma {:induction false} BegunFitAlone(cfg: Config, s: State, ws: seq<World>, predictions: Predictions, i: nat)
    requires UniqueNames(cfg.spec) && Recoverable(cfg, s) && Smooth(cfg, s, ws) && i < |cfg.spec.tasks|
    requires forall k :: 0 <= k < |ws| ==> ws[k].predictions == predictions
    requires cfg.spec.tasks[i].name in Waiting(cfg.spec, s)
    requires cfg.spec.tasks[i].name in Begun(cfg.spec, After(cfg, s, ws))
    ensures FitsAlone(cfg, cfg.spec.tasks[i], predictions)
    decreases |ws|
  {
    var front, w := ws[..|ws| - 1], ws[|ws| - 1];
    var before := After(cfg, s, front);
    SmoothIsRecoverable(cfg, s, front);
    if cfg.spec.tasks[i].name in Begun(cfg.spec, before) {
      BegunFitAlone(cfg, s, front, predictions, i);
    } else {
      NewlyBegunFits(cfg, before, w, i);
    }
  }

  /** Bounded completion, exactly: with predictions that stay the same, from any state that a run reaches
      without a failed pod, two more rounds than there are waiting tasks complete a workflow of uniquely
      named tasks if and only if it has tasks, none of them is named "" and no two names agree up to case,
      all dependencies exist, the dependency graph is acyclic, and every waiting task alone fits the cap. */
  lemma CompletesIff(cfg: Config, s: State, ws: seq<World>, predictions: Predictions)
    requires UniqueNames(cfg.spec) && Recoverable(cfg, s) && Smooth(cfg, s, ws)
    requires |ws| >= |Waiting(cfg.spec, s)| + 2
    requires forall k :: 0 <= k < |ws| ==> ws[k].predictions == predictions
    ensures After(cfg, s, ws).status.phase == Completed <==>
            && Nameable(cfg.spec) && DependenciesPresent(cfg.spec) && Acyclic(cfg.spec)
            && Affordable(cfg, Waiting(cfg.spec, s), predictions)
  {
    NothingStuckIff(cfg.spec);
    if After(cfg, s, ws).status.phase == Completed {
      SmoothIsRecoverable(cfg, s, ws);
      CompletedImplies(cfg, After(cfg, s, ws));
      forall i | 0 <= i < |cfg.spec.tasks| && cfg.spec.tasks[i].name in Waiting(cfg.spec, s)
        ensures FitsAlone(cfg, cfg.spec.tasks[i], predictions)
      {
        CompletedHasBegun(cfg, After(cfg, s, ws), i);
        BegunFitAlone(cfg, s, ws, predictions, i);
      }
    } else if Nameable(cfg.spec) && Stuck(cfg.spec) == {} && Affordable(cfg, Waiting(cfg.spec, s), predictions) {
      CompletesInTime(cfg, s, ws);
    }
  }

  lemma CompletedHasBegun(cfg: Config, s: State, i: nat)
    requires Reachable(cfg, s) && s.status.phase == Completed && i < |cfg.spec.tasks|
    ensures cfg.spec.tasks[i].name in Begun(cfg.spec, s)
  {
    ReachableIsSafe(cfg, s);
  }

  /** The start is recoverable, and a workflow of n tasks has at most n waiting then: n + 2 rounds suffice. */
  lemma StartWaits(cfg: Config)
    ensures Recoverable(cfg, START) && Waiting(cfg.spec, START) == Names(cfg.spec)
    ensures |Waiting(cfg.spec, START)| <= |cfg.spec.tasks|
  {
    StartIsReachable(cfg);
    NamesCount(cfg.spec);
  }

  lemma SmoothlyWith(cfg: Config, s: State, listing: seq<Pod>, predictions: Predictions)
    requires s.activity == Idle && IsListing(s.pods, listing)
    ensures Smoothly(cfg, s, World(true, listing, predictions, true, [], true))
  {
  }

  lemma SmoothOneMore(cfg: Config, s: State, front: seq<World>, w: World)
    requires Smooth(cfg, s, front) && Smoothly(cfg, After(cfg, s, front), w)
    ensures Smooth(cfg, s, front + [w])
  {
    assert (front + [w])[..|front|] == front;
  }

  lemma ListRecoverable(cfg: Config, s: State) returns (listing: seq<Pod>)
    requires Recoverable(cfg, s)
    ensures IsListing(s.pods, listing)
  {
    ReachableIsSafe(cfg, s);
    listing := ListPods(s.pods);
  }

  /** Such rounds always exist, with any predictions: whatever the state, a listing of its pods does. */
  lemma {:induction false} SmoothRoundsExist(cfg: Config, s: State, predictions: Predictions, k: nat)
    returns (ws: seq<World>)
    requires Recoverable(cfg, s)
    ensures |ws| == k && Smooth(cfg, s, ws)
    ensures forall i :: 0 <= i < k ==> ws[i].predictions == predictions
  {
    ws := [];
    if k > 0 {
      var front := SmoothRoundsExist(cfg, s, predictions, k - 1);
      SmoothIsRecoverable(cfg, s, front);
      var listing := ListRecoverable(cfg, After(cfg, s, front));
      var w := World(true, listing, predictions, true, [], true);
      SmoothlyWith(cfg, After(cfg, s, front), listing, predictions);
      SmoothOneMore(cfg, s, front, w);
      ws := front + [w];
    }
  }

  lemma {:induction false} ListPods(pods: Pods) returns (listing: seq<Pod>)
    requires forall n :: n in pods ==> pods[n].name == n
    ensures IsListing(pods, listing)
    decreases pods.Keys
  {
    listing := [];
    if pods != map[] {
      assert pods.Keys != {};
      var n :| n in pods.Keys;
      var rest := ListPods(pods - {n});
      listing := [pods[n]] + rest;
      forall m | m in pods
        ensures pods[m] in listing
      {
        if m != n {
          assert (pods - {n})[m] in rest;
        }
      }
    }
  }
}
