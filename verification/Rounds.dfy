/** Progress: rounds of one uninterrupted Reconcile after which every pod runs to success. */
module Rounds {
  import opened Loads
  import opened Workflow
  import opened Planning
  import opened Schedule
  import opened Machine
  import opened RunSafety
  import opened RunClean
  import opened Reconciling
  import opened ReconcileEffects

  // ---- Rounds ----

  function Finished(p: Pod): Pod {
    if TerminalPod(p.phase) then p else p.(phase := PodSucceeded)
  }

  /** Every pod that has not finished succeeds. */
  function SucceedAll(s: State): State {
    s.(pods := map n | n in s.pods :: Finished(s.pods[n]))
  }

  ghost function Round(cfg: Config, s: State, w: World): State {
    SucceedAll(Reconcile(cfg, s, w))
  }

  /** The state after rounds that begin in state s. */
  ghost function After(cfg: Config, s: State, ws: seq<World>): State
    decreases |ws|
  {
    if ws == [] then s else Round(cfg, After(cfg, s, ws[..|ws| - 1]), ws[|ws| - 1])
  }

  /** With these predictions the task, on its own, fits the cap. */
  ghost predicate FitsAlone(cfg: Config, task: TaskTemplate, predictions: Predictions) {
    var demand := Demand(cfg.planner, task, predictions);
    Fits(demand.cpu, demand.mem, EffectiveCap(cfg.planner, cfg.spec))
  }

  /** Each of these tasks fits the cap on its own. */
  ghost predicate Affordable(cfg: Config, names: set<string>, predictions: Predictions) {
    forall i :: 0 <= i < |cfg.spec.tasks| && cfg.spec.tasks[i].name in names ==>
      FitsAlone(cfg, cfg.spec.tasks[i], predictions)
  }

  ghost predicate Smoothly(cfg: Config, s: State, w: World) {
    && Sees(s, w) && w.listOk && w.planOk && w.writeOk
    && (forall o :: o in w.creations ==> o == Created)
  }

  /** No API call fails in any of the rounds. */
  ghost predicate Smooth(cfg: Config, s: State, ws: seq<World>)
    decreases |ws|
  {
    ws == [] || (Smooth(cfg, s, ws[..|ws| - 1]) && Smoothly(cfg, After(cfg, s, ws[..|ws| - 1]), ws[|ws| - 1]))
  }

  /** Distinct pods for distinct tasks, and no task that the sync would skip. */
  ghost predicate Nameable(spec: Spec) {
    LowerUnique(spec) && "" !in Names(spec) && spec.tasks != []
  }

  // ---- Rounds are runs ----

  function Unfinished(pods: Pods): set<string> {
    set n | n in pods && !TerminalPod(pods[n].phase)
  }

  lemma {:induction false} SucceedAllReachable(cfg: Config, s: State)
    requires Reachable(cfg, s)
    ensures Reachable(cfg, SucceedAll(s))
    decreases Unfinished(s.pods)
  {
    if Unfinished(s.pods) == {} {
      forall n | n in s.pods
        ensures Finished(s.pods[n]) == s.pods[n]
      {
        assert n !in Unfinished(s.pods);
      }
      assert SucceedAll(s).pods == s.pods;
    } else {
      var n :| n in Unfinished(s.pods);
      var moved := MovePod(s, n, PodSucceeded);
      assert Unfinished(moved.pods) == Unfinished(s.pods) - {n};
      assert SucceedAll(moved).pods == SucceedAll(s).pods;
      PodMoveStaysReachable(cfg, s, n, PodSucceeded);
      SucceedAllReachable(cfg, moved);
    }
  }

  // ---- What every round leaves behind ----

  function PendingIn(tasks: Statuses): set<string> {
    set t | t in tasks && tasks[t].phase == Pending
  }

  function Todo(s: State): set<string> {
    PendingIn(s.status.tasks)
  }

  /** The tasks that count as started, and those that still have to be. */
  function Begun(spec: Spec, s: State): set<string> {
    set t | t in Names(spec) && t in s.status.tasks && s.status.tasks[t].phase != Pending
  }

  function Waiting(spec: Spec, s: State): set<string> {
    Names(spec) - Begun(spec, s)
  }

  /** A state from which rounds can go on: between two Reconciles, reached by any run at all, and no pod
      has failed. Pods may be running, and earlier Reconciles may have crashed anywhere. */
  ghost predicate Recoverable(cfg: Config, s: State) {
    && Reachable(cfg, s)
    && s.activity == Idle
    && forall n :: n in s.pods ==> s.pods[n].phase != PodFailed
  }

  /** Between rounds: every pod has succeeded, and every started task has its pod. */
  ghost predicate Rested(cfg: Config, s: State) {
    && Reachable(cfg, s)
    && s.activity == Idle
    && s.status.tasks.Keys == Names(cfg.spec)
    && s.status.phase != WorkflowFailed
    && (forall t :: t in s.status.tasks ==> s.status.tasks[t].phase != Failed)
    && (forall n :: n in s.pods ==> s.pods[n].phase == PodSucceeded)
    && StartedHavePods(cfg, s.pods, s.status.tasks)
  }

  lemma ReachableHasPods(cfg: Config, s: State)
    requires LowerUnique(cfg.spec) && Reachable(cfg, s) && s.activity == Idle
    ensures StartedHavePods(cfg, s.pods, s.status.tasks)
  {
    var states, steps :| EndsIn(cfg, states, steps, s);
    RunsKeepHasPod(cfg, states, steps, |steps|);
  }

  /** The sync of the next Reconcile finds everything that was started succeeded. */
  lemma RestedObserves(cfg: Config, s: State)
    requires Nameable(cfg.spec) && Rested(cfg, s)
    ensures var observed := Observed(cfg, s.pods, s.status.tasks);
            && observed.Keys == Names(cfg.spec)
            && forall t :: t in observed ==> observed[t].phase == if t in Todo(s) then Pending else Succeeded
  {
    var observed := Observed(cfg, s.pods, s.status.tasks);
    forall t | t in observed
      ensures observed[t].phase == if t in Todo(s) then Pending else Succeeded
    {
      if s.status.tasks[t].phase != Pending {
        assert HasPod(cfg, s.pods, t);
      }
    }
  }

  lemma NoFailureWithoutFailedPod(cfg: Config, s: State)
    requires Recoverable(cfg, s)
    ensures s.status.phase != WorkflowFailed
    ensures forall t :: t in s.status.tasks ==> s.status.tasks[t].phase != Failed
  {
    ReachableIsSafe(cfg, s);
    forall t | t in s.status.tasks
      ensures s.status.tasks[t].phase != Failed
    {
      assert s.status.tasks[t].phase == Failed ==> PodIs(cfg, s.pods, t, PodFailed);
    }
  }

  lemma {:induction false} CreatedPodsStart(workflow: string, pods: Pods, plan: seq<TaskAllocation>,
                                            creations: seq<CreateOutcome>)
    requires forall n :: n in pods ==> pods[n].phase != PodFailed
    ensures forall n :: n in CreateAll(workflow, pods, plan, creations) ==>
              CreateAll(workflow, pods, plan, creations)[n].phase != PodFailed
    decreases |plan|
  {
    if plan != [] {
      CreatedPodsStart(workflow, if First(creations) == Refused then pods else CreatePod(workflow, pods, plan[0]),
                       plan[1..], Later(creations));
    }
  }

  lemma RoundSucceeds(cfg: Config, s: State, w: World)
    requires forall n :: n in s.pods ==> s.pods[n].phase != PodFailed
    ensures forall n :: n in Round(cfg, s, w).pods ==> Round(cfg, s, w).pods[n].phase == PodSucceeded
  {
    var after := Reconcile(cfg, s, w);
    assert forall n :: n in after.pods ==> after.pods[n].phase != PodFailed by {
      CreatedPodsStart(cfg.workflow, s.pods,
                       PlanWith(cfg.planner, cfg.spec, SyncAll(s.status.tasks, w.listing), w.predictions), w.creations);
    }
  }

  lemma RoundIsReachable(cfg: Config, s: State, w: World)
    requires Reachable(cfg, s) && Sees(s, w)
    ensures Reachable(cfg, Round(cfg, s, w)) && Round(cfg, s, w).activity == Idle
    ensures Forward(s.status, Round(cfg, s, w).status)
  {
    ReachableIsSafe(cfg, s);
    ReconcileForward(cfg, s, w);
    ReconcileStaysReachable(cfg, s, w);
    SucceedAllReachable(cfg, Reconcile(cfg, s, w));
  }

  lemma RoundHasTasks(cfg: Config, s: State, w: World)
    requires Reachable(cfg, s) && Sees(s, w) && cfg.spec.tasks != [] && (s.status.tasks == map[] ==> w.writeOk)
    ensures Round(cfg, s, w).status.tasks.Keys == Names(cfg.spec)
  {
    ReachableIsSafe(cfg, s);
    RoundIsReachable(cfg, s, w);
    NamesExist(cfg.spec);
    ReachableIsSafe(cfg, Round(cfg, s, w));
  }

  lemma NamesExist(spec: Spec)
    requires spec.tasks != []
    ensures Names(spec) != {}
  {
    assert spec.tasks[0].name in Names(spec);
  }

  /** One round from any recoverable state leads to a rested one, in which no more tasks wait than before. */
  lemma RoundRests(cfg: Config, s: State, w: World)
    requires Nameable(cfg.spec) && Recoverable(cfg, s) && Sees(s, w) && (s.status.tasks == map[] ==> w.writeOk)
    ensures Rested(cfg, Round(cfg, s, w)) && Todo(Round(cfg, s, w)) <= Waiting(cfg.spec, s)
  {
    var after := Round(cfg, s, w);
    RoundIsReachable(cfg, s, w);
    RoundHasTasks(cfg, s, w);
    RoundSucceeds(cfg, s, w);
    ReachableHasPods(cfg, after);
    NoFailureWithoutFailedPod(cfg, after);
  }

  lemma RestedIsRecoverable(cfg: Config, s: State)
    requires Nameable(cfg.spec) && Rested(cfg, s)
    ensures Recoverable(cfg, s) && s.status.tasks != map[] && Waiting(cfg.spec, s) == Todo(s)
  {
    NamesExist(cfg.spec);
  }

  /** The first round from the start only initialises. */
  lemma FirstRound(cfg: Config, w: World)
    requires Nameable(cfg.spec) && w.writeOk && Sees(START, w)
    ensures Rested(cfg, Round(cfg, START, w)) && Todo(Round(cfg, START, w)) == Names(cfg.spec)
    ensures Round(cfg, START, w).status.phase == WorkflowPending
  {
    StartIsReachable(cfg);
    RoundRests(cfg, START, w);
  }

  lemma CompletesNow(cfg: Config, s: State, w: World)
    requires Sees(s, w) && w.listOk && w.writeOk && PodsNamed(cfg, s.pods)
    requires s.status.tasks != map[] && !TerminalWorkflow(s.status.phase)
    requires AllSucceeded(Observed(cfg, s.pods, s.status.tasks))
    ensures Reconcile(cfg, s, w).status == Status(Completed, Observed(cfg, s.pods, s.status.tasks), Load(0, 0))
  {
    SyncIgnoresOrder(cfg, s.pods, w.listing, s.status.tasks);
    assert Observed(cfg, s.pods, s.status.tasks).Keys == s.status.tasks.Keys;
  }

  /** A round after the last start completes the workflow. */
  lemma LastRound(cfg: Config, s: State, w: World)
    requires Nameable(cfg.spec) && Rested(cfg, s) && Smoothly(cfg, s, w) && Todo(s) == {}
    ensures Round(cfg, s, w).status.phase == Completed && Todo(Round(cfg, s, w)) == {}
  {
    NamesExist(cfg.spec);
    ReachableIsSafe(cfg, s);
    if s.status.phase != Completed {
      RestedObserves(cfg, s);
      CompletesNow(cfg, s, w);
    }
  }

  function PlannedTasks(plan: seq<TaskAllocation>): set<string> {
    set a | a in plan :: a.task
  }

  lemma MiddleRoundPlans(cfg: Config, s: State, w: World)
    requires Nameable(cfg.spec) && Rested(cfg, s) && Smoothly(cfg, s, w) && Todo(s) != {}
    ensures Plans(cfg, s, w)
  {
    NamesExist(cfg.spec);
    RestedObserves(cfg, s);
    ReachableIsSafe(cfg, s);
    var t :| t in Todo(s);
    assert Observed(cfg, s.pods, s.status.tasks)[t].phase == Pending;
  }

  /** Any other round starts what the planner plans. */
  lemma MiddleRound(cfg: Config, s: State, w: World)
    requires Nameable(cfg.spec) && Rested(cfg, s) && Smoothly(cfg, s, w) && Todo(s) != {}
    ensures Plans(cfg, s, w)
    ensures Round(cfg, s, w).status.phase == WorkflowRunning
    ensures Todo(Round(cfg, s, w)) == Todo(s) - PlannedTasks(PlanOf(cfg, s, w))
  {
    MiddleRoundPlans(cfg, s, w);
    RestedObserves(cfg, s);
    ReachableIsSafe(cfg, s);
    var observed, plan := Observed(cfg, s.pods, s.status.tasks), PlanOf(cfg, s, w);
    PlansResult(cfg, s, w);
    PlannedArePending(cfg, s, w);
    SuccessesOfPlan(plan, w.creations);
    LowerUniqueIsUnique(cfg.spec);
    PlanIsDistinct(cfg.planner, cfg.spec, observed, w.predictions);
    LaunchedTodo(cfg.workflow, observed, plan);
  }

  lemma LaunchedTodo(workflow: string, tasks: Statuses, plan: seq<TaskAllocation>)
    requires DistinctTasks(plan) && forall a :: a in plan ==> a.task in tasks
    ensures PendingIn(LaunchAll(workflow, tasks, plan)) == PendingIn(tasks) - PlannedTasks(plan)
  {
    var launched := LaunchAll(workflow, tasks, plan);
    LaunchAllEffect(workflow, tasks, plan);
    forall t | t in tasks
      ensures t in PendingIn(launched) <==> t in PendingIn(tasks) && t !in PlannedTasks(plan)
    {
      if t in PlannedTasks(plan) {
        var a :| a in plan && a.task == t;
        assert launched[a.task].phase == Running;
      } else {
        assert forall a :: a in plan ==> a.task in PlannedTasks(plan);
        assert launched[t] == tasks[t];
      }
    }
  }

  lemma RoundBegun(cfg: Config, s: State, w: World)
    requires Nameable(cfg.spec) && Rested(cfg, s) && Smoothly(cfg, s, w) && Todo(s) != {}
    ensures Plans(cfg, s, w) && Rested(cfg, Round(cfg, s, w))
    ensures Waiting(cfg.spec, Round(cfg, s, w)) == Waiting(cfg.spec, s) - PlannedTasks(PlanOf(cfg, s, w))
  {
    MiddleRound(cfg, s, w);
    RoundRests(cfg, s, w);
    RestedIsRecoverable(cfg, s);
    RestedIsRecoverable(cfg, Round(cfg, s, w));
  }

  lemma BegunOrWaiting(spec: Spec, s: State, t: string)
    requires t in Names(spec)
    ensures t in Begun(spec, s) <==> t !in Waiting(spec, s)
  {
  }

  lemma AllBegun(spec: Spec, s: State)
    ensures Waiting(spec, s) == {} <==> Begun(spec, s) == Names(spec)
  {
    if Waiting(spec, s) == {} {
      forall t | t in Names(spec)
        ensures t in Begun(spec, s)
      {
        assert t !in Waiting(spec, s);
      }
    }
  }
}
