/** One uninterrupted Reconcile as a function of the cluster and of how the API calls turn out, and its
    place in the state machine. */
module Reconciling {
  import opened Loads
  import opened Workflow
  import opened Planning
  import opened Machine
  import opened SafetyProof
  import opened RunSafety

  /** How the calls of one Reconcile turn out. A failed prediction shows up as empty predictions; creations
      beyond the end of the list succeed. */
  datatype World = World(
    listOk: bool,
    listing: seq<Pod>,
    predictions: Predictions,
    planOk: bool,
    creations: seq<CreateOutcome>,
    writeOk: bool)

  function SyncAll(tasks: Statuses, listing: seq<Pod>): Statuses
    decreases |listing|
  {
    if listing == [] then tasks else SyncAll(SyncTask(tasks, listing[0]), listing[1..])
  }

  function RecordAll(tasks: Statuses, listing: seq<Pod>): seq<string>
    decreases |listing|
  {
    if listing == [] then [] else Recorded(tasks, listing[0]) + RecordAll(SyncTask(tasks, listing[0]), listing[1..])
  }

  function First(creations: seq<CreateOutcome>): CreateOutcome {
    if creations == [] then Created else creations[0]
  }

  function Later(creations: seq<CreateOutcome>): seq<CreateOutcome> {
    if creations == [] then [] else creations[1..]
  }

  /** The part of a plan whose creations are reported as successful. */
  function Successes(plan: seq<TaskAllocation>, creations: seq<CreateOutcome>): seq<TaskAllocation>
    decreases |plan|
  {
    if plan == [] then []
    else (if First(creations) == Created then [plan[0]] else []) + Successes(plan[1..], Later(creations))
  }

  function CreateAll(workflow: string, pods: Pods, plan: seq<TaskAllocation>, creations: seq<CreateOutcome>): Pods
    decreases |plan|
  {
    if plan == [] then pods
    else CreateAll(workflow, if First(creations) == Refused then pods else CreatePod(workflow, pods, plan[0]),
                   plan[1..], Later(creations))
  }

  function Write(s: State, status: Status, ok: bool): State {
    if ok then s.(status := status) else s
  }

  /** Steps 6 to 10 of a Reconcile, on the synced statuses. */
  ghost function Conclude(cfg: Config, s: State, tasks: Statuses, w: World): State {
    if AnyFailed(tasks) then Write(s, Status(WorkflowFailed, tasks, s.status.usage), w.writeOk)
    else if AllSucceeded(tasks) && tasks != map[] then Write(s, Status(Completed, tasks, Load(0, 0)), w.writeOk)
    else if !w.planOk then s
    else
      var plan := PlanWith(cfg.planner, cfg.spec, tasks, w.predictions);
      var after := LaunchAll(cfg.workflow, tasks, Successes(plan, w.creations));
      Write(s.(pods := CreateAll(cfg.workflow, s.pods, plan, w.creations)),
            Status(WorkflowRunning, after, UsageOf(after)), w.writeOk)
  }

  ghost function Reconcile(cfg: Config, s: State, w: World): State {
    if s.status.tasks == map[] then
      Write(s, Status(WorkflowPending, FreshStatuses(cfg.spec), s.status.usage), w.writeOk)
    else if TerminalWorkflow(s.status.phase) || !w.listOk then s
    else
      Conclude(cfg, s.(executions := s.executions + RecordAll(s.status.tasks, w.listing)),
               SyncAll(s.status.tasks, w.listing), w)
  }

  // ---- A Reconcile is a sequence of micro-steps ----

  ghost predicate Leads(cfg: Config, s: State, steps: seq<Step>, t: State)
    decreases |steps|
  {
    if steps == [] then s == t
    else Enabled(cfg, s, steps[0]) && Leads(cfg, Do(cfg, s, steps[0]), steps[1..], t)
  }

  ghost predicate CanReach(cfg: Config, s: State, t: State) {
    exists steps :: Leads(cfg, s, steps, t)
  }

  lemma {:induction false} LeadsOn(cfg: Config, s: State, p: seq<Step>, t: State, q: seq<Step>, u: State)
    requires Leads(cfg, s, p, t) && Leads(cfg, t, q, u)
    ensures Leads(cfg, s, p + q, u)
    decreases |p|
  {
    if p == [] {
      assert p + q == q;
    } else {
      LeadsOn(cfg, Do(cfg, s, p[0]), p[1..], t, q, u);
      assert (p + q)[1..] == p[1..] + q && (p + q)[0] == p[0];
    }
  }

  lemma ReachOn(cfg: Config, s: State, t: State, u: State)
    requires CanReach(cfg, s, t) && CanReach(cfg, t, u)
    ensures CanReach(cfg, s, u)
  {
    var p :| Leads(cfg, s, p, t);
    var q :| Leads(cfg, t, q, u);
    LeadsOn(cfg, s, p, t, q, u);
  }

  lemma ReachStep(cfg: Config, s: State, step: Step)
    requires Enabled(cfg, s, step)
    ensures CanReach(cfg, s, Do(cfg, s, step))
  {
    assert Leads(cfg, Do(cfg, s, step), [], Do(cfg, s, step));
    assert Leads(cfg, s, [step], Do(cfg, s, step));
  }

  lemma ReachSelf(cfg: Config, s: State)
    ensures CanReach(cfg, s, s)
  {
    assert Leads(cfg, s, [], s);
  }

  lemma {:induction false} ReachSynced(cfg: Config, s: State)
    requires s.activity.Syncing?
    ensures CanReach(cfg, s, s.(executions := s.executions + RecordAll(s.activity.tasks, s.activity.todo),
                                activity := Syncing(SyncAll(s.activity.tasks, s.activity.todo), [])))
    decreases |s.activity.todo|
  {
    var tasks, todo := s.activity.tasks, s.activity.todo;
    if todo == [] {
      assert s.executions + [] == s.executions;
      ReachSelf(cfg, s);
    } else {
      var next := SyncFirst(s);
      ReachStep(cfg, s, SyncOne);
      ReachSynced(cfg, next);
      assert next.executions + RecordAll(next.activity.tasks, next.activity.todo) ==
             s.executions + RecordAll(tasks, todo);
      ReachOn(cfg, s, next,
              s.(executions := s.executions + RecordAll(tasks, todo), activity := Syncing(SyncAll(tasks, todo), [])));
    }
  }

  /** The state in which a plan has been worked off. */
  function Spawned(cfg: Config, s: State, creations: seq<CreateOutcome>): State
    requires s.activity.Spawning?
  {
    s.(pods := CreateAll(cfg.workflow, s.pods, s.activity.plan, creations),
       activity := Spawning(LaunchAll(cfg.workflow, s.activity.tasks, Successes(s.activity.plan, creations)), []))
  }

  lemma SpawnedAfterFirst(cfg: Config, s: State, creations: seq<CreateOutcome>)
    requires s.activity.Spawning? && s.activity.plan != []
    ensures Spawned(cfg, SpawnFirst(cfg, s, First(creations)), Later(creations)) == Spawned(cfg, s, creations)
  {
    var plan := s.activity.plan;
    var rest := Successes(plan[1..], Later(creations));
    if First(creations) == Created {
      assert Successes(plan, creations) == [plan[0]] + rest && ([plan[0]] + rest)[1..] == rest;
    } else {
      assert Successes(plan, creations) == rest;
    }
  }

  lemma {:induction false} ReachSpawned(cfg: Config, s: State, creations: seq<CreateOutcome>)
    requires s.activity.Spawning?
    requires forall a :: a in s.activity.plan ==> a.task in Names(cfg.spec)
    ensures CanReach(cfg, s, Spawned(cfg, s, creations))
    decreases |s.activity.plan|
  {
    if s.activity.plan == [] {
      ReachSelf(cfg, s);
    } else {
      assert s.activity.plan[0] in s.activity.plan;
      var next := SpawnFirst(cfg, s, First(creations));
      ReachStep(cfg, s, Spawn(First(creations)));
      assert next.activity.plan == s.activity.plan[1..];
      ReachSpawned(cfg, next, Later(creations));
      SpawnedAfterFirst(cfg, s, creations);
      ReachOn(cfg, s, next, Spawned(cfg, s, creations));
    }
  }

  lemma ReachConcluded(cfg: Config, s: State, tasks: Statuses, w: World)
    requires s.activity == Syncing(tasks, []) && tasks.Keys == Names(cfg.spec)
    ensures CanReach(cfg, s, Conclude(cfg, s.(activity := Idle), tasks, w))
  {
    var idle := s.(activity := Idle);
    ReachStep(cfg, s, Abort);
    if AnyFailed(tasks) || (AllSucceeded(tasks) && tasks != map[]) {
      ReachStep(cfg, s, Judge(w.predictions));
    } else if w.planOk {
      ReachPlanned(cfg, s, tasks, w);
    }
  }

  lemma PlanNamesEntries(cfg: Config, tasks: Statuses, predictions: Predictions)
    ensures forall a :: a in PlanWith(cfg.planner, cfg.spec, tasks, predictions) ==> a.task in Names(cfg.spec)
  {
    forall a | a in PlanWith(cfg.planner, cfg.spec, tasks, predictions)
      ensures a.task in Names(cfg.spec)
    {
      PlanIsEligible(cfg.planner, cfg.spec, tasks, predictions, a);
    }
  }

  lemma ReachPlanned(cfg: Config, s: State, tasks: Statuses, w: World)
    requires s.activity == Syncing(tasks, [])
    requires !AnyFailed(tasks) && !(AllSucceeded(tasks) && tasks != map[]) && w.planOk
    ensures CanReach(cfg, s, Conclude(cfg, s.(activity := Idle), tasks, w))
  {
    var planned := JudgeTasks(cfg, s, w.predictions);
    ReachStep(cfg, s, Judge(w.predictions));
    PlanNamesEntries(cfg, tasks, w.predictions);
    ReachSpawned(cfg, planned, w.creations);
    var spawned := Spawned(cfg, planned, w.creations);
    ReachOn(cfg, s, planned, spawned);
    ReachStep(cfg, spawned, if w.writeOk then Finish else Abort);
    var end := if w.writeOk then WriteRunning(spawned) else spawned.(activity := Idle);
    ReachOn(cfg, s, spawned, end);
    assert end == Conclude(cfg, s.(activity := Idle), tasks, w);
  }

  lemma {:induction false} SyncAllKeys(tasks: Statuses, listing: seq<Pod>)
    ensures SyncAll(tasks, listing).Keys == tasks.Keys
    decreases |listing|
  {
    if listing != [] {
      SyncAllKeys(SyncTask(tasks, listing[0]), listing[1..]);
    }
  }

  /** A Reconcile is allowed here: if it gets as far as listing the pods, it sees the pods there are. */
  ghost predicate Sees(s: State, w: World) {
    s.activity == Idle && (w.listOk ==> IsListing(s.pods, w.listing))
  }

  /** Every Reconcile, however its calls turn out, is a sequence of micro-steps. */
  lemma ReconcileIsMicroSteps(cfg: Config, s: State, w: World)
    requires Sees(s, w) && Shape(cfg, s)
    ensures CanReach(cfg, s, Reconcile(cfg, s, w))
  {
    ReachSelf(cfg, s);
    if s.status.tasks == map[] {
      ReachStep(cfg, s, Initialise);
    } else if !TerminalWorkflow(s.status.phase) && w.listOk {
      var begun := s.(activity := Syncing(s.status.tasks, w.listing));
      ReachStep(cfg, s, Begin(w.listing));
      ReachSynced(cfg, begun);
      var tasks := SyncAll(s.status.tasks, w.listing);
      SyncAllKeys(s.status.tasks, w.listing);
      var synced := s.(executions := s.executions + RecordAll(s.status.tasks, w.listing),
                       activity := Syncing(tasks, []));
      ReachOn(cfg, s, begun, synced);
      ReachConcluded(cfg, synced, tasks, w);
      assert synced.(activity := Idle) == s.(executions := s.executions + RecordAll(s.status.tasks, w.listing));
      ReachOn(cfg, s, synced, Reconcile(cfg, s, w));
    }
  }

  // ---- Reachable states ----

  ghost predicate EndsIn(cfg: Config, states: seq<State>, steps: seq<Step>, s: State) {
    IsRun(cfg, states, steps) && states[|steps|] == s
  }

  ghost predicate Reachable(cfg: Config, s: State) {
    exists states, steps :: EndsIn(cfg, states, steps, s)
  }

  lemma {:induction false} ExtendRun(cfg: Config, states: seq<State>, steps: seq<Step>, s: State, more: seq<Step>,
                                     t: State)
    requires EndsIn(cfg, states, steps, s) && Leads(cfg, s, more, t)
    ensures Reachable(cfg, t)
    decreases |more|
  {
    if more != [] {
      var next := Do(cfg, s, more[0]);
      assert EndsIn(cfg, states + [next], steps + [more[0]], next);
      ExtendRun(cfg, states + [next], steps + [more[0]], next, more[1..], t);
    }
  }

  lemma StaysReachable(cfg: Config, s: State, t: State)
    requires Reachable(cfg, s) && CanReach(cfg, s, t)
    ensures Reachable(cfg, t)
  {
    var states, steps :| EndsIn(cfg, states, steps, s);
    var more :| Leads(cfg, s, more, t);
    ExtendRun(cfg, states, steps, s, more, t);
  }

  lemma StartIsReachable(cfg: Config)
    ensures Reachable(cfg, START)
  {
    assert EndsIn(cfg, [START], [], START);
  }

  lemma ReachableIsSafe(cfg: Config, s: State)
    requires Reachable(cfg, s)
    ensures Safe(cfg, s)
  {
    var states, steps :| EndsIn(cfg, states, steps, s);
    RunsAreSafe(cfg, states, steps, |steps|);
  }

  lemma ReconcileStaysReachable(cfg: Config, s: State, w: World)
    requires Reachable(cfg, s) && Sees(s, w)
    ensures Reachable(cfg, Reconcile(cfg, s, w)) && Reconcile(cfg, s, w).activity == Idle
  {
    ReachableIsSafe(cfg, s);
    ReconcileIsMicroSteps(cfg, s, w);
    StaysReachable(cfg, s, Reconcile(cfg, s, w));
  }

  lemma PodMoveStaysReachable(cfg: Config, s: State, name: string, phase: PodPhase)
    requires Reachable(cfg, s) && name in s.pods && !TerminalPod(s.pods[name].phase)
    ensures Reachable(cfg, MovePod(s, name, phase))
  {
    ReachStep(cfg, s, PodMoves(name, phase));
    StaysReachable(cfg, s, MovePod(s, name, phase));
  }

  lemma {:induction false} LeadsForward(cfg: Config, s: State, steps: seq<Step>, t: State)
    requires Safe(cfg, s) && Leads(cfg, s, steps, t)
    ensures Forward(s.status, t.status)
    decreases |steps|
  {
    if steps != [] {
      var next := Do(cfg, s, steps[0]);
      StepForward(cfg, s, steps[0]);
      StepSafe(cfg, s, steps[0]);
      LeadsForward(cfg, next, steps[1..], t);
      ForwardTwice(s.status, next.status, t.status);
    }
  }

  lemma ReconcileForward(cfg: Config, s: State, w: World)
    requires Safe(cfg, s) && Sees(s, w)
    ensures Forward(s.status, Reconcile(cfg, s, w).status)
  {
    ReconcileIsMicroSteps(cfg, s, w);
    var steps :| Leads(cfg, s, steps, Reconcile(cfg, s, w));
    LeadsForward(cfg, s, steps, Reconcile(cfg, s, w));
  }

  // ---- One run through two states ----

  lemma {:induction false} ExtendRunFrom(cfg: Config, states: seq<State>, steps: seq<Step>, i: nat, more: seq<Step>,
                                         t: State)
    returns (allStates: seq<State>, allSteps: seq<Step>)
    requires IsRun(cfg, states, steps) && i < |states| && Leads(cfg, states[|steps|], more, t)
    ensures EndsIn(cfg, allStates, allSteps, t) && i < |allStates| && allStates[i] == states[i]
    decreases |more|
  {
    if more == [] {
      allStates, allSteps := states, steps;
    } else {
      var next := Do(cfg, states[|steps|], more[0]);
      allStates, allSteps := ExtendRunFrom(cfg, states + [next], steps + [more[0]], i, more[1..], t);
    }
  }

  lemma RunThrough(cfg: Config, s: State, t: State) returns (states: seq<State>, steps: seq<Step>, i: nat)
    requires Reachable(cfg, s) && CanReach(cfg, s, t)
    ensures EndsIn(cfg, states, steps, t) && i < |states| && states[i] == s
  {
    states, steps :| EndsIn(cfg, states, steps, s);
    i := |steps|;
    var more :| Leads(cfg, s, more, t);
    states, steps := ExtendRunFrom(cfg, states, steps, i, more, t);
  }
}
