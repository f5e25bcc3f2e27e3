/** Whose failure freezes a run. */
module Freezing {
  import opened Loads
  import opened Quantities
  import opened Workflow
  import opened Planning
  import opened Machine
  import opened RunSafety
  import opened Reconciling
  import opened ReconcileEffects
  import opened Witnesses
  import Go = GreedyPlanner

  predicate RunningButFailed(cfg: Config, s: State, t: string) {
    t in s.status.tasks && s.status.tasks[t].phase == Running && PodIs(cfg, s.pods, t, PodFailed)
  }

  ghost predicate FrozenBetween(states: seq<State>, start: nat, later: nat)
    requires start <= later < |states|
  {
    && states[later].status.phase != Completed
    && (states[start].activity == Idle ==> states[later].pods.Keys == states[start].pods.Keys)
  }

  /** In every run of every workflow: once the pod of the persisted-Running task t has failed, the workflow
      never becomes Completed, and no Reconcile that starts later creates a pod. */
  ghost predicate Freezes(t: string) {
    forall cfg: Config, states, steps, failed: nat, start: nat, later: nat ::
      IsRun(cfg, states, steps) && failed <= start <= later < |states| && RunningButFailed(cfg, states[failed], t) ==>
        FrozenBetween(states, start, later)
  }

  // ---- A run that goes on after a failure ----

  const ENTRIES := [TaskTemplate("", [], NOTHING), TaskTemplate("b", [], NOTHING)]

  /** Two independent tasks, one of them named "". */
  const TWO := Config("w", Spec(ENTRIES, map[]), InProcess)

  lemma TwoNames()
    ensures Names(TWO.spec) == {"", "b"} && UniqueNames(TWO.spec)
    ensures FreshStatuses(TWO.spec) ==
            map["" := TaskStatus(Pending, "", NOTHING), "b" := TaskStatus(Pending, "", NOTHING)]
  {
    assert ENTRIES[0].name == "" && ENTRIES[1].name == "b";
    assert Names(TWO.spec) == {"", "b"};
  }

  function Offer(t: string): TaskAllocation {
    TaskAllocation(t, Go.DEFAULT_RESOURCES)
  }

  lemma TwoUnlimited(cpu: nat, mem: nat)
    ensures Fits(cpu, mem, Cap(TWO.spec))
  {
  }

  ghost function TwoRest(tasks: Statuses, i: nat, cpu: nat, mem: nat): seq<TaskAllocation>
    requires i <= 2
  {
    Go.Rest(TWO.spec, tasks, map[], i, cpu, mem)
  }

  lemma TwoNext(tasks: Statuses, i: nat, cpu: nat, mem: nat) returns (nextCpu: nat, nextMem: nat)
    requires i < 2 && ENTRIES[i].name in tasks
    ensures TwoRest(tasks, i, cpu, mem) ==
            (if tasks[ENTRIES[i].name].phase == Pending then [Offer(ENTRIES[i].name)] else [])
            + TwoRest(tasks, i + 1, nextCpu, nextMem)
    ensures var added := if tasks[ENTRIES[i].name].phase == Pending then LoadOf(Go.DEFAULT_RESOURCES.requests)
                         else LoadOf(NOTHING.requests);
            nextCpu == cpu + added.cpu && nextMem == mem + added.mem
  {
    var load := LoadOf(Go.DEFAULT_RESOURCES.requests);
    Go.RestNext(TWO.spec, tasks, map[], i, cpu, mem);
    TwoUnlimited(cpu + load.cpu, mem + load.mem);
    nextCpu, nextMem := cpu, mem;
    if tasks[ENTRIES[i].name].phase == Pending {
      nextCpu, nextMem := cpu + load.cpu, mem + load.mem;
    }
  }

  /** Without a cap the in-process planner starts whatever is Pending. */
  lemma TwoPlan(tasks: Statuses)
    requires tasks.Keys == {"", "b"} && tasks["b"].phase == Pending
    ensures PlanWith(InProcess, TWO.spec, tasks, map[]) ==
            if tasks[""].phase == Pending then [Offer(""), Offer("b")] else [Offer("b")]
  {
    Go.WholeScan(TWO.spec, tasks, map[], Usage(tasks, CPU), Usage(tasks, MEM));
    var cpu, mem := TwoNext(tasks, 0, Usage(tasks, CPU), Usage(tasks, MEM));
    cpu, mem := TwoNext(tasks, 1, cpu, mem);
    Go.WholeScan(TWO.spec, tasks, map[], cpu, mem);
  }

  function TwoStatuses(phase: TaskPhase): Statuses {
    map["" := TaskStatus(phase, PodName("w", ""), Go.DEFAULT_RESOURCES), "b" := TaskStatus(Pending, "", NOTHING)]
  }

  function TwoPods(phase: PodPhase): Pods {
    map[PodName("w", "") := Pod(PodName("w", ""), "", Go.DEFAULT_RESOURCES, phase)]
  }

  /** "" is started, the creation of b's pod is refused. */
  lemma FirstStarted() returns (s: State)
    ensures Reachable(TWO, s) && s.activity == Idle && s.status.phase == WorkflowRunning
    ensures s.status.tasks == TwoStatuses(Running) && s.pods == TwoPods(PodPending)
  {
    var before := Initialised(TWO);
    var w := Calm([], map[], [Created, Refused]);
    TwoNames();
    assert before.status.tasks.Keys == {"", "b"};
    TwoPlan(before.status.tasks);
    assert Observed(TWO, before.pods, before.status.tasks) == before.status.tasks;
    assert "b" in before.status.tasks;
    ReachableIsSafe(TWO, before);
    PlansResult(TWO, before, w);
    ReconcileStaysReachable(TWO, before, w);
    s := Reconcile(TWO, before, w);
    FirstLaunch();
  }

  lemma FirstLaunch()
    ensures var plan := [Offer(""), Offer("b")];
            && Successes(plan, [Created, Refused]) == [Offer("")]
            && CreateAll("w", map[], plan, [Created, Refused]) == TwoPods(PodPending)
            && LaunchAll("w", FreshStatuses(TWO.spec), [Offer("")]) == TwoStatuses(Running)
  {
    var plan := [Offer(""), Offer("b")];
    TwoNames();
    assert plan[1..] == [Offer("b")] && [Offer("b")][1..] == [] && [Created, Refused][1..] == [Refused];
    assert Successes([Offer("b")], [Refused]) == [];
    assert CreatePod("w", map[], Offer("")) == TwoPods(PodPending);
    assert CreateAll("w", TwoPods(PodPending), [Offer("b")], [Refused]) == TwoPods(PodPending);
    assert LaunchAll("w", Launch("w", FreshStatuses(TWO.spec), Offer("")), []) == TwoStatuses(Running);
  }

  /** The pod of "" fails. */
  lemma FirstFailed() returns (s: State)
    ensures Reachable(TWO, s) && s.activity == Idle && s.status.phase == WorkflowRunning
    ensures s.status.tasks == TwoStatuses(Running) && s.pods == TwoPods(PodFailed)
  {
    var started := FirstStarted();
    PodMoveStaysReachable(TWO, started, PodName("w", ""), PodFailed);
    s := MovePod(started, PodName("w", ""), PodFailed);
  }

  lemma SecondName()
    ensures PodName("w", "b") != PodName("w", "")
  {
    assert |PodName("w", "b")| == 3 && |PodName("w", "")| == 2;
  }

  lemma SecondPlans(s: State, w: World)
    requires s.activity == Idle && s.status.phase == WorkflowRunning
    requires s.status.tasks == TwoStatuses(Running) && s.pods == TwoPods(PodFailed)
    requires w == Calm([s.pods[PodName("w", "")]], map[], [])
    ensures Plans(TWO, s, w) && PlanOf(TWO, s, w) == [Offer("b")]
  {
    OneListing(s.pods, PodName("w", ""));
    assert Observed(TWO, s.pods, s.status.tasks) == s.status.tasks;
    assert "b" in s.status.tasks;
    TwoPlan(s.status.tasks);
  }

  /** The next Reconcile creates b's pod all the same. */
  lemma GoesOn(s: State) returns (w: World)
    requires Reachable(TWO, s) && s.activity == Idle && s.status.phase == WorkflowRunning
    requires s.status.tasks == TwoStatuses(Running) && s.pods == TwoPods(PodFailed)
    ensures Sees(s, w) && PodName("w", "b") in Reconcile(TWO, s, w).pods
  {
    w := Calm([s.pods[PodName("w", "")]], map[], []);
    SecondPlans(s, w);
    ReachableIsSafe(TWO, s);
    PlansResult(TWO, s, w);
    assert CreateAll("w", CreatePod("w", s.pods, Offer("b")), [], []) == CreatePod("w", s.pods, Offer("b"));
  }

  lemma FailureIgnored() returns (states: seq<State>, steps: seq<Step>, i: nat)
    ensures IsRun(TWO, states, steps) && i < |states| && RunningButFailed(TWO, states[i], "")
    ensures !FrozenBetween(states, i, |steps|)
  {
    var s := FirstFailed();
    var w := GoesOn(s);
    ReachableIsSafe(TWO, s);
    ReconcileIsMicroSteps(TWO, s, w);
    states, steps, i := RunThrough(TWO, s, Reconcile(TWO, s, w));
    SecondName();
    assert PodName("w", "b") !in states[i].pods;
  }

  /** A failure freezes the run exactly if the task has a name: the pod listing skips empty labels. */
  lemma FreezesIff(t: string)
    ensures Freezes(t) <==> t != ""
  {
    if t != "" {
      forall cfg: Config, states, steps, failed: nat, start: nat, later: nat
             | IsRun(cfg, states, steps) && failed <= start <= later < |states|
               && RunningButFailed(cfg, states[failed], t)
        ensures FrozenBetween(states, start, later)
      {
        FailureFreezes(cfg, states, steps, failed, start, later, t);
      }
    } else {
      var states, steps, i := FailureIgnored();
      assert !FrozenBetween(states, i, |steps|);
    }
  }

  // ---- A failure is noticed ----

  lemma FailureObserved(cfg: Config, s: State, t: string)
    requires RunningButFailed(cfg, s, t) && t != ""
    ensures t in Observed(cfg, s.pods, s.status.tasks) && Observed(cfg, s.pods, s.status.tasks)[t].phase == Failed
  {
  }

  /** Once the pod of a persisted-Running task with a name has failed, the next Reconcile ends the workflow
      as failed exactly when it gets to list the pods and its status write succeeds (or the workflow has
      failed already). */
  lemma FailureIsNoticedIff(cfg: Config, s: State, t: string, w: World)
    requires Reachable(cfg, s) && Sees(s, w) && RunningButFailed(cfg, s, t) && t != ""
    ensures Reconcile(cfg, s, w).status.phase == WorkflowFailed <==>
            s.status.phase == WorkflowFailed || (w.listOk && w.writeOk)
    ensures s.status.phase != WorkflowFailed && w.listOk && w.writeOk ==>
              Reconcile(cfg, s, w).status.tasks == Observed(cfg, s.pods, s.status.tasks)
              && Observed(cfg, s.pods, s.status.tasks)[t].phase == Failed
  {
    ReachableIsSafe(cfg, s);
    FailureObserved(cfg, s, t);
    assert s.status.phase != Completed;
    if s.status.phase != WorkflowFailed && w.listOk {
      if w.writeOk {
        FailsNow(cfg, s, w);
      } else {
        FailureUnwritten(cfg, s, w);
      }
    }
  }

  lemma FailureUnwritten(cfg: Config, s: State, w: World)
    requires !w.writeOk
    ensures Reconcile(cfg, s, w).status == s.status
  {
  }
}
