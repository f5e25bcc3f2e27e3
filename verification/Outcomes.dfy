/** What each way for a Reconcile to go leaves behind. */
module Outcomes {
  import opened Quantities
  import opened Workflow
  import opened Machine
  import opened RunSafety
  import opened RunRecords
  import opened Reconciling
  import opened ReconcileEffects

  /** The statuses that a sync of the true pods ends with. */
  function Synced(cfg: Config, s: State): Statuses {
    Observed(cfg, s.pods, s.status.tasks)
  }

  /** There is something to sync: the workflow has been initialised and has not ended. */
  predicate UnderWay(s: State) {
    s.status.tasks != map[] && !TerminalWorkflow(s.status.phase)
  }

  predicate HasOutcome(tasks: Statuses) {
    AnyFailed(tasks) || AllSucceeded(tasks)
  }

  /** A call that this Reconcile needs fails: to write the first status; or to list the pods; then, where
      the workflow is found to have ended, to write that; otherwise to plan or to write the result. */
  predicate CallFails(cfg: Config, s: State, w: World) {
    || (s.status.tasks == map[] && !w.writeOk)
    || (UnderWay(s) && !w.listOk)
    || (UnderWay(s) && w.listOk && !w.writeOk)
    || (UnderWay(s) && w.listOk && !HasOutcome(Synced(cfg, s)) && !w.planOk)
  }

  lemma ReconciledUnderWay(cfg: Config, s: State, w: World)
    requires Sees(s, w) && PodsNamed(cfg, s.pods) && UnderWay(s) && w.listOk
    ensures Reconcile(cfg, s, w) ==
            Conclude(cfg, s.(executions := s.executions + RecordAll(s.status.tasks, w.listing)), Synced(cfg, s), w)
    ensures Synced(cfg, s) != map[]
    ensures multiset(RecordAll(s.status.tasks, w.listing)) ==
            multiset(SucceededIn(Synced(cfg, s)) - SucceededIn(s.status.tasks))
  {
    SyncIgnoresOrder(cfg, s.pods, w.listing, s.status.tasks);
    assert Synced(cfg, s).Keys == s.status.tasks.Keys;
  }

  /** Whenever a call fails nothing is persisted. */
  lemma FailedCallPersistsNothing(cfg: Config, s: State, w: World)
    requires Sees(s, w) && PodsNamed(cfg, s.pods) && CallFails(cfg, s, w)
    ensures Reconcile(cfg, s, w).status == s.status
  {
    if UnderWay(s) && w.listOk {
      ReconciledUnderWay(cfg, s, w);
    }
  }

  /** Unless it gets as far as a plan, a Reconcile leaves the pods alone: in particular when planning fails. */
  lemma NoPlanNoPods(cfg: Config, s: State, w: World)
    requires Sees(s, w) && PodsNamed(cfg, s.pods)
    requires !UnderWay(s) || !w.listOk || HasOutcome(Synced(cfg, s)) || !w.planOk
    ensures Reconcile(cfg, s, w).pods == s.pods
  {
    if UnderWay(s) && w.listOk {
      ReconciledUnderWay(cfg, s, w);
    }
  }

  /** A failed planning call leaves nothing behind but the execution records of the sync. */
  lemma FailedPlanning(cfg: Config, s: State, w: World)
    requires Sees(s, w) && PodsNamed(cfg, s.pods) && UnderWay(s) && w.listOk && !w.planOk
    requires !HasOutcome(Synced(cfg, s))
    ensures Reconcile(cfg, s, w).status == s.status && Reconcile(cfg, s, w).pods == s.pods
    ensures multiset(Reconcile(cfg, s, w).executions) ==
            multiset(s.executions) + multiset(SucceededIn(Synced(cfg, s)) - SucceededIn(s.status.tasks))
  {
    ReconciledUnderWay(cfg, s, w);
  }

  /** Every spec task starts as Pending, without a pod or resources, in a workflow that is Pending. */
  lemma InitialOutcome(cfg: Config, s: State, w: World)
    requires s.status.tasks == map[] && w.writeOk
    ensures var after := Reconcile(cfg, s, w);
            && after.status.phase == WorkflowPending && after.status.usage == s.status.usage
            && (forall i :: 0 <= i < |cfg.spec.tasks| ==> cfg.spec.tasks[i].name in after.status.tasks)
            && (forall t :: t in after.status.tasks ==>
                exists i :: 0 <= i < |cfg.spec.tasks| && cfg.spec.tasks[i].name == t)
            && (forall t :: t in after.status.tasks ==>
                  after.status.tasks[t] == TaskStatus(Pending, "", Requirements(map[], map[])))
            && after.pods == s.pods && after.executions == s.executions && after.activity == s.activity
  {
  }

  /** An ended workflow, or one whose pods cannot be listed, is left exactly as it is. */
  lemma NothingDone(cfg: Config, s: State, w: World)
    requires s.status.tasks != map[] && (TerminalWorkflow(s.status.phase) || !w.listOk)
    ensures Reconcile(cfg, s, w) == s
  {
  }

  /** An ended workflow is persisted with what the sync found: failed if any task has failed, otherwise
      Completed and without usage. */
  lemma EndOutcome(cfg: Config, s: State, w: World)
    requires Sees(s, w) && PodsNamed(cfg, s.pods) && UnderWay(s) && w.listOk && w.writeOk && HasOutcome(Synced(cfg, s))
    ensures var after := Reconcile(cfg, s, w).status;
            && after.tasks == Synced(cfg, s)
            && (if AnyFailed(Synced(cfg, s)) then after.phase == WorkflowFailed && after.usage == s.status.usage
                else after.phase == Completed && after.usage.cpu == 0 && after.usage.mem == 0)
  {
    ReconciledUnderWay(cfg, s, w);
  }

  // ---- Which creations count ----

  /** The i-th creation of a plan is reported as successful, or nothing is known of it. */
  predicate Succeeds(creations: seq<CreateOutcome>, i: nat) {
    i < |creations| ==> creations[i] == Created
  }

  /** The i-th task of a plan counts as started exactly when its own creation succeeds. */
  lemma {:induction false} SuccessAt(plan: seq<TaskAllocation>, creations: seq<CreateOutcome>, i: nat)
    requires DistinctTasks(plan) && i < |plan|
    ensures plan[i] in Successes(plan, creations) <==> Succeeds(creations, i)
    decreases |plan|
  {
    SuccessesArePlanned(plan[1..], Later(creations));
    if i == 0 {
      forall a | a in plan[1..]
        ensures a.task != plan[0].task
      {
        var k :| 0 <= k < |plan| - 1 && plan[1..][k] == a;
        assert plan[k + 1] == a;
      }
    } else {
      SuccessAt(plan[1..], Later(creations), i - 1);
      assert plan[1..][i - 1] == plan[i] && plan[i].task != plan[0].task;
    }
  }

  predicate Refuses(creations: seq<CreateOutcome>, i: nat) {
    i < |creations| && creations[i] == Refused
  }

  lemma DistinctPods(cfg: Config, a: string, b: string)
    requires LowerUnique(cfg.spec) && a in Names(cfg.spec) && b in Names(cfg.spec) && a != b
    ensures PodName(cfg.workflow, a) != PodName(cfg.workflow, b)
  {
    PodNameClash(cfg.workflow, a, b);
    if Lower(a) == Lower(b) {
      LowerUniqueNames(cfg.spec, a, b);
    }
  }

  lemma {:induction false} CreateAllKeeps(workflow: string, pods: Pods, plan: seq<TaskAllocation>,
                                          creations: seq<CreateOutcome>, n: string)
    requires n in pods
    ensures n in CreateAll(workflow, pods, plan, creations) && CreateAll(workflow, pods, plan, creations)[n] == pods[n]
    decreases |plan|
  {
    if plan != [] {
      CreateAllKeeps(workflow, if First(creations) == Refused then pods else CreatePod(workflow, pods, plan[0]),
                     plan[1..], Later(creations), n);
    }
  }

  lemma {:induction false} CreateAllAdds(cfg: Config, pods: Pods, plan: seq<TaskAllocation>,
                                         creations: seq<CreateOutcome>, n: string)
    requires n !in pods && forall a :: a in plan ==> PodName(cfg.workflow, a.task) != n
    ensures n !in CreateAll(cfg.workflow, pods, plan, creations)
    decreases |plan|
  {
    if plan != [] {
      assert plan[0] in plan && forall a :: a in plan[1..] ==> a in plan;
      CreateAllAdds(cfg, if First(creations) == Refused then pods else CreatePod(cfg.workflow, pods, plan[0]),
                    plan[1..], Later(creations), n);
    }
  }

  /** The i-th task of a plan that has no pod yet gets one, Pending and with its allocation, exactly when its
      own creation is not refused. */
  lemma {:induction false} CreatedAt(cfg: Config, pods: Pods, plan: seq<TaskAllocation>,
                                     creations: seq<CreateOutcome>, i: nat)
    requires LowerUnique(cfg.spec) && DistinctTasks(plan) && forall b :: b in plan ==> b.task in Names(cfg.spec)
    requires i < |plan| && PodName(cfg.workflow, plan[i].task) !in pods
    ensures var n, after := PodName(cfg.workflow, plan[i].task), CreateAll(cfg.workflow, pods, plan, creations);
            && (n in after <==> !Refuses(creations, i))
            && (n in after ==> after[n] == Pod(n, plan[i].task, plan[i].resources, PodPending))
    decreases |plan|
  {
    var n := PodName(cfg.workflow, plan[i].task);
    var next := if First(creations) == Refused then pods else CreatePod(cfg.workflow, pods, plan[0]);
    assert plan[0] in plan && plan[i] in plan && forall b :: b in plan[1..] ==> b in plan;
    if i > 0 {
      assert plan[0].task != plan[i].task && plan[1..][i - 1] == plan[i];
      DistinctPods(cfg, plan[0].task, plan[i].task);
      CreatedAt(cfg, next, plan[1..], Later(creations), i - 1);
    } else if First(creations) == Refused {
      forall b | b in plan[1..]
        ensures PodName(cfg.workflow, b.task) != n
      {
        var k :| 0 <= k < |plan| - 1 && plan[1..][k] == b;
        assert plan[k + 1] == b;
        DistinctPods(cfg, b.task, plan[0].task);
      }
      CreateAllAdds(cfg, next, plan[1..], Later(creations), n);
    } else {
      CreateAllKeeps(cfg.workflow, next, plan[1..], Later(creations), n);
    }
  }

  /** Records are appended in the order in which the pods are listed. */
  lemma {:induction false} RecordsFollowListing(tasks: Statuses, listing: seq<Pod>, p: Pod)
    ensures RecordAll(tasks, listing + [p]) == RecordAll(tasks, listing) + Recorded(SyncAll(tasks, listing), p)
    decreases |listing|
  {
    if listing == [] {
      assert [p][1..] == [] && listing + [p] == [p];
      assert RecordAll(SyncTask(tasks, p), []) == [];
    } else {
      assert (listing + [p])[0] == listing[0] && (listing + [p])[1..] == listing[1..] + [p];
      RecordsFollowListing(SyncTask(tasks, listing[0]), listing[1..], p);
    }
  }
}
