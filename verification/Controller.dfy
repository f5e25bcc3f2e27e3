/** The reconciler, updating its copy of the workflow, the stored status and the pods in place. */
module Controller {
  import opened Loads
  import opened Workflow
  import opened Planning
  import opened Machine
  import opened RunSafety
  import opened Reconciling
  import opened ReconcileEffects
  import opened Outcomes

  datatype Result = Stop | RequeueNow | RequeueLater | Error

  /** The workflow's status in the controller's memory, for the duration of one Reconcile. */
  class WorkingCopy {
    var phase: WorkflowPhase
    var tasks: Statuses
    var usage: Load

    constructor (status: Status)
      ensures AsStatus() == status
    {
      phase, tasks, usage := status.phase, status.tasks, status.usage;
    }

    function AsStatus(): Status
      reads this
    {
      Status(phase, tasks, usage)
    }
  }

  method SomeFailed(tasks: Statuses) returns (failed: bool)
    ensures failed <==> AnyFailed(tasks)
  {
    var rest := tasks.Keys;
    while rest != {}
      invariant rest <= tasks.Keys
      invariant forall t :: t in tasks && t !in rest ==> tasks[t].phase != Failed
    {
      var t :| t in rest;
      if tasks[t].phase == Failed {
        return true;
      }
      rest := rest - {t};
    }
    return false;
  }

  method EverySucceeded(tasks: Statuses) returns (all: bool)
    ensures all <==> AllSucceeded(tasks)
  {
    var rest := tasks.Keys;
    while rest != {}
      invariant rest <= tasks.Keys
      invariant forall t :: t in tasks && t !in rest ==> tasks[t].phase == Succeeded
    {
      var t :| t in rest;
      if tasks[t].phase != Succeeded {
        return false;
      }
      rest := rest - {t};
    }
    return true;
  }

  method InitialStatuses(spec: Spec) returns (tasks: Statuses)
    ensures tasks == FreshStatuses(spec)
  {
    tasks := map[];
    for i := 0 to |spec.tasks|
      invariant tasks == FreshStatuses(spec.(tasks := spec.tasks[..i]))
    {
      FreshNext(spec, i);
      tasks := tasks[spec.tasks[i].name := TaskStatus(Pending, "", NOTHING)];
    }
    assert spec.tasks[..|spec.tasks|] == spec.tasks;
  }

  lemma FreshNext(spec: Spec, i: nat)
    requires i < |spec.tasks|
    ensures FreshStatuses(spec.(tasks := spec.tasks[..i + 1])) ==
            FreshStatuses(spec.(tasks := spec.tasks[..i]))[spec.tasks[i].name := TaskStatus(Pending, "", NOTHING)]
  {
  }

  class Reconciler {
    const cfg: Config
    var stored: Status
    var pods: Pods
    var executions: seq<string>

    ghost function Snapshot(): State
      reads this
    {
      State(stored, pods, executions, Idle)
    }

    /** Everything proved of runs holds of this object: its state is one that a run reaches. */
    ghost predicate Valid()
      reads this
    {
      Reachable(cfg, Snapshot())
    }

    constructor (cfg: Config)
      ensures Valid() && this.cfg == cfg && Snapshot() == START
    {
      this.cfg := cfg;
      stored, pods, executions := START.status, map[], [];
      new;
      StartIsReachable(cfg);
    }

    /** Steps 2 to 10 of Reconcile. Whatever the API calls do, the cluster ends up as specified, the
        persisted status has only moved forward and keeps the budget, and the controller only stops
        asking to be called again when the workflow has ended. */
    method Reconcile(w: World) returns (result: Result)
      requires Valid() && Sees(Snapshot(), w)
      modifies this
      ensures Valid()
      ensures Snapshot() == Reconciling.Reconcile(cfg, old(Snapshot()), w)
      ensures Forward(old(stored), stored)
      ensures UsageFits(stored.tasks, EffectiveCap(cfg.planner, cfg.spec))
      ensures result == Stop <==> TerminalWorkflow(stored.phase)
      ensures result == Error <==> CallFails(cfg, old(Snapshot()), w)
      ensures result == Error ==> stored == old(stored)
      ensures result == RequeueNow <==> old(stored).tasks == map[] && w.writeOk
      ensures result == RequeueLater <==> Plans(cfg, old(Snapshot()), w)
    {
      ghost var before := Snapshot();
      ReachableIsSafe(cfg, before);
      if UnderWay(before) && w.listOk {
        SyncIgnoresOrder(cfg, before.pods, w.listing, before.status.tasks);
      }
      ReconcileStaysReachable(cfg, before, w);
      ReconcileForward(cfg, before, w);
      result := Run(w);
      ReachableFits(cfg, Snapshot());
    }

    method Run(w: World) returns (result: Result)
      requires Shape(cfg, Snapshot())
      modifies this
      ensures Snapshot() == Reconciling.Reconcile(cfg, old(Snapshot()), w)
      ensures result == Stop <==> TerminalWorkflow(stored.phase)
      ensures result == RequeueNow <==> old(stored).tasks == map[] && w.writeOk
      ensures UnderWay(old(Snapshot())) && !w.listOk ==> result == Error
      ensures UnderWay(old(Snapshot())) && w.listOk ==>
                var synced := SyncAll(old(stored).tasks, w.listing);
                && (result == Error <==> !w.writeOk || (!HasOutcome(synced) && !w.planOk))
                && (result == RequeueLater <==> !HasOutcome(synced) && w.planOk && w.writeOk)
      ensures !UnderWay(old(Snapshot())) && old(stored).tasks == map[] && !w.writeOk ==> result == Error
      ensures result == Error ==> stored == old(stored)
    {
      var wf := new WorkingCopy(stored);
      if wf.tasks == map[] {
        wf.tasks := InitialStatuses(cfg.spec);
        wf.phase := WorkflowPending;
        result := WriteStatus(wf, w.writeOk, RequeueNow);
        return;
      }
      if TerminalWorkflow(wf.phase) {
        return Stop;
      }
      if !w.listOk {
        return Error;
      }
      SyncAllKeys(wf.tasks, w.listing);
      SyncPodsToStatus(wf, w.listing);
      result := Decide(wf, w);
    }

    method WriteStatus(wf: WorkingCopy, ok: bool, success: Result) returns (result: Result)
      modifies this`stored
      ensures stored == if ok then wf.AsStatus() else old(stored)
      ensures result == if ok then success else Error
    {
      if !ok {
        return Error;
      }
      stored := wf.AsStatus();
      return success;
    }

    /** Folding the listed pods into the working copy, recording each success. */
    method SyncPodsToStatus(wf: WorkingCopy, listing: seq<Pod>)
      modifies this`executions, wf`tasks
      ensures wf.tasks == SyncAll(old(wf.tasks), listing)
      ensures executions == old(executions) + RecordAll(old(wf.tasks), listing)
    {
      assert listing[0..] == listing;
      for i := 0 to |listing|
        invariant SyncAll(wf.tasks, listing[i..]) == SyncAll(old(wf.tasks), listing)
        invariant executions + RecordAll(wf.tasks, listing[i..]) == old(executions) + RecordAll(old(wf.tasks), listing)
      {
        var pod := listing[i];
        assert listing[i..][0] == pod && listing[i..][1..] == listing[i + 1..];
        if pod.task != "" && pod.task in wf.tasks && wf.tasks[pod.task].phase == Running {
          var ts := wf.tasks[pod.task];
          match pod.phase
          case PodSucceeded =>
            wf.tasks := wf.tasks[pod.task := ts.(phase := Succeeded)];
            executions := executions + [pod.task];
          case PodFailed =>
            wf.tasks := wf.tasks[pod.task := ts.(phase := Failed)];
          case _ =>
        }
      }
    }

    /** Steps 6 to 10, on the synced working copy. */
    method Decide(wf: WorkingCopy, w: World) returns (result: Result)
      requires wf.usage == stored.usage && !TerminalWorkflow(stored.phase) && wf.tasks != map[]
      modifies this, wf
      ensures Snapshot() == Conclude(cfg, old(Snapshot()), old(wf.tasks), w)
      ensures result == Stop <==> TerminalWorkflow(stored.phase)
      ensures result == Error <==> !w.writeOk || (!HasOutcome(old(wf.tasks)) && !w.planOk)
      ensures result == RequeueLater <==> !HasOutcome(old(wf.tasks)) && w.planOk && w.writeOk
      ensures result != RequeueNow && (result == Error ==> stored == old(stored))
    {
      var failed := SomeFailed(wf.tasks);
      if failed {
        wf.phase := WorkflowFailed;
        result := WriteStatus(wf, w.writeOk, Stop);
        return;
      }
      var all := EverySucceeded(wf.tasks);
      if all && wf.tasks != map[] {
        wf.phase, wf.usage := Completed, Load(0, 0);
        result := WriteStatus(wf, w.writeOk, Stop);
        return;
      }
      wf.phase := WorkflowRunning;
      if !w.planOk {
        return Error;
      }
      var plan := CallOptimizer(cfg.planner, cfg.spec, wf.tasks, w.predictions);
      PlanNamesEntries(cfg, wf.tasks, w.predictions);
      SpawnTasks(wf, plan, w.creations);
      wf.usage := ComputeResourceUsage(wf.tasks);
      result := WriteStatus(wf, w.writeOk, RequeueLater);
    }

    /** Pods are created one by one; a task whose creation fails is skipped. */
    method SpawnTasks(wf: WorkingCopy, plan: seq<TaskAllocation>, creations: seq<CreateOutcome>)
      requires forall a :: a in plan ==> a.task in Names(cfg.spec)
      modifies this`pods, wf`tasks
      ensures pods == CreateAll(cfg.workflow, old(pods), plan, creations)
      ensures wf.tasks == LaunchAll(cfg.workflow, old(wf.tasks), Successes(plan, creations))
    {
      var outcomes := creations;
      ghost var rest := plan;
      for i := 0 to |plan|
        invariant rest == plan[i..]
        invariant CreateAll(cfg.workflow, pods, rest, outcomes) == CreateAll(cfg.workflow, old(pods), plan, creations)
        invariant LaunchAll(cfg.workflow, wf.tasks, Successes(rest, outcomes))
                  == LaunchAll(cfg.workflow, old(wf.tasks), Successes(plan, creations))
      {
        var a := plan[i];
        assert a == rest[0];
        var ok := CreateTaskPod(a, First(outcomes));
        LaunchNext(cfg.workflow, wf.tasks, rest, outcomes);
        if ok {
          wf.tasks := wf.tasks[a.task := TaskStatus(Running, PodName(cfg.workflow, a.task), a.resources)];
        }
        outcomes := Later(outcomes);
        rest := rest[1..];
      }
    }

    /** Fails for tasks the spec does not know; an existing pod of that name is left alone. */
    method CreateTaskPod(a: TaskAllocation, outcome: CreateOutcome) returns (ok: bool)
      modifies this`pods
      ensures ok <==> a.task in Names(cfg.spec) && outcome == Created
      ensures pods == if a.task in Names(cfg.spec) && outcome != Refused then CreatePod(cfg.workflow, old(pods), a)
                      else old(pods)
    {
      var known := false;
      for i := 0 to |cfg.spec.tasks|
        invariant known <==> exists k :: 0 <= k < i && cfg.spec.tasks[k].name == a.task
      {
        if cfg.spec.tasks[i].name == a.task {
          known := true;
        }
      }
      if !known || outcome == Refused {
        return false;
      }
      var name := PodName(cfg.workflow, a.task);
      if name !in pods {
        pods := pods[name := Pod(name, a.task, a.resources, PodPending)];
      }
      return outcome == Created;
    }

    method ComputeResourceUsage(tasks: Statuses) returns (usage: Load)
      ensures usage == UsageOf(tasks)
    {
      var cpu, mem := AddUpRunning(tasks);
      return Load(cpu, mem);
    }

    /** The environment moves a pod that has not finished. */
    method PodMoves(name: string, phase: PodPhase)
      requires Valid() && name in pods && !TerminalPod(pods[name].phase)
      modifies this
      ensures Valid() && Snapshot() == MovePod(old(Snapshot()), name, phase)
    {
      PodMoveStaysReachable(cfg, Snapshot(), name, phase);
      pods := pods[name := pods[name].(phase := phase)];
    }
  }

  lemma LaunchNext(workflow: string, tasks: Statuses, plan: seq<TaskAllocation>, creations: seq<CreateOutcome>)
    requires plan != []
    ensures LaunchAll(workflow, tasks, Successes(plan, creations)) ==
            LaunchAll(workflow, if First(creations) == Created then Launch(workflow, tasks, plan[0]) else tasks,
                      Successes(plan[1..], Later(creations)))
  {
    var rest := Successes(plan[1..], Later(creations));
    if First(creations) == Created {
      assert Successes(plan, creations) == [plan[0]] + rest && ([plan[0]] + rest)[1..] == rest;
    } else {
      assert Successes(plan, creations) == rest;
    }
  }
}
