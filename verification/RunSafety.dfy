/** Safety over whole runs: ordering, one pod per task, monotone phases, absorbing ends, failure. */
module RunSafety {
  import opened Workflow
  import opened Machine
  import opened SafetyProof

  // ---- Ordering ----

  /** Whenever a task's pod exists, the pods of all its dependencies exist and have Succeeded: at every
      moment of every run, through crashes, lost writes and re-planning. */
  lemma DependenciesPrecedePods(cfg: Config, states: seq<State>, steps: seq<Step>, i: nat, n: string, e: nat)
    requires IsRun(cfg, states, steps) && i < |states| && UniqueNames(cfg.spec)
    requires n in states[i].pods && e < |cfg.spec.tasks| && states[i].pods[n].task == cfg.spec.tasks[e].name
    ensures forall k :: 0 <= k < |cfg.spec.tasks[e].dependencies| ==>
              PodIs(cfg, states[i].pods, cfg.spec.tasks[e].dependencies[k], PodSucceeded)
  {
    RunsAreSafe(cfg, states, steps, i);
    var pods := states[i].pods;
    assert MayStart(cfg, pods, pods[n].task);
    var f :| 0 <= f < |cfg.spec.tasks| && cfg.spec.tasks[f].name == pods[n].task && DependenciesDone(cfg, pods, f);
    assert f == e;
  }

  // ---- One pod per started task ----

  predicate HasPod(cfg: Config, pods: Pods, t: string) {
    PodName(cfg.workflow, t) in pods && pods[PodName(cfg.workflow, t)].task == t
  }

  ghost predicate StartedHavePods(cfg: Config, pods: Pods, tasks: Statuses) {
    forall t :: t in tasks && tasks[t].phase != Pending ==> HasPod(cfg, pods, t)
  }

  lemma GrowthKeepsHasPod(cfg: Config, before: Pods, after: Pods, tasks: Statuses)
    requires PodsGrow(before, after) && StartedHavePods(cfg, before, tasks)
    ensures StartedHavePods(cfg, after, tasks)
  {
    forall t | t in tasks && tasks[t].phase != Pending
      ensures HasPod(cfg, after, t)
    {
      assert HasPod(cfg, before, t);
    }
  }

  lemma LowerUniqueNames(spec: Spec, a: string, b: string)
    requires LowerUnique(spec) && a in Names(spec) && b in Names(spec) && Lower(a) == Lower(b)
    ensures a == b
  {
  }

  lemma CreatedHasPod(cfg: Config, pods: Pods, a: TaskAllocation)
    requires LowerUnique(cfg.spec) && PodsNamed(cfg, pods) && a.task in Names(cfg.spec)
    ensures HasPod(cfg, CreatePod(cfg.workflow, pods, a), a.task)
  {
    var n := PodName(cfg.workflow, a.task);
    if n in pods {
      PodNameClash(cfg.workflow, a.task, pods[n].task);
      LowerUniqueNames(cfg.spec, a.task, pods[n].task);
    }
  }

  lemma SpawnKeepsHasPod(cfg: Config, s: State, outcome: CreateOutcome)
    requires LowerUnique(cfg.spec) && Safe(cfg, s) && Enabled(cfg, s, Spawn(outcome))
    requires StartedHavePods(cfg, s.pods, s.status.tasks) && StartedHavePods(cfg, s.pods, s.activity.tasks)
    ensures var after := SpawnFirst(cfg, s, outcome);
            StartedHavePods(cfg, after.pods, s.status.tasks) && StartedHavePods(cfg, after.pods, after.activity.tasks)
  {
    if outcome != Refused {
      CreateKeepsHasPod(cfg, s.pods, s.activity.plan[0], s.status.tasks);
      CreateKeepsHasPod(cfg, s.pods, s.activity.plan[0], s.activity.tasks);
    }
  }

  lemma CreateKeepsHasPod(cfg: Config, pods: Pods, a: TaskAllocation, tasks: Statuses)
    requires LowerUnique(cfg.spec) && PodsNamed(cfg, pods) && a.task in Names(cfg.spec)
    requires StartedHavePods(cfg, pods, tasks)
    ensures StartedHavePods(cfg, CreatePod(cfg.workflow, pods, a), tasks)
    ensures StartedHavePods(cfg, CreatePod(cfg.workflow, pods, a), Launch(cfg.workflow, tasks, a))
  {
    var after := CreatePod(cfg.workflow, pods, a);
    assert PodsGrow(pods, after);
    GrowthKeepsHasPod(cfg, pods, after, tasks);
    CreatedHasPod(cfg, pods, a);
  }

  /** Apart from creating pods, no step makes a task count as started that did not count before. */
  lemma StartedWhen(cfg: Config, s: State, step: Step, t: string)
    requires Enabled(cfg, s, step) && !step.Spawn?
    ensures var after := Do(cfg, s, step);
            && (t in View(after) && View(after)[t].phase != Pending ==>
                  || (t in View(s) && View(s)[t].phase != Pending)
                  || (t in s.status.tasks && s.status.tasks[t].phase != Pending))
            && (t in after.status.tasks && after.status.tasks[t].phase != Pending ==>
                  || (t in View(s) && View(s)[t].phase != Pending)
                  || (t in s.status.tasks && s.status.tasks[t].phase != Pending))
  {
    match step
    case Initialise =>
    case Begin(_) =>
    case SyncOne =>
    case Judge(_) =>
    case Finish =>
    case Abort =>
    case PodMoves(_, _) =>
  }

  lemma StepKeepsHasPod(cfg: Config, s: State, step: Step)
    requires LowerUnique(cfg.spec) && Safe(cfg, s) && Enabled(cfg, s, step)
    requires StartedHavePods(cfg, s.pods, s.status.tasks) && StartedHavePods(cfg, s.pods, View(s))
    ensures var after := Do(cfg, s, step);
            StartedHavePods(cfg, after.pods, after.status.tasks) && StartedHavePods(cfg, after.pods, View(after))
  {
    if step.Spawn? {
      SpawnKeepsHasPod(cfg, s, step.outcome);
    } else {
      var after := Do(cfg, s, step);
      forall t | (t in View(after) && View(after)[t].phase != Pending)
                 || (t in after.status.tasks && after.status.tasks[t].phase != Pending)
        ensures HasPod(cfg, after.pods, t)
      {
        StartedWhen(cfg, s, step, t);
        assert HasPod(cfg, s.pods, t);
        StepGrowsPods(cfg, s, step);
      }
    }
  }

  lemma {:induction false} RunsKeepHasPod(cfg: Config, states: seq<State>, steps: seq<Step>, i: nat)
    requires LowerUnique(cfg.spec) && IsRun(cfg, states, steps) && i < |states|
    ensures StartedHavePods(cfg, states[i].pods, states[i].status.tasks)
            && StartedHavePods(cfg, states[i].pods, View(states[i]))
  {
    if i > 0 {
      RunsKeepHasPod(cfg, states, steps, i - 1);
      RunsAreSafe(cfg, states, steps, i - 1);
      StepKeepsHasPod(cfg, states[i - 1], steps[i - 1]);
    }
  }

  /** A task that is persisted as anything but Pending has its pod, and over the whole run no other pod
      ever carries its name: crashes and retries never start it twice. */
  lemma ExactlyOnePod(cfg: Config, states: seq<State>, steps: seq<Step>, i: nat, t: string)
    requires LowerUnique(cfg.spec) && IsRun(cfg, states, steps) && i < |states|
    requires t in states[i].status.tasks && states[i].status.tasks[t].phase != Pending
    ensures HasPod(cfg, states[i].pods, t)
    ensures forall j, n :: 0 <= j < |states| && n in states[j].pods && states[j].pods[n].task == t ==>
              n == PodName(cfg.workflow, t)
  {
    RunsKeepHasPod(cfg, states, steps, i);
    forall j, n | 0 <= j < |states| && n in states[j].pods && states[j].pods[n].task == t
      ensures n == PodName(cfg.workflow, t)
    {
      RunsAreSafe(cfg, states, steps, j);
    }
  }

  /** At every moment of every run, each pod is stored under its own name, which is that of its task. */
  lemma PodsAreNamed(cfg: Config, states: seq<State>, steps: seq<Step>, i: nat, n: string)
    requires IsRun(cfg, states, steps) && i < |states| && n in states[i].pods
    ensures states[i].pods[n].name == n && states[i].pods[n].task in Names(cfg.spec)
    ensures IsPodName(cfg.workflow, states[i].pods[n].task, n)
  {
    RunsAreSafe(cfg, states, steps, i);
    PodNameShape(cfg.workflow, states[i].pods[n].task);
  }

  /** Every started task has its pod's name on record. */
  predicate StartedNamed(cfg: Config, tasks: Statuses) {
    forall t :: t in tasks && tasks[t].phase != Pending ==> tasks[t].podName == PodName(cfg.workflow, t)
  }

  lemma StepNamed(cfg: Config, s: State, step: Step)
    requires StartedNamed(cfg, s.status.tasks) && StartedNamed(cfg, View(s)) && Enabled(cfg, s, step)
    ensures StartedNamed(cfg, Do(cfg, s, step).status.tasks) && StartedNamed(cfg, View(Do(cfg, s, step)))
  {
    match step
    case Initialise =>
    case Begin(_) =>
    case SyncOne =>
    case Judge(_) =>
    case Spawn(_) =>
    case Finish =>
    case Abort =>
    case PodMoves(_, _) =>
  }

  lemma {:induction false} RunsNamed(cfg: Config, states: seq<State>, steps: seq<Step>, i: nat)
    requires IsRun(cfg, states, steps) && i < |states|
    ensures StartedNamed(cfg, states[i].status.tasks) && StartedNamed(cfg, View(states[i]))
  {
    if i > 0 {
      RunsNamed(cfg, states, steps, i - 1);
      StepNamed(cfg, states[i - 1], steps[i - 1]);
    }
  }

  /** The pod name persisted for a task that has been started is that of its pod. */
  lemma RecordedPodName(cfg: Config, states: seq<State>, steps: seq<Step>, i: nat, t: string)
    requires IsRun(cfg, states, steps) && i < |states|
    requires t in states[i].status.tasks && states[i].status.tasks[t].phase != Pending
    ensures IsPodName(cfg.workflow, t, states[i].status.tasks[t].podName)
  {
    RunsNamed(cfg, states, steps, i);
    PodNameShape(cfg.workflow, t);
  }

  // ---- Monotone phases and absorbing ends ----

  /** The persisted status only moves forward: task phases climb, and an ended workflow stays as it is. */
  ghost predicate Forward(before: Status, after: Status) {
    && (TerminalWorkflow(before.phase) ==> after == before)
    && (before.tasks != map[] ==> after.tasks.Keys == before.tasks.Keys)
    && (forall t :: t in before.tasks && t in after.tasks ==> PhaseLe(before.tasks[t].phase, after.tasks[t].phase))
  }

  lemma StepForward(cfg: Config, s: State, step: Step)
    requires Shape(cfg, s) && Ahead(s) && Enabled(cfg, s, step)
    ensures Forward(s.status, Do(cfg, s, step).status)
  {
    match step
    case Initialise =>
    case Begin(_) =>
    case SyncOne =>
    case Judge(_) =>
    case Spawn(_) =>
    case Finish =>
    case Abort =>
    case PodMoves(_, _) =>
  }

  lemma ForwardTwice(a: Status, b: Status, c: Status)
    requires Forward(a, b) && Forward(b, c)
    ensures Forward(a, c)
  {
    forall t | t in a.tasks && t in c.tasks
      ensures PhaseLe(a.tasks[t].phase, c.tasks[t].phase)
    {
      assert t in b.tasks;
    }
  }

  lemma RunStepForward(cfg: Config, states: seq<State>, steps: seq<Step>, i: nat)
    requires IsRun(cfg, states, steps) && i < |steps|
    ensures Forward(states[i].status, states[i + 1].status)
  {
    RunsAreSafe(cfg, states, steps, i);
    StepForward(cfg, states[i], steps[i]);
  }

  /** Between any two moments of a run, the persisted status has only moved forward. */
  lemma {:induction false} RunsMoveForward(cfg: Config, states: seq<State>, steps: seq<Step>, i: nat, j: nat)
    requires IsRun(cfg, states, steps) && i <= j < |states|
    ensures Forward(states[i].status, states[j].status)
  {
    if i < j {
      RunsMoveForward(cfg, states, steps, i, j - 1);
      RunStepForward(cfg, states, steps, j - 1);
      ForwardTwice(states[i].status, states[j - 1].status, states[j].status);
    }
  }

  /** A Completed workflow has every spec task Succeeded, each with its own Succeeded pod. */
  lemma CompletedMeansDone(cfg: Config, states: seq<State>, steps: seq<Step>, i: nat, t: string)
    requires IsRun(cfg, states, steps) && i < |states|
    requires states[i].status.phase == Completed && t in Names(cfg.spec)
    ensures t in states[i].status.tasks && states[i].status.tasks[t].phase == Succeeded
    ensures PodIs(cfg, states[i].pods, t, PodSucceeded)
  {
    RunsAreSafe(cfg, states, steps, i);
  }

  /** A workflow without tasks is initialised over and over and never ends. */
  lemma EmptyWorkflowNeverEnds(cfg: Config, states: seq<State>, steps: seq<Step>, i: nat)
    requires IsRun(cfg, states, steps) && i < |states| && cfg.spec.tasks == []
    ensures !TerminalWorkflow(states[i].status.phase) && states[i].activity == Idle
  {
    RunsAreSafe(cfg, states, steps, i);
    assert states[i].status.tasks.Keys == {};
  }

  // ---- Failure freezes the run ----

  /** Task t's failure is bound to be noticed: it is recorded, or its pod has failed while it counts as Running. */
  predicate Doomed(cfg: Config, s: State, t: string) {
    && t != ""
    && t in s.status.tasks
    && (|| s.status.tasks[t].phase == Failed
        || (s.status.tasks[t].phase == Running && PodIs(cfg, s.pods, t, PodFailed)))
  }

  /** While no pod is being created, the Reconcile under way (if any) is about to notice. */
  ghost predicate Frozen(s: State, t: string) {
    match s.activity
    case Idle => true
    case Syncing(tasks, todo) =>
      t in tasks && (tasks[t].phase == Failed
                     || (tasks[t].phase == Running && exists p :: p in todo && p.task == t && p.phase == PodFailed))
    case Spawning(_, _) => false
  }

  lemma DoomedStays(cfg: Config, s: State, step: Step, t: string)
    requires Safe(cfg, s) && Enabled(cfg, s, step) && Doomed(cfg, s, t)
    ensures Doomed(cfg, Do(cfg, s, step), t)
  {
    StepForward(cfg, s, step);
    var after := Do(cfg, s, step);
    assert PodIs(cfg, s.pods, t, PodFailed);
    assert PodIs(cfg, after.pods, t, PodFailed) by {
      StepGrowsPods(cfg, s, step);
    }
    StepSafe(cfg, s, step);
    assert after.status.tasks[t].phase != Succeeded;
  }

  lemma SyncFrozen(cfg: Config, s: State, t: string)
    requires Safe(cfg, s) && s.activity.Syncing? && s.activity.todo != [] && t != ""
    requires Frozen(s, t) && PodIs(cfg, s.pods, t, PodFailed)
    ensures Frozen(SyncFirst(s), t)
  {
    var head, rest := s.activity.todo[0], s.activity.todo[1..];
    var tasks := s.activity.tasks;
    assert head in s.activity.todo;
    if tasks[t].phase == Running {
      var p :| p in s.activity.todo && p.task == t && p.phase == PodFailed;
      if head.task == t {
        assert head.name == PodName(cfg.workflow, t);
        assert head.phase != PodSucceeded;
      }
      if p != head {
        assert p in rest;
      }
    }
  }

  /** A Reconcile that starts (or is still syncing) in a doomed state creates nothing, and every later one
      starts in a doomed state again. */
  lemma FrozenStays(cfg: Config, s: State, step: Step, t: string)
    requires Safe(cfg, s) && Enabled(cfg, s, step) && Doomed(cfg, s, t) && Frozen(s, t)
    ensures Frozen(Do(cfg, s, step), t) && Do(cfg, s, step).pods.Keys == s.pods.Keys
  {
    assert PodIs(cfg, s.pods, t, PodFailed);
    match step
    case Initialise =>
    case Begin(listing) =>
      if s.status.tasks[t].phase == Running {
        assert s.pods[PodName(cfg.workflow, t)] in listing;
      }
    case SyncOne => SyncFrozen(cfg, s, t);
    case Judge(_) => assert s.activity.tasks[t].phase == Failed;
    case Abort =>
    case PodMoves(_, _) =>
  }

  lemma {:induction false} DoomedForGood(cfg: Config, states: seq<State>, steps: seq<Step>, i: nat, j: nat, t: string)
    requires IsRun(cfg, states, steps) && i <= j < |states| && Doomed(cfg, states[i], t)
    ensures Doomed(cfg, states[j], t)
  {
    if i < j {
      DoomedForGood(cfg, states, steps, i, j - 1, t);
      RunsAreSafe(cfg, states, steps, j - 1);
      DoomedStays(cfg, states[j - 1], steps[j - 1], t);
    }
  }

  lemma RunStepFrozen(cfg: Config, states: seq<State>, steps: seq<Step>, j: nat, t: string)
    requires IsRun(cfg, states, steps) && j < |steps| && Doomed(cfg, states[j], t) && Frozen(states[j], t)
    ensures Frozen(states[j + 1], t) && states[j + 1].pods.Keys == states[j].pods.Keys
  {
    RunsAreSafe(cfg, states, steps, j);
    FrozenStays(cfg, states[j], steps[j], t);
  }

  lemma {:induction false} FrozenForGood(cfg: Config, states: seq<State>, steps: seq<Step>, i: nat, j: nat, t: string)
    requires IsRun(cfg, states, steps) && i <= j < |states|
    requires Doomed(cfg, states[i], t) && Frozen(states[i], t)
    ensures Frozen(states[j], t) && states[j].pods.Keys == states[i].pods.Keys
  {
    if i < j {
      FrozenForGood(cfg, states, steps, i, j - 1, t);
      DoomedForGood(cfg, states, steps, i, j - 1, t);
      RunStepFrozen(cfg, states, steps, j - 1, t);
    }
  }

  /** Once a persisted-Running task's pod has failed, the workflow can never become Completed, and no
      Reconcile that starts afterwards creates a pod, however often its status writes fail. */
  lemma FailureFreezes(cfg: Config, states: seq<State>, steps: seq<Step>, failed: nat, start: nat, later: nat,
                       t: string)
    requires IsRun(cfg, states, steps) && failed <= start <= later < |states|
    requires Doomed(cfg, states[failed], t)
    ensures states[later].status.phase != Completed
    ensures states[start].activity == Idle ==> states[later].pods.Keys == states[start].pods.Keys
  {
    DoomedForGood(cfg, states, steps, failed, later, t);
    RunsAreSafe(cfg, states, steps, later);
    if states[start].activity == Idle {
      DoomedForGood(cfg, states, steps, failed, start, t);
      FrozenForGood(cfg, states, steps, start, later, t);
    }
  }
}
