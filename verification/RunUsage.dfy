/** The usage a workflow reports in its status, over whole runs. */
module RunUsage {
  import opened Loads
  import opened Quantities
  import opened Workflow
  import opened Machine
  import opened SafetyProof
  import opened RunSafety
  import opened RunBudget

  /** Outside failed workflows the persisted usage is the usage of the persisted tasks. */
  ghost predicate Reported(s: State) {
    s.status.phase != WorkflowFailed ==> s.status.usage == UsageOf(s.status.tasks)
  }

  lemma InitialiseReported(cfg: Config, s: State)
    requires Reported(s) && s.status.tasks == map[] && !TerminalWorkflow(s.status.phase)
    ensures Reported(s.(status := Status(WorkflowPending, FreshStatuses(cfg.spec), s.status.usage)))
  {
    NoUsage(s.status.tasks, CPU);
    NoUsage(s.status.tasks, MEM);
    NoUsage(FreshStatuses(cfg.spec), CPU);
    NoUsage(FreshStatuses(cfg.spec), MEM);
  }

  lemma JudgeReported(cfg: Config, s: State, predictions: Predictions)
    requires Reported(s) && s.activity.Syncing?
    ensures Reported(JudgeTasks(cfg, s, predictions))
  {
    if AllSucceeded(s.activity.tasks) {
      NoUsage(s.activity.tasks, CPU);
      NoUsage(s.activity.tasks, MEM);
    }
  }

  lemma StepReported(cfg: Config, s: State, step: Step)
    requires Shape(cfg, s) && Reported(s) && Enabled(cfg, s, step)
    ensures Reported(Do(cfg, s, step))
  {
    match step
    case Initialise => InitialiseReported(cfg, s);
    case Begin(_) =>
    case SyncOne =>
    case Judge(predictions) => JudgeReported(cfg, s, predictions);
    case Spawn(_) =>
    case Finish =>
    case Abort =>
    case PodMoves(_, _) =>
  }

  lemma StartReported()
    ensures Reported(START)
  {
    NoUsage(map[], CPU);
    NoUsage(map[], MEM);
  }

  lemma {:induction false} ReportedUsageIsAccurate(cfg: Config, states: seq<State>, steps: seq<Step>, i: nat)
    requires IsRun(cfg, states, steps) && i < |states|
    ensures Reported(states[i])
  {
    if i == 0 {
      StartReported();
    } else {
      ReportedUsageIsAccurate(cfg, states, steps, i - 1);
      RunsAreSafe(cfg, states, steps, i - 1);
      StepReported(cfg, states[i - 1], steps[i - 1]);
    }
  }

  // ---- Failed workflows ----

  function FreedShare(before: TaskStatus, after: TaskStatus, d: Dim): nat {
    if before.phase == Running && after.phase != Running then Amount(before.resources.requests, d) else 0
  }

  /** The summed requests of the tasks that have stopped running between two status maps. */
  ghost function Freed(before: Statuses, after: Statuses, d: Dim): nat {
    Sum(map t | t in before && t in after :: FreedShare(before[t], after[t], d))
  }

  /** Between the two status maps some Running tasks have ended, and nothing else has changed. */
  ghost predicate Folded(before: Statuses, after: Statuses) {
    && after.Keys == before.Keys
    && forall t :: t in after ==>
         || after[t] == before[t]
         || (before[t].phase == Running && after[t].phase in {Succeeded, Failed}
             && after[t].resources == before[t].resources && after[t].podName == before[t].podName)
  }

  /** What has ended no longer counts, and everything else still does. */
  lemma FoldConserves(before: Statuses, after: Statuses, d: Dim)
    requires Folded(before, after)
    ensures Usage(after, d) + Freed(before, after, d) == Usage(before, d)
  {
    SumAdds(Shares(after, d), map t | t in before && t in after :: FreedShare(before[t], after[t], d),
            Shares(before, d));
  }

  ghost predicate FoldsOnly(s: State) {
    s.activity.Syncing? ==> Folded(s.status.tasks, s.activity.tasks)
  }

  lemma SyncOneFolds(s: State)
    requires FoldsOnly(s) && s.activity.Syncing? && s.activity.todo != []
    ensures FoldsOnly(SyncFirst(s))
  {
    var before, tasks := s.status.tasks, s.activity.tasks;
    var after := SyncTask(tasks, s.activity.todo[0]);
    forall t | t in after
      ensures after[t] == before[t]
              || (before[t].phase == Running && after[t].phase in {Succeeded, Failed}
                  && after[t].resources == before[t].resources && after[t].podName == before[t].podName)
    {
      assert t in tasks;
    }
  }

  lemma StepFolds(cfg: Config, s: State, step: Step)
    requires FoldsOnly(s) && Enabled(cfg, s, step)
    ensures FoldsOnly(Do(cfg, s, step))
  {
    match step
    case Initialise =>
    case Begin(_) =>
    case SyncOne => SyncOneFolds(s);
    case Judge(_) =>
    case Spawn(_) =>
    case Finish =>
    case Abort =>
    case PodMoves(_, _) =>
  }

  lemma {:induction false} RunsFold(cfg: Config, states: seq<State>, steps: seq<Step>, i: nat)
    requires IsRun(cfg, states, steps) && i < |states|
    ensures FoldsOnly(states[i])
  {
    if i > 0 {
      RunsFold(cfg, states, steps, i - 1);
      StepFolds(cfg, states[i - 1], steps[i - 1]);
    }
  }

  /** Only judging ends a workflow as failed; the usage is left as it was. */
  lemma FailingStep(cfg: Config, s: State, step: Step)
    requires Enabled(cfg, s, step)
    requires s.status.phase != WorkflowFailed && Do(cfg, s, step).status.phase == WorkflowFailed
    ensures s.activity.Syncing? && Do(cfg, s, step).status == Status(WorkflowFailed, s.activity.tasks, s.status.usage)
  {
  }

  lemma LoadsEqualIff(a: Load, b: Load, cpu: nat, mem: nat)
    requires b.cpu + cpu == a.cpu && b.mem + mem == a.mem
    ensures a == b <==> cpu == 0 && mem == 0
  {
  }

  /** From the moment a workflow fails, for the rest of the run, its reported usage is right exactly when
      the tasks that the failing Reconcile found ended had requested nothing. */
  lemma FailedUsageIff(cfg: Config, states: seq<State>, steps: seq<Step>, i: nat, later: nat)
    requires IsRun(cfg, states, steps) && i < later < |states|
    requires states[i].status.phase != WorkflowFailed && states[i + 1].status.phase == WorkflowFailed
    ensures states[later].status.usage == UsageOf(states[later].status.tasks) <==>
            && Freed(states[i].status.tasks, states[later].status.tasks, CPU) == 0
            && Freed(states[i].status.tasks, states[later].status.tasks, MEM) == 0
  {
    var before, after := states[i].status, states[i + 1].status;
    RunsMoveForward(cfg, states, steps, i + 1, later);
    FailingStep(cfg, states[i], steps[i]);
    RunsFold(cfg, states, steps, i);
    ReportedUsageIsAccurate(cfg, states, steps, i);
    FoldConserves(before.tasks, after.tasks, CPU);
    FoldConserves(before.tasks, after.tasks, MEM);
    LoadsEqualIff(UsageOf(before.tasks), UsageOf(after.tasks),
                  Freed(before.tasks, after.tasks, CPU), Freed(before.tasks, after.tasks, MEM));
  }
}
