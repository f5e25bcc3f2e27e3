/** How often a success is recorded, over whole runs. */
module RunRecords {
  import opened Workflow
  import opened Machine
  import opened SafetyProof

  function SucceededIn(tasks: Statuses): set<string> {
    set t | t in tasks && tasks[t].phase == Succeeded
  }

  lemma SyncRecords(tasks: Statuses, p: Pod)
    ensures multiset(SucceededIn(SyncTask(tasks, p))) == multiset(SucceededIn(tasks)) + multiset(Recorded(tasks, p))
    ensures SucceededIn(SyncTask(tasks, p)) == SucceededIn(tasks) + set t | t in Recorded(tasks, p)
  {
    if Recorded(tasks, p) != [] {
      assert SucceededIn(SyncTask(tasks, p)) == SucceededIn(tasks) + {p.task};
      assert p.task !in SucceededIn(tasks);
    } else {
      assert SucceededIn(SyncTask(tasks, p)) == SucceededIn(tasks);
    }
  }

  lemma LaunchRecordsNothing(workflow: string, tasks: Statuses, a: TaskAllocation)
    requires a.task in tasks && tasks[a.task].phase in {Pending, Running}
    ensures SucceededIn(Launch(workflow, tasks, a)) == SucceededIn(tasks)
  {
  }

  // ---- Every record is accounted for ----

  /** The successes a Reconcile has folded in, and recorded, but not persisted. */
  function Unpersisted(s: State): set<string> {
    SucceededIn(View(s)) - SucceededIn(s.status.tasks)
  }

  ghost function NewRepeats(s: State, step: Step): multiset<string> {
    if step == Abort then multiset(Unpersisted(s)) else multiset{}
  }

  /** The records that will be made again, because the Reconcile that made them was cut short. */
  ghost function Repeats(states: seq<State>, steps: seq<Step>, i: nat): multiset<string>
    requires i <= |steps| < |states|
  {
    if i == 0 then multiset{}
    else Repeats(states, steps, i - 1) + NewRepeats(states[i - 1], steps[i - 1])
  }

  ghost predicate Accounted(s: State, repeats: multiset<string>) {
    multiset(s.executions) == multiset(SucceededIn(View(s))) + repeats
  }

  lemma SyncAccounted(s: State, repeats: multiset<string>)
    requires Accounted(s, repeats) && s.activity.Syncing? && s.activity.todo != []
    ensures Accounted(SyncFirst(s), repeats)
  {
    SyncRecords(s.activity.tasks, s.activity.todo[0]);
  }

  lemma SpawnAccounted(cfg: Config, s: State, outcome: CreateOutcome, repeats: multiset<string>)
    requires Accounted(s, repeats) && PlanReady(cfg, s) && Enabled(cfg, s, Spawn(outcome))
    ensures Accounted(SpawnFirst(cfg, s, outcome), repeats)
  {
    assert s.activity.plan[0] in s.activity.plan;
    LaunchRecordsNothing(cfg.workflow, s.activity.tasks, s.activity.plan[0]);
  }

  /** What is persisted as Succeeded is also Succeeded in the working copy. */
  lemma PersistedIsSeen(cfg: Config, s: State)
    requires Shape(cfg, s) && Ahead(s)
    ensures SucceededIn(s.status.tasks) <= SucceededIn(View(s))
  {
    forall t | t in SucceededIn(s.status.tasks)
      ensures t in SucceededIn(View(s))
    {
      assert t in View(s);
    }
  }

  lemma AbortAccounted(cfg: Config, s: State, repeats: multiset<string>)
    requires Accounted(s, repeats) && Shape(cfg, s) && Ahead(s)
    ensures Accounted(s.(activity := Idle), repeats + multiset(Unpersisted(s)))
  {
    PersistedIsSeen(cfg, s);
    var seen, persisted := SucceededIn(View(s)), SucceededIn(s.status.tasks);
    assert multiset(seen) == multiset(persisted) + multiset(seen - persisted);
  }

  lemma InitialiseAccounted(cfg: Config, s: State, repeats: multiset<string>)
    requires Accounted(s, repeats) && s.activity == Idle && s.status.tasks == map[]
    ensures Accounted(s.(status := Status(WorkflowPending, FreshStatuses(cfg.spec), s.status.usage)), repeats)
  {
    assert SucceededIn(FreshStatuses(cfg.spec)) == SucceededIn(s.status.tasks);
  }

  lemma JudgeKeepsView(cfg: Config, s: State, predictions: Predictions)
    requires s.activity.Syncing?
    ensures View(JudgeTasks(cfg, s, predictions)) == View(s)
    ensures JudgeTasks(cfg, s, predictions).pods == s.pods && JudgeTasks(cfg, s, predictions).executions == s.executions
  {
  }

  lemma StepAccounted(cfg: Config, s: State, step: Step, repeats: multiset<string>)
    requires Safe(cfg, s) && Accounted(s, repeats) && Enabled(cfg, s, step)
    ensures Accounted(Do(cfg, s, step), repeats + NewRepeats(s, step))
  {
    match step
    case Initialise => InitialiseAccounted(cfg, s, repeats);
    case Begin(_) =>
    case SyncOne => SyncAccounted(s, repeats);
    case Judge(predictions) => JudgeKeepsView(cfg, s, predictions);
    case Spawn(outcome) => SpawnAccounted(cfg, s, outcome, repeats);
    case Finish =>
    case Abort => AbortAccounted(cfg, s, repeats);
    case PodMoves(_, _) =>
  }

  /** In every run the execution records are, as a multiset, the Succeeded tasks plus, for each Reconcile
      that was cut short, the successes it had folded in and could not persist. */
  lemma {:induction false} RecordsAreAccounted(cfg: Config, states: seq<State>, steps: seq<Step>, i: nat)
    requires IsRun(cfg, states, steps) && i < |states|
    ensures Accounted(states[i], Repeats(states, steps, i))
  {
    if i > 0 {
      RecordsAreAccounted(cfg, states, steps, i - 1);
      RunsAreSafe(cfg, states, steps, i - 1);
      StepAccounted(cfg, states[i - 1], steps[i - 1], Repeats(states, steps, i - 1));
    }
  }

  // ---- At least once, and exactly once ----

  /** In every run, each task that is Succeeded, persisted or in memory, has been recorded at least once. */
  lemma RecordedAtLeastOnce(cfg: Config, states: seq<State>, steps: seq<Step>, i: nat)
    requires IsRun(cfg, states, steps) && i < |states|
    ensures forall t :: t in SucceededIn(states[i].status.tasks) + SucceededIn(View(states[i])) ==>
              t in states[i].executions
  {
    RecordsAreAccounted(cfg, states, steps, i);
    RunsAreSafe(cfg, states, steps, i);
    PersistedIsSeen(cfg, states[i]);
    forall t | t in SucceededIn(View(states[i]))
      ensures t in states[i].executions
    {
      assert t in multiset(SucceededIn(View(states[i])));
      assert t in multiset(states[i].executions);
    }
  }

  /** The records are a permutation of the Succeeded tasks: each exactly once, and nothing else. */
  ghost predicate LoggedOnce(s: State) {
    multiset(s.executions) == multiset(SucceededIn(View(s)))
  }

  /** This step cuts a Reconcile short that has folded in a success and not persisted it. */
  predicate ForgetsSuccess(s: State, step: Step) {
    step == Abort && SucceededIn(View(s)) != SucceededIn(s.status.tasks)
  }

  ghost predicate ForgetsNothing(states: seq<State>, steps: seq<Step>, i: nat)
    requires i <= |steps| < |states|
  {
    forall j :: 0 <= j < i ==> !ForgetsSuccess(states[j], steps[j])
  }

  lemma {:induction false} NoRepeatsIff(cfg: Config, states: seq<State>, steps: seq<Step>, i: nat)
    requires IsRun(cfg, states, steps) && i < |states|
    ensures Repeats(states, steps, i) == multiset{} <==> ForgetsNothing(states, steps, i)
  {
    if i > 0 {
      NoRepeatsIff(cfg, states, steps, i - 1);
      RunsAreSafe(cfg, states, steps, i - 1);
      NoNewRepeatsIff(cfg, states[i - 1], steps[i - 1]);
      NothingAdded(Repeats(states, steps, i - 1), NewRepeats(states[i - 1], steps[i - 1]));
    }
  }

  lemma NoNewRepeatsIff(cfg: Config, s: State, step: Step)
    requires Shape(cfg, s) && Ahead(s)
    ensures NewRepeats(s, step) == multiset{} <==> !ForgetsSuccess(s, step)
  {
    PersistedIsSeen(cfg, s);
    SameOrMore(SucceededIn(s.status.tasks), SucceededIn(View(s)));
  }

  lemma SameOrMore(a: set<string>, b: set<string>)
    requires a <= b
    ensures multiset(b - a) == multiset{} <==> a == b
  {
    if t :| t in b && t !in a {
      assert t in multiset(b - a);
    }
  }

  lemma NothingAdded(a: multiset<string>, b: multiset<string>)
    ensures a + b == multiset{} <==> a == multiset{} && b == multiset{}
  {
    if t :| t in a {
      assert (a + b)[t] > 0;
    } else if t :| t in b {
      assert (a + b)[t] > 0;
    }
  }

  /** At any moment of any run the records are a permutation of the Succeeded tasks exactly when no
      Reconcile so far was cut short between folding in a success and persisting it. */
  lemma RecordedExactlyOnceIff(cfg: Config, states: seq<State>, steps: seq<Step>, i: nat)
    requires IsRun(cfg, states, steps) && i < |states|
    ensures LoggedOnce(states[i]) <==> ForgetsNothing(states, steps, i)
  {
    RecordsAreAccounted(cfg, states, steps, i);
    NoRepeatsIff(cfg, states, steps, i);
    SameRecords(multiset(SucceededIn(View(states[i]))), Repeats(states, steps, i));
  }

  lemma SameRecords(a: multiset<string>, b: multiset<string>)
    ensures a + b == a <==> b == multiset{}
  {
    if t :| t in b {
      assert (a + b)[t] > a[t];
    }
  }
}
