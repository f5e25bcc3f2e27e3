/** A workflow run as a state machine. The controller's Reconcile is cut into micro-steps at every point
    where it touches the outside world, so that a crash or a failed API call can fall between any two;
    pods move on their own at any time. */
module Machine {
  import opened Loads
  import opened Quantities
  import opened Workflow
  import opened Planning

  datatype Config = Config(workflow: string, spec: Spec, planner: Planner)

  datatype PodPhase = PodPending | PodRunning | PodSucceeded | PodFailed | PodUnknown

  /** A pod's task is its "task-name" label. */
  datatype Pod = Pod(name: string, task: string, resources: Requirements, phase: PodPhase)

  type Pods = map<string, Pod>

  datatype WorkflowPhase = Unset | WorkflowPending | WorkflowRunning | Completed | WorkflowFailed

  /** The persisted status. An empty task map is indistinguishable from a missing one, because it is
      omitted when written. */
  datatype Status = Status(phase: WorkflowPhase, tasks: Statuses, usage: Load)

  /** What the controller holds in memory between two micro-steps of a Reconcile. */
  datatype Activity =
    | Idle
    | Syncing(tasks: Statuses, todo: seq<Pod>)
    | Spawning(tasks: Statuses, plan: seq<TaskAllocation>)

  datatype State = State(status: Status, pods: Pods, executions: seq<string>, activity: Activity)

  datatype CreateOutcome =
    | Created  // the pod exists and the call reported success
    | Refused  // the call failed and left no pod behind
    | Lost     // the pod exists but the controller does not learn of it

  datatype Step =
    | Initialise
    | Begin(listing: seq<Pod>)
    | SyncOne
    | Judge(predictions: Predictions)
    | Spawn(outcome: CreateOutcome)
    | Finish
    | Abort                                    // crash, failed call, or failed status write
    | PodMoves(name: string, phase: PodPhase)

  // ---- The pieces of a Reconcile ----

  predicate TerminalPod(phase: PodPhase) {
    phase == PodSucceeded || phase == PodFailed
  }

  predicate TerminalWorkflow(phase: WorkflowPhase) {
    phase == Completed || phase == WorkflowFailed
  }

  function FreshStatuses(spec: Spec): Statuses {
    map t | t in Names(spec) :: TaskStatus(Pending, "", NOTHING)
  }

  /** Folding one listed pod into the statuses; only Running tasks with a non-empty label are touched. */
  predicate Syncable(tasks: Statuses, p: Pod) {
    p.task != "" && p.task in tasks && tasks[p.task].phase == Running
  }

  function SyncTask(tasks: Statuses, p: Pod): Statuses {
    if Syncable(tasks, p) && p.phase == PodSucceeded then tasks[p.task := tasks[p.task].(phase := Succeeded)]
    else if Syncable(tasks, p) && p.phase == PodFailed then tasks[p.task := tasks[p.task].(phase := Failed)]
    else tasks
  }

  /** The execution record written while folding in one pod. */
  function Recorded(tasks: Statuses, p: Pod): seq<string> {
    if Syncable(tasks, p) && p.phase == PodSucceeded then [p.task] else []
  }

  predicate AnyFailed(tasks: Statuses) {
    exists t :: t in tasks && tasks[t].phase == Failed
  }

  predicate AllSucceeded(tasks: Statuses) {
    forall t :: t in tasks ==> tasks[t].phase == Succeeded
  }

  /** createTaskPod: an existing pod of that name is left alone, whatever task it belongs to. */
  function CreatePod(workflow: string, pods: Pods, a: TaskAllocation): Pods {
    var name := PodName(workflow, a.task);
    if name in pods then pods else pods[name := Pod(name, a.task, a.resources, PodPending)]
  }

  ghost function UsageOf(tasks: Statuses): Load {
    Load(Usage(tasks, CPU), Usage(tasks, MEM))
  }

  ghost predicate IsListing(pods: Pods, listing: seq<Pod>) {
    && (forall p :: p in listing ==> p.name in pods && pods[p.name] == p)
    && (forall n :: n in pods ==> pods[n] in listing)
  }

  // ---- Steps ----

  const START := State(Status(Unset, map[], Load(0, 0)), map[], [], Idle)

  ghost predicate Enabled(cfg: Config, s: State, step: Step) {
    match step
    case Initialise => s.activity == Idle && s.status.tasks == map[]
    case Begin(listing) =>
      s.activity == Idle && s.status.tasks != map[] && !TerminalWorkflow(s.status.phase) && IsListing(s.pods, listing)
    case SyncOne => s.activity.Syncing? && s.activity.todo != []
    case Judge(_) => s.activity.Syncing? && s.activity.todo == []
    case Spawn(outcome) =>
      s.activity.Spawning? && s.activity.plan != []
      && (s.activity.plan[0].task in Names(cfg.spec) || outcome == Refused)
    case Finish => s.activity.Spawning? && s.activity.plan == []
    case Abort => s.activity != Idle
    case PodMoves(name, _) => name in s.pods && !TerminalPod(s.pods[name].phase)
  }

  ghost function JudgeTasks(cfg: Config, s: State, predictions: Predictions): State
    requires s.activity.Syncing?
  {
    var tasks := s.activity.tasks;
    if AnyFailed(tasks) then
      s.(status := Status(WorkflowFailed, tasks, s.status.usage), activity := Idle)
    else if AllSucceeded(tasks) && tasks != map[] then
      s.(status := Status(Completed, tasks, Load(0, 0)), activity := Idle)
    else
      s.(activity := Spawning(tasks, PlanWith(cfg.planner, cfg.spec, tasks, predictions)))
  }

  function SpawnFirst(cfg: Config, s: State, outcome: CreateOutcome): State
    requires s.activity.Spawning? && s.activity.plan != []
  {
    var a, rest := s.activity.plan[0], s.activity.plan[1..];
    var tasks := s.activity.tasks;
    match outcome
    case Created => s.(pods := CreatePod(cfg.workflow, s.pods, a),
                       activity := Spawning(Launch(cfg.workflow, tasks, a), rest))
    case Refused => s.(activity := Spawning(tasks, rest))
    case Lost => s.(pods := CreatePod(cfg.workflow, s.pods, a), activity := Spawning(tasks, rest))
  }

  function SyncFirst(s: State): State
    requires s.activity.Syncing? && s.activity.todo != []
  {
    var tasks, p := s.activity.tasks, s.activity.todo[0];
    s.(executions := s.executions + Recorded(tasks, p), activity := Syncing(SyncTask(tasks, p), s.activity.todo[1..]))
  }

  ghost function WriteRunning(s: State): State
    requires s.activity.Spawning?
  {
    s.(status := Status(WorkflowRunning, s.activity.tasks, UsageOf(s.activity.tasks)), activity := Idle)
  }

  function MovePod(s: State, name: string, phase: PodPhase): State
    requires name in s.pods
  {
    s.(pods := s.pods[name := s.pods[name].(phase := phase)])
  }

  ghost function Do(cfg: Config, s: State, step: Step): State
    requires Enabled(cfg, s, step)
  {
    match step
    case Initialise => s.(status := Status(WorkflowPending, FreshStatuses(cfg.spec), s.status.usage))
    case Begin(listing) => s.(activity := Syncing(s.status.tasks, listing))
    case SyncOne => SyncFirst(s)
    case Judge(predictions) => JudgeTasks(cfg, s, predictions)
    case Spawn(outcome) => SpawnFirst(cfg, s, outcome)
    case Finish => WriteRunning(s)
    case Abort => s.(activity := Idle)
    case PodMoves(name, phase) => MovePod(s, name, phase)
  }

  /** A finite run from the start: the states it passes through and the steps between them. */
  ghost predicate IsRun(cfg: Config, states: seq<State>, steps: seq<Step>) {
    && |states| == |steps| + 1
    && states[0] == START
    && forall i :: 0 <= i < |steps| ==>
      Enabled(cfg, states[i], steps[i]) && states[i + 1] == Do(cfg, states[i], steps[i])
  }

  // ---- The structural invariant ----

  /** The statuses as the controller currently sees them: its working copy, or what is persisted. */
  function View(s: State): Statuses {
    if s.activity == Idle then s.status.tasks else s.activity.tasks
  }

  predicate PodIs(cfg: Config, pods: Pods, t: string, phase: PodPhase) {
    var n := PodName(cfg.workflow, t);
    n in pods && pods[n].task == t && pods[n].phase == phase
  }

  /** Every dependency of spec entry i has a pod of its own that has Succeeded. */
  ghost predicate DependenciesDone(cfg: Config, pods: Pods, i: nat)
    requires i < |cfg.spec.tasks|
  {
    forall k :: 0 <= k < |cfg.spec.tasks[i].dependencies| ==>
      PodIs(cfg, pods, cfg.spec.tasks[i].dependencies[k], PodSucceeded)
  }

  ghost predicate MayStart(cfg: Config, pods: Pods, t: string) {
    exists i :: 0 <= i < |cfg.spec.tasks| && cfg.spec.tasks[i].name == t && DependenciesDone(cfg, pods, i)
  }

  predicate PhaseLe(a: TaskPhase, b: TaskPhase) {
    a == b || a == Pending || (a == Running && b != Pending)
  }

  ghost predicate Shape(cfg: Config, s: State) {
    && (s.status.tasks == map[] || s.status.tasks.Keys == Names(cfg.spec))
    && (TerminalWorkflow(s.status.phase) ==> s.status.tasks != map[])
    && (s.activity != Idle ==>
          && s.status.tasks != map[]
          && !TerminalWorkflow(s.status.phase)
          && s.activity.tasks.Keys == Names(cfg.spec))
  }

  ghost predicate PodsNamed(cfg: Config, pods: Pods) {
    forall n :: n in pods ==>
      pods[n].name == n && pods[n].task in Names(cfg.spec) && n == PodName(cfg.workflow, pods[n].task)
  }

  /** The pods still to be folded in are real pods; what they had finished as is what they are. */
  ghost predicate Listed(s: State) {
    s.activity.Syncing? ==> forall p :: p in s.activity.todo ==>
      && p.name in s.pods
      && s.pods[p.name].task == p.task
      && (TerminalPod(p.phase) ==> s.pods[p.name].phase == p.phase)
  }

  ghost predicate Backed(cfg: Config, pods: Pods, tasks: Statuses) {
    && (forall t :: t in tasks && tasks[t].phase == Succeeded ==> PodIs(cfg, pods, t, PodSucceeded))
    && (forall t :: t in tasks && tasks[t].phase == Failed ==> PodIs(cfg, pods, t, PodFailed))
  }

  /** The working copy never lags behind the persisted statuses. */
  ghost predicate Ahead(s: State) {
    forall t :: t in s.status.tasks && t in View(s) ==> PhaseLe(s.status.tasks[t].phase, View(s)[t].phase)
  }

  ghost predicate PlanReady(cfg: Config, s: State) {
    s.activity.Spawning? ==> forall a :: a in s.activity.plan ==>
      && a.task in s.activity.tasks
      && s.activity.tasks[a.task].phase in {Pending, Running}
      && MayStart(cfg, s.pods, a.task)
  }

  ghost predicate Ordered(cfg: Config, pods: Pods) {
    forall n :: n in pods ==> MayStart(cfg, pods, pods[n].task)
  }

  ghost predicate EndsJustified(s: State) {
    && (s.status.phase == Completed ==> AllSucceeded(s.status.tasks))
    && (s.status.phase == WorkflowFailed ==> AnyFailed(s.status.tasks))
  }

  ghost predicate Safe(cfg: Config, s: State) {
    && Shape(cfg, s)
    && PodsNamed(cfg, s.pods)
    && Listed(s)
    && Backed(cfg, s.pods, s.status.tasks)
    && Backed(cfg, s.pods, View(s))
    && Ahead(s)
    && PlanReady(cfg, s)
    && Ordered(cfg, s.pods)
    && EndsJustified(s)
  }
}
