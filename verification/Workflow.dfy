/** The AdaptiveWorkflow API types and the resource usage of a status map. */
module Workflow {
  import opened Loads
  import opened Quantities
  import opened Packing

  datatype TaskTemplate = TaskTemplate(name: string, dependencies: seq<string>, baseResources: Requirements)

  datatype Spec = Spec(tasks: seq<TaskTemplate>, maxResources: ResourceList)

  datatype TaskPhase = Pending | Running | Succeeded | Failed

  datatype TaskStatus = TaskStatus(phase: TaskPhase, podName: string, resources: Requirements)

  type Statuses = map<string, TaskStatus>

  /** Estimated resources per task name; the estimated duration plays no part in planning. */
  type Predictions = map<string, Requirements>

  datatype TaskAllocation = TaskAllocation(task: string, resources: Requirements)

  const NOTHING := Requirements(map[], map[])

  function Names(spec: Spec): set<string> {
    set i | 0 <= i < |spec.tasks| :: spec.tasks[i].name
  }

  ghost predicate UniqueNames(spec: Spec) {
    forall i, j :: 0 <= i < j < |spec.tasks| ==> spec.tasks[i].name != spec.tasks[j].name
  }

  function Cap(spec: Spec): Load {
    LoadOf(spec.maxResources)
  }

  /** What one task contributes to the current usage: its requests while it is Running. */
  function Share(ts: TaskStatus, d: Dim): nat {
    if ts.phase == Running then Amount(ts.resources.requests, d) else 0
  }

  function Shares(statuses: Statuses, d: Dim): map<string, nat> {
    map t | t in statuses :: Share(statuses[t], d)
  }

  /** The summed requests of all Running tasks, in one dimension. */
  ghost function Usage(statuses: Statuses, d: Dim): nat {
    Sum(Shares(statuses, d))
  }

  lemma UsageRemove(statuses: Statuses, t: string, d: Dim)
    requires t in statuses
    ensures Usage(statuses, d) == Share(statuses[t], d) + Usage(statuses - {t}, d)
  {
    var shares := Shares(statuses, d);
    assert Shares(statuses - {t}, d) == shares - {t};
    SumRemove(shares, t);
  }

  lemma UsageUpdate(statuses: Statuses, t: string, ts: TaskStatus, d: Dim)
    requires t in statuses
    ensures Usage(statuses[t := ts], d) + Share(statuses[t], d) == Usage(statuses, d) + Share(ts, d)
  {
    var shares := Shares(statuses, d);
    assert Shares(statuses[t := ts], d) == shares[t := Share(ts, d)];
    SumUpdate(shares, t, Share(ts, d));
  }

  /** The two loops that add up usage (in the planner and in the controller) visit the status map in
      Go's unspecified map order; whatever that order, the result is the sum. */
  method AddUpRunning(statuses: Statuses) returns (cpu: nat, mem: nat)
    ensures cpu == Usage(statuses, CPU) && mem == Usage(statuses, MEM)
  {
    cpu, mem := 0, 0;
    var rest := statuses;
    while rest != map[]
      invariant cpu + Usage(rest, CPU) == Usage(statuses, CPU)
      invariant mem + Usage(rest, MEM) == Usage(statuses, MEM)
      decreases rest.Keys
    {
      assert rest.Keys != {};
      var t :| t in rest.Keys;
      UsageRemove(rest, t, CPU);
      UsageRemove(rest, t, MEM);
      var ts := rest[t];
      if ts.phase == Running {
        if Cpu in ts.resources.requests {
          cpu := cpu + ts.resources.requests[Cpu];
        }
        if Memory in ts.resources.requests {
          mem := mem + ts.resources.requests[Memory];
        }
      }
      rest := rest - {t};
    }
  }

  ghost predicate UsageFits(statuses: Statuses, cap: Load) {
    Fits(Usage(statuses, CPU), Usage(statuses, MEM), cap)
  }

  /** The summed requests of a whole plan, in one dimension. */
  function PlanAmount(plan: seq<TaskAllocation>, d: Dim): nat {
    if plan == [] then 0 else Amount(plan[0].resources.requests, d) + PlanAmount(plan[1..], d)
  }

  /** What runs now and what the plan adds fit the cap together. */
  ghost predicate BudgetKept(statuses: Statuses, plan: seq<TaskAllocation>, cap: Load) {
    Fits(Usage(statuses, CPU) + PlanAmount(plan, CPU), Usage(statuses, MEM) + PlanAmount(plan, MEM), cap)
  }

  lemma {:induction false} PlanAmountOfPick(offers: seq<TaskAllocation>, items: seq<Candidate>, taken: seq<bool>,
                                            d: Dim)
    requires |offers| == |items| == |taken|
    requires forall i :: 0 <= i < |items| && taken[i] ==> items[i] == Ready(LoadOf(offers[i].resources.requests))
    ensures PlanAmount(Pick(offers, taken), d) == Total(items, taken, d)
  {
    if offers != [] {
      var rest := Pick(offers[1..], taken[1..]);
      PlanAmountOfPick(offers[1..], items[1..], taken[1..], d);
      if taken[0] {
        assert Pick(offers, taken) == [offers[0]] + rest;
        assert ([offers[0]] + rest)[1..] == rest;
      } else {
        assert Pick(offers, taken) == rest;
      }
    }
  }

  /** One more task with this load would still fit on top of what runs and what is planned. */
  ghost predicate RoomFor(statuses: Statuses, plan: seq<TaskAllocation>, load: Load, cap: Load) {
    Fits(Usage(statuses, CPU) + PlanAmount(plan, CPU) + load.cpu,
         Usage(statuses, MEM) + PlanAmount(plan, MEM) + load.mem, cap)
  }

  /** The load of a ready candidate is what its offer requests. */
  ghost predicate Matches(offers: seq<TaskAllocation>, items: seq<Candidate>) {
    && |offers| == |items|
    && forall i :: 0 <= i < |items| && items[i].Ready? ==> items[i] == Ready(LoadOf(offers[i].resources.requests))
  }

  /** A scan that starts within the cap ends within it. */
  lemma ScanKeepsCap(offers: seq<TaskAllocation>, items: seq<Candidate>, cpu: nat, mem: nat, cap: Load)
    requires Matches(offers, items) && Fits(cpu, mem, cap)
    ensures var plan := Pick(offers, Greedy(items, cpu, mem, cap));
            Fits(cpu + PlanAmount(plan, CPU), mem + PlanAmount(plan, MEM), cap)
  {
    PlanAmountOfPick(offers, items, Greedy(items, cpu, mem, cap), CPU);
    PlanAmountOfPick(offers, items, Greedy(items, cpu, mem, cap), MEM);
    GreedyFeasible(items, cpu, mem, cap);
  }

  // ---- Starting tasks ----

  /** strings.ToLower on the ASCII letters. */
  function LowerChar(c: char): char {
    if 'A' <= c <= 'Z' then ((c as int) + 32) as char else c
  }

  function Lower(s: string): string {
    seq(|s|, i requires 0 <= i < |s| => LowerChar(s[i]))
  }

  function PodName(workflow: string, task: string): string {
    Lower(workflow + "-" + task)
  }

  predicate IsUpper(c: char) {
    'A' <= c <= 'Z'
  }

  /** r is s with its upper-case letters, and nothing else, replaced: 'A' by 'a' and so on. */
  ghost predicate IsLowered(s: string, r: string) {
    && |r| == |s|
    && forall k :: 0 <= k < |s| ==> r[k] as int == s[k] as int + if IsUpper(s[k]) then 32 else 0
  }

  lemma LowerIsLowered(s: string)
    ensures IsLowered(s, Lower(s)) && forall k :: 0 <= k < |s| ==> !IsUpper(Lower(s)[k])
  {
  }

  /** The name of a task's pod: the two names in lower case, with a hyphen in between. */
  ghost predicate IsPodName(workflow: string, task: string, name: string) {
    && |name| == |workflow| + 1 + |task|
    && IsLowered(workflow, name[..|workflow|])
    && name[|workflow|] == '-'
    && IsLowered(task, name[|workflow| + 1..])
    && forall k :: 0 <= k < |name| ==> !IsUpper(name[k])
  }

  lemma PodNameShape(workflow: string, task: string)
    ensures IsPodName(workflow, task, PodName(workflow, task))
  {
    LowerIsLowered(workflow + "-" + task);
  }

  ghost predicate LowerUnique(spec: Spec) {
    forall i, j :: 0 <= i < j < |spec.tasks| ==> Lower(spec.tasks[i].name) != Lower(spec.tasks[j].name)
  }

  /** Two tasks of a workflow share a pod name exactly when their names agree up to case. */
  lemma PodNameClash(workflow: string, a: string, b: string)
    ensures PodName(workflow, a) == PodName(workflow, b) <==> Lower(a) == Lower(b)
  {
    var pa, pb := PodName(workflow, a), PodName(workflow, b);
    var n := |workflow| + 1;
    assert pa[n..] == Lower(a) && pb[n..] == Lower(b);
    assert pa == pa[..n] + Lower(a) && pb == pb[..n] + Lower(b);
    assert pa[..n] == pb[..n];
  }

  /** The status entry written once a task's pod has been created. */
  function Launch(workflow: string, statuses: Statuses, a: TaskAllocation): Statuses {
    statuses[a.task := TaskStatus(Running, PodName(workflow, a.task), a.resources)]
  }

  function LaunchAll(workflow: string, statuses: Statuses, plan: seq<TaskAllocation>): Statuses
    decreases |plan|
  {
    if plan == [] then statuses else LaunchAll(workflow, Launch(workflow, statuses, plan[0]), plan[1..])
  }

  lemma LaunchUsage(workflow: string, statuses: Statuses, a: TaskAllocation, d: Dim)
    requires a.task in statuses
    ensures Usage(Launch(workflow, statuses, a), d) + Share(statuses[a.task], d)
            == Usage(statuses, d) + Amount(a.resources.requests, d)
  {
    UsageUpdate(statuses, a.task, TaskStatus(Running, PodName(workflow, a.task), a.resources), d);
  }

  ghost predicate DistinctTasks(plan: seq<TaskAllocation>) {
    forall i, j :: 0 <= i < j < |plan| ==> plan[i].task != plan[j].task
  }

  lemma {:induction false} PickDistinct(offers: seq<TaskAllocation>, taken: seq<bool>)
    requires |taken| == |offers| && DistinctTasks(offers)
    ensures DistinctTasks(Pick(offers, taken))
  {
    if offers != [] {
      PickDistinct(offers[1..], taken[1..]);
      var rest := Pick(offers[1..], taken[1..]);
      forall a | a in rest
        ensures a.task != offers[0].task
      {
        PickSound(offers[1..], taken[1..], a);
      }
    }
  }

  /** Launching a plan touches exactly the planned tasks. */
  lemma {:induction false} LaunchAllEffect(workflow: string, statuses: Statuses, plan: seq<TaskAllocation>)
    requires forall a :: a in plan ==> a.task in statuses
    ensures LaunchAll(workflow, statuses, plan).Keys == statuses.Keys
    ensures forall t :: t in statuses && (forall a :: a in plan ==> a.task != t) ==>
              LaunchAll(workflow, statuses, plan)[t] == statuses[t]
    ensures DistinctTasks(plan) ==> forall a :: a in plan ==>
              LaunchAll(workflow, statuses, plan)[a.task] == TaskStatus(Running, PodName(workflow, a.task), a.resources)
  {
    if plan != [] {
      var next := Launch(workflow, statuses, plan[0]);
      LaunchAllEffect(workflow, next, plan[1..]);
      assert forall a :: a in plan ==> a == plan[0] || a in plan[1..];
    }
  }

  /** Starting a plan of distinct tasks, none of them Running, adds exactly the plan's requests. */
  lemma {:induction false} LaunchAllUsage(workflow: string, statuses: Statuses, plan: seq<TaskAllocation>, d: Dim)
    requires forall a :: a in plan ==> a.task in statuses && statuses[a.task].phase != Running
    requires DistinctTasks(plan)
    ensures Usage(LaunchAll(workflow, statuses, plan), d) == Usage(statuses, d) + PlanAmount(plan, d)
  {
    if plan != [] {
      LaunchUsage(workflow, statuses, plan[0], d);
      forall a | a in plan[1..]
        ensures a.task != plan[0].task
      {
        var i :| 0 <= i < |plan| - 1 && plan[1..][i] == a;
        assert plan[i + 1] == a;
      }
      LaunchAllUsage(workflow, Launch(workflow, statuses, plan[0]), plan[1..], d);
    }
  }
}
