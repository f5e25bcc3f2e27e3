/** The in-process Go planner. */
module GreedyPlanner {
  import opened Loads
  import opened Quantities
  import opened Packing
  import opened Workflow

  predicate Satisfied(dependency: string, statuses: Statuses) {
    dependency in statuses && statuses[dependency].phase == Succeeded
  }

  /** A spec entry may start: it has not started, and every dependency has Succeeded. */
  predicate Eligible(task: TaskTemplate, statuses: Statuses) {
    && (task.name in statuses ==> statuses[task.name].phase == Pending)
    && forall k :: 0 <= k < |task.dependencies| ==> Satisfied(task.dependencies[k], statuses)
  }

  const DEFAULT_RESOURCES := Requirements(
    map[Cpu := Millis(100), Memory := Mebis(128)],
    map[Cpu := Millis(200), Memory := Mebis(256)])

  predicate HasHint(task: TaskTemplate) {
    task.baseResources.requests != map[] || task.baseResources.limits != map[]
  }

  /** Prediction first, then the user's hint, then a minimal default. */
  function Resolve(task: TaskTemplate, predictions: Predictions): Requirements {
    if task.name in predictions then predictions[task.name]
    else if HasHint(task) then task.baseResources
    else DEFAULT_RESOURCES
  }

  function CandidateOf(task: TaskTemplate, statuses: Statuses, predictions: Predictions): Candidate {
    if Eligible(task, statuses) then Ready(LoadOf(Resolve(task, predictions).requests)) else Skip
  }

  function Candidates(tasks: seq<TaskTemplate>, statuses: Statuses, predictions: Predictions): seq<Candidate> {
    seq(|tasks|, i requires 0 <= i < |tasks| => CandidateOf(tasks[i], statuses, predictions))
  }

  function OfferOf(task: TaskTemplate, predictions: Predictions): TaskAllocation {
    TaskAllocation(task.name, Resolve(task, predictions))
  }

  /** What each entry would be started with. */
  function Offers(tasks: seq<TaskTemplate>, predictions: Predictions): seq<TaskAllocation> {
    seq(|tasks|, i requires 0 <= i < |tasks| => OfferOf(tasks[i], predictions))
  }

  ghost function Taken(spec: Spec, statuses: Statuses, predictions: Predictions): seq<bool> {
    Greedy(Candidates(spec.tasks, statuses, predictions), Usage(statuses, CPU), Usage(statuses, MEM), Cap(spec))
  }

  ghost function Planned(spec: Spec, statuses: Statuses, predictions: Predictions): seq<TaskAllocation> {
    Pick(Offers(spec.tasks, predictions), Taken(spec, statuses, predictions))
  }

  method DependenciesSucceeded(task: TaskTemplate, statuses: Statuses) returns (ready: bool)
    ensures ready <==> forall k :: 0 <= k < |task.dependencies| ==>
              task.dependencies[k] in statuses && statuses[task.dependencies[k]].phase == Succeeded
  {
    for k := 0 to |task.dependencies|
      invariant forall j :: 0 <= j < k ==> Satisfied(task.dependencies[j], statuses)
    {
      var dep := task.dependencies[k];
      if dep !in statuses || statuses[dep].phase != Succeeded {
        assert !Satisfied(task.dependencies[k], statuses);
        return false;
      }
    }
    return true;
  }

  /** One turn of the planning loop: whether the entry is started on top of the current usage. */
  method Admit(task: TaskTemplate, statuses: Statuses, predictions: Predictions, cpu: nat, mem: nat, max: Load)
    returns (admitted: bool, resources: Requirements)
    ensures admitted <==> Eligible(task, statuses)
                          && Fits(cpu + Get(resources.requests, Cpu), mem + Get(resources.requests, Memory), max)
    ensures Eligible(task, statuses) <==>
            && (task.name !in statuses || statuses[task.name].phase == Pending)
            && forall k :: 0 <= k < |task.dependencies| ==>
                 task.dependencies[k] in statuses && statuses[task.dependencies[k]].phase == Succeeded
    ensures resources == Resolve(task, predictions)
  {
    resources := Resolve(task, predictions);
    if task.name in statuses && statuses[task.name].phase != Pending {
      return false, resources;
    }
    var ready := DependenciesSucceeded(task, statuses);
    if !ready {
      return false, resources;
    }
    var newCpu, newMem := cpu + Get(resources.requests, Cpu), mem + Get(resources.requests, Memory);
    if max.cpu != 0 && newCpu > max.cpu {
      return false, resources;
    }
    if max.mem != 0 && newMem > max.mem {
      return false, resources;
    }
    return true, resources;
  }

  method Plan(spec: Spec, statuses: Statuses, predictions: Predictions) returns (plan: seq<TaskAllocation>)
    ensures plan == Planned(spec, statuses, predictions)
  {
    var cpu, mem := AddUpRunning(statuses);
    plan := ScanTasks(spec, statuses, predictions, cpu, mem);
  }

  /** What the loop still adds to the plan from entry i onwards. */
  ghost function Rest(spec: Spec, statuses: Statuses, predictions: Predictions, i: nat, cpu: nat,
                      mem: nat): seq<TaskAllocation>
    requires i <= |spec.tasks|
  {
    Scan(Offers(spec.tasks, predictions)[i..], Candidates(spec.tasks, statuses, predictions)[i..], cpu, mem, Cap(spec))
  }

  lemma RestNext(spec: Spec, statuses: Statuses, predictions: Predictions, i: nat, cpu: nat, mem: nat)
    requires i < |spec.tasks|
    ensures var load := LoadOf(Resolve(spec.tasks[i], predictions).requests);
            Rest(spec, statuses, predictions, i, cpu, mem) ==
            if Eligible(spec.tasks[i], statuses) && Fits(cpu + load.cpu, mem + load.mem, Cap(spec)) then
              [OfferOf(spec.tasks[i], predictions)]
              + Rest(spec, statuses, predictions, i + 1, cpu + load.cpu, mem + load.mem)
            else Rest(spec, statuses, predictions, i + 1, cpu, mem)
  {
    ScanNext(Offers(spec.tasks, predictions), Candidates(spec.tasks, statuses, predictions), i, cpu, mem, Cap(spec));
  }

  lemma RestTake(spec: Spec, statuses: Statuses, predictions: Predictions, i: nat, cpu: nat, mem: nat,
                 resources: Requirements)
    requires i < |spec.tasks| && Eligible(spec.tasks[i], statuses) && resources == Resolve(spec.tasks[i], predictions)
    requires Fits(cpu + Get(resources.requests, Cpu), mem + Get(resources.requests, Memory), Cap(spec))
    ensures Rest(spec, statuses, predictions, i, cpu, mem) ==
            [TaskAllocation(spec.tasks[i].name, resources)]
            + Rest(spec, statuses, predictions, i + 1,
                   cpu + Get(resources.requests, Cpu), mem + Get(resources.requests, Memory))
  {
    RestNext(spec, statuses, predictions, i, cpu, mem);
  }

  method ScanTasks(spec: Spec, statuses: Statuses, predictions: Predictions, currentCpu: nat, currentMem: nat)
    returns (plan: seq<TaskAllocation>)
    ensures plan == Scan(Offers(spec.tasks, predictions), Candidates(spec.tasks, statuses, predictions),
                         currentCpu, currentMem, Cap(spec))
  {
    plan := [];
    var cpu: nat, mem: nat := currentCpu, currentMem;
    var max := Cap(spec);
    ghost var whole := Rest(spec, statuses, predictions, 0, cpu, mem);
    for i := 0 to |spec.tasks|
      invariant plan + Rest(spec, statuses, predictions, i, cpu, mem) == whole
    {
      var admitted, resources := Admit(spec.tasks[i], statuses, predictions, cpu, mem, max);
      if admitted {
        ghost var done := plan;
        RestTake(spec, statuses, predictions, i, cpu, mem, resources);
        plan := plan + [TaskAllocation(spec.tasks[i].name, resources)];
        cpu, mem := cpu + Get(resources.requests, Cpu), mem + Get(resources.requests, Memory);
        Append(done, TaskAllocation(spec.tasks[i].name, resources), Rest(spec, statuses, predictions, i + 1, cpu, mem));
      } else {
        RestNext(spec, statuses, predictions, i, cpu, mem);
      }
    }
    WholeScan(spec, statuses, predictions, currentCpu, currentMem);
    WholeScan(spec, statuses, predictions, cpu, mem);
  }

  lemma WholeScan(spec: Spec, statuses: Statuses, predictions: Predictions, cpu: nat, mem: nat)
    ensures Rest(spec, statuses, predictions, 0, cpu, mem) ==
            Scan(Offers(spec.tasks, predictions), Candidates(spec.tasks, statuses, predictions), cpu, mem, Cap(spec))
    ensures Rest(spec, statuses, predictions, |spec.tasks|, cpu, mem) == []
  {
    var offers, items := Offers(spec.tasks, predictions), Candidates(spec.tasks, statuses, predictions);
    assert offers[0..] == offers && items[0..] == items;
  }

  // ---- What a plan contains ----

  /** Every allocation belongs to an eligible spec entry and carries that entry's resolved resources. */
  lemma PlannedIsEligible(spec: Spec, statuses: Statuses, predictions: Predictions, a: TaskAllocation)
    requires a in Planned(spec, statuses, predictions)
    ensures exists i :: 0 <= i < |spec.tasks| && Eligible(spec.tasks[i], statuses)
                        && a == OfferOf(spec.tasks[i], predictions)
  {
    var offers, taken := Offers(spec.tasks, predictions), Taken(spec, statuses, predictions);
    PickSound(offers, taken, a);
    var i :| 0 <= i < |offers| && taken[i] && offers[i] == a;
    assert Candidates(spec.tasks, statuses, predictions)[i].Ready?;
  }

  /** The combination of running and newly planned tasks stays within MaxResources. */
  lemma PlannedWithinBudget(spec: Spec, statuses: Statuses, predictions: Predictions)
    requires UsageFits(statuses, Cap(spec))
    ensures BudgetKept(statuses, Planned(spec, statuses, predictions), Cap(spec))
  {
    ScanKeepsCap(Offers(spec.tasks, predictions), Candidates(spec.tasks, statuses, predictions),
                 Usage(statuses, CPU), Usage(statuses, MEM), Cap(spec));
  }

  lemma PlannedIsDistinct(spec: Spec, statuses: Statuses, predictions: Predictions)
    requires UniqueNames(spec)
    ensures DistinctTasks(Planned(spec, statuses, predictions))
  {
    PickDistinct(Offers(spec.tasks, predictions), Taken(spec, statuses, predictions));
  }

  /** Starting tasks makes no entry eligible that was not eligible before. */
  lemma StillEligible(before: Statuses, after: Statuses, task: TaskTemplate)
    requires before.Keys == after.Keys
    requires forall t :: t in after && after[t].phase != Running ==> after[t] == before[t]
    requires task.name in after && Eligible(task, after)
    ensures Eligible(task, before)
  {
    forall k | 0 <= k < |task.dependencies|
      ensures Satisfied(task.dependencies[k], before)
    {
      assert Satisfied(task.dependencies[k], after);
    }
  }
}
