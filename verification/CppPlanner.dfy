/** The C++ planner behind the optimizer service, over integer millicores and MiB. */
module CppPlanner {
  import opened Loads
  import opened Packing
  import opened Workflow
  import opened Wire

  type WireStatuses = map<string, WireStatus>

  predicate Satisfied(dependency: string, statuses: WireStatuses) {
    dependency in statuses && statuses[dependency].phase == Succeeded
  }

  predicate Eligible(task: WireTask, statuses: WireStatuses) {
    && (task.name in statuses ==> statuses[task.name].phase == Pending)
    && forall k :: 0 <= k < |task.dependencies| ==> Satisfied(task.dependencies[k], statuses)
  }

  function Double(load: Load): Load {
    Load(2 * load.cpu, 2 * load.mem)
  }

  const DEFAULT_REQUEST := Load(100, 128)

  /** Prediction first, then a hint with a positive component, then a minimal default. */
  function Resolve(task: WireTask, predictions: map<string, Load>): WireAllocation {
    if task.name in predictions then
      WireAllocation(task.name, predictions[task.name], Headroom(predictions[task.name]))
    else if task.base.Some? && (task.base.value.cpu > 0 || task.base.value.mem > 0) then
      WireAllocation(task.name, task.base.value, Double(task.base.value))
    else
      WireAllocation(task.name, DEFAULT_REQUEST, Double(DEFAULT_REQUEST))
  }

  function CandidateOf(task: WireTask, statuses: WireStatuses, predictions: map<string, Load>): Candidate {
    if Eligible(task, statuses) then Ready(Resolve(task, predictions).request) else Skip
  }

  function Candidates(request: PlanRequest): seq<Candidate> {
    seq(|request.tasks|, i requires 0 <= i < |request.tasks| =>
      CandidateOf(request.tasks[i], request.statuses, request.predictions))
  }

  function Offers(request: PlanRequest): seq<WireAllocation> {
    seq(|request.tasks|, i requires 0 <= i < |request.tasks| => Resolve(request.tasks[i], request.predictions))
  }

  function Share(s: WireStatus, d: Dim): nat {
    if s.phase == Running then s.load.At(d) else 0
  }

  function Shares(statuses: WireStatuses, d: Dim): map<string, nat> {
    map t | t in statuses :: Share(statuses[t], d)
  }

  ghost function Usage(statuses: WireStatuses, d: Dim): nat {
    Sum(Shares(statuses, d))
  }

  function Cap(request: PlanRequest): Load {
    if request.max.Some? then request.max.value else Load(0, 0)
  }

  ghost function Taken(request: PlanRequest): seq<bool> {
    Greedy(Candidates(request), Usage(request.statuses, CPU), Usage(request.statuses, MEM), Cap(request))
  }

  ghost function Planned(request: PlanRequest): seq<WireAllocation> {
    Pick(Offers(request), Taken(request))
  }

  method AddUpRunning(statuses: WireStatuses) returns (cpu: nat, mem: nat)
    ensures cpu == Usage(statuses, CPU) && mem == Usage(statuses, MEM)
  {
    cpu, mem := 0, 0;
    var rest := statuses;
    while rest != map[]
      invariant cpu + Usage(rest, CPU) == Usage(statuses, CPU)
      invariant mem + Usage(rest, MEM) == Usage(statuses, MEM)
      decreases rest.Keys
    {
      assert rest.Keys != {};
      var t :| t in rest.Keys;
      UsageRemove(rest, t, CPU);
      UsageRemove(rest, t, MEM);
      if rest[t].phase == Running {
        cpu := cpu + rest[t].load.cpu;
        mem := mem + rest[t].load.mem;
      }
      rest := rest - {t};
    }
  }

  lemma UsageRemove(statuses: WireStatuses, t: string, d: Dim)
    requires t in statuses
    ensures Usage(statuses, d) == Share(statuses[t], d) + Usage(statuses - {t}, d)
  {
    var shares := Shares(statuses, d);
    assert Shares(statuses - {t}, d) == shares - {t};
    SumRemove(shares, t);
  }

  method DependenciesSucceeded(task: WireTask, statuses: WireStatuses) returns (ready: bool)
    ensures ready <==> forall k :: 0 <= k < |task.dependencies| ==>
              task.dependencies[k] in statuses && statuses[task.dependencies[k]].phase == Succeeded
  {
    for k := 0 to |task.dependencies|
      invariant forall j :: 0 <= j < k ==> Satisfied(task.dependencies[j], statuses)
    {
      var dep := task.dependencies[k];
      if dep !in statuses || statuses[dep].phase != Succeeded {
        assert !Satisfied(task.dependencies[k], statuses);
        return false;
      }
    }
    return true;
  }

  method ResolveResources(task: WireTask, predictions: map<string, Load>) returns (alloc: WireAllocation)
    ensures alloc == Resolve(task, predictions)
    ensures alloc.task == task.name
    ensures task.name in predictions ==>
              alloc.request == predictions[task.name] && alloc.limit == Headroom(predictions[task.name])
    ensures task.name !in predictions ==>
              alloc.limit.cpu == 2 * alloc.request.cpu && alloc.limit.mem == 2 * alloc.request.mem
    ensures task.name !in predictions && task.base.Some? && (task.base.value.cpu > 0 || task.base.value.mem > 0) ==>
              alloc.request == task.base.value
    ensures task.name !in predictions && !(task.base.Some? && (task.base.value.cpu > 0 || task.base.value.mem > 0)) ==>
              alloc.request.cpu == 100 && alloc.request.mem == 128
  {
    alloc := WireAllocation(task.name, Load(0, 0), Load(0, 0));
    if task.name in predictions {
      var pred := predictions[task.name];
      alloc := alloc.(request := pred);
      alloc := alloc.(limit := Load(pred.cpu * 3 / 2, pred.mem * 3 / 2));
      return;
    }
    if task.base.Some? && (task.base.value.cpu > 0 || task.base.value.mem > 0) {
      alloc := alloc.(request := task.base.value);
      alloc := alloc.(limit := Load(task.base.value.cpu * 2, task.base.value.mem * 2));
      return;
    }
    alloc := alloc.(request := Load(100, 128));
    alloc := alloc.(limit := Load(200, 256));
  }

  method Plan(request: PlanRequest) returns (response: seq<WireAllocation>)
    ensures response == Planned(request)
  {
    var cpu, mem := AddUpRunning(request.statuses);
    response := ScanTasks(request, cpu, mem);
  }

  /** What the loop still adds to the response from entry i onwards. */
  ghost function Rest(request: PlanRequest, i: nat, cpu: nat, mem: nat): seq<WireAllocation>
    requires i <= |request.tasks|
  {
    Scan(Offers(request)[i..], Candidates(request)[i..], cpu, mem, Cap(request))
  }

  lemma RestNext(request: PlanRequest, i: nat, cpu: nat, mem: nat)
    requires i < |request.tasks|
    ensures var alloc := Resolve(request.tasks[i], request.predictions);
            Rest(request, i, cpu, mem) ==
            if Eligible(request.tasks[i], request.statuses)
               && Fits(cpu + alloc.request.cpu, mem + alloc.request.mem, Cap(request)) then
              [alloc] + Rest(request, i + 1, cpu + alloc.request.cpu, mem + alloc.request.mem)
            else Rest(request, i + 1, cpu, mem)
  {
    ScanNext(Offers(request), Candidates(request), i, cpu, mem, Cap(request));
  }

  lemma RestTake(request: PlanRequest, i: nat, cpu: nat, mem: nat, alloc: WireAllocation)
    requires i < |request.tasks| && Eligible(request.tasks[i], request.statuses)
    requires alloc == Resolve(request.tasks[i], request.predictions)
    requires Fits(cpu + alloc.request.cpu, mem + alloc.request.mem, Cap(request))
    ensures Rest(request, i, cpu, mem) ==
            [alloc] + Rest(request, i + 1, cpu + alloc.request.cpu, mem + alloc.request.mem)
  {
    RestNext(request, i, cpu, mem);
  }

  lemma WholeScan(request: PlanRequest, cpu: nat, mem: nat)
    ensures Rest(request, 0, cpu, mem) == Scan(Offers(request), Candidates(request), cpu, mem, Cap(request))
    ensures Rest(request, |request.tasks|, cpu, mem) == []
  {
    assert Offers(request)[0..] == Offers(request) && Candidates(request)[0..] == Candidates(request);
  }

  method ScanTasks(request: PlanRequest, currentCpu: nat, currentMem: nat) returns (response: seq<WireAllocation>)
    ensures response == Scan(Offers(request), Candidates(request), currentCpu, currentMem, Cap(request))
  {
    response := [];
    var cpu: nat, mem: nat := currentCpu, currentMem;
    ghost var whole := Rest(request, 0, cpu, mem);
    for i := 0 to |request.tasks|
      invariant response + Rest(request, i, cpu, mem) == whole
    {
      var admitted, alloc := Admit(request.tasks[i], request, cpu, mem);
      if admitted {
        ghost var done := response;
        RestTake(request, i, cpu, mem, alloc);
        response := response + [alloc];
        cpu, mem := cpu + alloc.request.cpu, mem + alloc.request.mem;
        Append(done, alloc, Rest(request, i + 1, cpu, mem));
      } else {
        RestNext(request, i, cpu, mem);
      }
    }
    WholeScan(request, currentCpu, currentMem);
    WholeScan(request, cpu, mem);
  }

  /** One turn of the planning loop: whether the entry is started on top of the current usage. */
  method Admit(task: WireTask, request: PlanRequest, cpu: nat, mem: nat) returns (admitted: bool, alloc: WireAllocation)
    ensures alloc == Resolve(task, request.predictions)
    ensures Eligible(task, request.statuses) <==>
            && (task.name !in request.statuses || request.statuses[task.name].phase == Pending)
            && forall k :: 0 <= k < |task.dependencies| ==>
                 task.dependencies[k] in request.statuses && request.statuses[task.dependencies[k]].phase == Succeeded
    ensures admitted <==> Eligible(task, request.statuses)
                          && Fits(cpu + alloc.request.cpu, mem + alloc.request.mem, Cap(request))
  {
    alloc := ResolveResources(task, request.predictions);
    if task.name in request.statuses && request.statuses[task.name].phase != Pending {
      return false, alloc;
    }
    var ready := DependenciesSucceeded(task, request.statuses);
    if !ready {
      return false, alloc;
    }
    var max := Cap(request);
    if max.cpu > 0 && cpu + alloc.request.cpu > max.cpu {
      return false, alloc;
    }
    if max.mem > 0 && mem + alloc.request.mem > max.mem {
      return false, alloc;
    }
    return true, alloc;
  }
}
