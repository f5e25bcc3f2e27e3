/** What each planner hands out, in numbers. */
module Allocations {
  import opened Loads
  import opened Quantities
  import opened Packing
  import opened Workflow
  import opened Wire
  import opened Remote
  import opened Planning
  import opened Schedule
  import Go = GreedyPlanner
  import Cpp = CppPlanner

  /** What the configured planner hands out for an entry. */
  function Allocation(planner: Planner, task: TaskTemplate, predictions: Predictions): TaskAllocation {
    match planner
    case InProcess => Go.OfferOf(task, predictions)
    case GoService =>
      ReceiveAllocation(Respond(Go.OfferOf(ServerTask(SendTask(task)), ServerPredictions(Sent(predictions)))))
    case CppService => ReceiveAllocation(Cpp.Resolve(SendTask(task), Sent(predictions)))
  }

  lemma CppAllocationIs(spec: Spec, statuses: Statuses, predictions: Predictions, a: TaskAllocation)
    requires a in CppPlan(spec, statuses, predictions)
    ensures exists i :: 0 <= i < |spec.tasks| && a == Allocation(CppService, spec.tasks[i], predictions)
  {
    var request := Request(spec, statuses, predictions);
    var wa := ReceivedMember(Cpp.Planned(request), a);
    PickSound(Cpp.Offers(request), Cpp.Taken(request), wa);
    var i :| 0 <= i < |spec.tasks| && Cpp.Offers(request)[i] == wa;
    assert a == Allocation(CppService, spec.tasks[i], predictions);
  }

  lemma GoServerAllocationIs(spec: Spec, statuses: Statuses, predictions: Predictions, a: TaskAllocation)
    requires a in GoServerPlan(spec, statuses, predictions)
    ensures exists i :: 0 <= i < |spec.tasks| && a == Allocation(GoService, spec.tasks[i], predictions)
  {
    var request := Request(spec, statuses, predictions);
    var served, servedStatuses, servedPredictions :=
      ServerSpec(request), ServerStatuses(request.statuses), ServerPredictions(request.predictions);
    var plan := Go.Planned(served, servedStatuses, servedPredictions);
    var wa := ReceivedMember(ServerPlanned(request), a);
    var k :| 0 <= k < |plan| && wa == Respond(plan[k]);
    Go.PlannedIsEligible(served, servedStatuses, servedPredictions, plan[k]);
    var i :| 0 <= i < |served.tasks| && plan[k] == Go.OfferOf(served.tasks[i], servedPredictions);
    assert a == Allocation(GoService, spec.tasks[i], predictions);
  }

  /** Every allocation is what the planner hands out for an entry of that name. */
  lemma PlannedAllocation(planner: Planner, spec: Spec, statuses: Statuses, predictions: Predictions, a: TaskAllocation)
    requires a in PlanWith(planner, spec, statuses, predictions)
    ensures exists i :: 0 <= i < |spec.tasks| && a == Allocation(planner, spec.tasks[i], predictions)
  {
    match planner
    case InProcess => Go.PlannedIsEligible(spec, statuses, predictions, a);
    case GoService => GoServerAllocationIs(spec, statuses, predictions, a);
    case CppService => CppAllocationIs(spec, statuses, predictions, a);
  }

  lemma AllocationNames(planner: Planner, task: TaskTemplate, predictions: Predictions)
    ensures Allocation(planner, task, predictions).task == task.name
  {
  }

  lemma EntryAllocation(planner: Planner, spec: Spec, statuses: Statuses, predictions: Predictions, a: TaskAllocation,
                        i: nat)
    requires UniqueNames(spec) && a in PlanWith(planner, spec, statuses, predictions)
    requires i < |spec.tasks| && a.task == spec.tasks[i].name
    ensures a == Allocation(planner, spec.tasks[i], predictions)
  {
    PlannedAllocation(planner, spec, statuses, predictions, a);
    var j :| 0 <= j < |spec.tasks| && a == Allocation(planner, spec.tasks[j], predictions);
    AllocationNames(planner, spec.tasks[j], predictions);
    assert i == j;
  }

  // ---- In numbers ----

  /** So many millicores and so many MiB, in nano-units. */
  function Amounts(millicores: nat, mebibytes: nat): ResourceList {
    map[Cpu := 1_000_000 * millicores, Memory := 1_048_576_000_000_000 * mebibytes]
  }

  function DefaultAmounts(): Requirements {
    Requirements(Amounts(100, 128), Amounts(200, 256))
  }

  lemma InProcessAllocation(task: TaskTemplate, predictions: Predictions)
    ensures var r := Allocation(InProcess, task, predictions).resources;
            r == if task.name in predictions then predictions[task.name]
                 else if task.baseResources.requests != map[] || task.baseResources.limits != map[] then
                   task.baseResources
                 else DefaultAmounts()
  {
  }

  /** In process, with unique names: a task is started with its prediction if there is one, otherwise with its
      hint if that asks for or limits anything, otherwise with 100m and 128Mi under limits of 200m and 256Mi. */
  lemma InProcessHandsOut(spec: Spec, statuses: Statuses, predictions: Predictions, a: TaskAllocation, i: nat)
    requires UniqueNames(spec) && a in PlanWith(InProcess, spec, statuses, predictions)
    requires i < |spec.tasks| && a.task == spec.tasks[i].name
    ensures var task := spec.tasks[i];
            a.resources == if task.name in predictions then predictions[task.name]
                           else if task.baseResources.requests != map[] || task.baseResources.limits != map[] then
                             task.baseResources
                           else DefaultAmounts()
  {
    EntryAllocation(InProcess, spec, statuses, predictions, a, i);
    InProcessAllocation(spec.tasks[i], predictions);
  }

  /** A list as the wire carries it: millicores, and MiB. */
  function Millicores(list: ResourceList): nat {
    MilliValue(Get(list, Cpu))
  }

  function Mebibytes(list: ResourceList): nat {
    MebiValue(Get(list, Memory))
  }

  function PredictedAmounts(list: ResourceList): Requirements {
    Requirements(Amounts(Millicores(list), Mebibytes(list)), Amounts(3 * Millicores(list) / 2, 3 * Mebibytes(list) / 2))
  }

  lemma ReceivedAmounts(l: Load)
    ensures ReceiveLoad(l) == Amounts(l.cpu, l.mem)
  {
  }

  lemma SentAmounts(list: ResourceList)
    ensures SendLoad(list).cpu == Millicores(list) && SendLoad(list).mem == Mebibytes(list)
    ensures Headroom(SendLoad(list)).cpu == 3 * Millicores(list) / 2
    ensures Headroom(SendLoad(list)).mem == 3 * Mebibytes(list) / 2
  {
  }

  lemma CppPredicted(task: TaskTemplate, predictions: Predictions)
    requires task.name in predictions
    ensures var wa, sent := Cpp.Resolve(SendTask(task), Sent(predictions)), SendLoad(predictions[task.name].requests);
            wa.request == sent && wa.limit == Headroom(sent)
  {
  }

  predicate PositiveHint(task: TaskTemplate) {
    task.baseResources.requests != map[]
    && (Millicores(task.baseResources.requests) > 0 || Mebibytes(task.baseResources.requests) > 0)
  }

  lemma CppHinted(task: TaskTemplate, predictions: Predictions)
    requires task.name !in predictions && PositiveHint(task)
    ensures var wa, load := Cpp.Resolve(SendTask(task), Sent(predictions)), SendLoad(task.baseResources.requests);
            wa.request == load && wa.limit.cpu == 2 * load.cpu && wa.limit.mem == 2 * load.mem
  {
    SentAmounts(task.baseResources.requests);
  }

  lemma CppDefault(task: TaskTemplate, predictions: Predictions)
    requires task.name !in predictions && !PositiveHint(task)
    ensures var wa := Cpp.Resolve(SendTask(task), Sent(predictions));
            wa.request.cpu == 100 && wa.request.mem == 128 && wa.limit.cpu == 200 && wa.limit.mem == 256
  {
    SentAmounts(task.baseResources.requests);
  }

  lemma CppAllocation(task: TaskTemplate, predictions: Predictions)
    ensures var hint := task.baseResources.requests;
            var c, m := Millicores(hint), Mebibytes(hint);
            Allocation(CppService, task, predictions).resources ==
            if task.name in predictions then PredictedAmounts(predictions[task.name].requests)
            else if hint != map[] && (c > 0 || m > 0) then Requirements(Amounts(c, m), Amounts(2 * c, 2 * m))
            else DefaultAmounts()
  {
    var wa := Cpp.Resolve(SendTask(task), Sent(predictions));
    ReceivedAmounts(wa.request);
    ReceivedAmounts(wa.limit);
    SentAmounts(task.baseResources.requests);
    if task.name in predictions {
      CppPredicted(task, predictions);
      SentAmounts(predictions[task.name].requests);
    } else if PositiveHint(task) {
      CppHinted(task, predictions);
    } else {
      CppDefault(task, predictions);
    }
  }

  /** Through the C++ service: the prediction as sent, under limits of half as much again; otherwise the hint
      as sent, if anything is left of it, under limits of twice as much; otherwise the default. */
  lemma CppHandsOut(spec: Spec, statuses: Statuses, predictions: Predictions, a: TaskAllocation, i: nat)
    requires UniqueNames(spec) && a in PlanWith(CppService, spec, statuses, predictions)
    requires i < |spec.tasks| && a.task == spec.tasks[i].name
    ensures var hint := spec.tasks[i].baseResources.requests;
            var c, m := Millicores(hint), Mebibytes(hint);
            a.resources ==
            if a.task in predictions then PredictedAmounts(predictions[a.task].requests)
            else if hint != map[] && (c > 0 || m > 0) then Requirements(Amounts(c, m), Amounts(2 * c, 2 * m))
            else DefaultAmounts()
  {
    EntryAllocation(CppService, spec, statuses, predictions, a, i);
    CppAllocation(spec.tasks[i], predictions);
  }

  /** Without a prediction the C++ service's limits are twice the requests, names unique or not. */
  lemma CppDoubles(spec: Spec, statuses: Statuses, predictions: Predictions, a: TaskAllocation, d: Dim)
    requires a in PlanWith(CppService, spec, statuses, predictions) && a.task !in predictions
    ensures Amount(a.resources.limits, d) == 2 * Amount(a.resources.requests, d)
  {
    PlannedAllocation(CppService, spec, statuses, predictions, a);
    var j :| 0 <= j < |spec.tasks| && a == Allocation(CppService, spec.tasks[j], predictions);
    AllocationNames(CppService, spec.tasks[j], predictions);
    CppAllocation(spec.tasks[j], predictions);
  }

  lemma GoServicePredicted(task: TaskTemplate, predictions: Predictions)
    requires task.name in predictions
    ensures Allocation(GoService, task, predictions).resources == PredictedAmounts(predictions[task.name].requests)
  {
    var sent := SendLoad(predictions[task.name].requests);
    GoServiceSends(task, predictions);
    SentAmounts(predictions[task.name].requests);
    ReceivedAmounts(sent);
    ReceivedAmounts(Headroom(sent));
  }

  lemma GoServiceSends(task: TaskTemplate, predictions: Predictions)
    requires task.name in predictions
    ensures var sent := SendLoad(predictions[task.name].requests);
            Allocation(GoService, task, predictions).resources ==
            Requirements(ReceiveLoad(sent), ReceiveLoad(Headroom(sent)))
  {
    var sent := SendLoad(predictions[task.name].requests);
    LoadRoundTrip(sent);
    LoadRoundTrip(Headroom(sent));
    assert Sent(predictions)[task.name] == sent;
  }

  lemma GoServiceHinted(task: TaskTemplate, predictions: Predictions)
    requires task.name !in predictions && task.baseResources.requests != map[]
    ensures var hint := task.baseResources.requests;
            Allocation(GoService, task, predictions).resources ==
            Requirements(Amounts(Millicores(hint), Mebibytes(hint)), Amounts(0, 0))
  {
    var load := SendLoad(task.baseResources.requests);
    LoadRoundTrip(load);
    assert Cpu in ReceiveLoad(load);
  }

  lemma GoServiceDefault(task: TaskTemplate, predictions: Predictions)
    requires task.name !in predictions && task.baseResources.requests == map[]
    ensures Allocation(GoService, task, predictions).resources == DefaultAmounts()
  {
  }

  lemma GoServiceAllocation(task: TaskTemplate, predictions: Predictions)
    ensures var hint := task.baseResources.requests;
            Allocation(GoService, task, predictions).resources ==
            if task.name in predictions then PredictedAmounts(predictions[task.name].requests)
            else if hint != map[] then Requirements(Amounts(Millicores(hint), Mebibytes(hint)), Amounts(0, 0))
            else DefaultAmounts()
  {
    if task.name in predictions {
      GoServicePredicted(task, predictions);
    } else if task.baseResources.requests != map[] {
      GoServiceHinted(task, predictions);
    } else {
      GoServiceDefault(task, predictions);
    }
  }

  /** Through the Go service: predictions as through the C++ service; a hint as sent, under limits of zero. */
  lemma GoServiceHandsOut(spec: Spec, statuses: Statuses, predictions: Predictions, a: TaskAllocation, i: nat)
    requires UniqueNames(spec) && a in PlanWith(GoService, spec, statuses, predictions)
    requires i < |spec.tasks| && a.task == spec.tasks[i].name
    ensures var hint := spec.tasks[i].baseResources.requests;
            a.resources ==
            if a.task in predictions then PredictedAmounts(predictions[a.task].requests)
            else if hint != map[] then Requirements(Amounts(Millicores(hint), Mebibytes(hint)), Amounts(0, 0))
            else DefaultAmounts()
  {
    EntryAllocation(GoService, spec, statuses, predictions, a, i);
    GoServiceAllocation(spec.tasks[i], predictions);
  }
}
