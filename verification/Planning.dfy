/** The optimizer behind the controller, whichever implementation is configured: what every plan
    contains, and which budget it keeps. */
module Planning {
  import opened Loads
  import opened Quantities
  import opened Packing
  import opened Workflow
  import opened Wire
  import opened Remote
  import opened Agreement
  import Cpp = CppPlanner
  import Go = GreedyPlanner

  datatype Planner = InProcess | GoService | CppService

  ghost function PlanWith(planner: Planner, spec: Spec, statuses: Statuses,
                          predictions: Predictions): seq<TaskAllocation> {
    match planner
    case InProcess => Go.Planned(spec, statuses, predictions)
    case GoService => GoServerPlan(spec, statuses, predictions)
    case CppService => CppPlan(spec, statuses, predictions)
  }

  method CallOptimizer(planner: Planner, spec: Spec, statuses: Statuses, predictions: Predictions)
    returns (plan: seq<TaskAllocation>)
    ensures plan == PlanWith(planner, spec, statuses, predictions)
  {
    match planner
    case InProcess => plan := Go.Plan(spec, statuses, predictions);
    case GoService => plan := PlanThroughGoServer(spec, statuses, predictions);
    case CppService => plan := PlanThroughCpp(spec, statuses, predictions);
  }

  /** The cap as the planner sees it: exact in process, converted to wire units for a service. */
  function EffectiveCap(planner: Planner, spec: Spec): Load {
    if planner == InProcess then Cap(spec) else Scale(ToWire(Cap(spec)))
  }

  /** A service only ever hands out aligned allocations, so that is all it finds among the statuses. */
  ghost predicate Tidy(planner: Planner, statuses: Statuses) {
    planner == InProcess || AlignedStatuses(statuses)
  }

  // ---- Eligibility ----

  lemma CppAllocation(request: PlanRequest, wa: WireAllocation)
    requires wa in Cpp.Planned(request)
    ensures exists i :: 0 <= i < |request.tasks| && Cpp.Eligible(request.tasks[i], request.statuses)
                        && request.tasks[i].name == wa.task
  {
    var offers, taken := Cpp.Offers(request), Cpp.Taken(request);
    PickSound(offers, taken, wa);
    var i :| 0 <= i < |offers| && taken[i] && offers[i] == wa;
    assert Cpp.Candidates(request)[i].Ready?;
    assert Cpp.Eligible(request.tasks[i], request.statuses);
  }

  lemma ServerAllocation(request: PlanRequest, wa: WireAllocation)
    requires wa in ServerPlanned(request)
    ensures exists i :: 0 <= i < |request.tasks| && Cpp.Eligible(request.tasks[i], request.statuses)
                        && request.tasks[i].name == wa.task
  {
    var spec, statuses, predictions :=
      ServerSpec(request), ServerStatuses(request.statuses), ServerPredictions(request.predictions);
    var plan := Go.Planned(spec, statuses, predictions);
    var k :| 0 <= k < |plan| && wa == Respond(plan[k]);
    Go.PlannedIsEligible(spec, statuses, predictions, plan[k]);
    var i :| 0 <= i < |spec.tasks| && Go.Eligible(spec.tasks[i], statuses)
             && plan[k] == Go.OfferOf(spec.tasks[i], predictions);
    ServerEligibility(request.tasks[i], request.statuses);
  }

  lemma ReceivedMember(response: seq<WireAllocation>, a: TaskAllocation) returns (wa: WireAllocation)
    requires a in Receive(response)
    ensures wa in response && a == ReceiveAllocation(wa)
    ensures Aligned(LoadOf(a.resources.requests))
  {
    var k :| 0 <= k < |response| && ReceiveAllocation(response[k]) == a;
    wa := response[k];
    WireOfScale(wa.request);
  }

  lemma RequestEligibility(spec: Spec, statuses: Statuses, predictions: Predictions, name: string)
    requires var request := Request(spec, statuses, predictions);
             exists i :: 0 <= i < |request.tasks| && Cpp.Eligible(request.tasks[i], request.statuses)
                         && request.tasks[i].name == name
    ensures exists i :: 0 <= i < |spec.tasks| && Go.Eligible(spec.tasks[i], statuses) && spec.tasks[i].name == name
  {
    var request := Request(spec, statuses, predictions);
    var i :| 0 <= i < |request.tasks| && Cpp.Eligible(request.tasks[i], request.statuses)
             && request.tasks[i].name == name;
    SameEligibility(spec.tasks[i], statuses);
  }

  /** Whichever planner is configured, it only starts spec entries that have not started and whose
      dependencies have all Succeeded; the services only hand out aligned requests. */
  lemma PlanIsEligible(planner: Planner, spec: Spec, statuses: Statuses, predictions: Predictions, a: TaskAllocation)
    requires a in PlanWith(planner, spec, statuses, predictions)
    ensures exists i :: 0 <= i < |spec.tasks| && Go.Eligible(spec.tasks[i], statuses) && spec.tasks[i].name == a.task
    ensures planner != InProcess ==> Aligned(LoadOf(a.resources.requests))
  {
    if planner == InProcess {
      Go.PlannedIsEligible(spec, statuses, predictions, a);
    } else {
      var request := Request(spec, statuses, predictions);
      if planner == GoService {
        var wa := ReceivedMember(ServerPlanned(request), a);
        ServerAllocation(request, wa);
      } else {
        var wa := ReceivedMember(Cpp.Planned(request), a);
        CppAllocation(request, wa);
      }
      RequestEligibility(spec, statuses, predictions, a.task);
    }
  }

  /** With unique names no planner starts a task twice. */
  lemma PlanIsDistinct(planner: Planner, spec: Spec, statuses: Statuses, predictions: Predictions)
    requires UniqueNames(spec)
    ensures DistinctTasks(PlanWith(planner, spec, statuses, predictions))
  {
    if planner == InProcess {
      Go.PlannedIsDistinct(spec, statuses, predictions);
    } else if planner == CppService {
      CppPlanIsDistinct(spec, statuses, predictions);
    } else {
      GoServerPlanIsDistinct(spec, statuses, predictions);
    }
  }

  lemma CppPlanIsDistinct(spec: Spec, statuses: Statuses, predictions: Predictions)
    requires UniqueNames(spec)
    ensures DistinctTasks(CppPlan(spec, statuses, predictions))
  {
    var request := Request(spec, statuses, predictions);
    ReceivePick(Cpp.Offers(request), Cpp.Taken(request));
    PickDistinct(Receive(Cpp.Offers(request)), Cpp.Taken(request));
  }

  lemma GoServerPlanIsDistinct(spec: Spec, statuses: Statuses, predictions: Predictions)
    requires UniqueNames(spec)
    ensures DistinctTasks(GoServerPlan(spec, statuses, predictions))
  {
    var request := Request(spec, statuses, predictions);
    Go.PlannedIsDistinct(ServerSpec(request), ServerStatuses(request.statuses), ServerPredictions(request.predictions));
  }

  // ---- Limits ----

  /** A wire allocation made from this prediction. */
  predicate FromPrediction(wa: WireAllocation, load: Load) {
    wa.request == load && wa.limit == Headroom(load)
  }

  lemma CppPredictedLimit(request: PlanRequest, wa: WireAllocation)
    requires wa in Cpp.Planned(request) && wa.task in request.predictions
    ensures FromPrediction(wa, request.predictions[wa.task])
  {
    PickSound(Cpp.Offers(request), Cpp.Taken(request), wa);
  }

  lemma ServerPredictedLimit(request: PlanRequest, wa: WireAllocation)
    requires wa in ServerPlanned(request) && wa.task in request.predictions
    ensures FromPrediction(wa, request.predictions[wa.task])
  {
    var spec, statuses, predictions :=
      ServerSpec(request), ServerStatuses(request.statuses), ServerPredictions(request.predictions);
    var plan := Go.Planned(spec, statuses, predictions);
    var k :| 0 <= k < |plan| && wa == Respond(plan[k]);
    Go.PlannedIsEligible(spec, statuses, predictions, plan[k]);
    var load := request.predictions[wa.task];
    LoadRoundTrip(load);
    LoadRoundTrip(Headroom(load));
  }

  /** Through a service, an allocation taken from a prediction requests the prediction as sent, and its
      limit is half as much again, rounded down, and so never below the request. */
  lemma PredictedLimits(planner: Planner, spec: Spec, statuses: Statuses, predictions: Predictions, a: TaskAllocation)
    requires planner != InProcess && a in PlanWith(planner, spec, statuses, predictions) && a.task in predictions
    ensures var sent := SendLoad(predictions[a.task].requests);
            LoadOf(a.resources.requests) == Scale(sent) && LoadOf(a.resources.limits) == Scale(Headroom(sent))
    ensures forall d: Dim :: Amount(a.resources.requests, d) <= Amount(a.resources.limits, d)
  {
    var request := Request(spec, statuses, predictions);
    var response := if planner == GoService then ServerPlanned(request) else Cpp.Planned(request);
    var wa := ReceivedMember(response, a);
    if planner == GoService {
      ServerPredictedLimit(request, wa);
    } else {
      CppPredictedLimit(request, wa);
    }
    HeadroomCovers(wa.request);
  }

  // ---- Budget ----

  lemma SentCap(spec: Spec, statuses: Statuses, predictions: Predictions)
    ensures Cpp.Cap(Request(spec, statuses, predictions)) == ToWire(Cap(spec))
  {
  }

  /** What a C++ plan adds, once received, keeps the usage within the cap of its request. */
  lemma CppKeepsCap(request: PlanRequest)
    requires Fits(Millis(Cpp.Usage(request.statuses, CPU)), Mebis(Cpp.Usage(request.statuses, MEM)),
                  Scale(Cpp.Cap(request)))
    ensures var plan := Receive(Cpp.Planned(request));
            Fits(Millis(Cpp.Usage(request.statuses, CPU)) + PlanAmount(plan, CPU),
                 Mebis(Cpp.Usage(request.statuses, MEM)) + PlanAmount(plan, MEM), Scale(Cpp.Cap(request)))
  {
    ReceivedScanKeepsCap(Cpp.Offers(request), Cpp.Candidates(request),
                         Cpp.Usage(request.statuses, CPU), Cpp.Usage(request.statuses, MEM), Cpp.Cap(request));
  }

  lemma CppPlanWithinBudget(spec: Spec, statuses: Statuses, predictions: Predictions)
    requires AlignedStatuses(statuses) && UsageFits(statuses, Scale(ToWire(Cap(spec))))
    ensures BudgetKept(statuses, CppPlan(spec, statuses, predictions), Scale(ToWire(Cap(spec))))
  {
    SentUsage(statuses);
    SentCap(spec, statuses, predictions);
    CppKeepsCap(Request(spec, statuses, predictions));
  }

  lemma ReceivedScanKeepsCap(offers: seq<WireAllocation>, items: seq<Candidate>, cpu: nat, mem: nat, cap: Load)
    requires |items| == |offers|
    requires forall i :: 0 <= i < |items| && items[i].Ready? ==> items[i].load == offers[i].request
    requires Fits(Millis(cpu), Mebis(mem), Scale(cap))
    ensures var plan := Receive(Pick(offers, Greedy(items, cpu, mem, cap)));
            Fits(Millis(cpu) + PlanAmount(plan, CPU), Mebis(mem) + PlanAmount(plan, MEM), Scale(cap))
  {
    GreedyScaled(items, cpu, mem, cap);
    ReceivePick(offers, Greedy(items, cpu, mem, cap));
    ScanKeepsCap(Receive(offers), ScaleItems(items), Millis(cpu), Mebis(mem), Scale(cap));
  }

  lemma {:induction false} AmountAfterResponding(plan: seq<TaskAllocation>, d: Dim)
    requires AlignedPlan(plan)
    ensures PlanAmount(Receive(RespondAll(plan)), d) == PlanAmount(plan, d)
  {
    if plan != [] {
      AmountAfterResponding(plan[1..], d);
      ScaleOfWire(LoadOf(plan[0].resources.requests));
      assert Receive(RespondAll(plan))[1..] == Receive(RespondAll(plan[1..]));
    }
  }

  lemma ServedCap(spec: Spec, statuses: Statuses, predictions: Predictions)
    ensures Cap(ServerSpec(Request(spec, statuses, predictions))) == Scale(ToWire(Cap(spec)))
  {
  }

  lemma GoServerPlanWithinBudget(spec: Spec, statuses: Statuses, predictions: Predictions)
    requires AlignedStatuses(statuses) && UsageFits(statuses, Scale(ToWire(Cap(spec))))
    ensures BudgetKept(statuses, GoServerPlan(spec, statuses, predictions), Scale(ToWire(Cap(spec))))
  {
    var request := Request(spec, statuses, predictions);
    var serverSpec, serverStatuses := ServerSpec(request), ServerStatuses(request.statuses);
    var plan := Go.Planned(serverSpec, serverStatuses, ServerPredictions(request.predictions));
    SentUsage(statuses);
    ServerUsage(request.statuses);
    ServedCap(spec, statuses, predictions);
    Go.PlannedWithinBudget(serverSpec, serverStatuses, ServerPredictions(request.predictions));
    ServerPlanIsAligned(request);
    AmountAfterResponding(plan, CPU);
    AmountAfterResponding(plan, MEM);
  }

  /** Whichever planner is configured, what runs and what it starts stay within the cap it sees. */
  lemma PlanWithinBudget(planner: Planner, spec: Spec, statuses: Statuses, predictions: Predictions)
    requires Tidy(planner, statuses) && UsageFits(statuses, EffectiveCap(planner, spec))
    ensures BudgetKept(statuses, PlanWith(planner, spec, statuses, predictions), EffectiveCap(planner, spec))
  {
    match planner
    case InProcess => Go.PlannedWithinBudget(spec, statuses, predictions);
    case GoService => GoServerPlanWithinBudget(spec, statuses, predictions);
    case CppService => CppPlanWithinBudget(spec, statuses, predictions);
  }

  lemma {:induction false} PlanAmountCovers(plan: seq<TaskAllocation>, a: TaskAllocation, d: Dim)
    requires a in plan
    ensures Amount(a.resources.requests, d) <= PlanAmount(plan, d)
  {
    if a != plan[0] {
      PlanAmountCovers(plan[1..], a, d);
    }
  }

  /** So every single allocation fits the cap. */
  lemma PlannedFits(planner: Planner, spec: Spec, tasks: Statuses, predictions: Predictions, a: TaskAllocation)
    requires Tidy(planner, tasks) && UsageFits(tasks, EffectiveCap(planner, spec))
    requires a in PlanWith(planner, spec, tasks, predictions)
    ensures Fits(Amount(a.resources.requests, CPU), Amount(a.resources.requests, MEM), EffectiveCap(planner, spec))
  {
    PlanWithinBudget(planner, spec, tasks, predictions);
    PlanAmountCovers(PlanWith(planner, spec, tasks, predictions), a, CPU);
    PlanAmountCovers(PlanWith(planner, spec, tasks, predictions), a, MEM);
  }

  // ---- What the conversion does to the cap ----

  /** Usage within a service's cap exceeds the real CPU cap by less than a millicore, and a memory cap of
      at least one MiB by less than a byte (by nothing if the cap is a whole number of bytes). */
  lemma ServiceCapRounding(planner: Planner, spec: Spec, cpu: nat, mem: nat)
    requires Fits(cpu, mem, EffectiveCap(planner, spec))
    ensures Cap(spec).cpu != 0 ==> cpu < Cap(spec).cpu + Millis(1)
    ensures Cap(spec).mem >= Mebis(1) ==> mem < Cap(spec).mem + 1_000_000_000
    ensures Cap(spec).mem >= Mebis(1) && WholeBytes(Cap(spec).mem) ==> mem <= Cap(spec).mem
  {
    WireRounding(Cap(spec));
  }

  /** A cap that survives the conversion: whole millicores, and memory either unlimited or at least one
      MiB and not within a fraction of a byte below a MiB boundary. */
  predicate ExactCap(cap: Load) {
    && WholeMillis(cap.cpu)
    && (cap.mem == 0 || (MebiValue(cap.mem) >= 1 && (WholeBytes(cap.mem) || Value(cap.mem) % 1_048_576 != 0)))
  }

  /** Otherwise some usage in wire units passes the service's check and exceeds the cap; a memory cap below
      one MiB is the extreme case, as it reaches the service as "unlimited". */
  lemma CapSurvivesIff(cap: Load)
    ensures (forall l: Load :: Fits(Scale(l).cpu, Scale(l).mem, Scale(ToWire(cap))) ==>
             Fits(Scale(l).cpu, Scale(l).mem, cap))
            <==> ExactCap(cap)
  {
    WireRounding(cap);
    var sent := ToWire(cap);
    if !WholeMillis(cap.cpu) {
      var l := Load(sent.cpu, 0);
      assert Fits(Scale(l).cpu, Scale(l).mem, Scale(sent)) && !Fits(Scale(l).cpu, Scale(l).mem, cap);
    } else if !ExactCap(cap) {
      var l := Load(0, if sent.mem == 0 then 1 else sent.mem);
      assert Fits(Scale(l).cpu, Scale(l).mem, Scale(sent)) && !Fits(Scale(l).cpu, Scale(l).mem, cap);
    }
  }
}
