/** When the planner implementations agree on what to start. */
module Agreement {
  import opened Loads
  import opened Quantities
  import opened Packing
  import opened Workflow
  import opened Wire
  import opened Remote
  import Baseline
  import Cpp = CppPlanner
  import Go = GreedyPlanner

  /** A user hint that asks for neither CPU nor memory, with no prediction to override it. */
  predicate HollowHint(task: TaskTemplate, predictions: Predictions) {
    && task.name !in predictions
    && Go.HasHint(task)
    && LoadOf(task.baseResources.requests) == Load(0, 0)
  }

  /** All quantities the planners read are whole millicores and whole MiB. */
  ghost predicate AlignedInput(spec: Spec, statuses: Statuses, predictions: Predictions) {
    && Aligned(Cap(spec))
    && (forall i :: 0 <= i < |spec.tasks| ==> Aligned(LoadOf(spec.tasks[i].baseResources.requests)))
    && AlignedStatuses(statuses)
    && (forall t :: t in predictions ==> Aligned(LoadOf(predictions[t].requests)))
  }

  function TaskNames(tasks: seq<TaskTemplate>): seq<string> {
    seq(|tasks|, i requires 0 <= i < |tasks| => tasks[i].name)
  }

  lemma SameEligibility(task: TaskTemplate, statuses: Statuses)
    ensures Go.Eligible(task, statuses) <==>
            Cpp.Eligible(SendTask(task), map t | t in statuses :: SendStatus(statuses[t]))
  {
    var sent := map t | t in statuses :: SendStatus(statuses[t]);
    forall k | 0 <= k < |task.dependencies|
      ensures Go.Satisfied(task.dependencies[k], statuses) <==> Cpp.Satisfied(SendTask(task).dependencies[k], sent)
    {
    }
  }

  lemma CompareEntry(task: TaskTemplate, statuses: Statuses, predictions: Predictions)
    requires Aligned(LoadOf(task.baseResources.requests))
    requires forall t :: t in predictions ==> Aligned(LoadOf(predictions[t].requests))
    ensures var sentStatuses := map t | t in statuses :: SendStatus(statuses[t]);
            var sentPredictions := map t | t in predictions :: SendLoad(predictions[t].requests);
            var a := Go.CandidateOf(task, statuses, predictions);
            var b := ScaleItem(Cpp.CandidateOf(SendTask(task), sentStatuses, sentPredictions));
            && (Go.Eligible(task, statuses) && HollowHint(task, predictions) ==> Disagree(a, b))
            && (!(Go.Eligible(task, statuses) && HollowHint(task, predictions)) ==> a == b)
            && (task.name !in predictions ==> b != Ready(Load(0, 0)))
  {
    SameEligibility(task, statuses);
    ScaleOfWire(LoadOf(task.baseResources.requests));
    if task.name in predictions {
      ScaleOfWire(LoadOf(predictions[task.name].requests));
    }
  }

  lemma CompareScans(spec: Spec, statuses: Statuses, predictions: Predictions)
    returns (a: seq<Candidate>, b: seq<Candidate>)
    requires AlignedInput(spec, statuses, predictions)
    ensures a == Go.Candidates(spec.tasks, statuses, predictions)
    ensures b == ScaleItems(Cpp.Candidates(Request(spec, statuses, predictions)))
    ensures NearlyEqual(TaskNames(spec.tasks), a, b)
    ensures forall i :: 0 <= i < |spec.tasks| ==>
              (Disagree(a[i], b[i]) <==> Go.Eligible(spec.tasks[i], statuses) && HollowHint(spec.tasks[i], predictions))
  {
    a := Go.Candidates(spec.tasks, statuses, predictions);
    b := ScaleItems(Cpp.Candidates(Request(spec, statuses, predictions)));
    forall i | 0 <= i < |spec.tasks|
      ensures a[i] == b[i] || Disagree(a[i], b[i])
      ensures Disagree(a[i], b[i]) <==> Go.Eligible(spec.tasks[i], statuses) && HollowHint(spec.tasks[i], predictions)
      ensures spec.tasks[i].name !in predictions ==> b[i] != Ready(Load(0, 0))
    {
      CompareEntry(spec.tasks[i], statuses, predictions);
    }
  }

  /** The controller's view of the C++ plan is the full-resolution scan over the scaled candidates. */
  lemma CppStarts(spec: Spec, statuses: Statuses, predictions: Predictions)
    requires Aligned(Cap(spec)) && AlignedStatuses(statuses)
    ensures StartedIn(CppPlan(spec, statuses, predictions)) ==
            Started(TaskNames(spec.tasks), ScaleItems(Cpp.Candidates(Request(spec, statuses, predictions))),
                    Usage(statuses, CPU), Usage(statuses, MEM), Cap(spec))
  {
    var request := Request(spec, statuses, predictions);
    SentUsage(statuses);
    ScaleOfWire(Cap(spec));
    assert Scale(Cpp.Cap(request)) == Cap(spec);
    ReceivedScan(TaskNames(spec.tasks), Cpp.Offers(request), Cpp.Candidates(request),
                 Cpp.Usage(request.statuses, CPU), Cpp.Usage(request.statuses, MEM), Cpp.Cap(request));
  }

  lemma GoStarts(spec: Spec, statuses: Statuses, predictions: Predictions)
    ensures StartedIn(Go.Planned(spec, statuses, predictions)) ==
            Started(TaskNames(spec.tasks), Go.Candidates(spec.tasks, statuses, predictions),
                    Usage(statuses, CPU), Usage(statuses, MEM), Cap(spec))
  {
    StartedInScan(TaskNames(spec.tasks), Go.Offers(spec.tasks, predictions),
                  Go.Candidates(spec.tasks, statuses, predictions),
                  Usage(statuses, CPU), Usage(statuses, MEM), Cap(spec));
  }

  /** On aligned quantities the C++ service starts the same tasks, in the same order and with the same
      requests, as the in-process Go planner exactly when no eligible task's hint is hollow (or the
      budget is already exceeded and both start nothing). */
  lemma GoAndCppAgreeIff(spec: Spec, statuses: Statuses, predictions: Predictions)
    requires AlignedInput(spec, statuses, predictions)
    ensures StartedIn(Go.Planned(spec, statuses, predictions)) == StartedIn(CppPlan(spec, statuses, predictions)) <==>
            || !UsageFits(statuses, Cap(spec))
            || forall i :: 0 <= i < |spec.tasks| && Go.Eligible(spec.tasks[i], statuses) ==>
              !HollowHint(spec.tasks[i], predictions)
  {
    var a, b := CompareScans(spec, statuses, predictions);
    GoStarts(spec, statuses, predictions);
    CppStarts(spec, statuses, predictions);
    ScansAgreeIff(TaskNames(spec.tasks), a, b, Usage(statuses, CPU), Usage(statuses, MEM), Cap(spec));
  }

  /** Fed by the baseline engine, the two planners always agree on aligned quantities. */
  lemma GoAndCppAgreeOnBaseline(spec: Spec, statuses: Statuses)
    requires AlignedInput(spec, statuses, map[])
    ensures StartedIn(Go.Planned(spec, statuses, Baseline.Predicted(spec.tasks))) ==
            StartedIn(CppPlan(spec, statuses, Baseline.Predicted(spec.tasks)))
  {
    var predictions := Baseline.Predicted(spec.tasks);
    forall t | t in predictions
      ensures Aligned(LoadOf(predictions[t].requests))
    {
      Baseline.PredictedIsHint(spec.tasks, t);
    }
    forall i | 0 <= i < |spec.tasks|
      ensures !HollowHint(spec.tasks[i], predictions)
    {
      Baseline.PredictedIsHint(spec.tasks, spec.tasks[i].name);
    }
    GoAndCppAgreeIff(spec, statuses, predictions);
  }

  // ---- The two services ----

  /** A hint message that is present but empty, with no prediction to override it. */
  predicate EmptyHint(task: WireTask, predictions: map<string, Load>) {
    task.name !in predictions && task.base == Some(Load(0, 0))
  }

  lemma ServerEligibility(task: WireTask, statuses: map<string, WireStatus>)
    ensures Go.Eligible(ServerTask(task), ServerStatuses(statuses)) <==> Cpp.Eligible(task, statuses)
  {
    forall k | 0 <= k < |task.dependencies|
      ensures Go.Satisfied(ServerTask(task).dependencies[k], ServerStatuses(statuses)) <==>
              Cpp.Satisfied(task.dependencies[k], statuses)
    {
    }
  }

  lemma ServerResolves(task: WireTask, predictions: map<string, Load>)
    ensures var requests := Go.Resolve(ServerTask(task), ServerPredictions(predictions)).requests;
            && Aligned(LoadOf(requests))
            && (if EmptyHint(task, predictions) then LoadOf(requests) == Load(0, 0)
                else LoadOf(requests) == Scale(Cpp.Resolve(task, predictions).request))
  {
    if task.name in predictions {
      LoadRoundTrip(predictions[task.name]);
      WireOfScale(predictions[task.name]);
    } else if task.base.Some? {
      LoadRoundTrip(task.base.value);
      WireOfScale(task.base.value);
      assert Cpu in ReceiveLoad(task.base.value);
    }
  }

  lemma ServerEntry(task: WireTask, request: PlanRequest)
    ensures var a := Go.CandidateOf(ServerTask(task), ServerStatuses(request.statuses),
                                    ServerPredictions(request.predictions));
            var b := ScaleItem(Cpp.CandidateOf(task, request.statuses, request.predictions));
            && (Cpp.Eligible(task, request.statuses) && EmptyHint(task, request.predictions) ==> Disagree(a, b))
            && (!(Cpp.Eligible(task, request.statuses) && EmptyHint(task, request.predictions)) ==> a == b)
            && (task.name !in request.predictions ==> b != Ready(Load(0, 0)))
  {
    ServerEligibility(task, request.statuses);
    ServerResolves(task, request.predictions);
  }

  lemma ServerUsage(statuses: map<string, WireStatus>)
    ensures Usage(ServerStatuses(statuses), CPU) == Millis(Cpp.Usage(statuses, CPU))
    ensures Usage(ServerStatuses(statuses), MEM) == Mebis(Cpp.Usage(statuses, MEM))
  {
    SumWidened(Cpp.Shares(statuses, CPU), Shares(ServerStatuses(statuses), CPU), CPU);
    SumWidened(Cpp.Shares(statuses, MEM), Shares(ServerStatuses(statuses), MEM), MEM);
  }

  lemma {:induction false} StartedAfterResponding(plan: seq<TaskAllocation>)
    requires AlignedPlan(plan)
    ensures StartedIn(Receive(RespondAll(plan))) == StartedIn(plan)
  {
    if plan != [] {
      StartedAfterResponding(plan[1..]);
      ScaleOfWire(LoadOf(plan[0].resources.requests));
      assert Receive(RespondAll(plan))[1..] == Receive(RespondAll(plan[1..]));
    }
  }

  lemma ServerPlanIsAligned(request: PlanRequest)
    ensures AlignedPlan(Go.Planned(ServerSpec(request), ServerStatuses(request.statuses),
                                   ServerPredictions(request.predictions)))
  {
    var spec, statuses, predictions :=
      ServerSpec(request), ServerStatuses(request.statuses), ServerPredictions(request.predictions);
    forall a | a in Go.Planned(spec, statuses, predictions)
      ensures Aligned(LoadOf(a.resources.requests))
    {
      Go.PlannedIsEligible(spec, statuses, predictions, a);
      var i :| 0 <= i < |spec.tasks| && Go.Eligible(spec.tasks[i], statuses)
               && a == Go.OfferOf(spec.tasks[i], predictions);
      ServerResolves(request.tasks[i], request.predictions);
    }
  }

  function WireNames(tasks: seq<WireTask>): seq<string> {
    seq(|tasks|, i requires 0 <= i < |tasks| => tasks[i].name)
  }

  lemma ServerStarts(request: PlanRequest)
    ensures StartedIn(Receive(ServerPlanned(request))) ==
            Started(WireNames(request.tasks),
                    Go.Candidates(ServerSpec(request).tasks, ServerStatuses(request.statuses),
                                  ServerPredictions(request.predictions)),
                    Millis(Cpp.Usage(request.statuses, CPU)), Mebis(Cpp.Usage(request.statuses, MEM)),
                    Scale(Cpp.Cap(request)))
  {
    var spec, statuses, predictions :=
      ServerSpec(request), ServerStatuses(request.statuses), ServerPredictions(request.predictions);
    ServerPlanIsAligned(request);
    StartedAfterResponding(Go.Planned(spec, statuses, predictions));
    ServerUsage(request.statuses);
    assert TaskNames(spec.tasks) == WireNames(request.tasks);
    assert Cap(spec) == Scale(Cpp.Cap(request));
    GoStarts(spec, statuses, predictions);
  }

  lemma CompareServices(request: PlanRequest) returns (a: seq<Candidate>, b: seq<Candidate>)
    ensures a == Go.Candidates(ServerSpec(request).tasks, ServerStatuses(request.statuses),
                               ServerPredictions(request.predictions))
    ensures b == ScaleItems(Cpp.Candidates(request))
    ensures NearlyEqual(WireNames(request.tasks), a, b)
    ensures forall i :: 0 <= i < |request.tasks| ==>
              (Disagree(a[i], b[i]) <==>
               Cpp.Eligible(request.tasks[i], request.statuses) && EmptyHint(request.tasks[i], request.predictions))
  {
    a := Go.Candidates(ServerSpec(request).tasks, ServerStatuses(request.statuses),
                       ServerPredictions(request.predictions));
    b := ScaleItems(Cpp.Candidates(request));
    forall i | 0 <= i < |request.tasks|
      ensures a[i] == b[i] || Disagree(a[i], b[i])
      ensures Disagree(a[i], b[i]) <==>
              Cpp.Eligible(request.tasks[i], request.statuses) && EmptyHint(request.tasks[i], request.predictions)
      ensures request.tasks[i].name !in request.predictions ==> b[i] != Ready(Load(0, 0))
    {
      ServerEntry(request.tasks[i], request);
    }
  }

  /** On any request at all, the Go service and the C++ service start the same tasks with the same
      requests exactly when no eligible task carries an empty hint (or the budget is already exceeded). */
  lemma ServicesAgreeIff(request: PlanRequest)
    ensures StartedIn(Receive(ServerPlanned(request))) == StartedIn(Receive(Cpp.Planned(request))) <==>
            || !Fits(Cpp.Usage(request.statuses, CPU), Cpp.Usage(request.statuses, MEM), Cpp.Cap(request))
            || forall i :: 0 <= i < |request.tasks| && Cpp.Eligible(request.tasks[i], request.statuses) ==>
                 !EmptyHint(request.tasks[i], request.predictions)
  {
    var a, b := CompareServices(request);
    var cpu, mem, cap := Cpp.Usage(request.statuses, CPU), Cpp.Usage(request.statuses, MEM), Cpp.Cap(request);
    ServerStarts(request);
    ReceivedScan(WireNames(request.tasks), Cpp.Offers(request), Cpp.Candidates(request), cpu, mem, cap);
    ScansAgreeIff(WireNames(request.tasks), a, b, Millis(cpu), Mebis(mem), Scale(cap));
    FitsScaled(cpu, mem, cap);
  }
}
