/** One description of every planner: the greedy scan, at full resolution, over what each spec entry
    would be started with. */
module Schedule {
  import opened Loads
  import opened Quantities
  import opened Packing
  import opened Workflow
  import opened Wire
  import opened Remote
  import opened Agreement
  import opened Planning
  import Cpp = CppPlanner
  import Go = GreedyPlanner

  function Sent(predictions: Predictions): map<string, Load> {
    map t | t in predictions :: SendLoad(predictions[t].requests)
  }

  /** What the configured planner would start an entry with. */
  function Demand(planner: Planner, task: TaskTemplate, predictions: Predictions): Load {
    match planner
    case InProcess => LoadOf(Go.Resolve(task, predictions).requests)
    case GoService => LoadOf(Go.Resolve(ServerTask(SendTask(task)), ServerPredictions(Sent(predictions))).requests)
    case CppService => Scale(Cpp.Resolve(SendTask(task), Sent(predictions)).request)
  }

  function Entry(planner: Planner, task: TaskTemplate, statuses: Statuses, predictions: Predictions): Candidate {
    if Go.Eligible(task, statuses) then Ready(Demand(planner, task, predictions)) else Skip
  }

  function Entries(planner: Planner, tasks: seq<TaskTemplate>, statuses: Statuses,
                   predictions: Predictions): seq<Candidate> {
    seq(|tasks|, i requires 0 <= i < |tasks| => Entry(planner, tasks[i], statuses, predictions))
  }

  lemma CppEntries(spec: Spec, statuses: Statuses, predictions: Predictions)
    ensures Entries(CppService, spec.tasks, statuses, predictions) ==
            ScaleItems(Cpp.Candidates(Request(spec, statuses, predictions)))
  {
    var entries := Entries(CppService, spec.tasks, statuses, predictions);
    var items := ScaleItems(Cpp.Candidates(Request(spec, statuses, predictions)));
    forall i | 0 <= i < |spec.tasks|
      ensures entries[i] == items[i]
    {
      SameEligibility(spec.tasks[i], statuses);
    }
  }

  lemma CppIsScan(spec: Spec, statuses: Statuses, predictions: Predictions)
    requires AlignedStatuses(statuses)
    ensures StartedIn(CppPlan(spec, statuses, predictions)) ==
            Started(TaskNames(spec.tasks), Entries(CppService, spec.tasks, statuses, predictions),
                    Usage(statuses, CPU), Usage(statuses, MEM), EffectiveCap(CppService, spec))
  {
    var request := Request(spec, statuses, predictions);
    SentUsage(statuses);
    CppEntries(spec, statuses, predictions);
    SentCap(spec, statuses, predictions);
    ReceivedScan(TaskNames(spec.tasks), Cpp.Offers(request), Cpp.Candidates(request),
                 Cpp.Usage(request.statuses, CPU), Cpp.Usage(request.statuses, MEM), Cpp.Cap(request));
  }

  lemma GoServerIsScan(spec: Spec, statuses: Statuses, predictions: Predictions)
    requires AlignedStatuses(statuses)
    ensures StartedIn(GoServerPlan(spec, statuses, predictions)) ==
            Started(TaskNames(spec.tasks), Entries(GoService, spec.tasks, statuses, predictions),
                    Usage(statuses, CPU), Usage(statuses, MEM), EffectiveCap(GoService, spec))
  {
    var request := Request(spec, statuses, predictions);
    SentUsage(statuses);
    SentCap(spec, statuses, predictions);
    ServerStarts(request);
    var entries := Entries(GoService, spec.tasks, statuses, predictions);
    var items := Go.Candidates(ServerSpec(request).tasks, ServerStatuses(request.statuses),
                               ServerPredictions(request.predictions));
    forall i | 0 <= i < |spec.tasks|
      ensures entries[i] == items[i]
    {
      SameEligibility(spec.tasks[i], statuses);
      ServerEligibility(request.tasks[i], request.statuses);
    }
    assert entries == items;
    assert TaskNames(spec.tasks) == WireNames(request.tasks);
  }

  /** Whichever planner is configured, the tasks it starts, their requests and their order are those of
      one greedy scan in spec order against the cap it sees. */
  lemma PlanIsScan(planner: Planner, spec: Spec, statuses: Statuses, predictions: Predictions)
    requires Tidy(planner, statuses)
    ensures StartedIn(PlanWith(planner, spec, statuses, predictions)) ==
            Started(TaskNames(spec.tasks), Entries(planner, spec.tasks, statuses, predictions),
                    Usage(statuses, CPU), Usage(statuses, MEM), EffectiveCap(planner, spec))
  {
    match planner
    case InProcess =>
      GoStarts(spec, statuses, predictions);
      assert Entries(planner, spec.tasks, statuses, predictions) == Go.Candidates(spec.tasks, statuses, predictions);
    case GoService => GoServerIsScan(spec, statuses, predictions);
    case CppService => CppIsScan(spec, statuses, predictions);
  }

  ghost function Chosen(planner: Planner, spec: Spec, statuses: Statuses, predictions: Predictions): seq<bool> {
    Greedy(Entries(planner, spec.tasks, statuses, predictions), Usage(statuses, CPU), Usage(statuses, MEM),
           EffectiveCap(planner, spec))
  }

  // ---- Reading a plan off its scan ----

  lemma StartedComplete(names: seq<string>, items: seq<Candidate>, cpu: nat, mem: nat, cap: Load, i: nat)
    requires |names| == |items| && i < |items| && Greedy(items, cpu, mem, cap)[i]
    ensures (names[i], items[i].load) in Started(names, items, cpu, mem, cap)
  {
    PickComplete(Labelled(names, items), Greedy(items, cpu, mem, cap), i);
    assert Labelled(names, items)[i] == (names[i], items[i].load);
  }

  function StartedAmount(started: seq<(string, Load)>, d: Dim): nat {
    if started == [] then 0 else started[0].1.At(d) + StartedAmount(started[1..], d)
  }

  lemma {:induction false} AmountOfStarted(names: seq<string>, items: seq<Candidate>, cpu: nat, mem: nat, cap: Load,
                                           d: Dim)
    requires |names| == |items|
    ensures StartedAmount(Started(names, items, cpu, mem, cap), d) == Total(items, Greedy(items, cpu, mem, cap), d)
  {
    if items != [] {
      StartedFirst(names, items, cpu, mem, cap);
      if Greedy(items, cpu, mem, cap)[0] {
        var c, m := cpu + items[0].load.cpu, mem + items[0].load.mem;
        AmountOfStarted(names[1..], items[1..], c, m, cap, d);
        assert Started(names, items, cpu, mem, cap)[1..] == Started(names[1..], items[1..], c, m, cap);
      } else {
        AmountOfStarted(names[1..], items[1..], cpu, mem, cap, d);
      }
    }
  }

  lemma {:induction false} AmountOfPlan(plan: seq<TaskAllocation>, d: Dim)
    ensures PlanAmount(plan, d) == StartedAmount(StartedIn(plan), d)
  {
    if plan != [] {
      AmountOfPlan(plan[1..], d);
    }
  }

  lemma {:induction false} StartedInPlan(plan: seq<TaskAllocation>, x: (string, Load)) returns (a: TaskAllocation)
    requires x in StartedIn(plan)
    ensures a in plan && a.task == x.0 && LoadOf(a.resources.requests) == x.1
  {
    if x == (plan[0].task, LoadOf(plan[0].resources.requests)) {
      a := plan[0];
    } else {
      a := StartedInPlan(plan[1..], x);
    }
  }

  /** An entry chosen by the scan is in the plan, with its demand as requests. */
  lemma ChosenIsPlanned(planner: Planner, spec: Spec, statuses: Statuses, predictions: Predictions, i: nat)
    returns (a: TaskAllocation)
    requires Tidy(planner, statuses) && i < |spec.tasks| && Chosen(planner, spec, statuses, predictions)[i]
    ensures a in PlanWith(planner, spec, statuses, predictions) && a.task == spec.tasks[i].name
    ensures LoadOf(a.resources.requests) == Demand(planner, spec.tasks[i], predictions)
  {
    PlanIsScan(planner, spec, statuses, predictions);
    StartedComplete(TaskNames(spec.tasks), Entries(planner, spec.tasks, statuses, predictions),
                    Usage(statuses, CPU), Usage(statuses, MEM), EffectiveCap(planner, spec), i);
    a := StartedInPlan(PlanWith(planner, spec, statuses, predictions),
                       (spec.tasks[i].name, Demand(planner, spec.tasks[i], predictions)));
  }

  lemma {:induction false} InStartedIn(plan: seq<TaskAllocation>, a: TaskAllocation)
    requires a in plan
    ensures (a.task, LoadOf(a.resources.requests)) in StartedIn(plan)
  {
    if a != plan[0] {
      InStartedIn(plan[1..], a);
    }
  }

  /** Conversely, an allocation requests the demand of an entry of that name. */
  lemma PlannedDemand(planner: Planner, spec: Spec, statuses: Statuses, predictions: Predictions, a: TaskAllocation)
    returns (i: nat)
    requires Tidy(planner, statuses) && a in PlanWith(planner, spec, statuses, predictions)
    ensures i < |spec.tasks| && spec.tasks[i].name == a.task
    ensures LoadOf(a.resources.requests) == Demand(planner, spec.tasks[i], predictions)
  {
    var x := (a.task, LoadOf(a.resources.requests));
    var names, items := TaskNames(spec.tasks), Entries(planner, spec.tasks, statuses, predictions);
    PlanIsScan(planner, spec, statuses, predictions);
    InStartedIn(PlanWith(planner, spec, statuses, predictions), a);
    StartedSound(names, items, Usage(statuses, CPU), Usage(statuses, MEM), EffectiveCap(planner, spec), x);
    i :| 0 <= i < |items| && names[i] == x.0 && items[i] == Ready(x.1);
  }

  lemma PlanTotals(planner: Planner, spec: Spec, statuses: Statuses, predictions: Predictions, d: Dim)
    requires Tidy(planner, statuses)
    ensures PlanAmount(PlanWith(planner, spec, statuses, predictions), d) ==
            Total(Entries(planner, spec.tasks, statuses, predictions), Chosen(planner, spec, statuses, predictions), d)
  {
    PlanIsScan(planner, spec, statuses, predictions);
    AmountOfPlan(PlanWith(planner, spec, statuses, predictions), d);
    AmountOfStarted(TaskNames(spec.tasks), Entries(planner, spec.tasks, statuses, predictions),
                    Usage(statuses, CPU), Usage(statuses, MEM), EffectiveCap(planner, spec), d);
  }

  // ---- Optimality, maximality and the fixpoint, for every planner ----

  /** The demand of every entry, under its name. */
  function Demands(planner: Planner, tasks: seq<TaskTemplate>, predictions: Predictions): seq<(string, Load)> {
    seq(|tasks|, i requires 0 <= i < |tasks| => (tasks[i].name, Demand(planner, tasks[i], predictions)))
  }

  lemma {:induction false} PickSame<T>(xs: seq<T>, ys: seq<T>, taken: seq<bool>)
    requires |xs| == |ys| == |taken| && forall i :: 0 <= i < |taken| && taken[i] ==> xs[i] == ys[i]
    ensures Pick(xs, taken) == Pick(ys, taken)
  {
    if xs != [] {
      PickSame(xs[1..], ys[1..], taken[1..]);
    }
  }

  lemma PlanIsChosen(planner: Planner, spec: Spec, statuses: Statuses, predictions: Predictions)
    requires Tidy(planner, statuses)
    ensures StartedIn(PlanWith(planner, spec, statuses, predictions)) ==
            Pick(Demands(planner, spec.tasks, predictions), Chosen(planner, spec, statuses, predictions))
  {
    PlanIsScan(planner, spec, statuses, predictions);
    PickSame(Labelled(TaskNames(spec.tasks), Entries(planner, spec.tasks, statuses, predictions)),
             Demands(planner, spec.tasks, predictions), Chosen(planner, spec, statuses, predictions));
  }

  lemma {:induction false} StartedInAt(plan: seq<TaskAllocation>, k: nat)
    requires k < |plan|
    ensures |StartedIn(plan)| == |plan|
    ensures StartedIn(plan)[k] == (plan[k].task, LoadOf(plan[k].resources.requests))
  {
    if |plan| > 1 {
      StartedInAt(plan[1..], if k > 0 then k - 1 else 0);
    }
  }

  /** Every planner starts its tasks in spec order. */
  lemma PlanInSpecOrder(planner: Planner, spec: Spec, statuses: Statuses, predictions: Predictions)
    returns (idx: seq<nat>)
    requires Tidy(planner, statuses)
    ensures var plan := PlanWith(planner, spec, statuses, predictions);
            |idx| == |plan| && Increasing(idx)
            && forall k :: 0 <= k < |idx| ==> idx[k] < |spec.tasks| && plan[k].task == spec.tasks[idx[k]].name
  {
    var plan := PlanWith(planner, spec, statuses, predictions);
    PlanIsChosen(planner, spec, statuses, predictions);
    idx := PickInOrder(Demands(planner, spec.tasks, predictions), Chosen(planner, spec, statuses, predictions));
    forall k | 0 <= k < |plan|
      ensures |StartedIn(plan)| == |plan| && StartedIn(plan)[k] == (plan[k].task, LoadOf(plan[k].resources.requests))
    {
      StartedInAt(plan, k);
    }
    assert |StartedIn(plan)| == |plan| by {
      if plan != [] {
        StartedInAt(plan, 0);
      }
    }
  }

  /** Whichever planner is configured, its plan starts a choice of eligible entries, each with its demand,
      that fits the remaining budget and is the lexicographically greatest such choice in spec order:
      wherever another one first differs, it goes without an entry that the plan contains. */
  lemma PlanIsLexicographicallyGreatest(planner: Planner, spec: Spec, statuses: Statuses, predictions: Predictions,
                                        other: seq<bool>)
    requires Tidy(planner, statuses)
    requires Feasible(Entries(planner, spec.tasks, statuses, predictions), other,
                      Usage(statuses, CPU), Usage(statuses, MEM), EffectiveCap(planner, spec))
    ensures var chosen := Chosen(planner, spec, statuses, predictions);
            && StartedIn(PlanWith(planner, spec, statuses, predictions))
               == Pick(Demands(planner, spec.tasks, predictions), chosen)
            && Feasible(Entries(planner, spec.tasks, statuses, predictions), chosen,
                        Usage(statuses, CPU), Usage(statuses, MEM), EffectiveCap(planner, spec))
            && (other == chosen || Beats(chosen, other))
  {
    PlanIsChosen(planner, spec, statuses, predictions);
    GreedyIsBest(Entries(planner, spec.tasks, statuses, predictions),
                 Usage(statuses, CPU), Usage(statuses, MEM), EffectiveCap(planner, spec), other);
  }

  ghost predicate Has(plan: seq<TaskAllocation>, task: string) {
    exists a :: a in plan && a.task == task
  }

  /** An eligible entry whose task the plan does not start would overflow the cap on top of everything
      running and everything planned. */
  lemma PlanIsMaximal(planner: Planner, spec: Spec, statuses: Statuses, predictions: Predictions, i: nat)
    requires Tidy(planner, statuses) && i < |spec.tasks| && Go.Eligible(spec.tasks[i], statuses)
    requires !Has(PlanWith(planner, spec, statuses, predictions), spec.tasks[i].name)
    ensures !RoomFor(statuses, PlanWith(planner, spec, statuses, predictions),
                     Demand(planner, spec.tasks[i], predictions), EffectiveCap(planner, spec))
  {
    if Chosen(planner, spec, statuses, predictions)[i] {
      var a := ChosenIsPlanned(planner, spec, statuses, predictions, i);
    } else {
      UnchosenOverflows(planner, spec, statuses, predictions, i);
    }
  }

  lemma RoomWhenIdle(statuses: Statuses, load: Load, cap: Load)
    requires Usage(statuses, CPU) == 0 && Usage(statuses, MEM) == 0 && Fits(load.cpu, load.mem, cap)
    ensures RoomFor(statuses, [], load, cap)
  {
  }

  /** When nothing runs, an eligible entry whose demand fits the cap makes the plan non-empty. */
  lemma PlansWhenIdle(planner: Planner, spec: Spec, statuses: Statuses, predictions: Predictions, i: nat)
    requires Tidy(planner, statuses) && i < |spec.tasks| && Go.Eligible(spec.tasks[i], statuses)
    requires Usage(statuses, CPU) == 0 && Usage(statuses, MEM) == 0
    requires var demand := Demand(planner, spec.tasks[i], predictions);
             Fits(demand.cpu, demand.mem, EffectiveCap(planner, spec))
    ensures PlanWith(planner, spec, statuses, predictions) != []
  {
    RoomWhenIdle(statuses, Demand(planner, spec.tasks[i], predictions), EffectiveCap(planner, spec));
    if PlanWith(planner, spec, statuses, predictions) == [] {
      PlanIsMaximal(planner, spec, statuses, predictions, i);
    }
  }

  lemma JustOne(plan: seq<TaskAllocation>, task: string)
    requires forall a :: a in plan ==> a.task == task
    ensures DistinctTasks(plan) && plan != [] ==> plan == [plan[0]]
  {
    if |plan| > 1 {
      assert plan[0] in plan && plan[1] in plan;
      assert plan[0].task == plan[1].task;
    }
  }

  /** When nothing runs and only one task can be planned, it is, if it fits, with its demand. */
  lemma SoloPlan(planner: Planner, spec: Spec, statuses: Statuses, predictions: Predictions, i: nat)
    returns (a: TaskAllocation)
    requires UniqueNames(spec) && Tidy(planner, statuses) && i < |spec.tasks| && Go.Eligible(spec.tasks[i], statuses)
    requires Usage(statuses, CPU) == 0 && Usage(statuses, MEM) == 0
    requires var demand := Demand(planner, spec.tasks[i], predictions);
             Fits(demand.cpu, demand.mem, EffectiveCap(planner, spec))
    requires forall b :: b in PlanWith(planner, spec, statuses, predictions) ==> b.task == spec.tasks[i].name
    ensures PlanWith(planner, spec, statuses, predictions) == [a] && a.task == spec.tasks[i].name
    ensures LoadOf(a.resources.requests) == Demand(planner, spec.tasks[i], predictions)
  {
    var plan := PlanWith(planner, spec, statuses, predictions);
    PlansWhenIdle(planner, spec, statuses, predictions, i);
    PlanIsDistinct(planner, spec, statuses, predictions);
    JustOne(plan, spec.tasks[i].name);
    a := plan[0];
    var j := PlannedDemand(planner, spec, statuses, predictions, a);
    assert i == j;
  }

  lemma UnchosenOverflows(planner: Planner, spec: Spec, statuses: Statuses, predictions: Predictions, i: nat)
    requires Tidy(planner, statuses) && i < |spec.tasks| && Go.Eligible(spec.tasks[i], statuses)
    requires !Chosen(planner, spec, statuses, predictions)[i]
    ensures !RoomFor(statuses, PlanWith(planner, spec, statuses, predictions),
                     Demand(planner, spec.tasks[i], predictions), EffectiveCap(planner, spec))
  {
    PlanTotals(planner, spec, statuses, predictions, CPU);
    PlanTotals(planner, spec, statuses, predictions, MEM);
    LeftOutOverflows(statuses, PlanWith(planner, spec, statuses, predictions),
                     Entries(planner, spec.tasks, statuses, predictions), EffectiveCap(planner, spec), i,
                     Demand(planner, spec.tasks[i], predictions));
  }

  lemma LeftOutOverflows(statuses: Statuses, plan: seq<TaskAllocation>, items: seq<Candidate>, cap: Load, i: nat,
                         load: Load)
    requires i < |items| && items[i] == Ready(load)
    requires var taken := Greedy(items, Usage(statuses, CPU), Usage(statuses, MEM), cap);
             && !taken[i]
             && PlanAmount(plan, CPU) == Total(items, taken, CPU)
             && PlanAmount(plan, MEM) == Total(items, taken, MEM)
    ensures !RoomFor(statuses, plan, load, cap)
  {
    GreedyMaximal(items, Usage(statuses, CPU), Usage(statuses, MEM), cap, i);
  }

  lemma ChosenFits(planner: Planner, spec: Spec, statuses: Statuses, predictions: Predictions, i: nat)
    requires i < |spec.tasks| && Chosen(planner, spec, statuses, predictions)[i]
    ensures Go.Eligible(spec.tasks[i], statuses)
    ensures RoomFor(statuses, [], Demand(planner, spec.tasks[i], predictions), EffectiveCap(planner, spec))
  {
    TakenFits(Entries(planner, spec.tasks, statuses, predictions),
              Usage(statuses, CPU), Usage(statuses, MEM), EffectiveCap(planner, spec), i);
  }

  /** after is what becomes of the statuses once the plan has been launched. */
  ghost predicate IsLaunched(statuses: Statuses, plan: seq<TaskAllocation>, after: Statuses) {
    && after.Keys == statuses.Keys
    && (forall t :: t in after && after[t].phase != Running ==> after[t] == statuses[t])
    && (forall a :: a in plan ==> a.task in after && after[a.task].phase == Running)
    && Usage(after, CPU) == Usage(statuses, CPU) + PlanAmount(plan, CPU)
    && Usage(after, MEM) == Usage(statuses, MEM) + PlanAmount(plan, MEM)
  }

  lemma LaunchAllIsLaunched(workflow: string, statuses: Statuses, plan: seq<TaskAllocation>)
    requires forall a :: a in plan ==> a.task in statuses && statuses[a.task].phase == Pending
    requires DistinctTasks(plan)
    ensures IsLaunched(statuses, plan, LaunchAll(workflow, statuses, plan))
  {
    LaunchAllEffect(workflow, statuses, plan);
    LaunchAllUsage(workflow, statuses, plan, CPU);
    LaunchAllUsage(workflow, statuses, plan, MEM);
  }

  lemma LaunchedRoom(statuses: Statuses, plan: seq<TaskAllocation>, after: Statuses, load: Load, cap: Load)
    requires IsLaunched(statuses, plan, after)
    ensures RoomFor(after, [], load, cap) <==> RoomFor(statuses, plan, load, cap)
  {
  }

  lemma NothingMoreFits(planner: Planner, spec: Spec, statuses: Statuses, predictions: Predictions, after: Statuses,
                        i: nat)
    requires i < |spec.tasks| && statuses.Keys == Names(spec) && Tidy(planner, statuses)
    requires IsLaunched(statuses, PlanWith(planner, spec, statuses, predictions), after)
    ensures !Chosen(planner, spec, after, predictions)[i]
  {
    if Chosen(planner, spec, after, predictions)[i] {
      ChosenFits(planner, spec, after, predictions, i);
      Go.StillEligible(statuses, after, spec.tasks[i]);
      assert !Has(PlanWith(planner, spec, statuses, predictions), spec.tasks[i].name);
      PlanIsMaximal(planner, spec, statuses, predictions, i);
      LaunchedRoom(statuses, PlanWith(planner, spec, statuses, predictions), after,
                   Demand(planner, spec.tasks[i], predictions), EffectiveCap(planner, spec));
    }
  }

  lemma PlanLaunchesPending(planner: Planner, spec: Spec, statuses: Statuses, predictions: Predictions)
    requires statuses.Keys == Names(spec)
    ensures forall a :: a in PlanWith(planner, spec, statuses, predictions) ==>
              a.task in statuses && statuses[a.task].phase == Pending
  {
    forall a | a in PlanWith(planner, spec, statuses, predictions)
      ensures a.task in statuses && statuses[a.task].phase == Pending
    {
      PlanIsEligible(planner, spec, statuses, predictions, a);
    }
  }

  lemma LaunchedIsTidy(planner: Planner, workflow: string, spec: Spec, statuses: Statuses, predictions: Predictions)
    requires UniqueNames(spec) && statuses.Keys == Names(spec) && Tidy(planner, statuses)
    ensures Tidy(planner, LaunchAll(workflow, statuses, PlanWith(planner, spec, statuses, predictions)))
  {
    var plan := PlanWith(planner, spec, statuses, predictions);
    var after := LaunchAll(workflow, statuses, plan);
    PlanLaunchesPending(planner, spec, statuses, predictions);
    PlanIsDistinct(planner, spec, statuses, predictions);
    LaunchAllEffect(workflow, statuses, plan);
    forall t | t in after && planner != InProcess && after[t].phase == Running
      ensures Aligned(LoadOf(after[t].resources.requests))
    {
      if Has(plan, t) {
        var a :| a in plan && a.task == t;
        PlanIsEligible(planner, spec, statuses, predictions, a);
      }
    }
  }

  lemma NothingChosen(planner: Planner, spec: Spec, statuses: Statuses, predictions: Predictions)
    requires Tidy(planner, statuses)
    requires forall i :: 0 <= i < |spec.tasks| ==> !Chosen(planner, spec, statuses, predictions)[i]
    ensures PlanWith(planner, spec, statuses, predictions) == []
  {
    PlanIsScan(planner, spec, statuses, predictions);
    var chosen := Chosen(planner, spec, statuses, predictions);
    assert forall i :: 0 <= i < |chosen| ==> !chosen[i];
    PickNothing(Labelled(TaskNames(spec.tasks), Entries(planner, spec.tasks, statuses, predictions)), chosen);
  }

  /** Planning is a fixpoint: once a plan is applied, planning again with the same predictions starts
      nothing, whichever planner is configured. */
  lemma ReplanStartsNothing(planner: Planner, workflow: string, spec: Spec, statuses: Statuses,
                            predictions: Predictions)
    requires UniqueNames(spec) && statuses.Keys == Names(spec) && Tidy(planner, statuses)
    ensures PlanWith(planner, spec, LaunchAll(workflow, statuses, PlanWith(planner, spec, statuses, predictions)),
                     predictions) == []
  {
    var plan := PlanWith(planner, spec, statuses, predictions);
    var after := LaunchAll(workflow, statuses, plan);
    PlanLaunchesPending(planner, spec, statuses, predictions);
    PlanIsDistinct(planner, spec, statuses, predictions);
    LaunchAllIsLaunched(workflow, statuses, plan);
    LaunchedIsTidy(planner, workflow, spec, statuses, predictions);
    forall i | 0 <= i < |spec.tasks|
      ensures !Chosen(planner, spec, after, predictions)[i]
    {
      NothingMoreFits(planner, spec, statuses, predictions, after, i);
    }
    NothingChosen(planner, spec, after, predictions);
  }
}
