/** Planning through the optimizer service: how the three planners relate, and what the unit conversion
    does to the budget. */
module Remote {
  import opened Loads
  import opened Quantities
  import opened Packing
  import opened Workflow
  import opened Wire
  import Cpp = CppPlanner
  import Go = GreedyPlanner

  /** The plan the controller receives from the C++ service. */
  ghost function CppPlan(spec: Spec, statuses: Statuses, predictions: Predictions): seq<TaskAllocation> {
    Receive(Cpp.Planned(Request(spec, statuses, predictions)))
  }

  /** What the Go service answers to a request. */
  ghost function ServerPlanned(request: PlanRequest): seq<WireAllocation> {
    RespondAll(Go.Planned(ServerSpec(request), ServerStatuses(request.statuses),
                          ServerPredictions(request.predictions)))
  }

  /** The plan the controller receives from the Go service. */
  ghost function GoServerPlan(spec: Spec, statuses: Statuses, predictions: Predictions): seq<TaskAllocation> {
    Receive(ServerPlanned(Request(spec, statuses, predictions)))
  }

  method PlanThroughCpp(spec: Spec, statuses: Statuses, predictions: Predictions) returns (plan: seq<TaskAllocation>)
    ensures plan == CppPlan(spec, statuses, predictions)
  {
    var request := BuildRequest(spec, statuses, predictions);
    var response := Cpp.Plan(request);
    plan := ConvertResponse(response);
  }

  method ServePlan(request: PlanRequest) returns (response: seq<WireAllocation>)
    ensures response == ServerPlanned(request)
  {
    var spec := ProtoToSpec(request);
    var statuses := ProtoToTaskStatuses(request.statuses);
    var predictions := ProtoToPredictions(request.predictions);
    var plan := Go.Plan(spec, statuses, predictions);
    response := ConvertPlan(plan);
  }

  method PlanThroughGoServer(spec: Spec, statuses: Statuses, predictions: Predictions)
    returns (plan: seq<TaskAllocation>)
    ensures plan == GoServerPlan(spec, statuses, predictions)
  {
    var request := BuildRequest(spec, statuses, predictions);
    var response := ServePlan(request);
    plan := ConvertResponse(response);
  }

  // ---- Comparing scans ----

  /** What a candidate asks for; a candidate that is not ready asks for nothing. */
  function Asks(item: Candidate): Load {
    Load(Weight(item, CPU), Weight(item, MEM))
  }

  function Labelled(names: seq<string>, items: seq<Candidate>): seq<(string, Load)>
    requires |names| == |items|
  {
    seq(|names|, i requires 0 <= i < |names| => (names[i], Asks(items[i])))
  }

  /** Which tasks a scan starts, with what requests, in order. */
  function Started(names: seq<string>, items: seq<Candidate>, cpu: nat, mem: nat, cap: Load): seq<(string, Load)>
    requires |names| == |items|
  {
    Scan(Labelled(names, items), items, cpu, mem, cap)
  }

  lemma StartedFirst(names: seq<string>, items: seq<Candidate>, cpu: nat, mem: nat, cap: Load)
    requires |names| == |items| && items != []
    ensures Started(names, items, cpu, mem, cap) ==
            if Takes(items[0], cpu, mem, cap) then
              [(names[0], items[0].load)]
              + Started(names[1..], items[1..], cpu + items[0].load.cpu, mem + items[0].load.mem, cap)
            else Started(names[1..], items[1..], cpu, mem, cap)
  {
    ScanFirst(Labelled(names, items), items, cpu, mem, cap);
    assert Labelled(names, items)[1..] == Labelled(names[1..], items[1..]);
    assert items[0].Ready? ==> Labelled(names, items)[0] == (names[0], items[0].load);
  }

  lemma StartedSound(names: seq<string>, items: seq<Candidate>, cpu: nat, mem: nat, cap: Load, x: (string, Load))
    requires |names| == |items| && x in Started(names, items, cpu, mem, cap)
    ensures exists j :: 0 <= j < |items| && names[j] == x.0 && items[j] == Ready(x.1)
  {
    var taken := Greedy(items, cpu, mem, cap);
    PickSound(Labelled(names, items), taken, x);
    var j :| 0 <= j < |items| && taken[j] && Labelled(names, items)[j] == x;
    assert items[j] == Ready(x.1);
  }

  /** Scan a asks for nothing where scan b insists on something. */
  predicate Disagree(a: Candidate, b: Candidate) {
    a == Ready(Load(0, 0)) && b.Ready? && b.load != Load(0, 0)
  }

  /** Two scans differ at most by such entries, and b never asks for nothing under such an entry's name. */
  ghost predicate NearlyEqual(names: seq<string>, a: seq<Candidate>, b: seq<Candidate>) {
    && |names| == |a| == |b|
    && (forall i :: 0 <= i < |a| ==> a[i] == b[i] || Disagree(a[i], b[i]))
    && (forall i, j :: 0 <= i < |a| && 0 <= j < |a| && Disagree(a[i], b[i]) && names[j] == names[i] ==>
          b[j] != Ready(Load(0, 0)))
  }

  lemma HeadsDiverge(names: seq<string>, a: seq<Candidate>, b: seq<Candidate>, cpu: nat, mem: nat, cap: Load)
    requires NearlyEqual(names, a, b) && Fits(cpu, mem, cap) && a != [] && Disagree(a[0], b[0])
    ensures Started(names, a, cpu, mem, cap) != Started(names, b, cpu, mem, cap)
  {
    var nothing := (names[0], a[0].load);
    StartedFirst(names, a, cpu, mem, cap);
    assert Started(names, a, cpu, mem, cap)[0] == nothing;
    if nothing in Started(names, b, cpu, mem, cap) {
      StartedSound(names, b, cpu, mem, cap, nothing);
    }
  }

  /** One disagreement is enough to tell the results apart, whatever else the budget lets through. */
  lemma {:induction false} ScansDiverge(names: seq<string>, a: seq<Candidate>, b: seq<Candidate>,
                                        cpu: nat, mem: nat, cap: Load, i: nat)
    requires NearlyEqual(names, a, b) && Fits(cpu, mem, cap)
    requires i < |a| && Disagree(a[i], b[i])
    ensures Started(names, a, cpu, mem, cap) != Started(names, b, cpu, mem, cap)
  {
    if Disagree(a[0], b[0]) {
      HeadsDiverge(names, a, b, cpu, mem, cap);
    } else {
      TailNearlyEqual(names, a, b);
      if Takes(a[0], cpu, mem, cap) {
        ScansDiverge(names[1..], a[1..], b[1..], cpu + a[0].load.cpu, mem + a[0].load.mem, cap, i - 1);
      } else {
        ScansDiverge(names[1..], a[1..], b[1..], cpu, mem, cap, i - 1);
      }
      TailsDiverge(names, a, b, cpu, mem, cap);
    }
  }

  lemma TailsDiverge(names: seq<string>, a: seq<Candidate>, b: seq<Candidate>, cpu: nat, mem: nat, cap: Load)
    requires |names| == |a| == |b| && a != [] && a[0] == b[0]
    requires if Takes(a[0], cpu, mem, cap) then
               Started(names[1..], a[1..], cpu + a[0].load.cpu, mem + a[0].load.mem, cap) !=
               Started(names[1..], b[1..], cpu + a[0].load.cpu, mem + a[0].load.mem, cap)
             else Started(names[1..], a[1..], cpu, mem, cap) != Started(names[1..], b[1..], cpu, mem, cap)
    ensures Started(names, a, cpu, mem, cap) != Started(names, b, cpu, mem, cap)
  {
    StartedFirst(names, a, cpu, mem, cap);
    StartedFirst(names, b, cpu, mem, cap);
    if Takes(a[0], cpu, mem, cap) {
      assert Started(names, a, cpu, mem, cap)[1..] != Started(names, b, cpu, mem, cap)[1..];
    }
  }

  lemma TailNearlyEqual(names: seq<string>, a: seq<Candidate>, b: seq<Candidate>)
    requires NearlyEqual(names, a, b) && a != []
    ensures NearlyEqual(names[1..], a[1..], b[1..])
  {
    forall i, j | 0 <= i < |a| - 1 && 0 <= j < |a| - 1
                  && Disagree(a[1..][i], b[1..][i]) && names[1..][j] == names[1..][i]
      ensures b[1..][j] != Ready(Load(0, 0))
    {
      assert Disagree(a[i + 1], b[i + 1]) && names[j + 1] == names[i + 1];
    }
  }

  lemma {:induction false} StartedOverBudget(names: seq<string>, items: seq<Candidate>, cpu: nat, mem: nat, cap: Load)
    requires |names| == |items| && !Fits(cpu, mem, cap)
    ensures Started(names, items, cpu, mem, cap) == []
  {
    if items != [] {
      StartedFirst(names, items, cpu, mem, cap);
      StartedOverBudget(names[1..], items[1..], cpu, mem, cap);
    }
  }

  /** Two nearly equal scans start the same tasks with the same requests exactly when they disagree
      nowhere, or the budget is already exceeded and both start nothing. */
  lemma ScansAgreeIff(names: seq<string>, a: seq<Candidate>, b: seq<Candidate>, cpu: nat, mem: nat, cap: Load)
    requires NearlyEqual(names, a, b)
    ensures Started(names, a, cpu, mem, cap) == Started(names, b, cpu, mem, cap) <==>
            !Fits(cpu, mem, cap) || forall i :: 0 <= i < |a| ==> !Disagree(a[i], b[i])
  {
    if !Fits(cpu, mem, cap) {
      StartedOverBudget(names, a, cpu, mem, cap);
      StartedOverBudget(names, b, cpu, mem, cap);
    } else if i :| 0 <= i < |a| && Disagree(a[i], b[i]) {
      ScansDiverge(names, a, b, cpu, mem, cap, i);
    } else {
      assert a == b;
    }
  }

  // ---- From plans to scans ----

  /** The tasks a plan starts, with their requests, in order. */
  function StartedIn(plan: seq<TaskAllocation>): seq<(string, Load)> {
    if plan == [] then [] else [(plan[0].task, LoadOf(plan[0].resources.requests))] + StartedIn(plan[1..])
  }

  lemma {:induction false} StartedInPick(labels: seq<(string, Load)>, offers: seq<TaskAllocation>, taken: seq<bool>)
    requires |labels| == |offers| == |taken|
    requires forall i :: 0 <= i < |taken| && taken[i] ==>
               labels[i] == (offers[i].task, LoadOf(offers[i].resources.requests))
    ensures StartedIn(Pick(offers, taken)) == Pick(labels, taken)
  {
    if offers != [] {
      var rest := Pick(offers[1..], taken[1..]);
      StartedInPick(labels[1..], offers[1..], taken[1..]);
      if taken[0] {
        assert Pick(offers, taken) == [offers[0]] + rest;
        assert ([offers[0]] + rest)[1..] == rest;
      } else {
        assert Pick(offers, taken) == rest;
      }
    }
  }

  lemma StartedInScan(names: seq<string>, offers: seq<TaskAllocation>, items: seq<Candidate>,
                      cpu: nat, mem: nat, cap: Load)
    requires |names| == |items| && Matches(offers, items)
    requires forall i :: 0 <= i < |names| ==> offers[i].task == names[i]
    ensures StartedIn(Pick(offers, Greedy(items, cpu, mem, cap))) == Started(names, items, cpu, mem, cap)
  {
    StartedInPick(Labelled(names, items), offers, Greedy(items, cpu, mem, cap));
  }

  lemma {:induction false} ReceivePick(offers: seq<WireAllocation>, taken: seq<bool>)
    requires |offers| == |taken|
    ensures Receive(Pick(offers, taken)) == Pick(Receive(offers), taken)
  {
    if offers != [] {
      ReceivePick(offers[1..], taken[1..]);
      assert Receive(offers)[1..] == Receive(offers[1..]);
      var rest := Pick(offers[1..], taken[1..]);
      assert Pick(offers, taken) == (if taken[0] then [offers[0]] else []) + rest;
    }
  }

  // ---- Scaling: the wire scan and the full-resolution scan make the same choices ----

  function ScaleItem(item: Candidate): Candidate {
    if item.Ready? then Ready(Scale(item.load)) else Skip
  }

  function ScaleItems(items: seq<Candidate>): seq<Candidate> {
    seq(|items|, i requires 0 <= i < |items| => ScaleItem(items[i]))
  }

  lemma {:induction false} GreedyScaled(items: seq<Candidate>, cpu: nat, mem: nat, cap: Load)
    ensures Greedy(ScaleItems(items), Millis(cpu), Mebis(mem), Scale(cap)) == Greedy(items, cpu, mem, cap)
  {
    if items != [] {
      assert ScaleItems(items)[1..] == ScaleItems(items[1..]);
      if Greedy(items, cpu, mem, cap)[0] {
        GreedyScaled(items[1..], cpu + items[0].load.cpu, mem + items[0].load.mem, cap);
      } else {
        GreedyScaled(items[1..], cpu, mem, cap);
      }
    }
  }

  /** A wire scan, received by the controller, is the full-resolution scan over the scaled candidates. */
  lemma ReceivedScan(names: seq<string>, offers: seq<WireAllocation>, items: seq<Candidate>, cpu: nat, mem: nat,
                     cap: Load)
    requires |names| == |items| == |offers|
    requires forall i :: 0 <= i < |names| ==> offers[i].task == names[i]
    requires forall i :: 0 <= i < |names| && items[i].Ready? ==> items[i].load == offers[i].request
    ensures StartedIn(Receive(Pick(offers, Greedy(items, cpu, mem, cap)))) ==
            Started(names, ScaleItems(items), Millis(cpu), Mebis(mem), Scale(cap))
  {
    GreedyScaled(items, cpu, mem, cap);
    ReceivePick(offers, Greedy(items, cpu, mem, cap));
    StartedInScan(names, Receive(offers), ScaleItems(items), Millis(cpu), Mebis(mem), Scale(cap));
  }

  ghost predicate AlignedStatuses(statuses: Statuses) {
    forall t :: t in statuses && statuses[t].phase == Running ==> Aligned(LoadOf(statuses[t].resources.requests))
  }

  ghost predicate AlignedPlan(plan: seq<TaskAllocation>) {
    forall a :: a in plan ==> Aligned(LoadOf(a.resources.requests))
  }

  lemma SentUsage(statuses: Statuses)
    requires AlignedStatuses(statuses)
    ensures var sent := map t | t in statuses :: SendStatus(statuses[t]);
            && Usage(statuses, CPU) == Millis(Cpp.Usage(sent, CPU))
            && Usage(statuses, MEM) == Mebis(Cpp.Usage(sent, MEM))
  {
    var sent := map t | t in statuses :: SendStatus(statuses[t]);
    forall t | t in statuses
      ensures Share(statuses[t], CPU) == Millis(Cpp.Share(sent[t], CPU))
      ensures Share(statuses[t], MEM) == Mebis(Cpp.Share(sent[t], MEM))
    {
      ScaleOfWire(LoadOf(statuses[t].resources.requests));
    }
    SumWidened(Cpp.Shares(sent, CPU), Shares(statuses, CPU), CPU);
    SumWidened(Cpp.Shares(sent, MEM), Shares(statuses, MEM), MEM);
  }
}
