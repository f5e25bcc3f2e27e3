/** Steering a run: which tasks start is decided by what is predicted for them. */
module Staging {
  import opened Loads
  import opened Quantities
  import opened Workflow
  import opened Wire
  import opened Planning
  import opened Schedule
  import opened Machine
  import opened RunClean
  import opened Reconciling
  import opened ReconcileEffects
  import opened Levels
  import opened Ancestors
  import opened Rounds
  import opened Progress
  import opened CriticalPath
  import opened Witnesses
  import Go = GreedyPlanner

  // ---- Predictions that favour some tasks ----

  function Wish(load: Load): Requirements {
    Requirements(map[Cpu := load.cpu, Memory := load.mem], map[])
  }

  function TooMuch(cap: Load): Load {
    Load(cap.cpu + Millis(1), cap.mem + Mebis(1))
  }

  /** Free tasks ask for nothing, task t for the given load, and all others for more than the cap. */
  function Favouring(cfg: Config, free: set<string>, t: string, load: Load): Predictions {
    map u | u in Names(cfg.spec) ::
      if u in free then NOTHING
      else if u == t then Wish(load)
      else Wish(TooMuch(EffectiveCap(cfg.planner, cfg.spec)))
  }

  /** A load that reaches the configured planner undistorted. */
  ghost predicate Sendable(planner: Planner, load: Load) {
    planner == InProcess || Scale(ToWire(load)) == load
  }

  lemma DemandPredicted(planner: Planner, task: TaskTemplate, predictions: Predictions)
    requires task.name in predictions
    ensures var asked := LoadOf(predictions[task.name].requests);
            Demand(planner, task, predictions) == if planner == InProcess then asked else Scale(ToWire(asked))
  {
    LoadRoundTrip(SendLoad(predictions[task.name].requests));
  }

  lemma WishDemand(planner: Planner, task: TaskTemplate, predictions: Predictions, load: Load)
    requires task.name in predictions && predictions[task.name] == Wish(load) && Sendable(planner, load)
    ensures Demand(planner, task, predictions) == load
  {
    DemandPredicted(planner, task, predictions);
    assert LoadOf(Wish(load).requests) == load;
  }

  lemma NothingDemand(planner: Planner, task: TaskTemplate, predictions: Predictions)
    requires task.name in predictions && predictions[task.name] == NOTHING
    ensures Demand(planner, task, predictions).cpu == 0 && Demand(planner, task, predictions).mem == 0
  {
    DemandPredicted(planner, task, predictions);
  }

  lemma ScaledSendable(planner: Planner, l: Load)
    ensures Sendable(planner, Scale(l))
  {
    WireOfScale(l);
  }

  lemma TooMuchScaled(l: Load)
    ensures TooMuch(Scale(l)) == Scale(Load(l.cpu + 1, l.mem + 1))
  {
  }

  lemma CapSendable(planner: Planner, spec: Spec)
    ensures Sendable(planner, EffectiveCap(planner, spec)) && Sendable(planner, TooMuch(EffectiveCap(planner, spec)))
  {
    if planner != InProcess {
      var sent := ToWire(Cap(spec));
      ScaledSendable(planner, sent);
      TooMuchScaled(sent);
      ScaledSendable(planner, Load(sent.cpu + 1, sent.mem + 1));
    }
  }

  lemma TooMuchNeverFits(cap: Load)
    requires !Unlimited(cap)
    ensures !Fits(TooMuch(cap).cpu, TooMuch(cap).mem, cap)
  {
    UnlimitedIff(cap);
  }

  /** Only free tasks and t fit. */
  lemma FavouredFit(cfg: Config, free: set<string>, t: string, load: Load, i: nat)
    requires i < |cfg.spec.tasks| && !Unlimited(EffectiveCap(cfg.planner, cfg.spec))
    requires FitsAlone(cfg, cfg.spec.tasks[i], Favouring(cfg, free, t, load))
    ensures cfg.spec.tasks[i].name in free || cfg.spec.tasks[i].name == t
  {
    var task, predictions := cfg.spec.tasks[i], Favouring(cfg, free, t, load);
    if task.name !in free && task.name != t {
      var cap := EffectiveCap(cfg.planner, cfg.spec);
      CapSendable(cfg.planner, cfg.spec);
      WishDemand(cfg.planner, task, predictions, TooMuch(cap));
      TooMuchNeverFits(cap);
    }
  }

  lemma RoomForNothing(tasks: Statuses, plan: seq<TaskAllocation>, load: Load, cap: Load)
    requires BudgetKept(tasks, plan, cap) && load.cpu == 0 && load.mem == 0
    ensures RoomFor(tasks, plan, load, cap)
  {
  }

  /** An eligible task that asks for nothing is always planned. */
  lemma FreeIsPlanned(planner: Planner, spec: Spec, tasks: Statuses, predictions: Predictions, i: nat)
    requires Tidy(planner, tasks) && UsageFits(tasks, EffectiveCap(planner, spec))
    requires i < |spec.tasks| && Go.Eligible(spec.tasks[i], tasks)
    requires spec.tasks[i].name in predictions && predictions[spec.tasks[i].name] == NOTHING
    ensures spec.tasks[i].name in PlannedTasks(PlanWith(planner, spec, tasks, predictions))
  {
    var plan := PlanWith(planner, spec, tasks, predictions);
    NothingDemand(planner, spec.tasks[i], predictions);
    PlanWithinBudget(planner, spec, tasks, predictions);
    RoomForNothing(tasks, plan, Demand(planner, spec.tasks[i], predictions), EffectiveCap(planner, spec));
    if !Has(plan, spec.tasks[i].name) {
      PlanIsMaximal(planner, spec, tasks, predictions, i);
    }
  }

  // ---- Rounds that start exactly a closed set of tasks ----

  /** No pod belongs to a task that has not begun. */
  ghost predicate PodsBegun(cfg: Config, s: State) {
    forall n :: n in s.pods ==> s.pods[n].task in Begun(cfg.spec, s)
  }

  lemma {:induction false} CreatedTasks(workflow: string, pods: Pods, plan: seq<TaskAllocation>,
                                        creations: seq<CreateOutcome>, n: string)
    requires n in CreateAll(workflow, pods, plan, creations)
    ensures (n in pods && CreateAll(workflow, pods, plan, creations)[n] == pods[n])
            || CreateAll(workflow, pods, plan, creations)[n].task in PlannedTasks(plan)
    decreases |plan|
  {
    if plan != [] {
      assert plan[0] in plan && forall a :: a in plan[1..] ==> a in plan;
      assert plan[0].task in PlannedTasks(plan) && PlannedTasks(plan[1..]) <= PlannedTasks(plan);
      CreatedTasks(workflow, if First(creations) == Refused then pods else CreatePod(workflow, pods, plan[0]),
                   plan[1..], Later(creations), n);
    }
  }

  /** A round's pods are the old ones and those of planned tasks. */
  lemma RoundPods(cfg: Config, s: State, w: World, n: string)
    requires PodsNamed(cfg, s.pods) && Plans(cfg, s, w) && n in Round(cfg, s, w).pods
    ensures (n in s.pods && Round(cfg, s, w).pods[n].task == s.pods[n].task)
            || Round(cfg, s, w).pods[n].task in PlannedTasks(PlanOf(cfg, s, w))
  {
    PlansResult(cfg, s, w);
    CreatedTasks(cfg.workflow, s.pods, PlanOf(cfg, s, w), w.creations, n);
  }

  lemma RoundPodsBegun(cfg: Config, s: State, w: World)
    requires Nameable(cfg.spec) && Rested(cfg, s) && Smoothly(cfg, s, w) && Todo(s) != {} && PodsBegun(cfg, s)
    ensures PodsBegun(cfg, Round(cfg, s, w))
  {
    var after := Round(cfg, s, w);
    RoundBegun(cfg, s, w);
    ReachableIsSafe(cfg, s);
    ReachableIsSafe(cfg, after);
    forall n | n in after.pods
      ensures after.pods[n].task in Begun(cfg.spec, after)
    {
      RoundPods(cfg, s, w, n);
      BegunOrWaiting(cfg.spec, s, after.pods[n].task);
      BegunOrWaiting(cfg.spec, after, after.pods[n].task);
    }
  }

  lemma StagePlans(cfg: Config, s: State, w: World, tasks: set<string>, i: nat)
    requires Nameable(cfg.spec) && Rested(cfg, s) && i < |cfg.spec.tasks| && cfg.spec.tasks[i].name in Todo(s)
    requires !Unlimited(EffectiveCap(cfg.planner, cfg.spec)) && w.predictions == Favouring(cfg, tasks, "", Load(1, 1))
    ensures cfg.spec.tasks[i].name in PlannedTasks(PlanOf(cfg, s, w)) <==>
            cfg.spec.tasks[i].name in tasks && Ready(cfg.spec.tasks[i], Begun(cfg.spec, s))
  {
    var observed, t := Observed(cfg, s.pods, s.status.tasks), cfg.spec.tasks[i].name;
    EligibleIff(cfg, s, i);
    NothingRuns(cfg, s);
    LowerUniqueIsUnique(cfg.spec);
    ObservedFits(cfg, s);
    if t in tasks && Ready(cfg.spec.tasks[i], Begun(cfg.spec, s)) {
      FreeIsPlanned(cfg.planner, cfg.spec, observed, w.predictions, i);
    }
    if t in PlannedTasks(PlanOf(cfg, s, w)) {
      PlannedEntryIsEligible(cfg.planner, cfg.spec, observed, w.predictions, i);
      StagedFits(cfg, observed, w.predictions, i);
      FavouredFit(cfg, tasks, "", Load(1, 1), i);
    }
  }

  lemma StagedFits(cfg: Config, tasks: Statuses, predictions: Predictions, i: nat)
    requires UniqueNames(cfg.spec) && i < |cfg.spec.tasks|
    requires Tidy(cfg.planner, tasks) && UsageFits(tasks, EffectiveCap(cfg.planner, cfg.spec))
    requires cfg.spec.tasks[i].name in PlannedTasks(PlanWith(cfg.planner, cfg.spec, tasks, predictions))
    ensures FitsAlone(cfg, cfg.spec.tasks[i], predictions)
  {
    var a :| a in PlanWith(cfg.planner, cfg.spec, tasks, predictions) && a.task == cfg.spec.tasks[i].name;
    var j := PlannedFitsAlone(cfg, tasks, predictions, a);
    assert i == j;
  }

  lemma ClosedReady(spec: Spec, tasks: set<string>, done: set<string>, i: nat)
    requires Closed(spec, tasks) && i < |spec.tasks| && spec.tasks[i].name in tasks
    ensures Ready(spec.tasks[i], done * tasks) <==> Ready(spec.tasks[i], done)
  {
    assert Ready(spec.tasks[i], tasks);
  }

  /** One more level of a closed set. */
  lemma NextStage(spec: Spec, tasks: set<string>, before: set<string>, after: set<string>, planned: set<string>, k: nat)
    requires UniqueNames(spec) && Closed(spec, tasks) && before == Level(spec, k) * tasks
    requires after <= Names(spec) && Names(spec) - after == Names(spec) - before - planned
    requires forall i :: 0 <= i < |spec.tasks| && spec.tasks[i].name in Names(spec) - before ==>
               (spec.tasks[i].name in planned <==> spec.tasks[i].name in tasks && Ready(spec.tasks[i], before))
    ensures after == Level(spec, k + 1) * tasks
  {
    LevelsGrow(spec, k);
    LevelsAreNames(spec, k + 1);
    forall t | t in Names(spec)
      ensures t in after <==> t in Level(spec, k + 1) * tasks
    {
      var i :| 0 <= i < |spec.tasks| && spec.tasks[i].name == t;
      InNextLevel(spec, k, i);
      if t in tasks {
        ClosedReady(spec, tasks, Level(spec, k), i);
      }
      assert t in after <==> t !in Names(spec) - after;
    }
  }

  /** Everything in the first k levels of the set has succeeded, and nothing else has begun. */
  ghost predicate Staged(cfg: Config, s: State, tasks: set<string>, k: nat) {
    Rested(cfg, s) && PodsBegun(cfg, s) && Begun(cfg.spec, s) == Level(cfg.spec, k) * tasks
  }

  lemma OthersWait(cfg: Config, s: State, tasks: set<string>, t: string)
    requires Nameable(cfg.spec) && Rested(cfg, s) && Begun(cfg.spec, s) <= tasks && t in Names(cfg.spec) && t !in tasks
    ensures t in Todo(s)
  {
    RestedIsRecoverable(cfg, s);
    BegunOrWaiting(cfg.spec, s, t);
  }

  lemma StageRound(cfg: Config, s: State, w: World, tasks: set<string>, other: string, k: nat)
    requires Nameable(cfg.spec) && !Unlimited(EffectiveCap(cfg.planner, cfg.spec)) && Closed(cfg.spec, tasks)
    requires Staged(cfg, s, tasks, k) && other in Names(cfg.spec) && other !in tasks
    requires Smoothly(cfg, s, w) && w.predictions == Favouring(cfg, tasks, "", Load(1, 1))
    ensures Staged(cfg, Round(cfg, s, w), tasks, k + 1)
  {
    var after, planned := Round(cfg, s, w), PlannedTasks(PlanOf(cfg, s, w));
    OthersWait(cfg, s, tasks, other);
    RoundPodsBegun(cfg, s, w);
    RoundBegun(cfg, s, w);
    RestedIsRecoverable(cfg, s);
    LowerUniqueIsUnique(cfg.spec);
    forall i | 0 <= i < |cfg.spec.tasks| && cfg.spec.tasks[i].name in Waiting(cfg.spec, s)
      ensures cfg.spec.tasks[i].name in planned <==>
              cfg.spec.tasks[i].name in tasks && Ready(cfg.spec.tasks[i], Begun(cfg.spec, s))
    {
      StagePlans(cfg, s, w, tasks, i);
    }
    NextStage(cfg.spec, tasks, Begun(cfg.spec, s), Begun(cfg.spec, after), planned, k);
  }

  lemma StageStart(cfg: Config, w: World, tasks: set<string>)
    requires Nameable(cfg.spec) && Smoothly(cfg, START, w)
    ensures Staged(cfg, Round(cfg, START, w), tasks, 0)
  {
    FirstRound(cfg, w);
    RestedIsRecoverable(cfg, Round(cfg, START, w));
  }

  lemma {:induction false} StageLevels(cfg: Config, tasks: set<string>, other: string, k: nat) returns (s: State)
    requires Nameable(cfg.spec) && !Unlimited(EffectiveCap(cfg.planner, cfg.spec)) && Closed(cfg.spec, tasks)
    requires other in Names(cfg.spec) && other !in tasks
    ensures Staged(cfg, s, tasks, k)
  {
    if k == 0 {
      var w := Calm([], map[], []);
      StageStart(cfg, w, tasks);
      s := Round(cfg, START, w);
    } else {
      var before := StageLevels(cfg, tasks, other, k - 1);
      RestedIsRecoverable(cfg, before);
      var listing := ListRecoverable(cfg, before);
      var w := Calm(listing, Favouring(cfg, tasks, "", Load(1, 1)), []);
      StageRound(cfg, before, w, tasks, other, k - 1);
      s := Round(cfg, before, w);
    }
  }

  /** A run reaches a state in which exactly the tasks of a closed set have succeeded, no other has begun,
      and none of the others has a pod. */
  lemma Stage(cfg: Config, tasks: set<string>, other: string) returns (s: State)
    requires Nameable(cfg.spec) && !Unlimited(EffectiveCap(cfg.planner, cfg.spec)) && Closed(cfg.spec, tasks)
    requires other in Names(cfg.spec) && other !in tasks
    ensures Rested(cfg, s) && PodsBegun(cfg, s) && Begun(cfg.spec, s) == tasks
  {
    LowerUniqueIsUnique(cfg.spec);
    var k := LevelsReachStartable(cfg.spec);
    s := StageLevels(cfg, tasks, other, k);
    assert Level(cfg.spec, k) * tasks == tasks;
  }
}
