/** Whether MaxResources bounds what the live pods request, which depends on the workflow. */
module PodCeiling {
  import opened Loads
  import opened Quantities
  import opened Workflow
  import opened Planning
  import opened Schedule
  import opened Machine
  import opened RunSafety
  import opened RunBudget
  import opened RunBlocked
  import opened RunClean
  import opened Reconciling
  import opened ReconcileEffects
  import opened Repeating
  import opened Outcomes
  import opened Levels
  import opened Ancestors
  import opened PodBudget
  import opened Rounds
  import opened Progress
  import opened CriticalPath
  import opened Witnesses
  import opened Staging
  import Go = GreedyPlanner

  // ---- Starting one task and crashing ----

  /** The next sync will find exactly these tasks succeeded, and everything else Pending. */
  ghost predicate Poised(cfg: Config, s: State, done: set<string>) {
    && Recoverable(cfg, s)
    && s.status.tasks.Keys == Names(cfg.spec)
    && !TerminalWorkflow(s.status.phase)
    && Settled(cfg, Observed(cfg, s.pods, s.status.tasks), done)
  }

  ghost predicate Settled(cfg: Config, tasks: Statuses, done: set<string>) {
    && tasks.Keys == Names(cfg.spec)
    && forall t :: t in tasks ==> tasks[t].phase == if t in done then Succeeded else Pending
  }

  lemma RestedIsPoised(cfg: Config, s: State, done: set<string>, other: string)
    requires Nameable(cfg.spec) && Rested(cfg, s) && Begun(cfg.spec, s) == done
    requires other in Names(cfg.spec) && other !in done
    ensures Poised(cfg, s, done)
  {
    RestedIsRecoverable(cfg, s);
    RestedObserves(cfg, s);
    OthersWait(cfg, s, done, other);
    ReachableIsSafe(cfg, s);
    forall t | t in Names(cfg.spec)
      ensures t in Todo(s) <==> t !in done
    {
      BegunOrWaiting(cfg.spec, s, t);
    }
  }

  lemma SettledIsIdle(cfg: Config, tasks: Statuses, done: set<string>)
    requires Settled(cfg, tasks, done)
    ensures Usage(tasks, CPU) == 0 && Usage(tasks, MEM) == 0 && Tidy(cfg.planner, tasks) && !AnyFailed(tasks)
  {
    NoUsage(tasks, CPU);
    NoUsage(tasks, MEM);
  }

  lemma SettledEligible(cfg: Config, tasks: Statuses, done: set<string>, i: nat)
    requires Settled(cfg, tasks, done) && done <= Names(cfg.spec) && i < |cfg.spec.tasks|
    requires cfg.spec.tasks[i].name !in done && Ready(cfg.spec.tasks[i], done)
    ensures Go.Eligible(cfg.spec.tasks[i], tasks) && !AllSucceeded(tasks)
  {
    assert cfg.spec.tasks[i].name in tasks;
  }

  lemma OnlyFavoured(cfg: Config, tasks: Statuses, i: nat, load: Load)
    requires i < |cfg.spec.tasks| && !Unlimited(EffectiveCap(cfg.planner, cfg.spec))
    requires Tidy(cfg.planner, tasks) && UsageFits(tasks, EffectiveCap(cfg.planner, cfg.spec))
    ensures forall a :: a in PlanWith(cfg.planner, cfg.spec, tasks,
                                      Favouring(cfg, {}, cfg.spec.tasks[i].name, load)) ==>
              a.task == cfg.spec.tasks[i].name
  {
    var predictions := Favouring(cfg, {}, cfg.spec.tasks[i].name, load);
    forall a | a in PlanWith(cfg.planner, cfg.spec, tasks, predictions)
      ensures a.task == cfg.spec.tasks[i].name
    {
      var j := PlannedFitsAlone(cfg, tasks, predictions, a);
      FavouredFit(cfg, {}, cfg.spec.tasks[i].name, load, j);
    }
  }

  /** The favoured task, and no other, is planned. */
  lemma FavouredPlan(cfg: Config, tasks: Statuses, done: set<string>, i: nat, load: Load) returns (a: TaskAllocation)
    requires UniqueNames(cfg.spec) && Settled(cfg, tasks, done) && done <= Names(cfg.spec)
    requires i < |cfg.spec.tasks| && cfg.spec.tasks[i].name !in done && Ready(cfg.spec.tasks[i], done)
    requires !Unlimited(EffectiveCap(cfg.planner, cfg.spec))
    requires Sendable(cfg.planner, load) && Fits(load.cpu, load.mem, EffectiveCap(cfg.planner, cfg.spec))
    ensures PlanWith(cfg.planner, cfg.spec, tasks, Favouring(cfg, {}, cfg.spec.tasks[i].name, load)) == [a]
    ensures a.task == cfg.spec.tasks[i].name && LoadOf(a.resources.requests) == load
  {
    var predictions := Favouring(cfg, {}, cfg.spec.tasks[i].name, load);
    SettledIsIdle(cfg, tasks, done);
    SettledEligible(cfg, tasks, done, i);
    assert cfg.spec.tasks[i].name in Names(cfg.spec);
    WishDemand(cfg.planner, cfg.spec.tasks[i], predictions, load);
    IdleFits(tasks, EffectiveCap(cfg.planner, cfg.spec));
    OnlyFavoured(cfg, tasks, i, load);
    a := SoloPlan(cfg.planner, cfg.spec, tasks, predictions, i);
  }

  lemma IdleFits(tasks: Statuses, cap: Load)
    requires Usage(tasks, CPU) == 0 && Usage(tasks, MEM) == 0
    ensures UsageFits(tasks, cap)
  {
  }

  /** A Reconcile whose final write fails leaves its pods behind and nothing else. */
  lemma CrashResult(cfg: Config, s: State, w: World)
    requires Sees(s, w) && w.listOk && w.planOk && !w.writeOk && PodsNamed(cfg, s.pods)
    requires s.status.tasks != map[] && !TerminalWorkflow(s.status.phase)
    requires !AnyFailed(Observed(cfg, s.pods, s.status.tasks)) && !AllSucceeded(Observed(cfg, s.pods, s.status.tasks))
    ensures Reconcile(cfg, s, w).status == s.status
    ensures Reconcile(cfg, s, w).pods == CreateAll(cfg.workflow, s.pods, PlanOf(cfg, s, w), w.creations)
  {
    SyncIgnoresOrder(cfg, s.pods, w.listing, s.status.tasks);
  }

  lemma CreateObserves(cfg: Config, pods: Pods, a: TaskAllocation, tasks: Statuses)
    ensures Observed(cfg, CreatePod(cfg.workflow, pods, a), tasks) == Observed(cfg, pods, tasks)
  {
    var after := CreatePod(cfg.workflow, pods, a);
    forall t | t in tasks
      ensures HasEnded(cfg, after, t) == HasEnded(cfg, pods, t)
      ensures PodIs(cfg, after, t, PodSucceeded) == PodIs(cfg, pods, t, PodSucceeded)
    {
      CreatePodEnds(cfg, pods, a, t);
    }
  }

  function WithPod(cfg: Config, pods: Pods, t: string, r: Requirements): Pods {
    pods[PodName(cfg.workflow, t) := Pod(PodName(cfg.workflow, t), t, r, PodPending)]
  }

  lemma CrashLeaves(cfg: Config, s: State, done: set<string>, w: World, a: TaskAllocation)
    requires Poised(cfg, s, done) && Sees(s, w) && w.listOk && w.planOk && !w.writeOk && w.creations == []
    requires PlanOf(cfg, s, w) == [a] && PodName(cfg.workflow, a.task) !in s.pods
    requires s.status.tasks != map[] && !AllSucceeded(Observed(cfg, s.pods, s.status.tasks))
    ensures Poised(cfg, Reconcile(cfg, s, w), done)
    ensures Reconcile(cfg, s, w).pods == WithPod(cfg, s.pods, a.task, a.resources)
  {
    ReachableIsSafe(cfg, s);
    SettledIsIdle(cfg, Observed(cfg, s.pods, s.status.tasks), done);
    CrashResult(cfg, s, w);
    ReconcileStaysReachable(cfg, s, w);
    CreateOnly(cfg.workflow, s.pods, a);
    PoisedWithPod(cfg, s, Reconcile(cfg, s, w), done, a);
  }

  lemma PoisedWithPod(cfg: Config, s: State, after: State, done: set<string>, a: TaskAllocation)
    requires Poised(cfg, s, done) && Reachable(cfg, after) && after.activity == Idle
    requires after.status == s.status && after.pods == CreatePod(cfg.workflow, s.pods, a)
    ensures Poised(cfg, after, done)
  {
    CreateObserves(cfg, s.pods, a, s.status.tasks);
    forall n | n in after.pods
      ensures after.pods[n].phase != PodFailed
    {
      assert n in s.pods ==> s.pods[n].phase != PodFailed;
    }
  }

  lemma CreateOnly(workflow: string, pods: Pods, a: TaskAllocation)
    ensures CreateAll(workflow, pods, [a], []) == CreatePod(workflow, pods, a)
  {
    assert CreateAll(workflow, CreatePod(workflow, pods, a), [], []) == CreatePod(workflow, pods, a);
  }

  /** A task that is ready is started with any load that fits, and the write is lost: the status does not
      change, but the pod is there. */
  lemma CrashStart(cfg: Config, s: State, done: set<string>, i: nat, load: Load) returns (after: State, r: Requirements)
    requires Nameable(cfg.spec) && Poised(cfg, s, done) && done <= Names(cfg.spec)
    requires i < |cfg.spec.tasks| && cfg.spec.tasks[i].name !in done && Ready(cfg.spec.tasks[i], done)
    requires PodName(cfg.workflow, cfg.spec.tasks[i].name) !in s.pods
    requires !Unlimited(EffectiveCap(cfg.planner, cfg.spec))
    requires Sendable(cfg.planner, load) && Fits(load.cpu, load.mem, EffectiveCap(cfg.planner, cfg.spec))
    ensures Poised(cfg, after, done) && LoadOf(r.requests) == load
    ensures after.pods == WithPod(cfg, s.pods, cfg.spec.tasks[i].name, r)
  {
    var observed := Observed(cfg, s.pods, s.status.tasks);
    var listing := ListRecoverable(cfg, s);
    var w := World(true, listing, Favouring(cfg, {}, cfg.spec.tasks[i].name, load), true, [], false);
    LowerUniqueIsUnique(cfg.spec);
    SettledEligible(cfg, observed, done, i);
    var a := FavouredPlan(cfg, observed, done, i, load);
    NamesExist(cfg.spec);
    CrashLeaves(cfg, s, done, w, a);
    after, r := Reconcile(cfg, s, w), a.resources;
  }

  // ---- What the live pods then request ----

  lemma TwoLive(pods: Pods, n: string, m: string, d: Dim)
    requires n in pods && m in pods && n != m && !TerminalPod(pods[n].phase) && !TerminalPod(pods[m].phase)
    ensures Amount(pods[n].resources.requests, d) + Amount(pods[m].resources.requests, d) <= LiveUsage(pods, d)
  {
    SumCoversTwo(LiveShares(pods, d), n, m);
  }

  lemma OneLive(pods: Pods, n: string, d: Dim)
    requires n in pods && !TerminalPod(pods[n].phase)
    ensures Amount(pods[n].resources.requests, d) <= LiveUsage(pods, d)
  {
    SumCoversOne(LiveShares(pods, d), n);
  }

  lemma NoPodYet(cfg: Config, s: State, t: string)
    requires LowerUnique(cfg.spec) && Reachable(cfg, s) && PodsBegun(cfg, s)
    requires t in Names(cfg.spec) && t !in Begun(cfg.spec, s)
    ensures PodName(cfg.workflow, t) !in s.pods
  {
    ReachableIsSafe(cfg, s);
    var n := PodName(cfg.workflow, t);
    if n in s.pods {
      PodNameClash(cfg.workflow, t, s.pods[n].task);
      LowerUniqueNames(cfg.spec, t, s.pods[n].task);
    }
  }

  lemma NotBelowItself(spec: Spec, tops: set<string>, t: string)
    requires UniqueNames(spec) && t in tops && tops <= Startable(spec)
    requires forall a :: a in tops && a != t ==> !Above(spec, a, t)
    ensures t !in Below(spec, tops)
  {
    if t in Below(spec, tops) {
      var a :| a in tops && Above(spec, a, t);
      AboveItselfIsStuck(spec, t);
    }
  }

  /** Two startable tasks of which neither depends on the other are, after two lost writes, alive together,
      each with the whole cap. */
  lemma Overcommit(cfg: Config, i: nat, j: nat) returns (s: State, r: Requirements, q: Requirements)
    requires Nameable(cfg.spec) && !Unlimited(EffectiveCap(cfg.planner, cfg.spec))
    requires i < |cfg.spec.tasks| && j < |cfg.spec.tasks| && cfg.spec.tasks[i].name != cfg.spec.tasks[j].name
    requires cfg.spec.tasks[i].name in Startable(cfg.spec) && cfg.spec.tasks[j].name in Startable(cfg.spec)
    requires !Comparable(cfg.spec, cfg.spec.tasks[i].name, cfg.spec.tasks[j].name)
    ensures Reachable(cfg, s)
    ensures var n, m := PodName(cfg.workflow, cfg.spec.tasks[i].name), PodName(cfg.workflow, cfg.spec.tasks[j].name);
            && n != m && n in s.pods && m in s.pods
            && s.pods[n] == Pod(n, cfg.spec.tasks[i].name, r, PodPending)
            && s.pods[m] == Pod(m, cfg.spec.tasks[j].name, q, PodPending)
    ensures LoadOf(r.requests) == LoadOf(q.requests) == EffectiveCap(cfg.planner, cfg.spec)
  {
    var a, b := cfg.spec.tasks[i].name, cfg.spec.tasks[j].name;
    var cap, done := EffectiveCap(cfg.planner, cfg.spec), Below(cfg.spec, {a, b});
    LowerUniqueIsUnique(cfg.spec);
    BelowIsClosed(cfg.spec, {a, b});
    NotBelowItself(cfg.spec, {a, b}, a);
    NotBelowItself(cfg.spec, {a, b}, b);
    var staged := Stage(cfg, done, a);
    RestedIsPoised(cfg, staged, done, a);
    NoPodYet(cfg, staged, a);
    NoPodYet(cfg, staged, b);
    DistinctPods(cfg, a, b);
    CapSendable(cfg.planner, cfg.spec);
    CapFits(cap);
    var first;
    first, r := CrashStart(cfg, staged, done, i, cap);
    s, q := CrashStart(cfg, first, done, j, cap);
  }

  lemma CapFits(cap: Load)
    ensures Fits(cap.cpu, cap.mem, cap)
  {
  }

  // ---- A single pod with any load that passes the planner's check ----

  /** A state in which this task's pod is alive with these resources. */
  ghost predicate Runs(cfg: Config, s: State, t: string, r: Requirements) {
    var n := PodName(cfg.workflow, t);
    Reachable(cfg, s) && n in s.pods && s.pods[n] == Pod(n, t, r, PodPending)
  }

  lemma SingleLimited(cfg: Config, i: nat, load: Load) returns (s: State, r: Requirements)
    requires Nameable(cfg.spec) && !Unlimited(EffectiveCap(cfg.planner, cfg.spec))
    requires i < |cfg.spec.tasks| && cfg.spec.tasks[i].name in Startable(cfg.spec)
    requires Sendable(cfg.planner, load) && Fits(load.cpu, load.mem, EffectiveCap(cfg.planner, cfg.spec))
    ensures Runs(cfg, s, cfg.spec.tasks[i].name, r) && LoadOf(r.requests) == load
  {
    var t := cfg.spec.tasks[i].name;
    var done := Below(cfg.spec, {t});
    LowerUniqueIsUnique(cfg.spec);
    BelowIsClosed(cfg.spec, {t});
    NotBelowItself(cfg.spec, {t}, t);
    var staged := Stage(cfg, done, t);
    RestedIsPoised(cfg, staged, done, t);
    NoPodYet(cfg, staged, t);
    s, r := CrashStart(cfg, staged, done, i, load);
  }

  lemma {:induction false} FirstLevel(spec: Spec, t: string, k: nat) returns (first: nat)
    requires t in Level(spec, k)
    ensures t !in Level(spec, first) && t in Level(spec, first + 1)
  {
    if t in Level(spec, k - 1) {
      first := FirstLevel(spec, t, k - 1);
    } else {
      first := k - 1;
    }
  }

  lemma {:induction false} SmoothPodsBegun(cfg: Config, ws: seq<World>, t: string)
    requires Nameable(cfg.spec) && Smooth(cfg, START, ws) && ws != []
    requires t in Names(cfg.spec) && t !in Begun(cfg.spec, After(cfg, START, ws))
    ensures PodsBegun(cfg, After(cfg, START, ws))
    decreases |ws|
  {
    if |ws| == 1 {
      FirstPodsBegun(cfg, ws);
    } else {
      var front := ws[..|ws| - 1];
      StartRounds(cfg, front);
      BegunGrows(cfg, After(cfg, START, front), ws[|ws| - 1]);
      SmoothPodsBegun(cfg, front, t);
      RoundPodsStillBegun(cfg, After(cfg, START, front), ws[|ws| - 1], t);
    }
  }

  lemma BegunGrows(cfg: Config, s: State, w: World)
    requires Nameable(cfg.spec) && Rested(cfg, s) && Sees(s, w)
    ensures Begun(cfg.spec, s) <= Begun(cfg.spec, Round(cfg, s, w))
  {
    RestedIsRecoverable(cfg, s);
    RoundIsReachable(cfg, s, w);
  }

  lemma LevelState(cfg: Config, ws: seq<World>, k: nat)
    requires Nameable(cfg.spec) && Smooth(cfg, START, ws) && |ws| == k + 1
    requires Unlimited(EffectiveCap(cfg.planner, cfg.spec))
    ensures Rested(cfg, After(cfg, START, ws)) && Begun(cfg.spec, After(cfg, START, ws)) == Level(cfg.spec, k)
  {
    RoundsAreLevels(cfg, ws);
    StartRounds(cfg, ws);
  }

  lemma FirstPodsBegun(cfg: Config, ws: seq<World>)
    requires Nameable(cfg.spec) && Smooth(cfg, START, ws) && |ws| == 1
    ensures PodsBegun(cfg, After(cfg, START, ws))
  {
    assert ws[..0] == [];
    StageStart(cfg, ws[0], {});
  }

  lemma RoundPodsStillBegun(cfg: Config, s: State, w: World, t: string)
    requires Nameable(cfg.spec) && Rested(cfg, s) && Smoothly(cfg, s, w) && PodsBegun(cfg, s)
    requires t in Names(cfg.spec) && t !in Begun(cfg.spec, s)
    ensures PodsBegun(cfg, Round(cfg, s, w))
  {
    OthersWait(cfg, s, Begun(cfg.spec, s), t);
    RoundPodsBegun(cfg, s, w);
  }

  /** Without a cap in the planner's eyes: the state just before the level of task t begins. */
  lemma BeforeLevel(cfg: Config, i: nat) returns (s: State)
    requires Nameable(cfg.spec) && Unlimited(EffectiveCap(cfg.planner, cfg.spec))
    requires i < |cfg.spec.tasks| && cfg.spec.tasks[i].name in Startable(cfg.spec)
    ensures Rested(cfg, s) && PodsBegun(cfg, s) && cfg.spec.tasks[i].name in Todo(s)
    ensures Ready(cfg.spec.tasks[i], Begun(cfg.spec, s)) && cfg.spec.tasks[i].name !in Begun(cfg.spec, s)
  {
    var t := cfg.spec.tasks[i].name;
    LowerUniqueIsUnique(cfg.spec);
    StartWaits(cfg);
    var last := LevelsReachStartable(cfg.spec);
    var k := FirstLevel(cfg.spec, t, last);
    var ws := SmoothRoundsExist(cfg, START, map[], k + 1);
    s := After(cfg, START, ws);
    LevelState(cfg, ws, k);
    SmoothPodsBegun(cfg, ws, t);
    InNextLevel(cfg.spec, k, i);
    OthersWait(cfg, s, Level(cfg.spec, k), t);
  }

  lemma SingleUnlimited(cfg: Config, i: nat, load: Load) returns (s: State, r: Requirements)
    requires Nameable(cfg.spec) && Unlimited(EffectiveCap(cfg.planner, cfg.spec))
    requires i < |cfg.spec.tasks| && cfg.spec.tasks[i].name in Startable(cfg.spec) && Sendable(cfg.planner, load)
    ensures Runs(cfg, s, cfg.spec.tasks[i].name, r) && LoadOf(r.requests) == load
  {
    var t := cfg.spec.tasks[i].name;
    var before := BeforeLevel(cfg, i);
    RestedIsRecoverable(cfg, before);
    var listing := ListRecoverable(cfg, before);
    var w := Calm(listing, map[t := Wish(load)], []);
    var a := UnlimitedPlan(cfg, before, w, i, load);
    MiddleRoundPlans(cfg, before, w);
    ReachableIsSafe(cfg, before);
    NoPodYet(cfg, before, t);
    PlansResult(cfg, before, w);
    LowerUniqueIsUnique(cfg.spec);
    PlanNamesEntries(cfg, Observed(cfg, before.pods, before.status.tasks), w.predictions);
    PlanIsDistinct(cfg.planner, cfg.spec, Observed(cfg, before.pods, before.status.tasks), w.predictions);
    var k :| 0 <= k < |PlanOf(cfg, before, w)| && PlanOf(cfg, before, w)[k] == a;
    CreatedAt(cfg, before.pods, PlanOf(cfg, before, w), w.creations, k);
    ReconcileStaysReachable(cfg, before, w);
    s, r := Reconcile(cfg, before, w), a.resources;
  }

  lemma UnlimitedPlan(cfg: Config, s: State, w: World, i: nat, load: Load) returns (a: TaskAllocation)
    requires Nameable(cfg.spec) && Unlimited(EffectiveCap(cfg.planner, cfg.spec)) && Rested(cfg, s)
    requires i < |cfg.spec.tasks| && cfg.spec.tasks[i].name in Todo(s) && Ready(cfg.spec.tasks[i], Begun(cfg.spec, s))
    requires w.predictions == map[cfg.spec.tasks[i].name := Wish(load)] && Sendable(cfg.planner, load)
    ensures a in PlanOf(cfg, s, w) && a.task == cfg.spec.tasks[i].name && LoadOf(a.resources.requests) == load
  {
    EligibleIff(cfg, s, i);
    NothingRuns(cfg, s);
    LowerUniqueIsUnique(cfg.spec);
    a := WishIsPlanned(cfg.planner, cfg.spec, Observed(cfg, s.pods, s.status.tasks), w.predictions, i, load);
  }

  lemma WishIsPlanned(planner: Planner, spec: Spec, tasks: Statuses, predictions: Predictions, i: nat, load: Load)
    returns (a: TaskAllocation)
    requires UniqueNames(spec) && Tidy(planner, tasks) && Unlimited(EffectiveCap(planner, spec))
    requires i < |spec.tasks| && Go.Eligible(spec.tasks[i], tasks)
    requires predictions == map[spec.tasks[i].name := Wish(load)] && Sendable(planner, load)
    ensures a in PlanWith(planner, spec, tasks, predictions) && a.task == spec.tasks[i].name
    ensures LoadOf(a.resources.requests) == load
  {
    EligibleIsPlanned(planner, spec, tasks, predictions, i);
    a :| a in PlanWith(planner, spec, tasks, predictions) && a.task == spec.tasks[i].name;
    PlannedHasDemand(planner, spec, tasks, predictions, i, a);
    WishDemand(planner, spec.tasks[i], predictions, load);
  }

  lemma PlannedHasDemand(planner: Planner, spec: Spec, tasks: Statuses, predictions: Predictions, i: nat,
                         a: TaskAllocation)
    requires UniqueNames(spec) && Tidy(planner, tasks) && i < |spec.tasks|
    requires a in PlanWith(planner, spec, tasks, predictions) && a.task == spec.tasks[i].name
    ensures LoadOf(a.resources.requests) == Demand(planner, spec.tasks[i], predictions)
  {
    var j := PlannedDemand(planner, spec, tasks, predictions, a);
    assert i == j;
  }

  lemma Single(cfg: Config, i: nat, load: Load) returns (s: State, r: Requirements)
    requires Nameable(cfg.spec) && i < |cfg.spec.tasks| && cfg.spec.tasks[i].name in Startable(cfg.spec)
    requires Sendable(cfg.planner, load) && Fits(load.cpu, load.mem, EffectiveCap(cfg.planner, cfg.spec))
    ensures Runs(cfg, s, cfg.spec.tasks[i].name, r) && LoadOf(r.requests) == load
  {
    if Unlimited(EffectiveCap(cfg.planner, cfg.spec)) {
      s, r := SingleUnlimited(cfg, i, load);
    } else {
      s, r := SingleLimited(cfg, i, load);
    }
  }

  // ---- The ceiling ----

  /** In every reachable state the requests of the live pods together are within this cap. */
  ghost predicate LiveWithin(cfg: Config, cap: Load) {
    forall s: State :: Reachable(cfg, s) ==> Fits(LiveUsage(s.pods, CPU), LiveUsage(s.pods, MEM), cap)
  }

  lemma Incomparable(spec: Spec) returns (i: nat, j: nat)
    requires !AllComparable(spec)
    ensures i < |spec.tasks| && j < |spec.tasks| && spec.tasks[i].name != spec.tasks[j].name
    ensures spec.tasks[i].name in Startable(spec) && spec.tasks[j].name in Startable(spec)
    ensures !Comparable(spec, spec.tasks[i].name, spec.tasks[j].name)
  {
    var a, b :| a in Startable(spec) && b in Startable(spec) && a != b && !Comparable(spec, a, b);
    i :| 0 <= i < |spec.tasks| && spec.tasks[i].name == a;
    j :| 0 <= j < |spec.tasks| && spec.tasks[j].name == b;
  }

  /** The cap twice over is more than the cap. */
  lemma TwiceIsTooMuch(cap: Load, cpu: nat, mem: nat)
    requires !Unlimited(cap) && cpu >= 2 * cap.cpu && mem >= 2 * cap.mem
    ensures !Fits(cpu, mem, cap)
  {
    UnlimitedIff(cap);
  }

  lemma OvercommitUsage(cfg: Config, i: nat, j: nat) returns (s: State)
    requires Nameable(cfg.spec) && !Unlimited(EffectiveCap(cfg.planner, cfg.spec))
    requires i < |cfg.spec.tasks| && j < |cfg.spec.tasks| && cfg.spec.tasks[i].name != cfg.spec.tasks[j].name
    requires cfg.spec.tasks[i].name in Startable(cfg.spec) && cfg.spec.tasks[j].name in Startable(cfg.spec)
    requires !Comparable(cfg.spec, cfg.spec.tasks[i].name, cfg.spec.tasks[j].name)
    ensures Reachable(cfg, s)
    ensures LiveUsage(s.pods, CPU) >= 2 * EffectiveCap(cfg.planner, cfg.spec).cpu
    ensures LiveUsage(s.pods, MEM) >= 2 * EffectiveCap(cfg.planner, cfg.spec).mem
  {
    var r, q;
    s, r, q := Overcommit(cfg, i, j);
    var n, m := PodName(cfg.workflow, cfg.spec.tasks[i].name), PodName(cfg.workflow, cfg.spec.tasks[j].name);
    TwoLive(s.pods, n, m, CPU);
    TwoLive(s.pods, n, m, MEM);
  }

  lemma SequenceKeepsCeiling(cfg: Config, cap: Load)
    requires UniqueNames(cfg.spec) && AllComparable(cfg.spec)
    requires forall r: Requirements :: Checked(cfg, r) ==> FitsCap(r, cap)
    ensures LiveWithin(cfg, cap)
  {
    forall s: State | Reachable(cfg, s)
      ensures Fits(LiveUsage(s.pods, CPU), LiveUsage(s.pods, MEM), cap)
    {
      ReachablePodsChecked(cfg, s);
      forall n | n in s.pods
        ensures FitsCap(s.pods[n].resources, cap)
      {
        assert Checked(cfg, s.pods[n].resources);
      }
      LiveFits(cfg, s, cap);
    }
  }

  /** The live pods stay within the cap that the planner enforces, in every run of a workflow, exactly when
      there is no such cap, or the tasks that can be started all follow one another. Otherwise one lost write
      after each of two creations is enough. */
  lemma PlannerCapBoundsPodsIff(cfg: Config)
    requires Nameable(cfg.spec)
    ensures LiveWithin(cfg, EffectiveCap(cfg.planner, cfg.spec)) <==>
            Unlimited(EffectiveCap(cfg.planner, cfg.spec)) || AllComparable(cfg.spec)
  {
    var cap := EffectiveCap(cfg.planner, cfg.spec);
    if AllComparable(cfg.spec) {
      LowerUniqueIsUnique(cfg.spec);
      SequenceKeepsCeiling(cfg, cap);
    } else if !Unlimited(cap) {
      var i, j := Incomparable(cfg.spec);
      var s := OvercommitUsage(cfg, i, j);
      TwiceIsTooMuch(cap, LiveUsage(s.pods, CPU), LiveUsage(s.pods, MEM));
    }
  }

  // ---- MaxResources itself ----

  /** The planner enforces MaxResources on what it plans: in process, or a cap that survives the conversion. */
  ghost predicate Faithful(planner: Planner, cap: Load) {
    planner == InProcess || ExactCap(cap)
  }

  lemma CheckedFitsMax(cfg: Config, r: Requirements)
    requires Faithful(cfg.planner, Cap(cfg.spec)) && Checked(cfg, r)
    ensures FitsCap(r, Cap(cfg.spec))
  {
    if cfg.planner != InProcess {
      var l := ToWire(LoadOf(r.requests));
      ScaleOfWire(LoadOf(r.requests));
      CapSurvivesIff(Cap(cfg.spec));
      assert Fits(Scale(l).cpu, Scale(l).mem, Scale(ToWire(Cap(cfg.spec))));
    }
  }

  /** A faithful planner's cap twice over exceeds MaxResources. */
  lemma TwiceExceedsMax(planner: Planner, spec: Spec, cpu: nat, mem: nat)
    requires Faithful(planner, Cap(spec)) && !Unlimited(Cap(spec))
    requires cpu >= 2 * EffectiveCap(planner, spec).cpu && mem >= 2 * EffectiveCap(planner, spec).mem
    ensures !Unlimited(EffectiveCap(planner, spec)) && !Fits(cpu, mem, Cap(spec))
  {
    UnlimitedIff(Cap(spec));
    UnlimitedIff(EffectiveCap(planner, spec));
    WireRounding(Cap(spec));
  }

  lemma NothingStartable(cfg: Config, cap: Load)
    requires Startable(cfg.spec) == {}
    ensures LiveWithin(cfg, cap)
  {
    forall s: State | Reachable(cfg, s)
      ensures Fits(LiveUsage(s.pods, CPU), LiveUsage(s.pods, MEM), cap)
    {
      forall n
        ensures !Live(s, n)
      {
        if n in s.pods {
          PodTaskStartable(cfg, s, n);
        }
      }
      NoLiveUsage(s, CPU);
      NoLiveUsage(s, MEM);
    }
  }

  lemma UnfaithfulExceeds(cfg: Config, i: nat) returns (s: State)
    requires Nameable(cfg.spec) && !Faithful(cfg.planner, Cap(cfg.spec))
    requires i < |cfg.spec.tasks| && cfg.spec.tasks[i].name in Startable(cfg.spec)
    ensures Reachable(cfg, s) && !Fits(LiveUsage(s.pods, CPU), LiveUsage(s.pods, MEM), Cap(cfg.spec))
  {
    var cap := Cap(cfg.spec);
    CapSurvivesIff(cap);
    var l: Load :| Fits(Scale(l).cpu, Scale(l).mem, Scale(ToWire(cap))) && !Fits(Scale(l).cpu, Scale(l).mem, cap);
    ScaledSendable(cfg.planner, l);
    var r;
    s, r := Single(cfg, i, Scale(l));
    OneLive(s.pods, PodName(cfg.workflow, cfg.spec.tasks[i].name), CPU);
    OneLive(s.pods, PodName(cfg.workflow, cfg.spec.tasks[i].name), MEM);
  }

  /** MaxResources bounds what the live pods request, in every run of a workflow, exactly when it is not set,
      or nothing can be started, or the planner is faithful to it and the tasks that can be started all
      follow one another. */
  lemma MaxResourcesBoundPodsIff(cfg: Config)
    requires Nameable(cfg.spec)
    ensures LiveWithin(cfg, Cap(cfg.spec)) <==>
            || Unlimited(Cap(cfg.spec))
            || Startable(cfg.spec) == {}
            || (Faithful(cfg.planner, Cap(cfg.spec)) && AllComparable(cfg.spec))
  {
    var cap := Cap(cfg.spec);
    if Unlimited(cap) {
    } else if Startable(cfg.spec) == {} {
      NothingStartable(cfg, cap);
    } else if !Faithful(cfg.planner, cap) {
      var t :| t in Startable(cfg.spec);
      var i :| 0 <= i < |cfg.spec.tasks| && cfg.spec.tasks[i].name == t;
      var s := UnfaithfulExceeds(cfg, i);
    } else if AllComparable(cfg.spec) {
      LowerUniqueIsUnique(cfg.spec);
      forall r: Requirements | Checked(cfg, r)
        ensures FitsCap(r, cap)
      {
        CheckedFitsMax(cfg, r);
      }
      SequenceKeepsCeiling(cfg, cap);
    } else {
      var i, j := Incomparable(cfg.spec);
      var eff := EffectiveCap(cfg.planner, cfg.spec);
      TwiceExceedsMax(cfg.planner, cfg.spec, 2 * eff.cpu, 2 * eff.mem);
      var s := OvercommitUsage(cfg, i, j);
      TwiceExceedsMax(cfg.planner, cfg.spec, LiveUsage(s.pods, CPU), LiveUsage(s.pods, MEM));
    }
  }

  // ---- No cap bounds the pods of all workflows ----

  const PAIR := [TaskTemplate("a", [], NOTHING), TaskTemplate("b", [], NOTHING)]

  lemma PairNames(max: ResourceList)
    ensures Nameable(Spec(PAIR, max)) && Names(Spec(PAIR, max)) == {"a", "b"}
  {
    var spec := Spec(PAIR, max);
    assert Lower("a")[0] == 'a' && Lower("b")[0] == 'b';
    assert PAIR[0].name == "a" && PAIR[1].name == "b";
    assert spec.tasks[0].name in Names(spec) && spec.tasks[1].name in Names(spec);
  }

  lemma PairIndependent(max: ResourceList)
    ensures Startable(Spec(PAIR, max)) == {"a", "b"} && !Comparable(Spec(PAIR, max), "a", "b")
  {
    var spec := Spec(PAIR, max);
    PairNames(max);
    StuckIsGreatestBlocked(spec);
    forall i | 0 <= i < |spec.tasks|
      ensures !WaitsFor(spec, spec.tasks[i], Stuck(spec))
    {
    }
    assert spec.tasks[0].name !in Stuck(spec) && spec.tasks[1].name !in Stuck(spec);
    AboveStarts(spec, "a", "b");
    AboveStarts(spec, "b", "a");
  }

  /** MaxResources that bounds anything at all fails to bound the pods of two independent tasks, whatever the
      planner: over all workflows, it bounds what the live pods request exactly when every usage is allowed. */
  lemma NoCeilingIff(planner: Planner, max: ResourceList)
    ensures (forall workflow: string, tasks: seq<TaskTemplate> :: LowerUnique(Spec(tasks, max)) ==>
               LiveWithin(Config(workflow, Spec(tasks, max), planner), LoadOf(max)))
            <==> Unlimited(LoadOf(max))
  {
    var pair := Config("w", Spec(PAIR, max), planner);
    PairNames(max);
    PairIndependent(max);
    MaxResourcesBoundPodsIff(pair);
  }
}
