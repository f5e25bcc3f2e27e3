/** How many rounds a workflow takes when nothing but the dependencies holds it back. */
module CriticalPath {
  import opened Loads
  import opened Workflow
  import opened Planning
  import opened Schedule
  import opened Machine
  import opened RunBlocked
  import opened RunClean
  import opened Reconciling
  import opened ReconcileEffects
  import opened Levels
  import opened Rounds
  import opened Progress
  import Go = GreedyPlanner

  lemma RoundsStart(cfg: Config, ws: seq<World>)
    requires Nameable(cfg.spec) && Smooth(cfg, START, ws) && |ws| == 1
    ensures Rested(cfg, After(cfg, START, ws)) && Todo(After(cfg, START, ws)) == Names(cfg.spec)
    ensures After(cfg, START, ws).status.phase == WorkflowPending
  {
    assert ws[..0] == [];
    FirstRound(cfg, ws[0]);
  }

  lemma StartRounds(cfg: Config, ws: seq<World>)
    requires Nameable(cfg.spec) && Smooth(cfg, START, ws) && ws != []
    ensures Rested(cfg, After(cfg, START, ws))
  {
    StartWaits(cfg);
    RoundsRest(cfg, START, ws);
  }

  ghost predicate PlansAllEligible(spec: Spec, tasks: Statuses, plan: seq<TaskAllocation>) {
    forall i :: 0 <= i < |spec.tasks| && Go.Eligible(spec.tasks[i], tasks) ==> spec.tasks[i].name in PlannedTasks(plan)
  }

  lemma UncappedPlansAllEligible(planner: Planner, spec: Spec, tasks: Statuses, predictions: Predictions)
    requires Tidy(planner, tasks) && Unlimited(EffectiveCap(planner, spec))
    ensures PlansAllEligible(spec, tasks, PlanWith(planner, spec, tasks, predictions))
  {
    forall i | 0 <= i < |spec.tasks| && Go.Eligible(spec.tasks[i], tasks)
      ensures spec.tasks[i].name in PlannedTasks(PlanWith(planner, spec, tasks, predictions))
    {
      EligibleIsPlanned(planner, spec, tasks, predictions, i);
    }
  }

  lemma PlannedIffReady(cfg: Config, s: State, w: World, i: nat)
    requires Nameable(cfg.spec) && Rested(cfg, s) && Plans(cfg, s, w)
    requires PlansAllEligible(cfg.spec, Observed(cfg, s.pods, s.status.tasks), PlanOf(cfg, s, w))
    requires i < |cfg.spec.tasks| && cfg.spec.tasks[i].name in Todo(s)
    ensures cfg.spec.tasks[i].name in PlannedTasks(PlanOf(cfg, s, w)) <==> Ready(cfg.spec.tasks[i], Begun(cfg.spec, s))
  {
    EligibleIff(cfg, s, i);
    LowerUniqueIsUnique(cfg.spec);
    if cfg.spec.tasks[i].name in PlannedTasks(PlanOf(cfg, s, w)) {
      PlannedEntryIsEligible(cfg.planner, cfg.spec, Observed(cfg, s.pods, s.status.tasks), w.predictions, i);
    }
  }

  lemma UncappedStartsAllReady(cfg: Config, s: State, w: World)
    requires Nameable(cfg.spec) && Rested(cfg, s) && Plans(cfg, s, w)
    requires Unlimited(EffectiveCap(cfg.planner, cfg.spec))
    ensures forall i :: 0 <= i < |cfg.spec.tasks| && cfg.spec.tasks[i].name in Todo(s) ==>
              (cfg.spec.tasks[i].name in PlannedTasks(PlanOf(cfg, s, w)) <==>
               Ready(cfg.spec.tasks[i], Begun(cfg.spec, s)))
  {
    NothingRuns(cfg, s);
    UncappedPlansAllEligible(cfg.planner, cfg.spec, Observed(cfg, s.pods, s.status.tasks), w.predictions);
    forall i | 0 <= i < |cfg.spec.tasks| && cfg.spec.tasks[i].name in Todo(s)
      ensures cfg.spec.tasks[i].name in PlannedTasks(PlanOf(cfg, s, w)) <==>
              Ready(cfg.spec.tasks[i], Begun(cfg.spec, s))
    {
      PlannedIffReady(cfg, s, w, i);
    }
  }

  lemma EligibleIsPlanned(planner: Planner, spec: Spec, tasks: Statuses, predictions: Predictions, i: nat)
    requires Tidy(planner, tasks) && i < |spec.tasks| && Unlimited(EffectiveCap(planner, spec))
    requires Go.Eligible(spec.tasks[i], tasks)
    ensures spec.tasks[i].name in PlannedTasks(PlanWith(planner, spec, tasks, predictions))
  {
    if !Has(PlanWith(planner, spec, tasks, predictions), spec.tasks[i].name) {
      PlanIsMaximal(planner, spec, tasks, predictions, i);
    }
  }

  lemma PlannedEntryIsEligible(planner: Planner, spec: Spec, tasks: Statuses, predictions: Predictions, i: nat)
    requires UniqueNames(spec) && i < |spec.tasks|
    requires spec.tasks[i].name in PlannedTasks(PlanWith(planner, spec, tasks, predictions))
    ensures Go.Eligible(spec.tasks[i], tasks)
  {
    var a :| a in PlanWith(planner, spec, tasks, predictions) && a.task == spec.tasks[i].name;
    PlanIsEligible(planner, spec, tasks, predictions, a);
    var j :| 0 <= j < |spec.tasks| && Go.Eligible(spec.tasks[j], tasks) && spec.tasks[j].name == a.task;
    assert i == j;
  }

  lemma RoundBegins(cfg: Config, s: State, w: World)
    requires Nameable(cfg.spec) && Rested(cfg, s) && Smoothly(cfg, s, w) && Todo(s) != {}
    requires Unlimited(EffectiveCap(cfg.planner, cfg.spec))
    ensures Waiting(cfg.spec, Round(cfg, s, w)) == Waiting(cfg.spec, s) - PlannedTasks(PlanOf(cfg, s, w))
    ensures forall i :: 0 <= i < |cfg.spec.tasks| && cfg.spec.tasks[i].name in Waiting(cfg.spec, s) ==>
              (cfg.spec.tasks[i].name in PlannedTasks(PlanOf(cfg, s, w)) <==>
               Ready(cfg.spec.tasks[i], Begun(cfg.spec, s)))
  {
    RestedIsRecoverable(cfg, s);
    RoundBegun(cfg, s, w);
    UncappedStartsAllReady(cfg, s, w);
  }

  lemma NothingLeftToBegin(cfg: Config, s: State, w: World)
    requires Nameable(cfg.spec) && Rested(cfg, s) && Smoothly(cfg, s, w) && Todo(s) == {}
    ensures Begun(cfg.spec, s) == Names(cfg.spec) == Begun(cfg.spec, Round(cfg, s, w))
  {
    RestedIsRecoverable(cfg, s);
    RoundRests(cfg, s, w);
    RestedIsRecoverable(cfg, Round(cfg, s, w));
    LastRound(cfg, s, w);
    AllBegun(cfg.spec, s);
    AllBegun(cfg.spec, Round(cfg, s, w));
  }

  lemma NextLevel(cfg: Config, s: State, w: World, k: nat)
    requires Nameable(cfg.spec) && Rested(cfg, s) && Smoothly(cfg, s, w)
    requires Unlimited(EffectiveCap(cfg.planner, cfg.spec)) && Begun(cfg.spec, s) == Level(cfg.spec, k)
    ensures Begun(cfg.spec, Round(cfg, s, w)) == Level(cfg.spec, k + 1)
  {
    LevelsGrow(cfg.spec, k);
    LevelsAreNames(cfg.spec, k + 1);
    if Todo(s) == {} {
      NothingLeftToBegin(cfg, s, w);
    } else {
      RoundBegins(cfg, s, w);
      LowerUniqueIsUnique(cfg.spec);
      NextLevelIs(cfg.spec, Begun(cfg.spec, s), Begun(cfg.spec, Round(cfg, s, w)), PlannedTasks(PlanOf(cfg, s, w)), k);
    }
  }

  lemma NextLevelIs(spec: Spec, before: set<string>, after: set<string>, planned: set<string>, k: nat)
    requires UniqueNames(spec) && before == Level(spec, k) && Level(spec, k) <= Level(spec, k + 1) <= Names(spec)
    requires after <= Names(spec) && Names(spec) - after == Names(spec) - before - planned
    requires forall i :: 0 <= i < |spec.tasks| && spec.tasks[i].name in Names(spec) - before ==>
               (spec.tasks[i].name in planned <==> Ready(spec.tasks[i], before))
    ensures after == Level(spec, k + 1)
  {
    forall t | t in Names(spec)
      ensures t in after <==> t in Level(spec, k + 1)
    {
      var i :| 0 <= i < |spec.tasks| && spec.tasks[i].name == t;
      InNextLevel(spec, k, i);
      assert t in after <==> t !in Names(spec) - after;
    }
  }

  /** Without MaxResources each round starts exactly the next dependency level. */
  lemma {:induction false} RoundsAreLevels(cfg: Config, ws: seq<World>)
    requires Nameable(cfg.spec) && Smooth(cfg, START, ws) && ws != []
    requires Unlimited(EffectiveCap(cfg.planner, cfg.spec))
    ensures Begun(cfg.spec, After(cfg, START, ws)) == Level(cfg.spec, |ws| - 1)
    decreases |ws|
  {
    if |ws| == 1 {
      RoundsStart(cfg, ws);
    } else {
      var front := ws[..|ws| - 1];
      StartRounds(cfg, front);
      RoundsAreLevels(cfg, front);
      NextLevel(cfg, After(cfg, START, front), ws[|ws| - 1], |front| - 1);
    }
  }

  /** A round completes the workflow exactly when everything had been started before. */
  lemma RoundCompletesIff(cfg: Config, s: State, w: World)
    requires Nameable(cfg.spec) && Rested(cfg, s) && Smoothly(cfg, s, w)
    ensures Round(cfg, s, w).status.phase == Completed <==> Begun(cfg.spec, s) == Names(cfg.spec)
  {
    RestedIsRecoverable(cfg, s);
    AllBegun(cfg.spec, s);
    if Todo(s) == {} {
      LastRound(cfg, s, w);
    } else {
      MiddleRound(cfg, s, w);
    }
  }

  /** Without MaxResources the workflow is Completed after k rounds exactly when no dependency chain has
      k - 1 tasks. */
  lemma CompletedWhen(cfg: Config, ws: seq<World>)
    requires Nameable(cfg.spec) && Smooth(cfg, START, ws) && DependenciesPresent(cfg.spec)
    requires Unlimited(EffectiveCap(cfg.planner, cfg.spec))
    ensures After(cfg, START, ws).status.phase == Completed <==> |ws| >= 2 && !ChainOf(cfg.spec, |ws| - 1)
  {
    if |ws| == 1 {
      RoundsStart(cfg, ws);
    } else if |ws| >= 2 {
      var front := ws[..|ws| - 1];
      LowerUniqueIsUnique(cfg.spec);
      StartRounds(cfg, front);
      RoundsAreLevels(cfg, front);
      LevelsCoverIff(cfg.spec, |front| - 1);
      RoundCompletesIff(cfg, After(cfg, START, front), ws[|ws| - 1]);
    }
  }

  lemma ChainsShorten(spec: Spec, long: nat, short: nat)
    requires ChainOf(spec, long) && 0 < short <= long
    ensures ChainOf(spec, short)
  {
    var path :| Chain(spec, path) && |path| == long;
    assert forall i :: 0 <= i < short - 1 ==> DependsOn(spec, path[i], path[i + 1]);
    assert Chain(spec, path[..short]);
  }

  /** Critical-path exactness: completion takes exactly two rounds more than the longest dependency chain
      has tasks. */
  lemma CompletesWithCriticalPath(cfg: Config, ws: seq<World>, longest: nat)
    requires Nameable(cfg.spec) && Smooth(cfg, START, ws) && DependenciesPresent(cfg.spec)
    requires Unlimited(EffectiveCap(cfg.planner, cfg.spec))
    requires ChainOf(cfg.spec, longest) && !ChainOf(cfg.spec, longest + 1)
    ensures After(cfg, START, ws).status.phase == Completed <==> |ws| >= longest + 2
  {
    CompletedWhen(cfg, ws);
    if |ws| >= 2 {
      if ChainOf(cfg.spec, |ws| - 1) && |ws| >= longest + 2 {
        ChainsShorten(cfg.spec, |ws| - 1, longest + 1);
      }
      if |ws| < longest + 2 {
        ChainsShorten(cfg.spec, longest, |ws| - 1);
      }
    }
  }
}
