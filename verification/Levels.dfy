/** The dependency graph of a spec: what is stuck for good, and how deep the rest is. */
module Levels {
  import opened Workflow
  import opened RunBlocked

  // ---- The greatest blocked set ----

  ghost predicate InBlocked(spec: Spec, t: string) {
    exists b :: Blocked(spec, b) && t in b
  }

  ghost function Stuck(spec: Spec): set<string> {
    set t | t in Names(spec) && InBlocked(spec, t)
  }

  lemma StuckIsGreatestBlocked(spec: Spec)
    ensures Blocked(spec, Stuck(spec))
    ensures forall b :: Blocked(spec, b) ==> b <= Stuck(spec)
  {
  }

  ghost predicate DependenciesPresent(spec: Spec) {
    forall i :: 0 <= i < |spec.tasks| ==>
      forall k :: 0 <= k < |spec.tasks[i].dependencies| ==> spec.tasks[i].dependencies[k] in Names(spec)
  }

  ghost predicate Acyclic(spec: Spec) {
    forall path :: !Cycle(spec, path)
  }

  lemma {:induction false} Pigeonhole(path: seq<string>, b: set<string>) returns (i: nat, j: nat)
    requires |path| > |b| && forall k :: 0 <= k < |path| ==> path[k] in b
    ensures i < j < |path| && path[i] == path[j]
    decreases |b|
  {
    if k :| 1 <= k < |path| && path[k] == path[0] {
      i, j := 0, k;
    } else {
      assert path[0] in b;
      i, j := Pigeonhole(path[1..], b - {path[0]});
      i, j := i + 1, j + 1;
    }
  }

  /** In a blocked set without missing dependencies one can follow dependencies forever. */
  lemma {:induction false} ChainWithin(spec: Spec, b: set<string>, t: string, length: nat) returns (path: seq<string>)
    requires Blocked(spec, b) && DependenciesPresent(spec) && t in b && length > 0
    ensures Chain(spec, path) && |path| == length && path[0] == t
    ensures forall k :: 0 <= k < |path| ==> path[k] in b
    decreases length
  {
    if length == 1 {
      path := [t];
    } else {
      var i :| 0 <= i < |spec.tasks| && spec.tasks[i].name == t;
      assert WaitsFor(spec, spec.tasks[i], b);
      var k :| 0 <= k < |spec.tasks[i].dependencies| && spec.tasks[i].dependencies[k] in b;
      var next := spec.tasks[i].dependencies[k];
      assert DependsOn(spec, t, next);
      var rest := ChainWithin(spec, b, next, length - 1);
      path := [t] + rest;
    }
  }

  lemma BlockedHasCycle(spec: Spec, b: set<string>) returns (path: seq<string>)
    requires Blocked(spec, b) && DependenciesPresent(spec) && b != {}
    ensures Cycle(spec, path)
  {
    var t :| t in b;
    var long := ChainWithin(spec, b, t, |b| + 1);
    var i, j := Pigeonhole(long, b);
    path := long[i..j];
    assert DependsOn(spec, long[j - 1], long[j]);
    forall k | 0 <= k < |path| - 1
      ensures DependsOn(spec, path[k], path[k + 1])
    {
      assert path[k] == long[i + k] && path[k + 1] == long[i + k + 1];
    }
  }

  lemma MissingIsStuck(spec: Spec, i: nat, k: nat)
    requires UniqueNames(spec) && i < |spec.tasks| && k < |spec.tasks[i].dependencies|
    requires spec.tasks[i].dependencies[k] !in Names(spec)
    ensures spec.tasks[i].name in Stuck(spec)
  {
    var b := {spec.tasks[i].name};
    forall j | 0 <= j < |spec.tasks| && spec.tasks[j].name in b
      ensures WaitsFor(spec, spec.tasks[j], b)
    {
      assert j == i;
    }
    assert Blocked(spec, b);
  }

  /** Nothing is stuck exactly when every dependency exists and the graph has no cycle. */
  lemma NothingStuckIff(spec: Spec)
    requires UniqueNames(spec)
    ensures Stuck(spec) == {} <==> DependenciesPresent(spec) && Acyclic(spec)
  {
    StuckIsGreatestBlocked(spec);
    if Stuck(spec) == {} {
      forall i, k | 0 <= i < |spec.tasks| && 0 <= k < |spec.tasks[i].dependencies|
        ensures spec.tasks[i].dependencies[k] in Names(spec)
      {
        if spec.tasks[i].dependencies[k] !in Names(spec) {
          MissingIsStuck(spec, i, k);
        }
      }
      forall path
        ensures !Cycle(spec, path)
      {
        if Cycle(spec, path) {
          CycleBlocks(spec, path);
        }
      }
    } else if DependenciesPresent(spec) {
      var path := BlockedHasCycle(spec, Stuck(spec));
    }
  }

  // ---- Dependency levels ----

  /** The tasks that can have been started after k levels. */
  function Level(spec: Spec, k: nat): set<string> {
    if k == 0 then {}
    else set i | 0 <= i < |spec.tasks| && Ready(spec.tasks[i], Level(spec, k - 1)) :: spec.tasks[i].name
  }

  predicate Ready(task: TaskTemplate, done: set<string>) {
    forall d :: 0 <= d < |task.dependencies| ==> task.dependencies[d] in done
  }

  lemma {:induction false} LevelsGrow(spec: Spec, k: nat)
    ensures Level(spec, k) <= Level(spec, k + 1)
  {
    if k > 0 {
      LevelsGrow(spec, k - 1);
      forall t | t in Level(spec, k)
        ensures t in Level(spec, k + 1)
      {
        var i :| 0 <= i < |spec.tasks| && Ready(spec.tasks[i], Level(spec, k - 1)) && spec.tasks[i].name == t;
        assert Ready(spec.tasks[i], Level(spec, k));
      }
    }
  }

  ghost predicate ChainFrom(spec: Spec, t: string, length: nat) {
    exists path :: Chain(spec, path) && path[0] == t && |path| == length
  }

  ghost predicate ChainOf(spec: Spec, length: nat) {
    exists path :: Chain(spec, path) && |path| == length
  }

  lemma TailOfChain(spec: Spec, path: seq<string>)
    requires Chain(spec, path) && |path| > 1
    ensures Chain(spec, path[1..])
  {
    var tail := path[1..];
    forall i | 0 <= i < |tail| - 1
      ensures DependsOn(spec, tail[i], tail[i + 1])
    {
      assert DependsOn(spec, path[i + 1], path[i + 2]);
    }
  }

  lemma ChainStep(spec: Spec, i: nat, length: nat)
    requires UniqueNames(spec) && DependenciesPresent(spec) && i < |spec.tasks| && length > 0
    ensures ChainFrom(spec, spec.tasks[i].name, length + 1) <==>
            exists d :: 0 <= d < |spec.tasks[i].dependencies| && ChainFrom(spec, spec.tasks[i].dependencies[d], length)
  {
    var t, deps := spec.tasks[i].name, spec.tasks[i].dependencies;
    if ChainFrom(spec, t, length + 1) {
      var path :| Chain(spec, path) && path[0] == t && |path| == length + 1;
      assert DependsOn(spec, path[0], path[1]);
      var d :| 0 <= d < |deps| && deps[d] == path[1];
      TailOfChain(spec, path);
      assert ChainFrom(spec, deps[d], length);
    }
    if d :| 0 <= d < |deps| && ChainFrom(spec, deps[d], length) {
      var rest :| Chain(spec, rest) && rest[0] == deps[d] && |rest| == length;
      assert DependsOn(spec, t, rest[0]);
      assert Chain(spec, [t] + rest);
    }
  }

  lemma InNextLevel(spec: Spec, k: nat, i: nat)
    requires UniqueNames(spec) && i < |spec.tasks|
    ensures spec.tasks[i].name in Level(spec, k + 1) <==> Ready(spec.tasks[i], Level(spec, k))
  {
  }

  ghost predicate DeepIff(spec: Spec, k: nat, t: string) {
    t in Level(spec, k) <==> !ChainFrom(spec, t, k + 1)
  }

  /** A task is within the first k levels exactly when no dependency chain of more than k tasks starts
      at it. */
  lemma {:induction false} LevelIsChainLength(spec: Spec, k: nat, t: string)
    requires UniqueNames(spec) && DependenciesPresent(spec) && t in Names(spec)
    ensures DeepIff(spec, k, t)
    decreases k, 0
  {
    if k == 0 {
      SingletonChain(spec, t);
    } else {
      var i :| 0 <= i < |spec.tasks| && spec.tasks[i].name == t;
      DependencyLevels(spec, k - 1, i);
      NextLevelIsChainLength(spec, k - 1, i);
    }
  }

  lemma SingletonChain(spec: Spec, t: string)
    requires t in Names(spec)
    ensures ChainFrom(spec, t, 1)
  {
    assert Chain(spec, [t]);
  }

  lemma {:induction false} DependencyLevels(spec: Spec, k: nat, i: nat)
    requires UniqueNames(spec) && DependenciesPresent(spec) && i < |spec.tasks|
    ensures forall d :: 0 <= d < |spec.tasks[i].dependencies| ==> DeepIff(spec, k, spec.tasks[i].dependencies[d])
    decreases k, 1
  {
    forall d | 0 <= d < |spec.tasks[i].dependencies|
      ensures DeepIff(spec, k, spec.tasks[i].dependencies[d])
    {
      LevelIsChainLength(spec, k, spec.tasks[i].dependencies[d]);
    }
  }

  lemma NextLevelIsChainLength(spec: Spec, k: nat, i: nat)
    requires UniqueNames(spec) && DependenciesPresent(spec) && i < |spec.tasks|
    requires forall d :: 0 <= d < |spec.tasks[i].dependencies| ==> DeepIff(spec, k, spec.tasks[i].dependencies[d])
    ensures DeepIff(spec, k + 1, spec.tasks[i].name)
  {
    ChainStep(spec, i, k + 1);
    InNextLevel(spec, k, i);
  }

  /** The first k levels cover the spec exactly when no chain has more than k tasks. */
  lemma LevelsCoverIff(spec: Spec, k: nat)
    requires UniqueNames(spec) && DependenciesPresent(spec)
    ensures Level(spec, k) == Names(spec) <==> !ChainOf(spec, k + 1)
  {
    if Level(spec, k) == Names(spec) && ChainOf(spec, k + 1) {
      var path :| Chain(spec, path) && |path| == k + 1;
      LevelIsChainLength(spec, k, path[0]);
    }
    if !ChainOf(spec, k + 1) {
      forall t | t in Names(spec)
        ensures t in Level(spec, k)
      {
        LevelIsChainLength(spec, k, t);
      }
      LevelsAreNames(spec, k);
    }
  }

  lemma LevelsAreNames(spec: Spec, k: nat)
    ensures Level(spec, k) <= Names(spec)
  {
  }

  lemma {:induction false} NamesCount(spec: Spec)
    ensures |Names(spec)| <= |spec.tasks|
    decreases |spec.tasks|
  {
    if spec.tasks != [] {
      var n := |spec.tasks| - 1;
      var front := spec.(tasks := spec.tasks[..n]);
      NamesCount(front);
      forall t | t in Names(spec)
        ensures t in Names(front) + {spec.tasks[n].name}
      {
        var i :| 0 <= i < |spec.tasks| && spec.tasks[i].name == t;
        if i < n {
          assert front.tasks[i].name == t;
        }
      }
      var whole := Names(front) + {spec.tasks[n].name};
      assert Names(spec) <= whole;
      CountWithin(Names(spec), whole);
    }
  }

  lemma {:induction false} CountWithin(a: set<string>, b: set<string>)
    requires a <= b
    ensures |a| <= |b|
    decreases |a|
  {
    if a != {} {
      var t :| t in a;
      CountWithin(a - {t}, b - {t});
    }
  }
}
