/** What a task depends on, directly or not, and when two tasks are ordered by dependency. */
module Ancestors {
  import opened Workflow
  import opened RunBlocked
  import opened Levels

  /** a depends on b, directly or through other tasks. */
  ghost predicate Above(spec: Spec, a: string, b: string) {
    exists path :: AboveBy(spec, a, b, path)
  }

  ghost predicate AboveBy(spec: Spec, a: string, b: string, path: seq<string>) {
    Chain(spec, path) && |path| >= 2 && path[0] == a && path[|path| - 1] == b
  }

  ghost predicate Comparable(spec: Spec, a: string, b: string) {
    Above(spec, a, b) || Above(spec, b, a)
  }

  /** The tasks that can be started at all. */
  ghost function Startable(spec: Spec): set<string> {
    Names(spec) - Stuck(spec)
  }

  /** Of any two tasks that can be started, one depends on the other. */
  ghost predicate AllComparable(spec: Spec) {
    forall a, b :: a in Startable(spec) && b in Startable(spec) && a != b ==> Comparable(spec, a, b)
  }

  lemma DependencyIsAbove(spec: Spec, i: nat, k: nat)
    requires i < |spec.tasks| && k < |spec.tasks[i].dependencies| && spec.tasks[i].dependencies[k] in Names(spec)
    ensures Above(spec, spec.tasks[i].name, spec.tasks[i].dependencies[k])
  {
    var path := [spec.tasks[i].name, spec.tasks[i].dependencies[k]];
    assert DependsOn(spec, path[0], path[1]);
    assert AboveBy(spec, spec.tasks[i].name, spec.tasks[i].dependencies[k], path);
  }

  lemma AboveDependency(spec: Spec, a: string, i: nat, k: nat)
    requires i < |spec.tasks| && k < |spec.tasks[i].dependencies| && Above(spec, a, spec.tasks[i].name)
    requires spec.tasks[i].dependencies[k] in Names(spec)
    ensures Above(spec, a, spec.tasks[i].dependencies[k])
  {
    var b, c := spec.tasks[i].name, spec.tasks[i].dependencies[k];
    var path :| AboveBy(spec, a, b, path);
    var longer := path + [c];
    assert DependsOn(spec, b, c);
    forall j | 0 <= j < |longer| - 1
      ensures DependsOn(spec, longer[j], longer[j + 1])
    {
      if j + 1 < |path| {
        assert DependsOn(spec, path[j], path[j + 1]);
      }
    }
    assert AboveBy(spec, a, c, longer);
  }

  lemma AboveStarts(spec: Spec, a: string, b: string)
    ensures Above(spec, a, b) ==> exists c :: DependsOn(spec, a, c)
  {
    if path :| AboveBy(spec, a, b, path) {
      assert DependsOn(spec, path[0], path[1]);
    }
  }

  lemma AboveItselfIsStuck(spec: Spec, a: string)
    requires UniqueNames(spec) && Above(spec, a, a)
    ensures a in Stuck(spec)
  {
    var path :| AboveBy(spec, a, a, path);
    var cycle := path[..|path| - 1];
    assert DependsOn(spec, path[|path| - 2], path[|path| - 1]);
    assert forall j :: 0 <= j < |cycle| - 1 ==> DependsOn(spec, path[j], path[j + 1]);
    CycleIsBlocked(spec, cycle);
    StuckIsGreatestBlocked(spec);
    assert cycle[0] in set j | 0 <= j < |cycle| :: cycle[j];
  }

  /** Whatever a startable task depends on is startable. */
  lemma DependencyStartable(spec: Spec, i: nat, k: nat)
    requires UniqueNames(spec) && i < |spec.tasks| && spec.tasks[i].name in Startable(spec)
    requires k < |spec.tasks[i].dependencies|
    ensures spec.tasks[i].dependencies[k] in Startable(spec)
  {
    var t, d := spec.tasks[i].name, spec.tasks[i].dependencies[k];
    if d !in Startable(spec) {
      var more := Stuck(spec) + {t};
      StuckIsGreatestBlocked(spec);
      forall j | 0 <= j < |spec.tasks| && spec.tasks[j].name in more
        ensures WaitsFor(spec, spec.tasks[j], more)
      {
        if spec.tasks[j].name == t {
          assert i == j;
        } else {
          assert WaitsFor(spec, spec.tasks[j], Stuck(spec));
        }
      }
      assert Blocked(spec, more) && t in more;
    }
  }

  lemma {:induction false} ChainStartable(spec: Spec, path: seq<string>)
    requires UniqueNames(spec) && Chain(spec, path) && path[0] in Startable(spec)
    ensures path[|path| - 1] in Startable(spec)
    decreases |path|
  {
    if |path| > 1 {
      assert DependsOn(spec, path[0], path[1]);
      var i :| 0 <= i < |spec.tasks| && spec.tasks[i].name == path[0] && path[1] in spec.tasks[i].dependencies;
      var k :| 0 <= k < |spec.tasks[i].dependencies| && spec.tasks[i].dependencies[k] == path[1];
      DependencyStartable(spec, i, k);
      TailOfChain(spec, path);
      ChainStartable(spec, path[1..]);
    }
  }

  /** Everything that one of these tasks depends on. */
  ghost function Below(spec: Spec, tops: set<string>): set<string> {
    set b | b in Names(spec) && exists a :: a in tops && Above(spec, a, b)
  }

  /** With their dependencies: a set of startable tasks that holds whatever its members depend on. */
  ghost predicate Closed(spec: Spec, tasks: set<string>) {
    && tasks <= Startable(spec)
    && forall i :: 0 <= i < |spec.tasks| && spec.tasks[i].name in tasks ==> Ready(spec.tasks[i], tasks)
  }

  lemma BelowIsClosed(spec: Spec, tops: set<string>)
    requires UniqueNames(spec) && tops <= Startable(spec)
    ensures Closed(spec, Below(spec, tops))
    ensures forall i :: 0 <= i < |spec.tasks| && spec.tasks[i].name in tops ==> Ready(spec.tasks[i], Below(spec, tops))
  {
    var below := Below(spec, tops);
    forall b | b in below
      ensures b in Startable(spec)
    {
      var a :| a in tops && Above(spec, a, b);
      var path :| AboveBy(spec, a, b, path);
      ChainStartable(spec, path);
    }
    forall i, k | 0 <= i < |spec.tasks| && 0 <= k < |spec.tasks[i].dependencies|
                  && (spec.tasks[i].name in below || spec.tasks[i].name in tops)
      ensures spec.tasks[i].dependencies[k] in below
    {
      DependencyStartable(spec, i, k);
      if spec.tasks[i].name in tops {
        DependencyIsAbove(spec, i, k);
      } else {
        var a :| a in tops && Above(spec, a, spec.tasks[i].name);
        AboveDependency(spec, a, i, k);
      }
    }
  }

  // ---- All startable tasks are within some level ----

  lemma LevelStopsOrGrows(spec: Spec, k: nat)
    ensures Level(spec, k) == Level(spec, k + 1) || |Level(spec, k)| < |Level(spec, k + 1)| <= |Names(spec)|
  {
    LevelsGrow(spec, k);
    LevelsAreNames(spec, k + 1);
    if Level(spec, k) != Level(spec, k + 1) {
      LargerWithin(Level(spec, k), Level(spec, k + 1), Names(spec));
    }
  }

  ghost predicate Stops(spec: Spec, k: nat) {
    Level(spec, k) == Level(spec, k + 1)
  }

  /** Some level adds nothing. */
  lemma {:induction false} LevelsStop(spec: Spec, from: nat, size: nat, room: nat) returns (k: nat)
    requires size == |Level(spec, from)| && size + room >= |Names(spec)|
    ensures Stops(spec, k)
    decreases room
  {
    LevelStopsOrGrows(spec, from);
    if Stops(spec, from) {
      k := from;
    } else {
      k := LevelsStop(spec, from + 1, |Level(spec, from + 1)|, room - 1);
    }
  }

  lemma LargerWithin(a: set<string>, b: set<string>, all: set<string>)
    requires a <= b <= all && a != b
    ensures |a| < |b| <= |all|
  {
    var t :| t in b && t !in a;
    CountWithin(a, b - {t});
    CountWithin(b, all);
  }

  lemma LevelsReachStartable(spec: Spec) returns (k: nat)
    requires UniqueNames(spec)
    ensures Startable(spec) <= Level(spec, k)
  {
    k := LevelsStop(spec, 0, |Level(spec, 0)|, |Names(spec)|);
    assert Stops(spec, k);
    var rest := Names(spec) - Level(spec, k);
    forall i | 0 <= i < |spec.tasks| && spec.tasks[i].name in rest
      ensures WaitsFor(spec, spec.tasks[i], rest)
    {
      InNextLevel(spec, k, i);
      assert !Ready(spec.tasks[i], Level(spec, k));
      var d :| 0 <= d < |spec.tasks[i].dependencies| && spec.tasks[i].dependencies[d] !in Level(spec, k);
    }
    assert Blocked(spec, rest);
    StuckIsGreatestBlocked(spec);
  }
}
