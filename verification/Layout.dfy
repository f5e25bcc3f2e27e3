/** The dashboard's packing simulator: a naive layout of a workflow's tasks next to a budget-aware one. */
module Layout {

  datatype Task = Task(name: string, dependencies: seq<string>)

  datatype BaselineBlock = BaselineBlock(left: nat, bottom: nat, crashed: bool)

  datatype AdaptiveBlock = AdaptiveBlock(left: nat, bottom: nat)

  datatype Slot = Slot(start: nat, end: nat, height: nat)

  type Ends = map<string, nat>

  const LIMIT := 150
  const WIDTH := 80
  const HEIGHT := 65
  const STEP := 10

  // ---- Start times and stacked height ----

  function EndOf(ends: Ends, name: string): nat {
    if name in ends then ends[name] else 0
  }

  function Max(a: nat, b: nat): nat {
    if a < b then b else a
  }

  /** The latest end among the dependencies; unknown dependencies count as ended at 0. */
  function MinStart(dependencies: seq<string>, ends: Ends): nat {
    if dependencies == [] then 0
    else
      var last := |dependencies| - 1;
      Max(MinStart(dependencies[..last], ends), EndOf(ends, dependencies[last]))
  }

  function EndsOf(tasks: seq<Task>, lefts: seq<nat>): Ends
    requires |tasks| == |lefts|
  {
    if tasks == [] then map[]
    else
      var last := |tasks| - 1;
      EndsOf(tasks[..last], lefts[..last])[tasks[last].name := lefts[last] + WIDTH]
  }

  function Share(slot: Slot, x: nat): nat {
    if slot.start <= x < slot.end then slot.height else 0
  }

  /** The stacked height at one point in time. */
  function MemAt(profile: seq<Slot>, x: nat): nat {
    if profile == [] then 0
    else
      var last := |profile| - 1;
      MemAt(profile[..last], x) + Share(profile[last], x)
  }

  function Profile(lefts: seq<nat>): seq<Slot> {
    seq(|lefts|, i requires 0 <= i < |lefts| => Slot(lefts[i], lefts[i] + WIDTH, HEIGHT))
  }

  function Height(lefts: seq<nat>, x: nat): nat {
    MemAt(Profile(lefts), x)
  }

  lemma HeightAfter(lefts: seq<nat>, left: nat, x: nat)
    ensures Height(lefts + [left], x) == Height(lefts, x) + if left <= x < left + WIDTH then HEIGHT else 0
  {
    var profile := Profile(lefts + [left]);
    assert profile[..|lefts|] == Profile(lefts);
  }

  // ---- The two layouts ----

  function BaselineLefts(tasks: seq<Task>): (lefts: seq<nat>)
    ensures |lefts| == |tasks|
  {
    if tasks == [] then []
    else
      var last := |tasks| - 1;
      var front := BaselineLefts(tasks[..last]);
      front + [MinStart(tasks[last].dependencies, EndsOf(tasks[..last], front))]
  }

  /** The search's test: the sampled maximum leaves room for one more block. */
  predicate FitsSampled(lefts: seq<nat>, x: nat) {
    forall i :: 0 <= i < 8 ==> Height(lefts, x + STEP * i) + HEIGHT <= LIMIT
  }

  function Horizon(lefts: seq<nat>): nat {
    if lefts == [] then 0 else Max(Horizon(lefts[..|lefts| - 1]), lefts[|lefts| - 1] + WIDTH)
  }

  /** Nothing is placed beyond the horizon. */
  lemma {:induction false} EmptyBeyond(lefts: seq<nat>, x: nat)
    requires x >= Horizon(lefts)
    ensures Height(lefts, x) == 0
    decreases |lefts|
  {
    if lefts != [] {
      var last := |lefts| - 1;
      EmptyBeyond(lefts[..last], x);
      assert lefts == lefts[..last] + [lefts[last]];
      HeightAfter(lefts[..last], lefts[last], x);
    }
  }

  /** So the search ends at the horizon at the latest. */
  lemma FitsAtHorizon(lefts: seq<nat>, x: nat)
    requires x >= Horizon(lefts)
    ensures FitsSampled(lefts, x)
  {
    forall i | 0 <= i < 8
      ensures Height(lefts, x + STEP * i) + HEIGHT <= LIMIT
    {
      EmptyBeyond(lefts, x + STEP * i);
    }
  }

  /** The search: the first step from the minimum start that passes the test. */
  function FirstFit(lefts: seq<nat>, from: nat): (x: nat)
    decreases if from < Horizon(lefts) then Horizon(lefts) - from else 0
  {
    if FitsSampled(lefts, from) then from
    else
      assert from < Horizon(lefts) by {
        if from >= Horizon(lefts) { FitsAtHorizon(lefts, from); }
      }
      FirstFit(lefts, from + STEP)
  }

  function AdaptiveLefts(tasks: seq<Task>): (lefts: seq<nat>)
    ensures |lefts| == |tasks|
  {
    if tasks == [] then []
    else
      var last := |tasks| - 1;
      var front := AdaptiveLefts(tasks[..last]);
      front + [FirstFit(front, MinStart(tasks[last].dependencies, EndsOf(tasks[..last], front)))]
  }

  // ---- The grid ----

  ghost predicate OnGrid(lefts: seq<nat>) {
    forall i :: 0 <= i < |lefts| ==> lefts[i] % WIDTH == 0
  }

  /** On the grid the height is the same throughout each column. */
  lemma {:induction false} ColumnHeight(lefts: seq<nat>, x: nat, y: nat)
    requires OnGrid(lefts) && x / WIDTH == y / WIDTH
    ensures Height(lefts, x) == Height(lefts, y)
    decreases |lefts|
  {
    if lefts != [] {
      var last := |lefts| - 1;
      ColumnHeight(lefts[..last], x, y);
      assert lefts == lefts[..last] + [lefts[last]];
      HeightAfter(lefts[..last], lefts[last], x);
      HeightAfter(lefts[..last], lefts[last], y);
      assert lefts[last] % WIDTH == 0;
    }
  }

  /** A block placed at x stays within the limit at every point it covers. */
  ghost predicate Clear(lefts: seq<nat>, x: nat) {
    forall p :: x <= p < x + WIDTH ==> Height(lefts, p) + HEIGHT <= LIMIT
  }

  /** Every covered point shares its column with a sampled one. */
  lemma SampleBelow(x: nat, p: nat) returns (i: nat)
    requires x % STEP == 0 && x <= p < x + WIDTH
    ensures i < 8 && (x + STEP * i) / WIDTH == p / WIDTH
  {
    var a, b := x / 10, p / 10;
    i := b - a;
    assert x + STEP * i == 10 * b;
    assert (10 * b) / 80 == b / 8;
    assert p / 80 == b / 8;
  }

  /** Testing every tenth pixel is enough. */
  lemma SamplingIsExact(lefts: seq<nat>, x: nat)
    requires OnGrid(lefts) && x % STEP == 0
    ensures FitsSampled(lefts, x) <==> Clear(lefts, x)
  {
    if FitsSampled(lefts, x) {
      forall p | x <= p < x + WIDTH
        ensures Height(lefts, p) + HEIGHT <= LIMIT
      {
        var i := SampleBelow(x, p);
        assert Height(lefts, x + STEP * i) + HEIGHT <= LIMIT;
        ColumnHeight(lefts, p, x + STEP * i);
      }
    }
  }

  /** What the search promises for one block placed on top of those before it: the earliest step from the
      minimum start at which it really fits. */
  ghost predicate PlacedWell(before: seq<nat>, minStart: nat, left: nat) {
    && left >= minStart && left % STEP == 0
    && Clear(before, left)
    && forall y :: minStart <= y < left && y % STEP == 0 ==> !Clear(before, y)
  }

  lemma NoStepBetween(from: nat, y: nat)
    requires from % STEP == 0 && y % STEP == 0 && from <= y < from + STEP
    ensures y == from
  {
  }

  lemma PlacedLater(before: seq<nat>, from: nat, left: nat)
    requires from % STEP == 0 && !Clear(before, from) && PlacedWell(before, from + STEP, left)
    ensures PlacedWell(before, from, left)
  {
    forall y | from <= y < left && y % STEP == 0
      ensures !Clear(before, y)
    {
      if y < from + STEP {
        NoStepBetween(from, y);
      }
    }
  }

  lemma {:induction false} FirstFitIsEarliest(lefts: seq<nat>, from: nat)
    requires OnGrid(lefts) && from % STEP == 0
    ensures PlacedWell(lefts, from, FirstFit(lefts, from))
    decreases if from < Horizon(lefts) then Horizon(lefts) - from else 0
  {
    SamplingIsExact(lefts, from);
    if !FitsSampled(lefts, from) {
      if from >= Horizon(lefts) {
        FitsAtHorizon(lefts, from);
      }
      FirstFitIsEarliest(lefts, from + STEP);
      PlacedLater(lefts, from, FirstFit(lefts, from + STEP));
    }
  }

  /** A full column is left as a whole. */
  lemma FullColumn(lefts: seq<nat>, column: nat, x: nat)
    requires OnGrid(lefts) && column % WIDTH == 0 && column <= x < column + WIDTH && !Clear(lefts, column)
    ensures !Clear(lefts, x)
  {
    var p :| column <= p < column + WIDTH && Height(lefts, p) + HEIGHT > LIMIT;
    ColumnHeight(lefts, p, x);
    assert Height(lefts, x) + HEIGHT > LIMIT;
  }

  function ColumnOf(x: nat): (column: nat)
    ensures column % WIDTH == 0 && column % STEP == 0 && column <= x < column + WIDTH
  {
    x / WIDTH * WIDTH
  }

  lemma FirstFitOnGrid(lefts: seq<nat>, from: nat)
    requires OnGrid(lefts) && from % WIDTH == 0
    ensures FirstFit(lefts, from) % WIDTH == 0
  {
    var x := FirstFit(lefts, from);
    FirstFitIsEarliest(lefts, from);
    var column := ColumnOf(x);
    if column < x {
      StartsColumn(from, x);
      assert !Clear(lefts, column);
      FullColumn(lefts, column, x);
    }
  }

  lemma StartsColumn(from: nat, x: nat)
    requires from % WIDTH == 0 && from <= x
    ensures from <= ColumnOf(x)
  {
  }

  lemma {:induction false} EndsOnGrid(tasks: seq<Task>, lefts: seq<nat>)
    requires |tasks| == |lefts| && OnGrid(lefts)
    ensures forall t :: t in EndsOf(tasks, lefts) ==> EndsOf(tasks, lefts)[t] % WIDTH == 0
    decreases |tasks|
  {
    if tasks != [] {
      EndsOnGrid(tasks[..|tasks| - 1], lefts[..|tasks| - 1]);
    }
  }

  lemma {:induction false} MinStartOnGrid(dependencies: seq<string>, ends: Ends)
    requires forall t :: t in ends ==> ends[t] % WIDTH == 0
    ensures MinStart(dependencies, ends) % WIDTH == 0
    decreases |dependencies|
  {
    if dependencies != [] {
      MinStartOnGrid(dependencies[..|dependencies| - 1], ends);
    }
  }

  /** In both layouts every block starts at a multiple of the block width. */
  lemma {:induction false} LayoutsOnGrid(tasks: seq<Task>)
    ensures OnGrid(BaselineLefts(tasks)) && OnGrid(AdaptiveLefts(tasks))
    decreases |tasks|
  {
    if tasks != [] {
      var last := |tasks| - 1;
      var front := tasks[..last];
      LayoutsOnGrid(front);
      EndsOnGrid(front, BaselineLefts(front));
      EndsOnGrid(front, AdaptiveLefts(front));
      MinStartOnGrid(tasks[last].dependencies, EndsOf(front, BaselineLefts(front)));
      MinStartOnGrid(tasks[last].dependencies, EndsOf(front, AdaptiveLefts(front)));
      FirstFitOnGrid(AdaptiveLefts(front), MinStart(tasks[last].dependencies, EndsOf(front, AdaptiveLefts(front))));
    }
  }

  // ---- Soundness of the adaptive layout ----

  lemma FirstFitPlacesWell(before: seq<nat>, minStart: nat)
    requires OnGrid(before) && minStart % WIDTH == 0
    ensures PlacedWell(before, minStart, FirstFit(before, minStart))
  {
    FirstFitIsEarliest(before, minStart);
  }

  lemma LastPlaced(tasks: seq<Task>)
    requires tasks != []
    ensures var last := |tasks| - 1;
            var front := AdaptiveLefts(tasks[..last]);
            && AdaptiveLefts(tasks)[..last] == front
            && PlacedWell(front, MinStart(tasks[last].dependencies, EndsOf(tasks[..last], front)),
                          AdaptiveLefts(tasks)[last])
  {
    var last := |tasks| - 1;
    var front := AdaptiveLefts(tasks[..last]);
    var ends := EndsOf(tasks[..last], front);
    LastOfAdaptive(tasks);
    LayoutsOnGrid(tasks[..last]);
    EndsOnGrid(tasks[..last], front);
    MinStartOnGrid(tasks[last].dependencies, ends);
    FirstFitPlacesWell(front, MinStart(tasks[last].dependencies, ends));
    assert AdaptiveLefts(tasks)[last] == FirstFit(front, MinStart(tasks[last].dependencies, ends));
  }

  /** The stacked height of the adaptive layout never exceeds the limit, at any point in time. */
  lemma {:induction false} AdaptiveWithinLimit(tasks: seq<Task>, x: nat)
    ensures Height(AdaptiveLefts(tasks), x) <= LIMIT
    decreases |tasks|
  {
    if tasks != [] {
      var last := |tasks| - 1;
      var lefts := AdaptiveLefts(tasks);
      AdaptiveWithinLimit(tasks[..last], x);
      LastPlaced(tasks);
      assert lefts == lefts[..last] + [lefts[last]];
      HeightAfter(lefts[..last], lefts[last], x);
    }
  }

  lemma {:induction false} AdaptivePrefix(tasks: seq<Task>, k: nat)
    requires k <= |tasks|
    ensures AdaptiveLefts(tasks[..k]) == AdaptiveLefts(tasks)[..k]
    decreases |tasks|
  {
    if k < |tasks| {
      var front := tasks[..|tasks| - 1];
      AdaptivePrefix(front, k);
      assert front[..k] == tasks[..k];
      LastOfAdaptive(tasks);
      assert AdaptiveLefts(tasks)[..k] == AdaptiveLefts(front)[..k];
    } else {
      assert tasks[..k] == tasks;
    }
  }

  lemma LastOfAdaptive(tasks: seq<Task>)
    requires tasks != []
    ensures AdaptiveLefts(tasks)[..|tasks| - 1] == AdaptiveLefts(tasks[..|tasks| - 1])
  {
  }

  lemma {:induction false} BaselinePrefix(tasks: seq<Task>, k: nat)
    requires k <= |tasks|
    ensures BaselineLefts(tasks[..k]) == BaselineLefts(tasks)[..k]
    decreases |tasks|
  {
    if k < |tasks| {
      var front := tasks[..|tasks| - 1];
      BaselinePrefix(front, k);
      assert front[..k] == tasks[..k];
      LastOfBaseline(tasks);
      assert BaselineLefts(tasks)[..k] == BaselineLefts(front)[..k];
    } else {
      assert tasks[..k] == tasks;
    }
  }

  lemma LastOfBaseline(tasks: seq<Task>)
    requires tasks != []
    ensures BaselineLefts(tasks)[..|tasks| - 1] == BaselineLefts(tasks[..|tasks| - 1])
  {
  }

  // ---- Starts and heights in plain numbers ----

  /** The j-th task is the last one before the i-th that carries the name of a dependency of the i-th. */
  ghost predicate Provides(tasks: seq<Task>, i: nat, j: nat) {
    j < i < |tasks| && tasks[j].name in tasks[i].dependencies && LastOf(tasks, i, tasks[j].name, j)
  }

  ghost predicate LastOf(tasks: seq<Task>, n: nat, name: string, j: nat) {
    j < n <= |tasks| && tasks[j].name == name && forall k :: j < k < n ==> tasks[k].name != name
  }

  /** x is the latest end of the i-th task's dependencies among the tasks before it, or 0 if there is none. */
  ghost predicate IsLatestEnd(tasks: seq<Task>, lefts: seq<nat>, i: nat, x: nat)
    requires i < |tasks| == |lefts|
  {
    && (x == 0 || exists j: nat :: Provides(tasks, i, j) && x == lefts[j] + 80)
    && (forall j: nat :: Provides(tasks, i, j) ==> lefts[j] + 80 <= x)
  }

  lemma {:induction false} EndsOfIs(tasks: seq<Task>, lefts: seq<nat>, n: nat, name: string)
    requires n <= |tasks| == |lefts|
    ensures (forall j :: 0 <= j < n ==> tasks[j].name != name) ==> EndOf(EndsOf(tasks[..n], lefts[..n]), name) == 0
    ensures forall j: nat :: LastOf(tasks, n, name, j) ==> EndOf(EndsOf(tasks[..n], lefts[..n]), name) == lefts[j] + 80
  {
    if n > 0 {
      EndsOfIs(tasks, lefts, n - 1, name);
      assert tasks[..n][..n - 1] == tasks[..n - 1] && lefts[..n][..n - 1] == lefts[..n - 1];
      forall j: nat | LastOf(tasks, n, name, j)
        ensures EndOf(EndsOf(tasks[..n], lefts[..n]), name) == lefts[j] + 80
      {
        if j < n - 1 {
          assert LastOf(tasks, n - 1, name, j);
        }
      }
    }
  }

  lemma {:induction false} LastListing(tasks: seq<Task>, n: nat, name: string, i: nat) returns (j: nat)
    requires i < n <= |tasks| && tasks[i].name == name
    ensures LastOf(tasks, n, name, j)
    decreases n - i
  {
    if k :| i < k < n && tasks[k].name == name {
      j := LastListing(tasks, n, name, k);
    } else {
      j := i;
    }
  }

  lemma {:induction false} MinStartReached(dependencies: seq<string>, ends: Ends)
    ensures MinStart(dependencies, ends) == 0
            || exists k :: 0 <= k < |dependencies| && MinStart(dependencies, ends) == EndOf(ends, dependencies[k])
    decreases |dependencies|
  {
    if dependencies != [] {
      var front := dependencies[..|dependencies| - 1];
      MinStartReached(front, ends);
      if MinStart(dependencies, ends) != 0 && MinStart(dependencies, ends) == MinStart(front, ends) {
        var k :| 0 <= k < |front| && MinStart(front, ends) == EndOf(ends, front[k]);
        assert dependencies[k] == front[k];
      }
    }
  }

  lemma MinStartIsLatestEnd(tasks: seq<Task>, lefts: seq<nat>, i: nat)
    requires i < |tasks| == |lefts|
    ensures IsLatestEnd(tasks, lefts, i, MinStart(tasks[i].dependencies, EndsOf(tasks[..i], lefts[..i])))
  {
    var deps, ends := tasks[i].dependencies, EndsOf(tasks[..i], lefts[..i]);
    var x := MinStart(deps, ends);
    MinStartReached(deps, ends);
    if x != 0 {
      var k :| 0 <= k < |deps| && x == EndOf(ends, deps[k]);
      EndsOfIs(tasks, lefts, i, deps[k]);
      var j0 :| 0 <= j0 < i && tasks[j0].name == deps[k];
      var j := LastListing(tasks, i, deps[k], j0);
      assert Provides(tasks, i, j);
    }
    forall j: nat | Provides(tasks, i, j)
      ensures lefts[j] + 80 <= x
    {
      var k :| 0 <= k < |deps| && deps[k] == tasks[j].name;
      EndsOfIs(tasks, lefts, i, deps[k]);
      MinStartCovers(deps, ends, k);
    }
  }

  /** The baseline starts each task exactly when the last of its dependencies ends. */
  lemma BaselineIsLatestEnd(tasks: seq<Task>, i: nat)
    requires i < |tasks|
    ensures IsLatestEnd(tasks, BaselineLefts(tasks), i, BaselineLefts(tasks)[i])
  {
    BaselineAt(tasks, i);
    MinStartIsLatestEnd(tasks, BaselineLefts(tasks), i);
  }

  /** Each block takes the earliest 10-px step, from the latest end of its dependencies, at which it fits
      on top of the blocks before it. */
  lemma AdaptiveIsEarliest(tasks: seq<Task>, i: nat)
    requires i < |tasks|
    ensures var lefts := AdaptiveLefts(tasks);
            exists minStart :: IsLatestEnd(tasks, lefts, i, minStart) && PlacedWell(lefts[..i], minStart, lefts[i])
  {
    AdaptivePlaced(tasks, i);
    MinStartIsLatestEnd(tasks, AdaptiveLefts(tasks), i);
  }

  lemma AdaptivePlaced(tasks: seq<Task>, i: nat)
    requires i < |tasks|
    ensures var lefts := AdaptiveLefts(tasks);
            PlacedWell(lefts[..i], MinStart(tasks[i].dependencies, EndsOf(tasks[..i], lefts[..i])), lefts[i])
  {
    AdaptivePrefix(tasks, i + 1);
    AdaptivePrefix(tasks, i);
    LastPlaced(tasks[..i + 1]);
    assert tasks[..i + 1][..i] == tasks[..i];
  }

  /** How many blocks cover a point in time; each is 80 wide. */
  ghost function Covering(lefts: seq<nat>, x: nat): nat {
    |Cover(lefts, x)|
  }

  ghost function Cover(lefts: seq<nat>, x: nat): set<int> {
    set i | 0 <= i < |lefts| && lefts[i] <= x < lefts[i] + 80
  }

  lemma CoveringAfter(lefts: seq<nat>, left: nat, x: nat)
    ensures Covering(lefts + [left], x) == Covering(lefts, x) + if left <= x < left + 80 then 1 else 0
  {
    var longer := lefts + [left];
    var before, after := Cover(lefts, x), Cover(longer, x);
    assert forall i :: 0 <= i < |lefts| ==> longer[i] == lefts[i];
    forall i
      ensures i in after <==> i in before || (i == |lefts| && left <= x < left + 80)
    {
    }
    if left <= x < left + 80 {
      assert after == before + {|lefts|};
    } else {
      assert after == before;
    }
  }

  /** Every covering block adds 65 to the height. */
  lemma {:induction false} HeightIsCovering(lefts: seq<nat>, x: nat)
    ensures Height(lefts, x) == 65 * Covering(lefts, x)
    decreases |lefts|
  {
    if lefts == [] {
      assert Cover(lefts, x) == {};
    } else {
      var front := lefts[..|lefts| - 1];
      HeightIsCovering(front, x);
      assert lefts == front + [lefts[|lefts| - 1]];
      HeightAfter(front, lefts[|lefts| - 1], x);
      CoveringAfter(front, lefts[|lefts| - 1], x);
    }
  }

  /** A block fits where at most one other is: two make 130, three would make 195, and the limit is 150. */
  lemma ClearIff(lefts: seq<nat>, x: nat)
    ensures Clear(lefts, x) <==> forall p :: x <= p < x + 80 ==> Covering(lefts, p) <= 1
  {
    forall p: nat
      ensures Height(lefts, p) + HEIGHT <= LIMIT <==> Covering(lefts, p) <= 1
    {
      HeightIsCovering(lefts, p);
    }
  }

  /** The limit is exceeded exactly where three blocks meet. */
  lemma ExceedsIff(lefts: seq<nat>)
    ensures Exceeds(lefts) <==> exists x: nat :: Covering(lefts, x) >= 3
  {
    if x: nat :| Height(lefts, x) > LIMIT {
      HeightIsCovering(lefts, x);
    }
    if x: nat :| Covering(lefts, x) >= 3 {
      HeightIsCovering(lefts, x);
      assert Height(lefts, x) > LIMIT;
    }
  }

  // ---- Dependencies ----

  ghost predicate UniqueTasks(tasks: seq<Task>) {
    forall i, j :: 0 <= i < j < |tasks| ==> tasks[i].name != tasks[j].name
  }

  lemma {:induction false} EndsAt(tasks: seq<Task>, lefts: seq<nat>, i: nat)
    requires |tasks| == |lefts| && i < |tasks| && UniqueTasks(tasks)
    ensures EndOf(EndsOf(tasks, lefts), tasks[i].name) == lefts[i] + WIDTH
    decreases |tasks|
  {
    var last := |tasks| - 1;
    if i < last {
      EndsAt(tasks[..last], lefts[..last], i);
      assert tasks[last].name != tasks[i].name;
    }
  }

  lemma {:induction false} MinStartCovers(dependencies: seq<string>, ends: Ends, k: nat)
    requires k < |dependencies|
    ensures EndOf(ends, dependencies[k]) <= MinStart(dependencies, ends)
    decreases |dependencies|
  {
    var last := |dependencies| - 1;
    if k < last {
      MinStartCovers(dependencies[..last], ends, k);
    }
  }

  /** A task listed after one of its dependencies starts, in both layouts, no earlier than that ends. */
  lemma DependenciesEndFirst(tasks: seq<Task>, i: nat, j: nat)
    requires UniqueTasks(tasks) && i < j < |tasks| && tasks[i].name in tasks[j].dependencies
    ensures AdaptiveLefts(tasks)[j] >= AdaptiveLefts(tasks)[i] + WIDTH
    ensures BaselineLefts(tasks)[j] >= BaselineLefts(tasks)[i] + WIDTH
  {
    var k :| 0 <= k < |tasks[j].dependencies| && tasks[j].dependencies[k] == tasks[i].name;
    AdaptivePlaced(tasks, j);
    EndsAt(tasks[..j], AdaptiveLefts(tasks)[..j], i);
    MinStartCovers(tasks[j].dependencies, EndsOf(tasks[..j], AdaptiveLefts(tasks)[..j]), k);
    BaselineAt(tasks, j);
    EndsAt(tasks[..j], BaselineLefts(tasks)[..j], i);
    MinStartCovers(tasks[j].dependencies, EndsOf(tasks[..j], BaselineLefts(tasks)[..j]), k);
  }

  lemma BaselineAt(tasks: seq<Task>, i: nat)
    requires i < |tasks|
    ensures BaselineLefts(tasks)[i] == MinStart(tasks[i].dependencies, EndsOf(tasks[..i], BaselineLefts(tasks)[..i]))
  {
    BaselinePrefix(tasks, i + 1);
    BaselinePrefix(tasks, i);
    assert tasks[..i + 1][..i] == tasks[..i];
  }

  // ---- Stacking ----

  /** A block sits on top of everything placed before it at its start. */
  function Bottom(lefts: seq<nat>, i: nat): nat
    requires i < |lefts|
  {
    Height(lefts[..i], lefts[i])
  }

  lemma {:induction false} HeightGrows(lefts: seq<nat>, k: nat, x: nat)
    requires k <= |lefts|
    ensures Height(lefts[..k], x) <= Height(lefts, x)
    decreases |lefts|
  {
    if k < |lefts| {
      var last := |lefts| - 1;
      HeightGrows(lefts[..last], k, x);
      assert lefts[..last][..k] == lefts[..k] && lefts == lefts[..last] + [lefts[last]];
      HeightAfter(lefts[..last], lefts[last], x);
    } else {
      assert lefts[..k] == lefts;
    }
  }

  /** On the grid, blocks in one column never overlap: each starts at or above the top of those before. */
  lemma StackedApart(lefts: seq<nat>, i: nat, j: nat)
    requires OnGrid(lefts) && i < j < |lefts| && lefts[i] < lefts[j] + WIDTH && lefts[j] < lefts[i] + WIDTH
    ensures Bottom(lefts, i) + HEIGHT <= Bottom(lefts, j)
  {
    assert lefts[i] % WIDTH == 0 && lefts[j] % WIDTH == 0;
    assert lefts[i] == lefts[j];
    HeightGrows(lefts[..j], i + 1, lefts[i]);
    assert lefts[..j][..i + 1] == lefts[..i] + [lefts[i]];
    HeightAfter(lefts[..i], lefts[i], lefts[i]);
  }

  /** The rectangles of blocks i and j share no area. */
  predicate Apart(lefts: seq<nat>, i: nat, j: nat)
    requires i < |lefts| && j < |lefts|
  {
    || lefts[i] + WIDTH <= lefts[j]
    || lefts[j] + WIDTH <= lefts[i]
    || Bottom(lefts, i) + HEIGHT <= Bottom(lefts, j)
    || Bottom(lefts, j) + HEIGHT <= Bottom(lefts, i)
  }

  lemma NoOverlap(tasks: seq<Task>, i: nat, j: nat)
    requires i < j < |tasks|
    ensures Apart(AdaptiveLefts(tasks), i, j) && Apart(BaselineLefts(tasks), i, j)
  {
    LayoutsOnGrid(tasks);
    GridApart(AdaptiveLefts(tasks), i, j);
    GridApart(BaselineLefts(tasks), i, j);
  }

  lemma GridApart(lefts: seq<nat>, i: nat, j: nat)
    requires OnGrid(lefts) && i < j < |lefts|
    ensures Apart(lefts, i, j)
  {
    if lefts[i] < lefts[j] + WIDTH && lefts[j] < lefts[i] + WIDTH {
      StackedApart(lefts, i, j);
    }
  }

  // ---- Crashing ----

  ghost predicate Crashes(lefts: seq<nat>) {
    exists i :: 0 <= i < |lefts| && Bottom(lefts, i) + HEIGHT > LIMIT
  }

  ghost predicate Exceeds(lefts: seq<nat>) {
    exists x: nat :: Height(lefts, x) > LIMIT
  }

  lemma {:induction false} TopBlock(lefts: seq<nat>, x: nat)
    requires OnGrid(lefts) && Height(lefts, x) > LIMIT
    ensures Crashes(lefts)
    decreases |lefts|
  {
    var last := |lefts| - 1;
    var front := lefts[..last];
    assert lefts == front + [lefts[last]];
    HeightAfter(front, lefts[last], x);
    if lefts[last] <= x < lefts[last] + WIDTH {
      assert lefts[last] % WIDTH == 0;
      ColumnHeight(front, x, lefts[last]);
      assert Bottom(lefts, last) + HEIGHT > LIMIT;
    } else {
      TopBlock(front, x);
      var i :| 0 <= i < |front| && Bottom(front, i) + HEIGHT > LIMIT;
      assert front[..i] == lefts[..i];
      assert Bottom(lefts, i) + HEIGHT > LIMIT;
    }
  }

  /** On the grid some block is marked as crashed exactly when the usage really exceeds the limit. */
  lemma CrashesIffExceeds(lefts: seq<nat>)
    requires OnGrid(lefts)
    ensures Crashes(lefts) <==> Exceeds(lefts)
  {
    if Crashes(lefts) {
      var i :| 0 <= i < |lefts| && Bottom(lefts, i) + HEIGHT > LIMIT;
      HeightAfter(lefts[..i], lefts[i], lefts[i]);
      assert lefts[..i + 1] == lefts[..i] + [lefts[i]];
      HeightGrows(lefts, i + 1, lefts[i]);
    }
    if Exceeds(lefts) {
      var x: nat :| Height(lefts, x) > LIMIT;
      TopBlock(lefts, x);
    }
  }

  // ---- Comparing the layouts ----

  ghost predicate NoEarlier(a: seq<nat>, b: seq<nat>) {
    |a| == |b| && forall i :: 0 <= i < |a| ==> b[i] <= a[i]
  }

  lemma {:induction false} LaterEnds(tasks: seq<Task>, a: seq<nat>, b: seq<nat>, name: string)
    requires |tasks| == |a| && NoEarlier(a, b)
    ensures EndOf(EndsOf(tasks, b), name) <= EndOf(EndsOf(tasks, a), name)
    decreases |tasks|
  {
    if tasks != [] {
      LaterEnds(tasks[..|tasks| - 1], a[..|tasks| - 1], b[..|tasks| - 1], name);
    }
  }

  lemma {:induction false} LaterMinStart(dependencies: seq<string>, a: Ends, b: Ends)
    requires forall name :: EndOf(b, name) <= EndOf(a, name)
    ensures MinStart(dependencies, b) <= MinStart(dependencies, a)
    decreases |dependencies|
  {
    if dependencies != [] {
      LaterMinStart(dependencies[..|dependencies| - 1], a, b);
    }
  }

  /** The adaptive layout starts no task earlier than the baseline does. */
  lemma {:induction false} AdaptiveNoEarlier(tasks: seq<Task>)
    ensures NoEarlier(AdaptiveLefts(tasks), BaselineLefts(tasks))
    decreases |tasks|
  {
    if tasks != [] {
      var last := |tasks| - 1;
      var front := tasks[..last];
      AdaptiveNoEarlier(front);
      forall name
        ensures EndOf(EndsOf(front, BaselineLefts(front)), name) <= EndOf(EndsOf(front, AdaptiveLefts(front)), name)
      {
        LaterEnds(front, AdaptiveLefts(front), BaselineLefts(front), name);
      }
      LaterMinStart(tasks[last].dependencies, EndsOf(front, AdaptiveLefts(front)), EndsOf(front, BaselineLefts(front)));
      LastPlaced(tasks);
    }
  }

  lemma {:induction false} SameWhileCalm(tasks: seq<Task>)
    requires !Crashes(BaselineLefts(tasks))
    ensures AdaptiveLefts(tasks) == BaselineLefts(tasks)
    decreases |tasks|
  {
    if tasks != [] {
      var last := |tasks| - 1;
      var lefts, front := BaselineLefts(tasks), BaselineLefts(tasks[..last]);
      assert lefts[..last] == front;
      forall i | 0 <= i < last
        ensures Bottom(front, i) + HEIGHT <= LIMIT
      {
        assert front[..i] == lefts[..i];
        assert Bottom(lefts, i) + HEIGHT <= LIMIT;
      }
      SameWhileCalm(tasks[..last]);
      LayoutsOnGrid(tasks[..last]);
      LayoutsOnGrid(tasks);
      assert Bottom(lefts, last) + HEIGHT <= LIMIT;
      forall i | 0 <= i < 8
        ensures Height(front, lefts[last] + STEP * i) + HEIGHT <= LIMIT
      {
        assert lefts[last] % WIDTH == 0;
        ColumnHeight(front, lefts[last] + STEP * i, lefts[last]);
      }
      assert FitsSampled(front, lefts[last]);
    }
  }

  /** The two layouts coincide exactly when the baseline does not crash. */
  lemma LayoutsCoincideIff(tasks: seq<Task>)
    ensures AdaptiveLefts(tasks) == BaselineLefts(tasks) <==> !Exceeds(BaselineLefts(tasks))
  {
    LayoutsOnGrid(tasks);
    CrashesIffExceeds(BaselineLefts(tasks));
    if !Exceeds(BaselineLefts(tasks)) {
      SameWhileCalm(tasks);
    } else if AdaptiveLefts(tasks) == BaselineLefts(tasks) {
      var x: nat :| Height(BaselineLefts(tasks), x) > LIMIT;
      AdaptiveWithinLimit(tasks, x);
    }
  }

  // ---- The simulator ----

  method LatestEnd(dependencies: seq<string>, ends: Ends) returns (latest: nat)
    ensures latest == MinStart(dependencies, ends)
  {
    latest := 0;
    for k := 0 to |dependencies|
      invariant latest == MinStart(dependencies[..k], ends)
    {
      assert dependencies[..k + 1][..k] == dependencies[..k];
      latest := Max(latest, EndOf(ends, dependencies[k]));
    }
    assert dependencies[..|dependencies|] == dependencies;
  }

  function BaselineBlockAt(lefts: seq<nat>, i: nat): BaselineBlock
    requires i < |lefts|
  {
    BaselineBlock(lefts[i], Bottom(lefts, i), Bottom(lefts, i) + HEIGHT > LIMIT)
  }

  method LayOutBaseline(tasks: seq<Task>) returns (blocks: seq<BaselineBlock>)
    ensures |blocks| == |tasks|
    ensures forall i :: 0 <= i < |tasks| ==> blocks[i] == BaselineBlockAt(BaselineLefts(tasks), i)
    ensures forall i :: 0 <= i < |tasks| ==> BaselineWell(tasks, BaselineLefts(tasks), i, blocks[i])
  {
    blocks := [];
    var ends: Ends := map[];
    var stacks: map<nat, nat> := map[];
    ghost var lefts := BaselineLefts(tasks);
    LayoutsOnGrid(tasks);
    for n := 0 to |tasks|
      invariant |blocks| == n && EndsSoFar(tasks, lefts, n, ends) && StacksSoFar(lefts, n, stacks)
      invariant forall i :: 0 <= i < n ==> blocks[i] == BaselineBlockAt(lefts, i)
    {
      var startX := LatestEnd(tasks[n].dependencies, ends);
      var startY := if startX in stacks then stacks[startX] else 0;
      BaselineStart(tasks, n, ends);
      StackNext(lefts, n, stacks);
      stacks := stacks[startX := startY + HEIGHT];
      EndsNext(tasks, lefts, n, ends);
      ends := ends[tasks[n].name := startX + WIDTH];
      blocks := blocks + [BaselineBlock(startX, startY, startY + HEIGHT > LIMIT)];
    }
    forall i | 0 <= i < |tasks|
      ensures BaselineWell(tasks, lefts, i, blocks[i])
    {
      BaselineBlockWell(tasks, i);
    }
  }

  /** The tables after the first n tasks. */
  ghost predicate EndsSoFar(tasks: seq<Task>, lefts: seq<nat>, n: nat, ends: Ends)
    requires n <= |tasks| == |lefts|
  {
    ends == EndsOf(tasks[..n], lefts[..n])
  }

  ghost predicate StacksSoFar(lefts: seq<nat>, n: nat, stacks: map<nat, nat>)
    requires n <= |lefts|
  {
    CountsColumns(stacks, lefts[..n])
  }

  lemma BaselineStart(tasks: seq<Task>, n: nat, ends: Ends)
    requires n < |tasks| && EndsSoFar(tasks, BaselineLefts(tasks), n, ends)
    ensures MinStart(tasks[n].dependencies, ends) == BaselineLefts(tasks)[n]
  {
    BaselineAt(tasks, n);
  }

  lemma StackNext(lefts: seq<nat>, n: nat, stacks: map<nat, nat>)
    requires OnGrid(lefts) && n < |lefts| && StacksSoFar(lefts, n, stacks)
    ensures var startY := if lefts[n] in stacks then stacks[lefts[n]] else 0;
            startY == Bottom(lefts, n) && StacksSoFar(lefts, n + 1, stacks[lefts[n] := startY + HEIGHT])
  {
    StackOne(stacks, lefts[..n], lefts[n]);
    assert lefts[..n + 1] == lefts[..n] + [lefts[n]];
  }

  /** The per-column counter is the true height at the start of every column. */
  ghost predicate CountsColumns(stacks: map<nat, nat>, lefts: seq<nat>) {
    forall x: nat :: x % WIDTH == 0 ==> (if x in stacks then stacks[x] else 0) == Height(lefts, x)
  }

  lemma StackOne(stacks: map<nat, nat>, lefts: seq<nat>, left: nat)
    requires left % WIDTH == 0 && CountsColumns(stacks, lefts)
    ensures CountsColumns(stacks[left := Height(lefts, left) + HEIGHT], lefts + [left])
  {
    var after := stacks[left := Height(lefts, left) + HEIGHT];
    forall x: nat | x % WIDTH == 0
      ensures (if x in after then after[x] else 0) == Height(lefts + [left], x)
    {
      HeightAfter(lefts, left, x);
      if left <= x < left + WIDTH {
        SameColumn(left, x);
      }
    }
  }

  lemma SameColumn(left: nat, x: nat)
    requires left % WIDTH == 0 && x % WIDTH == 0 && left <= x < left + WIDTH
    ensures x == left
  {
  }

  lemma EndsNext(tasks: seq<Task>, lefts: seq<nat>, n: nat, ends: Ends)
    requires n < |tasks| == |lefts| && EndsSoFar(tasks, lefts, n, ends)
    ensures EndsSoFar(tasks, lefts, n + 1, ends[tasks[n].name := lefts[n] + WIDTH])
  {
    assert tasks[..n + 1][..n] == tasks[..n] && lefts[..n + 1][..n] == lefts[..n];
  }

  /** The largest stacked height among the sampled points of a candidate position. */
  method SampleMax(profile: seq<Slot>, startX: nat) returns (maxMem: nat)
    ensures forall i :: 0 <= i < 8 ==> MemAt(profile, startX + STEP * i) <= maxMem
    ensures maxMem == 0 || exists i :: 0 <= i < 8 && MemAt(profile, startX + STEP * i) == maxMem
  {
    maxMem := 0;
    var ix := startX;
    ghost var k := 0;
    while ix < startX + WIDTH
      invariant 0 <= k <= 8 && ix == startX + STEP * k
      invariant forall i :: 0 <= i < k ==> MemAt(profile, startX + STEP * i) <= maxMem
      invariant maxMem == 0 || exists i :: 0 <= i < k && MemAt(profile, startX + STEP * i) == maxMem
      decreases startX + WIDTH - ix
    {
      maxMem := Max(maxMem, MemAt(profile, ix));
      ix := ix + STEP;
      k := k + 1;
    }
  }

  /** The open-ended search terminates, whatever has been placed already. */
  method Search(profile: seq<Slot>, minStart: nat, ghost lefts: seq<nat>) returns (startX: nat)
    requires profile == Profile(lefts)
    ensures startX == FirstFit(lefts, minStart)
  {
    startX := minStart;
    while true
      invariant FirstFit(lefts, startX) == FirstFit(lefts, minStart)
      decreases if startX < Horizon(lefts) then Horizon(lefts) - startX else 0
    {
      var maxMem := SampleMax(profile, startX);
      assert maxMem + HEIGHT <= LIMIT <==> FitsSampled(lefts, startX);
      if maxMem + HEIGHT <= LIMIT {
        break;
      }
      if startX >= Horizon(lefts) {
        FitsAtHorizon(lefts, startX);
      }
      startX := startX + STEP;
    }
  }

  function AdaptiveBlockAt(lefts: seq<nat>, i: nat): AdaptiveBlock
    requires i < |lefts|
  {
    AdaptiveBlock(lefts[i], Bottom(lefts, i))
  }

  method LayOutAdaptive(tasks: seq<Task>) returns (blocks: seq<AdaptiveBlock>)
    ensures |blocks| == |tasks|
    ensures forall i :: 0 <= i < |tasks| ==> blocks[i] == AdaptiveBlockAt(AdaptiveLefts(tasks), i)
    ensures forall i :: 0 <= i < |tasks| ==> AdaptiveWell(tasks, AdaptiveLefts(tasks), i, blocks[i])
  {
    blocks := [];
    var ends: Ends := map[];
    var profile: seq<Slot> := [];
    ghost var lefts := AdaptiveLefts(tasks);
    for n := 0 to |tasks|
      invariant |blocks| == n && EndsSoFar(tasks, lefts, n, ends) && ProfileSoFar(lefts, n, profile)
      invariant forall i :: 0 <= i < n ==> blocks[i] == AdaptiveBlockAt(lefts, i)
    {
      var minStart := LatestEnd(tasks[n].dependencies, ends);
      var startX := Search(profile, minStart, lefts[..n]);
      AdaptiveStart(tasks, n, ends);
      var bottom := MemAt(profile, startX);
      ProfileNext(lefts, n, profile);
      profile := profile + [Slot(startX, startX + WIDTH, HEIGHT)];
      EndsNext(tasks, lefts, n, ends);
      ends := ends[tasks[n].name := startX + WIDTH];
      blocks := blocks + [AdaptiveBlock(startX, bottom)];
    }
    forall i | 0 <= i < |tasks|
      ensures AdaptiveWell(tasks, lefts, i, blocks[i])
    {
      AdaptiveBlockWell(tasks, i);
    }
  }

  ghost predicate ProfileSoFar(lefts: seq<nat>, n: nat, profile: seq<Slot>)
    requires n <= |lefts|
  {
    profile == Profile(lefts[..n])
  }

  lemma AdaptiveStart(tasks: seq<Task>, n: nat, ends: Ends)
    requires n < |tasks| && EndsSoFar(tasks, AdaptiveLefts(tasks), n, ends)
    ensures FirstFit(AdaptiveLefts(tasks)[..n], MinStart(tasks[n].dependencies, ends)) == AdaptiveLefts(tasks)[n]
  {
    AdaptiveAt(tasks, n);
  }

  lemma ProfileNext(lefts: seq<nat>, n: nat, profile: seq<Slot>)
    requires n < |lefts| && ProfileSoFar(lefts, n, profile)
    ensures MemAt(profile, lefts[n]) == Bottom(lefts, n)
    ensures ProfileSoFar(lefts, n + 1, profile + [Slot(lefts[n], lefts[n] + WIDTH, HEIGHT)])
  {
  }

  lemma AdaptiveAt(tasks: seq<Task>, i: nat)
    requires i < |tasks|
    ensures AdaptiveLefts(tasks)[i] ==
            FirstFit(AdaptiveLefts(tasks)[..i],
                     MinStart(tasks[i].dependencies, EndsOf(tasks[..i], AdaptiveLefts(tasks)[..i])))
  {
    AdaptivePrefix(tasks, i + 1);
    AdaptivePrefix(tasks, i);
    assert tasks[..i + 1][..i] == tasks[..i];
  }

  method CalculateSimulationLayouts(tasks: seq<Task>)
    returns (baseline: seq<BaselineBlock>, adaptive: seq<AdaptiveBlock>, limitLineY: nat, isCrasher: bool)
    ensures |baseline| == |adaptive| == |tasks| && limitLineY == 150
    ensures forall i :: 0 <= i < |tasks| ==> baseline[i] == BaselineBlockAt(BaselineLefts(tasks), i)
    ensures forall i :: 0 <= i < |tasks| ==> adaptive[i] == AdaptiveBlockAt(AdaptiveLefts(tasks), i)
    ensures forall i :: 0 <= i < |tasks| ==> BaselineWell(tasks, BaselineLefts(tasks), i, baseline[i])
    ensures forall i :: 0 <= i < |tasks| ==> AdaptiveWell(tasks, AdaptiveLefts(tasks), i, adaptive[i])
    ensures isCrasher <==> exists x: nat :: Covering(BaselineLefts(tasks), x) >= 3
  {
    limitLineY := LIMIT;
    baseline := LayOutBaseline(tasks);
    adaptive := LayOutAdaptive(tasks);
    isCrasher := exists i :: 0 <= i < |baseline| && baseline[i].crashed;
    LayoutsOnGrid(tasks);
    CrashesIffExceeds(BaselineLefts(tasks));
    CrashedBlocks(BaselineLefts(tasks), baseline);
    ExceedsIff(BaselineLefts(tasks));
  }

  /** In numbers: a baseline block starts when the last dependency ends, stands on the blocks before it that
      cover its start, 65 each, and has crashed if there are two of them. */
  ghost predicate BaselineWell(tasks: seq<Task>, lefts: seq<nat>, i: nat, block: BaselineBlock)
    requires i < |tasks| == |lefts|
  {
    && block.left == lefts[i] && IsLatestEnd(tasks, lefts, i, block.left)
    && block.bottom == 65 * Covering(lefts[..i], block.left)
    && (block.crashed <==> Covering(lefts[..i], block.left) >= 2)
  }

  lemma BaselineBlockWell(tasks: seq<Task>, i: nat)
    requires i < |tasks|
    ensures BaselineWell(tasks, BaselineLefts(tasks), i, BaselineBlockAt(BaselineLefts(tasks), i))
  {
    BaselineIsLatestEnd(tasks, i);
    HeightIsCovering(BaselineLefts(tasks)[..i], BaselineLefts(tasks)[i]);
  }

  /** An adaptive block takes the earliest step from the end of the last dependency at which no two of the
      blocks before it meet, and stands on those that cover its start. */
  ghost predicate AdaptiveWell(tasks: seq<Task>, lefts: seq<nat>, i: nat, block: AdaptiveBlock)
    requires i < |tasks| == |lefts|
  {
    && block.left == lefts[i] && block.bottom == 65 * Covering(lefts[..i], block.left)
    && exists minStart :: IsLatestEnd(tasks, lefts, i, minStart) && EarliestFree(lefts[..i], minStart, block.left)
  }

  ghost predicate Free(before: seq<nat>, x: nat) {
    forall p :: x <= p < x + 80 ==> Covering(before, p) <= 1
  }

  ghost predicate EarliestFree(before: seq<nat>, minStart: nat, left: nat) {
    && left >= minStart && left % 10 == 0 && Free(before, left)
    && forall y :: minStart <= y < left && y % 10 == 0 ==> !Free(before, y)
  }

  lemma PlacedIsEarliestFree(before: seq<nat>, minStart: nat, left: nat)
    requires PlacedWell(before, minStart, left)
    ensures EarliestFree(before, minStart, left)
  {
    ClearIff(before, left);
    forall y | minStart <= y < left && y % 10 == 0
      ensures !Free(before, y)
    {
      ClearIff(before, y);
      assert !Clear(before, y);
    }
  }

  lemma AdaptiveBlockWell(tasks: seq<Task>, i: nat)
    requires i < |tasks|
    ensures AdaptiveWell(tasks, AdaptiveLefts(tasks), i, AdaptiveBlockAt(AdaptiveLefts(tasks), i))
  {
    var lefts := AdaptiveLefts(tasks);
    AdaptiveIsEarliest(tasks, i);
    var minStart :| IsLatestEnd(tasks, lefts, i, minStart) && PlacedWell(lefts[..i], minStart, lefts[i]);
    PlacedIsEarliestFree(lefts[..i], minStart, lefts[i]);
    HeightIsCovering(lefts[..i], lefts[i]);
  }

  lemma CrashedBlocks(lefts: seq<nat>, blocks: seq<BaselineBlock>)
    requires |blocks| == |lefts|
    requires forall i :: 0 <= i < |lefts| ==> blocks[i] == BaselineBlockAt(lefts, i)
    ensures Crashes(lefts) <==> exists i :: 0 <= i < |blocks| && blocks[i].crashed
  {
    if i :| 0 <= i < |blocks| && blocks[i].crashed {
      assert Bottom(lefts, i) + HEIGHT > LIMIT;
    }
    if Crashes(lefts) {
      var i :| 0 <= i < |lefts| && Bottom(lefts, i) + HEIGHT > LIMIT;
      assert blocks[i].crashed;
    }
  }
}
