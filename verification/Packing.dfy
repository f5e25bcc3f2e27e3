/** The budget-gated scan that both planner implementations perform, on abstract candidates. */
module Packing {
  import opened Loads

  /** A spec entry as the scan sees it: not schedulable now, or ready with a load. */
  datatype Candidate = Skip | Ready(load: Load)

  /** Which entries the scan takes, in spec order: an entry is taken when it is ready and its load
      on top of everything taken before it stays within the cap. */
  function Greedy(items: seq<Candidate>, cpu: nat, mem: nat, cap: Load): (taken: seq<bool>)
    ensures |taken| == |items|
    ensures forall i :: 0 <= i < |items| && taken[i] ==> items[i].Ready?
  {
    if items == [] then []
    else if items[0].Ready? && Fits(cpu + items[0].load.cpu, mem + items[0].load.mem, cap) then
      [true] + Greedy(items[1..], cpu + items[0].load.cpu, mem + items[0].load.mem, cap)
    else
      [false] + Greedy(items[1..], cpu, mem, cap)
  }

  function Weight(item: Candidate, d: Dim): nat {
    if item.Ready? then item.load.At(d) else 0
  }

  function Total(items: seq<Candidate>, taken: seq<bool>, d: Dim): nat
    requires |taken| == |items|
  {
    if items == [] then 0
    else (if taken[0] then Weight(items[0], d) else 0) + Total(items[1..], taken[1..], d)
  }

  /** A choice of ready entries that fits the remaining budget. */
  ghost predicate Feasible(items: seq<Candidate>, taken: seq<bool>, cpu: nat, mem: nat, cap: Load) {
    && |taken| == |items|
    && (forall i :: 0 <= i < |items| && taken[i] ==> items[i].Ready?)
    && Fits(cpu + Total(items, taken, CPU), mem + Total(items, taken, MEM), cap)
  }

  function Pick<T>(xs: seq<T>, taken: seq<bool>): seq<T>
    requires |taken| == |xs|
  {
    if xs == [] then [] else (if taken[0] then [xs[0]] else []) + Pick(xs[1..], taken[1..])
  }

  /** a precedes b in spec-order lexicographic preference: at the first index where they differ, a
      takes the entry and b does not. */
  ghost predicate Beats(a: seq<bool>, b: seq<bool>)
    requires |a| == |b|
  {
    exists i :: 0 <= i < |a| && a[..i] == b[..i] && a[i] && !b[i]
  }

  lemma BeatsBehind(first: bool, a: seq<bool>, b: seq<bool>)
    requires |a| == |b| && Beats(a, b)
    ensures Beats([first] + a, [first] + b)
  {
    var i :| 0 <= i < |a| && a[..i] == b[..i] && a[i] && !b[i];
    assert ([first] + a)[..i + 1] == [first] + a[..i] && ([first] + b)[..i + 1] == [first] + b[..i];
  }

  // ---- The scan keeps the budget and takes the lexicographically greatest feasible choice. ----

  lemma {:induction false} GreedyFeasible(items: seq<Candidate>, cpu: nat, mem: nat, cap: Load)
    requires Fits(cpu, mem, cap)
    ensures Feasible(items, Greedy(items, cpu, mem, cap), cpu, mem, cap)
  {
    if items != [] {
      if Greedy(items, cpu, mem, cap)[0] {
        GreedyFeasible(items[1..], cpu + items[0].load.cpu, mem + items[0].load.mem, cap);
      } else {
        GreedyFeasible(items[1..], cpu, mem, cap);
      }
    }
  }

  lemma {:induction false} GreedyBeatsFeasible(items: seq<Candidate>, cpu: nat, mem: nat, cap: Load, other: seq<bool>)
    requires Feasible(items, other, cpu, mem, cap)
    ensures other == Greedy(items, cpu, mem, cap) || Beats(Greedy(items, cpu, mem, cap), other)
  {
    if items != [] {
      var g := Greedy(items, cpu, mem, cap);
      if g[0] == other[0] {
        if g[0] {
          GreedyBeatsFeasible(items[1..], cpu + items[0].load.cpu, mem + items[0].load.mem, cap, other[1..]);
        } else {
          GreedyBeatsFeasible(items[1..], cpu, mem, cap, other[1..]);
        }
        assert other == [g[0]] + other[1..] && g == [g[0]] + g[1..];
        if other[1..] != g[1..] {
          BeatsBehind(g[0], g[1..], other[1..]);
        }
      } else {
        assert g[..0] == other[..0];
      }
    }
  }

  /** The greedy choice is feasible and beats every other feasible choice. */
  lemma GreedyIsBest(items: seq<Candidate>, cpu: nat, mem: nat, cap: Load, other: seq<bool>)
    requires Feasible(items, other, cpu, mem, cap)
    ensures var g := Greedy(items, cpu, mem, cap); Feasible(items, g, cpu, mem, cap) && (other == g || Beats(g, other))
  {
    GreedyFeasible(items, cpu, mem, cap);
    GreedyBeatsFeasible(items, cpu, mem, cap, other);
  }

  /** Every ready entry left out overflows the cap against the final usage, not just against the
      usage at the moment it was skipped. */
  lemma {:induction false} GreedyMaximal(items: seq<Candidate>, cpu: nat, mem: nat, cap: Load, i: nat)
    requires i < |items| && items[i].Ready? && !Greedy(items, cpu, mem, cap)[i]
    ensures var g := Greedy(items, cpu, mem, cap);
            !Fits(cpu + Total(items, g, CPU) + items[i].load.cpu, mem + Total(items, g, MEM) + items[i].load.mem, cap)
  {
    if i > 0 {
      if Greedy(items, cpu, mem, cap)[0] {
        GreedyMaximal(items[1..], cpu + items[0].load.cpu, mem + items[0].load.mem, cap, i - 1);
      } else {
        GreedyMaximal(items[1..], cpu, mem, cap, i - 1);
      }
    }
  }

  /** A taken entry fits on its own on top of the starting usage. */
  lemma {:induction false} TakenFits(items: seq<Candidate>, cpu: nat, mem: nat, cap: Load, i: nat)
    requires i < |items| && Greedy(items, cpu, mem, cap)[i]
    ensures items[i].Ready? && Fits(cpu + items[i].load.cpu, mem + items[i].load.mem, cap)
  {
    if i > 0 {
      if Greedy(items, cpu, mem, cap)[0] {
        TakenFits(items[1..], cpu + items[0].load.cpu, mem + items[0].load.mem, cap, i - 1);
      } else {
        TakenFits(items[1..], cpu, mem, cap, i - 1);
      }
    }
  }

  // ---- Picking the taken entries ----

  /** What a scan adds to a plan. */
  function Scan<T>(offers: seq<T>, items: seq<Candidate>, cpu: nat, mem: nat, cap: Load): seq<T>
    requires |offers| == |items|
  {
    Pick(offers, Greedy(items, cpu, mem, cap))
  }

  predicate Takes(item: Candidate, cpu: nat, mem: nat, cap: Load) {
    item.Ready? && Fits(cpu + item.load.cpu, mem + item.load.mem, cap)
  }

  lemma ScanFirst<T>(offers: seq<T>, items: seq<Candidate>, cpu: nat, mem: nat, cap: Load)
    requires |offers| == |items| && items != []
    ensures Scan(offers, items, cpu, mem, cap) ==
            if Takes(items[0], cpu, mem, cap) then
              [offers[0]] + Scan(offers[1..], items[1..], cpu + items[0].load.cpu, mem + items[0].load.mem, cap)
            else Scan(offers[1..], items[1..], cpu, mem, cap)
  {
    var taken := Greedy(items, cpu, mem, cap);
    assert taken == [taken[0]] + taken[1..];
  }

  /** The rest of a scan from entry i onwards, one entry further. */
  lemma ScanNext<T>(offers: seq<T>, items: seq<Candidate>, i: nat, cpu: nat, mem: nat, cap: Load)
    requires i < |offers| == |items|
    ensures Scan(offers[i..], items[i..], cpu, mem, cap) ==
            if Takes(items[i], cpu, mem, cap) then
              [offers[i]] + Scan(offers[i + 1..], items[i + 1..], cpu + items[i].load.cpu, mem + items[i].load.mem, cap)
            else Scan(offers[i + 1..], items[i + 1..], cpu, mem, cap)
  {
    ScanFirst(offers[i..], items[i..], cpu, mem, cap);
    assert items[i..][1..] == items[i + 1..] && offers[i..][1..] == offers[i + 1..];
  }

  /** The first of what is still to come may as well be the last of what is done. */
  lemma Append<T>(done: seq<T>, next: T, rest: seq<T>)
    ensures done + ([next] + rest) == done + [next] + rest
  {
  }

  lemma {:induction false} PickSound<T>(xs: seq<T>, taken: seq<bool>, x: T)
    requires |taken| == |xs| && x in Pick(xs, taken)
    ensures exists i :: 0 <= i < |xs| && taken[i] && xs[i] == x
  {
    if taken[0] && xs[0] == x {
    } else {
      PickSound(xs[1..], taken[1..], x);
      var i :| 0 <= i < |xs| - 1 && taken[1..][i] && xs[1..][i] == x;
      assert taken[i + 1] && xs[i + 1] == x;
    }
  }

  lemma {:induction false} PickComplete<T>(xs: seq<T>, taken: seq<bool>, i: nat)
    requires |taken| == |xs| && i < |xs| && taken[i]
    ensures xs[i] in Pick(xs, taken)
  {
    if i > 0 {
      PickComplete(xs[1..], taken[1..], i - 1);
      assert xs[1..][i - 1] == xs[i];
    }
  }

  ghost predicate Increasing(idx: seq<nat>) {
    forall k, l :: 0 <= k < l < |idx| ==> idx[k] < idx[l]
  }

  /** What is picked comes in the order of the original. */
  lemma {:induction false} PickInOrder<T>(xs: seq<T>, taken: seq<bool>) returns (idx: seq<nat>)
    requires |taken| == |xs|
    ensures |idx| == |Pick(xs, taken)| && Increasing(idx)
    ensures forall k :: 0 <= k < |idx| ==> idx[k] < |xs| && taken[idx[k]] && Pick(xs, taken)[k] == xs[idx[k]]
  {
    idx := [];
    if xs != [] {
      var rest := PickInOrder(xs[1..], taken[1..]);
      var shifted := seq(|rest|, k requires 0 <= k < |rest| => rest[k] + 1);
      idx := (if taken[0] then [0] else []) + shifted;
      assert Pick(xs, taken) == (if taken[0] then [xs[0]] else []) + Pick(xs[1..], taken[1..]);
    }
  }

  lemma {:induction false} PickNothing<T>(xs: seq<T>, taken: seq<bool>)
    requires |taken| == |xs|
    requires forall i :: 0 <= i < |xs| ==> !taken[i]
    ensures Pick(xs, taken) == []
  {
    if xs != [] {
      PickNothing(xs[1..], taken[1..]);
    }
  }
}
