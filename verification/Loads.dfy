/** Two-dimensional resource loads, and sums over maps whose iteration order is unspecified. */
module Loads {

  datatype Dim = CPU | MEM

  datatype Load = Load(cpu: nat, mem: nat) {
    function At(d: Dim): nat {
      match d
      case CPU => cpu
      case MEM => mem
    }
  }

  /** A usage fits a cap; a zero component of the cap leaves that dimension unlimited. */
  predicate Fits(cpu: nat, mem: nat, cap: Load) {
    (cap.cpu == 0 || cpu <= cap.cpu) && (cap.mem == 0 || mem <= cap.mem)
  }

  /** No usage is too much for this cap. */
  ghost predicate Unlimited(cap: Load) {
    forall cpu: nat, mem: nat :: Fits(cpu, mem, cap)
  }

  lemma UnlimitedIff(cap: Load)
    ensures Unlimited(cap) <==> cap.cpu == 0 && cap.mem == 0
  {
    if Unlimited(cap) {
      assert Fits(cap.cpu + 1, cap.mem + 1, cap);
    }
  }

  ghost function AnyKey<T>(m: map<string, T>): (k: string)
    requires m != map[]
    ensures k in m
  {
    assert m.Keys != {};
    var k :| k in m.Keys;
    k
  }

  /** The sum of all values, peeling keys off in some arbitrary order. */
  ghost function Sum(m: map<string, nat>): nat
    decreases |m|
  {
    if m == map[] then 0
    else
      var k := AnyKey(m);
      m[k] + Sum(m - {k})
  }

  /** Any key may be peeled off first: the sum does not depend on the iteration order. */
  lemma {:induction false} SumRemove(m: map<string, nat>, k: string)
    requires k in m
    ensures Sum(m) == m[k] + Sum(m - {k})
    decreases |m|
  {
    var first := AnyKey(m);
    if first != k {
      SumRemove(m - {first}, k);
      SumRemove(m - {k}, first);
      assert m - {first} - {k} == m - {k} - {first};
    }
  }

  lemma SumUpdate(m: map<string, nat>, k: string, v: nat)
    requires k in m
    ensures Sum(m[k := v]) + m[k] == Sum(m) + v
  {
    SumRemove(m, k);
    SumRemove(m[k := v], k);
    assert m[k := v] - {k} == m - {k};
  }

  lemma {:induction false} SumOfZeros(m: map<string, nat>)
    requires forall k :: k in m ==> m[k] == 0
    ensures Sum(m) == 0
    decreases |m|
  {
    if m != map[] {
      SumOfZeros(m - {AnyKey(m)});
    }
  }

  /** If every non-zero value of a is matched by the value of b at its image key, and the image keys
      are distinct, then the whole of a weighs no more than the whole of b. */
  lemma {:induction false} SumEmbeds(a: map<string, nat>, b: map<string, nat>, image: map<string, string>)
    requires forall k :: k in a && a[k] != 0 ==> k in image && image[k] in b && b[image[k]] == a[k]
    requires forall k, l :: k in a && l in a && k != l && a[k] != 0 && a[l] != 0 ==> image[k] != image[l]
    ensures Sum(a) <= Sum(b)
    decreases |a|
  {
    if a != map[] {
      var k := AnyKey(a);
      if a[k] == 0 {
        SumEmbeds(a - {k}, b, image);
      } else {
        SumRemove(b, image[k]);
        SumEmbeds(a - {k}, b - {image[k]}, image);
      }
    }
  }

  lemma SumOfOne(m: map<string, nat>, k: string)
    requires k in m && forall j :: j in m && j != k ==> m[j] == 0
    ensures Sum(m) == m[k]
  {
    SumRemove(m, k);
    SumOfZeros(m - {k});
  }

  lemma SumCoversOne(m: map<string, nat>, k: string)
    requires k in m
    ensures m[k] <= Sum(m)
  {
    SumRemove(m, k);
  }

  lemma SumCoversTwo(m: map<string, nat>, j: string, k: string)
    requires j in m && k in m && j != k
    ensures m[j] + m[k] <= Sum(m)
  {
    SumRemove(m, j);
    SumRemove(m - {j}, k);
  }

  lemma {:induction false} SumAdds(a: map<string, nat>, b: map<string, nat>, total: map<string, nat>)
    requires a.Keys == b.Keys == total.Keys && forall k :: k in a ==> total[k] == a[k] + b[k]
    ensures Sum(total) == Sum(a) + Sum(b)
    decreases |a|
  {
    if a != map[] {
      var k := AnyKey(a);
      SumRemove(b, k);
      SumRemove(total, k);
      SumAdds(a - {k}, b - {k}, total - {k});
    }
  }
}
