/** Kubernetes resource quantities at their finest resolution (nano-units), and the integer views
    the wire protocol uses: whole millicores and whole MiB. */
module Quantities {
  import opened Loads

  type Quantity = nat

  datatype ResourceName = Cpu | Memory | Other(name: string)

  type ResourceList = map<ResourceName, Quantity>

  datatype Requirements = Requirements(requests: ResourceList, limits: ResourceList)

  /** Reading a missing key of a Go map yields the zero quantity. */
  function Get(list: ResourceList, name: ResourceName): Quantity {
    if name in list then list[name] else 0
  }

  function Amount(list: ResourceList, d: Dim): Quantity {
    Get(list, if d == CPU then Cpu else Memory)
  }

  function LoadOf(list: ResourceList): Load {
    Load(Get(list, Cpu), Get(list, Memory))
  }

  /** Quantity.MilliValue rounds up to a whole milli-unit. */
  function MilliValue(q: Quantity): nat {
    (q + 999_999) / 1_000_000
  }

  /** Quantity.Value rounds up to a whole unit. */
  function Value(q: Quantity): nat {
    (q + 999_999_999) / 1_000_000_000
  }

  /** Value() / (1024 * 1024): whole bytes rounded down to whole MiB. */
  function MebiValue(q: Quantity): nat {
    Value(q) / 1_048_576
  }

  /** resource.MustParse of "<n>m". */
  function Millis(n: nat): Quantity {
    n * 1_000_000
  }

  /** resource.MustParse of "<n>Mi". */
  function Mebis(n: nat): Quantity {
    n * 1_048_576_000_000_000
  }

  predicate WholeMillis(q: Quantity) {
    q % 1_000_000 == 0
  }

  predicate WholeBytes(q: Quantity) {
    q % 1_000_000_000 == 0
  }

  predicate WholeMebis(q: Quantity) {
    q % 1_048_576_000_000_000 == 0
  }

  /** A wire load, in millicores and MiB, written out at full resolution. */
  function Scale(l: Load): Load {
    Load(Millis(l.cpu), Mebis(l.mem))
  }

  /** A full-resolution load as the client sends it over the wire. */
  function ToWire(l: Load): Load {
    Load(MilliValue(l.cpu), MebiValue(l.mem))
  }

  predicate Aligned(l: Load) {
    WholeMillis(l.cpu) && WholeMebis(l.mem)
  }

  /** MilliValue and Value are the least whole milli-units and units that cover the quantity; MebiValue is the
      most whole MiB that so many bytes hold. */
  lemma Rounding(q: Quantity)
    ensures 1_000_000 * MilliValue(q) - 1_000_000 < q <= 1_000_000 * MilliValue(q)
    ensures 1_000_000_000 * Value(q) - 1_000_000_000 < q <= 1_000_000_000 * Value(q)
    ensures 1_048_576 * MebiValue(q) <= Value(q) < 1_048_576 * MebiValue(q) + 1_048_576
  {
  }

  lemma WireOfScale(l: Load)
    ensures ToWire(Scale(l)) == l
    ensures Aligned(Scale(l))
  {
  }

  lemma ScaleOfWire(l: Load)
    ensures Scale(ToWire(l)) == l <==> Aligned(l)
  {
  }

  /** CPU rounds up by less than a millicore. Memory rounds to the MiB below its whole-byte ceiling,
      which lies above the quantity exactly when a fractional byte was rounded up onto a MiB. */
  lemma WireRounding(l: Load)
    ensures l.cpu <= Scale(ToWire(l)).cpu < l.cpu + Millis(1)
    ensures Scale(ToWire(l)).mem <= l.mem <==> WholeBytes(l.mem) || Value(l.mem) % 1_048_576 != 0
    ensures Scale(ToWire(l)).mem < l.mem + 1_000_000_000
    ensures l.mem < Scale(ToWire(l)).mem + Mebis(1)
  {
  }

  /** A wire amount at full resolution. */
  function Widen(n: nat, d: Dim): Quantity {
    if d == CPU then Millis(n) else Mebis(n)
  }

  /** Sums commute with the change of resolution. */
  lemma {:induction false} SumWidened(m: map<string, nat>, n: map<string, nat>, d: Dim)
    requires m.Keys == n.Keys && forall k :: k in m ==> n[k] == Widen(m[k], d)
    ensures Sum(n) == Widen(Sum(m), d)
    decreases |m|
  {
    if m != map[] {
      var k := AnyKey(m);
      SumRemove(n, k);
      SumWidened(m - {k}, n - {k}, d);
    }
  }

  lemma FitsScaled(cpu: nat, mem: nat, cap: Load)
    ensures Fits(Millis(cpu), Mebis(mem), Scale(cap)) <==> Fits(cpu, mem, cap)
  {
  }
}
