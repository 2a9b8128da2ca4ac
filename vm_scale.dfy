/**
 * VM sets and VM profiles shared by both policy-derivation packages
 * (pkg/derivation and pkg/policies_derivation).
 *
 * A VM set (Go's types.VMScale, a map[string]int) maps a VM type to a
 * number of VMs. Its cost, its number of VMs and its replica capacity are
 * sums over its entries; Go iterates maps in no fixed order, so the sums
 * are defined over an arbitrarily chosen key and shown not to depend on
 * the choice.
 */
module VmScale {

  datatype Option<T> = None | Some(value: T)

  /** Go's (value, error) pair: the value is returned even when err is set. */
  datatype WithError<T> = WithError(value: T, err: Option<string>)

  type VMScale = map<string, int>

  datatype VmProfile = VmProfile(
    vmType: string, cpuCores: real, memory: real, price: real, replicasCapacity: int)

  /** Resource limits of one container. */
  datatype Limit = Limit(cpuCores: real, memoryGB: real)

  const ZeroProfile: VmProfile := VmProfile("", 0.0, 0.0, 0.0, 0)

  /** Reading a Go map at a missing VM type yields the zero-valued profile. */
  function ProfileOf(profiles: map<string, VmProfile>, t: string): (v: VmProfile)
    ensures t !in profiles ==> v == ZeroProfile
  {
    if t in profiles then profiles[t] else ZeroProfile
  }

  /** Number of VMs of type t in s; a missing type counts 0. */
  function CountOf(s: VMScale, t: string): int {
    if t in s then s[t] else 0
  }

  /** One more VM of type t (copyMap followed by the increment-or-insert of buildTree). */
  function AddOne(s: VMScale, t: string): (r: VMScale)
    ensures r.Keys == s.Keys + {t}
    ensures CountOf(r, t) == CountOf(s, t) + 1
    ensures forall u :: u != t ==> CountOf(r, u) == CountOf(s, u)
  {
    s[t := CountOf(s, t) + 1]
  }

  // ---------------------------------------------------------------------
  // Sums over a VM set
  // ---------------------------------------------------------------------

  /** What each VM of a type contributes to a sum. */
  datatype Measure = VMs | Price | Capacity

  function Weight(m: Measure, profiles: map<string, VmProfile>, t: string): real {
    match m
    case VMs => 1.0
    case Price => ProfileOf(profiles, t).price
    case Capacity => ProfileOf(profiles, t).replicasCapacity as real
  }

  ghost function PickKey(keys: set<string>): (k: string)
    requires keys != {}
    ensures k in keys
  {
    var k :| k in keys; k
  }

  /** Sum over the given types of count times weight. */
  ghost function SumOver(keys: set<string>, s: VMScale, profiles: map<string, VmProfile>, m: Measure): real
    requires keys <= s.Keys
    decreases keys
  {
    if keys == {} then 0.0
    else
      var k := PickKey(keys);
      s[k] as real * Weight(m, profiles, k) + SumOver(keys - {k}, s, profiles, m)
  }

  ghost function Total(s: VMScale, profiles: map<string, VmProfile>, m: Measure): real {
    SumOver(s.Keys, s, profiles, m)
  }

  /** VMScale.Cost: the sum of count times price. */
  ghost function Cost(s: VMScale, profiles: map<string, VmProfile>): real {
    Total(s, profiles, Price)
  }

  /** VMScale.TotalVMs: the number of VMs of all types. */
  ghost function TotalVMs(s: VMScale): real {
    Total(s, map[], VMs)
  }

  /** VMScale.ReplicasCapacity: the sum of count times per-VM replica capacity. */
  ghost function ReplicasCapacity(s: VMScale, profiles: map<string, VmProfile>): real {
    Total(s, profiles, Capacity)
  }

  /** A sum may start from any of its types: the choice does not matter. */
  lemma {:induction false} SumOverRemove(keys: set<string>, s: VMScale, profiles: map<string, VmProfile>,
                                         m: Measure, k: string)
    requires keys <= s.Keys && k in keys
    ensures SumOver(keys, s, profiles, m)
         == s[k] as real * Weight(m, profiles, k) + SumOver(keys - {k}, s, profiles, m)
    decreases keys
  {
    var j := PickKey(keys);
    if j != k {
      var termJ := s[j] as real * Weight(m, profiles, j);
      var termK := s[k] as real * Weight(m, profiles, k);
      var rest := SumOver(keys - {j} - {k}, s, profiles, m);
      assert SumOver(keys, s, profiles, m) == termJ + SumOver(keys - {j}, s, profiles, m);
      SumOverRemove(keys - {j}, s, profiles, m, k);
      assert SumOver(keys - {j}, s, profiles, m) == termK + rest;
      SumOverRemove(keys - {k}, s, profiles, m, j);
      assert keys - {k} - {j} == keys - {j} - {k};
      assert SumOver(keys - {k}, s, profiles, m) == termJ + rest;
    }
  }

  /** A sum only reads the entries of the types it ranges over. */
  lemma {:induction false} SumOverFrame(keys: set<string>, s: VMScale, s': VMScale,
                                        profiles: map<string, VmProfile>, m: Measure)
    requires keys <= s.Keys && keys <= s'.Keys
    requires forall t :: t in keys ==> s[t] == s'[t]
    ensures SumOver(keys, s, profiles, m) == SumOver(keys, s', profiles, m)
    decreases keys
  {
    if keys != {} {
      SumOverFrame(keys - {PickKey(keys)}, s, s', profiles, m);
    }
  }

  /** One more VM of type t adds exactly t's weight. */
  lemma TotalAddOne(s: VMScale, profiles: map<string, VmProfile>, m: Measure, t: string)
    ensures Total(AddOne(s, t), profiles, m) == Total(s, profiles, m) + Weight(m, profiles, t)
  {
    TotalIncrement(s, AddOne(s, t), profiles, m, t);
  }

  /** TotalAddOne, for the map update that AddOne performs. */
  lemma TotalIncrement(s: VMScale, r: VMScale, profiles: map<string, VmProfile>, m: Measure, t: string)
    requires r == s[t := CountOf(s, t) + 1]
    ensures Total(r, profiles, m) == Total(s, profiles, m) + Weight(m, profiles, t)
  {
    var rest := s.Keys - {t};
    RestOfAddOne(s, r, profiles, m, t, rest);
    if t in s {
      SumOverRemove(s.Keys, s, profiles, m, t);
    } else {
      assert rest == s.Keys;
    }
    OneMoreTerm(Total(r, profiles, m), Total(s, profiles, m), r[t], CountOf(s, t),
                Weight(m, profiles, t), SumOver(rest, s, profiles, m));
  }

  /** Apart from type t, a VM set with one more t sums as the original does. */
  lemma RestOfAddOne(s: VMScale, r: VMScale, profiles: map<string, VmProfile>, m: Measure,
                     t: string, rest: set<string>)
    requires r == s[t := CountOf(s, t) + 1] && rest == s.Keys - {t}
    ensures rest <= s.Keys && t in r
    ensures Total(r, profiles, m) == r[t] as real * Weight(m, profiles, t) + SumOver(rest, s, profiles, m)
  {
    assert r.Keys - {t} == rest;
    SumOverRemove(r.Keys, r, profiles, m, t);
    SumOverFrame(rest, r, s, profiles, m);
  }

  /** count + 1 copies of a weight are count copies and one more. */
  lemma OneMoreTerm(sumR: real, sumS: real, countR: int, countS: int, w: real, others: real)
    requires countR == countS + 1
    requires sumR == countR as real * w + others
    requires sumS == countS as real * w + others
    ensures sumR == sumS + w
  {
  }

  /** A one-type VM set sums to its count times that type's weight. */
  lemma TotalSingleton(t: string, n: int, profiles: map<string, VmProfile>, m: Measure)
    ensures Total(map[t := n], profiles, m) == n as real * Weight(m, profiles, t)
  {
    var s := map[t := n];
    assert s.Keys == {t};
    SumOverRemove({t}, s, profiles, m, t);
    assert {t} - {t} == {};
  }

  /** The sums computed by iterating over the map, as VMScale.Cost and friends do. */
  method MeasureOf(s: VMScale, profiles: map<string, VmProfile>, m: Measure) returns (r: real)
    ensures r == Total(s, profiles, m)
  {
    r := 0.0;
    var rest := s.Keys;
    while rest != {}
      invariant rest <= s.Keys
      invariant r + SumOver(rest, s, profiles, m) == Total(s, profiles, m)
      decreases rest
    {
      var k :| k in rest;
      SumOverRemove(rest, s, profiles, m, k);
      r := r + s[k] as real * Weight(m, profiles, k);
      rest := rest - {k};
    }
  }

  // ---------------------------------------------------------------------
  // Differences between VM sets
  // ---------------------------------------------------------------------

  /**
   * DeltaVMSet: the VMs to add and the VMs to remove to go from current to
   * next, type by type; only strictly positive entries are kept.
   */
  function DeltaVMSet(current: VMScale, next: VMScale): (r: (VMScale, VMScale))
    ensures forall t :: CountOf(current, t) + CountOf(r.0, t) - CountOf(r.1, t) == CountOf(next, t)
    ensures r.0.Keys !! r.1.Keys
    ensures forall t :: t in r.0 ==> r.0[t] > 0
    ensures forall t :: t in r.1 ==> r.1[t] > 0
  {
    var types := current.Keys + next.Keys;
    var added := map t | t in types && CountOf(next, t) > CountOf(current, t) :: CountOf(next, t) - CountOf(current, t);
    var removed := map t | t in types && CountOf(current, t) > CountOf(next, t) :: CountOf(current, t) - CountOf(next, t);
    (added, removed)
  }

  /**
   * Something is added exactly when some type grows, and something is
   * removed exactly when some type shrinks.
   */
  lemma DeltaCases(current: VMScale, next: VMScale)
    ensures |DeltaVMSet(current, next).0| > 0 <==> exists t :: CountOf(next, t) > CountOf(current, t)
    ensures |DeltaVMSet(current, next).1| > 0 <==> exists t :: CountOf(next, t) < CountOf(current, t)
  {
    AddedIff(current, next);
    AddedIff(next, current);
    DeltaSwap(current, next);
  }

  lemma AddedIff(current: VMScale, next: VMScale)
    ensures |DeltaVMSet(current, next).0| > 0 <==> exists t :: CountOf(next, t) > CountOf(current, t)
  {
    var added := DeltaVMSet(current, next).0;
    if |added| > 0 {
      var t :| t in added;
      assert CountOf(next, t) > CountOf(current, t);
    }
    if exists t :: CountOf(next, t) > CountOf(current, t) {
      var t :| CountOf(next, t) > CountOf(current, t);
      assert t in added;
    }
  }

  /** Going back the other way swaps what is added and what is removed. */
  lemma DeltaSwap(current: VMScale, next: VMScale)
    ensures DeltaVMSet(current, next).1 == DeltaVMSet(next, current).0
  {
  }

  /**
   * Nothing is added and nothing removed exactly when the two sets hold the
   * same number of VMs of every type.
   */
  lemma DeltaEmptyIff(current: VMScale, next: VMScale)
    ensures var (added, removed) := DeltaVMSet(current, next);
      (|added| == 0 && |removed| == 0) <==> forall t :: CountOf(current, t) == CountOf(next, t)
  {
    var (added, removed) := DeltaVMSet(current, next);
    if |added| == 0 && |removed| == 0 {
      forall t ensures CountOf(current, t) == CountOf(next, t) {
        assert t !in added && t !in removed;
      }
    } else if |added| != 0 {
      var t :| t in added;
      assert CountOf(current, t) != CountOf(next, t);
    } else {
      var t :| t in removed;
      assert CountOf(current, t) != CountOf(next, t);
    }
  }

  // ---------------------------------------------------------------------
  // Integer sizing
  // ---------------------------------------------------------------------

  /** math.Ceil(float64(n) / float64(d)) for a positive d, in exact arithmetic. */
  function CeilDiv(n: int, d: int): (q: int)
    requires d > 0
    ensures d * (q - 1) < n <= d * q
  {
    var a := (-n) / d;
    assert -n == d * a + (-n) % d;
    -a
  }

  /** ceil(n/d) is the least count that reaches n in steps of d. */
  lemma CeilDivLeast(n: int, d: int, c: int)
    requires d > 0 && d * c >= n
    ensures c >= CeilDiv(n, d)
  {
  }

  /** Go's int(x) for a float: truncation toward zero. */
  function Trunc(x: real): (i: int)
    ensures x >= 0.0 ==> 0 <= i && i as real <= x < i as real + 1.0
    ensures x < 0.0 ==> i <= 0 && i as real - 1.0 < x <= i as real
  {
    if x >= 0.0 then x.Floor else -((-x).Floor)
  }

  function Min(a: real, b: real): real {
    if a <= b then a else b
  }

  /** The resources of a VM left for containers once a fraction is reserved. */
  function Available(amount: real, reserved: real): real {
    amount * (1.0 - reserved)
  }

  /** r replicas with the given limits fit in what the VM leaves available. */
  ghost predicate ReplicasFit(r: int, v: VmProfile, limit: Limit, reserveCpu: real, reserveMem: real) {
    && r as real * limit.cpuCores <= Available(v.cpuCores, reserveCpu)
    && r as real * limit.memoryGB <= Available(v.memory, reserveMem)
  }

  /**
   * maxReplicasCapacityInVM: the number of replicas that fit in one VM,
   * truncating the smaller of the two resource ratios. It is the largest
   * count that fits (when the VM has non-negative resources left).
   */
  function MaxReplicas(v: VmProfile, limit: Limit, reserveCpu: real, reserveMem: real): (r: int)
    requires limit.cpuCores > 0.0 && limit.memoryGB > 0.0
    ensures Available(v.cpuCores, reserveCpu) >= 0.0 && Available(v.memory, reserveMem) >= 0.0 ==>
      0 <= r && ReplicasFit(r, v, limit, reserveCpu, reserveMem) && !ReplicasFit(r + 1, v, limit, reserveCpu, reserveMem)
  {
    var m := Available(v.cpuCores, reserveCpu) / limit.cpuCores;
    var n := Available(v.memory, reserveMem) / limit.memoryGB;
    var r := Trunc(Min(n, m));
    if Available(v.cpuCores, reserveCpu) >= 0.0 && Available(v.memory, reserveMem) >= 0.0 then
      RatioFloor(Available(v.cpuCores, reserveCpu), limit.cpuCores, r);
      RatioFloor(Available(v.memory, reserveMem), limit.memoryGB, r);
      r
    else r
  }

  /** r <= a/l exactly when r * l <= a, for a positive l. */
  lemma RatioFloor(a: real, l: real, r: int)
    requires l > 0.0
    ensures r as real <= a / l <==> r as real * l <= a
    ensures (r + 1) as real <= a / l <==> (r + 1) as real * l <= a
  {
    assert (a / l) * l == a;
  }

  /** computeVMsCapacity: every profile's replica capacity for the given container limits. */
  function WithCapacities(limit: Limit, profiles: map<string, VmProfile>, reserveCpu: real, reserveMem: real)
    : (r: map<string, VmProfile>)
    requires limit.cpuCores > 0.0 && limit.memoryGB > 0.0
    ensures r.Keys == profiles.Keys
    ensures forall t :: t in r ==> r[t].(replicasCapacity := profiles[t].replicasCapacity) == profiles[t]
    ensures forall t :: t in r && Available(profiles[t].cpuCores, reserveCpu) >= 0.0
                                && Available(profiles[t].memory, reserveMem) >= 0.0 ==>
      && 0 <= r[t].replicasCapacity
      && ReplicasFit(r[t].replicasCapacity, profiles[t], limit, reserveCpu, reserveMem)
      && !ReplicasFit(r[t].replicasCapacity + 1, profiles[t], limit, reserveCpu, reserveMem)
  {
    map t | t in profiles :: profiles[t].(replicasCapacity := MaxReplicas(profiles[t], limit, reserveCpu, reserveMem))
  }
}
