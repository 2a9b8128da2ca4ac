/**
 * Candidate VM sets for a number of service replicas, and the choice of the
 * cheapest one. Both policy-derivation packages carry the same builders
 * (pkg/derivation/policies_derivation.go and
 * pkg/policies_derivation/policies_derivation.go); they differ only in how
 * a VM's replica capacity is computed and in the tie-break between
 * equally cheap candidates, which are parameters here.
 *
 * The loops over Go maps pick the next VM type with `:|`: Go's iteration
 * order is unspecified, and every property below holds for any order.
 */
module Sizing {
  import opened VmScale

  const NoVMCandidate: string := "No VM Candidate"

  // ---------------------------------------------------------------------
  // buildTree
  // ---------------------------------------------------------------------

  /**
   * A VM type with this replica capacity gets a child in buildTree for a
   * request of n replicas: it either hosts all n, or hosts some and the
   * rest is requested again.
   */
  predicate Hosts(capacity: int, n: int) {
    capacity >= n || capacity > 0
  }

  /** c keeps every VM of base and adds VMs that host at least n more replicas. */
  ghost predicate Covers(c: VMScale, base: VMScale, n: int, profiles: map<string, VmProfile>) {
    && ReplicasCapacity(c, profiles) >= ReplicasCapacity(base, profiles) + n as real
    && forall t :: CountOf(c, t) >= CountOf(base, t)
  }

  /** Covering the rest after one more VM of type k covers the whole request. */
  lemma CoversAfterAddOne(c: VMScale, base: VMScale, k: string, n: int, profiles: map<string, VmProfile>)
    requires k in profiles
    requires Covers(c, AddOne(base, k), n - profiles[k].replicasCapacity, profiles)
    ensures Covers(c, base, n, profiles)
  {
    TotalAddOne(base, profiles, Capacity, k);
    forall t ensures CountOf(c, t) >= CountOf(base, t) {
      assert CountOf(AddOne(base, k), t) >= CountOf(base, t);
    }
  }

  /** One more VM of a type that hosts all n replicas covers the request. */
  lemma AddOneCovers(base: VMScale, k: string, n: int, profiles: map<string, VmProfile>)
    requires k in profiles && profiles[k].replicasCapacity >= n
    ensures Covers(AddOne(base, k), base, n, profiles)
  {
    TotalAddOne(base, profiles, Capacity, k);
    forall t ensures CountOf(AddOne(base, k), t) >= CountOf(base, t) { }
  }

  /**
   * The candidates of buildTree's subtree at the node holding scale with n
   * replicas still to host: nothing below a node with no replica left,
   * otherwise the candidates of every VM type's branch.
   */
  ghost predicate InTree(c: VMScale, scale: VMScale, n: int, profiles: map<string, VmProfile>)
    decreases if n > 0 then n else 0, 1
  {
    n != 0 && exists t :: t in profiles && TreeChild(c, t, scale, n, profiles)
  }

  /**
   * The candidates of type t's branch: one more VM of t closes a candidate
   * when its capacity hosts all n replicas; with a smaller positive
   * capacity, the candidates of the child node for the rest.
   */
  ghost predicate TreeChild(c: VMScale, t: string, scale: VMScale, n: int, profiles: map<string, VmProfile>)
    requires t in profiles
    decreases if n > 0 then n else 0, 0
  {
    var capacity := profiles[t].replicasCapacity;
    if capacity >= n then c == AddOne(scale, t)
    else 0 < capacity && InTree(c, AddOne(scale, t), n - capacity, profiles)
  }

  /** Every candidate of the tree hosts the replicas requested at its root. */
  lemma {:induction false} InTreeCovers(c: VMScale, scale: VMScale, n: int, profiles: map<string, VmProfile>)
    requires InTree(c, scale, n, profiles)
    ensures Covers(c, scale, n, profiles)
    decreases if n > 0 then n else 0
  {
    var t :| t in profiles && TreeChild(c, t, scale, n, profiles);
    var capacity := profiles[t].replicasCapacity;
    if capacity >= n {
      AddOneCovers(scale, t, n, profiles);
    } else {
      InTreeCovers(c, AddOne(scale, t), n - capacity, profiles);
      CoversAfterAddOne(c, scale, t, n, profiles);
    }
  }

  /**
   * buildTree: from the node holding scale with n replicas still to host,
   * every VM type either closes a candidate (its capacity hosts all n) or,
   * with positive capacity, opens a child for the remaining replicas. The
   * candidates are appended to the list; the node tree itself is not kept.
   */
  method BuildTree(scale: VMScale, n: int, profiles: map<string, VmProfile>, candidates: seq<VMScale>)
    returns (candidates': seq<VMScale>)
    ensures |candidates| <= |candidates'| && candidates'[..|candidates|] == candidates
    ensures forall j :: |candidates| <= j < |candidates'| ==> Covers(candidates'[j], scale, n, profiles)
    ensures forall c :: c in candidates'[|candidates|..] <==> InTree(c, scale, n, profiles)
    ensures n == 0 ==> candidates' == candidates
    ensures n != 0 ==>
      (|candidates'| > |candidates| <==> exists t :: t in profiles && Hosts(profiles[t].replicasCapacity, n))
    decreases if n > 0 then n else 0
  {
    candidates' := candidates;
    if n == 0 {
      return;
    }
    var rest := profiles.Keys;
    while rest != {}
      invariant rest <= profiles.Keys
      invariant |candidates| <= |candidates'| && candidates'[..|candidates|] == candidates
      invariant forall j :: |candidates| <= j < |candidates'| ==> Covers(candidates'[j], scale, n, profiles)
      invariant |candidates'| > |candidates| <==>
        exists t :: t in profiles && t !in rest && Hosts(profiles[t].replicasCapacity, n)
      invariant forall c :: c in candidates'[|candidates|..] <==>
        exists t :: t in profiles && t !in rest && TreeChild(c, t, scale, n, profiles)
      decreases rest
    {
      var k :| k in rest;
      var maxReplicas := profiles[k].replicasCapacity;
      ghost var before := candidates';
      if maxReplicas >= n {
        AddOneCovers(scale, k, n, profiles);
        candidates' := candidates' + [AddOne(scale, k)];
      } else if maxReplicas > 0 {
        candidates' := BuildTree(AddOne(scale, k), n - maxReplicas, profiles, candidates');
        assert candidates'[..|candidates|] == before[..|candidates|];
        forall j | |before| <= j < |candidates'|
          ensures Covers(candidates'[j], scale, n, profiles)
        {
          CoversAfterAddOne(candidates'[j], scale, k, n, profiles);
        }
        assert Hosts(profiles[k].replicasCapacity, n - maxReplicas);
      }
      BranchAppended(candidates, before, candidates', k, scale, n, profiles);
      rest := rest - {k};
    }
    assert n != 0;
  }

  /** The candidates appended for type k are exactly its branch's. */
  lemma BranchAppended(candidates: seq<VMScale>, before: seq<VMScale>, after: seq<VMScale>, k: string,
                       scale: VMScale, n: int, profiles: map<string, VmProfile>)
    requires k in profiles && |candidates| <= |before| <= |after| && after[..|before|] == before
    requires forall c :: c in after[|before|..] <==> TreeChild(c, k, scale, n, profiles)
    ensures forall c :: c in after[|candidates|..] <==> c in before[|candidates|..] || TreeChild(c, k, scale, n, profiles)
  {
    assert after[|candidates|..] == before[|candidates|..] + after[|before|..];
  }

  // ---------------------------------------------------------------------
  // The cheapest candidate (sort.Slice by cost and tie-break, then [0])
  // ---------------------------------------------------------------------

  /**
   * best is one of the candidates, no candidate costs less, and among the
   * equally cheap ones it has the most VMs (preferMoreVMs) or the fewest.
   */
  ghost predicate Cheapest(best: VMScale, candidates: seq<VMScale>, profiles: map<string, VmProfile>,
                           preferMoreVMs: bool) {
    && best in candidates
    && (forall c :: c in candidates ==> Cost(best, profiles) <= Cost(c, profiles))
    && forall c :: c in candidates && Cost(c, profiles) == Cost(best, profiles) ==>
         if preferMoreVMs then TotalVMs(c) <= TotalVMs(best) else TotalVMs(best) <= TotalVMs(c)
  }

  method PickCheapest(candidates: seq<VMScale>, profiles: map<string, VmProfile>, preferMoreVMs: bool)
    returns (best: VMScale)
    requires |candidates| > 0
    ensures Cheapest(best, candidates, profiles, preferMoreVMs)
  {
    best := candidates[0];
    var bestCost := MeasureOf(best, profiles, Price);
    var bestVMs := MeasureOf(best, map[], VMs);
    var i := 1;
    while i < |candidates|
      invariant 1 <= i <= |candidates|
      invariant bestCost == Cost(best, profiles) && bestVMs == TotalVMs(best)
      invariant Cheapest(best, candidates[..i], profiles, preferMoreVMs)
    {
      var c := candidates[i];
      var cost := MeasureOf(c, profiles, Price);
      var vms := MeasureOf(c, map[], VMs);
      if cost < bestCost || (cost == bestCost && (if preferMoreVMs then vms > bestVMs else vms < bestVMs)) {
        best, bestCost, bestVMs := c, cost, vms;
      }
      assert candidates[..i + 1] == candidates[..i] + [c];
      i := i + 1;
    }
    assert candidates[..i] == candidates;
  }

  // ---------------------------------------------------------------------
  // buildHomogeneousVMSet
  // ---------------------------------------------------------------------

  /** The candidate for one VM type: ceil(n / capacity) VMs of that type. */
  function Homogeneous(v: VmProfile, n: int, capacity: int): (c: VMScale)
    requires capacity > 0
    ensures c.Keys == {v.vmType}
    ensures capacity * (c[v.vmType] - 1) < n <= capacity * c[v.vmType]
  {
    map[v.vmType := CeilDiv(n, capacity)]
  }

  /** c is the homogeneous candidate of some VM type whose capacity is positive. */
  ghost predicate IsHomogeneous(c: VMScale, n: int, sized: map<string, VmProfile>) {
    exists t :: t in sized && sized[t].replicasCapacity > 0 && c == Homogeneous(sized[t], n, sized[t].replicasCapacity)
  }

  /**
   * The outcome of buildHomogeneousVMSet: the "No VM Candidate" error
   * exactly when no VM type hosts a replica; otherwise the candidate of one
   * such type that costs no more than any other type's candidate, with the
   * tie-break on the number of VMs.
   */
  ghost predicate HomogeneousChoice(r: WithError<VMScale>, n: int, limit: Limit, profiles: map<string, VmProfile>,
                                    reserveCpu: real, reserveMem: real, preferMoreVMs: bool)
    requires limit.cpuCores > 0.0 && limit.memoryGB > 0.0
  {
    var sized := WithCapacities(limit, profiles, reserveCpu, reserveMem);
    && (r.err.Some? <==> forall t :: t in sized ==> sized[t].replicasCapacity <= 0)
    && (r.err.Some? ==> r == WithError(map[], Some(NoVMCandidate)))
    && (r.err.None? ==> IsHomogeneous(r.value, n, sized))
    && (r.err.None? ==> forall t :: t in sized && sized[t].replicasCapacity > 0 ==>
          var c := Homogeneous(sized[t], n, sized[t].replicasCapacity);
          && Cost(r.value, profiles) <= Cost(c, profiles)
          && (Cost(c, profiles) == Cost(r.value, profiles) ==>
                if preferMoreVMs then TotalVMs(c) <= TotalVMs(r.value) else TotalVMs(r.value) <= TotalVMs(c)))
  }

  /**
   * buildHomogeneousVMSet: one candidate per VM type that hosts at least
   * one replica, then the cheapest of them, or the "No VM Candidate" error
   * when there is none.
   */
  method BuildHomogeneous(n: int, limit: Limit, profiles: map<string, VmProfile>,
                          reserveCpu: real, reserveMem: real, preferMoreVMs: bool)
    returns (r: WithError<VMScale>)
    requires limit.cpuCores > 0.0 && limit.memoryGB > 0.0
    ensures HomogeneousChoice(r, n, limit, profiles, reserveCpu, reserveMem, preferMoreVMs)
  {
    ghost var sized := WithCapacities(limit, profiles, reserveCpu, reserveMem);
    var candidates: seq<VMScale> := [];
    var rest := profiles.Keys;
    while rest != {}
      invariant rest <= profiles.Keys
      invariant forall c :: c in candidates ==> IsHomogeneous(c, n, sized)
      invariant forall t :: t in profiles && t !in rest && sized[t].replicasCapacity > 0 ==>
        Homogeneous(sized[t], n, sized[t].replicasCapacity) in candidates
      decreases rest
    {
      var k :| k in rest;
      var v := profiles[k];
      var replicasCapacity := MaxReplicas(v, limit, reserveCpu, reserveMem);
      if replicasCapacity > 0 {
        assert Homogeneous(sized[k], n, sized[k].replicasCapacity) == Homogeneous(v, n, replicasCapacity);
        candidates := candidates + [Homogeneous(v, n, replicasCapacity)];
      }
      rest := rest - {k};
    }
    if |candidates| > 0 {
      var best := PickCheapest(candidates, profiles, preferMoreVMs);
      r := WithError(best, None);
    } else {
      r := WithError(map[], Some(NoVMCandidate));
    }
  }

  // ---------------------------------------------------------------------
  // buildHeterogeneousVMSet
  // ---------------------------------------------------------------------

  lemma ReplicasCapacityEmpty(profiles: map<string, VmProfile>)
    ensures ReplicasCapacity(map[], profiles) == 0.0
  {
    var empty: VMScale := map[];
    assert empty.Keys == {};
  }

  /**
   * The outcome of buildHeterogeneousVMSet: the "No VM Candidate" error
   * exactly when there is nothing to host or no VM type can take part;
   * every candidate hosts all the replicas, and the answer is a cheapest
   * one, ties toward more VMs.
   */
  ghost predicate HeterogeneousChoice(r: WithError<VMScale>, candidates: seq<VMScale>, n: int, limit: Limit,
                                      profiles: map<string, VmProfile>, reserveCpu: real, reserveMem: real)
    requires limit.cpuCores > 0.0 && limit.memoryGB > 0.0
  {
    var sized := WithCapacities(limit, profiles, reserveCpu, reserveMem);
    && (r.err.Some? <==> n == 0 || forall t :: t in sized ==> !Hosts(sized[t].replicasCapacity, n))
    && (r.err.Some? ==> r == WithError(map[], Some(NoVMCandidate)))
    && (forall c :: c in candidates <==> InTree(c, map[], n, sized))
    && (forall c :: c in candidates ==> ReplicasCapacity(c, sized) >= n as real)
    && (r.err.None? ==> Cheapest(r.value, candidates, sized, true))
  }

  /**
   * buildHeterogeneousVMSet: the capacities are computed for the container
   * limits, buildTree collects the candidates from an empty VM set, and the
   * cheapest one is returned (ties toward more VMs), or the
   * "No VM Candidate" error when the tree closed no candidate.
   */
  method BuildHeterogeneous(n: int, limit: Limit, profiles: map<string, VmProfile>,
                            reserveCpu: real, reserveMem: real)
    returns (r: WithError<VMScale>, candidates: seq<VMScale>)
    requires limit.cpuCores > 0.0 && limit.memoryGB > 0.0
    ensures HeterogeneousChoice(r, candidates, n, limit, profiles, reserveCpu, reserveMem)
  {
    var sized := WithCapacities(limit, profiles, reserveCpu, reserveMem);
    candidates := BuildTree(map[], n, sized, []);
    ReplicasCapacityEmpty(sized);
    assert forall j :: 0 <= j < |candidates| ==> Covers(candidates[j], map[], n, sized);
    if |candidates| > 0 {
      var best := PickCheapest(candidates, sized, true);
      r := WithError(best, None);
    } else {
      r := WithError(map[], Some(NoVMCandidate));
    }
  }
}
