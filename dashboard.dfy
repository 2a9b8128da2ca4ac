/**
 * The dashboard's series flattener (ui/assets/scripts/app.js): it turns a
 * policy record, an ordered list of scaling actions each valid over
 * [time_start, time_end), into parallel arrays that a chart renderer draws.
 * Every per-sample array has one entry per action plus a trailing entry that
 * repeats the last action at its time_end, so the last step of a chart
 * reaches the end of the policy window.
 *
 * JavaScript objects iterated with for-in (desired_state.VMs and
 * desired_state.Services) are sequences of entries here, in insertion order;
 * a JSON object never holds the same key twice.
 */
module Dashboard {
  import opened Text

  /** Timestamps are passed through untouched (ISO-8601 strings in the records). */
  type Timestamp = string

  /** One entry of desired_state.Services. */
  datatype Service = Service(replicas: int, cpuCores: real, memGB: real)

  /** desired_state: VM count per VM type, and the service descriptors. */
  datatype DesiredState = DesiredState(vms: seq<(string, int)>, services: seq<Service>)

  datatype ActionMetrics = ActionMetrics(
    requestsCapacity: real, cpuUtilization: real, memUtilization: real, cost: real)

  datatype ScalingAction = ScalingAction(
    timeStart: Timestamp, timeEnd: Timestamp, desiredState: DesiredState, metrics: ActionMetrics)

  /** The summary metrics of a policy that the comparison view copies. */
  datatype PolicyMetrics = PolicyMetrics(
    cost: real, overProvision: real, underProvision: real,
    numScaleVms: int, numScaleContainers: int,
    avgShadowTimeSec: real, avgTransitionTimeSec: real, derivationDuration: real)

  datatype Policy = Policy(
    algorithm: string, scalingActions: seq<ScalingAction>,
    parameters: map<string, string>, metrics: PolicyMetrics)

  /** What computeUnits returns. */
  datatype Units = Units(
    time: seq<Timestamp>, vms: seq<int>, replicas: seq<int>, msc: seq<real>,
    utilizationCpuCores: seq<real>, utilizationMemGB: seq<real>,
    labelsTypesVmSet: seq<string>, vmScalesInTime: map<string, seq<int>>,
    limitsCpuCores: seq<real>, limitsMemGB: seq<real>,
    maxNumContainers: int, maxNumVMs: int, accumulatedCost: seq<real>)

  /**
   * What getVirtualUnitsAll returns: one entry per policy in every field
   * but time, which is the page-wide time axis the last policy left.
   */
  datatype AllUnits = AllUnits(
    time: seq<Timestamp>, timesAll: seq<seq<Timestamp>>, tracesAll: seq<string>, vmsAll: seq<seq<int>>,
    replicasAll: seq<seq<int>>, trnAll: seq<seq<real>>,
    cpuCoresAll: seq<seq<real>>, memGBAll: seq<seq<real>>,
    overprovisionAll: seq<real>, underprovisionAll: seq<real>,
    nScalingVMsAll: seq<int>, nScalingContainersAll: seq<int>, costAll: seq<real>,
    accumulatedCostAll: seq<seq<real>>, avgShadowTimeAll: seq<real>,
    avgTransitionTimeAll: seq<real>, derivationDurationTimeAll: seq<real>)

  // ---------------------------------------------------------------------
  // Specification functions
  // ---------------------------------------------------------------------

  const VmTypesParameter: string := "vm-types"

  /** The VM-type roster: parameters["vm-types"] split on commas. */
  function Roster(p: Policy): seq<string>
    requires VmTypesParameter in p.parameters
  {
    Split(p.parameters[VmTypesParameter], ',')
  }

  predicate DistinctKeys(vms: seq<(string, int)>) {
    forall i, j :: 0 <= i < j < |vms| ==> vms[i].0 != vms[j].0
  }

  function Keys(vms: seq<(string, int)>): set<string> {
    set e | e in vms :: e.0
  }

  /** The count recorded for VM type t, or 0 when t has no entry. */
  function CountOf(vms: seq<(string, int)>, t: string): int {
    if vms == [] then 0
    else if vms[|vms| - 1].0 == t then vms[|vms| - 1].1
    else CountOf(vms[..|vms| - 1], t)
  }

  /** The number of VMs of all types together. */
  function TotalCount(vms: seq<(string, int)>): int {
    if vms == [] then 0 else TotalCount(vms[..|vms| - 1]) + vms[|vms| - 1].1
  }

  /** The hover label "type:count, " for every entry, in order. */
  function VmLabel(vms: seq<(string, int)>): string {
    if vms == [] then ""
    else
      var (key, n) := vms[|vms| - 1];
      VmLabel(vms[..|vms| - 1]) + key + ":" + IntToString(n) + ", "
  }

  /** The VM counts alone, in entry order. */
  function Counts(vms: seq<(string, int)>): (r: seq<int>)
    ensures |r| == |vms|
  {
    seq(|vms|, i requires 0 <= i < |vms| => vms[i].1)
  }

  function ReplicaCounts(services: seq<Service>): (r: seq<int>)
    ensures |r| == |services|
  {
    seq(|services|, i requires 0 <= i < |services| => services[i].replicas)
  }

  function CpuLimits(services: seq<Service>): (r: seq<real>)
    ensures |r| == |services|
  {
    seq(|services|, i requires 0 <= i < |services| => services[i].cpuCores)
  }

  function MemLimits(services: seq<Service>): (r: seq<real>)
    ensures |r| == |services|
  {
    seq(|services|, i requires 0 <= i < |services| => services[i].memGB)
  }

  /** CPU cores in use by a service: its per-replica limit times its replicas. */
  function CpuOf(s: Service): real {
    s.cpuCores * s.replicas as real
  }

  /** Memory in use by a service, likewise. */
  function MemOf(s: Service): real {
    s.memGB * s.replicas as real
  }

  function CpuInUse(services: seq<Service>): (r: seq<real>)
    ensures |r| == |services|
  {
    seq(|services|, i requires 0 <= i < |services| => CpuOf(services[i]))
  }

  function MemInUse(services: seq<Service>): (r: seq<real>)
    ensures |r| == |services|
  {
    seq(|services|, i requires 0 <= i < |services| => MemOf(services[i]))
  }

  /** Replica counts of every action's services, action after action. */
  function FlatReplicas(actions: seq<ScalingAction>): seq<int> {
    if actions == [] then []
    else FlatReplicas(actions[..|actions| - 1]) + ReplicaCounts(actions[|actions| - 1].desiredState.services)
  }

  function FlatCpuLimits(actions: seq<ScalingAction>): seq<real> {
    if actions == [] then []
    else FlatCpuLimits(actions[..|actions| - 1]) + CpuLimits(actions[|actions| - 1].desiredState.services)
  }

  function FlatMemLimits(actions: seq<ScalingAction>): seq<real> {
    if actions == [] then []
    else FlatMemLimits(actions[..|actions| - 1]) + MemLimits(actions[|actions| - 1].desiredState.services)
  }

  /** VM counts of every action, action after action, types flattened. */
  function FlatCounts(actions: seq<ScalingAction>): seq<int> {
    if actions == [] then []
    else FlatCounts(actions[..|actions| - 1]) + Counts(actions[|actions| - 1].desiredState.vms)
  }

  function FlatCpuInUse(actions: seq<ScalingAction>): seq<real> {
    if actions == [] then []
    else FlatCpuInUse(actions[..|actions| - 1]) + CpuInUse(actions[|actions| - 1].desiredState.services)
  }

  function FlatMemInUse(actions: seq<ScalingAction>): seq<real> {
    if actions == [] then []
    else FlatMemInUse(actions[..|actions| - 1]) + MemInUse(actions[|actions| - 1].desiredState.services)
  }

  /** The start of each action. */
  function Starts(actions: seq<ScalingAction>): (r: seq<Timestamp>)
    ensures |r| == |actions|
  {
    seq(|actions|, i requires 0 <= i < |actions| => actions[i].timeStart)
  }

  /** The incremental cost of each action. */
  function Costs(actions: seq<ScalingAction>): (r: seq<real>)
    ensures |r| == |actions|
  {
    seq(|actions|, i requires 0 <= i < |actions| => actions[i].metrics.cost)
  }

  /**
   * The action whose values sample i shows: action i, and for the trailing
   * sample i == |actions| the last action again.
   */
  function Sample(actions: seq<ScalingAction>, i: int): ScalingAction
    requires 0 < |actions| && 0 <= i <= |actions|
  {
    actions[if i < |actions| then i else |actions| - 1]
  }

  /** Sum of a sequence of integers. */
  function SumInts(s: seq<int>): int {
    if s == [] then 0 else SumInts(s[..|s| - 1]) + s[|s| - 1]
  }

  /** Sum of a sequence of reals. */
  function SumReals(s: seq<real>): real {
    if s == [] then 0.0 else SumReals(s[..|s| - 1]) + s[|s| - 1]
  }

  /**
   * acc is the running total of costs, seeded with the first cost itself
   * rather than with 0, so it has exactly one entry per cost.
   */
  ghost predicate RunningSum(acc: seq<real>, costs: seq<real>) {
    && |acc| == |costs|
    && (0 < |costs| ==> acc[0] == costs[0])
    && forall k :: 0 < k < |acc| ==> acc[k] == acc[k - 1] + costs[k]
  }

  /** One step of the running total (the if/else over accumulatedCost.length). */
  function PushCost(acc: seq<real>, cost: real): seq<real> {
    if |acc| == 0 then [cost] else acc + [acc[|acc| - 1] + cost]
  }

  /** The largest of m and the entries of s. */
  ghost predicate IsMaxOf(m: int, floor: int, s: seq<int>) {
    && floor <= m
    && (forall k :: 0 <= k < |s| ==> s[k] <= m)
    && (m == floor || m in s)
  }

  // ---------------------------------------------------------------------
  // Properties of the specification functions
  // ---------------------------------------------------------------------

  /** Each running-total entry is the sum of the costs up to and including it. */
  lemma {:induction false} RunningSumIsPrefixSum(acc: seq<real>, costs: seq<real>, k: nat)
    requires RunningSum(acc, costs)
    requires k < |acc|
    ensures acc[k] == SumReals(costs[..k + 1])
  {
    if k == 0 {
      assert costs[..1] == [costs[0]];
      assert costs[..1][..0] == [];
    } else {
      RunningSumIsPrefixSum(acc, costs, k - 1);
      assert costs[..k + 1][..k] == costs[..k];
    }
  }

  /** With non-negative costs the cumulative-cost series never goes down. */
  lemma RunningSumNonDecreasing(acc: seq<real>, costs: seq<real>, i: nat, j: nat)
    requires RunningSum(acc, costs)
    requires forall k :: 0 <= k < |costs| ==> 0.0 <= costs[k]
    requires i <= j < |acc|
    ensures acc[i] <= acc[j]
    decreases j - i
  {
    if i < j {
      RunningSumNonDecreasing(acc, costs, i, j - 1);
    }
  }

  /** PushCost extends a running total by exactly one entry. */
  lemma PushCostExtends(acc: seq<real>, costs: seq<real>, c: real)
    requires RunningSum(acc, costs)
    ensures RunningSum(PushCost(acc, c), costs + [c])
  {
  }

  lemma {:induction false} CountOfAbsent(vms: seq<(string, int)>, t: string)
    requires t !in Keys(vms)
    ensures CountOf(vms, t) == 0
  {
    if vms != [] {
      assert vms[|vms| - 1] in vms;
      assert Keys(vms[..|vms| - 1]) <= Keys(vms) by {
        forall e | e in vms[..|vms| - 1] ensures e in vms { }
      }
      CountOfAbsent(vms[..|vms| - 1], t);
    }
  }

  /** The count of a type is the count in its (unique) entry. */
  lemma {:induction false} CountOfEntry(vms: seq<(string, int)>, j: nat)
    requires DistinctKeys(vms) && j < |vms|
    ensures CountOf(vms, vms[j].0) == vms[j].1
  {
    if j < |vms| - 1 {
      CountOfEntry(vms[..|vms| - 1], j);
    }
  }

  lemma {:induction false} SumIntsAppend(a: seq<int>, b: seq<int>)
    ensures SumInts(a + b) == SumInts(a) + SumInts(b)
    decreases |b|
  {
    if b == [] {
      assert a + b == a;
    } else {
      assert (a + b)[..|a + b| - 1] == a + b[..|b| - 1];
      SumIntsAppend(a, b[..|b| - 1]);
    }
  }

  lemma {:induction false} SumCountsIsTotal(vms: seq<(string, int)>)
    ensures SumInts(Counts(vms)) == TotalCount(vms)
  {
    if vms != [] {
      SumCountsIsTotal(vms[..|vms| - 1]);
      assert Counts(vms) == Counts(vms[..|vms| - 1]) + [vms[|vms| - 1].1];
    }
  }

  /**
   * The comparison view's flat VM list adds up to the same number of VMs as
   * the single-policy view's per-sample totals (without the trailing sample).
   */
  lemma {:induction false} FlatCountsTotal(actions: seq<ScalingAction>)
    ensures SumInts(FlatCounts(actions))
         == SumInts(seq(|actions|, i requires 0 <= i < |actions| => TotalCount(actions[i].desiredState.vms)))
  {
    var totals := seq(|actions|, i requires 0 <= i < |actions| => TotalCount(actions[i].desiredState.vms));
    if actions != [] {
      var init := actions[..|actions| - 1];
      var last := actions[|actions| - 1];
      FlatCountsTotal(init);
      SumIntsAppend(FlatCounts(init), Counts(last.desiredState.vms));
      SumCountsIsTotal(last.desiredState.vms);
      var initTotals := seq(|init|, i requires 0 <= i < |init| => TotalCount(init[i].desiredState.vms));
      assert totals[..|totals| - 1] == initTotals;
    }
  }

  // ---------------------------------------------------------------------
  // computeUnits
  // ---------------------------------------------------------------------

  /**
   * One interval's VM bookkeeping: total and hover label over the entries of
   * vmSet, the entry's count pushed onto its type's series, then 0 pushed
   * onto the series of every roster type the interval does not mention.
   */
  method TallyVMs(vmSet: seq<(string, int)>, scales: map<string, seq<int>>, roster: set<string>)
    returns (totalVMs: int, hoverLabel: string, scales': map<string, seq<int>>)
    requires DistinctKeys(vmSet) && Keys(vmSet) <= roster && scales.Keys == roster
    ensures totalVMs == TotalCount(vmSet)
    ensures hoverLabel == VmLabel(vmSet)
    ensures scales'.Keys == roster
    ensures forall t :: t in roster ==> scales'[t] == scales[t] + [CountOf(vmSet, t)]
  {
    totalVMs, hoverLabel, scales' := 0, "", scales;
    var j := 0;
    while j < |vmSet|
      invariant 0 <= j <= |vmSet|
      invariant totalVMs == TotalCount(vmSet[..j]) && hoverLabel == VmLabel(vmSet[..j])
      invariant scales'.Keys == roster
      invariant forall t :: t in roster && t !in Keys(vmSet[..j]) ==> scales'[t] == scales[t]
      invariant forall t :: t in roster && t in Keys(vmSet[..j]) ==> scales'[t] == scales[t] + [CountOf(vmSet[..j], t)]
    {
      var (key, n) := vmSet[j];
      TallyStep(vmSet, j);
      hoverLabel := hoverLabel + key + ":" + IntToString(n) + ", ";
      totalVMs := totalVMs + n;
      scales' := scales'[key := scales'[key] + [n]];
      j := j + 1;
    }
    assert vmSet[..j] == vmSet;
    scales' := ZeroFill(vmSet, scales, scales', roster);
  }

  /** What one more entry of an interval's VM set adds to the running tallies. */
  lemma TallyStep(vmSet: seq<(string, int)>, j: nat)
    requires DistinctKeys(vmSet) && j < |vmSet|
    ensures vmSet[j].0 !in Keys(vmSet[..j])
    ensures Keys(vmSet[..j + 1]) == Keys(vmSet[..j]) + {vmSet[j].0}
    ensures CountOf(vmSet[..j + 1], vmSet[j].0) == vmSet[j].1
    ensures forall t :: t != vmSet[j].0 ==> CountOf(vmSet[..j + 1], t) == CountOf(vmSet[..j], t)
    ensures TotalCount(vmSet[..j + 1]) == TotalCount(vmSet[..j]) + vmSet[j].1
    ensures VmLabel(vmSet[..j + 1]) == VmLabel(vmSet[..j]) + vmSet[j].0 + ":" + IntToString(vmSet[j].1) + ", "
  {
    var pre := vmSet[..j + 1];
    assert pre[..j] == vmSet[..j];
    assert pre == vmSet[..j] + [vmSet[j]];
  }

  /** The zero-fill pass: 0 for every roster type the interval leaves out. */
  method ZeroFill(vmSet: seq<(string, int)>, scales: map<string, seq<int>>, tallied: map<string, seq<int>>,
                  roster: set<string>)
    returns (scales': map<string, seq<int>>)
    requires scales.Keys == roster && tallied.Keys == roster
    requires forall t :: t in roster && t !in Keys(vmSet) ==> tallied[t] == scales[t]
    requires forall t :: t in roster && t in Keys(vmSet) ==> tallied[t] == scales[t] + [CountOf(vmSet, t)]
    ensures scales'.Keys == roster
    ensures forall t :: t in roster ==> scales'[t] == scales[t] + [CountOf(vmSet, t)]
  {
    scales' := tallied;
    var flagged := Keys(vmSet);
    var rest := roster;
    while rest != {}
      invariant rest <= roster
      invariant scales'.Keys == roster
      invariant forall t :: t in roster && t !in flagged && t in rest ==> scales'[t] == scales[t]
      invariant forall t :: t in roster && (t in flagged || t !in rest) ==> scales'[t] == scales[t] + [CountOf(vmSet, t)]
      decreases rest
    {
      var t :| t in rest;
      if t !in flagged {
        CountOfAbsent(vmSet, t);
        scales' := scales'[t := scales'[t] + [0]];
      }
      rest := rest - {t};
    }
  }

  /** One interval's services: replicas and limits pushed, the replica maximum kept. */
  method PushServices(services: seq<Service>, replicas: seq<int>, limitsCpu: seq<real>,
                      limitsMem: seq<real>, maxContainers: int)
    returns (replicas': seq<int>, limitsCpu': seq<real>, limitsMem': seq<real>, maxContainers': int)
    ensures replicas' == replicas + ReplicaCounts(services)
    ensures limitsCpu' == limitsCpu + CpuLimits(services)
    ensures limitsMem' == limitsMem + MemLimits(services)
    ensures IsMaxOf(maxContainers', maxContainers, ReplicaCounts(services))
  {
    replicas', limitsCpu', limitsMem', maxContainers' := replicas, limitsCpu, limitsMem, maxContainers;
    var k := 0;
    while k < |services|
      invariant 0 <= k <= |services|
      invariant replicas' == replicas + ReplicaCounts(services[..k])
      invariant limitsCpu' == limitsCpu + CpuLimits(services[..k])
      invariant limitsMem' == limitsMem + MemLimits(services[..k])
      invariant IsMaxOf(maxContainers', maxContainers, ReplicaCounts(services[..k]))
    {
      var s := services[k];
      assert ReplicaCounts(services[..k + 1]) == ReplicaCounts(services[..k]) + [s.replicas];
      assert CpuLimits(services[..k + 1]) == CpuLimits(services[..k]) + [s.cpuCores];
      assert MemLimits(services[..k + 1]) == MemLimits(services[..k]) + [s.memGB];
      replicas' := replicas' + [s.replicas];
      if s.replicas > maxContainers' {
        maxContainers' := s.replicas;
      }
      limitsCpu' := limitsCpu' + [s.cpuCores];
      limitsMem' := limitsMem' + [s.memGB];
      k := k + 1;
    }
    assert services[..k] == services;
  }

  /** Per-sample VM totals and hover labels, with the largest total. */
  ghost predicate VmsCharted(vms: seq<int>, labels: seq<string>, maxNumVMs: int, samples: seq<ScalingAction>) {
    && |vms| == |samples| && |labels| == |samples|
    && (forall k :: 0 <= k < |samples| ==>
          vms[k] == TotalCount(samples[k].desiredState.vms) && labels[k] == VmLabel(samples[k].desiredState.vms))
    && IsMaxOf(maxNumVMs, 0, vms)
  }

  /** One series per roster type, holding that type's count in every sample (0 when absent). */
  ghost predicate ScalesCharted(scales: map<string, seq<int>>, samples: seq<ScalingAction>, roster: set<string>) {
    && scales.Keys == roster
    && (forall t :: t in scales ==> |scales[t]| == |samples|)
    && (forall t, k :: t in scales && 0 <= k < |samples| ==> scales[t][k] == CountOf(samples[k].desiredState.vms, t))
  }

  /** Every sample's services, in order, with the largest replica count. */
  ghost predicate ServicesCharted(replicas: seq<int>, limitsCpu: seq<real>, limitsMem: seq<real>,
                                  maxNumContainers: int, samples: seq<ScalingAction>) {
    && replicas == FlatReplicas(samples)
    && limitsCpu == FlatCpuLimits(samples) && limitsMem == FlatMemLimits(samples)
    && IsMaxOf(maxNumContainers, 0, replicas)
  }

  /** Per-sample metrics. */
  ghost predicate MetricsCharted(msc: seq<real>, cpuUtil: seq<real>, memUtil: seq<real>, samples: seq<ScalingAction>) {
    && |msc| == |samples| && |cpuUtil| == |samples| && |memUtil| == |samples|
    && forall k :: 0 <= k < |samples| ==>
         msc[k] == samples[k].metrics.requestsCapacity &&
         cpuUtil[k] == samples[k].metrics.cpuUtilization &&
         memUtil[k] == samples[k].metrics.memUtilization
  }

  /** u holds the chart values of the given samples, one sample after another. */
  ghost predicate Charted(u: Units, samples: seq<ScalingAction>, roster: set<string>) {
    && VmsCharted(u.vms, u.labelsTypesVmSet, u.maxNumVMs, samples)
    && ScalesCharted(u.vmScalesInTime, samples, roster)
    && ServicesCharted(u.replicas, u.limitsCpuCores, u.limitsMemGB, u.maxNumContainers, samples)
    && MetricsCharted(u.msc, u.utilizationCpuCores, u.utilizationMemGB, samples)
  }

  lemma IsMaxOfAppend(m: int, m': int, floor: int, s: seq<int>, t: seq<int>)
    requires IsMaxOf(m, floor, s) && IsMaxOf(m', m, t)
    ensures IsMaxOf(m', floor, s + t)
  {
    if m' == m && m != floor {
      assert m in s + t;
    }
  }

  /** The chart values of one more sample pushed onto every series. */
  method AddSample(u: Units, ghost samples: seq<ScalingAction>, conf: ScalingAction, roster: set<string>)
    returns (u': Units)
    requires Charted(u, samples, roster)
    requires DistinctKeys(conf.desiredState.vms) && Keys(conf.desiredState.vms) <= roster
    ensures Charted(u', samples + [conf], roster)
    ensures u'.time == u.time && u'.accumulatedCost == u.accumulatedCost
  {
    var vms, labels, maxNumVMs, scales :=
      AddSampleVms(u.vms, u.labelsTypesVmSet, u.maxNumVMs, u.vmScalesInTime, samples, conf, roster);
    var replicas, limitsCpu, limitsMem, maxNumContainers :=
      AddSampleServices(u.replicas, u.limitsCpuCores, u.limitsMemGB, u.maxNumContainers, samples, conf);
    var msc := u.msc + [conf.metrics.requestsCapacity];
    var cpuUtil := u.utilizationCpuCores + [conf.metrics.cpuUtilization];
    var memUtil := u.utilizationMemGB + [conf.metrics.memUtilization];
    MetricsSnoc(u.msc, u.utilizationCpuCores, u.utilizationMemGB, samples, conf);
    u' := Units(u.time, vms, replicas, msc, cpuUtil, memUtil, labels, scales,
                limitsCpu, limitsMem, maxNumContainers, maxNumVMs, u.accumulatedCost);
  }

  /** The VM part of one more sample: total, label, axis maximum and per-type series. */
  method AddSampleVms(vms: seq<int>, labels: seq<string>, maxNumVMs: int, scales: map<string, seq<int>>,
                      ghost samples: seq<ScalingAction>, conf: ScalingAction, roster: set<string>)
    returns (vms': seq<int>, labels': seq<string>, maxNumVMs': int, scales': map<string, seq<int>>)
    requires VmsCharted(vms, labels, maxNumVMs, samples) && ScalesCharted(scales, samples, roster)
    requires DistinctKeys(conf.desiredState.vms) && Keys(conf.desiredState.vms) <= roster
    ensures VmsCharted(vms', labels', maxNumVMs', samples + [conf])
    ensures ScalesCharted(scales', samples + [conf], roster)
  {
    ghost var samples' := samples + [conf];
    assert samples'[..|samples|] == samples;
    var totalVMs, vmLabel;
    totalVMs, vmLabel, scales' := TallyVMs(conf.desiredState.vms, scales, roster);
    maxNumVMs' := maxNumVMs;
    if totalVMs > maxNumVMs' {
      maxNumVMs' := totalVMs;
    }
    vms', labels' := vms + [totalVMs], labels + [vmLabel];
    IsMaxOfAppend(maxNumVMs, maxNumVMs', 0, vms, [totalVMs]);
  }

  /** The service part of one more sample: replicas and limits, and the replica maximum. */
  method AddSampleServices(replicas: seq<int>, limitsCpu: seq<real>, limitsMem: seq<real>, maxNumContainers: int,
                           ghost samples: seq<ScalingAction>, conf: ScalingAction)
    returns (replicas': seq<int>, limitsCpu': seq<real>, limitsMem': seq<real>, maxNumContainers': int)
    requires ServicesCharted(replicas, limitsCpu, limitsMem, maxNumContainers, samples)
    ensures ServicesCharted(replicas', limitsCpu', limitsMem', maxNumContainers', samples + [conf])
  {
    replicas', limitsCpu', limitsMem', maxNumContainers' :=
      PushServices(conf.desiredState.services, replicas, limitsCpu, limitsMem, maxNumContainers);
    FlatSnoc(samples, conf);
    IsMaxOfAppend(maxNumContainers, maxNumContainers', 0, replicas, ReplicaCounts(conf.desiredState.services));
  }

  lemma MetricsSnoc(msc: seq<real>, cpuUtil: seq<real>, memUtil: seq<real>,
                    samples: seq<ScalingAction>, conf: ScalingAction)
    requires MetricsCharted(msc, cpuUtil, memUtil, samples)
    ensures MetricsCharted(msc + [conf.metrics.requestsCapacity], cpuUtil + [conf.metrics.cpuUtilization],
                           memUtil + [conf.metrics.memUtilization], samples + [conf])
  {
  }

  /** The trailing sample: charting every action and then the last one again. */
  ghost function WithTrailing(actions: seq<ScalingAction>): (samples: seq<ScalingAction>)
    requires 0 < |actions|
    ensures |samples| == |actions| + 1
    ensures forall i :: 0 <= i <= |actions| ==> samples[i] == Sample(actions, i)
  {
    actions + [actions[|actions| - 1]]
  }

  /** The flattened series of one more action end with that action's entries. */
  lemma FlatSnoc(actions: seq<ScalingAction>, a: ScalingAction)
    ensures FlatReplicas(actions + [a]) == FlatReplicas(actions) + ReplicaCounts(a.desiredState.services)
    ensures FlatCpuLimits(actions + [a]) == FlatCpuLimits(actions) + CpuLimits(a.desiredState.services)
    ensures FlatMemLimits(actions + [a]) == FlatMemLimits(actions) + MemLimits(a.desiredState.services)
  {
    assert (actions + [a])[..|actions|] == actions;
  }

  lemma ServicesWithTrailing(replicas: seq<int>, limitsCpu: seq<real>, limitsMem: seq<real>,
                             maxNumContainers: int, actions: seq<ScalingAction>)
    requires 0 < |actions|
    requires ServicesCharted(replicas, limitsCpu, limitsMem, maxNumContainers, WithTrailing(actions))
    ensures replicas == FlatReplicas(actions) + ReplicaCounts(actions[|actions| - 1].desiredState.services)
    ensures limitsCpu == FlatCpuLimits(actions) + CpuLimits(actions[|actions| - 1].desiredState.services)
    ensures limitsMem == FlatMemLimits(actions) + MemLimits(actions[|actions| - 1].desiredState.services)
  {
    FlatSnoc(actions, actions[|actions| - 1]);
  }

  /**
   * computeUnits: the chart series of one policy. Every per-sample series
   * has |actions| + 1 entries, the cumulative cost |actions|.
   */
  method ComputeUnits(p: Policy) returns (u: Units)
    requires VmTypesParameter in p.parameters
    requires 0 < |p.scalingActions|
    requires forall a :: a in p.scalingActions ==>
      DistinctKeys(a.desiredState.vms) && forall e :: e in a.desiredState.vms ==> e.0 in Roster(p)
    // time axis: every action's start, then the last action's end
    ensures |u.time| == |p.scalingActions| + 1
    ensures forall i :: 0 <= i < |p.scalingActions| ==> u.time[i] == p.scalingActions[i].timeStart
    ensures u.time[|p.scalingActions|] == p.scalingActions[|p.scalingActions| - 1].timeEnd
    // totals, labels and per-type counts, zero-filled against the roster
    ensures |u.vms| == |p.scalingActions| + 1 && |u.labelsTypesVmSet| == |p.scalingActions| + 1
    ensures forall i :: 0 <= i <= |p.scalingActions| ==>
      u.vms[i] == TotalCount(Sample(p.scalingActions, i).desiredState.vms) &&
      u.labelsTypesVmSet[i] == VmLabel(Sample(p.scalingActions, i).desiredState.vms)
    ensures u.vms[|p.scalingActions|] == u.vms[|p.scalingActions| - 1]
    ensures u.vmScalesInTime.Keys == set t | t in Roster(p)
    ensures forall t :: t in u.vmScalesInTime ==> |u.vmScalesInTime[t]| == |p.scalingActions| + 1
    ensures forall t, i :: t in u.vmScalesInTime && 0 <= i <= |p.scalingActions| ==>
      u.vmScalesInTime[t][i] == CountOf(Sample(p.scalingActions, i).desiredState.vms, t)
    // services of every sample, in order
    ensures u.replicas == FlatReplicas(p.scalingActions)
      + ReplicaCounts(p.scalingActions[|p.scalingActions| - 1].desiredState.services)
    ensures u.limitsCpuCores == FlatCpuLimits(p.scalingActions)
      + CpuLimits(p.scalingActions[|p.scalingActions| - 1].desiredState.services)
    ensures u.limitsMemGB == FlatMemLimits(p.scalingActions)
      + MemLimits(p.scalingActions[|p.scalingActions| - 1].desiredState.services)
    // metrics copied per sample
    ensures |u.msc| == |p.scalingActions| + 1
    ensures |u.utilizationCpuCores| == |p.scalingActions| + 1
    ensures |u.utilizationMemGB| == |p.scalingActions| + 1
    ensures forall i :: 0 <= i <= |p.scalingActions| ==>
      u.msc[i] == Sample(p.scalingActions, i).metrics.requestsCapacity &&
      u.utilizationCpuCores[i] == Sample(p.scalingActions, i).metrics.cpuUtilization &&
      u.utilizationMemGB[i] == Sample(p.scalingActions, i).metrics.memUtilization
    // cumulative cost: one entry per action
    ensures RunningSum(u.accumulatedCost, Costs(p.scalingActions))
    // axis bounds
    ensures IsMaxOf(u.maxNumVMs, 0, u.vms)
    ensures IsMaxOf(u.maxNumContainers, 0, u.replicas)
  {
    var actions := p.scalingActions;
    var roster := Split(p.parameters[VmTypesParameter], ',');
    var rosterSet := set t | t in roster;
    ActionsFitRoster(p, rosterSet);
    u := ChartActions(actions, rosterSet);
    TimeWithTrailing(u.time, actions);
    VmsWithTrailing(u.vms, u.labelsTypesVmSet, u.maxNumVMs, actions);
    ScalesWithTrailing(u.vmScalesInTime, actions, rosterSet);
    ServicesWithTrailing(u.replicas, u.limitsCpuCores, u.limitsMemGB, u.maxNumContainers, actions);
    MetricsWithTrailing(u.msc, u.utilizationCpuCores, u.utilizationMemGB, actions);
  }

  lemma ActionsFitRoster(p: Policy, rosterSet: set<string>)
    requires VmTypesParameter in p.parameters
    requires rosterSet == set t | t in Roster(p)
    requires forall a :: a in p.scalingActions ==>
      DistinctKeys(a.desiredState.vms) && forall e :: e in a.desiredState.vms ==> e.0 in Roster(p)
    ensures forall k :: 0 <= k < |p.scalingActions| ==> FitsRoster(p.scalingActions[k].desiredState.vms, rosterSet)
  {
    forall k | 0 <= k < |p.scalingActions|
      ensures FitsRoster(p.scalingActions[k].desiredState.vms, rosterSet)
    {
      assert p.scalingActions[k] in p.scalingActions;
    }
  }

  lemma TimeWithTrailing(time: seq<Timestamp>, actions: seq<ScalingAction>)
    requires 0 < |actions|
    requires time == Starts(actions) + [actions[|actions| - 1].timeEnd]
    ensures |time| == |actions| + 1
    ensures forall i :: 0 <= i < |actions| ==> time[i] == actions[i].timeStart
    ensures time[|actions|] == actions[|actions| - 1].timeEnd
  {
  }

  lemma VmsWithTrailing(vms: seq<int>, labels: seq<string>, maxNumVMs: int, actions: seq<ScalingAction>)
    requires 0 < |actions|
    requires VmsCharted(vms, labels, maxNumVMs, WithTrailing(actions))
    ensures |vms| == |actions| + 1 && |labels| == |actions| + 1
    ensures forall i :: 0 <= i <= |actions| ==>
      vms[i] == TotalCount(Sample(actions, i).desiredState.vms) &&
      labels[i] == VmLabel(Sample(actions, i).desiredState.vms)
    ensures vms[|actions|] == vms[|actions| - 1]
    ensures IsMaxOf(maxNumVMs, 0, vms)
  {
  }

  lemma ScalesWithTrailing(scales: map<string, seq<int>>, actions: seq<ScalingAction>, roster: set<string>)
    requires 0 < |actions|
    requires ScalesCharted(scales, WithTrailing(actions), roster)
    ensures scales.Keys == roster
    ensures forall t :: t in scales ==> |scales[t]| == |actions| + 1
    ensures forall t, i :: t in scales && 0 <= i <= |actions| ==>
      scales[t][i] == CountOf(Sample(actions, i).desiredState.vms, t)
  {
  }

  lemma MetricsWithTrailing(msc: seq<real>, cpuUtil: seq<real>, memUtil: seq<real>, actions: seq<ScalingAction>)
    requires 0 < |actions|
    requires MetricsCharted(msc, cpuUtil, memUtil, WithTrailing(actions))
    ensures |msc| == |actions| + 1 && |cpuUtil| == |actions| + 1 && |memUtil| == |actions| + 1
    ensures forall i :: 0 <= i <= |actions| ==>
      msc[i] == Sample(actions, i).metrics.requestsCapacity &&
      cpuUtil[i] == Sample(actions, i).metrics.cpuUtilization &&
      memUtil[i] == Sample(actions, i).metrics.memUtilization
  {
  }

  /** Every VM type of an interval is in the roster, at most once. */
  predicate FitsRoster(vms: seq<(string, int)>, roster: set<string>) {
    DistinctKeys(vms) && Keys(vms) <= roster
  }

  /** The start time and the running cost of one more interval. */
  method AddInterval(time: seq<Timestamp>, accumulatedCost: seq<real>, ghost done: seq<ScalingAction>,
                     conf: ScalingAction)
    returns (time': seq<Timestamp>, accumulatedCost': seq<real>)
    requires time == Starts(done) && RunningSum(accumulatedCost, Costs(done))
    ensures time' == Starts(done + [conf]) && RunningSum(accumulatedCost', Costs(done + [conf]))
  {
    assert Starts(done + [conf]) == Starts(done) + [conf.timeStart];
    time' := time + [conf.timeStart];
    assert Costs(done + [conf]) == Costs(done) + [conf.metrics.cost];
    PushCostExtends(accumulatedCost, Costs(done), conf.metrics.cost);
    accumulatedCost' := PushCost(accumulatedCost, conf.metrics.cost);
  }

  /** What computeUnits' loop has built after the first i actions. */
  ghost predicate ChartedUpTo(i: nat, chart: Units, time: seq<Timestamp>, accumulatedCost: seq<real>,
                              actions: seq<ScalingAction>, roster: set<string>) {
    && i <= |actions|
    && Charted(chart, actions[..i], roster)
    && time == Starts(actions[..i])
    && RunningSum(accumulatedCost, Costs(actions[..i]))
  }

  /** One turn of computeUnits' loop. */
  method ChartStep(i: nat, chart: Units, time: seq<Timestamp>, accumulatedCost: seq<real>,
                   actions: seq<ScalingAction>, roster: set<string>)
    returns (chart': Units, time': seq<Timestamp>, accumulatedCost': seq<real>)
    requires i < |actions| && FitsRoster(actions[i].desiredState.vms, roster)
    requires ChartedUpTo(i, chart, time, accumulatedCost, actions, roster)
    ensures ChartedUpTo(i + 1, chart', time', accumulatedCost', actions, roster)
  {
    var conf := actions[i];
    assert actions[..i + 1] == actions[..i] + [conf];
    chart' := AddSample(chart, actions[..i], conf, roster);
    time', accumulatedCost' := AddInterval(time, accumulatedCost, actions[..i], conf);
  }

  /** The loop of computeUnits: one sample per action, with the time axis and the running cost. */
  method ChartLoop(actions: seq<ScalingAction>, roster: set<string>)
    returns (chart: Units, time: seq<Timestamp>, accumulatedCost: seq<real>)
    requires forall k :: 0 <= k < |actions| ==> FitsRoster(actions[k].desiredState.vms, roster)
    ensures Charted(chart, actions, roster)
    ensures time == Starts(actions)
    ensures RunningSum(accumulatedCost, Costs(actions))
  {
    var n := |actions|;
    chart := Units([], [], [], [], [], [], [], map t | t in roster :: [], [], [], 0, 0, []);
    time := [];
    accumulatedCost := [];
    assert actions[..0] == [];
    var i := 0;
    while i < n
      invariant ChartedUpTo(i, chart, time, accumulatedCost, actions, roster)
      decreases n - i
    {
      chart, time, accumulatedCost := ChartStep(i, chart, time, accumulatedCost, actions, roster);
      i := i + 1;
    }
    assert actions[..n] == actions;
  }

  /** The chart values do not depend on the time axis and the running cost stored beside them. */
  lemma ChartedIgnoresAxis(u: Units, samples: seq<ScalingAction>, roster: set<string>,
                           time: seq<Timestamp>, accumulatedCost: seq<real>)
    requires Charted(u, samples, roster)
    ensures Charted(u.(time := time, accumulatedCost := accumulatedCost), samples, roster)
  {
  }

  /** The loop of computeUnits and its trailing sample, over a roster already split. */
  method ChartActions(actions: seq<ScalingAction>, roster: set<string>) returns (u: Units)
    requires 0 < |actions|
    requires forall k :: 0 <= k < |actions| ==> FitsRoster(actions[k].desiredState.vms, roster)
    ensures Charted(u, WithTrailing(actions), roster)
    ensures u.time == Starts(actions) + [actions[|actions| - 1].timeEnd]
    ensures RunningSum(u.accumulatedCost, Costs(actions))
  {
    var chart, time, accumulatedCost := ChartLoop(actions, roster);
    // the trailing sample repeats the last action at its end time
    var lastConf := actions[|actions| - 1];
    time := time + [lastConf.timeEnd];
    ChartedIgnoresAxis(chart, actions, roster, time, accumulatedCost);
    chart := chart.(time := time, accumulatedCost := accumulatedCost);
    u := AddSample(chart, actions, lastConf, roster);
    assert actions + [lastConf] == WithTrailing(actions);
  }

  // ---------------------------------------------------------------------
  // stackedArea
  // ---------------------------------------------------------------------

  /** y with below added entry-wise over the positions both have. */
  function AddOnto(y: seq<real>, below: seq<real>): (r: seq<real>)
    ensures |r| == |y|
  {
    seq(|y|, j requires 0 <= j < |y| => if j < |below| then y[j] + below[j] else y[j])
  }

  /** The traces' y values after stacking: each trace on top of the stacked one before it. */
  function Stacked(ys: seq<seq<real>>): (r: seq<seq<real>>)
    ensures |r| == |ys|
    ensures forall i :: 0 <= i < |ys| ==> |r[i]| == |ys[i]|
    decreases |ys|
  {
    if |ys| <= 1 then ys
    else
      var below := Stacked(ys[..|ys| - 1]);
      below + [AddOnto(ys[|ys| - 1], below[|below| - 1])]
  }

  /** Sum of ys[0][j] .. ys[i][j]. */
  function ColumnSum(ys: seq<seq<real>>, i: nat, j: nat): real
    requires i < |ys|
    requires forall k :: 0 <= k <= i ==> j < |ys[k]|
  {
    if i == 0 then ys[0][j] else ColumnSum(ys, i - 1, j) + ys[i][j]
  }

  lemma {:induction false} StackedPrefix(ys: seq<seq<real>>, i: nat)
    requires i <= |ys|
    ensures Stacked(ys[..i]) == Stacked(ys)[..i]
    decreases |ys|
  {
    if i < |ys| && |ys| > 1 {
      assert ys[..|ys| - 1][..i] == ys[..i];
      StackedPrefix(ys[..|ys| - 1], i);
    } else if i == |ys| {
      assert ys[..i] == ys;
    }
  }

  /** Stacking leaves the first trace as it was. */
  lemma {:induction false} StackedFirst(ys: seq<seq<real>>)
    requires |ys| > 0
    ensures Stacked(ys)[0] == ys[0]
    decreases |ys|
  {
    if |ys| > 1 {
      StackedFirst(ys[..|ys| - 1]);
    }
  }

  /**
   * Where trace i and all traces below it have an entry j, the stacked
   * trace i holds the column sum of the original traces 0..i at j; in
   * particular when all traces have the same length.
   */
  lemma {:induction false} StackedIsColumnSum(ys: seq<seq<real>>, i: nat, j: nat)
    requires i < |ys|
    requires forall k :: 0 <= k <= i ==> j < |ys[k]|
    ensures Stacked(ys)[i][j] == ColumnSum(ys, i, j)
    decreases |ys|
  {
    if i == 0 {
      StackedFirst(ys);
    } else if i < |ys| - 1 {
      StackedIsColumnSum(ys[..|ys| - 1], i, j);
      ColumnSumPrefix(ys, |ys| - 1, i, j);
    } else {
      var init := ys[..|ys| - 1];
      StackedIsColumnSum(init, i - 1, j);
      ColumnSumPrefix(ys, |ys| - 1, i - 1, j);
    }
  }

  lemma {:induction false} ColumnSumPrefix(ys: seq<seq<real>>, n: nat, i: nat, j: nat)
    requires i < n <= |ys|
    requires forall k :: 0 <= k <= i ==> j < |ys[k]|
    ensures ColumnSum(ys[..n], i, j) == ColumnSum(ys, i, j)
  {
    if i > 0 {
      ColumnSumPrefix(ys, n, i - 1, j);
    }
  }

  /** With non-negative values each stacked trace lies on or above the one below. */
  lemma StackedMonotone(ys: seq<seq<real>>, i: nat, j: nat)
    requires 0 < i < |ys|
    requires forall k, m :: 0 <= k < |ys| && 0 <= m < |ys[k]| ==> 0.0 <= ys[k][m]
    requires forall k :: 0 <= k <= i ==> j < |ys[k]|
    ensures Stacked(ys)[i - 1][j] <= Stacked(ys)[i][j]
  {
    StackedIsColumnSum(ys, i, j);
    StackedIsColumnSum(ys, i - 1, j);
  }

  /**
   * stackedArea: in place, each trace from the second on gets the (already
   * stacked) trace before it added over the positions both have.
   */
  method StackedArea(traces: array<seq<real>>)
    modifies traces
    ensures traces[..] == Stacked(old(traces[..]))
  {
    ghost var ys := traces[..];
    if traces.Length <= 1 {
      return;
    }
    var i := 1;
    while i < traces.Length
      invariant 1 <= i <= traces.Length
      invariant traces[..i] == Stacked(ys[..i])
      invariant forall k :: i <= k < traces.Length ==> traces[k] == ys[k]
    {
      ghost var stacked := traces[..i];
      AddOntoInPlace(traces, i);
      assert traces[..i] == stacked;
      assert ys[..i + 1][..i] == ys[..i];
      assert traces[..i + 1] == stacked + [AddOnto(ys[i], stacked[i - 1])];
      i := i + 1;
    }
    assert ys[..traces.Length] == ys;
  }

  /** The inner loop of stackedArea: trace i - 1 added onto trace i where both have entries. */
  method AddOntoInPlace(traces: array<seq<real>>, i: int)
    requires 1 <= i < traces.Length
    modifies traces
    ensures traces[i] == AddOnto(old(traces[i]), old(traces[i - 1]))
    ensures forall k :: 0 <= k < traces.Length && k != i ==> traces[k] == old(traces[k])
  {
    ghost var y := traces[i];
    ghost var below := traces[i - 1];
    var bound := if |traces[i]| < |traces[i - 1]| then |traces[i]| else |traces[i - 1]|;
    var j := 0;
    while j < bound
      invariant 0 <= j <= bound
      invariant forall k :: 0 <= k < traces.Length && k != i ==> traces[k] == old(traces[k])
      invariant |traces[i]| == |y|
      invariant forall m :: 0 <= m < |y| ==> traces[i][m] == if m < j then y[m] + below[m] else y[m]
    {
      traces[i] := traces[i][j := traces[i][j] + traces[i - 1][j]];
      j := j + 1;
    }
    assert traces[i] == AddOnto(y, below);
  }


  // ---------------------------------------------------------------------
  // getVirtualUnitsAll
  // ---------------------------------------------------------------------

  /** The VM counts of one interval appended, entry by entry. */
  method PushVmCounts(vmSet: seq<(string, int)>, vms: seq<int>) returns (vms': seq<int>)
    ensures vms' == vms + Counts(vmSet)
  {
    vms' := vms;
    var k := 0;
    while k < |vmSet|
      invariant 0 <= k <= |vmSet|
      invariant vms' == vms + Counts(vmSet[..k])
    {
      assert Counts(vmSet[..k + 1]) == Counts(vmSet[..k]) + [vmSet[k].1];
      vms' := vms' + [vmSet[k].1];
      k := k + 1;
    }
    assert vmSet[..k] == vmSet;
  }

  /** One interval's services: replicas and resources in use appended, service by service. */
  method PushInUse(services: seq<Service>, replicas: seq<int>, cpuCores: seq<real>, memGB: seq<real>)
    returns (replicas': seq<int>, cpuCores': seq<real>, memGB': seq<real>)
    ensures replicas' == replicas + ReplicaCounts(services)
    ensures cpuCores' == cpuCores + CpuInUse(services)
    ensures memGB' == memGB + MemInUse(services)
  {
    replicas', cpuCores', memGB' := replicas, cpuCores, memGB;
    var k := 0;
    while k < |services|
      invariant 0 <= k <= |services|
      invariant replicas' == replicas + ReplicaCounts(services[..k])
      invariant cpuCores' == cpuCores + CpuInUse(services[..k])
      invariant memGB' == memGB + MemInUse(services[..k])
    {
      var s := services[k];
      assert ReplicaCounts(services[..k + 1]) == ReplicaCounts(services[..k]) + [s.replicas];
      assert CpuInUse(services[..k + 1]) == CpuInUse(services[..k]) + [CpuOf(s)];
      assert MemInUse(services[..k + 1]) == MemInUse(services[..k]) + [MemOf(s)];
      replicas' := replicas' + [s.replicas];
      cpuCores' := cpuCores' + [CpuOf(s)];
      memGB' := memGB' + [MemOf(s)];
      k := k + 1;
    }
    assert services[..k] == services;
  }

  /** The per-policy part of getVirtualUnitsAll (the body of its forEach). */
  method PolicySeries(actions: seq<ScalingAction>)
    returns (time: seq<Timestamp>, vms: seq<int>, replicas: seq<int>, msc: seq<real>,
             cpuCores: seq<real>, memGB: seq<real>, accumulatedCost: seq<real>)
    requires 0 < |actions|
    ensures |time| == |actions| + 1
    ensures forall i :: 0 <= i < |actions| ==> time[i] == actions[i].timeStart
    ensures time[|actions|] == actions[|actions| - 1].timeEnd
    ensures vms == FlatCounts(actions)
    ensures replicas == FlatReplicas(actions)
    ensures cpuCores == FlatCpuInUse(actions) && memGB == FlatMemInUse(actions)
    ensures |msc| == |actions| + 1
    ensures forall i :: 0 <= i <= |actions| ==> msc[i] == Sample(actions, i).metrics.requestsCapacity
    ensures RunningSum(accumulatedCost, Costs(actions))
  {
    time, vms, replicas, msc, cpuCores, memGB, accumulatedCost := [], [], [], [], [], [], [];
    var i := 0;
    while i < |actions|
      invariant 0 <= i <= |actions|
      invariant |time| == i && forall k :: 0 <= k < i ==> time[k] == actions[k].timeStart
      invariant vms == FlatCounts(actions[..i]) && replicas == FlatReplicas(actions[..i])
      invariant cpuCores == FlatCpuInUse(actions[..i]) && memGB == FlatMemInUse(actions[..i])
      invariant |msc| == i && forall k :: 0 <= k < i ==> msc[k] == actions[k].metrics.requestsCapacity
      invariant RunningSum(accumulatedCost, Costs(actions[..i]))
    {
      var conf := actions[i];
      assert actions[..i + 1][..i] == actions[..i];
      time := time + [conf.timeStart];
      vms := PushVmCounts(conf.desiredState.vms, vms);
      replicas, cpuCores, memGB := PushInUse(conf.desiredState.services, replicas, cpuCores, memGB);
      msc := msc + [conf.metrics.requestsCapacity];
      assert Costs(actions[..i + 1]) == Costs(actions[..i]) + [conf.metrics.cost];
      PushCostExtends(accumulatedCost, Costs(actions[..i]), conf.metrics.cost);
      accumulatedCost := PushCost(accumulatedCost, conf.metrics.cost);
      i := i + 1;
    }
    assert actions[..i] == actions;
    var lastConf := actions[|actions| - 1];
    time := time + [lastConf.timeEnd];
    msc := msc + [lastConf.metrics.requestsCapacity];
  }

  /** One policy's entries of the comparison view: entry i of every output of getVirtualUnitsAll. */
  datatype PolicyRow = PolicyRow(
    time: seq<Timestamp>, trace: string, vms: seq<int>, replicas: seq<int>, trn: seq<real>,
    cpuCores: seq<real>, memGB: seq<real>, overprovision: real, underprovision: real,
    nScalingVMs: int, nScalingContainers: int, cost: real, accumulatedCost: seq<real>,
    avgShadowTime: real, avgTransitionTime: real, derivationDuration: real)

  /** Every output holds one entry per policy seen so far. */
  predicate Rectangular(all: AllUnits) {
    var n := |all.tracesAll|;
    && |all.timesAll| == n && |all.vmsAll| == n && |all.replicasAll| == n && |all.trnAll| == n
    && |all.cpuCoresAll| == n && |all.memGBAll| == n
    && |all.overprovisionAll| == n && |all.underprovisionAll| == n
    && |all.nScalingVMsAll| == n && |all.nScalingContainersAll| == n
    && |all.costAll| == n && |all.accumulatedCostAll| == n
    && |all.avgShadowTimeAll| == n && |all.avgTransitionTimeAll| == n
    && |all.derivationDurationTimeAll| == n
  }

  /** Entry j of every output. */
  function RowAt(all: AllUnits, j: nat): PolicyRow
    requires Rectangular(all) && j < |all.tracesAll|
  {
    PolicyRow(all.timesAll[j], all.tracesAll[j], all.vmsAll[j], all.replicasAll[j], all.trnAll[j],
              all.cpuCoresAll[j], all.memGBAll[j], all.overprovisionAll[j], all.underprovisionAll[j],
              all.nScalingVMsAll[j], all.nScalingContainersAll[j], all.costAll[j], all.accumulatedCostAll[j],
              all.avgShadowTimeAll[j], all.avgTransitionTimeAll[j], all.derivationDurationTimeAll[j])
  }

  /** One more policy's entries pushed onto every output. */
  function AppendRow(all: AllUnits, r: PolicyRow): (all': AllUnits)
    requires Rectangular(all)
    ensures Rectangular(all') && |all'.tracesAll| == |all.tracesAll| + 1
    ensures RowAt(all', |all.tracesAll|) == r && all'.time == r.time
    ensures forall j :: 0 <= j < |all.tracesAll| ==> RowAt(all', j) == RowAt(all, j)
  {
    AllUnits(
      time := r.time,
      timesAll := all.timesAll + [r.time],
      tracesAll := all.tracesAll + [r.trace],
      vmsAll := all.vmsAll + [r.vms],
      replicasAll := all.replicasAll + [r.replicas],
      trnAll := all.trnAll + [r.trn],
      cpuCoresAll := all.cpuCoresAll + [r.cpuCores],
      memGBAll := all.memGBAll + [r.memGB],
      overprovisionAll := all.overprovisionAll + [r.overprovision],
      underprovisionAll := all.underprovisionAll + [r.underprovision],
      nScalingVMsAll := all.nScalingVMsAll + [r.nScalingVMs],
      nScalingContainersAll := all.nScalingContainersAll + [r.nScalingContainers],
      costAll := all.costAll + [r.cost],
      accumulatedCostAll := all.accumulatedCostAll + [r.accumulatedCost],
      avgShadowTimeAll := all.avgShadowTimeAll + [r.avgShadowTime],
      avgTransitionTimeAll := all.avgTransitionTimeAll + [r.avgTransitionTime],
      derivationDurationTimeAll := all.derivationDurationTimeAll + [r.derivationDuration])
  }

  /**
   * r holds policy p's series and summary metrics: the time axis with its
   * trailing end, the flattened VM and service series, the request capacity
   * per sample, the running cost, and the policy's metrics copied.
   */
  ghost predicate RowOf(r: PolicyRow, p: Policy) {
    var actions := p.scalingActions;
    && 0 < |actions|
    && r.trace == p.algorithm
    && |r.time| == |actions| + 1
    && (forall k :: 0 <= k < |actions| ==> r.time[k] == actions[k].timeStart)
    && r.time[|actions|] == actions[|actions| - 1].timeEnd
    && r.vms == FlatCounts(actions)
    && r.replicas == FlatReplicas(actions)
    && r.cpuCores == FlatCpuInUse(actions)
    && r.memGB == FlatMemInUse(actions)
    && |r.trn| == |actions| + 1
    && (forall k :: 0 <= k <= |actions| ==> r.trn[k] == Sample(actions, k).metrics.requestsCapacity)
    && RunningSum(r.accumulatedCost, Costs(actions))
    && r.overprovision == p.metrics.overProvision
    && r.underprovision == p.metrics.underProvision
    && r.nScalingVMs == p.metrics.numScaleVms
    && r.nScalingContainers == p.metrics.numScaleContainers
    && r.cost == p.metrics.cost
    && r.avgShadowTime == p.metrics.avgShadowTimeSec
    && r.avgTransitionTime == p.metrics.avgTransitionTimeSec
    && r.derivationDuration == p.metrics.derivationDuration
  }

  /**
   * getVirtualUnitsAll: the comparison view's series, one entry per policy
   * in every output, in input order, labelled by the policy's algorithm.
   * The time axis it also returns is the page's global one, which every
   * policy overwrites with its own: the last policy's, or what the page
   * held before (previousTime) when there are no policies.
   */
  method GetVirtualUnitsAll(policies: seq<Policy>, previousTime: seq<Timestamp>) returns (all: AllUnits)
    requires forall p :: p in policies ==> 0 < |p.scalingActions|
    ensures Rectangular(all) && |all.tracesAll| == |policies|
    ensures forall i :: 0 <= i < |policies| ==> RowOf(RowAt(all, i), policies[i])
    ensures |policies| == 0 ==> all.time == previousTime
    ensures |policies| > 0 ==> all.time == RowAt(all, |policies| - 1).time
  {
    all := AllUnits(previousTime, [], [], [], [], [], [], [], [], [], [], [], [], [], [], [], []);
    var i := 0;
    while i < |policies|
      invariant 0 <= i <= |policies|
      invariant Rectangular(all) && |all.tracesAll| == i
      invariant forall j :: 0 <= j < i ==> RowOf(RowAt(all, j), policies[j])
      invariant i == 0 ==> all.time == previousTime
      invariant i > 0 ==> all.time == RowAt(all, i - 1).time
    {
      assert policies[i] in policies;
      var row := PolicyRowFor(policies[i]);
      all := AppendRow(all, row);
      i := i + 1;
    }
  }

  /** The body of getVirtualUnitsAll's loop: one policy's entries. */
  method PolicyRowFor(policy: Policy) returns (row: PolicyRow)
    requires 0 < |policy.scalingActions|
    ensures RowOf(row, policy)
  {
    var time, vms, replicas, msc, cpuCores, memGB, accumulatedCost := PolicySeries(policy.scalingActions);
    var m := policy.metrics;
    row := PolicyRow(time, policy.algorithm, vms, replicas, msc, cpuCores, memGB,
                     m.overProvision, m.underProvision, m.numScaleVms, m.numScaleContainers,
                     m.cost, accumulatedCost, m.avgShadowTimeSec, m.avgTransitionTimeSec,
                     m.derivationDuration);
  }
}
