/**
 * The older policy deriver (pkg/policies_derivation): replica capacity
 * without reserved resources, the profile choice among the storage
 * matches, the configuration list update, and the VM set builders.
 *
 * Time is whole seconds. The boot and shutdown durations of a VM set and
 * the rendering of a launch time (Go's Time.Format with the tool's
 * layout) come from outside and are parameters.
 */
module LegacyDerivation {
  import opened Text
  import opened VmScale
  import opened Sizing
  import opened Derivation

  /**
   * maxReplicasCapacityInVM: the largest number of replicas whose limits
   * fit in the whole VM (no share of it is reserved).
   */
  function MaxReplicasCapacityInVM(v: VmProfile, limit: Limit): (r: int)
    requires limit.cpuCores > 0.0 && limit.memoryGB > 0.0
    ensures v.cpuCores >= 0.0 && v.memory >= 0.0 ==>
      && 0 <= r
      && r as real * limit.cpuCores <= v.cpuCores
      && r as real * limit.memoryGB <= v.memory
      && ((r + 1) as real * limit.cpuCores > v.cpuCores || (r + 1) as real * limit.memoryGB > v.memory)
  {
    MaxReplicas(v, limit, 0.0, 0.0)
  }

  // ---------------------------------------------------------------------
  // selectProfileWithLimits
  // ---------------------------------------------------------------------

  /** The zero-valued configuration Go returns when storage matches nothing. */
  const ZeroConfig: ContainersConfig := ContainersConfig(0, 0.0, 0.0, Limit(0.0, 0.0), map[], 0.0)

  /**
   * selectProfileWithLimits, given what the two storage queries answered
   * (None where the query failed): the under-provisioning match when it was
   * asked for and found, else the over-provisioning match, else the
   * under-provisioning match, else the zero configuration.
   */
  function SelectProfileWithLimits(underProvision: bool, overMatch: Option<ContainersConfig>,
                                   underMatch: Option<ContainersConfig>): (c: ContainersConfig)
    ensures overMatch.Some? || underMatch.Some? ==> Some(c) == overMatch || Some(c) == underMatch
    ensures overMatch.None? && underMatch.None? ==> c == ZeroConfig
    ensures underProvision && underMatch.Some? ==> c == underMatch.value
    ensures !underProvision && overMatch.Some? ==> c == overMatch.value
  {
    if underProvision && underMatch.Some? then underMatch.value
    else if overMatch.Some? then overMatch.value
    else if underMatch.Some? then underMatch.value
    else ZeroConfig
  }

  /**
   * An over-provisioning match is passed over only for an
   * under-provisioning match that was asked for.
   */
  lemma OverMatchPrecedence(underProvision: bool, overMatch: Option<ContainersConfig>,
                            underMatch: Option<ContainersConfig>)
    requires overMatch.Some?
    ensures var c := SelectProfileWithLimits(underProvision, overMatch, underMatch);
      c == overMatch.value || (underProvision && underMatch.Some? && c == underMatch.value)
  {
  }

  // ---------------------------------------------------------------------
  // setConfiguration
  // ---------------------------------------------------------------------

  /** A deployment together with when it is launched and its label. */
  datatype LegacyState = LegacyState(services: map<string, ServiceInfo>, vms: VMScale, launchTime: int, name: string)

  datatype ScalingConfiguration = ScalingConfiguration(
    state: LegacyState, timeStart: int, timeEnd: int, capacityTRN: real)

  /** computeVMBootingTime and computeVMTerminationTime, in seconds. */
  datatype VmTimes = VmTimes(bootTime: VMScale -> int, terminationTime: VMScale -> int)

  /** State.Equal: the same services and the same VMs, whatever the launch time and label. */
  predicate SameDeployment(a: LegacyState, b: LegacyState) {
    a.services == b.services && a.vms == b.vms
  }

  /** The label of the configuration at index n: "n__name__stamp". */
  function ConfigurationName(n: nat, name: string, stamp: string): (s: string)
    ensures |s| > |NatToString(n)| + 1
    ensures s[..|NatToString(n)|] == NatToString(n) && s[|NatToString(n)|] == '_'
  {
    NatToString(n) + "__" + name + "__" + stamp
  }

  /** The index is recovered from a label: the digits before its first '_'. */
  lemma ConfigurationNameIndex(n: nat, name: string, stamp: string)
    ensures var s := ConfigurationName(n, name, stamp);
      && '_' in s
      && IndexOf(s, '_') == |NatToString(n)|
      && ParseNat(s[..IndexOf(s, '_')]) == n
  {
    var s := ConfigurationName(n, name, stamp);
    var digits := NatToString(n);
    assert s[|digits|] == '_';
    assert s[..|digits|] == digits;
    assert '_' !in digits by {
      forall i | 0 <= i < |digits| ensures digits[i] != '_' {
        assert IsDigit(digits[i]);
      }
    }
    IndexOfFirst(s, '_', |digits|);
    ParseNatToString(n);
  }

  /** The VM boot time counted before a new configuration: only for VMs added to a previous one. */
  function VmBootDelay(configurations: seq<ScalingConfiguration>, state: LegacyState, times: VmTimes): (d: int)
    ensures |configurations| == 0 ==> d == 0
    ensures |configurations| >= 1 && DeltaVMSet(configurations[|configurations| - 1].state.vms, state.vms).0 == map[]
            ==> d == 0
  {
    var n := |configurations|;
    if n >= 1 then
      var (added, _) := DeltaVMSet(configurations[n - 1].state.vms, state.vms);
      if |added| > 0 then times.bootTime(added) else 0
    else 0
  }

  /** The earlier configurations once the previous one waits for removed VMs to shut down. */
  function ExtendPrevious(configurations: seq<ScalingConfiguration>, state: LegacyState, times: VmTimes)
    : (r: seq<ScalingConfiguration>)
    ensures |r| == |configurations|
    ensures forall i :: 0 <= i < |r| && i != |r| - 1 ==> r[i] == configurations[i]
    ensures |r| >= 1 ==> r[|r| - 1].state == configurations[|r| - 1].state
    ensures |r| >= 1 ==> r[|r| - 1].timeStart == configurations[|r| - 1].timeStart
  {
    var n := |configurations|;
    if n >= 1 then
      var (_, removed) := DeltaVMSet(configurations[n - 1].state.vms, state.vms);
      if |removed| > 0 then
        var previous := configurations[n - 1];
        configurations[n - 1 := previous.(timeEnd := previous.timeEnd + times.terminationTime(removed))]
      else configurations
    else configurations
  }

  /**
   * What setConfiguration leaves in the list: the last configuration
   * stretched to timeEnd when the state repeats, else the earlier ones
   * (the previous one extended by the shutdown time of removed VMs) and one
   * new configuration launched early enough for VMs and containers to boot.
   */
  ghost predicate ConfigurationsUpdated(configurations: seq<ScalingConfiguration>,
                                        configurations': seq<ScalingConfiguration>, state: LegacyState,
                                        timeStart: int, timeEnd: int, name: string, totalServicesBootingTime: int,
                                        times: VmTimes, formatTime: int -> string, stateLoadCapacity: real) {
    var n := |configurations|;
    if n >= 1 && SameDeployment(state, configurations[n - 1].state) then
      configurations' == configurations[n - 1 := configurations[n - 1].(timeEnd := timeEnd)]
    else
      var launch := timeStart - VmBootDelay(configurations, state, times) - totalServicesBootingTime;
      && |configurations'| == n + 1
      && configurations'[..n] == ExtendPrevious(configurations, state, times)
      && configurations'[n] == ScalingConfiguration(
           state.(launchTime := launch, name := ConfigurationName(n, name, formatTime(launch))),
           timeStart, timeEnd, stateLoadCapacity)
  }

  /** setConfiguration, on the list value the Go pointer refers to. */
  method SetConfiguration(configurations: seq<ScalingConfiguration>, state: LegacyState, timeStart: int,
                          timeEnd: int, name: string, totalServicesBootingTime: int, times: VmTimes,
                          formatTime: int -> string, stateLoadCapacity: real)
    returns (configurations': seq<ScalingConfiguration>)
    ensures ConfigurationsUpdated(configurations, configurations', state, timeStart, timeEnd, name,
                                  totalServicesBootingTime, times, formatTime, stateLoadCapacity)
  {
    var nConfigurations := |configurations|;
    if nConfigurations >= 1 && SameDeployment(state, configurations[nConfigurations - 1].state) {
      configurations' := configurations[nConfigurations - 1 := configurations[nConfigurations - 1].(timeEnd := timeEnd)];
    } else {
      var bootTimeVMAdded := 0;
      configurations' := configurations;
      if nConfigurations >= 1 {
        var (vmAdded, vmRemoved) := DeltaVMSet(configurations[nConfigurations - 1].state.vms, state.vms);
        if |vmRemoved| > 0 {
          var finishTimeVMRemoved := times.terminationTime(vmRemoved);
          var previous := configurations'[nConfigurations - 1];
          configurations' := configurations'[nConfigurations - 1 := previous.(timeEnd := previous.timeEnd + finishTimeVMRemoved)];
        }
        if |vmAdded| > 0 {
          bootTimeVMAdded := times.bootTime(vmAdded);
        }
      }
      var startTime := timeStart - bootTimeVMAdded;
      startTime := startTime - totalServicesBootingTime;
      var launched := state.(launchTime := startTime,
                             name := ConfigurationName(nConfigurations, name, formatTime(startTime)));
      configurations' := configurations' + [ScalingConfiguration(launched, timeStart, timeEnd, stateLoadCapacity)];
    }
  }

  /**
   * The shape of the list after setConfiguration: at most one more entry;
   * the last one ends at timeEnd, holds the requested deployment and, when
   * new, starts at timeStart and launches no later than timeStart with
   * non-negative durations; earlier entries keep their states and starts,
   * and no end moves earlier with a non-negative shutdown time.
   */
  lemma ConfigurationsShape(configurations: seq<ScalingConfiguration>, configurations': seq<ScalingConfiguration>,
                            state: LegacyState, timeStart: int, timeEnd: int, name: string,
                            totalServicesBootingTime: int, times: VmTimes, formatTime: int -> string,
                            stateLoadCapacity: real)
    requires ConfigurationsUpdated(configurations, configurations', state, timeStart, timeEnd, name,
                                   totalServicesBootingTime, times, formatTime, stateLoadCapacity)
    ensures |configurations| <= |configurations'| <= |configurations| + 1
    ensures |configurations'| >= 1
    ensures var last := configurations'[|configurations'| - 1];
      last.timeEnd == timeEnd && SameDeployment(last.state, state)
    ensures |configurations'| > |configurations| ==>
      var last := configurations'[|configurations|];
      && last.timeStart == timeStart
      && last.capacityTRN == stateLoadCapacity
      && last.state.name == ConfigurationName(|configurations|, name, formatTime(last.state.launchTime))
      && ((forall s :: times.bootTime(s) >= 0) && totalServicesBootingTime >= 0 ==> last.state.launchTime <= timeStart)
    ensures forall i :: 0 <= i < |configurations| ==>
      && configurations'[i].state == configurations[i].state
      && configurations'[i].timeStart == configurations[i].timeStart
    ensures (forall s :: times.terminationTime(s) >= 0) && |configurations'| > |configurations| ==>
      forall i :: 0 <= i < |configurations| ==> configurations'[i].timeEnd >= configurations[i].timeEnd
  {
    var n := |configurations|;
    if !(n >= 1 && SameDeployment(state, configurations[n - 1].state)) {
      var extended := ExtendPrevious(configurations, state, times);
      assert forall i :: 0 <= i < n ==> configurations'[i] == extended[i] by {
        assert forall i :: 0 <= i < n ==> configurations'[i] == configurations'[..n][i];
      }
    }
  }

  /** When the state repeats, the list keeps its length and only the last end changes. */
  lemma RepeatedStateMerges(configurations: seq<ScalingConfiguration>, configurations': seq<ScalingConfiguration>,
                            state: LegacyState, timeStart: int, timeEnd: int, name: string,
                            totalServicesBootingTime: int, times: VmTimes, formatTime: int -> string,
                            stateLoadCapacity: real)
    requires |configurations| >= 1 && SameDeployment(state, configurations[|configurations| - 1].state)
    requires ConfigurationsUpdated(configurations, configurations', state, timeStart, timeEnd, name,
                                   totalServicesBootingTime, times, formatTime, stateLoadCapacity)
    ensures |configurations'| == |configurations|
    ensures configurations'[..|configurations| - 1] == configurations[..|configurations| - 1]
    ensures configurations'[|configurations| - 1].timeEnd == timeEnd
    ensures configurations'[|configurations| - 1] == configurations[|configurations| - 1].(timeEnd := timeEnd)
  {
  }

  // ---------------------------------------------------------------------
  // The VM set builders
  // ---------------------------------------------------------------------

  /**
   * buildHomogeneousVMSet: per type, ceil(n / capacity) VMs with the
   * whole-VM capacity; the cheapest, ties toward more VMs; "No VM
   * Candidate" when no type hosts a replica.
   */
  method BuildHomogeneousVMSet(numberReplicas: int, limits: Limit, profiles: map<string, VmProfile>)
    returns (r: WithError<VMScale>)
    requires limits.cpuCores > 0.0 && limits.memoryGB > 0.0
    ensures HomogeneousChoice(r, numberReplicas, limits, profiles, 0.0, 0.0, true)
  {
    r := BuildHomogeneous(numberReplicas, limits, profiles, 0.0, 0.0, true);
  }

  /**
   * buildHeterogeneousVMSet: the cheapest of the candidate sets buildTree
   * forms with whole-VM capacities, ties toward more VMs; "No VM
   * Candidate" when there is none.
   */
  method BuildHeterogeneousVMSet(numberReplicas: int, limits: Limit, profiles: map<string, VmProfile>)
    returns (r: WithError<VMScale>, candidates: seq<VMScale>)
    requires limits.cpuCores > 0.0 && limits.memoryGB > 0.0
    ensures HeterogeneousChoice(r, candidates, numberReplicas, limits, profiles, 0.0, 0.0)
  {
    r, candidates := BuildHeterogeneous(numberReplicas, limits, profiles, 0.0, 0.0);
  }
}
