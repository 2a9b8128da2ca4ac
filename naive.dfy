/**
 * The naive strategy (pkg/derivation/algo_naive.go): keep the VM type the
 * service runs on now and only change how many VMs of it there are,
 * interval by interval, into a single policy.
 *
 * The strategy's current state is a field of the value receiver; the loop
 * replaces it after every interval, so the next interval's VM type is read
 * from the VM set just chosen.
 */
module Naive {
  import opened VmScale
  import opened Derivation

  function Memory(profiles: map<string, VmProfile>, t: string): real {
    ProfileOf(profiles, t).memory
  }

  /**
   * t is a type currentVMType may answer: a current VM type with the most
   * memory, or "" when no current VM type has any memory. Go visits the
   * map in no fixed order, so among equally large types any may come out.
   */
  ghost predicate IsLargestType(t: string, vms: VMScale, profiles: map<string, VmProfile>) {
    if exists k :: k in vms && Memory(profiles, k) > 0.0 then
      && t in vms
      && Memory(profiles, t) > 0.0
      && forall k :: k in vms ==> Memory(profiles, k) <= Memory(profiles, t)
    else
      t == ""
  }

  /** currentVMType: the running maximum of memory over the current VM types. */
  method CurrentVMType(vms: VMScale, profiles: map<string, VmProfile>) returns (vmType: string)
    ensures IsLargestType(vmType, vms, profiles)
  {
    vmType := "";
    var memGB := 0.0;
    var rest := vms.Keys;
    while rest != {}
      invariant rest <= vms.Keys
      invariant memGB >= 0.0
      invariant memGB == 0.0 ==> vmType == ""
      invariant memGB > 0.0 ==> vmType in vms && Memory(profiles, vmType) == memGB
      invariant forall k :: k in vms && k !in rest ==> Memory(profiles, k) <= memGB
      decreases rest
    {
      var k :| k in rest;
      if Memory(profiles, k) > memGB {
        vmType := k;
        memGB := Memory(profiles, k);
      }
      rest := rest - {k};
    }
  }

  /**
   * r holds ceil(n / capacity) VMs of type t when a VM of t hosts at least
   * one replica, and nothing otherwise.
   */
  ghost predicate SizedWith(r: VMScale, t: string, numberReplicas: int, limits: Limit,
                            profiles: map<string, VmProfile>, settings: Settings)
    requires limits.cpuCores > 0.0 && limits.memoryGB > 0.0
  {
    var capacity := MaxReplicasCapacityInVM(ProfileOf(profiles, t), limits, settings);
    && (capacity > 0 ==> r.Keys == {t} && capacity * (r[t] - 1) < numberReplicas <= capacity * r[t])
    && (capacity <= 0 ==> r == map[])
  }

  /** r is sized with one of the current VM types with the most memory. */
  ghost predicate SizedWithLargest(r: VMScale, numberReplicas: int, limits: Limit, vms: VMScale,
                                   profiles: map<string, VmProfile>, settings: Settings)
    requires limits.cpuCores > 0.0 && limits.memoryGB > 0.0
  {
    exists t :: IsLargestType(t, vms, profiles) && SizedWith(r, t, numberReplicas, limits, profiles, settings)
  }

  /**
   * FindSuitableVMs: VMs of the current type for the replicas, or an empty
   * set when one VM of that type cannot host a replica.
   */
  method FindSuitableVMs(numberReplicas: int, limits: Limit, currentVMs: VMScale,
                         profiles: map<string, VmProfile>, settings: Settings)
    returns (vmScale: VMScale)
    requires limits.cpuCores > 0.0 && limits.memoryGB > 0.0
    ensures SizedWithLargest(vmScale, numberReplicas, limits, currentVMs, profiles, settings)
  {
    vmScale := map[];
    var vmType := CurrentVMType(currentVMs, profiles);
    var profile := ProfileOf(profiles, vmType);
    var maxReplicas := MaxReplicasCapacityInVM(profile, limits, settings);
    if maxReplicas > 0 {
      var numVMs := CeilDiv(numberReplicas, maxReplicas);
      vmScale := vmScale[vmType := numVMs];
    }
    assert SizedWith(vmScale, vmType, numberReplicas, limits, profiles, settings);
  }

  /** With no VMs running and no VM type named "", nothing can be sized. */
  lemma NothingFromNothing(r: VMScale, numberReplicas: int, limits: Limit, profiles: map<string, VmProfile>,
                           settings: Settings)
    requires limits.cpuCores > 0.0 && limits.memoryGB > 0.0
    requires "" !in profiles
    requires SizedWithLargest(r, numberReplicas, limits, map[], profiles, settings)
    ensures r == map[]
  {
    var t :| IsLargestType(t, map[], profiles) && SizedWith(r, t, numberReplicas, limits, profiles, settings);
    assert t == "";
    assert MaxReplicasCapacityInVM(ProfileOf(profiles, t), limits, settings) == 0;
  }

  // ---------------------------------------------------------------------
  // One interval
  // ---------------------------------------------------------------------

  /**
   * The choice for one interval, over the VM sets FindSuitableVMs sizes for
   * the over- and (when allowed) the under-provisioning profile: the
   * under-provisioning profile with its set exactly when under-provision
   * is allowed, its set costs strictly less and its throughput is in
   * range; the over-provisioning profile with its set otherwise. Each
   * lookup may settle on any of the largest current VM types.
   */
  ghost predicate NaiveChoice(vmSet: VMScale, config: ContainersConfig, it: CriticalInterval, currentLimits: Limit,
                              currentVMs: VMScale, profiles: map<string, VmProfile>, settings: Settings,
                              lookups: Lookups)
    requires PositiveLimits(lookups)
  {
    var over := lookups.selectProfileByLimits(it.requests, currentLimits, false);
    var under := lookups.selectProfileByLimits(it.requests, currentLimits, true);
    exists overSet :: SizedWithLargest(overSet, over.replicas, over.limits, currentVMs, profiles, settings) &&
      if settings.underprovisioningAllowed then
        exists underSet :: SizedWithLargest(underSet, under.replicas, under.limits, currentVMs, profiles, settings) &&
          UnderDecision(vmSet, config, overSet, over, underSet, under, it, settings, profiles)
      else
        vmSet == overSet && config == over
  }

  /** The comparison between the two options once both are sized. */
  ghost predicate UnderDecision(vmSet: VMScale, config: ContainersConfig, overSet: VMScale, over: ContainersConfig,
                                underSet: VMScale, under: ContainersConfig, it: CriticalInterval, settings: Settings,
                                profiles: map<string, VmProfile>) {
    if Cost(underSet, profiles) < Cost(overSet, profiles)
       && IsUnderProvisionInRange(it.requests, under.mscPerSecond, settings.maxUnderprovisionPercentage)
    then vmSet == underSet && config == under
    else vmSet == overSet && config == over
  }

  /** The body of CreatePolicies' loop up to the new state. */
  method ChooseConfig(it: CriticalInterval, currentLimits: Limit, currentVMs: VMScale,
                      profiles: map<string, VmProfile>, settings: Settings, lookups: Lookups)
    returns (vmSet: VMScale, config: ContainersConfig)
    requires PositiveLimits(lookups)
    ensures NaiveChoice(vmSet, config, it, currentLimits, currentVMs, profiles, settings, lookups)
    ensures currentVMs == map[] && "" !in profiles ==> vmSet == map[]
  {
    config := lookups.selectProfileByLimits(it.requests, currentLimits, false);
    vmSet := FindSuitableVMs(config.replicas, config.limits, currentVMs, profiles, settings);
    ghost var over, overSet := config, vmSet;
    if currentVMs == map[] && "" !in profiles {
      NothingFromNothing(vmSet, config.replicas, config.limits, profiles, settings);
    }
    var costOver := MeasureOf(vmSet, profiles, Price);
    if settings.underprovisioningAllowed {
      var containerConfigUnder := lookups.selectProfileByLimits(it.requests, currentLimits, settings.underprovisioningAllowed);
      var vmSetUnder := FindSuitableVMs(containerConfigUnder.replicas, containerConfigUnder.limits, currentVMs,
                                        profiles, settings);
      var costUnder := MeasureOf(vmSetUnder, profiles, Price);
      if costUnder < costOver
         && IsUnderProvisionInRange(it.requests, containerConfigUnder.mscPerSecond, settings.maxUnderprovisionPercentage) {
        if currentVMs == map[] && "" !in profiles {
          NothingFromNothing(vmSetUnder, containerConfigUnder.replicas, containerConfigUnder.limits, profiles, settings);
        }
        vmSet := vmSetUnder;
        config := containerConfigUnder;
      }
      assert UnderDecision(vmSet, config, overSet, over, vmSetUnder, containerConfigUnder, it, settings, profiles);
    }
  }

  // ---------------------------------------------------------------------
  // CreatePolicies
  // ---------------------------------------------------------------------

  /** Once a step asks for no VMs, every later step asks for none either. */
  ghost predicate EmptyStaysEmpty(steps: seq<ScalingStep>) {
    forall i, j :: 0 <= i <= j < |steps| && steps[i].desiredState.vms == map[] ==> steps[j].desiredState.vms == map[]
  }

  /** The container limits of the scaled service in the current state, zero when it is not deployed. */
  function ScaledLimits(initialState: State, settings: Settings): Limit {
    var serviceToScale := if settings.serviceName in initialState.services
                          then initialState.services[settings.serviceName] else ServiceInfo(0, 0.0, 0.0);
    Limit(serviceToScale.cpu, serviceToScale.memory)
  }

  /** What an interval's choice asks setScalingSteps for. */
  function NaiveTarget(choice: (VMScale, ContainersConfig), settings: Settings): (t: Target)
    ensures t.state.services.Keys == {settings.serviceName} && t.state.vms == choice.0
  {
    Target(IntervalState(choice.0, choice.1, settings.serviceName), choice.1.bootTimeSec, choice.1.mscPerSecond)
  }

  function NaiveTargets(choices: seq<(VMScale, ContainersConfig)>, settings: Settings): (ts: seq<Target>)
    ensures |ts| == |choices|
    ensures forall k :: 0 <= k < |choices| ==> ts[k] == NaiveTarget(choices[k], settings)
  {
    seq(|choices|, k requires 0 <= k < |choices| => NaiveTarget(choices[k], settings))
  }

  /** The VMs running before interval k: the initial ones, then the previous interval's choice. */
  function VmsBefore(initialState: State, choices: seq<(VMScale, ContainersConfig)>, k: nat): VMScale
    requires k <= |choices|
  {
    if k == 0 then initialState.vms else choices[k - 1].0
  }

  /** Each interval's choice is a naive choice from the VMs the previous interval left. */
  ghost predicate NaiveRun(choices: seq<(VMScale, ContainersConfig)>, intervals: seq<CriticalInterval>,
                           currentLimits: Limit, initialState: State, profiles: map<string, VmProfile>,
                           settings: Settings, lookups: Lookups)
    requires PositiveLimits(lookups)
  {
    && |choices| <= |intervals|
    && forall k :: 0 <= k < |choices| ==>
         ChoiceAt(k, choices, intervals, currentLimits, initialState, profiles, settings, lookups)
  }

  /** Interval k's choice is a naive choice from the VMs interval k - 1 left. */
  ghost predicate ChoiceAt(k: nat, choices: seq<(VMScale, ContainersConfig)>, intervals: seq<CriticalInterval>,
                           currentLimits: Limit, initialState: State, profiles: map<string, VmProfile>,
                           settings: Settings, lookups: Lookups)
    requires PositiveLimits(lookups)
    requires k < |choices| && k < |intervals|
  {
    NaiveChoice(choices[k].0, choices[k].1, intervals[k], currentLimits, VmsBefore(initialState, choices, k),
                profiles, settings, lookups)
  }

  /**
   * What CreatePolicies' loop knows after i intervals: their choices were
   * made one after the other, the steps are setScalingSteps applied to
   * them in turn, the current state is the last one asked for, and an
   * empty VM set is never followed by a non-empty one.
   */
  ghost predicate NaiveUpTo(i: nat, steps: seq<ScalingStep>, currentState: State,
                            choices: seq<(VMScale, ContainersConfig)>, intervals: seq<CriticalInterval>,
                            currentLimits: Limit, initialState: State, profiles: map<string, VmProfile>,
                            settings: Settings, lookups: Lookups)
    requires PositiveLimits(lookups)
  {
    && |choices| == i <= |intervals|
    && NaiveRun(choices, intervals, currentLimits, initialState, profiles, settings, lookups)
    && steps == StepsFor(initialState, NaiveTargets(choices, settings), intervals, lookups, settings)
    && currentState == StateBefore(initialState, NaiveTargets(choices, settings), i)
    && ("" !in profiles ==> EmptyStaysEmpty(steps))
  }

  /** Interval i's naive choice extends what the loop knows to i + 1 intervals. */
  lemma NaiveStep(i: nat, steps: seq<ScalingStep>, currentState: State, choices: seq<(VMScale, ContainersConfig)>,
                  choice: (VMScale, ContainersConfig), intervals: seq<CriticalInterval>, currentLimits: Limit,
                  initialState: State, profiles: map<string, VmProfile>, settings: Settings, lookups: Lookups)
    requires PositiveLimits(lookups)
    requires i < |intervals|
    requires NaiveUpTo(i, steps, currentState, choices, intervals, currentLimits, initialState, profiles, settings,
                       lookups)
    requires NaiveChoice(choice.0, choice.1, intervals[i], currentLimits, currentState.vms, profiles, settings, lookups)
    requires "" !in profiles && currentState.vms == map[] ==> choice.0 == map[]
    ensures var t := NaiveTarget(choice, settings);
      NaiveUpTo(i + 1, UpdatedSteps(steps, currentState, t.state, intervals[i].timeStart, intervals[i].timeEnd,
                                    t.podsBootingTime, t.loadCapacity, lookups, settings),
                t.state, choices + [choice], intervals, currentLimits, initialState, profiles, settings, lookups)
  {
    var t := NaiveTarget(choice, settings);
    FoldStep(steps, choices, choice, intervals, initialState, settings, lookups);
    RunStep(choices, choice, intervals, currentLimits, initialState, profiles, settings, lookups);
    if "" !in profiles {
      if i > 0 {
        StepsForShape(initialState, NaiveTargets(choices, settings), intervals, lookups, settings);
      }
      EmptyStep(steps, currentState, t.state, intervals[i].timeStart, intervals[i].timeEnd, t.podsBootingTime,
                t.loadCapacity, lookups, settings);
    }
  }

  /** setScalingSteps for one more choice extends the fold by that choice. */
  lemma FoldStep(steps: seq<ScalingStep>, choices: seq<(VMScale, ContainersConfig)>,
                 choice: (VMScale, ContainersConfig), intervals: seq<CriticalInterval>, initialState: State,
                 settings: Settings, lookups: Lookups)
    requires |choices| < |intervals|
    requires steps == StepsFor(initialState, NaiveTargets(choices, settings), intervals, lookups, settings)
    ensures var i, t := |choices|, NaiveTarget(choice, settings);
      UpdatedSteps(steps, StateBefore(initialState, NaiveTargets(choices, settings), i), t.state,
                   intervals[i].timeStart, intervals[i].timeEnd, t.podsBootingTime, t.loadCapacity, lookups, settings)
      == StepsFor(initialState, NaiveTargets(choices + [choice], settings), intervals, lookups, settings)
    ensures NaiveTarget(choice, settings).state
      == StateBefore(initialState, NaiveTargets(choices + [choice], settings), |choices| + 1)
  {
    var targets := NaiveTargets(choices + [choice], settings);
    assert targets[..|choices|] == NaiveTargets(choices, settings);
    StepsForSnoc(initialState, targets, |choices|, intervals, lookups, settings);
  }

  /** Asking for no VMs after no VMs were asked for keeps every later step empty. */
  lemma EmptyStep(steps: seq<ScalingStep>, currentState: State, newState: State, timeStart: int, timeEnd: int,
                  podsBootingTime: real, loadCapacity: real, lookups: Lookups, settings: Settings)
    requires EmptyStaysEmpty(steps)
    requires |steps| > 0 ==> steps[|steps| - 1].desiredState == currentState
    requires currentState.vms == map[] ==> newState.vms == map[]
    ensures EmptyStaysEmpty(UpdatedSteps(steps, currentState, newState, timeStart, timeEnd, podsBootingTime,
                                         loadCapacity, lookups, settings))
  {
    var steps' := UpdatedSteps(steps, currentState, newState, timeStart, timeEnd, podsBootingTime, loadCapacity,
                               lookups, settings);
    StepsUpdatedShape(steps, steps', currentState, newState, timeStart, timeEnd, podsBootingTime, loadCapacity,
                      lookups, settings);
    forall a, b | 0 <= a <= b < |steps'| && steps'[a].desiredState.vms == map[]
      ensures steps'[b].desiredState.vms == map[]
    {
      if b >= |steps| && a < |steps| {
        assert steps[a].desiredState.vms == map[];
      }
    }
  }

  /** One more choice made from the VMs the last one left keeps the run. */
  lemma RunStep(choices: seq<(VMScale, ContainersConfig)>, choice: (VMScale, ContainersConfig),
                intervals: seq<CriticalInterval>, currentLimits: Limit, initialState: State,
                profiles: map<string, VmProfile>, settings: Settings, lookups: Lookups)
    requires PositiveLimits(lookups)
    requires |choices| < |intervals|
    requires NaiveRun(choices, intervals, currentLimits, initialState, profiles, settings, lookups)
    requires NaiveChoice(choice.0, choice.1, intervals[|choices|], currentLimits,
                         VmsBefore(initialState, choices, |choices|), profiles, settings, lookups)
    ensures NaiveRun(choices + [choice], intervals, currentLimits, initialState, profiles, settings, lookups)
  {
    var choices' := choices + [choice];
    forall k | 0 <= k < |choices'|
      ensures ChoiceAt(k, choices', intervals, currentLimits, initialState, profiles, settings, lookups)
    {
      if k < |choices| {
        assert choices'[k] == choices[k];
        assert VmsBefore(initialState, choices', k) == VmsBefore(initialState, choices, k);
        assert ChoiceAt(k, choices, intervals, currentLimits, initialState, profiles, settings, lookups);
      } else {
        assert choices'[k] == choice;
        assert VmsBefore(initialState, choices', k) == VmsBefore(initialState, choices, k);
      }
    }
  }

  /** One turn of CreatePolicies' loop, for interval i. */
  method DeriveInterval(i: nat, steps: seq<ScalingStep>, currentState: State,
                        ghost choices: seq<(VMScale, ContainersConfig)>, currentLimits: Limit,
                        intervals: seq<CriticalInterval>, initialState: State, profiles: map<string, VmProfile>,
                        settings: Settings, lookups: Lookups)
    returns (steps': seq<ScalingStep>, currentState': State, ghost choices': seq<(VMScale, ContainersConfig)>)
    requires PositiveLimits(lookups)
    requires i < |intervals|
    requires NaiveUpTo(i, steps, currentState, choices, intervals, currentLimits, initialState, profiles, settings,
                       lookups)
    ensures NaiveUpTo(i + 1, steps', currentState', choices', intervals, currentLimits, initialState, profiles,
                      settings, lookups)
    ensures choices'[..i] == choices
  {
    var it := intervals[i];
    var vmSet, config := ChooseConfig(it, currentLimits, currentState.vms, profiles, settings, lookups);
    var state := IntervalState(vmSet, config, settings.serviceName);
    steps' := SetScalingSteps(steps, currentState, state, it.timeStart, it.timeEnd,
                              config.bootTimeSec, config.mscPerSecond, lookups, settings);
    NaiveStep(i, steps, currentState, choices, (vmSet, config), intervals, currentLimits, initialState, profiles,
              settings, lookups);
    currentState' := state;
    choices' := choices + [(vmSet, config)];
    assert choices'[..i] == choices;
  }

  /** The parameters a naive policy records. */
  function NaiveParameters(underProvisionAllowed: bool): (p: map<ParameterKey, string>)
    ensures p.Keys == {Method, IsHeterogeneous, IsUnderProvision, IsResizePods}
  {
    map[Method := ScaleMethodHorizontal,
        IsHeterogeneous := FormatBool(false),
        IsUnderProvision := FormatBool(underProvisionAllowed),
        IsResizePods := FormatBool(false)]
  }

  /**
   * The policy CreatePolicies builds from one choice per interval: its
   * steps are setScalingSteps applied to the choices in turn, so they aim
   * at exactly the chosen states; they cover the forecast window, start
   * from the current state, are linked and each ask for the scaled
   * service alone.
   */
  ghost predicate NaivePolicy(policy: Policy, algorithm: string, choices: seq<(VMScale, ContainersConfig)>,
                              intervals: seq<CriticalInterval>, initialState: State, settings: Settings,
                              lookups: Lookups)
    requires 0 < |choices| <= |intervals|
  {
    var steps := policy.scalingActions;
    && steps == StepsFor(initialState, NaiveTargets(choices, settings), intervals, lookups, settings)
    && DesiredStates(steps) == TargetStates(NaiveTargets(choices, settings))
    && policy.algorithm == algorithm
    && policy.status == Discarded
    && policy.parameters == NaiveParameters(settings.underprovisioningAllowed)
    && policy.numberScalingActions == |steps|
    && 1 <= |steps| <= |intervals|
    && policy.timeWindowStart == steps[0].timeStart == intervals[0].timeStart
    && policy.timeWindowEnd == steps[|steps| - 1].timeEnd == intervals[|intervals| - 1].timeEnd
    && steps[0].initialState == initialState
    && Linked(steps)
    && (forall k :: 0 <= k < |steps| ==> steps[k].desiredState.services.Keys == {settings.serviceName})
  }

  /**
   * CreatePolicies: exactly one policy. The ghost choices are the VM set
   * and profile chosen for each interval, each a naive choice from the VMs
   * the previous interval left, and the policy is built from them. Once an
   * interval's VM set comes out empty, all later steps ask for no VMs
   * (when no VM type is named "").
   */
  method CreatePolicies(algorithm: string, intervals: seq<CriticalInterval>, initialState: State,
                        profiles: map<string, VmProfile>, settings: Settings, lookups: Lookups)
    returns (policies: seq<Policy>, ghost choices: seq<(VMScale, ContainersConfig)>)
    requires PositiveLimits(lookups)
    requires |intervals| >= 1
    ensures |choices| == |intervals|
    ensures NaiveRun(choices, intervals, ScaledLimits(initialState, settings), initialState, profiles, settings, lookups)
    ensures |policies| == 1
    ensures NaivePolicy(policies[0], algorithm, choices, intervals, initialState, settings, lookups)
    ensures "" !in profiles ==> EmptyStaysEmpty(policies[0].scalingActions)
  {
    var currentContainerLimits := ScaledLimits(initialState, settings);
    var configurations: seq<ScalingStep> := [];
    var currentState := initialState;
    choices := [];
    var i := 0;
    while i < |intervals|
      invariant NaiveUpTo(i, configurations, currentState, choices, intervals, currentContainerLimits, initialState,
                          profiles, settings, lookups)
      decreases |intervals| - i
    {
      configurations, currentState, choices :=
        DeriveInterval(i, configurations, currentState, choices, currentContainerLimits, intervals, initialState,
                       profiles, settings, lookups);
      i := i + 1;
    }
    var newPolicy := BuildPolicy(algorithm, configurations, choices, intervals, initialState, settings, lookups);
    policies := [newPolicy];
  }

  /** The tail of CreatePolicies: wrap the derived steps into the policy. */
  method BuildPolicy(algorithm: string, configurations: seq<ScalingStep>, ghost choices: seq<(VMScale, ContainersConfig)>,
                     intervals: seq<CriticalInterval>, initialState: State, settings: Settings, lookups: Lookups)
    returns (policy: Policy)
    requires 0 < |choices| == |intervals|
    requires configurations == StepsFor(initialState, NaiveTargets(choices, settings), intervals, lookups, settings)
    ensures NaivePolicy(policy, algorithm, choices, intervals, initialState, settings, lookups)
    ensures policy.scalingActions == configurations
  {
    PolicyShape(configurations, choices, intervals, initialState, settings, lookups);
    var parameters := NaiveParameters(settings.underprovisioningAllowed);
    var numConfigurations := |configurations|;
    policy := Policy(algorithm, configurations, Discarded, parameters, numConfigurations,
                     configurations[0].timeStart, configurations[numConfigurations - 1].timeEnd);
  }
  /** The steps folded from one choice per interval have the policy's shape. */
  lemma PolicyShape(steps: seq<ScalingStep>, choices: seq<(VMScale, ContainersConfig)>,
                    intervals: seq<CriticalInterval>, initialState: State, settings: Settings, lookups: Lookups)
    requires 0 < |choices| == |intervals|
    requires steps == StepsFor(initialState, NaiveTargets(choices, settings), intervals, lookups, settings)
    ensures DesiredStates(steps) == TargetStates(NaiveTargets(choices, settings))
    ensures 1 <= |steps| <= |intervals|
    ensures steps[0].timeStart == intervals[0].timeStart && steps[0].initialState == initialState
    ensures steps[|steps| - 1].timeEnd == intervals[|intervals| - 1].timeEnd
    ensures Linked(steps)
    ensures forall k :: 0 <= k < |steps| ==> steps[k].desiredState.services.Keys == {settings.serviceName}
  {
    var targets := NaiveTargets(choices, settings);
    StepsForShape(initialState, targets, intervals, lookups, settings);
    StepsForTargets(initialState, targets, intervals, lookups, settings);
    forall k | 0 <= k < |steps|
      ensures steps[k].desiredState.services.Keys == {settings.serviceName}
    {
      assert steps[k].desiredState in DesiredStates(steps);
    }
  }
}
