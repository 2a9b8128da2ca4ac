/**
 * The best-base-instance strategy (pkg/derivation/algo_best_base_Instance.go):
 * for every VM type and every container limit that fits it, size each
 * forecast interval with VMs of that one type only, possibly trading some
 * under-provision for a cheaper VM set, and keep the policy when every
 * interval could be sized.
 */
module BestBase {
  import opened VmScale
  import opened Derivation

  const NoSuitableVMSet: string := "No suitable VM set found"

  /**
   * FindSuitableVMs: ceil(n / capacity) VMs of the given type when one VM
   * of it hosts at least one replica; otherwise an empty set and an error.
   */
  function FindSuitableVMs(numberReplicas: int, limit: Limit, vmType: string, profiles: map<string, VmProfile>,
                           settings: Settings): (r: WithError<VMScale>)
    requires limit.cpuCores > 0.0 && limit.memoryGB > 0.0
    ensures var capacity := MaxReplicasCapacityInVM(ProfileOf(profiles, vmType), limit, settings);
      && (capacity > 0 ==>
            && r.err.None?
            && r.value.Keys == {vmType}
            && capacity * (r.value[vmType] - 1) < numberReplicas <= capacity * r.value[vmType])
      && (capacity <= 0 ==> r == WithError(map[], Some(NoSuitableVMSet)))
  {
    var profile := ProfileOf(profiles, vmType);
    var maxReplicas := MaxReplicasCapacityInVM(profile, limit, settings);
    if maxReplicas > 0 then
      var numVMs := CeilDiv(numberReplicas, maxReplicas);
      WithError(map[vmType := numVMs], None)
    else
      WithError(map[], Some(NoSuitableVMSet))
  }

  /** The over-provisioning profile for an interval can be hosted by the VM type. */
  predicate OverSized(it: CriticalInterval, containerLimits: Limit, vmType: string, profiles: map<string, VmProfile>,
                      settings: Settings, lookups: Lookups)
    requires PositiveLimits(lookups)
  {
    var over := lookups.selectProfileByLimits(it.requests, containerLimits, false);
    FindSuitableVMs(over.replicas, over.limits, vmType, profiles, settings).err.None?
  }

  /** Every interval of the forecast can be sized with the VM type. */
  predicate SizesEveryInterval(intervals: seq<CriticalInterval>, containerLimits: Limit, vmType: string,
                               profiles: map<string, VmProfile>, settings: Settings, lookups: Lookups)
    requires PositiveLimits(lookups)
  {
    forall i :: 0 <= i < |intervals| ==> OverSized(intervals[i], containerLimits, vmType, profiles, settings, lookups)
  }

  // ---------------------------------------------------------------------
  // One interval
  // ---------------------------------------------------------------------

  /**
   * optionWithUnderProvision: the under-provisioning profile for the load,
   * with the VM set of the type that hosts it and that set's cost.
   */
  method OptionWithUnderProvision(totalLoad: real, containerLimits: Limit, vmType: string,
                                  profiles: map<string, VmProfile>, settings: Settings, lookups: Lookups)
    returns (config: ContainersConfig)
    requires PositiveLimits(lookups)
    ensures var under := lookups.selectProfileByLimits(totalLoad, containerLimits, true);
      && config.vmSet == FindSuitableVMs(under.replicas, under.limits, vmType, profiles, settings).value
      && config.cost == Cost(config.vmSet, profiles)
      && config == under.(vmSet := config.vmSet, cost := config.cost)
  {
    config := lookups.selectProfileByLimits(totalLoad, containerLimits, true);
    var vmSetUnder := FindSuitableVMs(config.replicas, config.limits, vmType, profiles, settings).value;
    var costVMSetUnderProvision := MeasureOf(vmSetUnder, profiles, Price);
    config := config.(vmSet := vmSetUnder, cost := costVMSetUnderProvision);
  }

  /**
   * The VM set and profile chosen for one interval: the over-provisioning
   * profile, unless under-provision is allowed and its option costs
   * something, costs strictly less and stays in the allowed range.
   */
  ghost function IntervalChoice(it: CriticalInterval, containerLimits: Limit, vmType: string,
                                underProvisionAllowed: bool, percentageUnderProvision: real,
                                profiles: map<string, VmProfile>, settings: Settings, lookups: Lookups)
    : (c: (VMScale, ContainersConfig))
    requires PositiveLimits(lookups)
    ensures var over := lookups.selectProfileByLimits(it.requests, containerLimits, false);
      var overSet := FindSuitableVMs(over.replicas, over.limits, vmType, profiles, settings).value;
      var under := lookups.selectProfileByLimits(it.requests, containerLimits, true);
      var underSet := FindSuitableVMs(under.replicas, under.limits, vmType, profiles, settings).value;
      && Cost(c.0, profiles) <= Cost(overSet, profiles)
      && (c == (overSet, over)
          || (&& underProvisionAllowed
              && c == (underSet, under.(vmSet := underSet, cost := Cost(underSet, profiles)))
              && 0.0 < Cost(underSet, profiles) < Cost(overSet, profiles)
              && IsUnderProvisionInRange(it.requests, under.mscPerSecond, percentageUnderProvision)))
  {
    var over := lookups.selectProfileByLimits(it.requests, containerLimits, false);
    var overSet := FindSuitableVMs(over.replicas, over.limits, vmType, profiles, settings).value;
    var under := lookups.selectProfileByLimits(it.requests, containerLimits, true);
    var underSet := FindSuitableVMs(under.replicas, under.limits, vmType, profiles, settings).value;
    var underOption := under.(vmSet := underSet, cost := Cost(underSet, profiles));
    if underProvisionAllowed && underOption.cost > 0.0 && underOption.cost < Cost(overSet, profiles)
       && IsUnderProvisionInRange(it.requests, underOption.mscPerSecond, percentageUnderProvision)
    then (underOption.vmSet, underOption)
    else (overSet, over)
  }

  /** The body of deriveCandidatePolicy's loop up to the new state. */
  method ChooseConfig(it: CriticalInterval, containerLimits: Limit, vmType: string,
                      underProvisionAllowed: bool, percentageUnderProvision: real,
                      profiles: map<string, VmProfile>, settings: Settings, lookups: Lookups)
    returns (sized: bool, vmSet: VMScale, config: ContainersConfig)
    requires PositiveLimits(lookups)
    ensures sized <==> OverSized(it, containerLimits, vmType, profiles, settings, lookups)
    ensures (vmSet, config) == IntervalChoice(it, containerLimits, vmType, underProvisionAllowed,
                                              percentageUnderProvision, profiles, settings, lookups)
  {
    config := lookups.selectProfileByLimits(it.requests, containerLimits, false);
    var found := FindSuitableVMs(config.replicas, config.limits, vmType, profiles, settings);
    sized := found.err.None?;
    vmSet := found.value;
    var costVMSetOverProvision := MeasureOf(vmSet, profiles, Price);
    if underProvisionAllowed {
      var containerConfigUnder := OptionWithUnderProvision(it.requests, containerLimits, vmType, profiles, settings, lookups);
      if containerConfigUnder.cost > 0.0 && containerConfigUnder.cost < costVMSetOverProvision
         && IsUnderProvisionInRange(it.requests, containerConfigUnder.mscPerSecond, percentageUnderProvision) {
        vmSet := containerConfigUnder.vmSet;
        config := containerConfigUnder;
      }
    }
  }

  // ---------------------------------------------------------------------
  // deriveCandidatePolicy
  // ---------------------------------------------------------------------

  /** The parameters a best-base policy records. */
  function BestBaseParameters(underProvisionAllowed: bool, containerResizeEnabled: bool): (p: map<ParameterKey, string>)
    ensures p.Keys == {Method, IsHeterogeneous, IsUnderProvision, IsResizePods}
  {
    map[Method := ScaleMethodHorizontal,
        IsHeterogeneous := FormatBool(false),
        IsUnderProvision := FormatBool(underProvisionAllowed),
        IsResizePods := FormatBool(containerResizeEnabled)]
  }

  /** What an interval asks setScalingSteps for: its choice's state, boot time and throughput. */
  ghost function IntervalTarget(it: CriticalInterval, containerLimits: Limit, vmType: string,
                                underProvisionAllowed: bool, percentageUnderProvision: real,
                                profiles: map<string, VmProfile>, settings: Settings, lookups: Lookups): (t: Target)
    requires PositiveLimits(lookups)
    ensures t.state.services.Keys == {settings.mainServiceName}
  {
    var c := IntervalChoice(it, containerLimits, vmType, underProvisionAllowed, percentageUnderProvision,
                            profiles, settings, lookups);
    Target(IntervalState(c.0, c.1, settings.mainServiceName), c.1.bootTimeSec, c.1.mscPerSecond)
  }

  /** The targets of all the intervals, in order. */
  ghost function BestBaseTargets(intervals: seq<CriticalInterval>, containerLimits: Limit, vmType: string,
                                 underProvisionAllowed: bool, percentageUnderProvision: real,
                                 profiles: map<string, VmProfile>, settings: Settings, lookups: Lookups)
    : (ts: seq<Target>)
    requires PositiveLimits(lookups)
    ensures |ts| == |intervals|
  {
    seq(|intervals|, k requires 0 <= k < |intervals| =>
      IntervalTarget(intervals[k], containerLimits, vmType, underProvisionAllowed, percentageUnderProvision,
                     profiles, settings, lookups))
  }

  /**
   * The policy a suitable derivation fills in: its steps are setScalingSteps
   * applied to every interval's choice in turn, so they aim at exactly the
   * intervals' chosen states; they cover the forecast window from the
   * first interval's start to the last interval's end, start from the
   * current state, are linked, each ask for the main service alone, and
   * the last asks for the last interval's choice.
   */
  ghost predicate FilledPolicy(policy: Policy, algorithm: string, intervals: seq<CriticalInterval>,
                               containerResizeEnabled: bool, containerLimits: Limit, vmType: string,
                               underProvisionAllowed: bool, percentageUnderProvision: real, initialState: State,
                               profiles: map<string, VmProfile>, settings: Settings, lookups: Lookups)
    requires PositiveLimits(lookups)
    requires |intervals| > 0
  {
    var steps := policy.scalingActions;
    var targets := BestBaseTargets(intervals, containerLimits, vmType, underProvisionAllowed,
                                   percentageUnderProvision, profiles, settings, lookups);
    && policy.algorithm == algorithm
    && policy.status == Discarded
    && policy.parameters == BestBaseParameters(underProvisionAllowed, containerResizeEnabled)
    && steps == StepsFor(initialState, targets, intervals, lookups, settings)
    && DesiredStates(steps) == TargetStates(targets)
    && policy.numberScalingActions == |steps|
    && 1 <= |steps| <= |intervals|
    && policy.timeWindowStart == steps[0].timeStart == intervals[0].timeStart
    && policy.timeWindowEnd == steps[|steps| - 1].timeEnd == intervals[|intervals| - 1].timeEnd
    && steps[0].initialState == initialState
    && Linked(steps)
    && (forall k :: 0 <= k < |steps| ==> steps[k].desiredState.services.Keys == {settings.mainServiceName})
    && steps[|steps| - 1].desiredState == targets[|intervals| - 1].state
  }

  /**
   * What deriveCandidatePolicy's loop knows after i intervals: the VM type
   * is still suitable exactly when each of them could be sized; the steps
   * are setScalingSteps applied to the first i intervals' choices; and the
   * state carried to the next interval is the last one asked for.
   */
  ghost predicate DerivedUpTo(i: nat, vmTypeSuitable: bool, steps: seq<ScalingStep>, currentState: State,
                              intervals: seq<CriticalInterval>, containerLimits: Limit, vmType: string,
                              underProvisionAllowed: bool, percentageUnderProvision: real, initialState: State,
                              profiles: map<string, VmProfile>, settings: Settings, lookups: Lookups)
    requires PositiveLimits(lookups)
  {
    && SuitableUpTo(i, vmTypeSuitable, intervals, containerLimits, vmType, profiles, settings, lookups)
    && StepsUpTo(i, steps, currentState, intervals, containerLimits, vmType, underProvisionAllowed,
                 percentageUnderProvision, initialState, profiles, settings, lookups)
  }

  /** The VM type is suitable for the first i intervals exactly when each could be sized. */
  ghost predicate SuitableUpTo(i: nat, vmTypeSuitable: bool, intervals: seq<CriticalInterval>, containerLimits: Limit,
                               vmType: string, profiles: map<string, VmProfile>, settings: Settings, lookups: Lookups)
    requires PositiveLimits(lookups)
  {
    && i <= |intervals|
    && (vmTypeSuitable <==>
          forall j :: 0 <= j < i ==> OverSized(intervals[j], containerLimits, vmType, profiles, settings, lookups))
  }

  /** The steps and the current state after the first i intervals' choices. */
  ghost predicate StepsUpTo(i: nat, steps: seq<ScalingStep>, currentState: State,
                            intervals: seq<CriticalInterval>, containerLimits: Limit, vmType: string,
                            underProvisionAllowed: bool, percentageUnderProvision: real, initialState: State,
                            profiles: map<string, VmProfile>, settings: Settings, lookups: Lookups)
    requires PositiveLimits(lookups)
  {
    var targets := BestBaseTargets(intervals, containerLimits, vmType, underProvisionAllowed,
                                   percentageUnderProvision, profiles, settings, lookups);
    && i <= |intervals|
    && steps == StepsFor(initialState, targets[..i], intervals, lookups, settings)
    && currentState == StateBefore(initialState, targets, i)
  }

  /** One turn of deriveCandidatePolicy's loop, for interval i. */
  method DeriveInterval(i: nat, vmTypeSuitable: bool, steps: seq<ScalingStep>, currentState: State,
                        intervals: seq<CriticalInterval>, containerLimits: Limit, vmType: string,
                        underProvisionAllowed: bool, percentageUnderProvision: real, initialState: State,
                        profiles: map<string, VmProfile>, settings: Settings, lookups: Lookups)
    returns (vmTypeSuitable': bool, steps': seq<ScalingStep>, currentState': State)
    requires PositiveLimits(lookups)
    requires i < |intervals|
    requires DerivedUpTo(i, vmTypeSuitable, steps, currentState, intervals, containerLimits, vmType,
                         underProvisionAllowed, percentageUnderProvision, initialState, profiles, settings, lookups)
    ensures DerivedUpTo(i + 1, vmTypeSuitable', steps', currentState', intervals, containerLimits, vmType,
                        underProvisionAllowed, percentageUnderProvision, initialState, profiles, settings, lookups)
  {
    var it := intervals[i];
    var sized, vmSet, config := ChooseConfig(it, containerLimits, vmType, underProvisionAllowed,
                                             percentageUnderProvision, profiles, settings, lookups);
    vmTypeSuitable' := vmTypeSuitable && sized;
    var state := IntervalState(vmSet, config, settings.mainServiceName);
    steps' := SetScalingSteps(steps, currentState, state, it.timeStart, it.timeEnd,
                              config.bootTimeSec, config.mscPerSecond, lookups, settings);
    currentState' := state;
    DerivedStep(i, vmTypeSuitable, steps, currentState, sized, Target(state, config.bootTimeSec, config.mscPerSecond),
                intervals, containerLimits, vmType, underProvisionAllowed, percentageUnderProvision, initialState,
                profiles, settings, lookups);
  }

  /** Interval i's sizing and target extend what the loop knows to i + 1 intervals. */
  lemma DerivedStep(i: nat, vmTypeSuitable: bool, steps: seq<ScalingStep>, currentState: State, sized: bool,
                    target: Target, intervals: seq<CriticalInterval>, containerLimits: Limit, vmType: string,
                    underProvisionAllowed: bool, percentageUnderProvision: real, initialState: State,
                    profiles: map<string, VmProfile>, settings: Settings, lookups: Lookups)
    requires PositiveLimits(lookups)
    requires i < |intervals|
    requires DerivedUpTo(i, vmTypeSuitable, steps, currentState, intervals, containerLimits, vmType,
                         underProvisionAllowed, percentageUnderProvision, initialState, profiles, settings, lookups)
    requires sized <==> OverSized(intervals[i], containerLimits, vmType, profiles, settings, lookups)
    requires target == IntervalTarget(intervals[i], containerLimits, vmType, underProvisionAllowed,
                                      percentageUnderProvision, profiles, settings, lookups)
    ensures DerivedUpTo(i + 1, vmTypeSuitable && sized,
                        UpdatedSteps(steps, currentState, target.state, intervals[i].timeStart, intervals[i].timeEnd,
                                     target.podsBootingTime, target.loadCapacity, lookups, settings),
                        target.state, intervals, containerLimits, vmType,
                        underProvisionAllowed, percentageUnderProvision, initialState, profiles, settings, lookups)
  {
    StepsStep(i, steps, currentState, target, intervals, containerLimits, vmType, underProvisionAllowed,
              percentageUnderProvision, initialState, profiles, settings, lookups);
  }

  /** The fold over i + 1 intervals is the fold over i updated with interval i's target. */
  lemma StepsStep(i: nat, steps: seq<ScalingStep>, currentState: State, target: Target,
                  intervals: seq<CriticalInterval>, containerLimits: Limit, vmType: string,
                  underProvisionAllowed: bool, percentageUnderProvision: real, initialState: State,
                  profiles: map<string, VmProfile>, settings: Settings, lookups: Lookups)
    requires PositiveLimits(lookups)
    requires i < |intervals|
    requires StepsUpTo(i, steps, currentState, intervals, containerLimits, vmType, underProvisionAllowed,
                       percentageUnderProvision, initialState, profiles, settings, lookups)
    requires target == IntervalTarget(intervals[i], containerLimits, vmType, underProvisionAllowed,
                                      percentageUnderProvision, profiles, settings, lookups)
    ensures StepsUpTo(i + 1, UpdatedSteps(steps, currentState, target.state, intervals[i].timeStart,
                                          intervals[i].timeEnd, target.podsBootingTime, target.loadCapacity,
                                          lookups, settings),
                      target.state, intervals, containerLimits, vmType, underProvisionAllowed,
                      percentageUnderProvision, initialState, profiles, settings, lookups)
  {
    var targets := BestBaseTargets(intervals, containerLimits, vmType, underProvisionAllowed,
                                   percentageUnderProvision, profiles, settings, lookups);
    assert targets[i] == target;
    StepsForSnoc(initialState, targets, i, intervals, lookups, settings);
  }

  /**
   * deriveCandidatePolicy: one step per change of state over the
   * intervals. The VM type is suitable exactly when every interval's
   * over-provisioning profile can be hosted by it (one failure makes it
   * unsuitable for good); the policy is filled in only then, and only when
   * there is at least one interval.
   */
  method DeriveCandidatePolicy(algorithm: string, intervals: seq<CriticalInterval>, containerResizeEnabled: bool,
                               containerLimits: Limit, vmType: string, underProvisionAllowed: bool,
                               percentageUnderProvision: real, initialState: State,
                               profiles: map<string, VmProfile>, settings: Settings, lookups: Lookups)
    returns (vmTypeSuitable: bool, policy: Policy)
    requires PositiveLimits(lookups)
    ensures vmTypeSuitable <==> SizesEveryInterval(intervals, containerLimits, vmType, profiles, settings, lookups)
    ensures !vmTypeSuitable || |intervals| == 0 ==> policy == EmptyPolicy
    ensures vmTypeSuitable && |intervals| > 0 ==>
      FilledPolicy(policy, algorithm, intervals, containerResizeEnabled, containerLimits, vmType,
                   underProvisionAllowed, percentageUnderProvision, initialState, profiles, settings, lookups)
  {
    vmTypeSuitable := true;
    var scalingSteps: seq<ScalingStep> := [];
    var currentState := initialState;
    var i := 0;
    while i < |intervals|
      invariant DerivedUpTo(i, vmTypeSuitable, scalingSteps, currentState, intervals, containerLimits, vmType,
                            underProvisionAllowed, percentageUnderProvision, initialState, profiles, settings, lookups)
      decreases |intervals| - i
    {
      vmTypeSuitable, scalingSteps, currentState :=
        DeriveInterval(i, vmTypeSuitable, scalingSteps, currentState, intervals, containerLimits, vmType,
                       underProvisionAllowed, percentageUnderProvision, initialState, profiles, settings, lookups);
      i := i + 1;
    }
    if vmTypeSuitable && |scalingSteps| > 0 {
      policy := FillPolicy(algorithm, scalingSteps, currentState, intervals, containerResizeEnabled, containerLimits,
                           vmType, underProvisionAllowed, percentageUnderProvision, initialState, profiles, settings,
                           lookups);
    } else {
      if |intervals| > 0 {
        StepsForShape(initialState, BestBaseTargets(intervals, containerLimits, vmType, underProvisionAllowed,
                                                    percentageUnderProvision, profiles, settings, lookups)[..i],
                      intervals, lookups, settings);
      }
      policy := EmptyPolicy;
    }
  }

  /** The policy deriveCandidatePolicy returns once every interval has its steps. */
  method FillPolicy(algorithm: string, scalingSteps: seq<ScalingStep>, currentState: State,
                    intervals: seq<CriticalInterval>, containerResizeEnabled: bool, containerLimits: Limit,
                    vmType: string, underProvisionAllowed: bool, percentageUnderProvision: real,
                    initialState: State, profiles: map<string, VmProfile>, settings: Settings, lookups: Lookups)
    returns (policy: Policy)
    requires PositiveLimits(lookups)
    requires |intervals| > 0
    requires DerivedUpTo(|intervals|, true, scalingSteps, currentState, intervals, containerLimits, vmType,
                         underProvisionAllowed, percentageUnderProvision, initialState, profiles, settings, lookups)
    ensures FilledPolicy(policy, algorithm, intervals, containerResizeEnabled, containerLimits, vmType,
                         underProvisionAllowed, percentageUnderProvision, initialState, profiles, settings, lookups)
  {
    ghost var targets := BestBaseTargets(intervals, containerLimits, vmType, underProvisionAllowed,
                                         percentageUnderProvision, profiles, settings, lookups);
    assert targets[..|intervals|] == targets;
    StepsForShape(initialState, targets, intervals, lookups, settings);
    StepsForTargets(initialState, targets, intervals, lookups, settings);
    forall k | 0 <= k < |scalingSteps|
      ensures scalingSteps[k].desiredState.services.Keys == {settings.mainServiceName}
    {
      assert scalingSteps[k].desiredState in DesiredStates(scalingSteps);
    }
    var numScalingSteps := |scalingSteps|;
    var parameters := BestBaseParameters(underProvisionAllowed, containerResizeEnabled);
    policy := Policy(algorithm, scalingSteps, Discarded, parameters, numScalingSteps,
                     scalingSteps[0].timeStart, scalingSteps[numScalingSteps - 1].timeEnd);
  }

  // ---------------------------------------------------------------------
  // CreatePolicies
  // ---------------------------------------------------------------------

  /** How many of the container limits make the VM type suitable. */
  function CountSuitable(limits: seq<Limit>, intervals: seq<CriticalInterval>, vmType: string,
                         profiles: map<string, VmProfile>, settings: Settings, lookups: Lookups): (c: nat)
    requires PositiveLimits(lookups)
    ensures c <= |limits|
  {
    if limits == [] then 0
    else
      CountSuitable(limits[..|limits| - 1], intervals, vmType, profiles, settings, lookups)
      + (if SizesEveryInterval(intervals, limits[|limits| - 1], vmType, profiles, settings, lookups) then 1 else 0)
  }

  /** The suitable (VM type, container limit) pairs over the given VM types. */
  ghost function SuitablePairs(keys: set<string>, intervals: seq<CriticalInterval>,
                               profiles: map<string, VmProfile>, settings: Settings, lookups: Lookups): nat
    requires PositiveLimits(lookups)
    requires keys <= profiles.Keys
    decreases keys
  {
    if keys == {} then 0
    else
      var k := PickKey(keys);
      var vm := profiles[k];
      CountSuitable(lookups.limitsUnder(vm.cpuCores, vm.memory), intervals, k, profiles, settings, lookups)
      + SuitablePairs(keys - {k}, intervals, profiles, settings, lookups)
  }

  /** The count may start from any VM type. */
  lemma {:induction false} SuitablePairsRemove(keys: set<string>, intervals: seq<CriticalInterval>,
                                               profiles: map<string, VmProfile>, settings: Settings,
                                               lookups: Lookups, k: string)
    requires PositiveLimits(lookups)
    requires keys <= profiles.Keys && k in keys
    ensures SuitablePairs(keys, intervals, profiles, settings, lookups)
         == CountSuitable(lookups.limitsUnder(profiles[k].cpuCores, profiles[k].memory), intervals, k,
                          profiles, settings, lookups)
          + SuitablePairs(keys - {k}, intervals, profiles, settings, lookups)
    decreases keys
  {
    var j := PickKey(keys);
    if j != k {
      SuitablePairsRemove(keys - {j}, intervals, profiles, settings, lookups, k);
      SuitablePairsRemove(keys - {k}, intervals, profiles, settings, lookups, j);
      assert keys - {j} - {k} == keys - {k} - {j};
    }
  }

  /** The container limits that fit a VM type (FindAllUnderLimits). */
  function LimitsOf(vmType: string, profiles: map<string, VmProfile>, lookups: Lookups): seq<Limit>
    requires vmType in profiles
  {
    lookups.limitsUnder(profiles[vmType].cpuCores, profiles[vmType].memory)
  }

  /**
   * The policy deriveCandidatePolicy builds for the VM type and the
   * container limit with the strategy's settings: the zero policy when
   * there is no interval, the filled-in policy otherwise.
   */
  ghost predicate CandidatePolicy(policy: Policy, algorithm: string, intervals: seq<CriticalInterval>, li: Limit,
                                  vmType: string, initialState: State, profiles: map<string, VmProfile>,
                                  settings: Settings, lookups: Lookups)
    requires PositiveLimits(lookups)
  {
    if |intervals| == 0 then policy == EmptyPolicy
    else FilledPolicy(policy, algorithm, intervals, settings.podsResizeAllowed, li, vmType,
                      settings.underprovisioningAllowed, settings.maxUnderprovisionPercentage, initialState,
                      profiles, settings, lookups)
  }

  /** A VM type and the index of a container limit that fits it, whose derivation is suitable. */
  ghost predicate SuitablePair(pair: (string, nat), intervals: seq<CriticalInterval>, profiles: map<string, VmProfile>,
                               settings: Settings, lookups: Lookups)
    requires PositiveLimits(lookups)
  {
    && pair.0 in profiles
    && pair.1 < |LimitsOf(pair.0, profiles, lookups)|
    && SizesEveryInterval(intervals, LimitsOf(pair.0, profiles, lookups)[pair.1], pair.0, profiles, settings, lookups)
  }

  /** Policy k is the candidate policy of pair k. */
  ghost predicate PoliciesOfPairs(policies: seq<Policy>, pairs: seq<(string, nat)>, algorithm: string,
                                  intervals: seq<CriticalInterval>, initialState: State,
                                  profiles: map<string, VmProfile>, settings: Settings, lookups: Lookups)
    requires PositiveLimits(lookups)
  {
    && |policies| == |pairs|
    && forall k :: 0 <= k < |pairs| ==>
         && pairs[k].0 in profiles
         && pairs[k].1 < |LimitsOf(pairs[k].0, profiles, lookups)|
         && CandidatePolicy(policies[k], algorithm, intervals, LimitsOf(pairs[k].0, profiles, lookups)[pairs[k].1],
                            pairs[k].0, initialState, profiles, settings, lookups)
  }

  /** No pair occurs twice. */
  predicate Distinct<T(==)>(xs: seq<T>) {
    forall a, b :: 0 <= a < b < |xs| ==> xs[a] != xs[b]
  }

  /**
   * CreatePolicies' inner loop: the policies for one VM type, over the
   * limits that fit it, in order. The policies before are kept, and each
   * new one is the candidate policy of the VM type and one suitable limit,
   * every suitable limit once.
   */
  method PoliciesForType(policies: seq<Policy>, ghost pairs: seq<(string, nat)>, algorithm: string,
                         intervals: seq<CriticalInterval>, vmType: string, initialState: State,
                         profiles: map<string, VmProfile>, settings: Settings, lookups: Lookups)
    returns (policies': seq<Policy>, ghost pairs': seq<(string, nat)>)
    requires PositiveLimits(lookups)
    requires vmType in profiles
    requires PoliciesOfPairs(policies, pairs, algorithm, intervals, initialState, profiles, settings, lookups)
    ensures PoliciesOfPairs(policies', pairs', algorithm, intervals, initialState, profiles, settings, lookups)
    ensures |pairs| <= |pairs'| && pairs'[..|pairs|] == pairs && policies'[..|policies|] == policies
    ensures forall p: (string, nat) :: p in pairs'[|pairs|..] <==>
      p.0 == vmType && SuitablePair(p, intervals, profiles, settings, lookups)
    ensures Distinct(pairs'[|pairs|..])
    ensures |policies'| == |policies| + CountSuitable(LimitsOf(vmType, profiles, lookups), intervals, vmType,
                                                      profiles, settings, lookups)
  {
    var allLimits := LimitsOf(vmType, profiles, lookups);
    policies' := policies;
    pairs' := pairs;
    var j := 0;
    while j < |allLimits|
      invariant TypeUpTo(j, policies, pairs, policies', pairs', algorithm, intervals, vmType, initialState,
                         profiles, settings, lookups)
    {
      policies', pairs' := LimitStep(j, policies, pairs, policies', pairs', algorithm, intervals, vmType,
                                     initialState, profiles, settings, lookups);
      j := j + 1;
    }
    assert allLimits[..j] == allLimits;
    ghost var added := pairs'[|pairs|..];
    forall a, b | 0 <= a < b < |added| ensures added[a] != added[b] {
      assert added[a] == pairs'[|pairs| + a] && added[b] == pairs'[|pairs| + b];
    }
  }

  /**
   * What CreatePolicies' inner loop knows after the first j limits of the
   * VM type: the policies and pairs before are kept, the pairs added are
   * the suitable ones among those limits, by increasing index, and each
   * added policy is its pair's candidate policy.
   */
  ghost predicate TypeUpTo(j: nat, policies: seq<Policy>, pairs: seq<(string, nat)>, policies': seq<Policy>,
                           pairs': seq<(string, nat)>, algorithm: string, intervals: seq<CriticalInterval>,
                           vmType: string, initialState: State, profiles: map<string, VmProfile>,
                           settings: Settings, lookups: Lookups)
    requires PositiveLimits(lookups)
    requires vmType in profiles
  {
    && PoliciesOfPairs(policies', pairs', algorithm, intervals, initialState, profiles, settings, lookups)
    && PairsUpTo(j, pairs, pairs', intervals, vmType, profiles, settings, lookups)
    && |policies| == |pairs|
    && policies'[..|policies|] == policies
  }

  /**
   * The pairs after the first j limits of the VM type: those before are
   * kept, and those added are the suitable ones among the j limits, by
   * increasing index, as many as CountSuitable says.
   */
  ghost predicate PairsUpTo(j: nat, pairs: seq<(string, nat)>, pairs': seq<(string, nat)>,
                            intervals: seq<CriticalInterval>, vmType: string, profiles: map<string, VmProfile>,
                            settings: Settings, lookups: Lookups)
    requires PositiveLimits(lookups)
    requires vmType in profiles
  {
    var allLimits := LimitsOf(vmType, profiles, lookups);
    && j <= |allLimits|
    && |pairs| <= |pairs'| && pairs'[..|pairs|] == pairs
    && (forall p: (string, nat) :: p in pairs'[|pairs|..] <==>
          p.0 == vmType && p.1 < j && SuitablePair(p, intervals, profiles, settings, lookups))
    && (forall a, b :: |pairs| <= a < b < |pairs'| ==> pairs'[a].1 < pairs'[b].1)
    && |pairs'| == |pairs| + CountSuitable(allLimits[..j], intervals, vmType, profiles, settings, lookups)
  }

  /** Limit j adds its pair exactly when the VM type is suitable for it. */
  lemma PairsStep(j: nat, pairs: seq<(string, nat)>, pairs': seq<(string, nat)>, pairs'': seq<(string, nat)>,
                  intervals: seq<CriticalInterval>, vmType: string, profiles: map<string, VmProfile>,
                  settings: Settings, lookups: Lookups)
    requires PositiveLimits(lookups)
    requires vmType in profiles && j < |LimitsOf(vmType, profiles, lookups)|
    requires PairsUpTo(j, pairs, pairs', intervals, vmType, profiles, settings, lookups)
    requires pairs'' == if SizesEveryInterval(intervals, LimitsOf(vmType, profiles, lookups)[j], vmType, profiles,
                                              settings, lookups)
                        then pairs' + [(vmType, j)] else pairs'
    ensures PairsUpTo(j + 1, pairs, pairs'', intervals, vmType, profiles, settings, lookups)
  {
    if SizesEveryInterval(intervals, LimitsOf(vmType, profiles, lookups)[j], vmType, profiles, settings, lookups) {
      PairsAdd(j, pairs, pairs', intervals, vmType, profiles, settings, lookups);
    } else {
      PairsKeep(j, pairs, pairs', intervals, vmType, profiles, settings, lookups);
    }
  }

  /** PairsStep when the VM type is suitable for limit j. */
  lemma PairsAdd(j: nat, pairs: seq<(string, nat)>, pairs': seq<(string, nat)>,
                 intervals: seq<CriticalInterval>, vmType: string, profiles: map<string, VmProfile>,
                 settings: Settings, lookups: Lookups)
    requires PositiveLimits(lookups)
    requires vmType in profiles && j < |LimitsOf(vmType, profiles, lookups)|
    requires PairsUpTo(j, pairs, pairs', intervals, vmType, profiles, settings, lookups)
    requires SizesEveryInterval(intervals, LimitsOf(vmType, profiles, lookups)[j], vmType, profiles, settings, lookups)
    ensures PairsUpTo(j + 1, pairs, pairs' + [(vmType, j)], intervals, vmType, profiles, settings, lookups)
  {
    var allLimits := LimitsOf(vmType, profiles, lookups);
    assert allLimits[..j + 1][..j] == allLimits[..j];
    var pairs'' := pairs' + [(vmType, j)];
    var added, added' := pairs'[|pairs|..], pairs''[|pairs|..];
    assert added' == added + [(vmType, j)];
    assert pairs''[..|pairs|] == pairs;
    forall p: (string, nat)
      ensures p in added' <==> p.0 == vmType && p.1 < j + 1 && SuitablePair(p, intervals, profiles, settings, lookups)
    {
      assert p in added' <==> p in added || p == (vmType, j);
    }
  }

  /** PairsStep when the VM type is not suitable for limit j. */
  lemma PairsKeep(j: nat, pairs: seq<(string, nat)>, pairs': seq<(string, nat)>,
                  intervals: seq<CriticalInterval>, vmType: string, profiles: map<string, VmProfile>,
                  settings: Settings, lookups: Lookups)
    requires PositiveLimits(lookups)
    requires vmType in profiles && j < |LimitsOf(vmType, profiles, lookups)|
    requires PairsUpTo(j, pairs, pairs', intervals, vmType, profiles, settings, lookups)
    requires !SizesEveryInterval(intervals, LimitsOf(vmType, profiles, lookups)[j], vmType, profiles, settings, lookups)
    ensures PairsUpTo(j + 1, pairs, pairs', intervals, vmType, profiles, settings, lookups)
  {
    var allLimits := LimitsOf(vmType, profiles, lookups);
    assert allLimits[..j + 1][..j] == allLimits[..j];
  }

  /** One turn of CreatePolicies' inner loop, for the VM type's limit j. */
  method LimitStep(j: nat, policies: seq<Policy>, ghost pairs: seq<(string, nat)>, policies': seq<Policy>,
                   ghost pairs': seq<(string, nat)>, algorithm: string, intervals: seq<CriticalInterval>,
                   vmType: string, initialState: State, profiles: map<string, VmProfile>,
                   settings: Settings, lookups: Lookups)
    returns (policies'': seq<Policy>, ghost pairs'': seq<(string, nat)>)
    requires PositiveLimits(lookups)
    requires vmType in profiles && j < |LimitsOf(vmType, profiles, lookups)|
    requires TypeUpTo(j, policies, pairs, policies', pairs', algorithm, intervals, vmType, initialState,
                      profiles, settings, lookups)
    ensures TypeUpTo(j + 1, policies, pairs, policies'', pairs'', algorithm, intervals, vmType, initialState,
                     profiles, settings, lookups)
  {
    var allLimits := LimitsOf(vmType, profiles, lookups);
    policies'' := PolicyForLimit(policies', algorithm, intervals, allLimits[j], vmType, initialState,
                                 profiles, settings, lookups);
    pairs'' := pairs';
    if SizesEveryInterval(intervals, allLimits[j], vmType, profiles, settings, lookups) {
      pairs'' := pairs' + [(vmType, j)];
      PoliciesOfPairsSnoc(policies', pairs', policies''[|policies'|], (vmType, j), algorithm, intervals,
                          initialState, profiles, settings, lookups);
      assert policies''[..|policies|] == policies'[..|policies|];
    }
    PairsStep(j, pairs, pairs', pairs'', intervals, vmType, profiles, settings, lookups);
  }

  /** One more policy that is its pair's candidate policy keeps the correspondence. */
  lemma PoliciesOfPairsSnoc(policies: seq<Policy>, pairs: seq<(string, nat)>, policy: Policy, pair: (string, nat),
                            algorithm: string, intervals: seq<CriticalInterval>, initialState: State,
                            profiles: map<string, VmProfile>, settings: Settings, lookups: Lookups)
    requires PositiveLimits(lookups)
    requires PoliciesOfPairs(policies, pairs, algorithm, intervals, initialState, profiles, settings, lookups)
    requires pair.0 in profiles && pair.1 < |LimitsOf(pair.0, profiles, lookups)|
    requires CandidatePolicy(policy, algorithm, intervals, LimitsOf(pair.0, profiles, lookups)[pair.1], pair.0,
                             initialState, profiles, settings, lookups)
    ensures PoliciesOfPairs(policies + [policy], pairs + [pair], algorithm, intervals, initialState, profiles,
                            settings, lookups)
  {
  }

  /**
   * One turn of CreatePolicies' inner loop: the candidate policy for one
   * container limit is appended exactly when the VM type is suitable for it.
   */
  method PolicyForLimit(policies: seq<Policy>, algorithm: string, intervals: seq<CriticalInterval>,
                        li: Limit, vmType: string, initialState: State, profiles: map<string, VmProfile>,
                        settings: Settings, lookups: Lookups)
    returns (policies': seq<Policy>)
    requires PositiveLimits(lookups)
    ensures !SizesEveryInterval(intervals, li, vmType, profiles, settings, lookups) ==> policies' == policies
    ensures SizesEveryInterval(intervals, li, vmType, profiles, settings, lookups) ==>
      && |policies'| == |policies| + 1 && policies' == policies + [policies'[|policies|]]
      && CandidatePolicy(policies'[|policies|], algorithm, intervals, li, vmType, initialState, profiles, settings, lookups)
  {
    var vmTypeSuitable, newPolicy := DeriveCandidatePolicy(algorithm, intervals, settings.podsResizeAllowed, li,
                                                           vmType, settings.underprovisioningAllowed,
                                                           settings.maxUnderprovisionPercentage, initialState,
                                                           profiles, settings, lookups);
    policies' := policies;
    if vmTypeSuitable {
      policies' := policies' + [newPolicy];
    }
  }

  /**
   * CreatePolicies: one policy per (VM type, container limit that fits it)
   * pair whose derivation is suitable, and none for the others: the ghost
   * pairs name, for each policy, the VM type and the index of the limit it
   * was derived for; they are distinct and are exactly the suitable pairs.
   * Every derivation starts from the same current state.
   */
  method CreatePolicies(algorithm: string, intervals: seq<CriticalInterval>, initialState: State,
                        profiles: map<string, VmProfile>, settings: Settings, lookups: Lookups)
    returns (policies: seq<Policy>, ghost pairs: seq<(string, nat)>)
    requires PositiveLimits(lookups)
    ensures PoliciesOfPairs(policies, pairs, algorithm, intervals, initialState, profiles, settings, lookups)
    ensures Distinct(pairs)
    ensures forall p: (string, nat) :: p in pairs <==> SuitablePair(p, intervals, profiles, settings, lookups)
    ensures |policies| == SuitablePairs(profiles.Keys, intervals, profiles, settings, lookups)
  {
    policies := [];
    pairs := [];
    var rest := profiles.Keys;
    while rest != {}
      invariant rest <= profiles.Keys
      invariant |policies| + SuitablePairs(rest, intervals, profiles, settings, lookups)
             == SuitablePairs(profiles.Keys, intervals, profiles, settings, lookups)
      invariant PoliciesOfPairs(policies, pairs, algorithm, intervals, initialState, profiles, settings, lookups)
      invariant Distinct(pairs)
      invariant forall p: (string, nat) :: p in pairs <==> p.0 !in rest && SuitablePair(p, intervals, profiles, settings, lookups)
      decreases rest
    {
      var vmType :| vmType in rest;
      SuitablePairsRemove(rest, intervals, profiles, settings, lookups, vmType);
      ghost var before := pairs;
      policies, pairs := PoliciesForType(policies, pairs, algorithm, intervals, vmType, initialState, profiles,
                                         settings, lookups);
      PairsJoin(before, pairs, vmType, rest);
      rest := rest - {vmType};
    }
  }

  /** Appending the pairs of a VM type not seen yet keeps them distinct. */
  lemma PairsJoin(before: seq<(string, nat)>, after: seq<(string, nat)>, vmType: string, rest: set<string>)
    requires |before| <= |after| && after[..|before|] == before
    requires Distinct(before) && Distinct(after[|before|..])
    requires forall p: (string, nat) :: p in before ==> p.0 !in rest
    requires forall p: (string, nat) :: p in after[|before|..] ==> p.0 == vmType
    requires vmType in rest
    ensures Distinct(after)
    ensures forall p: (string, nat) :: p in after <==> p in before || p in after[|before|..]
  {
    assert after == before + after[|before|..];
    forall a, b | 0 <= a < b < |after| ensures after[a] != after[b] {
      if b >= |before| && a < |before| {
        assert after[a] in before;
        assert after[b] in after[|before|..];
      } else if a >= |before| {
        assert after[|before|..][a - |before|] == after[a];
        assert after[|before|..][b - |before|] == after[b];
      }
    }
  }
}
