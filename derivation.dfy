/**
 * The scaling-policy rules of pkg/derivation/policies_derivation.go: the
 * replica capacity of a VM, the under-provision acceptance test, the
 * container-resize test, launch times, the check that every current VM
 * type has a profile, the update of a policy's list of scaling steps, and
 * the VM-set builders with this package's reserves and tie-breaks.
 *
 * Time is a whole number of seconds: every duration the package adds to a
 * time goes through time.Duration(x) * time.Second, which drops the
 * fraction of x.
 */
module Derivation {
  import opened VmScale
  import opened Sizing

  /**
   * The package's constants and the system configuration it reads: the
   * fractions of a VM's CPU and memory reserved by Kubernetes
   * (PERCENTAGE_REQUIRED_k8S_INSTALLATION_CPU / _MEM), the seconds needed
   * to join a node to the cluster (TIME_ADD_NODE_TO_K8S) and to start a
   * container (TIME_CONTAINER_START), and the policy settings.
   */
  datatype Settings = Settings(
    reserveCpu: real,
    reserveMem: real,
    timeAddNodeToK8s: nat,
    timeContainerStart: nat,
    mainServiceName: string,
    serviceName: string,
    underprovisioningAllowed: bool,
    podsResizeAllowed: bool,
    maxUnderprovisionPercentage: real)

  datatype ServiceInfo = ServiceInfo(scale: int, cpu: real, memory: real)

  /** A deployment: the services with their replicas and limits, and the VMs. */
  datatype State = State(services: map<string, ServiceInfo>, vms: VMScale)

  /** One step of a policy: go from initialState to desiredState for [timeStart, timeEnd]. */
  datatype ScalingStep = ScalingStep(
    initialState: State,
    desiredState: State,
    timeStart: int,
    timeEnd: int,
    requestsCapacity: real,
    timeStartTransition: int)

  /** A containers configuration: replicas, their throughput and boot time, their limits. */
  datatype ContainersConfig = ContainersConfig(
    replicas: int,
    mscPerSecond: real,
    bootTimeSec: real,
    limits: Limit,
    vmSet: VMScale,
    cost: real)

  /** An interval of the processed forecast with the requests to serve in it. */
  datatype CriticalInterval = CriticalInterval(requests: real, timeStart: int, timeEnd: int)

  /**
   * The lookups the package makes in its performance-profile store and over
   * REST: selectProfileByLimits (requests, container limits, whether
   * under-provision is sought), the booting and termination seconds of a
   * VM set, and the container limits that fit a VM (FindAllUnderLimits).
   */
  datatype Lookups = Lookups(
    selectProfileByLimits: (real, Limit, bool) -> ContainersConfig,
    bootTime: VMScale -> real,
    terminationTime: VMScale -> real,
    limitsUnder: (real, real) -> seq<Limit>)

  /** The container limits every profile lookup answers with are positive. */
  ghost predicate PositiveLimits(lookups: Lookups) {
    forall requests, limit, under ::
      && lookups.selectProfileByLimits(requests, limit, under).limits.cpuCores > 0.0
      && lookups.selectProfileByLimits(requests, limit, under).limits.memoryGB > 0.0
  }

  datatype PolicyStatus = Unset | Discarded

  /** The keys of a policy's parameters (types.METHOD, ISHETEREOGENEOUS, ...). */
  datatype ParameterKey = Method | IsHeterogeneous | IsUnderProvision | IsResizePods

  datatype Policy = Policy(
    algorithm: string,
    scalingActions: seq<ScalingStep>,
    status: PolicyStatus,
    parameters: map<ParameterKey, string>,
    numberScalingActions: int,
    timeWindowStart: int,
    timeWindowEnd: int)

  /** The zero value of types.Policy. */
  const EmptyPolicy: Policy := Policy("", [], Unset, map[], 0, 0, 0)

  /** util.SCALE_METHOD_HORIZONTAL. */
  const ScaleMethodHorizontal: string := "horizontal"

  /** strconv.FormatBool. */
  function FormatBool(b: bool): (s: string)
    ensures s == "true" || s == "false"
    ensures (s == "true") == b
  {
    if b then "true" else "false"
  }

  /** The state an interval asks for: the scaled service alone, and the VM set. */
  function IntervalState(vmSet: VMScale, config: ContainersConfig, serviceName: string): (s: State)
    ensures s.services.Keys == {serviceName} && s.vms == vmSet
  {
    var services := map[serviceName := ServiceInfo(config.replicas, config.limits.cpuCores, config.limits.memoryGB)];
    State(services, vmSet)
  }

  // ---------------------------------------------------------------------
  // maxReplicasCapacityInVM
  // ---------------------------------------------------------------------

  /**
   * The replicas with the given limits that fit in one VM once Kubernetes'
   * share is reserved: the largest count whose CPU and memory both fit.
   */
  function MaxReplicasCapacityInVM(v: VmProfile, limit: Limit, settings: Settings): (r: int)
    requires limit.cpuCores > 0.0 && limit.memoryGB > 0.0
    ensures settings.reserveCpu <= 1.0 && settings.reserveMem <= 1.0 && v.cpuCores >= 0.0 && v.memory >= 0.0 ==>
      && 0 <= r
      && r as real * limit.cpuCores <= v.cpuCores * (1.0 - settings.reserveCpu)
      && r as real * limit.memoryGB <= v.memory * (1.0 - settings.reserveMem)
      && ((r + 1) as real * limit.cpuCores > v.cpuCores * (1.0 - settings.reserveCpu)
          || (r + 1) as real * limit.memoryGB > v.memory * (1.0 - settings.reserveMem))
  {
    MaxReplicas(v, limit, settings.reserveCpu, settings.reserveMem)
  }

  // ---------------------------------------------------------------------
  // isUnderProvisionInRange and shouldResizeContainer
  // ---------------------------------------------------------------------

  /**
   * The load supplied by an under-provisioned configuration is acceptable
   * when (demanded - supplied) * demanded / supplied does not exceed the
   * allowed percentage. With nothing supplied the Go quotient is +Inf or
   * NaN, and the comparison is false.
   */
  function IsUnderProvisionInRange(demanded: real, supplied: real, percentageAllowed: real): (r: bool)
    ensures supplied == 0.0 ==> !r
    ensures supplied > 0.0 ==> (r <==> (demanded - supplied) * demanded <= percentageAllowed * supplied)
  {
    if supplied == 0.0 then false
    else
      var q := (demanded - supplied) * demanded / supplied;
      assert q * supplied == (demanded - supplied) * demanded;
      assert supplied > 0.0 && q > percentageAllowed ==> q * supplied > percentageAllowed * supplied;
      q <= percentageAllowed
  }

  /**
   * A supply that meets a non-negative demand is always in range for a
   * non-negative allowance; an allowance of zero accepts no shortfall.
   */
  lemma {:induction false} UnderProvisionRange(demanded: real, supplied: real, percentageAllowed: real)
    requires supplied > 0.0 && demanded >= 0.0
    ensures supplied >= demanded && percentageAllowed >= 0.0 ==>
      IsUnderProvisionInRange(demanded, supplied, percentageAllowed)
    ensures demanded > supplied ==> !IsUnderProvisionInRange(demanded, supplied, 0.0)
  {
    if supplied >= demanded {
      assert (demanded - supplied) * demanded <= 0.0;
    }
    if demanded > supplied {
      assert (demanded - supplied) * demanded > 0.0;
    }
  }

  /**
   * Resizing pays off when the candidate reserves less memory plus CPU over
   * all its replicas than the current configuration does.
   */
  function ShouldResizeContainer(current: ContainersConfig, candidate: ContainersConfig): (r: bool)
    ensures r <==> (candidate.replicas as real * (candidate.limits.memoryGB + candidate.limits.cpuCores)
                    < current.replicas as real * (current.limits.memoryGB + current.limits.cpuCores))
  {
    var utilizationCurrent := current.limits.memoryGB * current.replicas as real
                            + current.limits.cpuCores * current.replicas as real;
    var utilizationNew := candidate.limits.memoryGB * candidate.replicas as real
                        + candidate.limits.cpuCores * candidate.replicas as real;
    utilizationNew < utilizationCurrent
  }

  /** The resize test is a strict order: never both ways, and transitive. */
  lemma ShouldResizeStrictOrder(a: ContainersConfig, b: ContainersConfig, c: ContainersConfig)
    ensures ShouldResizeContainer(a, b) ==> !ShouldResizeContainer(b, a)
    ensures ShouldResizeContainer(a, b) && ShouldResizeContainer(b, c) ==> ShouldResizeContainer(a, c)
  {
  }

  // ---------------------------------------------------------------------
  // Launch times
  // ---------------------------------------------------------------------

  /**
   * computeScaleOutTransitionTime: with new VMs, the launch starts early
   * enough to boot them, join them to the cluster and boot the pods;
   * without, early enough to start the containers.
   */
  function ComputeScaleOutTransitionTime(vmAdded: VMScale, timeStart: int, podsBootingTime: real,
                                         lookups: Lookups, settings: Settings): (t: int)
    ensures |vmAdded| > 0 ==>
      timeStart - t == Trunc(lookups.bootTime(vmAdded)) + settings.timeAddNodeToK8s + Trunc(podsBootingTime)
    ensures |vmAdded| == 0 ==> t == timeStart - settings.timeContainerStart
    ensures lookups.bootTime(vmAdded) >= 0.0 && podsBootingTime >= 0.0 ==> t <= timeStart
  {
    if |vmAdded| > 0 then
      var bootTimeVMAdded := lookups.bootTime(vmAdded);
      var transitionTime := timeStart - Trunc(bootTimeVMAdded);
      var transitionTime := transitionTime - settings.timeAddNodeToK8s;
      transitionTime - Trunc(podsBootingTime)
    else
      timeStart - settings.timeContainerStart
  }

  /**
   * When a new step's launch starts (the three cases of setScalingSteps):
   * when VMs of some type are removed and none added, as long before
   * timeStart as the removed ones take to shut down; when some type grows,
   * as computeScaleOutTransitionTime says for the added VMs; when nothing
   * changes, as long before as a container takes to start.
   */
  function StartTransition(current: VMScale, next: VMScale, timeStart: int, podsBootingTime: real,
                           lookups: Lookups, settings: Settings): (t: int)
    ensures (exists v :: CountOf(next, v) < CountOf(current, v)) && (forall v :: CountOf(next, v) <= CountOf(current, v))
      ==> timeStart - t == Trunc(lookups.terminationTime(DeltaVMSet(current, next).1))
    ensures (exists v :: CountOf(next, v) > CountOf(current, v))
      ==> t == ComputeScaleOutTransitionTime(DeltaVMSet(current, next).0, timeStart, podsBootingTime, lookups, settings)
    ensures (forall v :: CountOf(next, v) == CountOf(current, v)) ==> t == timeStart - settings.timeContainerStart
  {
    var (added, removed) := DeltaVMSet(current, next);
    DeltaCases(current, next);
    if |removed| > 0 && |added| == 0 then timeStart - Trunc(lookups.terminationTime(removed))
    else ComputeScaleOutTransitionTime(added, timeStart, podsBootingTime, lookups, settings)
  }

  /** With durations that are never negative, no launch starts after its step. */
  lemma StartTransitionNotAfterStart(current: VMScale, next: VMScale, timeStart: int, podsBootingTime: real,
                                     lookups: Lookups, settings: Settings)
    requires podsBootingTime >= 0.0
    requires forall s :: lookups.bootTime(s) >= 0.0 && lookups.terminationTime(s) >= 0.0
    ensures StartTransition(current, next, timeStart, podsBootingTime, lookups, settings) <= timeStart
  {
    var (added, removed) := DeltaVMSet(current, next);
    assert lookups.bootTime(added) >= 0.0 && lookups.terminationTime(removed) >= 0.0;
  }

  // ---------------------------------------------------------------------
  // validateVMProfilesAvailable
  // ---------------------------------------------------------------------

  /**
   * Every VM type of the set has a profile; otherwise the answer names a
   * type that has none.
   */
  method ValidateVMProfilesAvailable(vmSet: VMScale, profiles: map<string, VmProfile>)
    returns (available: bool, vmType: string)
    ensures available <==> vmSet.Keys <= profiles.Keys
    ensures available ==> vmType == ""
    ensures !available ==> vmType in vmSet && vmType !in profiles
  {
    var rest := vmSet.Keys;
    while rest != {}
      invariant rest <= vmSet.Keys
      invariant vmSet.Keys - rest <= profiles.Keys
      decreases rest
    {
      var k :| k in rest;
      if k !in profiles {
        return false, k;
      }
      rest := rest - {k};
    }
    return true, "";
  }

  // ---------------------------------------------------------------------
  // setScalingSteps
  // ---------------------------------------------------------------------

  /**
   * Each step starts from the state the previous one reached, and no two
   * neighbouring steps aim at the same state.
   */
  predicate Linked(steps: seq<ScalingStep>) {
    forall i :: 0 < i < |steps| ==>
      && steps[i].initialState == steps[i - 1].desiredState
      && steps[i].desiredState != steps[i - 1].desiredState
  }

  /**
   * setScalingSteps' update of the list: a state equal to the last step's
   * target only extends that step to timeEnd. Any other state appends one
   * step from currentState to it, launched as StartTransition says; when
   * the change both adds and removes VMs, the previous step is also kept
   * running for as long as the removed VMs take to shut down.
   */
  function UpdatedSteps(steps: seq<ScalingStep>, currentState: State, newState: State, timeStart: int,
                        timeEnd: int, totalServicesBootingTime: real, stateLoadCapacity: real,
                        lookups: Lookups, settings: Settings): seq<ScalingStep> {
    var n := |steps|;
    if n >= 1 && newState == steps[n - 1].desiredState then
      steps[n - 1 := steps[n - 1].(timeEnd := timeEnd)]
    else
      var (added, removed) := DeltaVMSet(currentState.vms, newState.vms);
      var prefix := if n >= 1 && |removed| > 0 && |added| > 0
                    then steps[n - 1 := steps[n - 1].(timeEnd := steps[n - 1].timeEnd
                                                        + Trunc(lookups.terminationTime(removed)))]
                    else steps;
      prefix + [ScalingStep(currentState, newState, timeStart, timeEnd, stateLoadCapacity,
                            StartTransition(currentState.vms, newState.vms, timeStart,
                                            totalServicesBootingTime, lookups, settings))]
  }

  /**
   * An update keeps every earlier step's states and start, ends the list
   * at timeEnd in newState, and keeps the list linked when currentState is
   * where the list stood.
   */
  lemma StepsUpdatedShape(steps: seq<ScalingStep>, steps': seq<ScalingStep>, currentState: State,
                          newState: State, timeStart: int, timeEnd: int, totalServicesBootingTime: real,
                          stateLoadCapacity: real, lookups: Lookups, settings: Settings)
    requires steps' == UpdatedSteps(steps, currentState, newState, timeStart, timeEnd, totalServicesBootingTime,
                                     stateLoadCapacity, lookups, settings)
    ensures |steps| <= |steps'| <= |steps| + 1
    ensures |steps'| >= 1 && steps'[|steps'| - 1].timeEnd == timeEnd
    ensures steps'[|steps'| - 1].desiredState == newState
    ensures |steps'| > |steps| ==>
      steps'[|steps|].initialState == currentState && steps'[|steps|].timeStart == timeStart
    ensures forall i :: 0 <= i < |steps| ==>
      && steps'[i].initialState == steps[i].initialState
      && steps'[i].desiredState == steps[i].desiredState
      && steps'[i].timeStart == steps[i].timeStart
    ensures Linked(steps) && (|steps| == 0 || currentState == steps[|steps| - 1].desiredState) ==> Linked(steps')
  {
    var n := |steps|;
    if n >= 1 && newState == steps[n - 1].desiredState {
      MergedShape(steps, steps', timeEnd);
    } else {
      AppendCaseShape(steps, steps', currentState, newState, timeStart, timeEnd, totalServicesBootingTime,
                      stateLoadCapacity, lookups, settings);
    }
  }

  /** StepsUpdatedShape for an update that appends a step. */
  lemma AppendCaseShape(steps: seq<ScalingStep>, steps': seq<ScalingStep>, currentState: State,
                        newState: State, timeStart: int, timeEnd: int, totalServicesBootingTime: real,
                        stateLoadCapacity: real, lookups: Lookups, settings: Settings)
    requires steps' == UpdatedSteps(steps, currentState, newState, timeStart, timeEnd, totalServicesBootingTime,
                                     stateLoadCapacity, lookups, settings)
    requires !(|steps| >= 1 && newState == steps[|steps| - 1].desiredState)
    ensures |steps'| == |steps| + 1 && steps'[|steps|].timeEnd == timeEnd
    ensures steps'[|steps|].desiredState == newState
    ensures steps'[|steps|].initialState == currentState && steps'[|steps|].timeStart == timeStart
    ensures forall i :: 0 <= i < |steps| ==>
      && steps'[i].initialState == steps[i].initialState
      && steps'[i].desiredState == steps[i].desiredState
      && steps'[i].timeStart == steps[i].timeStart
    ensures Linked(steps) && (|steps| == 0 || currentState == steps[|steps| - 1].desiredState) ==> Linked(steps')
  {
    var n := |steps|;
    var (added, removed) := DeltaVMSet(currentState.vms, newState.vms);
    var prefix := steps'[..n];
    assert steps'[n].desiredState == newState;
    if n >= 1 && |removed| > 0 && |added| > 0 {
      MergedShape(steps, prefix, steps[n - 1].timeEnd + Trunc(lookups.terminationTime(removed)));
    }
    AppendedShape(steps, prefix, steps', currentState, newState);
  }

  /** Extending the last step's end keeps every step's states and start. */
  lemma MergedShape(steps: seq<ScalingStep>, steps': seq<ScalingStep>, timeEnd: int)
    requires |steps| >= 1 && steps' == steps[|steps| - 1 := steps[|steps| - 1].(timeEnd := timeEnd)]
    ensures |steps'| == |steps| && steps'[|steps| - 1].timeEnd == timeEnd
    ensures forall i :: 0 <= i < |steps| ==>
      && steps'[i].initialState == steps[i].initialState
      && steps'[i].desiredState == steps[i].desiredState
      && steps'[i].timeStart == steps[i].timeStart
    ensures Linked(steps) ==> Linked(steps')
  {
  }

  /** One step from the list's last target to a different state keeps the list linked. */
  lemma AppendedShape(steps: seq<ScalingStep>, prefix: seq<ScalingStep>, steps': seq<ScalingStep>,
                      currentState: State, newState: State)
    requires |prefix| == |steps| && |steps'| == |steps| + 1 && steps'[..|steps|] == prefix
    requires forall i :: 0 <= i < |steps| ==>
      && prefix[i].initialState == steps[i].initialState
      && prefix[i].desiredState == steps[i].desiredState
      && prefix[i].timeStart == steps[i].timeStart
    requires steps'[|steps|].initialState == currentState && steps'[|steps|].desiredState == newState
    requires |steps| == 0 || newState != steps[|steps| - 1].desiredState
    ensures forall i :: 0 <= i < |steps| ==>
      && steps'[i].initialState == steps[i].initialState
      && steps'[i].desiredState == steps[i].desiredState
      && steps'[i].timeStart == steps[i].timeStart
    ensures Linked(steps) && (|steps| == 0 || currentState == steps[|steps| - 1].desiredState) ==> Linked(steps')
  {
    assert forall i :: 0 <= i < |steps| ==> steps'[i] == prefix[i];
  }

  /**
   * setScalingSteps: the slice the Go code updates through a pointer is
   * passed in and handed back.
   */
  method SetScalingSteps(steps: seq<ScalingStep>, currentState: State, newState: State, timeStart: int,
                         timeEnd: int, totalServicesBootingTime: real, stateLoadCapacity: real,
                         lookups: Lookups, settings: Settings)
    returns (steps': seq<ScalingStep>)
    ensures steps' == UpdatedSteps(steps, currentState, newState, timeStart, timeEnd, totalServicesBootingTime,
                                   stateLoadCapacity, lookups, settings)
  {
    var nScalingSteps := |steps|;
    if nScalingSteps >= 1 && newState == steps[nScalingSteps - 1].desiredState {
      steps' := steps[nScalingSteps - 1 := steps[nScalingSteps - 1].(timeEnd := timeEnd)];
    } else {
      steps' := AppendScalingStep(steps, currentState, newState, timeStart, timeEnd, totalServicesBootingTime,
                                  stateLoadCapacity, lookups, settings);
    }
  }

  /** The appending branch of setScalingSteps. */
  method AppendScalingStep(steps: seq<ScalingStep>, currentState: State, newState: State, timeStart: int,
                           timeEnd: int, totalServicesBootingTime: real, stateLoadCapacity: real,
                           lookups: Lookups, settings: Settings)
    returns (steps': seq<ScalingStep>)
    requires !(|steps| >= 1 && newState == steps[|steps| - 1].desiredState)
    ensures steps' == UpdatedSteps(steps, currentState, newState, timeStart, timeEnd, totalServicesBootingTime,
                                   stateLoadCapacity, lookups, settings)
  {
    var nScalingSteps := |steps|;
    steps' := steps;
    var (vmAdded, vmRemoved) := DeltaVMSet(currentState.vms, newState.vms);
    if |vmRemoved| > 0 && |vmAdded| > 0 && nScalingSteps >= 1 {
      var shutdownVMDuration := lookups.terminationTime(vmRemoved);
      var previousTimeEnd := steps'[nScalingSteps - 1].timeEnd;
      steps' := steps'[nScalingSteps - 1 := steps'[nScalingSteps - 1].(timeEnd := previousTimeEnd + Trunc(shutdownVMDuration))];
    }
    var startTransitionTime := StartTransition(currentState.vms, newState.vms, timeStart,
                                               totalServicesBootingTime, lookups, settings);
    ghost var prior := steps';
    steps' := steps' + [ScalingStep(currentState, newState, timeStart, timeEnd, stateLoadCapacity, startTransitionTime)];
    assert steps'[..nScalingSteps] == prior;
  }

  /**
   * What one interval asks setScalingSteps for: the state to reach, the
   * seconds its pods take to boot and the load that state can serve.
   */
  datatype Target = Target(state: State, podsBootingTime: real, loadCapacity: real)

  /** The state the deployment is in before interval k: the previous interval's target. */
  function StateBefore(initialState: State, targets: seq<Target>, k: nat): (s: State)
    requires k <= |targets|
    ensures k == 0 ==> s == initialState
    ensures k > 0 ==> s == targets[k - 1].state
  {
    if k == 0 then initialState else targets[k - 1].state
  }

  /**
   * The steps a strategy's loop builds by calling setScalingSteps once per
   * interval, in order, each from the state the previous interval asked for.
   */
  function StepsFor(initialState: State, targets: seq<Target>, intervals: seq<CriticalInterval>,
                    lookups: Lookups, settings: Settings): seq<ScalingStep>
    requires |targets| <= |intervals|
    decreases |targets|
  {
    if targets == [] then []
    else
      var k := |targets| - 1;
      UpdatedSteps(StepsFor(initialState, targets[..k], intervals, lookups, settings),
                   StateBefore(initialState, targets, k), targets[k].state,
                   intervals[k].timeStart, intervals[k].timeEnd,
                   targets[k].podsBootingTime, targets[k].loadCapacity, lookups, settings)
  }

  /** The fold over one more interval is one more setScalingSteps update. */
  lemma StepsForSnoc(initialState: State, targets: seq<Target>, i: nat, intervals: seq<CriticalInterval>,
                     lookups: Lookups, settings: Settings)
    requires i < |targets| <= |intervals|
    ensures StepsFor(initialState, targets[..i + 1], intervals, lookups, settings)
         == UpdatedSteps(StepsFor(initialState, targets[..i], intervals, lookups, settings),
                         StateBefore(initialState, targets, i), targets[i].state,
                         intervals[i].timeStart, intervals[i].timeEnd,
                         targets[i].podsBootingTime, targets[i].loadCapacity, lookups, settings)
  {
    assert targets[..i + 1][..i] == targets[..i];
  }

  /**
   * The fold's steps cover the intervals' window from the first start to
   * the last end, start from the initial state, are linked, number at most
   * one per interval, and end in the last interval's target.
   */
  lemma {:induction false} StepsForShape(initialState: State, targets: seq<Target>, intervals: seq<CriticalInterval>,
                                         lookups: Lookups, settings: Settings)
    requires 0 < |targets| <= |intervals|
    ensures var steps := StepsFor(initialState, targets, intervals, lookups, settings);
      && 1 <= |steps| <= |targets|
      && steps[0].timeStart == intervals[0].timeStart
      && steps[0].initialState == initialState
      && steps[|steps| - 1].timeEnd == intervals[|targets| - 1].timeEnd
      && steps[|steps| - 1].desiredState == targets[|targets| - 1].state
      && Linked(steps)
    decreases |targets|
  {
    var k := |targets| - 1;
    var prev := StepsFor(initialState, targets[..k], intervals, lookups, settings);
    if k > 0 {
      StepsForShape(initialState, targets[..k], intervals, lookups, settings);
    }
    StepsUpdatedShape(prev, StepsFor(initialState, targets, intervals, lookups, settings),
                      StateBefore(initialState, targets, k), targets[k].state,
                      intervals[k].timeStart, intervals[k].timeEnd,
                      targets[k].podsBootingTime, targets[k].loadCapacity, lookups, settings);
  }

  /** The states the steps aim at. */
  function DesiredStates(steps: seq<ScalingStep>): set<State> {
    set j | 0 <= j < |steps| :: steps[j].desiredState
  }

  /** The states the intervals ask for. */
  function TargetStates(targets: seq<Target>): set<State> {
    set k | 0 <= k < |targets| :: targets[k].state
  }

  /**
   * The steps aim at exactly the states the intervals ask for: no state is
   * invented, and an interval is merged into the step before only when
   * both ask for the same state.
   */
  lemma {:induction false} StepsForTargets(initialState: State, targets: seq<Target>, intervals: seq<CriticalInterval>,
                                           lookups: Lookups, settings: Settings)
    requires |targets| <= |intervals|
    ensures DesiredStates(StepsFor(initialState, targets, intervals, lookups, settings)) == TargetStates(targets)
    decreases |targets|
  {
    if targets != [] {
      var k := |targets| - 1;
      var prev := StepsFor(initialState, targets[..k], intervals, lookups, settings);
      var steps := StepsFor(initialState, targets, intervals, lookups, settings);
      StepsForTargets(initialState, targets[..k], intervals, lookups, settings);
      StepsUpdatedShape(prev, steps, StateBefore(initialState, targets, k), targets[k].state,
                        intervals[k].timeStart, intervals[k].timeEnd,
                        targets[k].podsBootingTime, targets[k].loadCapacity, lookups, settings);
      DesiredStatesGrow(prev, steps, targets[k].state);
      TargetStatesSnoc(targets);
    }
  }

  /** An update adds its new state to the states aimed at and drops none. */
  lemma DesiredStatesGrow(prev: seq<ScalingStep>, steps: seq<ScalingStep>, newState: State)
    requires |prev| <= |steps| <= |prev| + 1 && 1 <= |steps|
    requires forall j :: 0 <= j < |prev| ==> steps[j].desiredState == prev[j].desiredState
    requires steps[|steps| - 1].desiredState == newState
    ensures DesiredStates(steps) == DesiredStates(prev) + {newState}
  {
    forall x | x in DesiredStates(steps) ensures x in DesiredStates(prev) + {newState} {
      var j :| 0 <= j < |steps| && steps[j].desiredState == x;
      if j < |prev| { assert prev[j].desiredState == x; }
    }
    assert newState in DesiredStates(steps) by { assert steps[|steps| - 1].desiredState == newState; }
    forall x | x in DesiredStates(prev) ensures x in DesiredStates(steps) {
      var j :| 0 <= j < |prev| && prev[j].desiredState == x;
      assert steps[j].desiredState == x;
    }
  }

  lemma TargetStatesSnoc(targets: seq<Target>)
    requires |targets| > 0
    ensures TargetStates(targets) == TargetStates(targets[..|targets| - 1]) + {targets[|targets| - 1].state}
  {
    var k := |targets| - 1;
    forall x | x in TargetStates(targets) ensures x in TargetStates(targets[..k]) + {targets[k].state} {
      var m :| 0 <= m < |targets| && targets[m].state == x;
      if m < k { assert targets[..k][m].state == x; }
    }
    forall x | x in TargetStates(targets[..k]) ensures x in TargetStates(targets) {
      var m :| 0 <= m < k && targets[..k][m].state == x;
      assert targets[m].state == x;
    }
  }

  // ---------------------------------------------------------------------
  // The VM-set builders of this package
  // ---------------------------------------------------------------------

  /**
   * buildHomogeneousVMSet: the cheapest one-type VM set for the replicas,
   * capacities taken after the Kubernetes reserve, ties toward fewer VMs.
   */
  method BuildHomogeneousVMSet(numberReplicas: int, limits: Limit, profiles: map<string, VmProfile>,
                               settings: Settings)
    returns (r: WithError<VMScale>)
    requires limits.cpuCores > 0.0 && limits.memoryGB > 0.0
    ensures HomogeneousChoice(r, numberReplicas, limits, profiles, settings.reserveCpu, settings.reserveMem, false)
  {
    r := BuildHomogeneous(numberReplicas, limits, profiles, settings.reserveCpu, settings.reserveMem, false);
  }

  /**
   * buildHeterogeneousVMSet: the cheapest VM set of the candidate tree,
   * ties toward more VMs.
   */
  method BuildHeterogeneousVMSet(numberReplicas: int, limits: Limit, profiles: map<string, VmProfile>,
                                 settings: Settings)
    returns (r: WithError<VMScale>, candidates: seq<VMScale>)
    requires limits.cpuCores > 0.0 && limits.memoryGB > 0.0
    ensures HeterogeneousChoice(r, candidates, numberReplicas, limits, profiles, settings.reserveCpu, settings.reserveMem)
  {
    r, candidates := BuildHeterogeneous(numberReplicas, limits, profiles, settings.reserveCpu, settings.reserveMem);
  }
}
