# SPDT scaling-policy derivation and dashboard series, in Dafny

SPDT derives scaling policies for a containerised service from a forecast of
its load. A forecast is cut into critical intervals, each with a number of
requests to serve. For every interval a strategy chooses:

- a container configuration: replicas, per-replica CPU and memory limits, and
  the throughput it supplies;
- a set of VMs that hosts those replicas.

The strategy then records a scaling step. A step repeating the previous
desired state only stretches the previous step. A new step is timed so that
VMs and containers are up when the interval starts. A policy is the list of
steps with its time window and parameters. A web dashboard flattens policies
into chart series.

This project models:

- **VmScale** (`vm_scale.dfy`). VM sets as maps from VM type to count.
  - Their cost, VM total and replica capacity, as sums over the map.
  - The added/removed delta between two sets.
  - Ceiling division and Go's float-to-int truncation.
  - Replica capacity of a VM as the floor of the smaller resource ratio.
- **Sizing** (`sizing.dfy`). The VM set builders shared by both Go packages:
  - the recursive heterogeneous candidate tree;
  - the homogeneous candidates;
  - the cheapest pick with its tie-break.
- **Derivation** (`derivation.dfy`). The helpers of `pkg/derivation`:
  - replica capacity with the share Kubernetes reserves;
  - the under-provision test and the container-resize test;
  - transition times;
  - the VM-profile check;
  - the scaling-step list update.
- **BestBase** (`best_base.dfy`). The best-base-instance strategy. For each VM
  type and container limit, one candidate policy, kept only when the type
  hosts every interval.
- **Naive** (`naive.dfy`). The naive strategy. It keeps the VM type with the
  most memory and sizes the VM count per interval, giving one policy.
- **LegacyDerivation** (`legacy.dfy`). The older `pkg/policies_derivation`:
  - capacity without reserve;
  - profile precedence;
  - the configuration list update with launch times and labels;
  - the builders.
- **Dashboard** (`dashboard.dfy`) and **Text** (`text.dfy`). The dashboard's
  `computeUnits`, `getVirtualUnitsAll` and `stackedArea`, with the decimal
  rendering and comma splitting they rely on.

Time is whole seconds throughout. Go's `time.Duration(x) * time.Second` on a
float is modelled as truncation toward zero. Go maps are Dafny maps, and a
loop over one picks keys in no fixed order, as Go does. Lookups into storage
and REST services are function-valued parameters (`Derivation.Lookups`,
`LegacyDerivation.VmTimes`). These cover:

- performance profiles by container limits;
- VM boot and shutdown times;
- the container limits that fit a VM type.

Where a Go function takes a pointer to a slice and appends to it, the model
takes the slice and returns the new one.

## Model

| member | source | states |
|---|---|---|
| VmScale.MeasureOf | pkg/derivation/policies_derivation.go:503-508 | The loop over a VM set returns exactly the ghost sum of count × weight over its types (cost with price, VM total with 1, replica capacity with the per-type capacity). |
| VmScale.TotalAddOne | pkg/derivation/policies_derivation.go:455-459 | Adding one VM of type t (copyMap then increment or insert 1) raises any such sum by exactly t's weight. |
| VmScale.TotalSingleton | pkg/derivation/algo_best_base_Instance.go:69-71 | A one-type set of n VMs sums to n times that type's weight. |
| VmScale.SumOverRemove | pkg/derivation/policies_derivation.go:503-504 | The sum over a VM set does not depend on the order its types are visited: any type can be taken out first. |
| VmScale.DeltaVMSet | pkg/derivation/policies_derivation.go:361-364 | Per type, current + added − removed = next; added and removed share no type and hold only positive counts. |
| VmScale.DeltaEmptyIff | pkg/derivation/policies_derivation.go:379-381 | Nothing is added and nothing removed exactly when both sets hold the same count of every type. |
| VmScale.DeltaCases | pkg/derivation/policies_derivation.go:361-382 | Something is added exactly when some type grows, and something is removed exactly when some type shrinks. These are the case conditions of setScalingSteps. |
| VmScale.CeilDiv | pkg/derivation/algo_naive.go:126-127 | math.Ceil(n / d) for d > 0: d·(q−1) < n ≤ d·q. |
| VmScale.CeilDivLeast | pkg/derivation/algo_naive.go:126-127 | No count smaller than ceil(n / d) holds n replicas at d per VM. |
| VmScale.Trunc | pkg/derivation/policies_derivation.go:214 | Go's int(float): rounds toward zero, within one unit of the value. |
| VmScale.MaxReplicas | pkg/derivation/policies_derivation.go:206-215 | With non-negative resources, the result is the largest r whose r × limits fit the available CPU and memory. |
| VmScale.WithCapacities | pkg/derivation/policies_derivation.go:415 | computeVMsCapacity: the same VM types, each profile unchanged except its replica capacity. Where the reserved shares leave non-negative CPU and memory, that capacity is the largest replica count that fits, as maxReplicasCapacityInVM computes it. |
| Sizing.BuildTree | pkg/derivation/policies_derivation.go:445-479 | Earlier candidates are kept. The appended candidates are exactly the candidates of the tree rooted at the node (InTree): one per path whose last VM closes the remaining replicas. Each adds at least n replicas of capacity and never fewer VMs of any type. Nothing is appended when n is 0. Otherwise something is appended exactly when some type can host replicas. |
| Sizing.InTreeCovers | pkg/derivation/policies_derivation.go:445-479 | Every candidate of the tree hosts the replicas requested at its root on top of the root's VMs. |
| Sizing.CoversAfterAddOne | pkg/derivation/policies_derivation.go:464-474 | A candidate covering the remainder n − cap(k) from the set with one more k covers n from the parent set. |
| Sizing.AddOneCovers | pkg/derivation/policies_derivation.go:451-462 | One more VM of a type whose capacity reaches n covers n. |
| Sizing.PickCheapest | pkg/derivation/policies_derivation.go:419-431 | The result is a candidate of least cost. Among equally cheap ones it has the most VMs, or the fewest, as the caller's comparator asks. |
| Sizing.Homogeneous | pkg/derivation/policies_derivation.go:495-498 | A one-type set {type: ceil(n / capacity)}: capacity·(count−1) < n ≤ capacity·count. |
| Sizing.BuildHomogeneous | pkg/derivation/policies_derivation.go:489-516 | Error "No VM Candidate" with an empty set exactly when no type hosts a replica. Otherwise the result is some type's ceil-sized set, of least cost among them, with the tie-break. |
| Sizing.BuildHeterogeneous | pkg/derivation/policies_derivation.go:407-435 | The candidates are exactly the tree's from an empty set, and every one has capacity for n. Error "No VM Candidate" exactly when n is 0 or no type can host a replica. Otherwise the result is a cheapest candidate of the whole tree, ties toward more VMs. |
| Derivation.FormatBool | pkg/derivation/algo_best_base_Instance.go:132-134 | strconv.FormatBool: "true" or "false", and "true" exactly for true. |
| Derivation.IntervalState | pkg/derivation/algo_best_base_Instance.go:111-120 | The interval's state holds exactly one service, the named one, and the chosen VM set. |
| Derivation.MaxReplicasCapacityInVM | pkg/derivation/policies_derivation.go:206-215 | With reserves at most 1, the result × limit fits in capacity × (1 − reserve) for CPU and memory, and one more replica does not. |
| Derivation.IsUnderProvisionInRange | pkg/derivation/policies_derivation.go:527-534 | For a positive supply, true exactly when (demanded − supplied) · demanded ≤ percentage · supplied. For a supply of 0, false (Go's quotient is +Inf or NaN). |
| Derivation.UnderProvisionRange | pkg/derivation/policies_derivation.go:527-534 | A positive supply that meets the demand is in range for any non-negative percentage. A demand above the supply is never in range when no under-provision is allowed. |
| Derivation.ShouldResizeContainer | pkg/derivation/policies_derivation.go:545-557 | True exactly when the candidate's replicas × (memory + CPU) is strictly below the current one's. |
| Derivation.ShouldResizeStrictOrder | pkg/derivation/policies_derivation.go:545-557 | The resize relation is a strict order: never both ways between two configurations, and transitive. |
| Derivation.ComputeScaleOutTransitionTime | pkg/derivation/policies_derivation.go:569-586 | Added VMs: timeStart − boot − TIME_ADD_NODE_TO_K8S − pods' boot. None added: timeStart − TIME_CONTAINER_START. With non-negative durations, never after timeStart. |
| Derivation.StartTransition | pkg/derivation/policies_derivation.go:366-382 | When VM counts only shrink, the launch precedes timeStart by the removed VMs' shutdown time. When some type grows, it is computeScaleOutTransitionTime for the added VMs. When no count changes, it precedes timeStart by TIME_CONTAINER_START. |
| Derivation.StartTransitionNotAfterStart | pkg/derivation/policies_derivation.go:366-382 | In each of the three cases the transition starts no later than the step, given non-negative durations. |
| Derivation.ValidateVMProfilesAvailable | pkg/derivation/policies_derivation.go:637-644 | (true, "") exactly when every VM type of the set has a profile, else (false, k) with k a type of the set without one. |
| Derivation.SetScalingSteps | pkg/derivation/policies_derivation.go:352-397 | The new list is UpdatedSteps. A repeated desired state only sets the last step's end. Otherwise exactly one step is appended with the given states, times, capacity and start of transition. The only other change is the previous end moving later by the shutdown time, when VMs are both added and removed. |
| Derivation.AppendScalingStep | pkg/derivation/policies_derivation.go:357-396 | The non-merging branch of setScalingSteps, with the same description of the new list. |
| Derivation.StepsUpdatedShape | pkg/derivation/policies_derivation.go:353-396 | After the update the list grew by at most one. The last step ends at timeEnd and asks for newState. Earlier steps keep their states and starts. A linked list, each step starting from the last one's desired state, stays linked. |
| Derivation.StepsForSnoc | pkg/derivation/policies_derivation.go:352-397 | Folding setScalingSteps over one more interval is one more setScalingSteps call, from the state the previous interval asked for. |
| Derivation.StepsForShape | pkg/derivation/policies_derivation.go:352-397 | Folding setScalingSteps over n ≥ 1 intervals gives between 1 and n steps. The first starts at the first interval from the initial state. The last ends at the last interval's end and asks for the last target. The steps are linked. |
| Derivation.StepsForTargets | pkg/derivation/policies_derivation.go:352-397 | The states the folded steps ask for are exactly the intervals' target states: merging drops none and adds none. |
| Derivation.BuildHomogeneousVMSet | pkg/derivation/policies_derivation.go:489-516 | The homogeneous choice with the reserves of the settings, ties toward fewer VMs. |
| Derivation.BuildHeterogeneousVMSet | pkg/derivation/policies_derivation.go:407-435 | The heterogeneous choice with the reserves of the settings, ties toward more VMs. |
| BestBase.FindSuitableVMs | pkg/derivation/algo_best_base_Instance.go:64-76 | Capacity > 0: {vmType: ceil(n / capacity)} and no error. Otherwise an empty set with "No suitable VM set found". |
| BestBase.OptionWithUnderProvision | pkg/derivation/algo_best_base_Instance.go:157-164 | The under-provisioning profile, carrying the VM set sized for it and that set's cost. |
| BestBase.IntervalChoice | pkg/derivation/algo_best_base_Instance.go:89-104 | The choice costs no more than the over-provisioning one. It is either the over-provisioning profile and set, or, only when allowed, the under-provisioning ones with a cost that is positive, strictly lower and in range. |
| BestBase.ChooseConfig | pkg/derivation/algo_best_base_Instance.go:89-104 | Reports whether the over-provisioning profile could be sized, and returns IntervalChoice's set and profile. |
| BestBase.BestBaseParameters | pkg/derivation/algo_best_base_Instance.go:130-134 | The four parameters, heterogeneous "false", under-provision and resize mirroring the settings. |
| BestBase.DeriveInterval | pkg/derivation/algo_best_base_Instance.go:88-125 | After interval i the type is suitable exactly when intervals 0..i could each be sized. The steps are setScalingSteps folded over those intervals' choices (IntervalChoice, as IntervalTarget), and the current state is interval i's chosen state. |
| BestBase.DerivedStep | pkg/derivation/algo_best_base_Instance.go:88-125 | Interval i's sizing result and chosen state extend the loop's invariant from i to i + 1 intervals. |
| BestBase.DeriveCandidatePolicy | pkg/derivation/algo_best_base_Instance.go:78-147 | Suitable exactly when every interval's profile can be sized on the type. If not suitable, or with no intervals, the zero policy. Otherwise the filled policy (FilledPolicy): its steps are setScalingSteps folded over every interval's choice and ask for exactly the chosen states. It also has the count, the window from the first start to the last end, DISCARTED status and the parameters. |
| BestBase.FillPolicy | pkg/derivation/algo_best_base_Instance.go:127-145 | Once every interval is done on a suitable type, the policy is FilledPolicy: the steps folded over all the intervals' choices, which ask for exactly the chosen states. It also holds the algorithm, DISCARTED status, the four parameters, the step count, the window and linked steps from the initial state. The last desired state is the last interval's choice. |
| BestBase.CountSuitable | pkg/derivation/algo_best_base_Instance.go:47-52 | The number of container limits of one type whose derivation is suitable, at most the number of limits. |
| BestBase.SuitablePairsRemove | pkg/derivation/algo_best_base_Instance.go:43-53 | The count of suitable (type, limit) pairs does not depend on the order the types are visited. |
| BestBase.PolicyForLimit | pkg/derivation/algo_best_base_Instance.go:47-51 | The list grows by one policy exactly when the VM type sizes every interval with that limit. The policy appended is the candidate policy (FilledPolicy, or the zero policy with no intervals) for that type and limit. |
| BestBase.PoliciesForType | pkg/derivation/algo_best_base_Instance.go:44-52 | For one VM type, ghost (type, limit index) pairs are appended: exactly the suitable pairs of that type, without repeats. Policy k is the candidate policy of pair k. |
| BestBase.LimitStep | pkg/derivation/algo_best_base_Instance.go:47-51 | One limit extends the inner loop's invariant: pairs and policies stay matched, and the pairs are the suitable ones among the limits seen so far. |
| BestBase.PairsStep | pkg/derivation/algo_best_base_Instance.go:48-51 | Limit j adds its pair exactly when the type is suitable for it, which extends the pair invariant to limit j + 1. |
| BestBase.PairsJoin | pkg/derivation/algo_best_base_Instance.go:43-53 | Joining one type's new pairs to the earlier types' keeps the pairs free of repeats, and their set is the union. |
| BestBase.CreatePolicies | pkg/derivation/algo_best_base_Instance.go:35-55 | The ghost pairs are exactly the suitable (VM type, container limit) pairs, without repeats, so their number is the count of suitable pairs. Policy k is the candidate policy of pair k: FilledPolicy for that type and limit, with the settings' flags. |
| Naive.CurrentVMType | pkg/derivation/algo_naive.go:136-150 | A current VM type with the most memory, or "" when no current type has memory above 0. |
| Naive.FindSuitableVMs | pkg/derivation/algo_naive.go:120-130 | With the current type of most memory: {type: ceil(n / capacity)} when capacity > 0, else an empty set and no error. |
| Naive.NothingFromNothing | pkg/derivation/algo_naive.go:120-130 | With no VMs running (and no type named ""), the set found is empty. |
| Naive.ChooseConfig | pkg/derivation/algo_naive.go:51-71 | NaiveChoice, both ways, over the sets FindSuitableVMs sizes for the over- and under-provisioning profiles. It is the under-provisioning profile and set exactly when allowed, strictly cheaper and in range; otherwise the over-provisioning ones. An empty current VM set stays empty. |
| Naive.NaiveStep | pkg/derivation/algo_naive.go:73-88 | Recording interval i's naive choice extends the loop's invariant. The choices are each made from the previous one's VMs. The steps are setScalingSteps folded over them, and the current state is the last choice. No step after an empty set asks for VMs. |
| Naive.FoldStep | pkg/derivation/algo_naive.go:84-88 | setScalingSteps for one more choice extends the fold over the choices by that choice. |
| Naive.RunStep | pkg/derivation/algo_naive.go:53-61 | A choice made from the VMs the last choice left extends the run: p.currentState carries the last state into the next interval's sizing. |
| Naive.EmptyStep | pkg/derivation/algo_naive.go:87 | A setScalingSteps call asking for no VMs after a state with none keeps every step after an empty one empty. |
| Naive.DeriveInterval | pkg/derivation/algo_naive.go:48-89 | One turn of the interval loop appends interval i's naive choice to the ghost choices and keeps that invariant. |
| Naive.NaiveParameters | pkg/derivation/algo_naive.go:91-95 | The four parameters, heterogeneous and resize "false", under-provision mirroring the setting. |
| Naive.CreatePolicies | pkg/derivation/algo_naive.go:32-111 | The ghost choices are one per interval, each a naive choice from the VMs the previous one left. Exactly one policy (NaivePolicy): its steps are setScalingSteps folded over those choices and ask for exactly the chosen states. It carries the algorithm, DISCARTED status, the parameters, NumberScalingActions = number of steps and the window from the first interval's start to the last one's end. The steps are linked from the initial state, each holds the service alone, and once a VM set is empty all later ones are. |
| Naive.BuildPolicy | pkg/derivation/algo_naive.go:91-108 | Wrapping the folded steps gives NaivePolicy. |
| Naive.PolicyShape | pkg/derivation/algo_naive.go:97-107 | Steps folded from one choice per interval ask for exactly the chosen states. There are 1 to n of them, covering the window from the initial state, linked, each with the service alone. |
| LegacyDerivation.MaxReplicasCapacityInVM | pkg/policies_derivation/policies_derivation.go:174-179 | The largest r whose r × limits fit the whole VM's cores and memory. |
| LegacyDerivation.SelectProfileWithLimits | pkg/policies_derivation/policies_derivation.go:189-204 | The under match if asked for and found, the over match if not asked for and found. Whenever something matched, one of the matches. Otherwise the zero configuration. |
| LegacyDerivation.OverMatchPrecedence | pkg/policies_derivation/policies_derivation.go:195-201 | A found over match is skipped only for an under match that was asked for and found. |
| LegacyDerivation.ConfigurationName | pkg/policies_derivation/policies_derivation.go:279 | The label starts with the decimal index followed by '_'. |
| LegacyDerivation.ConfigurationNameIndex | pkg/policies_derivation/policies_derivation.go:279 | The digits before the label's first '_' parse back to the configuration's index. |
| LegacyDerivation.VmBootDelay | pkg/policies_derivation/policies_derivation.go:261-275 | VM boot time counts only when there is a previous configuration and VMs were added. |
| LegacyDerivation.ExtendPrevious | pkg/policies_derivation/policies_derivation.go:264-271 | Only the previous configuration's end may change, and states and starts stay. |
| LegacyDerivation.SetConfiguration | pkg/policies_derivation/policies_derivation.go:254-288 | A repeated deployment only sets the last end. Otherwise the previous end is extended by the termination time when VMs were removed. One configuration is appended, launched at timeStart − VM boot − service boot and labelled itoa(index)__name__stamp. |
| LegacyDerivation.ConfigurationsShape | pkg/policies_derivation/policies_derivation.go:255-286 | At most one more configuration. The last ends at timeEnd with the requested deployment. A new one starts at timeStart and launches no later, with non-negative durations. Earlier ones keep their states and starts, and no end moves earlier. |
| LegacyDerivation.RepeatedStateMerges | pkg/policies_derivation/policies_derivation.go:255-257 | A repeated deployment keeps the length and every configuration but the last, whose end becomes timeEnd. |
| LegacyDerivation.BuildHomogeneousVMSet | pkg/policies_derivation/policies_derivation.go:379-405 | The homogeneous choice with whole-VM capacity, ties toward more VMs; "No VM Candidate" when none. |
| LegacyDerivation.BuildHeterogeneousVMSet | pkg/policies_derivation/policies_derivation.go:298-325 | The heterogeneous choice with whole-VM capacity over the same candidate tree (lines 335-369). |
| Text.Split | ui/assets/scripts/app.js:19 | JavaScript's split on one character: at least one part, and no part contains the separator. |
| Text.JoinSplit | ui/assets/scripts/app.js:19 | Joining the parts of a split with the separator restores the original string. |
| Text.SplitJoin | ui/assets/scripts/app.js:19 | Splitting a join of separator-free parts gives back those parts. |
| Text.IntToStringRoundTrip | ui/assets/scripts/app.js:41 | A number's decimal rendering is well formed and parses back to the number. |
| Text.ParseNatToString | pkg/policies_derivation/policies_derivation.go:279 | strconv.Itoa of a count parses back to it. |
| Dashboard.TallyVMs | ui/assets/scripts/app.js:39-50 | One interval: its VM total, its hover label, and every roster type's series extended by the interval's count of that type (0 when absent). |
| Dashboard.TallyStep | ui/assets/scripts/app.js:40-45 | One more entry adds its count to the total and its "type:count, " to the label, and changes only its type's count. |
| Dashboard.ZeroFill | ui/assets/scripts/app.js:46-50 | The flag pass pushes 0 exactly for the roster types the interval left out. |
| Dashboard.PushServices | ui/assets/scripts/app.js:58-66 | Replicas and limits of every service pushed in order, and the replica maximum updated. |
| Dashboard.AddSample | ui/assets/scripts/app.js:29-69 | One more sample appended to every per-sample series, keeping all of them aligned. |
| Dashboard.AddSampleVms | ui/assets/scripts/app.js:39-55 | One more sample's VM total, hover label and per-type counts (0 for roster types it leaves out) are appended, and maxNumVMs stays the maximum. |
| Dashboard.AddSampleServices | ui/assets/scripts/app.js:57-66 | One more sample's replicas and limits are appended service by service, and maxNumContainers stays the maximum. |
| Dashboard.AddInterval | ui/assets/scripts/app.js:70-76 | The start time is pushed and the cumulative cost stays a running sum seeded with the first cost. |
| Dashboard.ChartStep | ui/assets/scripts/app.js:28-77 | One turn of the forEach over the actions: after action i the series chart actions 0..i, time holds their starts and the cumulative cost is their running sum. |
| Dashboard.ChartLoop | ui/assets/scripts/app.js:28-78 | After the forEach, the series chart every action in order, time is the list of starts and the cumulative cost is the running sum of the costs. |
| Dashboard.ChartActions | ui/assets/scripts/app.js:28-119 | The loop plus the trailing sample: the series chart every action and then the last one again; time is the starts plus the last end. |
| Dashboard.ComputeUnits | ui/assets/scripts/app.js:8-137 | time has N+1 entries: the starts, then the last end. Every roster series has N+1 entries (count or 0). vms[i] is interval i's total, and vms[N] = vms[N−1]. msc and utilisation repeat the last action. The cumulative cost has N entries as a running sum. The maxima are ≥ 0 and bound vms and replicas. |
| Dashboard.RunningSumIsPrefixSum | ui/assets/scripts/app.js:70-76 | Entry k of the cumulative cost is the sum of the first k+1 costs. |
| Dashboard.RunningSumNonDecreasing | ui/assets/scripts/app.js:70-76 | With non-negative costs the cumulative cost never decreases. |
| Dashboard.PushCostExtends | ui/assets/scripts/app.js:71-76 | The if/else push keeps the running-sum relation with one more cost. |
| Dashboard.CountOfEntry | ui/assets/scripts/app.js:43 | With distinct keys, a type's count is its entry's value. |
| Dashboard.SumCountsIsTotal | ui/assets/scripts/app.js:42 | The VM counts of an interval add up to its total. |
| Dashboard.FlatCountsTotal | ui/assets/scripts/app.js:594-596 | The comparison view's flat VM list adds up to the sum of the per-interval totals. |
| Dashboard.IsMaxOfAppend | ui/assets/scripts/app.js:52-54 | A running maximum over two stretches is the maximum over both. |
| Dashboard.WithTrailing | ui/assets/scripts/app.js:81-119 | The charted samples are every action followed by the last one again. |
| Dashboard.ServicesWithTrailing | ui/assets/scripts/app.js:108-116 | Replicas and limits are those of every action followed by the last action's services. |
| Dashboard.Stacked | ui/assets/scripts/app.js:198-205 | Stacking keeps the number of traces and every trace's length. |
| Dashboard.StackedFirst | ui/assets/scripts/app.js:199 | The first trace is left as it was. |
| Dashboard.StackedIsColumnSum | ui/assets/scripts/app.js:199-203 | Where traces 0..i all have entry j, stacked trace i holds the sum of their original values at j. |
| Dashboard.StackedMonotone | ui/assets/scripts/app.js:199-203 | With non-negative values each stacked trace lies on or above the one before. |
| Dashboard.StackedArea | ui/assets/scripts/app.js:198-205 | In place, the array ends up holding the stacked traces. |
| Dashboard.AddOntoInPlace | ui/assets/scripts/app.js:200-202 | The inner loop adds trace i − 1 onto trace i wherever both have an entry and changes no other trace. |
| Dashboard.PushVmCounts | ui/assets/scripts/app.js:593-596 | The interval's VM counts appended in entry order. |
| Dashboard.PushInUse | ui/assets/scripts/app.js:597-602 | Replicas and CPU/memory in use (limit × replicas) appended service by service. |
| Dashboard.PolicySeries | ui/assets/scripts/app.js:581-616 | One policy: N+1 times (starts then last end), the flat VM counts, replicas and resources in use, N+1 capacities repeating the last, and the running cost. |
| Dashboard.AppendRow | ui/assets/scripts/app.js:617-632 | Pushing one policy's entries onto the sixteen per-policy outputs keeps them the same length. The new entries go at the end, and every earlier entry stays as it was. The global time axis becomes the new policy's. |
| Dashboard.GetVirtualUnitsAll | ui/assets/scripts/app.js:563-654 | Every per-policy output has one entry per policy, in input order. Entry i is policy i's: its algorithm, N+1 times (starts then last end), flat VM counts, replicas and resources in use, N+1 capacities repeating the last, the running cost and its metrics copied. The seventeenth output, time, is the last policy's time axis, or the page's previous one with no policies. |
| Dashboard.PolicyRowFor | ui/assets/scripts/app.js:581-631 | One policy's entries of every per-policy output. |

## Left out

- Storage, REST and logging. These include the boot and shutdown time lookups, the performance-profile queries (`selectProfileByLimits`, `FindAllUnderLimits`, the DAO matches of `selectProfileWithLimits`) and `time.Now`. Lookups are parameters, and timings, IDs (`bson.NewObjectId`) and logs are not modelled.
- The top-level `Policies` dispatchers of both Go packages. They fetch the current state over REST and only route to a strategy.
- `estimatePodsConfiguration`, `selectProfileUnderVMLimits`, `getStateLoadCapacity`, `findConfigOptionByContainerResize`, `selectProfile` and `configurationLoadCapacity`. They are storage queries with no logic of their own left after the query.
- `structhash` hashing of a new state in `setScalingSteps`. The hash is an identifier of the state.
- The node tree `buildTree` builds (`node.children`). Only the candidate list it appends to is read by its callers.
- Go map iteration order. Candidate order, ties in `currentVMType` ("first seen") and the winner among equal candidates of the non-strict sort comparator depend on it. The model states results that hold for every order (a least-cost candidate with the tie-break).
- IEEE floating point. Reals are exact, and `math.Ceil` is integer ceiling division. Container limits coming from the profile lookup are taken to be positive (`Derivation.PositiveLimits`, and `requires` on the capacity functions), because a zero limit makes Go divide by zero. With a supplied load of 0 the under-provision quotient is +Inf or NaN and the test is false; `Derivation.IsUnderProvisionInRange` returns false for that case explicitly.
- VmScale.WithCapacities: `computeVMsCapacity` writes the capacities into the caller's profile map (Go maps are references). The model returns a new map, so that aliasing is not captured. `computeVMsCapacity`'s body is not part of this model; it is taken to size each profile with `maxReplicasCapacityInVM`.
- `deltaVMSet`, `copyMap`, `VMScale.Cost`, `TotalVMs`, `ReplicasCapacity` and `State.Equal` are not part of this model's source. They are defined from their use: counts per type, sums of count × price / 1 / capacity, and equality of services and VMs.
- The constant values of `util` (`SCALE_METHOD_HORIZONTAL`, `TIME_ADD_NODE_TO_K8S`, `TIME_CONTAINER_START`, the Kubernetes reserve fractions, `TIME_LAYOUT`) are not part of this model. The durations and reserves are fields of `Derivation.Settings`. The method name is the placeholder `Derivation.ScaleMethodHorizontal`, and time formatting is a parameter.
- Naive.CreatePolicies: its call of `setScalingSteps` passes six arguments where the function takes seven. It is modelled with the strategy's current state as the missing initial state, which is the state `p.currentState` holds at that point.
- Naive.CreatePolicies: with no critical intervals Go indexes `configurations[0]` on an empty slice (`algo_naive.go:106`) and panics. The model requires at least one interval instead of modelling the panic.
- Naive.CurrentVMType: any current type of greatest memory may be returned, rather than the first one seen in Go's map order.
- `computeScaleOutTransitionTime` takes a `podResize` flag it never reads. The model leaves it out.
- `deriveCandidatePolicy` takes VM limits it never reads. The model leaves them out.
- With no critical intervals, best-base's `deriveCandidatePolicy` reports the type suitable and returns the zero policy, which `CreatePolicies` then appends. The model does the same (`BestBase.DeriveCandidatePolicy`).
- The older package's `setConfiguration` extends the previous end whenever VMs are removed. The newer `setScalingSteps` does so only when VMs are also added. Both are modelled as written.
- The dashboard's plotting, DOM and fetch code, and `Time-Serie-Processing/api.py`, an HTTP wrapper.
- Dashboard: JavaScript objects iterated with for-in are sequences of entries with distinct keys. A VM type outside the `vm-types` roster, a missing roster or an empty action list make the page throw, and these are preconditions of `Dashboard.ComputeUnits`.
- Dashboard.GetVirtualUnitsAll: the `time` it returns is a page-wide global that every policy overwrites. Its value before the call is the parameter `previousTime`, not the page's state.
- Dashboard.StackedArea: the traces' `y` arrays are values in one array, so aliasing between traces sharing a `y` array is not captured.
