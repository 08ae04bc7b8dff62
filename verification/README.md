# CruiseKube: a verified model of its decision logic

CruiseKube sizes the CPU and memory requests of Kubernetes pods, evicts pods where a node is too small, opens
disruption windows in which pods may be moved, and rewrites pods at admission. This project models the parts of it that
decide something, and proves what those decisions guarantee.

Each module follows one part of the program.

- `Workloads`, `Eviction`, `PodDemand`, `Allocator`: the node strategy. `OptimizeNode` clones the pod list, computes a base demand
  and a spike headroom per pod, sorts and evicts for memory, sorts again and evicts for CPU, and shares the one
  largest headroom among the surviving containers. The clone is an array; eviction deletes from its live prefix in
  place.
- `NodeBudget`, `Conservation`, `Protection`, `PeakRequests`, `Recommendations`: what one call of the strategy
  guarantees. The survivors fit the budget, every pod has exactly one fate, and flooring, clamping and rounding cost
  at most one floor per container.
- `ApplyGates`, `ApplyTask`, `Resize`, `ApplyOutcome`, `ApplyExamples`, `DaemonSets`: one node of the apply run, from
  the three-way classification of its pods and the subtraction of what cannot be touched, to the filter, the evictions
  and the in-place resizes; what a run does to each pod; and DaemonSet requests over many runs.
- `CronText`, `CronWindow`, `Decimal`, `Disruption`, `DisruptionRuns`, `DisruptionTask`, `ForeignEdits`: disruption
  windows. The rewriting of cron texts, the window test and its meaning, relaxing and restoring budgets and pods,
  safety and progress over all sequences of ticks, writing through an API server with conflicts, and workloads that
  share a budget.
- `JsonPointer`, `JsonPatch`, `Webhook`, `WebhookPatches`, `WebhookPod`, `WebhookGenerator`: the admission webhook. A
  JSON Patch interpreter (sections 4.1 to 4.3 of RFC 6902, pointers of sections 3 and 4 of RFC 6901), and the
  generators of resource and annotation patches, with their paths printed as strings.
- `StatsPipeline`, `TimeSeries`: merging of metrics, the completeness gate that makes the strategy's dereferences safe,
  and the combination of ReplicaSet series into Deployment series.
- `AuditQueue`: the audit recorder as interleaved steps of any number of goroutines and the worker.
- `Prelude`, `Sequences`: arithmetic and sequence theory. Sorting is known only to yield a sorted permutation, as
  `sort.Slice` promises no more.

Go floats are exact reals with the rounding, flooring and truncating functions written out. Maps and sets are visited in
any order. A nil pointer is `None`. Kubernetes objects are records, or small classes where the program updates them.

## What is assumed of the inputs

- Measured usage and current requests are not negative, and pod keys on a node are distinct, wherever a lemma sums
  over a node. `PodKeyInjective` shows why keys are distinct for distinct pods.
- Statistics read by the apply run came out of the statistics pipeline. `PrepareStats` establishes what
  `ApplyTask.Gated` asks for.
- A pod document is encoded as the API server does: every container has a `resources` object.
- A cron schedule is known by its `Next` function, which returns the first event strictly after its argument.
- Other clients leave the marker and the saved value of a relaxed budget alone.
- The temporal statements take ticks exactly one period apart and writes that succeed.

## Where the code differs from its documentation

The model follows the code.

- The documentation says DaemonSets and workloads marked "no eviction" are never evicted. The strategy protects them
  exactly when constraints were recorded (`DaemonSetIsSafeIff`, `NoEvictionIsSafeIff`,
  pkg/task/applystrategies/utils.go:8-22; they are recorded at pkg/task/taskcreatestats.go:306-314). Without them it
  evicts such pods on ordinary nodes (`UnrecordedDaemonSetIsEvicted`, `UnrecordedNoEvictionIsEvicted`). Besides, the
  apply loop evicts every survivor whose limits equal its requests, protected or not (`ProtectedPodIsEvictedIff`,
  `ProtectedPodCanBeEvicted`, pkg/task/utils/util.go:562-564).
- The comment at pkg/task/taskapplyrecommendation.go:821 says that the stored constraints exclude annotated pods. They
  are not read there (`StoredExclusionIsIgnored`).
- The apply filter selects workloads, not pods. `OnlyOptimizableTouchedIff` says when only optimizable pods are
  touched. With guaranteed pods not to be optimised, a guaranteed pod is still evicted next to a burstable sibling
  (`GuaranteedSiblingIsEvicted`), and so is a best-effort one (`BestEffortPodIsEvictedIff`).
- A budget comes back unchanged only from some states (`BudgetIsRestoredIff`): a saved value left over from before,
  two fields at once, or a string value that reads as an integer defeats it (`LeftoverAnnotationIsRestored`). The same
  for pods (`PodIsRestoredIff`, `OwnAnnotationIsLost`).
- A CPU limit in force on a node that offers less than half a millicore is recomputed as zero, and a zero limit is never
  sent, so the same patch is sent by every run (`CpuPatchSettlesIff`,
  pkg/task/taskapplyrecommendation.go:554-566). Memory patches always settle (`MemoryPatchSettles`).
- The window test means "a window is open" exactly when starts and ends alternate (`WindowTestIsExactIff`,
  `TwoEndsMislead`).
- Budgets selected by several workloads follow the last one in the list (`LastWorkloadDecides`), so they can be relaxed
  outside the windows of the others (`SharedBudgetIsSafeIff`, `SharedBudgetLeaks`).
- A field that another client sets in a relaxed budget is silently replaced by the old value when the window closes
  (`FieldEditIsDiscarded`); `EditsSurviveExceptRelaxedFields` says what survives.
- The documentation promises that a pod scheduled with peak requests is not evicted again at once.
  `ScheduledPeaksStay` is the promise; it needs requests that cover the demand, which an init container larger than
  the base demand can defeat (`PeakRequestCoversIff`, `InitContainerDefeatsPeaks`).
- The printer of memory quantities cuts off fractions of a megabyte, so a DaemonSet limit of 600.5 MB becomes 600 MB,
  below a request of 600.5 MB (`PrinterCanBreakDaemonSets`). `PatchedPodIsValidIff` is the exact condition.
- The webhook strips do-not-disrupt annotations of any value and of marked pods; the reconciler skips marked pods, and
  its pod loop skips pods whose values do not block (`WebhookAgreesWithReconcilerIff`, `MarkedPodIsStripped`,
  `TaskAgreesWithWebhookIff`, `HarmlessAnnotationIsStripped`).
- `Close` of the audit recorder is described as draining the queue and as idempotent. Only the first call waits; a
  later one drains the queue exactly if it was drained already (`LaterCloseDrainsIff`, `SecondCloseReturnsEarly`).

## Model

| member | source | states |
|---|---|---|
| `Workloads.PodKeyInjective` | pkg/task/utils/util.go:472-474 | keys of pods collide for no two pods whose names hold no colon |
| `Workloads.WorkloadKeyInjective` | pkg/task/utils/util.go:438-440 | a workload key determines kind, namespace and name |
| `Workloads.WorkloadContainerKeyInjective` | pkg/task/utils/util.go:451-453 | a container key determines workload and container |
| `Workloads.FindResource` | pkg/task/utils/nodestats.go:60-67 | lookup ignoring case: a result is a listed container with that name, and there is none only if no container matches |
| `Workloads.FindStats` | pkg/types/stats.go:286-293 | exact lookup: a result is listed under that name, and there is none only if no record has it |
| `Workloads.FoldingIsCaseOnly` | pkg/task/utils/nodestats.go:60-67 | two names match exactly when they are equal up to the case of letters |
| `Workloads.FirstMatchIsFound` | pkg/task/utils/nodestats.go:60-67 | of several matching containers or records the first is taken |
| `Eviction.RecommendedAndRestCPU` | pkg/task/applystrategies/adjustamongstpodsdistributedstrategy.go:348-372 | base demand and headroom together reach the predicted peak; the headroom is never negative |
| `Eviction.RecommendedAndRestMemory` | pkg/task/applystrategies/adjustamongstpodsdistributedstrategy.go:335-346 | the same for memory, unless an out-of-memory kill above the base replaces it and leaves no headroom |
| `Eviction.Demand` | pkg/task/applystrategies/adjustamongstpodsdistributedstrategy.go:49-69 | a DaemonSet container asks for no headroom and for no more than its current request |
| `Eviction.FitIsMonotone` | pkg/task/applystrategies/adjustamongstpodsdistributedstrategy.go:295-307 | evicting or reordering pods never breaks a fit |
| `Eviction.EvictBeforeIsStrictWeakOrder` | pkg/task/applystrategies/adjustamongstpodsdistributedstrategy.go:105-153 | both comparators are strict weak orders, for any metrics |
| `Eviction.DeleteAt` | pkg/task/applystrategies/adjustamongstpodsdistributedstrategy.go:330 | in-place deletion removes exactly the one element and keeps the order of the rest |
| `Eviction.AppendEvictRecords` | pkg/task/applystrategies/adjustamongstpodsdistributedstrategy.go:317-328 | appends the eviction records of one pod after what was there |
| `Eviction.TestFit` | pkg/task/applystrategies/adjustamongstpodsdistributedstrategy.go:295-307 | the accumulated test holds exactly when all base demands plus the one largest headroom stay within the budget |
| `Eviction.PerformEvictionLoop` | pkg/task/applystrategies/adjustamongstpodsdistributedstrategy.go:285-333 | removes the first k evictable pods in sorted order, k least such that the rest fits, or all of them; the result grows by exactly their records |
| `Sequences.ScanIsLeastRemoval` | pkg/task/applystrategies/adjustamongstpodsdistributedstrategy.go:285-333 | scanning with in-place deletion equals removing the least sufficient number of candidates |
| `Sequences.LeastRemovalIsUnique` | pkg/task/applystrategies/adjustamongstpodsdistributedstrategy.go:285-333 | the order and the fit determine who is evicted |
| `Sequences.EnoughOrNoCandidates` | pkg/task/applystrategies/adjustamongstpodsdistributedstrategy.go:285-333 | the loop ends with a fit or with nobody left to evict |
| `Sequences.RemovedComeFirst` | pkg/task/applystrategies/adjustamongstpodsdistributedstrategy.go:285-333 | whoever was evicted stood before every candidate that stayed |
| `Allocator.CacheIsExact` | pkg/task/applystrategies/adjustamongstpodsdistributedstrategy.go:38-102 | with distinct keys every pod finds its own metrics in the cache |
| `Allocator.MeasureContainer` | pkg/task/applystrategies/adjustamongstpodsdistributedstrategy.go:43-74 | the stepwise cap of a DaemonSet container equals its specified demand; without a current resource it is not counted |
| `Allocator.AccumulateContainers` | pkg/task/applystrategies/adjustamongstpodsdistributedstrategy.go:38-75 | the running totals and maxima are those of exactly the counted containers |
| `Allocator.ComputePodMetrics` | pkg/task/applystrategies/adjustamongstpodsdistributedstrategy.go:38-102 | totals are raised to the init-container maximum, and the ranking is resolved |
| `PodDemand.EachContainerCounts` | pkg/task/applystrategies/adjustamongstpodsdistributedstrategy.go:43-74 | which container adds its demand: no init container, no DaemonSet container without a current resource, all others while ranking |
| `PodDemand.ContainerDemandIs` | pkg/task/applystrategies/adjustamongstpodsdistributedstrategy.go:335-376 | base and headroom in numbers; an out-of-memory kill above the usage replaces the base and leaves no headroom |
| `PodDemand.PodDemandIs` | pkg/task/applystrategies/adjustamongstpodsdistributedstrategy.go:38-102 | a pod demands the sum of its bases or the largest init request, whichever is more; its headroom is the largest of its containers |
| `PodDemand.RankingIs` | pkg/task/applystrategies/adjustamongstpodsdistributedstrategy.go:86-93 | the ranking for every override: the user's choice, else the stored one, else high; medium for a nil override |
| `Allocator.BuildCache` | pkg/task/applystrategies/adjustamongstpodsdistributedstrategy.go:38-102 | one entry per pod key, of the last pod with that key |
| `Allocator.SortSlice` | pkg/task/applystrategies/adjustamongstpodsdistributedstrategy.go:105-124 | sorting in place yields a permutation sorted by the eviction order |
| `Allocator.AllocationConserves` | pkg/task/applystrategies/adjustamongstpodsdistributedstrategy.go:105-157 | survivors and evicted pods together are the input pods, as multisets |
| `Allocator.AllocationFits` | pkg/task/applystrategies/adjustamongstpodsdistributedstrategy.go:125-157 | after both phases each resource fits or only protected pods are left; the CPU phase cannot break the memory fit |
| `Allocator.NobodyIsEvictedIff` | pkg/task/applystrategies/adjustamongstpodsdistributedstrategy.go:105-157 | nobody is evicted exactly when everything fits for both resources, or nobody may be evicted |
| `Allocator.EvictionRespectsPriority` | pkg/task/applystrategies/adjustamongstpodsdistributedstrategy.go:105-157 | across both phases nobody is evicted in place of an evictable survivor that should go first; ties go by headroom |
| `Allocator.CollectSlots` | pkg/task/applystrategies/adjustamongstpodsdistributedstrategy.go:177-239 | lists exactly the survivors' non-init containers that have a current resource |
| `Allocator.Share` | pkg/task/applystrategies/adjustamongstpodsdistributedstrategy.go:243-271 | a container's extra is its proportional part of the largest headroom, or nothing |
| `Allocator.AppendSurvivors` | pkg/task/applystrategies/adjustamongstpodsdistributedstrategy.go:243-280 | one record per slot with base plus share; the two maxima are reported |
| `Allocator.RunPhase` | pkg/task/applystrategies/adjustamongstpodsdistributedstrategy.go:105-157 | sort and eviction loop together are one phase of the specification |
| `Allocator.OptimizeNode` | pkg/task/applystrategies/adjustamongstpodsdistributedstrategy.go:26-283 | for any sorted permutations, computes a two-phase allocation and returns exactly its records; the caller's pods are unchanged |
| `Protection.SomeAllocation` | pkg/task/applystrategies/adjustamongstpodsdistributedstrategy.go:105-157 | for all pods and budgets an outcome of the two phases exists |
| `Protection.EvictedAreEvictable` | pkg/task/applystrategies/adjustamongstpodsdistributedstrategy.go:309-315 | whoever is evicted in either phase was evictable |
| `Protection.CrowdedOutIsEvicted` | pkg/task/applystrategies/adjustamongstpodsdistributedstrategy.go:285-333 | an evictable pod that does not fit next to the protected pods is evicted by every outcome, for either resource |
| `Protection.TooLargeIsEvicted` | pkg/task/applystrategies/adjustamongstpodsdistributedstrategy.go:285-333 | so is one that alone, with its headroom, demands more than there is |
| `Protection.RoomDecidesEviction` | pkg/task/applystrategies/adjustamongstpodsdistributedstrategy.go:285-333 | from the demands of the pods: nobody is evicted if for both resources all bases and the headroom of any single pod fit; and only then, when some pod may be evicted |
| `Protection.OneHeadroomServesTwo` | pkg/task/applystrategies/adjustamongstpodsdistributedstrategy.go:295-307 | two pods of equal demand both stay where both bases and one headroom fit |
| `Protection.MemoryIsDecidedFirst` | pkg/task/applystrategies/adjustamongstpodsdistributedstrategy.go:105-129 | whether the memory phase evicts somebody depends on all pods and the memory budget alone |
| `Protection.CpuFollowsMemory` | pkg/task/applystrategies/adjustamongstpodsdistributedstrategy.go:131-157 | the CPU phase divides exactly the pods the memory phase has kept |
| `Protection.SafeFromEvictionIff` | pkg/task/applystrategies/utils.go:8-22 | a protected pod (constraints recorded, and annotated, DaemonSet or ranked "no eviction") escapes eviction under all budgets; any other pod with a demand is evicted under some budgets, none negative |
| `Protection.DaemonSetIsSafeIff` | pkg/task/applystrategies/utils.go:8-22 | a DaemonSet pod with a demand is safe exactly when constraints were recorded, not always as documented |
| `Protection.NoEvictionIsSafeIff` | pkg/task/applystrategies/utils.go:8-22 | a pod ranked "no eviction", by its workload or its user, is safe exactly when constraints were recorded |
| `Eviction.RankedNoEvictionIff` | pkg/types/stats.go:92-116 | with the overrides as they are built, a pod is ranked "no eviction" exactly when its user chose so, or chose nothing for a workload stored so |
| `Protection.OptimizingAgainEvictsNobody` | pkg/task/applystrategies/adjustamongstpodsdistributedstrategy.go:26-283 | run again on its survivors with the same budgets, the strategy evicts nobody |
| `NodeBudget.SharesSumToOneHeadroom` | pkg/task/applystrategies/adjustamongstpodsdistributedstrategy.go:243-271 | all extras together are the one largest headroom, once, or zero |
| `NodeBudget.HeadroomIsSharedInProportion` | pkg/task/applystrategies/adjustamongstpodsdistributedstrategy.go:243-271 | the extras of any two survivors are in proportion to their headrooms; there are none where no base or no headroom is demanded |
| `NodeBudget.RecommendedInAll` | pkg/task/applystrategies/adjustamongstpodsdistributedstrategy.go:243-271 | the records total the bases plus one headroom, or the bases alone |
| `NodeBudget.SizedDemandIsSmaller` | pkg/task/applystrategies/adjustamongstpodsdistributedstrategy.go:177-239 | the containers that are sized demand no more than those that were ranked |
| `NodeBudget.SlotsAreBounded` | pkg/task/applystrategies/adjustamongstpodsdistributedstrategy.go:177-239 | the slots' totals and largest headroom stay within what the fit test counted, init-container maxima included |
| `NodeBudget.FinalsFit` | pkg/task/applystrategies/adjustamongstpodsdistributedstrategy.go:177-271 | pods that fit still fit after the headroom has been shared out |
| `NodeBudget.AllocationWithinBudget` | pkg/task/applystrategies/adjustamongstpodsdistributedstrategy.go:26-283 | if an evictable pod survives, all recommendations of the survivors stay within the budget, for CPU and memory |
| `Conservation.EvictRecordsShape` | pkg/task/applystrategies/adjustamongstpodsdistributedstrategy.go:317-328 | one eviction record per non-init container, in order |
| `Conservation.EvictRecordsArePeaks` | pkg/task/applystrategies/adjustamongstpodsdistributedstrategy.go:317-328 | the eviction records are exactly those with the predicted peaks of the non-init containers |
| `Conservation.SurvivorRecordsShape` | pkg/task/applystrategies/adjustamongstpodsdistributedstrategy.go:243-271 | one resize record per non-init container with a current resource, in order |
| `Conservation.ExactlyOneFate` | pkg/task/applystrategies/adjustamongstpodsdistributedstrategy.go:105-157 | with distinct keys each pod is in exactly one of: evicted for memory, evicted for CPU, surviving |
| `Conservation.EveryPodIsAccountedFor` | pkg/task/applystrategies/adjustamongstpodsdistributedstrategy.go:26-283 | the records of a pod are all evictions, one per non-init container, or all resizes, one per sized container; never both |
| `Recommendations.ComputeRecommendedResourceValues` | pkg/task/utils/recommendationapply.go:88-125 | requests lie between floor and clamp and at most one floor above the recommendation; limits are not below requests |
| `Recommendations.RequestBounds` | pkg/task/utils/validation.go:3-13 | bounds of floored, clamped and rounded requests; between floor and clamp only rounding moves the value |
| `Recommendations.RequestsAre` | pkg/task/utils/recommendationapply.go:88-125 | the requests in numbers: floor, clamp, and rounding to whole millicores and megabytes in between |
| `Recommendations.CpuLimitIs` | pkg/task/utils/recommendationapply.go:96-120 | the CPU limit is what the node offers, raised to the request; none on a node that offers less than half a millicore |
| `Recommendations.MemoryLimitIs` | pkg/task/utils/recommendationapply.go:97-124 | the memory limit is the largest of request, twice the seven-day peak and twice the last kill, or twice the request of an unknown container, up to rounding |
| `Recommendations.MemoryLimitCoversSignal` | pkg/task/utils/recommendationapply.go:95-124 | the memory limit covers the request and twice the seven-day peak and the last out-of-memory kill |
| `Recommendations.RequestsOvershootBoundedly` | pkg/task/utils/recommendationapply.go:88-125 | n requests total at most the n recommendations plus n floors |
| `Recommendations.RequestsWithinBudget` | pkg/task/utils/recommendationapply.go:88-125 | the requests sent for the survivors stay within the budget plus 0.001 cores or 16 MB per container |
| `Recommendations.DaemonSetIsCapped` | pkg/task/applystrategies/adjustamongstpodsdistributedstrategy.go:194-209 | a surviving DaemonSet container gets the smaller of its demand and its current request, and no share |
| `ApplyGates.SegregatePods` | pkg/task/taskapplyrecommendation.go:809-850 | the three lists hold exactly the pods of each class, in order |
| `ApplyGates.SegregationIsPartition` | pkg/task/taskapplyrecommendation.go:809-850 | the three lists together are all pods, none twice |
| `ApplyGates.ClassIsExact` | pkg/task/utils/recommendationapply.go:29-84 | each class, exactly, on statistics, requests, age, autoscaling, annotation, guarantee, cluster and override |
| `ApplyGates.TaskClassIs` | pkg/task/taskapplyrecommendation.go:809-850 | in the cluster task a pod is optimised exactly if its statistics are complete, it asks for something, is old enough, not autoscaled, not guaranteed unless such pods are optimised, and its user enabled it |
| `ApplyGates.StoredExclusionIsIgnored` | pkg/task/taskapplyrecommendation.go:819-840 | a stored excluded annotation does not change the class of a pod, against the comment |
| `ApplyTask.ClassifiedPodsAreReady` | pkg/task/utils/recommendationapply.go:34-43 | pods of the two optimizable classes can be optimised without following a nil pointer |
| `ApplyTask.CollectDefaultRecords` | pkg/task/taskapplyrecommendation.go:222-234 | non-optimizable pods keep their current requests, container by container |
| `ApplyTask.CollectExcludedRecords` | pkg/task/taskapplyrecommendation.go:251-269 | excluded pods are shown base plus headroom per container with statistics |
| `ApplyTask.CurrentRecordsAre` | pkg/task/taskapplyrecommendation.go:222-234 | a non-optimizable pod has one record per container, in order, with its current requests |
| `ApplyTask.PeakRecordsAre` | pkg/task/taskapplyrecommendation.go:251-269 | an excluded pod has one record per container with statistics, in order, with its predicted peak or the kill that replaces it |
| `ApplyTask.UnoptimizedRecordsShape` | pkg/task/taskapplyrecommendation.go:222-269 | these records never evict and belong to the pods they were made for |
| `ApplyTask.Subtract` | pkg/task/taskapplyrecommendation.go:213-219 | what is left is the budget less the sum of all requests |
| `ApplyTask.EachPodTakesItsRequests` | pkg/task/taskapplyrecommendation.go:213-291 | what one more pod takes from the two budgets, by its class and for both resources |
| `ApplyTask.ProcessNode` | pkg/task/taskapplyrecommendation.go:177-293 | what to save optimises both optimizable classes; what to apply optimises one class within what the other two leave |
| `ApplyTask.NodeStaysWithinAllocatable` | pkg/task/taskapplyrecommendation.go:213-291 | if an evictable pod survives, requests of untouched pods plus everything recommended stay within the node, for both resources; after rounding within one floor per container |
| `ApplyTask.RoomForOne` | pkg/task/taskapplyrecommendation.go:213-291 | a node offering exactly what its one optimizable pod demands, next to any other pods, evicts nobody; that pod is evictable exactly if not excluded |
| `PeakRequests.ScheduledPeaksStay` | docs/documentation/concepts/arch-algorithm.md:324-330 | on a node whose requests fit, nobody is evicted when every optimizable pod requests what it demands |
| `PeakRequests.PeakRequestCoversIff` | docs/documentation/concepts/arch-algorithm.md:326-330 | peak requests cover the demand exactly when no init container exceeds the base, there is no headroom, or the peaks cover both |
| `PeakRequests.InitContainerDefeatsPeaks` | docs/documentation/concepts/arch-algorithm.md:326-330 | a pod scheduled with peak requests that fit is evicted by the next run, because the headroom is counted on top of its init container |
| `Resize.ApplyCPURecommendation` | pkg/task/taskapplyrecommendation.go:528-580 | exactly when a patch is sent; a sent limit covers the request if the node has CPU; none is sent where none was set |
| `Resize.ApplyMemoryRecommendation` | pkg/task/taskapplyrecommendation.go:468-526 | exactly when a patch is sent; limit never below request, sent only where one was set, never lowered without support |
| `Resize.MemoryPatchIsSentIff` | pkg/task/taskapplyrecommendation.go:468-526 | a memory patch is sent exactly when the floored, rounded recommendation differs, either way, from a live request within 16 MB of the recorded one; its request and its limit in each case |
| `Resize.MemoryPatchSettles` | pkg/task/taskapplyrecommendation.go:506-525 | once the request of a memory patch is in force the same recommendation sends no other |
| `Resize.CpuPatchIsSentIff` | pkg/task/taskapplyrecommendation.go:528-580 | a CPU patch is sent exactly when request or limit would move by a millicore; its request and limit |
| `Resize.CpuPatchSettlesIff` | pkg/task/taskapplyrecommendation.go:554-566 | a CPU patch is sent again exactly if a limit is in force on a node that offers less than half a millicore |
| `Resize.ApplyRecord` | pkg/task/taskapplyrecommendation.go:318-449 | exactly which actions a record causes: none outside the filter, else one eviction of its pod, else the CPU and memory patches of its container |
| `Resize.RecordIsAppliedIff` | pkg/task/taskapplyrecommendation.go:318-450 | each action a record causes, exactly, on the filter, the presence of the pod, the verdict, the limits and the settings |
| `Resize.LastLiveCounts` | pkg/task/taskapplyrecommendation.go:366-371 | of several live containers with one name the last is compared; an absent one has no quantities |
| `Resize.ApplyRecords` | pkg/task/taskapplyrecommendation.go:323-450 | the loop causes the actions of its records, in order |
| `ApplyOutcome.ApplyNode` | pkg/task/taskapplyrecommendation.go:177-450 | one node of the run, from its pods to the actions on them |
| `ApplyOutcome.RecordsAgree` | pkg/task/taskapplyrecommendation.go:177-293 | every record belongs to a pod of the node, and all records of a pod carry the same verdict, fixed by its class and the strategy |
| `ApplyOutcome.PodIsEvictedIff` | pkg/task/taskapplyrecommendation.go:318-364 | a pod of any class is evicted exactly if the filter lets it through, it has a record, and the strategy evicted it or its limits equal its requests |
| `ApplyOutcome.MemoryIsResizedIff` | pkg/task/taskapplyrecommendation.go:318-450 | a container is resized to a memory patch exactly if the filter lets its pod through, nothing asks for its eviction, and one of its records calls for that patch |
| `ApplyOutcome.DisabledWorkloadIsUntouched` | pkg/task/taskapplyrecommendation.go:300-450 | no action is on a pod of a workload that its user has not enabled or that has no override |
| `ApplyOutcome.NeverEvictedAndResized` | pkg/task/taskapplyrecommendation.go:318-449 | no run both evicts and resizes a pod |
| `ApplyOutcome.OnlyOptimizableTouchedIff` | pkg/task/taskapplyrecommendation.go:300-450 | whatever is running, every action is on an optimizable pod exactly when no recorded pod of another class shares a workload with an optimizable one |
| `ApplyExamples.ExcludedSiblingIsEvicted` | pkg/task/taskapplyrecommendation.go:251-364 | next to any optimizable pod of its workload, an excluded pod with limits equal to its requests is evicted |
| `ApplyExamples.GuaranteedSiblingIsEvicted` | pkg/task/taskapplyrecommendation.go:251-364 | two concrete pods: with guaranteed pods not to be optimised, the guaranteed one is evicted |
| `ApplyOutcome.BestEffortPodIsEvictedIff` | pkg/task/utils/nodestats.go:39-58 | a best-effort pod counts as guaranteed: it is evicted whenever the filter lets it through |
| `ApplyOutcome.ProtectedPodIsEvictedIff` | pkg/task/utils/util.go:562-564 | a protected, optimizable pod is evicted exactly if it is on the node, its limits equal its requests and it has a container to size |
| `ApplyExamples.ProtectedPodCanBeEvicted` | pkg/task/taskapplyrecommendation.go:334-364 | a concrete node whose one protected DaemonSet pod fits, survives the strategy with complete statistics, and is evicted by the loop |
| `ApplyExamples.UnrecordedDaemonSetIsEvicted` | pkg/task/applystrategies/adjustamongstpodsdistributedstrategy.go:285-333 | a node whose requests fit evicts a DaemonSet pod without recorded constraints, because a protected pod has grown |
| `ApplyExamples.UnrecordedNoEvictionIsEvicted` | pkg/task/applystrategies/adjustamongstpodsdistributedstrategy.go:285-333 | the same for a pod whose user chose "no eviction" |
| `ApplyExamples.BudgetAssumptionsHold` | pkg/task/taskapplyrecommendation.go:213-291 | a concrete node that meets all assumptions of the budget theorem |
| `DaemonSets.RunIsCapped` | pkg/task/applystrategies/adjustamongstpodsdistributedstrategy.go:194-271 | a run makes a record for a surviving DaemonSet container that asks for no more than before, and sends that request if any |
| `DaemonSets.DaemonSetCpuNeverGrows` | pkg/task/utils/recommendationapply.go:88-125 | over any number of runs, records and patches, its CPU request never exceeds the initial one or the floor |
| `DaemonSets.DaemonSetMemoryNeverGrows` | pkg/task/utils/recommendationapply.go:88-125 | over any number of runs, records and patches, its memory request never exceeds the initial one, rounded, or the floor |
| `CronText.NormalizeCronDOW7` | pkg/task/utils/disruptionwindow.go:20-37 | the token loop computes the specified rewriting |
| `CronText.OnlySundaysChange` | pkg/task/utils/disruptionwindow.go:15-37 | for every expression of five fields, a star included: the first four stay; in the list of days each entry 7 becomes 0, all others stay, and no 7 is left |
| `CronText.OthersAreUnchanged` | pkg/task/utils/disruptionwindow.go:20-28 | without five fields, or with a star in the last, the text is returned as it is |
| `CronText.DailyIsUnchanged` | pkg/task/utils/disruptionwindow.go:20-28 | an ordinary daily expression is returned as it is |
| `CronText.FieldsEndAtSpace` | pkg/task/utils/disruptionwindow.go:21 | fields end at every blank, tab and line end; visible characters stay together |
| `CronText.RewritingIsIdempotent` | pkg/task/utils/disruptionwindow.go:20-37 | rewriting twice is rewriting once; without an entry 7 the fields do not change |
| `CronText.SplitOfJoin` | pkg/task/utils/disruptionwindow.go:29-36 | splitting undoes joining for parts without separators |
| `CronWindow.NextIsFirstEvent` | pkg/task/utils/disruptionwindow.go:56-57 | Next returns an event, and none lies before it |
| `CronWindow.TestImpliesOpened` | pkg/task/utils/disruptionwindow.go:56-59 | the test is true only if a window was opened and not closed since |
| `CronWindow.OpenedImpliesTest` | pkg/task/utils/disruptionwindow.go:56-59 | the test is true whenever a window was opened and not closed since |
| `CronWindow.WindowTestIsExactIff` | pkg/task/utils/disruptionwindow.go:56-59 | test and meaning agree at all instants exactly when starts and ends alternate |
| `CronWindow.TwoEndsMislead` | pkg/task/utils/disruptionwindow.go:56-59 | a daily window with two ends: an hour after the first end the test still says open |
| `DisruptionRuns.NoScheduleNeverRelaxes` | pkg/task/utils/disruptionwindow.go:39-70 | windows whose texts are empty or do not parse never relax a budget, in any run |
| `Decimal.ParseOfPrint` | pkg/task/taskdisruptionforce.go:337-360 | a budget value survives printing and parsing exactly when it is no integer-looking string |
| `Decimal.BudgetValuesSurvive` | pkg/task/taskdisruptionforce.go:337-360 | every value the API server admits survives |
| `Decimal.AtoiOfItoa` | pkg/task/taskdisruptionforce.go:355-360 | parsing undoes printing for all integers |
| `Decimal.DigitsAreDecimal` | pkg/task/taskdisruptionforce.go:337-345 | numbers are printed in base ten without leading zeros |
| `Decimal.SignedNumbers` | pkg/task/taskdisruptionforce.go:355-360 | a number may carry one sign; leading zeros are allowed |
| `Disruption.PodDisruptionBudget.ApplyReconcileState` | pkg/task/taskdisruptionforce.go:324-375 | the new object for each state; it is to be written exactly when it changed, and then the marker flips |
| `Disruption.BudgetIsRestoredIff` | pkg/task/taskdisruptionforce.go:324-375 | relaxing and restoring gives the original back exactly under the stated condition on fields and annotations |
| `Disruption.LeftoverAnnotationIsRestored` | pkg/task/taskdisruptionforce.go:353-361 | a saved value left over from earlier: a budget of two available pods comes back as half unavailable |
| `Disruption.RelaxingIs` | pkg/task/taskdisruptionforce.go:326-350 | relaxing lifts the maximum of unavailable pods, or else the minimum of available ones, saves that value, and changes nothing else |
| `Disruption.RestoringIs` | pkg/task/taskdisruptionforce.go:353-372 | leaving the window puts the saved value back, the maximum first, and removes the three annotations; without a saved value nothing changes |
| `Disruption.OriginalIsNeverLost` | pkg/task/taskdisruptionforce.go:324-375 | over any run an admitted budget is the original or its relaxed form with the original saved, by the last state alone; other annotations are untouched |
| `Disruption.Pod.StripKeys` | pkg/task/taskdisruptionforce.go:235-240 | all blocking keys are gone in any visiting order; modified exactly if there was one |
| `Disruption.Pod.CopyKeys` | pkg/task/taskdisruptionforce.go:253-259 | the template's blocking annotations are copied in any visiting order |
| `Disruption.Pod.Reconcile` | pkg/task/taskdisruptionforce.go:225-264 | the new annotations for each state; an unreadable template fails and changes nothing |
| `Disruption.PodIsRestoredIff` | pkg/task/taskdisruptionforce.go:225-264 | a pod gets its annotations back exactly if it had nothing to strip or carried its template's blocking annotations |
| `Disruption.OwnAnnotationIsLost` | pkg/task/taskdisruptionforce.go:232-264 | a pod annotated itself, not through its template, loses its protection |
| `Disruption.StrippingIsIdempotent` | pkg/task/taskdisruptionforce.go:232-244 | later ticks inside a window change nothing |
| `Disruption.StrippedIs` | pkg/task/taskdisruptionforce.go:232-244 | key by key: the three do-not-disrupt annotations go, the marker is set if there was one, all others stay |
| `Disruption.UnreadableTemplateIsRetried` | pkg/task/taskdisruptionforce.go:246-264 | a template that cannot be read leaves the marker, so a later tick restores all the same |
| `Disruption.PodIsNeverLost` | pkg/task/taskdisruptionforce.go:225-264 | over any run a pod has its own annotations or the stripped ones, by the last state alone |
| `DisruptionRuns.ComputeStateFromWindows` | pkg/task/taskdisruptionforce.go:190-209 | the flags give the state of the union of windows now and at the next run; out exactly if no window is open now |
| `DisruptionRuns.BudgetFollowsState` | pkg/task/taskdisruptionforce.go:190-209 | after each tick of any run the budget is relaxed exactly when that tick's state is "in" |
| `DisruptionRuns.RelaxedIsInside` | pkg/task/taskdisruptionforce.go:190-209 | with gaps of at least a period, a relaxed instant lies inside a window, over every run |
| `DisruptionRuns.ShortGapIsUnsafe` | pkg/task/taskdisruptionforce.go:190-209 | a shorter gap is seen relaxed by some run |
| `DisruptionRuns.RelaxedOnlyInsideIff` | pkg/task/taskdisruptionforce.go:190-209 | for all windows, a budget is relaxed only inside them over all runs exactly when they cover every period at whose two ends one is open |
| `DisruptionRuns.StrippedOnlyInsideIff` | pkg/task/taskdisruptionforce.go:190-209 | the same condition decides whether a pod is stripped only inside the windows, over all runs |
| `DisruptionRuns.GapsDecideSafety` | pkg/task/taskdisruptionforce.go:190-209 | gaps of a period suffice for safety, and are necessary when windows last a period |
| `DisruptionRuns.WindowIsTakenUpIff` | pkg/task/taskdisruptionforce.go:190-209 | a window is used by every run started before it exactly when it lasts two periods |
| `DisruptionTask.ReconcileBudget` | pkg/task/taskdisruptionforce.go:377-394 | get, reconcile and conditional update with retries equal atomic steps on the latest value; other budgets are untouched |
| `DisruptionTask.StoredFromLatest` | pkg/task/taskdisruptionforce.go:377-394 | the reconciler stores only what it computed from the latest value, in an attempt nobody disturbed; after giving up the last foreign write stands |
| `ForeignEdits.EditOfRelaxedBudget` | pkg/task/taskdisruptionforce.go:324-375 | a foreign edit of a relaxed budget stays during the window; leaving it keeps the annotations and replaces the fields by the original ones |
| `ForeignEdits.FieldEditIsDiscarded` | pkg/task/taskdisruptionforce.go:351-372 | a field set in a relaxed budget is discarded when the window closes |
| `ForeignEdits.EditsSurviveExceptRelaxedFields` | pkg/task/taskdisruptionforce.go:324-375 | over any run of ticks and foreign edits the budget is what its clients made of it, except fields edited while relaxed |
| `DisruptionTask.RunOnce` | pkg/task/taskdisruptionforce.go:107-154 | what one run leaves of every budget, in list order, with any foreign writes between its reads and writes |
| `DisruptionTask.IdleWorkloadsLeaveBudgets` | pkg/task/taskdisruptionforce.go:107-154 | workloads that do not block, are gone, have no budgets or do not select a budget leave it alone, whatever others write |
| `DisruptionTask.ReconcileAll` | pkg/task/taskdisruptionforce.go:141-153 | all matched budgets, and no others, are reconciled, in any order, under any foreign writes |
| `DisruptionTask.QuietRunAppliesStates` | pkg/task/taskdisruptionforce.go:107-154 | when first attempts are undisturbed, a run applies to a budget the states of its workloads one after the other |
| `DisruptionTask.LastWorkloadDecides` | pkg/task/taskdisruptionforce.go:107-154 | whatever happened before, a shared budget is relaxed after a run exactly when the last workload is well inside a window |
| `DisruptionTask.SharedBudgetIsSafeIff` | pkg/task/taskdisruptionforce.go:107-154 | over all runs and instants no workload has a shared budget relaxed outside its windows, exactly when all are inside throughout every period at whose ends the last one is |
| `DisruptionTask.SharedBudgetLeaks` | pkg/task/taskdisruptionforce.go:107-154 | a workload without windows has its budget relaxed because it shares it with one that has a daily window |
| `DisruptionTask.HasBlockingAnnotations` | pkg/task/taskdisruptionforce.go:211-223 | true exactly if safe-to-evict is false or one of the two others is true, whatever the case of letters |
| `DisruptionTask.ReconcileListedPod` | pkg/task/taskdisruptionforce.go:168-176 | a pod that neither blocks nor is marked is skipped, all others are reconciled |
| `DisruptionTask.ListedPodIsRestoredIff` | pkg/task/taskdisruptionforce.go:168-176 | through the loop a pod gets its annotations back exactly if it did not block or matched its template |
| `DisruptionTask.TaskAgreesWithWebhookIff` | pkg/handlers/controllerwebhookhandler.go:491-518 | webhook and pod loop strip alike exactly when there is nothing to strip or the pod blocks and is unmarked |
| `DisruptionTask.HarmlessAnnotationIsStripped` | pkg/handlers/controllerwebhookhandler.go:491-518 | a pod marked safe to evict is stripped by the webhook and left alone by the pod loop |
| `JsonPointer.UnescapeOfEscape` | pkg/handlers/controllerwebhookhandler.go:522-526 | decoding by section 4 of RFC 6901 undoes the escaping, for every string |
| `JsonPointer.EscapedHasNoSlash` | pkg/handlers/controllerwebhookhandler.go:522-526 | an escaped key stays one reference token |
| `JsonPointer.TokensOfPointer` | pkg/handlers/controllerwebhookhandler.go:491-526 | a pointer built from escaped tokens splits back into them |
| `JsonPatch.StepsBelow` | pkg/handlers/controllerwebhookhandler.go:314-464 | operations below a member change that member and nothing else |
| `JsonPatch.ApplyEmitted` | pkg/handlers/controllerwebhookhandler.go:314-464 | printed operations do what the steps they were printed from do |
| `JsonPatch.ApplyAllConcat` | pkg/handlers/controllerwebhookhandler.go:185-193 | a joined patch applies exactly if both parts apply in order |
| `Webhook.RecommendedLimitBytes` | pkg/handlers/controllerwebhookhandler.go:371-376 | at least 512 MB, twice the recommendation and twice the seven-day peak |
| `Webhook.PlanCoversDemand` | pkg/handlers/controllerwebhookhandler.go:361-460 | lower bounds of every written value against demand; a write needs memory to be enabled and off by more than 16 MB; DaemonSet requests never |
| `Webhook.MemoryPlanIs` | pkg/handlers/controllerwebhookhandler.go:361-460 | exactly when memory request and limit are written, for DaemonSets and others, and their values from usage, prediction, kill, seven-day peak and current limit |
| `Webhook.CpuPlanIs` | pkg/handlers/controllerwebhookhandler.go:394-407 | exactly when the CPU request is written, and its value: the larger of usage and prediction, in whole millicores between one and twenty thousand |
| `Webhook.AdjustedIs` | pkg/handlers/controllerwebhookhandler.go:324-460 | planned values are written, the CPU limit is gone, and every other request, limit and field stays |
| `Webhook.PlannedPairIsOrdered` | pkg/handlers/controllerwebhookhandler.go:409-460 | a written request comes with a limit that covers it; only DaemonSets get a limit alone |
| `Webhook.ValidityIsPreservedIff` | pkg/handlers/controllerwebhookhandler.go:409-460 | the exact inputs for which a valid container stays valid: a DaemonSet container whose limit is rewritten needs its request, in whole megabytes, within the current or recommended limit |
| `Webhook.WholeMegabyteLimitsAreSafe` | pkg/handlers/controllerwebhookhandler.go:411-425 | it does whenever the current limit is a whole number of megabytes |
| `Webhook.PrinterCanBreakDaemonSets` | pkg/handlers/controllerwebhookhandler.go:466-468 | the printer makes a valid DaemonSet container invalid: 600.5 MB becomes 600 MB |
| `WebhookPatches.PlansAreReplaceable` | pkg/handlers/controllerwebhookhandler.go:394-445 | a replaced request exists in the document |
| `WebhookPatches.ResourceStepsApply` | pkg/handlers/controllerwebhookhandler.go:324-460 | creating maps, removing the CPU limit and setting values apply in order and yield the adjusted resources |
| `WebhookPod.PodStepsApply` | pkg/handlers/controllerwebhookhandler.go:314-322 | steps for a container, printed with its path, change that container of the pod document and nothing else |
| `WebhookPod.ResourcePatchApplies` | pkg/handlers/controllerwebhookhandler.go:288-464 | the patch of any number of containers applies and yields exactly the planned adjustments |
| `WebhookPod.EveryContainerIsAdjusted` | pkg/handlers/controllerwebhookhandler.go:288-322 | every app and init container is adjusted by the plan for its own name; the rest of the pod stays |
| `WebhookPod.PatchedPodIsValidIff` | pkg/handlers/controllerwebhookhandler.go:288-464 | a valid pod stays valid exactly if each container's inputs satisfy that condition; always for other kinds |
| `WebhookGenerator.ContainerPathIsPointer` | pkg/handlers/controllerwebhookhandler.go:314-322 | the printed container path is the pointer to that container |
| `WebhookGenerator.ContainerPatch` | pkg/handlers/controllerwebhookhandler.go:324-460 | the strings appended for one container are the specified steps |
| `WebhookGenerator.AdjustResources` | pkg/handlers/controllerwebhookhandler.go:288-464 | the generated list applies to the pod it was computed from and yields the adjusted pod |
| `WebhookGenerator.BuildDisruptionAnnotationPatches` | pkg/handlers/controllerwebhookhandler.go:474-518 | for any key order the patch applies and strips; it is empty exactly when there is nothing to do |
| `WebhookGenerator.WebhookAgreesWithReconcilerIff` | pkg/handlers/controllerwebhookhandler.go:491-518 | webhook and reconciler strip alike exactly when the pod is unmarked or has nothing to strip |
| `WebhookGenerator.MarkedPodIsStripped` | pkg/handlers/controllerwebhookhandler.go:491-518 | a marked pod with a blocking annotation: only the webhook strips it |
| `WebhookGenerator.BuildMutatingPatches` | pkg/handlers/controllerwebhookhandler.go:185-193 | the combined patch applies, with both changes made and nothing else changed |
| `StatsPipeline.MergingKeepsMaxima` | pkg/task/utils/util.go:290-355 | in any order of samples: non-negative maxima, and the data flags are set exactly by plain CPU and memory samples |
| `StatsPipeline.MergedAreLargest` | pkg/task/utils/util.go:290-355 | each measure is the largest of its own plain samples, attained, and of no others |
| `StatsPipeline.AdjustedIsKeptApart` | pkg/task/utils/util.go:290-355 | pressure-adjusted usage is known exactly if an adjusted sample was seen, and is the largest of the CPU samples among them |
| `StatsPipeline.LastReplicasStand` | pkg/task/utils/util.go:290-355 | of several replica counts the last one stands |
| `StatsPipeline.MetricsRecord.Update` | pkg/task/utils/util.go:290-355 | one sample updates the record as specified |
| `StatsPipeline.BuildContainerStatFromCache` | pkg/task/utils/util.go:357-436 | exactly the measurable containers, in order; nothing if there is none |
| `StatsPipeline.MeasurablesAre` | pkg/task/utils/util.go:357-436 | the statistics are exactly those of the containers with CPU and memory data, each with its own metrics |
| `StatsPipeline.MeasurablesInOrder` | pkg/task/utils/util.go:357-436 | the order of the containers is kept |
| `StatsPipeline.HasCompleteSimplePredictions` | pkg/task/taskcreatestats.go:418-444 | true exactly if each non-init container has a record with both predictions |
| `StatsPipeline.PrepareStats` | pkg/task/taskcreatestats.go:227-348 | statistics are unmarked exactly when every non-init container is covered, and then nothing the strategy reads is nil |
| `StatsPipeline.GateMeansCovered` | pkg/task/taskcreatestats.go:418-444 | one record per name is enough, even if two containers shared a name |
| `StatsPipeline.GateIsExact` | pkg/task/taskcreatestats.go:329-332 | the gate passes exactly the fully covered workloads, and then every collected record is complete |
| `StatsPipeline.CollectedAre` | pkg/task/taskcreatestats.go:316-327 | each collected record holds the metrics and the predictions of its own container |
| `StatsPipeline.PassingPodsAreReady` | pkg/task/utils/recommendationapply.go:29-54 | a pod that passes the first check can be optimised without following a nil pointer |
| `TimeSeries.CollectMaxima` | pkg/task/utils/timeseriesprediction.go:83-90 | the map holds for each instant of the input the largest value, attained by a stream |
| `TimeSeries.CombineTimeSeriesByMax` | pkg/task/utils/timeseriesprediction.go:78-102 | strictly increasing instants, exactly those of the input, each with the maximum |
| `TimeSeries.CombinationIsUnique` | pkg/task/utils/timeseriesprediction.go:78-102 | the samples determine the result, whatever the visiting order |
| `TimeSeries.SortedPairs` | pkg/task/utils/timeseriesprediction.go:97-99 | sorting pairs of distinct instants makes them strictly increase |
| `TimeSeries.GroupStreams` | pkg/task/utils/timeseriesprediction.go:31-48 | streams of other kinds pass in order; each group holds exactly the ReplicaSet streams of its key; fails exactly on a name without a dash |
| `TimeSeries.KeyIsContainer` | pkg/task/utils/util.go:451-453 | streams have the same key exactly when they have the same workload and container |
| `TimeSeries.DeploymentOfReplicaSet` | pkg/task/utils/timeseriesprediction.go:36-43 | a Deployment is named like its ReplicaSet without the last dash and what follows |
| `TimeSeries.GroupIsDeployment` | pkg/task/utils/timeseriesprediction.go:31-48 | a ReplicaSet stream is grouped under exactly the container of its own Deployment |
| `TimeSeries.CombineReplicasetsToDeployments` | pkg/task/utils/timeseriesprediction.go:27-76 | exactly one stream per Deployment container with the pointwise maximum of its group, in any order of groups |
| `TimeSeries.CombinationIgnoresOrder` | pkg/task/utils/timeseriesprediction.go:27-76 | the series of a Deployment container does not depend on the order of the input |
| `AuditQueue.NewAudit` | pkg/audit/audit.go:38-50 | a new recorder holds as many events as asked for, or 5000 if that is not positive, has nothing queued, and satisfies the invariant |
| `AuditQueue.StepKeepsInv` | pkg/audit/audit.go:52-90 | every step of a caller or the worker keeps the invariant; none panics |
| `AuditQueue.QueueIsFaithful` | pkg/audit/audit.go:38-90 | in every interleaving: no panic, mutual exclusion, bounded queue, and accepted events are handed over, in flight or queued, in order |
| `AuditQueue.AcceptedIff` | pkg/audit/audit.go:62-74 | in every interleaving exactly the sends that find room add an event; a call drops its event only if it met a closed recorder or a full buffer |
| `AuditQueue.NothingAcceptedAfterClose` | pkg/audit/audit.go:62-90 | once the flag is set the accepted events never change |
| `AuditQueue.FirstCloseDrains` | pkg/audit/audit.go:77-90 | once the first Close returns every accepted event has been handed to the database exactly once, in order, for good |
| `AuditQueue.LaterCloseDrainsIff` | pkg/audit/audit.go:76-90 | from every state, closing a closed recorder drains it under every schedule exactly if it was drained before the call |
| `AuditQueue.ClosingAlone` | pkg/audit/audit.go:81-85 | with the mutex free, such a call can run to its end at once and leave every field as it was |
| `AuditQueue.SecondCloseReturnsEarly` | pkg/audit/audit.go:76-90 | a run in which a second Close has returned, the first still waiting, with the one accepted event unwritten |
| `AuditQueue.LockIsNeverHeldWhileWaiting` | pkg/audit/audit.go:61-74 | whoever holds the mutex can always move, so Record never waits for the database |
| `AuditQueue.StepsRunOut` | pkg/audit/audit.go:52-90 | without new calls each step lowers a bound |
| `AuditQueue.QuietMeansFinished` | pkg/audit/audit.go:52-90 | when nobody can move, all calls have returned, nothing is unwritten, and the worker is gone exactly if closed |
| `AuditQueue.EveryCallReturns` | pkg/audit/audit.go:52-90 | under every schedule only boundedly many steps follow, and then every call has returned |

## Left out

- Kubernetes, Prometheus, database, HTTP, logging, metrics and error-reporting calls: foreign input and output. The API
  server appears only as the versioned store of `DisruptionTask`.
- Floating point: reals stand for Go floats, so overflow, NaN and accumulated rounding errors are not modelled; nor is
  the range of int64 and int32.
- The cron parser: a schedule is its `Next` function. Schedules that never fire again (a zero `Next`) are not modelled.
  `CronText` knows white space of the ASCII and Latin-1 range only.
- `strings.EqualFold` is modelled on ASCII letters, which is what Kubernetes names consist of.
- The number parser behind `intstr.Parse`: unbounded integers, an optional sign and digits.
- Quantity texts: quantities in documents are numbers of thousandths; parsing and canonical printing of units are not
  modelled, except the printers of whole millicores and whole megabytes.
- Several nodes at once: one node is modelled, and the filter takes the optimizable pods of all nodes as a parameter. A
  pod that moves between two reads is not modelled.
- Recommendation rows, snapshots, audit payloads, excluded codes, metadata, replicas, GPU and autoscaler detection and
  the assignment of eviction rankings: copying and formatting, or detection in foreign objects.
- The simple time-series prediction (a maximum over the last week) and ML predictions: only their presence and maxima
  are read.
- The checks before the webhook generates patches (kill switch, lookups of statistics): straight branching on foreign
  state.
- The pod and container label selectors that decide which budgets match a workload: the set of matching names is given.
- Pod updates are written without retry; a failed write leaves the pod as it was, and the next run sees it again.
- Dashboards, price tables, the scheduler, the version cache and configuration loading: easy next to the above.
- Workloads.FindStats and Workloads.FindResource: the error texts of failed lookups are dropped; absence is `None`.
- AuditQueue.EveryCallReturns: needs no fairness because it bounds all schedules, but database calls are assumed to
  return.
