/** One node of the apply task: partition, budget, both optimisations and the records to apply. */
module ApplyTask {
  import opened Prelude
  import opened Sequences
  import opened Workloads
  import opened Eviction
  import opened Allocator
  import opened ApplyGates
  import opened Recommendations
  import NodeBudget

  function RequestedBy(r: Resource): PodInfo -> real {
    (p: PodInfo) => match r case CPU => p.requestedCPU case Memory => p.requestedMemory
  }

  /** Complete statistics hold everything the allocator reads, and only for non-init containers. */
  predicate CompleteStats(s: WorkloadStat) {
    forall c :: c in s.containerStats ==> c.containerType != InitContainer && Dereferenceable(c)
  }

  /** Statistics that are not marked incomplete are complete; the statistics pipeline guarantees it. */
  predicate Gated(pods: seq<PodInfo>) {
    forall p :: p in pods && p.stats.Some? && !p.stats.value.incomplete ==> CompleteStats(p.stats.value)
  }

  lemma ClassifiedPodsAreReady(c: PodClass, pods: seq<PodInfo>, overrides: Overrides, input: ApplyCheckInput)
    requires Gated(pods) && c != NonOptimizable
    ensures AllReady(PodsOf(c, pods, overrides, input))
    ensures forall p :: p in PodsOf(c, pods, overrides, input) ==>
              p in pods && p.stats.Some? && CompleteStats(p.stats.value)
  {
  }

  datatype NodeInfo = NodeInfo(allocatableCPU: real, allocatableMemory: real, pods: seq<PodInfo>)

  function Allocatable(r: Resource, node: NodeInfo): real {
    match r case CPU => node.allocatableCPU case Memory => node.allocatableMemory
  }

  function AvailableToSave(r: Resource, node: NodeInfo, overrides: Overrides, input: ApplyCheckInput): real {
    Allocatable(r, node) - SumOf(RequestedBy(r), PodsOf(NonOptimizable, node.pods, overrides, input))
  }

  /** What is left for the optimizable pods. */
  function Available(r: Resource, node: NodeInfo, overrides: Overrides, input: ApplyCheckInput): real {
    AvailableToSave(r, node, overrides, input)
    - SumOf(RequestedBy(r), PodsOf(OptimizableButExcluded, node.pods, overrides, input))
  }

  lemma ClassRequestsPush(r: Resource, c: PodClass, pods: seq<PodInfo>, p: PodInfo, overrides: Overrides,
                          input: ApplyCheckInput)
    ensures SumOf(RequestedBy(r), PodsOf(c, pods + [p], overrides, input)) ==
            SumOf(RequestedBy(r), PodsOf(c, pods, overrides, input)) +
            if ClassOf(p, overrides, input) == c then RequestedBy(r)(p) else 0.0
  {
    var before := PodsOf(c, pods, overrides, input);
    assert (pods + [p])[..|pods|] == pods && (pods + [p])[..|pods| + 1] == pods + [p];
    PodsOfPush(c, pods + [p], |pods|, overrides, input);
    SumPush(RequestedBy(r), before, p);
    assert before + [] == before;
  }

  /** What one more pod takes from the two budgets of its node: a non-optimizable one its requests from both, an
      excluded one its requests from what is applied, an optimizable one nothing. */
  lemma EachPodTakesItsRequests(node: NodeInfo, p: PodInfo, overrides: Overrides, input: ApplyCheckInput)
    ensures var more := node.(pods := node.pods + [p]);
            var fixed, excluded := ClassOf(p, overrides, input) == NonOptimizable,
                ClassOf(p, overrides, input) == OptimizableButExcluded;
      && AvailableToSave(CPU, more, overrides, input) ==
         AvailableToSave(CPU, node, overrides, input) - (if fixed then p.requestedCPU else 0.0)
      && AvailableToSave(Memory, more, overrides, input) ==
         AvailableToSave(Memory, node, overrides, input) - (if fixed then p.requestedMemory else 0.0)
      && Available(CPU, more, overrides, input) ==
         Available(CPU, node, overrides, input) - (if fixed || excluded then p.requestedCPU else 0.0)
      && Available(Memory, more, overrides, input) ==
         Available(Memory, node, overrides, input) - (if fixed || excluded then p.requestedMemory else 0.0)
  {
    forall r, c ensures SumOf(RequestedBy(r), PodsOf(c, node.pods + [p], overrides, input)) ==
                        SumOf(RequestedBy(r), PodsOf(c, node.pods, overrides, input)) +
                        if ClassOf(p, overrides, input) == c then RequestedBy(r)(p) else 0.0
    {
      ClassRequestsPush(r, c, node.pods, p, overrides, input);
    }
  }

  /** An empty node offers all it has. */
  lemma EmptyNodeOffersAll(node: NodeInfo, overrides: Overrides, input: ApplyCheckInput)
    requires node.pods == []
    ensures Available(CPU, node, overrides, input) == AvailableToSave(CPU, node, overrides, input) ==
            node.allocatableCPU
    ensures Available(Memory, node, overrides, input) == AvailableToSave(Memory, node, overrides, input) ==
            node.allocatableMemory
  {
  }

  // ---------------------------------------------------------------- records of the pods that are not optimised

  /** A non-optimizable pod keeps its current requests. */
  function CurrentRecords(p: PodInfo, cs: seq<ContainerResources>): seq<Recommendation> {
    if cs == [] then [] else
      CurrentRecords(p, cs[..|cs| - 1]) +
      [Recommendation(p, cs[|cs| - 1].name, cs[|cs| - 1].cpuRequest, cs[|cs| - 1].memoryRequest, false)]
  }

  /** An excluded pod is shown its predicted peak. */
  function PeakOf(p: PodInfo, c: ContainerResources): seq<Recommendation>
    requires p.stats.Some? && CompleteStats(p.stats.value)
  {
    var stat := FindStats(p.stats.value.containerStats, c.name);
    if stat.None? then [] else
      var cpu, memory := RecommendedAndRestCPU(stat.value), RecommendedAndRestMemory(stat.value);
      [Recommendation(p, c.name, cpu.0 + cpu.1, memory.0 + memory.1, false)]
  }

  function PeakRecords(p: PodInfo, cs: seq<ContainerResources>): seq<Recommendation>
    requires p.stats.Some? && CompleteStats(p.stats.value)
  {
    if cs == [] then [] else PeakRecords(p, cs[..|cs| - 1]) + PeakOf(p, cs[|cs| - 1])
  }

  function DefaultRecords(pods: seq<PodInfo>): seq<Recommendation> {
    if pods == [] then [] else
      DefaultRecords(pods[..|pods| - 1]) + CurrentRecords(pods[|pods| - 1], pods[|pods| - 1].containers)
  }

  predicate AllComplete(pods: seq<PodInfo>) {
    forall p :: p in pods ==> p.stats.Some? && CompleteStats(p.stats.value)
  }

  function ExcludedRecords(pods: seq<PodInfo>): seq<Recommendation>
    requires AllComplete(pods)
  {
    if pods == [] then [] else
      var p := pods[|pods| - 1];
      assert p in pods;
      ExcludedRecords(pods[..|pods| - 1]) + PeakRecords(p, p.containers)
  }

  method AppendCurrentRecords(p: PodInfo, before: seq<Recommendation>) returns (recs: seq<Recommendation>)
    ensures recs == before + CurrentRecords(p, p.containers)
  {
    recs := before;
    for i := 0 to |p.containers|
      invariant recs == before + CurrentRecords(p, p.containers[..i])
    {
      assert p.containers[..i + 1][..i] == p.containers[..i];
      var c := p.containers[i];
      recs := recs + [Recommendation(p, c.name, c.cpuRequest, c.memoryRequest, false)];
    }
    assert p.containers[..|p.containers|] == p.containers;
  }

  method PeakRecord(p: PodInfo, c: ContainerResources) returns (recs: seq<Recommendation>)
    requires p.stats.Some? && CompleteStats(p.stats.value)
    ensures recs == PeakOf(p, c)
  {
    var stat := FindStats(p.stats.value.containerStats, c.name);
    if stat.None? { return []; }
    var cpu, memory := RecommendedAndRestCPU(stat.value), RecommendedAndRestMemory(stat.value);
    return [Recommendation(p, c.name, cpu.0 + cpu.1, memory.0 + memory.1, false)];
  }

  lemma PeakRecordsPush(p: PodInfo, cs: seq<ContainerResources>, i: nat)
    requires p.stats.Some? && CompleteStats(p.stats.value) && i < |cs|
    ensures PeakRecords(p, cs[..i + 1]) == PeakRecords(p, cs[..i]) + PeakOf(p, cs[i])
  {
    assert cs[..i + 1][..i] == cs[..i];
  }

  method AppendPeakRecords(p: PodInfo, before: seq<Recommendation>) returns (recs: seq<Recommendation>)
    requires p.stats.Some? && CompleteStats(p.stats.value)
    ensures recs == before + PeakRecords(p, p.containers)
  {
    recs := before;
    for i := 0 to |p.containers|
      invariant recs == before + PeakRecords(p, p.containers[..i])
    {
      PeakRecordsPush(p, p.containers, i);
      var more := PeakRecord(p, p.containers[i]);
      recs := recs + more;
    }
    assert p.containers[..|p.containers|] == p.containers;
  }

  method CollectDefaultRecords(pods: seq<PodInfo>) returns (recs: seq<Recommendation>)
    ensures recs == DefaultRecords(pods)
  {
    recs := [];
    for i := 0 to |pods|
      invariant recs == DefaultRecords(pods[..i])
    {
      assert pods[..i + 1][..i] == pods[..i];
      recs := AppendCurrentRecords(pods[i], recs);
    }
    assert pods[..|pods|] == pods;
  }

  method CollectExcludedRecords(pods: seq<PodInfo>) returns (recs: seq<Recommendation>)
    requires AllComplete(pods)
    ensures recs == ExcludedRecords(pods)
  {
    recs := [];
    for i := 0 to |pods|
      invariant recs == ExcludedRecords(pods[..i])
    {
      assert pods[..i + 1][..i] == pods[..i] && pods[i] in pods;
      recs := AppendPeakRecords(pods[i], recs);
    }
    assert pods[..|pods|] == pods;
  }

  /** These records never evict and belong to the pods they were made for. */
  lemma {:induction false} UnoptimizedRecordsShape(pods: seq<PodInfo>)
    ensures forall rec :: rec in DefaultRecords(pods) ==> rec.pod in pods && !rec.evict
    ensures AllComplete(pods) ==> forall rec :: rec in ExcludedRecords(pods) ==> rec.pod in pods && !rec.evict
  {
    if pods != [] {
      var last, init := pods[|pods| - 1], pods[..|pods| - 1];
      UnoptimizedRecordsShape(init);
      CurrentRecordsShape(last, last.containers);
      assert last in pods;
      if AllComplete(pods) { PeakRecordsShape(last, last.containers); }
    }
  }

  lemma {:induction false} CurrentRecordsShape(p: PodInfo, cs: seq<ContainerResources>)
    ensures forall rec :: rec in CurrentRecords(p, cs) ==> rec.pod == p && !rec.evict
  {
    if cs != [] { CurrentRecordsShape(p, cs[..|cs| - 1]); }
  }

  lemma {:induction false} PeakRecordsShape(p: PodInfo, cs: seq<ContainerResources>)
    requires p.stats.Some? && CompleteStats(p.stats.value)
    ensures forall rec :: rec in PeakRecords(p, cs) ==> rec.pod == p && !rec.evict
  {
    if cs != [] { PeakRecordsShape(p, cs[..|cs| - 1]); }
  }

  /** A non-optimizable pod has one record per container, in order, with the current requests. */
  lemma {:induction false} CurrentRecordsAre(p: PodInfo, cs: seq<ContainerResources>, i: nat)
    ensures |CurrentRecords(p, cs)| == |cs|
    ensures i < |cs| ==>
              CurrentRecords(p, cs)[i] ==
              Recommendation(p, cs[i].name, cs[i].cpuRequest, cs[i].memoryRequest, false)
  {
    if cs != [] { CurrentRecordsAre(p, cs[..|cs| - 1], i); }
  }

  /** The predicted peak of a container, unless an out-of-memory kill above its usage replaces it. */
  predicate IsShownPeak(p: PodInfo, name: string, c: ContainerStats, rec: Recommendation)
    requires Dereferenceable(c)
  {
    var p75, oom := c.memory.value.p75, c.memory.value.oomMemory;
    rec.pod == p && rec.containerName == name && !rec.evict &&
    rec.cpu == Max(c.predictedCPU.value, if c.psiAdjustedP75.Some? then c.psiAdjustedP75.value else c.cpuP75.value) &&
    rec.memory == if oom > 0.0 && oom > p75 then oom else Max(c.predictedMemory.value, p75)
  }

  /** A record for this container, which has statistics. */
  predicate ShowsPeak(p: PodInfo, c: ContainerResources, rec: Recommendation)
    requires p.stats.Some? && CompleteStats(p.stats.value)
  {
    var stat := FindStats(p.stats.value.containerStats, c.name);
    stat.Some? && IsShownPeak(p, c.name, stat.value, rec)
  }

  lemma PeakOfIs(p: PodInfo, c: ContainerResources)
    requires p.stats.Some? && CompleteStats(p.stats.value)
    ensures if HasStats(p)(c) then |PeakOf(p, c)| == 1 && ShowsPeak(p, c, PeakOf(p, c)[0]) else PeakOf(p, c) == []
  {
  }

  lemma WithStatsPush(p: PodInfo, init: seq<ContainerResources>, last: ContainerResources)
    requires p.stats.Some?
    ensures HasStats(p)(last) ==> WithStats(p, init + [last]) == WithStats(p, init) + [last]
    ensures !HasStats(p)(last) ==> WithStats(p, init + [last]) == WithStats(p, init)
  {
    SelectConcat(HasStats(p), init, [last], true);
  }

  /** An excluded pod has one record per container with statistics, in order, with its peak. */
  lemma {:induction false} PeakRecordsAre(p: PodInfo, cs: seq<ContainerResources>)
    requires p.stats.Some? && CompleteStats(p.stats.value)
    ensures |PeakRecords(p, cs)| == |WithStats(p, cs)|
    ensures forall i :: 0 <= i < |WithStats(p, cs)| ==> ShowsPeak(p, WithStats(p, cs)[i], PeakRecords(p, cs)[i])
  {
    if cs != [] {
      var init, last := cs[..|cs| - 1], cs[|cs| - 1];
      PeakRecordsAre(p, init);
      assert cs == init + [last];
      WithStatsPush(p, init, last);
      PeakOfIs(p, last);
      assert PeakRecords(p, cs) == PeakRecords(p, init) + PeakOf(p, last);
    }
  }

  function HasStats(p: PodInfo): ContainerResources -> bool
    requires p.stats.Some?
  {
    (c: ContainerResources) => FindStats(p.stats.value.containerStats, c.name).Some?
  }

  /** The containers with statistics. */
  function WithStats(p: PodInfo, cs: seq<ContainerResources>): seq<ContainerResources>
    requires p.stats.Some?
  {
    Select(HasStats(p), cs, true)
  }

  method Subtract(r: Resource, available: real, pods: seq<PodInfo>) returns (left: real)
    ensures left == available - SumOf(RequestedBy(r), pods)
  {
    left := available;
    for i := 0 to |pods|
      invariant left == available - SumOf(RequestedBy(r), pods[..i])
    {
      assert pods[..i + 1] == pods[..i] + [pods[i]];
      SumPush(RequestedBy(r), pods[..i], pods[i]);
      left := left - RequestedBy(r)(pods[i]);
    }
    assert pods[..|pods|] == pods;
  }

  // ---------------------------------------------------------------- one node

  datatype NodeResult = NodeResult(
    toApply: seq<Recommendation>, toSave: seq<Recommendation>, optimizable: seq<PodInfo>)

  /** OptimizeNode decides `a` for these pods and budgets. */
  ghost predicate Allocates(pods: seq<PodInfo>, overrides: Overrides, cpu: real, memory: real, a: Allocation) {
    AllReady(pods) && IsAllocation(pods, overrides, cpu, memory, a) &&
    AllReady(a.memoryEvicted) && AllReady(a.cpuEvicted) && AllReady(a.survivors)
  }

  /** And returns the records `recs`. */
  ghost predicate Optimizes(pods: seq<PodInfo>, overrides: Overrides, cpu: real, memory: real,
                            a: Allocation, recs: seq<Recommendation>)
  {
    Allocates(pods, overrides, cpu, memory, a) && recs == AllRecords(a)
  }

  method Optimize(pods: seq<PodInfo>, overrides: Overrides, cpu: real, memory: real)
    returns (recs: seq<Recommendation>, ghost a: Allocation)
    requires AllReady(pods)
    ensures Optimizes(pods, overrides, cpu, memory, a, recs)
  {
    var input := new PodInfo[|pods|](i requires 0 <= i < |pods| => pods[i]);
    assert input[..] == pods;
    var result;
    result, a := OptimizeNode(input, overrides, cpu, memory);
    recs := result.recommendations;
  }

  /** The node loop body. What to save is computed as if the excluded pods could be optimised too; what
      to apply only for the optimizable pods, within what all other pods leave over. */
  method ProcessNode(node: NodeInfo, overrides: Overrides, input: ApplyCheckInput)
    returns (result: NodeResult, ghost saved: Allocation, ghost applied: Allocation,
             ghost savedRecs: seq<Recommendation>, ghost appliedRecs: seq<Recommendation>)
    requires Gated(node.pods)
    ensures result.optimizable == PodsOf(Optimizable, node.pods, overrides, input)
    ensures AllComplete(PodsOf(OptimizableButExcluded, node.pods, overrides, input))
    ensures result.toSave == DefaultRecords(PodsOf(NonOptimizable, node.pods, overrides, input)) + savedRecs
    ensures result.toApply == DefaultRecords(PodsOf(NonOptimizable, node.pods, overrides, input)) +
                              ExcludedRecords(PodsOf(OptimizableButExcluded, node.pods, overrides, input)) +
                              appliedRecs
    ensures Optimizes(result.optimizable + PodsOf(OptimizableButExcluded, node.pods, overrides, input), overrides,
                      AvailableToSave(CPU, node, overrides, input), AvailableToSave(Memory, node, overrides, input),
                      saved, savedRecs)
    ensures Optimizes(result.optimizable, overrides,
                      Available(CPU, node, overrides, input), Available(Memory, node, overrides, input),
                      applied, appliedRecs)
  {
    var optimizable, excluded, untouchable := SegregatePods(node.pods, overrides, input);
    ClassifiedPodsAreReady(Optimizable, node.pods, overrides, input);
    ClassifiedPodsAreReady(OptimizableButExcluded, node.pods, overrides, input);
    var availableCPU := Subtract(CPU, node.allocatableCPU, untouchable);
    var availableMemory := Subtract(Memory, node.allocatableMemory, untouchable);
    assert availableCPU == AvailableToSave(CPU, node, overrides, input);
    assert availableMemory == AvailableToSave(Memory, node, overrides, input);
    var defaults := CollectDefaultRecords(untouchable);
    var toSave;
    toSave, saved := Optimize(optimizable + excluded, overrides, availableCPU, availableMemory);
    var peaks := CollectExcludedRecords(excluded);
    availableMemory := Subtract(Memory, availableMemory, excluded);
    availableCPU := Subtract(CPU, availableCPU, excluded);
    assert availableCPU == Available(CPU, node, overrides, input);
    assert availableMemory == Available(Memory, node, overrides, input);
    var toApply;
    toApply, applied := Optimize(optimizable, overrides, availableCPU, availableMemory);
    result := NodeResult(defaults + peaks + toApply, defaults + toSave, optimizable);
    savedRecs, appliedRecs := toSave, toApply;
  }

  // ---------------------------------------------------------------- the node budget

  /** The whole node: requests of the pods that cannot or must not be touched, plus everything
      recommended for the survivors, stay within the node; rounding adds at most one floor each. */
  lemma NodeStaysWithinAllocatable(r: Resource, node: NodeInfo, overrides: Overrides, input: ApplyCheckInput,
                                   a: Allocation, stay: PodInfo)
    requires Gated(node.pods) && DistinctKeys(node.pods)
    requires forall p :: p in node.pods ==> (p.stats.Some? ==> Measured(p)) && NonNegativeRequests(p)
    requires Allocates(PodsOf(Optimizable, node.pods, overrides, input), overrides,
                       Available(CPU, node, overrides, input), Available(Memory, node, overrides, input), a)
    requires stay in a.survivors
    requires Evictable(CacheOf(PodsOf(Optimizable, node.pods, overrides, input), overrides))(stay)
    ensures var recs := SurvivorRecords(Slots(a.survivors), Slots(a.survivors));
            var fixed := SumOf(RequestedBy(r), PodsOf(NonOptimizable, node.pods, overrides, input)) +
                         SumOf(RequestedBy(r), PodsOf(OptimizableButExcluded, node.pods, overrides, input));
            fixed + SumOf(Recommended(r), recs) <= Allocatable(r, node) &&
            fixed + SumOf(RequestOf(r), recs) <= Allocatable(r, node) + Slack(r) * |recs| as real
  {
    var pods := PodsOf(Optimizable, node.pods, overrides, input);
    SelectKeepsDistinct(HasClass(Optimizable, overrides, input), node.pods);
    NodeBudget.AllocationWithinBudget(r, pods, overrides, Available(CPU, node, overrides, input),
                                      Available(Memory, node, overrides, input), a, stay);
    RequestsWithinBudget(r, pods, overrides, Available(CPU, node, overrides, input),
                         Available(Memory, node, overrides, input), a, stay);
  }

  lemma PodsOfOne(c: PodClass, p: PodInfo, overrides: Overrides, input: ApplyCheckInput)
    ensures PodsOf(c, [p], overrides, input) == if ClassOf(p, overrides, input) == c then [p] else []
  {
    PodsOfPush(c, [p], 0, overrides, input);
    assert [p][..0] == [] && [p][..1] == [p];
  }

  lemma FitsAlone(r: Resource, p: PodInfo, overrides: Overrides)
    requires Ready(p)
    ensures MetricsFor(CacheOf([p], overrides), p) == PodMetricsOf(p, overrides)
    ensures var m := PodMetricsOf(p, overrides);
            Fits(r, CacheOf([p], overrides), Total(r, m) + Headroom(r, m), [p])
  {
    assert [p][..0] == [];
    assert CacheOf([p], overrides) == map[KeyOf(p) := PodMetricsOf(p, overrides)];
  }

  lemma PhaseKeepsAll(r: Resource, cache: Cache, budget: real, p: PodInfo)
    requires Fits(r, cache, budget, [p])
    ensures IsPhase(r, cache, budget, [p], [p], [p], [])
  {
    assert FitsIn(r, cache, budget)([p]);
    assert Kept(Evictable(cache), [p], 0) == [p];
  }

  /** A node that offers exactly what its one optimizable pod demands, next to whatever else it runs, keeps that pod;
      the pod could have been evicted unless it is protected. */
  lemma RoomForOne(pods: seq<PodInfo>, p: PodInfo, overrides: Overrides, input: ApplyCheckInput)
    returns (node: NodeInfo, a: Allocation)
    requires PodsOf(Optimizable, pods, overrides, input) == [p] && p.stats.Some? && CompleteStats(p.stats.value)
    ensures node.pods == pods && a.survivors == [p] && Evicted(a) == []
    ensures Allocates(PodsOf(Optimizable, node.pods, overrides, input), overrides,
                      Available(CPU, node, overrides, input), Available(Memory, node, overrides, input), a)
    ensures Evictable(CacheOf([p], overrides))(p) <==> !IsEvictionExcluded(p, EvictionRanking(p, overrides))
  {
    var m := PodMetricsOf(p, overrides);
    var cpu, memory := Total(CPU, m) + Headroom(CPU, m), Total(Memory, m) + Headroom(Memory, m);
    node := NodeInfo(cpu, memory, pods);
    node := NodeInfo(cpu + (cpu - Available(CPU, node, overrides, input)),
                     memory + (memory - Available(Memory, node, overrides, input)), pods);
    assert Available(CPU, node, overrides, input) == cpu && Available(Memory, node, overrides, input) == memory;
    a := Allocation([p], [p], [], [p], [p], []);
    FitsAlone(CPU, p, overrides);
    FitsAlone(Memory, p, overrides);
    PhaseKeepsAll(CPU, CacheOf([p], overrides), cpu, p);
    PhaseKeepsAll(Memory, CacheOf([p], overrides), memory, p);
  }
}
