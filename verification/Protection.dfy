/** Which pods the strategy can never evict, and why running it again changes nothing. */
module Protection {
  import opened Prelude
  import opened Sequences
  import opened Workloads
  import opened Eviction
  import opened Allocator

  // ---------------------------------------------------------------- allocations exist

  lemma SomePhase(r: Resource, cache: Cache, budget: real, pods: seq<PodInfo>)
    returns (order: seq<PodInfo>, kept: seq<PodInfo>, evicted: seq<PodInfo>)
    ensures IsPhase(r, cache, budget, pods, order, kept, evicted)
  {
    EvictBeforeIsStrictWeakOrder(r, cache);
    order := SortedOf(EvictBefore(r, cache), pods);
    var outcome := Scan(Evictable(cache), FitsIn(r, cache, budget), order, 0, []);
    ScanIsLeastRemoval(Evictable(cache), FitsIn(r, cache, budget), order);
    kept, evicted := outcome.0, outcome.1;
  }

  /** For all pods and budgets there is an outcome. */
  lemma SomeAllocation(pods: seq<PodInfo>, overrides: Overrides, cpu: real, memory: real) returns (a: Allocation)
    requires AllReady(pods)
    ensures IsAllocation(pods, overrides, cpu, memory, a)
  {
    var cache := CacheOf(pods, overrides);
    var memoryOrder, memoryKept, memoryEvicted := SomePhase(Memory, cache, memory, pods);
    var cpuOrder, survivors, cpuEvicted := SomePhase(CPU, cache, cpu, memoryKept);
    a := Allocation(memoryOrder, memoryKept, memoryEvicted, cpuOrder, survivors, cpuEvicted);
  }

  // ---------------------------------------------------------------- protection

  /** No outcome evicts the pod, whatever is left to give. */
  ghost predicate SafeFromEviction(pods: seq<PodInfo>, overrides: Overrides, p: PodInfo)
    requires AllReady(pods)
  {
    forall cpu, memory, a :: cpu >= 0.0 && memory >= 0.0 && IsAllocation(pods, overrides, cpu, memory, a) ==>
      p !in Evicted(a)
  }

  /** Whoever is evicted was evictable. */
  lemma EvictedAreEvictable(pods: seq<PodInfo>, overrides: Overrides, cpu: real, memory: real, a: Allocation,
                            p: PodInfo)
    requires AllReady(pods) && IsAllocation(pods, overrides, cpu, memory, a) && p in Evicted(a)
    ensures Evictable(CacheOf(pods, overrides))(p)
  {
    var f := Evictable(CacheOf(pods, overrides));
    if p in a.memoryEvicted {
      assert p in Select(f, a.memoryOrder, true);
    } else {
      assert p in Select(f, a.cpuOrder, true);
    }
  }

  /** The pods nobody may evict. */
  function Protected(pods: seq<PodInfo>, overrides: Overrides): seq<PodInfo>
    requires AllReady(pods)
  {
    Select(Evictable(CacheOf(pods, overrides)), pods, false)
  }

  /** As long as an evictable pod survives, it survives together with all protected ones. */
  lemma SurvivesWithProtected(pods: seq<PodInfo>, overrides: Overrides, cpu: real, memory: real, a: Allocation,
                              p: PodInfo)
    requires AllReady(pods) && IsAllocation(pods, overrides, cpu, memory, a)
    requires p in a.survivors && Evictable(CacheOf(pods, overrides))(p)
    ensures multiset(Protected(pods, overrides) + [p]) <= multiset(a.survivors)
  {
    var f, crowd := Evictable(CacheOf(pods, overrides)), Protected(pods, overrides);
    AllocationConserves(pods, overrides, cpu, memory, a);
    SelectIsPart(f, pods, false);
    forall x ensures multiset(crowd + [p])[x] <= multiset(a.survivors)[x] {
      if x in crowd {
        assert !f(x);
        if x in Evicted(a) { EvictedAreEvictable(pods, overrides, cpu, memory, a, x); }
        assert x !in Evicted(a) && multiset(Evicted(a))[x] == 0;
        assert multiset(a.survivors)[x] + multiset(Evicted(a))[x] == multiset(pods)[x];
        assert x != p;
      } else {
        assert multiset(crowd)[x] == 0;
      }
    }
  }

  /** A pod that may be evicted is evicted by every outcome in which it does not fit next to the protected pods. */
  lemma CrowdedOutIsEvicted(r: Resource, pods: seq<PodInfo>, overrides: Overrides, cpu: real, memory: real,
                            a: Allocation, p: PodInfo)
    requires AllReady(pods) && IsAllocation(pods, overrides, cpu, memory, a)
    requires p in pods && Evictable(CacheOf(pods, overrides))(p)
    requires !Fits(r, CacheOf(pods, overrides), if r.CPU? then cpu else memory, Protected(pods, overrides) + [p])
    ensures p in Evicted(a)
  {
    var cache, budget := CacheOf(pods, overrides), if r.CPU? then cpu else memory;
    AllocationConserves(pods, overrides, cpu, memory, a);
    assert p in multiset(pods);
    assert p in multiset(a.survivors) + multiset(Evicted(a));
    if p in a.survivors {
      SurvivesWithProtected(pods, overrides, cpu, memory, a, p);
      AllocationFits(r, pods, overrides, cpu, memory, a);
      CacheIsSane(pods, overrides);
      FitIsMonotone(r, cache, budget, Protected(pods, overrides) + [p], a.survivors);
      assert false;
    }
  }

  /** In particular when it alone, with its headroom, demands more than there is. */
  lemma TooLargeIsEvicted(r: Resource, pods: seq<PodInfo>, overrides: Overrides, cpu: real, memory: real, a: Allocation,
                          p: PodInfo)
    requires AllReady(pods) && DistinctKeys(pods) && IsAllocation(pods, overrides, cpu, memory, a)
    requires p in pods && Evictable(CacheOf(pods, overrides))(p)
    requires Demanded(r, p, overrides) > if r.CPU? then cpu else memory
    ensures p in Evicted(a)
  {
    var cache, crowd := CacheOf(pods, overrides), Protected(pods, overrides);
    CacheIsExact(pods, overrides, p);
    CacheIsSane(pods, overrides);
    SumNonNegative(TotalOf(r, cache), crowd);
    SumPush(TotalOf(r, cache), crowd, p);
    MaxPush(HeadroomOf(r, cache), crowd, p);
    CrowdedOutIsEvicted(r, pods, overrides, cpu, memory, a, p);
  }

  /** Base demand and headroom of a pod. */
  function Demanded(r: Resource, p: PodInfo, overrides: Overrides): real
    requires Ready(p)
  {
    Total(r, PodMetricsOf(p, overrides)) + Headroom(r, PodMetricsOf(p, overrides))
  }

  /** Constraints were recorded for the workload, and it is annotated, a DaemonSet or ranked "no eviction". */
  predicate IsProtected(p: PodInfo, overrides: Overrides)
    requires p.stats.Some?
  {
    p.stats.value.constraints.Some? &&
    (p.stats.value.constraints.value.excludedAnnotation || IsDaemonSet(p) ||
     EvictionRanking(p, overrides) == RANKING_DISABLED)
  }

  lemma ProtectedIsNotEvicted(pods: seq<PodInfo>, overrides: Overrides, cpu: real, memory: real, a: Allocation,
                              p: PodInfo)
    requires AllReady(pods) && DistinctKeys(pods) && IsAllocation(pods, overrides, cpu, memory, a)
    requires p in pods && IsProtected(p, overrides)
    ensures p !in Evicted(a)
  {
    CacheIsExact(pods, overrides, p);
    if p in Evicted(a) { EvictedAreEvictable(pods, overrides, cpu, memory, a, p); }
  }

  /** A protected pod is safe from the strategy under all budgets; any other pod that demands anything at all is evicted
      by every outcome for some budgets, all of them non-negative. */
  lemma SafeFromEvictionIff(pods: seq<PodInfo>, overrides: Overrides, p: PodInfo)
    requires AllReady(pods) && DistinctKeys(pods) && p in pods
    ensures IsProtected(p, overrides) ==> SafeFromEviction(pods, overrides, p)
    ensures Demanded(CPU, p, overrides) > 0.0 || Demanded(Memory, p, overrides) > 0.0 ==>
              (SafeFromEviction(pods, overrides, p) <==> IsProtected(p, overrides))
  {
    CacheIsExact(pods, overrides, p);
    if IsProtected(p, overrides) {
      forall cpu, memory, a | IsAllocation(pods, overrides, cpu, memory, a) ensures p !in Evicted(a) {
        ProtectedIsNotEvicted(pods, overrides, cpu, memory, a, p);
      }
    } else if Demanded(CPU, p, overrides) > 0.0 {
      var a := SomeAllocation(pods, overrides, 0.0, 0.0);
      TooLargeIsEvicted(CPU, pods, overrides, 0.0, 0.0, a, p);
    } else if Demanded(Memory, p, overrides) > 0.0 {
      var a := SomeAllocation(pods, overrides, 0.0, 0.0);
      TooLargeIsEvicted(Memory, pods, overrides, 0.0, 0.0, a, p);
    }
  }

  /** The documentation protects every DaemonSet. It is protected exactly when constraints were recorded. */
  lemma DaemonSetIsSafeIff(pods: seq<PodInfo>, overrides: Overrides, p: PodInfo)
    requires AllReady(pods) && DistinctKeys(pods) && p in pods && IsDaemonSet(p)
    requires Demanded(CPU, p, overrides) > 0.0 || Demanded(Memory, p, overrides) > 0.0
    ensures SafeFromEviction(pods, overrides, p) <==> p.stats.value.constraints.Some?
  {
    SafeFromEvictionIff(pods, overrides, p);
  }

  /** The documentation protects every workload ranked "no eviction", be it by its annotations or by its user. Its pods
      are protected exactly when constraints were recorded. */
  lemma NoEvictionIsSafeIff(pods: seq<PodInfo>, overrides: Overrides, p: PodInfo)
    requires AllReady(pods) && DistinctKeys(pods) && p in pods
    requires EvictionRanking(p, overrides) == RANKING_DISABLED
    requires Demanded(CPU, p, overrides) > 0.0 || Demanded(Memory, p, overrides) > 0.0
    ensures SafeFromEviction(pods, overrides, p) <==> p.stats.value.constraints.Some?
  {
    SafeFromEvictionIff(pods, overrides, p);
  }

  // ---------------------------------------------------------------- when nobody is evicted

  function DemandOf(r: Resource, overrides: Overrides): PodInfo -> real {
    (p: PodInfo) => if Ready(p) then Total(r, PodMetricsOf(p, overrides)) else 0.0
  }

  /** All base demands and the headroom of any single pod stay within the budget. */
  predicate RoomForAnyPeak(r: Resource, pods: seq<PodInfo>, overrides: Overrides, budget: real)
    requires AllReady(pods)
  {
    forall x :: x in pods ==> SumOf(DemandOf(r, overrides), pods) + Headroom(r, PodMetricsOf(x, overrides)) <= budget
  }

  lemma FitsIffRoomForAnyPeak(r: Resource, pods: seq<PodInfo>, overrides: Overrides, budget: real)
    requires AllReady(pods) && DistinctKeys(pods) && pods != []
    ensures Fits(r, CacheOf(pods, overrides), budget, pods) <==> RoomForAnyPeak(r, pods, overrides, budget)
  {
    var cache := CacheOf(pods, overrides);
    forall p | p in pods ensures MetricsFor(cache, p) == PodMetricsOf(p, overrides) {
      CacheIsExact(pods, overrides, p);
    }
    SumAgrees(DemandOf(r, overrides), TotalOf(r, cache), pods);
    forall p | p in pods ensures HeadroomOf(r, cache)(p) <= MaxOf(HeadroomOf(r, cache), pods) {
      MaxCovers(HeadroomOf(r, cache), pods, p);
    }
    var x := MaxAttained(HeadroomOf(r, cache), pods);
    assert pods[0] in pods && HeadroomOf(r, cache)(pods[0]) >= 0.0;
  }

  /** Exactly one headroom is reserved: nobody is evicted if, for both resources, there is room for all base demands and
      the headroom of any one pod. When some pod may be evicted, the converse holds too. */
  lemma RoomDecidesEviction(pods: seq<PodInfo>, overrides: Overrides, cpu: real, memory: real, a: Allocation)
    requires AllReady(pods) && DistinctKeys(pods) && IsAllocation(pods, overrides, cpu, memory, a)
    ensures RoomForAnyPeak(CPU, pods, overrides, cpu) && RoomForAnyPeak(Memory, pods, overrides, memory) ==>
              Evicted(a) == []
    ensures (exists p :: p in pods && !IsProtected(p, overrides)) && Evicted(a) == [] ==>
              RoomForAnyPeak(CPU, pods, overrides, cpu) && RoomForAnyPeak(Memory, pods, overrides, memory)
  {
    NobodyIsEvictedIff(pods, overrides, cpu, memory, a);
    if pods != [] {
      FitsIffRoomForAnyPeak(CPU, pods, overrides, cpu);
      FitsIffRoomForAnyPeak(Memory, pods, overrides, memory);
    }
    EvictableIffUnprotected(pods, overrides);
  }

  lemma EvictableIffUnprotected(pods: seq<PodInfo>, overrides: Overrides)
    requires AllReady(pods) && DistinctKeys(pods)
    ensures forall p :: p in pods ==> (Evictable(CacheOf(pods, overrides))(p) <==> !IsProtected(p, overrides))
  {
    forall p | p in pods ensures Evictable(CacheOf(pods, overrides))(p) <==> !IsProtected(p, overrides) {
      CacheIsExact(pods, overrides, p);
    }
  }

  /** Memory is decided first: whether its phase evicts somebody depends on all pods and the memory budget alone. */
  lemma MemoryIsDecidedFirst(pods: seq<PodInfo>, overrides: Overrides, cpu: real, memory: real, a: Allocation)
    requires AllReady(pods) && DistinctKeys(pods) && IsAllocation(pods, overrides, cpu, memory, a)
    ensures a.memoryEvicted == [] <==>
            RoomForAnyPeak(Memory, pods, overrides, memory) || forall p :: p in pods ==> IsProtected(p, overrides)
  {
    var cache := CacheOf(pods, overrides);
    CacheIsSane(pods, overrides);
    PhaseEvictsNobodyIff(Memory, cache, memory, pods, a.memoryOrder, a.memoryKept, a.memoryEvicted);
    if pods != [] { FitsIffRoomForAnyPeak(Memory, pods, overrides, memory); }
    EvictableIffUnprotected(pods, overrides);
  }

  /** The CPU phase decides on the pods the memory phase has kept. */
  lemma CpuFollowsMemory(pods: seq<PodInfo>, overrides: Overrides, cpu: real, memory: real, a: Allocation)
    requires AllReady(pods) && IsAllocation(pods, overrides, cpu, memory, a)
    ensures multiset(a.memoryEvicted) + multiset(a.memoryKept) == multiset(pods)
    ensures multiset(a.cpuEvicted) + multiset(a.survivors) == multiset(a.memoryKept)
  {
    KeptConserves(Evictable(CacheOf(pods, overrides)), a.memoryOrder, |a.memoryEvicted|);
    KeptConserves(Evictable(CacheOf(pods, overrides)), a.cpuOrder, |a.cpuEvicted|);
  }

  lemma RoomForTwo(r: Resource, p: PodInfo, q: PodInfo, overrides: Overrides, budget: real)
    requires Ready(p) && Ready(q) && PodMetricsOf(p, overrides) == PodMetricsOf(q, overrides)
    requires budget == 2.0 * Total(r, PodMetricsOf(p, overrides)) + Headroom(r, PodMetricsOf(p, overrides))
    ensures RoomForAnyPeak(r, [p, q], overrides, budget)
  {
    var w := DemandOf(r, overrides);
    assert [p, q][..1] == [p] && [p][..0] == [];
    assert SumOf(w, [p]) == w(p);
    assert SumOf(w, [p, q]) == w(p) + w(q);
  }

  /** Two pods of equal demand, on a node with room for both bases and one headroom: both stay. */
  lemma OneHeadroomServesTwo(p: PodInfo, q: PodInfo, overrides: Overrides, cpu: real, memory: real, a: Allocation)
    requires Ready(p) && Ready(q) && KeyOf(p) != KeyOf(q)
    requires PodMetricsOf(p, overrides) == PodMetricsOf(q, overrides)
    requires cpu == 2.0 * PodMetricsOf(p, overrides).totalCPU + PodMetricsOf(p, overrides).maxRestCPU
    requires memory == 2.0 * PodMetricsOf(p, overrides).totalMemory + PodMetricsOf(p, overrides).maxRestMemory
    requires IsAllocation([p, q], overrides, cpu, memory, a)
    ensures Evicted(a) == []
  {
    RoomForTwo(CPU, p, q, overrides, cpu);
    RoomForTwo(Memory, p, q, overrides, memory);
    RoomDecidesEviction([p, q], overrides, cpu, memory, a);
  }

  // ---------------------------------------------------------------- running the strategy again

  predicate KeysIdentify(pods: seq<PodInfo>) {
    forall p, q :: p in pods && q in pods && KeyOf(p) == KeyOf(q) ==> p == q
  }

  lemma {:induction false} IdentifiedMetrics(pods: seq<PodInfo>, overrides: Overrides, p: PodInfo)
    requires AllReady(pods) && KeysIdentify(pods) && p in pods
    ensures MetricsFor(CacheOf(pods, overrides), p) == PodMetricsOf(p, overrides)
  {
    var last, init := pods[|pods| - 1], pods[..|pods| - 1];
    assert last in pods;
    if p != last {
      IdentifiedMetrics(init, overrides, p);
      assert KeyOf(p) != KeyOf(last);
    }
  }

  lemma SameFit(r: Resource, before: Cache, after: Cache, budget: real, pods: seq<PodInfo>)
    requires forall p :: p in pods ==> MetricsFor(before, p) == MetricsFor(after, p)
    ensures Fits(r, before, budget, pods) <==> Fits(r, after, budget, pods)
  {
    SumAgrees(TotalOf(r, before), TotalOf(r, after), pods);
    SumAgrees(HeadroomOf(r, before), HeadroomOf(r, after), pods);
  }

  /** The strategy settles at once: run again on the survivors with the same budgets, it evicts nobody, whatever the
      first run had to leave in place. */
  lemma OptimizingAgainEvictsNobody(pods: seq<PodInfo>, overrides: Overrides, cpu: real, memory: real,
                                    a: Allocation, again: Allocation)
    requires AllReady(pods) && DistinctKeys(pods) && IsAllocation(pods, overrides, cpu, memory, a)
    requires AllReady(a.survivors) && IsAllocation(a.survivors, overrides, cpu, memory, again)
    ensures Evicted(again) == []
  {
    var before, after := CacheOf(pods, overrides), CacheOf(a.survivors, overrides);
    AllocationConserves(pods, overrides, cpu, memory, a);
    forall p | p in a.survivors ensures p in pods && MetricsFor(before, p) == PodMetricsOf(p, overrides) {
      assert p in multiset(a.survivors) + multiset(Evicted(a));
      assert p in multiset(pods);
      CacheIsExact(pods, overrides, p);
    }
    forall p | p in a.survivors ensures MetricsFor(after, p) == MetricsFor(before, p) {
      IdentifiedMetrics(a.survivors, overrides, p);
    }
    AllocationFits(CPU, pods, overrides, cpu, memory, a);
    AllocationFits(Memory, pods, overrides, cpu, memory, a);
    SameFit(CPU, before, after, cpu, a.survivors);
    SameFit(Memory, before, after, memory, a.survivors);
    NobodyIsEvictedIff(a.survivors, overrides, cpu, memory, again);
  }
}
