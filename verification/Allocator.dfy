/** OptimizeNode: rank, evict for memory, evict for CPU, share one headroom among the survivors. */
module Allocator {
  import opened Prelude
  import opened Sequences
  import opened Workloads
  import opened Eviction

  // ---------------------------------------------------------------- the metrics cache

  type Overrides = map<string, Option<Override>>

  function CacheOf(pods: seq<PodInfo>, overrides: Overrides): Cache
    requires AllReady(pods)
  {
    if pods == [] then map[] else
      var p := pods[|pods| - 1];
      assert p in pods;
      CacheOf(pods[..|pods| - 1], overrides)[KeyOf(p) := PodMetricsOf(p, overrides)]
  }

  lemma {:induction false} CacheIsSane(pods: seq<PodInfo>, overrides: Overrides)
    requires AllReady(pods)
    ensures SaneCache(CacheOf(pods, overrides))
  {
    if pods != [] {
      assert pods[|pods| - 1] in pods;
      CacheIsSane(pods[..|pods| - 1], overrides);
    }
  }

  /** With distinct keys every pod finds its own metrics. */
  lemma {:induction false} CacheIsExact(pods: seq<PodInfo>, overrides: Overrides, p: PodInfo)
    requires AllReady(pods) && DistinctKeys(pods) && p in pods
    ensures MetricsFor(CacheOf(pods, overrides), p) == PodMetricsOf(p, overrides)
  {
    var last := pods[|pods| - 1];
    if p != last {
      CacheIsExact(pods[..|pods| - 1], overrides, p);
      var i :| 0 <= i < |pods| - 1 && pods[i] == p;
      assert KeyOf(pods[i]) != KeyOf(last);
      assert MetricsFor(CacheOf(pods[..|pods| - 1], overrides), p) == PodMetricsOf(p, overrides);
    }
  }

  /** A DaemonSet container without a current resource is skipped. */
  method MeasureContainer(p: PodInfo, c: ContainerStats) returns (counted: bool, m: ContainerMetric)
    requires Dereferenceable(c) && c.containerType != InitContainer
    ensures counted == Counts(p, c, false)
    ensures counted ==> m == MetricOf(p, c)
  {
    var cpu, memory := RecommendedAndRestCPU(c), RecommendedAndRestMemory(c);
    m := ContainerMetric(p, c.containerName, cpu.0, cpu.1, memory.0, memory.1);
    counted := true;
    if IsDaemonSet(p) {
      var current := FindResource(p.containers, c.containerName);
      if current.None? { return false, m; }
      if m.recommendedCPU > current.value.cpuRequest {
        m := m.(recommendedCPU := current.value.cpuRequest);
      }
      if m.recommendedMemory > current.value.memoryRequest {
        m := m.(recommendedMemory := current.value.memoryRequest);
      }
      m := m.(restCPU := 0.0, restMemory := 0.0);
    }
  }

  method AccumulateContainers(p: PodInfo, cs: seq<ContainerStats>)
    returns (totalCPU: real, totalMemory: real, maxRestCPU: real, maxRestMemory: real)
    requires AllDereferenceable(cs)
    ensures var ms := Metrics(p, cs, false);
            totalCPU == SumOf(BaseOf(CPU), ms) && totalMemory == SumOf(BaseOf(Memory), ms) &&
            maxRestCPU == MaxOf(RestOf(CPU), ms) && maxRestMemory == MaxOf(RestOf(Memory), ms)
  {
    totalCPU, totalMemory, maxRestCPU, maxRestMemory := 0.0, 0.0, 0.0, 0.0;
    ghost var ms: seq<ContainerMetric> := [];
    for i := 0 to |cs|
      invariant ms == Metrics(p, cs[..i], false)
      invariant totalCPU == SumOf(BaseOf(CPU), ms) && totalMemory == SumOf(BaseOf(Memory), ms)
      invariant maxRestCPU == MaxOf(RestOf(CPU), ms) && maxRestMemory == MaxOf(RestOf(Memory), ms)
    {
      MetricsPush(p, cs, i, false);
      if cs[i].containerType == InitContainer { continue; }
      var counted, m := MeasureContainer(p, cs[i]);
      if !counted { continue; }
      totalCPU, totalMemory := totalCPU + m.recommendedCPU, totalMemory + m.recommendedMemory;
      maxRestCPU, maxRestMemory := Max(maxRestCPU, m.restCPU), Max(maxRestMemory, m.restMemory);
      ms := ms + [m];
    }
    assert cs[..|cs|] == cs;
  }

  method ComputePodMetrics(p: PodInfo, overrides: Overrides) returns (m: PodMetrics)
    requires Ready(p)
    ensures m == PodMetricsOf(p, overrides)
  {
    var s := p.stats.value;
    var totalCPU, totalMemory, maxRestCPU, maxRestMemory := AccumulateContainers(p, s.containerStats);
    var maxInitCPU, maxInitMemory := ComputeMaxInit(s.originals);
    m := PodMetrics(Max(totalCPU, maxInitCPU), Max(totalMemory, maxInitMemory), maxRestCPU, maxRestMemory,
                    EvictionRanking(p, overrides));
  }

  /** Reading one more container adds at most one metric. */
  lemma MetricsPush(p: PodInfo, cs: seq<ContainerStats>, i: nat, sizedOnly: bool)
    requires AllDereferenceable(cs) && i < |cs|
    ensures !Counts(p, cs[i], sizedOnly) ==> Metrics(p, cs[..i + 1], sizedOnly) == Metrics(p, cs[..i], sizedOnly)
    ensures Counts(p, cs[i], sizedOnly) ==>
              var ms, m := Metrics(p, cs[..i], sizedOnly), MetricOf(p, cs[i]);
              Metrics(p, cs[..i + 1], sizedOnly) == ms + [m] && TotalsPushed(CPU, ms, m) && TotalsPushed(Memory, ms, m)
  {
    assert cs[..i + 1][..i] == cs[..i];
    if Counts(p, cs[i], sizedOnly) {
      TotalsPush(CPU, Metrics(p, cs[..i], sizedOnly), MetricOf(p, cs[i]));
      TotalsPush(Memory, Metrics(p, cs[..i], sizedOnly), MetricOf(p, cs[i]));
    }
  }

  predicate TotalsPushed(r: Resource, ms: seq<ContainerMetric>, m: ContainerMetric) {
    SumOf(BaseOf(r), ms + [m]) == SumOf(BaseOf(r), ms) + Base(r, m) &&
    SumOf(RestOf(r), ms + [m]) == SumOf(RestOf(r), ms) + Rest(r, m) &&
    MaxOf(RestOf(r), ms + [m]) == Max(MaxOf(RestOf(r), ms), Rest(r, m))
  }

  lemma TotalsPush(r: Resource, ms: seq<ContainerMetric>, m: ContainerMetric)
    ensures TotalsPushed(r, ms, m)
  {
    SumPush(BaseOf(r), ms, m);
    SumPush(RestOf(r), ms, m);
    MaxPush(RestOf(r), ms, m);
  }

  method ComputeMaxInit(os: seq<OriginalResources>) returns (cpu: real, memory: real)
    ensures cpu == MaxInit(CPU, os) && memory == MaxInit(Memory, os)
  {
    cpu, memory := 0.0, 0.0;
    for i := 0 to |os|
      invariant cpu == MaxInit(CPU, os[..i]) && memory == MaxInit(Memory, os[..i])
    {
      assert os[..i + 1][..i] == os[..i];
      if os[i].containerType == InitContainer {
        cpu, memory := Max(cpu, os[i].cpuRequest), Max(memory, os[i].memoryRequest);
      }
    }
    assert os[..|os|] == os;
  }

  // ---------------------------------------------------------------- sharing the headroom

  /** The survivors' containers that have a current resource, pod by pod. */
  function Slots(pods: seq<PodInfo>): seq<ContainerMetric>
    requires AllReady(pods)
  {
    if pods == [] then [] else
      var p := pods[|pods| - 1];
      assert p in pods;
      Slots(pods[..|pods| - 1]) + Metrics(p, p.stats.value.containerStats, true)
  }

  /** A container's part of the one shared headroom. */
  function ShareOf(r: Resource, all: seq<ContainerMetric>): ContainerMetric -> real {
    (m: ContainerMetric) =>
      if SumOf(BaseOf(r), all) > 0.0 && SumOf(RestOf(r), all) > 0.0 then
        MaxOf(RestOf(r), all) * (Rest(r, m) / SumOf(RestOf(r), all))
      else 0.0
  }

  function FinalOf(r: Resource, all: seq<ContainerMetric>): ContainerMetric -> real {
    (m: ContainerMetric) => Base(r, m) + ShareOf(r, all)(m)
  }

  function RecordOf(all: seq<ContainerMetric>, m: ContainerMetric): Recommendation {
    Recommendation(m.pod, m.containerName, FinalOf(CPU, all)(m), FinalOf(Memory, all)(m), false)
  }

  function SurvivorRecords(all: seq<ContainerMetric>, ms: seq<ContainerMetric>): seq<Recommendation> {
    if ms == [] then [] else SurvivorRecords(all, ms[..|ms| - 1]) + [RecordOf(all, ms[|ms| - 1])]
  }

  // ---------------------------------------------------------------- what one call computes

  /** The orders and decisions of the two phases. The sorts are unstable, so the orders are any sorted
      permutations. */
  datatype Allocation = Allocation(
    memoryOrder: seq<PodInfo>, memoryKept: seq<PodInfo>, memoryEvicted: seq<PodInfo>,
    cpuOrder: seq<PodInfo>, survivors: seq<PodInfo>, cpuEvicted: seq<PodInfo>)

  /** One phase: sort by the eviction order of a resource, then evict until it fits. */
  ghost predicate IsPhase(r: Resource, cache: Cache, budget: real, pods: seq<PodInfo>,
                          order: seq<PodInfo>, kept: seq<PodInfo>, evicted: seq<PodInfo>)
  {
    multiset(order) == multiset(pods) &&
    SortedBy(EvictBefore(r, cache), order) &&
    IsEviction(r, cache, budget, order, kept, evicted)
  }

  ghost predicate IsAllocation(pods: seq<PodInfo>, overrides: Overrides, cpu: real, memory: real, a: Allocation)
    requires AllReady(pods)
  {
    IsPhase(Memory, CacheOf(pods, overrides), memory, pods, a.memoryOrder, a.memoryKept, a.memoryEvicted) &&
    IsPhase(CPU, CacheOf(pods, overrides), cpu, a.memoryKept, a.cpuOrder, a.survivors, a.cpuEvicted)
  }

  function Evicted(a: Allocation): seq<PodInfo> { a.memoryEvicted + a.cpuEvicted }

  /** The records one call appends. */
  function AllRecords(a: Allocation): seq<Recommendation>
    requires AllReady(a.memoryEvicted) && AllReady(a.cpuEvicted) && AllReady(a.survivors)
  {
    EvictionRecords(a.memoryEvicted) + EvictionRecords(a.cpuEvicted) +
    SurvivorRecords(Slots(a.survivors), Slots(a.survivors))
  }

  /** Every pod is evicted or survives; none is lost, duplicated or both. */
  lemma AllocationConserves(pods: seq<PodInfo>, overrides: Overrides, cpu: real, memory: real, a: Allocation)
    requires AllReady(pods) && IsAllocation(pods, overrides, cpu, memory, a)
    ensures multiset(a.survivors) + multiset(Evicted(a)) == multiset(pods)
    ensures AllReady(a.survivors) && AllReady(Evicted(a))
    ensures forall p :: p in a.survivors ==> p in a.memoryKept
  {
    var f := Evictable(CacheOf(pods, overrides));
    KeptConserves(f, a.memoryOrder, |a.memoryEvicted|);
    KeptConserves(f, a.cpuOrder, |a.cpuEvicted|);
    var all := multiset(a.survivors) + multiset(Evicted(a));
    assert all == multiset(pods);
    forall p | p in a.survivors || p in Evicted(a) ensures p in pods {
      assert p in all;
      assert p in multiset(pods);
    }
    forall p | p in a.survivors ensures p in a.memoryKept {
      assert p in multiset(a.survivors);
      assert p in multiset(a.memoryKept);
    }
  }

  /** After both phases each resource fits, or only protected pods are left. */
  lemma AllocationFits(r: Resource, pods: seq<PodInfo>, overrides: Overrides, cpu: real, memory: real, a: Allocation)
    requires AllReady(pods) && IsAllocation(pods, overrides, cpu, memory, a)
    ensures Fits(r, CacheOf(pods, overrides), if r.CPU? then cpu else memory, a.survivors) ||
            forall p :: p in a.survivors ==> !Evictable(CacheOf(pods, overrides))(p)
  {
    var cache := CacheOf(pods, overrides);
    AllocationConserves(pods, overrides, cpu, memory, a);
    if r.CPU? {
      EnoughOrNoCandidates(Evictable(cache), FitsIn(CPU, cache, cpu), a.cpuOrder, a.survivors, a.cpuEvicted);
    } else {
      EnoughOrNoCandidates(Evictable(cache), FitsIn(Memory, cache, memory),
                           a.memoryOrder, a.memoryKept, a.memoryEvicted);
      CacheIsSane(pods, overrides);
      KeptConserves(Evictable(cache), a.cpuOrder, |a.cpuEvicted|);
      FitIsMonotone(Memory, cache, memory, a.survivors, a.memoryKept);
    }
  }

  lemma PhaseEvictsNobodyIff(r: Resource, cache: Cache, budget: real, pods: seq<PodInfo>,
                             order: seq<PodInfo>, kept: seq<PodInfo>, evicted: seq<PodInfo>)
    requires SaneCache(cache) && IsPhase(r, cache, budget, pods, order, kept, evicted)
    ensures evicted == [] <==> Fits(r, cache, budget, pods) || forall p :: p in pods ==> !Evictable(cache)(p)
    ensures evicted == [] ==> multiset(kept) == multiset(pods)
  {
    NothingRemovedIff(Evictable(cache), FitsIn(r, cache, budget), order, kept, evicted);
    assert FitsIn(r, cache, budget)(order) == Fits(r, cache, budget, order);
    FitIsMonotone(r, cache, budget, order, pods);
    FitIsMonotone(r, cache, budget, pods, order);
    forall p ensures p in order <==> p in pods {
      assert p in multiset(order) <==> p in multiset(pods);
    }
  }

  /** No needless evictions: nobody is evicted if and only if all pods fit for both resources, or nobody may be
      evicted. */
  lemma NobodyIsEvictedIff(pods: seq<PodInfo>, overrides: Overrides, cpu: real, memory: real, a: Allocation)
    requires AllReady(pods) && IsAllocation(pods, overrides, cpu, memory, a)
    ensures var cache := CacheOf(pods, overrides);
            Evicted(a) == [] <==>
              (Fits(CPU, cache, cpu, pods) && Fits(Memory, cache, memory, pods)) ||
              forall p :: p in pods ==> !Evictable(cache)(p)
  {
    var cache := CacheOf(pods, overrides);
    CacheIsSane(pods, overrides);
    PhaseEvictsNobodyIff(Memory, cache, memory, pods, a.memoryOrder, a.memoryKept, a.memoryEvicted);
    PhaseEvictsNobodyIff(CPU, cache, cpu, a.memoryKept, a.cpuOrder, a.survivors, a.cpuEvicted);
    if a.memoryEvicted == [] {
      FitIsMonotone(CPU, cache, cpu, pods, a.memoryKept);
      FitIsMonotone(CPU, cache, cpu, a.memoryKept, pods);
      forall p ensures p in a.memoryKept <==> p in pods {
        assert p in multiset(a.memoryKept) <==> p in multiset(pods);
      }
    }
  }

  /** `out` goes before `stay`: DaemonSets last, then the higher ranking first. */
  predicate NoMoreImportant(cache: Cache, out: PodInfo, stay: PodInfo) {
    (IsDaemonSet(out) ==> IsDaemonSet(stay)) &&
    (IsDaemonSet(out) == IsDaemonSet(stay) ==>
       MetricsFor(cache, out).evictionRanking >= MetricsFor(cache, stay).evictionRanking)
  }

  /** Across both phases, no pod is evicted in place of a less important one that could have gone. */
  lemma EvictionRespectsPriority(pods: seq<PodInfo>, overrides: Overrides, cpu: real, memory: real, a: Allocation,
                                 out: PodInfo, stay: PodInfo)
    requires AllReady(pods) && IsAllocation(pods, overrides, cpu, memory, a)
    requires out in Evicted(a) && stay in a.survivors && Evictable(CacheOf(pods, overrides))(stay)
    ensures NoMoreImportant(CacheOf(pods, overrides), out, stay)
    ensures var cache := CacheOf(pods, overrides);
            NoMoreImportant(cache, stay, out) ==>
              (out in a.memoryEvicted && Headroom(Memory, MetricsFor(cache, out)) >=
                Headroom(Memory, MetricsFor(cache, stay))) ||
              (out in a.cpuEvicted && Headroom(CPU, MetricsFor(cache, out)) >= Headroom(CPU, MetricsFor(cache, stay)))
  {
    var cache := CacheOf(pods, overrides);
    AllocationConserves(pods, overrides, cpu, memory, a);
    if out in a.memoryEvicted {
      var i, j := RemovedComeFirst(Evictable(cache), a.memoryOrder, |a.memoryEvicted|, out, stay);
      assert !EvictBefore(Memory, cache)(stay, out);
    } else {
      var i, j := RemovedComeFirst(Evictable(cache), a.cpuOrder, |a.cpuEvicted|, out, stay);
      assert !EvictBefore(CPU, cache)(stay, out);
    }
  }

  // ---------------------------------------------------------------- the method

  /** sort.Slice on the live prefix. */
  method SortSlice(r: Resource, cache: Cache, a: array<PodInfo>, n: nat)
    requires n <= a.Length
    modifies a
    ensures multiset(a[..n]) == multiset(old(a[..n])) && SortedBy(EvictBefore(r, cache), a[..n])
  {
    EvictBeforeIsStrictWeakOrder(r, cache);
    var sorted := Sort(EvictBefore(r, cache), a[..n]);
    assert |sorted| == n by { assert |multiset(sorted)| == |multiset(a[..n])|; }
    for i := 0 to n
      invariant a[..i] == sorted[..i]
    {
      a[i] := sorted[i];
    }
    assert sorted[..n] == sorted;
  }

  method BuildCache(a: array<PodInfo>, overrides: Overrides) returns (cache: Cache)
    requires AllReady(a[..])
    ensures cache == CacheOf(a[..], overrides)
  {
    cache := map[];
    for i := 0 to a.Length
      invariant cache == CacheOf(a[..i], overrides)
    {
      assert a[i] in a[..] && a[..i + 1][..i] == a[..i];
      var m := ComputePodMetrics(a[i], overrides);
      cache := cache[KeyOf(a[i]) := m];
    }
    assert a[..a.Length] == a[..];
  }

  method AppendSlots(p: PodInfo, slots: seq<ContainerMetric>) returns (all: seq<ContainerMetric>)
    requires Ready(p)
    ensures all == slots + Metrics(p, p.stats.value.containerStats, true)
  {
    var cs := p.stats.value.containerStats;
    all := slots;
    for i := 0 to |cs|
      invariant all == slots + Metrics(p, cs[..i], true)
    {
      MetricsPush(p, cs, i, true);
      if cs[i].containerType == InitContainer || FindResource(p.containers, cs[i].containerName).None? { continue; }
      all := all + [MetricOf(p, cs[i])];
    }
    assert cs[..|cs|] == cs;
  }

  method CollectSlots(a: array<PodInfo>, n: nat) returns (slots: seq<ContainerMetric>)
    requires n <= a.Length && AllReady(a[..n])
    ensures slots == Slots(a[..n])
  {
    slots := [];
    for i := 0 to n
      invariant slots == Slots(a[..i])
    {
      assert a[i] in a[..n] && a[..i + 1][..i] == a[..i];
      slots := AppendSlots(a[i], slots);
    }
  }

  method Totals(slots: seq<ContainerMetric>, r: Resource) returns (base: real, rest: real, maxRest: real)
    ensures base == SumOf(BaseOf(r), slots) && rest == SumOf(RestOf(r), slots) && maxRest == MaxOf(RestOf(r), slots)
  {
    base, rest, maxRest := 0.0, 0.0, 0.0;
    for i := 0 to |slots|
      invariant base == SumOf(BaseOf(r), slots[..i])
      invariant rest == SumOf(RestOf(r), slots[..i]) && maxRest == MaxOf(RestOf(r), slots[..i])
    {
      assert slots[..i + 1] == slots[..i] + [slots[i]];
      TotalsPush(r, slots[..i], slots[i]);
      base, rest := base + Base(r, slots[i]), rest + Rest(r, slots[i]);
      maxRest := Max(maxRest, Rest(r, slots[i]));
    }
    assert slots[..|slots|] == slots;
  }

  method Share(r: Resource, slots: seq<ContainerMetric>, m: ContainerMetric, base: real, rest: real, maxRest: real)
    returns (additional: real)
    requires base == SumOf(BaseOf(r), slots) && rest == SumOf(RestOf(r), slots) && maxRest == MaxOf(RestOf(r), slots)
    ensures additional == ShareOf(r, slots)(m)
  {
    additional := 0.0;
    if base > 0.0 && rest > 0.0 {
      var ratio := Rest(r, m) / rest;
      additional := maxRest * ratio;
    }
  }

  method SurvivorRecord(slots: seq<ContainerMetric>, m: ContainerMetric,
                        totalCPU: real, totalRestCPU: real, maxRestCPU: real,
                        totalMemory: real, totalRestMemory: real, maxRestMemory: real)
    returns (rec: Recommendation)
    requires totalCPU == SumOf(BaseOf(CPU), slots) && totalRestCPU == SumOf(RestOf(CPU), slots)
    requires totalMemory == SumOf(BaseOf(Memory), slots) && totalRestMemory == SumOf(RestOf(Memory), slots)
    requires maxRestCPU == MaxOf(RestOf(CPU), slots) && maxRestMemory == MaxOf(RestOf(Memory), slots)
    ensures rec == RecordOf(slots, m)
  {
    var additionalCPU := Share(CPU, slots, m, totalCPU, totalRestCPU, maxRestCPU);
    var additionalMemory := Share(Memory, slots, m, totalMemory, totalRestMemory, maxRestMemory);
    rec := Recommendation(m.pod, m.containerName, m.recommendedCPU + additionalCPU,
                          m.recommendedMemory + additionalMemory, false);
  }

  /** Distribute the headroom and append one record per surviving container. */
  method AppendSurvivors(slots: seq<ContainerMetric>, result: OptimizationResult)
    modifies result
    ensures result.recommendations == old(result.recommendations) + SurvivorRecords(slots, slots)
    ensures result.maxRestCPU == MaxOf(RestOf(CPU), slots) && result.maxRestMemory == MaxOf(RestOf(Memory), slots)
  {
    var totalCPU, totalRestCPU, maxRestCPU := Totals(slots, CPU);
    var totalMemory, totalRestMemory, maxRestMemory := Totals(slots, Memory);
    for i := 0 to |slots|
      invariant result.recommendations == old(result.recommendations) + SurvivorRecords(slots, slots[..i])
    {
      assert slots[..i + 1][..i] == slots[..i];
      var rec := SurvivorRecord(slots, slots[i], totalCPU, totalRestCPU, maxRestCPU,
                                totalMemory, totalRestMemory, maxRestMemory);
      result.recommendations := result.recommendations + [rec];
    }
    assert slots[..|slots|] == slots;
    result.maxRestCPU, result.maxRestMemory := maxRestCPU, maxRestMemory;
  }

  method RunPhase(r: Resource, cache: Cache, budget: real, a: array<PodInfo>, n0: nat, ghost pods: seq<PodInfo>,
                  result: OptimizationResult)
    returns (n: nat, ghost order: seq<PodInfo>, ghost kept: seq<PodInfo>, ghost evicted: seq<PodInfo>)
    requires n0 <= a.Length && pods == a[..n0] && AllReady(pods)
    modifies a, result`recommendations
    ensures n <= n0 && kept == a[..n] && IsPhase(r, cache, budget, pods, order, kept, evicted)
    ensures AllReady(evicted) && AllReady(kept)
    ensures result.recommendations == old(result.recommendations) + EvictionRecords(evicted)
  {
    SortSlice(r, cache, a, n0);
    order := a[..n0];
    SamePodsReady(pods, order);
    n, evicted := PerformEvictionLoop(r, cache, budget, a, n0, result);
    kept := a[..n];
  }

  method RunPhases(cache: Cache, ghost overrides: Overrides, cpu: real, memory: real, a: array<PodInfo>,
                   ghost pods: seq<PodInfo>, result: OptimizationResult)
    returns (n: nat, ghost al: Allocation)
    requires pods == a[..] && AllReady(pods) && cache == CacheOf(pods, overrides) && result.recommendations == []
    modifies a, result`recommendations
    ensures n <= a.Length && IsAllocation(pods, overrides, cpu, memory, al)
    ensures al.survivors == a[..n]
    ensures AllReady(al.memoryEvicted) && AllReady(al.cpuEvicted) && AllReady(al.survivors)
    ensures result.recommendations == EvictionRecords(al.memoryEvicted) + EvictionRecords(al.cpuEvicted)
  {
    assert a[..a.Length] == pods;
    ghost var memoryOrder, memoryKept, memoryEvicted, cpuOrder, survivors, cpuEvicted;
    n, memoryOrder, memoryKept, memoryEvicted := RunPhase(Memory, cache, memory, a, a.Length, pods, result);
    assert result.recommendations == EvictionRecords(memoryEvicted);
    n, cpuOrder, survivors, cpuEvicted := RunPhase(CPU, cache, cpu, a, n, memoryKept, result);
    al := Allocation(memoryOrder, memoryKept, memoryEvicted, cpuOrder, survivors, cpuEvicted);
  }

  method Clone(pods: array<PodInfo>) returns (clone: array<PodInfo>)
    ensures fresh(clone) && clone[..] == pods[..]
  {
    clone := new PodInfo[pods.Length](i requires 0 <= i < pods.Length reads pods => pods[i]);
  }

  /** The pods of the caller are only read: sorting and deleting happen on a clone. */
  method OptimizeNode(pods: array<PodInfo>, overrides: Overrides, allocatableCPU: real, allocatableMemory: real)
    returns (result: OptimizationResult, ghost a: Allocation)
    requires AllReady(pods[..])
    ensures fresh(result)
    ensures IsAllocation(pods[..], overrides, allocatableCPU, allocatableMemory, a)
    ensures AllReady(a.memoryEvicted) && AllReady(a.cpuEvicted) && AllReady(a.survivors)
    ensures result.recommendations == AllRecords(a)
    ensures result.maxRestCPU == MaxOf(RestOf(CPU), Slots(a.survivors))
    ensures result.maxRestMemory == MaxOf(RestOf(Memory), Slots(a.survivors))
  {
    ghost var input := pods[..];
    result := new OptimizationResult();
    var clone := Clone(pods);
    var cache := BuildCache(clone, overrides);
    var m;
    m, a := RunPhases(cache, overrides, allocatableCPU, allocatableMemory, clone, input, result);
    var slots := CollectSlots(clone, m);
    AppendSurvivors(slots, result);
    assert pods[..] == input;
  }

  lemma SamePodsReady(a: seq<PodInfo>, b: seq<PodInfo>)
    requires AllReady(a) && multiset(a) == multiset(b)
    ensures AllReady(b)
  {
    forall p | p in b ensures Ready(p) { assert p in multiset(b); assert p in multiset(a); }
  }
}
