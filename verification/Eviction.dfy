/** Demand of a pod, the eviction order and the eviction loop of the node allocator. */
module Eviction {
  import opened Prelude
  import opened Sequences
  import opened Workloads

  // ---------------------------------------------------------------- demand

  /** Usage as the strategy reads it: adjusted for pressure where that is known. */
  predicate IsUsage(c: ContainerStats, usage: real) {
    if c.psiAdjustedP75.Some? then usage == c.psiAdjustedP75.value else c.cpuP75 == Some(usage)
  }

  function PredictedCPUMax(c: ContainerStats): (m: real)
    requires Dereferenceable(c)
    ensures m >= c.predictedCPU.value && (m == c.predictedCPU.value || IsUsage(c, m))
  {
    Max(c.predictedCPU.value, if c.psiAdjustedP75.Some? then c.psiAdjustedP75.value else c.cpuP75.value)
  }

  function PredictedMemoryMax(c: ContainerStats): (m: real)
    requires Dereferenceable(c)
    ensures m >= c.predictedMemory.value && m >= c.memory.value.p75
    ensures m == c.predictedMemory.value || m == c.memory.value.p75
  {
    Max(c.predictedMemory.value, c.memory.value.p75)
  }

  /** Base demand and spike headroom: together they reach the predicted peak. */
  function RecommendedAndRestCPU(c: ContainerStats): (d: (real, real))
    requires Dereferenceable(c)
    ensures d.1 >= 0.0 && d.0 + d.1 == PredictedCPUMax(c) && IsUsage(c, d.0)
    ensures NonNegativeUsage(c) ==> d.0 >= 0.0
  {
    var base := if c.psiAdjustedP75.Some? then c.psiAdjustedP75.value else c.cpuP75.value;
    (base, Max(0.0, PredictedCPUMax(c) - base))
  }

  /** An out-of-memory kill above the base replaces the base and leaves no headroom. */
  function RecommendedAndRestMemory(c: ContainerStats): (d: (real, real))
    requires Dereferenceable(c)
    ensures d.1 >= 0.0 && d.0 >= c.memory.value.p75
    ensures c.memory.value.oomMemory > 0.0 ==> d.0 >= c.memory.value.oomMemory
    ensures if d.0 > c.memory.value.p75 then d == (c.memory.value.oomMemory, 0.0) && c.memory.value.oomMemory > 0.0
            else d.0 + d.1 == PredictedMemoryMax(c)
    ensures NonNegativeUsage(c) ==> d.0 >= 0.0
  {
    if c.memory.value.oomMemory > 0.0 && c.memory.value.oomMemory > c.memory.value.p75 then
      (c.memory.value.oomMemory, 0.0)
    else
      (c.memory.value.p75, Max(0.0, PredictedMemoryMax(c) - c.memory.value.p75))
  }

  function RecommendedAndRest(r: Resource, c: ContainerStats): (d: (real, real))
    requires Dereferenceable(c)
    ensures d.1 >= 0.0
    ensures NonNegativeUsage(c) ==> d.0 >= 0.0
    ensures r.CPU? ==> IsUsage(c, d.0) && d.0 + d.1 == PredictedCPUMax(c)
    ensures r.Memory? ==> d == RecommendedAndRestMemory(c)
  {
    match r case CPU => RecommendedAndRestCPU(c) case Memory => RecommendedAndRestMemory(c)
  }

  /** What the allocator keeps per container. */
  datatype ContainerMetric = ContainerMetric(
    pod: PodInfo, containerName: string,
    recommendedCPU: real, restCPU: real, recommendedMemory: real, restMemory: real)

  function Base(r: Resource, m: ContainerMetric): real {
    match r case CPU => m.recommendedCPU case Memory => m.recommendedMemory
  }

  function Rest(r: Resource, m: ContainerMetric): real {
    match r case CPU => m.restCPU case Memory => m.restMemory
  }

  /** Demand of one container; a DaemonSet container never asks for more than it has, nor for headroom. */
  function Demand(r: Resource, p: PodInfo, c: ContainerStats): (d: (real, real))
    requires Dereferenceable(c)
    requires IsDaemonSet(p) ==> FindResource(p.containers, c.containerName).Some?
    ensures d.1 >= 0.0
    ensures !IsDaemonSet(p) && NonNegativeUsage(c) ==> d.0 >= 0.0
    ensures IsDaemonSet(p) ==>
              var base, current := RecommendedAndRest(r, c).0,
                  CurrentRequest(r, FindResource(p.containers, c.containerName).value);
              d.1 == 0.0 && d.0 <= base && d.0 <= current && (d.0 == base || d.0 == current)
    ensures !IsDaemonSet(p) ==> d == RecommendedAndRest(r, c)
  {
    var d := RecommendedAndRest(r, c);
    if IsDaemonSet(p) then
      (Min(d.0, CurrentRequest(r, FindResource(p.containers, c.containerName).value)), 0.0)
    else d
  }

  function MetricOf(p: PodInfo, c: ContainerStats): (m: ContainerMetric)
    requires Dereferenceable(c)
    requires IsDaemonSet(p) ==> FindResource(p.containers, c.containerName).Some?
    ensures forall r :: Base(r, m) == Demand(r, p, c).0 && Rest(r, m) == Demand(r, p, c).1
  {
    ContainerMetric(p, c.containerName,
                    Demand(CPU, p, c).0, Demand(CPU, p, c).1, Demand(Memory, p, c).0, Demand(Memory, p, c).1)
  }

  predicate AllDereferenceable(cs: seq<ContainerStats>) {
    forall c :: c in cs && c.containerType != InitContainer ==> Dereferenceable(c)
  }

  /** Init containers never count; containers without a current resource count only while ranking
      pods of workloads other than DaemonSets. */
  predicate Counts(p: PodInfo, c: ContainerStats, sizedOnly: bool) {
    c.containerType != InitContainer &&
    (IsDaemonSet(p) || sizedOnly ==> FindResource(p.containers, c.containerName).Some?)
  }

  function Metrics(p: PodInfo, cs: seq<ContainerStats>, sizedOnly: bool): seq<ContainerMetric>
    requires AllDereferenceable(cs)
  {
    if cs == [] then [] else
      var last := cs[|cs| - 1];
      Metrics(p, cs[..|cs| - 1], sizedOnly) +
      if Counts(p, last, sizedOnly) then [MetricOf(p, last)] else []
  }

  function BaseOf(r: Resource): ContainerMetric -> real { (m: ContainerMetric) => Base(r, m) }

  function RestOf(r: Resource): ContainerMetric -> real { (m: ContainerMetric) => Rest(r, m) }

  function OriginalRequest(r: Resource, o: OriginalResources): real {
    match r case CPU => o.cpuRequest case Memory => o.memoryRequest
  }

  function MaxInit(r: Resource, os: seq<OriginalResources>): (m: real)
    ensures m >= 0.0
  {
    if os == [] then 0.0
    else
      var rest := MaxInit(r, os[..|os| - 1]);
      if os[|os| - 1].containerType == InitContainer then Max(rest, OriginalRequest(r, os[|os| - 1])) else rest
  }

  // ---------------------------------------------------------------- pod metrics

  datatype PodMetrics = PodMetrics(
    totalCPU: real, totalMemory: real, maxRestCPU: real, maxRestMemory: real, evictionRanking: int)

  type Cache = map<string, PodMetrics>

  function Total(r: Resource, m: PodMetrics): real {
    match r case CPU => m.totalCPU case Memory => m.totalMemory
  }

  function Headroom(r: Resource, m: PodMetrics): real {
    match r case CPU => m.maxRestCPU case Memory => m.maxRestMemory
  }

  /** A Go map yields the zero value for a missing key. */
  function MetricsFor(cache: Cache, p: PodInfo): PodMetrics {
    if KeyOf(p) in cache then cache[KeyOf(p)] else PodMetrics(0.0, 0.0, 0.0, 0.0, 0)
  }

  /** Workload ranking, then override; zero means "not set". A nil override counts as medium. */
  function EvictionRanking(p: PodInfo, overrides: map<string, Option<Override>>): int
    requires p.stats.Some?
  {
    var s := p.stats.value;
    var fromStat := if s.evictionRanking != 0 then s.evictionRanking else RANKING_HIGH;
    if s.identifier !in overrides then fromStat
    else match overrides[s.identifier]
         case None => RANKING_MEDIUM
         case Some(o) => if o.evictionRanking != 0 then o.evictionRanking else fromStat
  }

  /** What a user chose for a workload; absent fields were not chosen. */
  datatype UserOverride = UserOverride(enabled: Option<bool>, evictionRanking: Option<int>)

  /** OverridesWithDefaults: the stored ranking unless the user chose one. */
  function WithDefaults(user: Option<UserOverride>, storedRanking: int): Override {
    Override(if user.Some? && user.value.enabled.Some? then user.value.enabled.value else false,
             if user.Some? && user.value.evictionRanking.Some? then user.value.evictionRanking.value else storedRanking)
  }

  /** With the overrides the apply run builds, a pod is ranked "no eviction" exactly when its user chose so, or chose
      nothing (or zero) for a workload stored with that ranking. */
  lemma RankedNoEvictionIff(p: PodInfo, user: Option<UserOverride>, overrides: map<string, Option<Override>>)
    requires p.stats.Some? && p.stats.value.identifier in overrides
    requires overrides[p.stats.value.identifier] == Some(WithDefaults(user, p.stats.value.evictionRanking))
    ensures var chosen := if user.Some? && user.value.evictionRanking.Some?
                          then user.value.evictionRanking.value else 0;
            EvictionRanking(p, overrides) == RANKING_DISABLED <==>
              chosen == RANKING_DISABLED || (chosen == 0 && p.stats.value.evictionRanking == RANKING_DISABLED)
  {
  }

  function PodMetricsOf(p: PodInfo, overrides: map<string, Option<Override>>): (m: PodMetrics)
    requires Ready(p)
    ensures forall r :: Total(r, m) >= 0.0 && Headroom(r, m) >= 0.0
  {
    var s := p.stats.value;
    var ms := Metrics(p, s.containerStats, false);
    PodMetrics(Max(SumOf(BaseOf(CPU), ms), MaxInit(CPU, s.originals)),
               Max(SumOf(BaseOf(Memory), ms), MaxInit(Memory, s.originals)),
               MaxOf(RestOf(CPU), ms), MaxOf(RestOf(Memory), ms), EvictionRanking(p, overrides))
  }

  function IsEvictionExcluded(p: PodInfo, ranking: int): bool
    requires p.stats.Some?
  {
    p.stats.value.constraints.Some? &&
    (p.stats.value.constraints.value.excludedAnnotation || IsDaemonSet(p) || ranking == RANKING_DISABLED)
  }

  function Evictable(cache: Cache): PodInfo -> bool {
    (p: PodInfo) => p.stats.Some? && !IsEvictionExcluded(p, MetricsFor(cache, p).evictionRanking)
  }

  // ---------------------------------------------------------------- fit

  function TotalOf(r: Resource, cache: Cache): PodInfo -> real {
    (p: PodInfo) => Total(r, MetricsFor(cache, p))
  }

  function HeadroomOf(r: Resource, cache: Cache): PodInfo -> real {
    (p: PodInfo) => Headroom(r, MetricsFor(cache, p))
  }

  /** All base demands plus the one largest headroom stay within the budget. */
  predicate Fits(r: Resource, cache: Cache, budget: real, pods: seq<PodInfo>) {
    SumOf(TotalOf(r, cache), pods) + MaxOf(HeadroomOf(r, cache), pods) <= budget
  }

  predicate SaneCache(cache: Cache) {
    forall k, r :: k in cache ==> Total(r, cache[k]) >= 0.0 && Headroom(r, cache[k]) >= 0.0
  }

  /** Evicting pods, or reordering them, never breaks a fit. */
  lemma FitIsMonotone(r: Resource, cache: Cache, budget: real, a: seq<PodInfo>, b: seq<PodInfo>)
    requires SaneCache(cache) && multiset(a) <= multiset(b)
    ensures Fits(r, cache, budget, b) ==> Fits(r, cache, budget, a)
  {
    SumOfSubset(TotalOf(r, cache), a, b);
    forall p | p in a ensures p in b { assert p in multiset(a); assert p in multiset(b); }
    MaxOfSubset(HeadroomOf(r, cache), a, b);
  }

  // ---------------------------------------------------------------- the eviction order

  /** The comparator of both sorts: DaemonSets last, higher rankings first, then larger headroom first. */
  function EvictBefore(r: Resource, cache: Cache): (PodInfo, PodInfo) -> bool {
    (a: PodInfo, b: PodInfo) =>
      if IsDaemonSet(a) != IsDaemonSet(b) then IsDaemonSet(b)
      else if MetricsFor(cache, a).evictionRanking != MetricsFor(cache, b).evictionRanking then
        MetricsFor(cache, a).evictionRanking > MetricsFor(cache, b).evictionRanking
      else Headroom(r, MetricsFor(cache, a)) > Headroom(r, MetricsFor(cache, b))
  }

  lemma EvictBeforeIsStrictWeakOrder(r: Resource, cache: Cache)
    ensures StrictWeakOrder(EvictBefore(r, cache))
  {
  }

  // ---------------------------------------------------------------- what the loop computes

  function FitsIn(r: Resource, cache: Cache, budget: real): seq<PodInfo> -> bool {
    (pods: seq<PodInfo>) => Fits(r, cache, budget, pods)
  }

  /** The first `k` evictable pods are gone, where `k` is the least number that makes the rest fit, or
      all of them when no number does. */
  ghost predicate IsEviction(r: Resource, cache: Cache, budget: real,
                             pods: seq<PodInfo>, kept: seq<PodInfo>, evicted: seq<PodInfo>)
  {
    LeastRemoval(Evictable(cache), FitsIn(r, cache, budget), pods, kept, evicted)
  }

  // ---------------------------------------------------------------- the loop itself

  datatype Recommendation = Recommendation(pod: PodInfo, containerName: string, cpu: real, memory: real, evict: bool)

  function Recommended(r: Resource): Recommendation -> real {
    (rec: Recommendation) => match r case CPU => rec.cpu case Memory => rec.memory
  }

  /** One eviction record per non-init container, carrying the predicted peak. */
  function EvictRecords(p: PodInfo, cs: seq<ContainerStats>): seq<Recommendation>
    requires AllDereferenceable(cs)
  {
    if cs == [] then [] else
      var c := cs[|cs| - 1];
      EvictRecords(p, cs[..|cs| - 1]) +
      if c.containerType == InitContainer then []
      else [Recommendation(p, c.containerName, PredictedCPUMax(c), PredictedMemoryMax(c), true)]
  }

  function EvictionRecords(pods: seq<PodInfo>): seq<Recommendation>
    requires AllReady(pods)
  {
    if pods == [] then [] else
      var p := pods[|pods| - 1];
      assert p in pods;
      EvictionRecords(pods[..|pods| - 1]) + EvictRecords(p, p.stats.value.containerStats)
  }

  /** The list the strategy appends its decisions to. */
  class OptimizationResult {
    var recommendations: seq<Recommendation>
    var maxRestCPU: real
    var maxRestMemory: real

    constructor ()
      ensures recommendations == [] && maxRestCPU == 0.0 && maxRestMemory == 0.0
    {
      recommendations, maxRestCPU, maxRestMemory := [], 0.0, 0.0;
    }
  }

  /** append(a[:i], a[i+1:]...): shift the tail of the live prefix down by one, in place. */
  method DeleteAt(a: array<PodInfo>, n: nat, i: nat)
    requires i < n <= a.Length
    modifies a
    ensures a[..n - 1] == old(a[..n])[..i] + old(a[..n])[i + 1..]
  {
    for j := i to n - 1
      invariant forall k :: 0 <= k < n ==> a[k] == old(a[if i <= k < j then k + 1 else k])
    {
      a[j] := a[j + 1];
    }
  }

  method AppendEvictRecords(p: PodInfo, result: OptimizationResult)
    requires Ready(p)
    modifies result`recommendations
    ensures result.recommendations == old(result.recommendations) + EvictRecords(p, p.stats.value.containerStats)
  {
    var cs := p.stats.value.containerStats;
    for i := 0 to |cs|
      invariant result.recommendations == old(result.recommendations) + EvictRecords(p, cs[..i])
    {
      assert cs[..i + 1][..i] == cs[..i];
      if cs[i].containerType == InitContainer { continue; }
      result.recommendations := result.recommendations +
        [Recommendation(p, cs[i].containerName, PredictedCPUMax(cs[i]), PredictedMemoryMax(cs[i]), true)];
    }
    assert cs[..|cs|] == cs;
  }

  method EvictAt(a: array<PodInfo>, n: nat, i: nat, result: OptimizationResult)
    requires i < n <= a.Length && Ready(a[i])
    modifies a, result`recommendations
    ensures a[..n - 1] == old(a[..n])[..i] + old(a[..n])[i + 1..]
    ensures result.recommendations ==
            old(result.recommendations) + EvictRecords(old(a[i]), old(a[i]).stats.value.containerStats)
  {
    AppendEvictRecords(a[i], result);
    DeleteAt(a, n, i);
  }

  /** The fit test at the head of the loop. */
  method TestFit(r: Resource, cache: Cache, budget: real, a: array<PodInfo>, n: nat) returns (fits: bool)
    requires n <= a.Length
    ensures fits <==> Fits(r, cache, budget, a[..n])
  {
    var consumption, requiredRest := 0.0, 0.0;
    for i := 0 to n
      invariant consumption == SumOf(TotalOf(r, cache), a[..i])
      invariant requiredRest == MaxOf(HeadroomOf(r, cache), a[..i])
    {
      assert a[..i + 1] == a[..i] + [a[i]];
      SumPush(TotalOf(r, cache), a[..i], a[i]);
      MaxPush(HeadroomOf(r, cache), a[..i], a[i]);
      consumption := consumption + Total(r, MetricsFor(cache, a[i]));
      requiredRest := Max(Headroom(r, MetricsFor(cache, a[i])), requiredRest);
    }
    var spare := budget - consumption;
    fits := consumption <= budget && requiredRest <= spare;
  }

  lemma ReadyWithout(pods: seq<PodInfo>, i: nat)
    requires i < |pods| && AllReady(pods)
    ensures AllReady(pods[..i] + pods[i + 1..])
  {
    var rest := pods[..i] + pods[i + 1..];
    forall p | p in rest ensures Ready(p) { assert p in pods; }
  }

  /** performEvictionLoop: in-place deletion refines `IsEviction`. */
  method PerformEvictionLoop(r: Resource, cache: Cache, budget: real, a: array<PodInfo>, n0: nat,
                             result: OptimizationResult)
    returns (n: nat, ghost evicted: seq<PodInfo>)
    requires n0 <= a.Length && AllReady(a[..n0])
    modifies a, result`recommendations
    ensures n <= n0
    ensures IsEviction(r, cache, budget, old(a[..n0]), a[..n], evicted)
    ensures AllReady(evicted) && AllReady(a[..n])
    ensures result.recommendations == old(result.recommendations) + EvictionRecords(evicted)
  {
    ghost var pods, f, enough := a[..n0], Evictable(cache), FitsIn(r, cache, budget);
    ghost var cur, before := pods, result.recommendations;
    n, evicted := n0, [];
    var i := 0;
    while i < n
      invariant i <= n <= n0 && cur == a[..n] && AllReady(cur) && AllReady(evicted)
      invariant Scan(f, enough, pods, 0, []) == Scan(f, enough, cur, i, evicted)
      invariant result.recommendations == before + EvictionRecords(evicted)
      decreases n - i
    {
      var fits := TestFit(r, cache, budget, a, n);
      if fits { break; }
      var p := a[i];
      assert p == cur[i] && p in cur;
      if IsEvictionExcluded(p, MetricsFor(cache, p).evictionRanking) {
        i := i + 1;
        continue;
      }
      ghost var left, gone := cur[..i] + cur[i + 1..], evicted + [p];
      assert Scan(f, enough, cur, i, evicted) == Scan(f, enough, left, i, gone);
      EvictionRecordsPush(before, evicted, p);
      ReadyWithout(cur, i);
      EvictAt(a, n, i, result);
      n, cur, evicted := n - 1, left, gone;
    }
    ScanIsLeastRemoval(f, enough, pods);
  }

  lemma EvictionRecordsPush(before: seq<Recommendation>, pods: seq<PodInfo>, p: PodInfo)
    requires AllReady(pods) && Ready(p)
    ensures AllReady(pods + [p])
    ensures before + EvictionRecords(pods + [p]) ==
            before + EvictionRecords(pods) + EvictRecords(p, p.stats.value.containerStats)
  {
    assert (pods + [p])[..|pods|] == pods;
  }
}
