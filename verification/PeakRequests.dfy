/** Pods that were scheduled with peak requests: when the next run leaves them where they are. */
module PeakRequests {
  import opened Prelude
  import opened Sequences
  import opened Workloads
  import opened Eviction
  import opened Allocator
  import opened ApplyGates
  import opened ApplyTask
  import opened Protection

  /** Requests that cover base demand and headroom one by one cover them together, where headroom counts once. */
  lemma {:induction false} PeaksCover(r: Resource, cache: Cache, pods: seq<PodInfo>)
    requires SaneCache(cache)
    requires forall p :: p in pods ==> RequestedBy(r)(p) >= TotalOf(r, cache)(p) + HeadroomOf(r, cache)(p)
    ensures SumOf(TotalOf(r, cache), pods) + MaxOf(HeadroomOf(r, cache), pods) <= SumOf(RequestedBy(r), pods)
  {
    if pods != [] {
      var init, last := pods[..|pods| - 1], pods[|pods| - 1];
      assert last in pods;
      PeaksCover(r, cache, init);
      assert MaxOf(HeadroomOf(r, cache), pods) == Max(MaxOf(HeadroomOf(r, cache), init), HeadroomOf(r, cache)(last));
      assert HeadroomOf(r, cache)(last) >= 0.0;
    }
  }

  /** Every pod requests at least what it demands. */
  predicate RequestsCoverDemand(pods: seq<PodInfo>, overrides: Overrides)
    requires AllReady(pods)
  {
    forall p, r :: p in pods ==> RequestedBy(r)(p) >= Demanded(r, p, overrides)
  }

  lemma PeakRequestsFit(r: Resource, pods: seq<PodInfo>, overrides: Overrides, budget: real)
    requires AllReady(pods) && DistinctKeys(pods) && RequestsCoverDemand(pods, overrides)
    requires SumOf(RequestedBy(r), pods) <= budget
    ensures Fits(r, CacheOf(pods, overrides), budget, pods)
  {
    var cache := CacheOf(pods, overrides);
    CacheIsSane(pods, overrides);
    forall p | p in pods ensures RequestedBy(r)(p) >= TotalOf(r, cache)(p) + HeadroomOf(r, cache)(p) {
      CacheIsExact(pods, overrides, p);
      assert RequestedBy(r)(p) >= Demanded(r, p, overrides);
    }
    PeaksCover(r, cache, pods);
  }

  lemma {:induction false} ClassesSumUp(r: Resource, pods: seq<PodInfo>, overrides: Overrides, input: ApplyCheckInput)
    ensures SumOf(RequestedBy(r), pods) ==
            SumOf(RequestedBy(r), PodsOf(Optimizable, pods, overrides, input)) +
            SumOf(RequestedBy(r), PodsOf(OptimizableButExcluded, pods, overrides, input)) +
            SumOf(RequestedBy(r), PodsOf(NonOptimizable, pods, overrides, input))
  {
    if pods != [] {
      var n := |pods| - 1;
      assert pods[..n + 1] == pods;
      ClassesSumUp(r, pods[..n], overrides, input);
      ClassSumPush(Optimizable, r, pods, overrides, input);
      ClassSumPush(OptimizableButExcluded, r, pods, overrides, input);
      ClassSumPush(NonOptimizable, r, pods, overrides, input);
    }
  }

  lemma ClassSumPush(c: PodClass, r: Resource, pods: seq<PodInfo>, overrides: Overrides, input: ApplyCheckInput)
    requires pods != []
    ensures var n := |pods| - 1;
            SumOf(RequestedBy(r), PodsOf(c, pods, overrides, input)) ==
            SumOf(RequestedBy(r), PodsOf(c, pods[..n], overrides, input)) +
            if ClassOf(pods[n], overrides, input) == c then RequestedBy(r)(pods[n]) else 0.0
  {
    var n := |pods| - 1;
    assert pods[..n + 1] == pods;
    var before := PodsOf(c, pods[..n], overrides, input);
    PodsOfPush(c, pods, n, overrides, input);
    SumPush(RequestedBy(r), before, pods[n]);
    assert before + [] == before;
  }

  /** The documentation promises that pods scheduled with peak requests are not evicted again at once. On a node whose
      requests fit, nobody is evicted by the strategy when every optimizable pod requests what it demands. */
  lemma ScheduledPeaksStay(node: NodeInfo, overrides: Overrides, input: ApplyCheckInput, a: Allocation)
    requires Gated(node.pods) && DistinctKeys(node.pods)
    requires Allocates(PodsOf(Optimizable, node.pods, overrides, input), overrides,
                       Available(CPU, node, overrides, input), Available(Memory, node, overrides, input), a)
    requires forall r :: SumOf(RequestedBy(r), node.pods) <= Allocatable(r, node)
    requires RequestsCoverDemand(PodsOf(Optimizable, node.pods, overrides, input), overrides)
    ensures Evicted(a) == []
  {
    var pods := PodsOf(Optimizable, node.pods, overrides, input);
    SelectKeepsDistinct(HasClass(Optimizable, overrides, input), node.pods);
    ClassesSumUp(CPU, node.pods, overrides, input);
    ClassesSumUp(Memory, node.pods, overrides, input);
    PeakRequestsFit(CPU, pods, overrides, Available(CPU, node, overrides, input));
    PeakRequestsFit(Memory, pods, overrides, Available(Memory, node, overrides, input));
    NobodyIsEvictedIff(pods, overrides, Available(CPU, node, overrides, input),
                       Available(Memory, node, overrides, input), a);
  }

  // ---------------------------------------------------------------- when peak requests cover the demand

  /** What the scheduler counts for a pod whose containers request their peaks: their sum, or the largest init
      container. */
  function PeakRequest(r: Resource, p: PodInfo): real
    requires Ready(p)
  {
    var ms := Metrics(p, p.stats.value.containerStats, false);
    Max(SumOf(BaseOf(r), ms) + SumOf(RestOf(r), ms), MaxInit(r, p.stats.value.originals))
  }

  lemma {:induction false} LargestIsPartOfSum(r: Resource, p: PodInfo, cs: seq<ContainerStats>)
    requires AllDereferenceable(cs)
    ensures 0.0 <= MaxOf(RestOf(r), Metrics(p, cs, false)) <= SumOf(RestOf(r), Metrics(p, cs, false))
  {
    if cs != [] {
      var n := |cs| - 1;
      assert cs[..n + 1] == cs;
      LargestIsPartOfSum(r, p, cs[..n]);
      MetricsPush(p, cs, n, false);
      if Counts(p, cs[n], false) { assert Rest(r, MetricOf(p, cs[n])) == Demand(r, p, cs[n]).1; }
    }
  }

  /** Peak requests cover the demand exactly when no init container exceeds the base demand, or there is no headroom, or
      the peaks also cover the init containers and the headroom together. The headroom is counted on top of an init
      container that dominates. */
  lemma PeakRequestCoversIff(r: Resource, p: PodInfo, overrides: Overrides)
    requires Ready(p)
    ensures var ms, init := Metrics(p, p.stats.value.containerStats, false), MaxInit(r, p.stats.value.originals);
            PeakRequest(r, p) >= Demanded(r, p, overrides) <==>
              init <= SumOf(BaseOf(r), ms) || MaxOf(RestOf(r), ms) == 0.0 ||
              init + MaxOf(RestOf(r), ms) <= SumOf(BaseOf(r), ms) + SumOf(RestOf(r), ms)
  {
    LargestIsPartOfSum(r, p, p.stats.value.containerStats);
  }

  /** A pod of one container, base 32 MB and peak 48 MB, whose init container requests 64 MB: scheduled with 64 MB on a
      node of 70 MB it is evicted by the next run, whatever the order, because its demand counts as 80 MB. */
  lemma InitContainerDefeatsPeaks() returns (p: PodInfo, a: Allocation)
    ensures Ready(p) && !IsDaemonSet(p) && p.requestedMemory == PeakRequest(Memory, p) == 64.0
    ensures IsAllocation([p], map[], 4.0, 70.0, a) && p in Evicted(a)
  {
    var c := ContainerStats("main", AppContainer, Some(0.5), None, Some(MemoryStats(32.0, 0.0)), None,
                            Some(0.5), Some(48.0));
    var setup := OriginalResources("setup", InitContainer, 0.1, 64.0);
    p := PodInfo("ns", "web", "Deployment", "web", 0.5, 64.0,
                 Some(WorkloadStat("Deployment:ns:web", 0, false, false, None, RANKING_HIGH, false, [c], [setup])), []);
    OneMetric(p, c);
    assert [setup][..0] == [];
    assert MaxInit(Memory, [setup]) == 64.0;
    a := SomeAllocation([p], map[], 4.0, 70.0);
    TooLargeIsEvicted(Memory, [p], map[], 4.0, 70.0, a, p);
  }

  lemma OneMetric(p: PodInfo, c: ContainerStats)
    requires !IsDaemonSet(p) && c.containerType != InitContainer && Dereferenceable(c)
    ensures AllDereferenceable([c]) && Metrics(p, [c], false) == [MetricOf(p, c)]
    ensures forall r :: SumOf(BaseOf(r), [MetricOf(p, c)]) == RecommendedAndRest(r, c).0
    ensures forall r :: SumOf(RestOf(r), [MetricOf(p, c)]) == MaxOf(RestOf(r), [MetricOf(p, c)]) ==
              RecommendedAndRest(r, c).1
  {
    var cs, ms := [c], [MetricOf(p, c)];
    assert cs[..0] == [] && ms[..0] == [];
    assert Metrics(p, cs[..0], false) == [];
    assert Metrics(p, cs, false) == ms;
    forall r ensures SumOf(BaseOf(r), ms) == RecommendedAndRest(r, c).0
             ensures SumOf(RestOf(r), ms) == MaxOf(RestOf(r), ms) == RecommendedAndRest(r, c).1
    {
      assert Base(r, MetricOf(p, c)) == Demand(r, p, c).0 && Rest(r, MetricOf(p, c)) == Demand(r, p, c).1;
    }
  }
}
