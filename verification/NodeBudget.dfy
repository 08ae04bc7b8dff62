/** What the node is promised: the survivors' recommendations fit, and every pod is accounted for. */
module NodeBudget {
  import opened Prelude
  import opened Sequences
  import opened Workloads
  import opened Eviction
  import opened Allocator

  // ---------------------------------------------------------------- the shared headroom

  function Portion(m: real, x: real, t: real): real
    requires t > 0.0
  {
    m * (x / t)
  }

  lemma PortionsAdd(m: real, x: real, y: real, t: real)
    requires t > 0.0
    ensures Portion(m, x, t) + Portion(m, y, t) == Portion(m, x + y, t)
    ensures Portion(m, 0.0, t) == 0.0 && Portion(m, t, t) == m
  {
    assert x / t + y / t == (x + y) / t;
    assert t / t == 1.0 && 0.0 / t == 0.0;
  }

  lemma PortionNonNegative(m: real, x: real, t: real)
    requires t > 0.0 && m >= 0.0 && x >= 0.0
    ensures Portion(m, x, t) >= 0.0
  {
    assert x / t >= 0.0;
  }

  lemma ShareIsPortion(r: Resource, all: seq<ContainerMetric>, m: ContainerMetric)
    requires SumOf(BaseOf(r), all) > 0.0 && SumOf(RestOf(r), all) > 0.0
    ensures ShareOf(r, all)(m) == Portion(MaxOf(RestOf(r), all), Rest(r, m), SumOf(RestOf(r), all))
  {
  }

  lemma {:induction false} SharesAreProportional(r: Resource, all: seq<ContainerMetric>, ms: seq<ContainerMetric>)
    requires SumOf(BaseOf(r), all) > 0.0 && SumOf(RestOf(r), all) > 0.0
    ensures SumOf(ShareOf(r, all), ms) ==
            Portion(MaxOf(RestOf(r), all), SumOf(RestOf(r), ms), SumOf(RestOf(r), all))
  {
    var most, total := MaxOf(RestOf(r), all), SumOf(RestOf(r), all);
    if ms == [] {
      PortionsAdd(most, 0.0, 0.0, total);
    } else {
      var init, last := ms[..|ms| - 1], ms[|ms| - 1];
      SharesAreProportional(r, all, init);
      ShareIsPortion(r, all, last);
      PortionsAdd(most, SumOf(RestOf(r), init), Rest(r, last), total);
    }
  }

  lemma {:induction false} SharesVanish(r: Resource, all: seq<ContainerMetric>, ms: seq<ContainerMetric>)
    requires SumOf(BaseOf(r), all) <= 0.0 || SumOf(RestOf(r), all) <= 0.0
    ensures SumOf(ShareOf(r, all), ms) == 0.0
  {
    if ms != [] {
      SharesVanish(r, all, ms[..|ms| - 1]);
    }
  }

  /** Together the containers receive the one largest headroom, once, or nothing at all. */
  lemma SharesSumToOneHeadroom(r: Resource, all: seq<ContainerMetric>)
    ensures SumOf(ShareOf(r, all), all) ==
            if SumOf(BaseOf(r), all) > 0.0 && SumOf(RestOf(r), all) > 0.0 then MaxOf(RestOf(r), all) else 0.0
  {
    if SumOf(BaseOf(r), all) > 0.0 && SumOf(RestOf(r), all) > 0.0 {
      SharesAreProportional(r, all, all);
      PortionsAdd(MaxOf(RestOf(r), all), 0.0, 0.0, SumOf(RestOf(r), all));
    } else {
      SharesVanish(r, all, all);
    }
  }

  lemma {:induction false} FinalsSplit(r: Resource, all: seq<ContainerMetric>, ms: seq<ContainerMetric>)
    ensures SumOf(FinalOf(r, all), ms) == SumOf(BaseOf(r), ms) + SumOf(ShareOf(r, all), ms)
  {
    if ms != [] {
      FinalsSplit(r, all, ms[..|ms| - 1]);
    }
  }

  // ---------------------------------------------------------------- demand of the survivors

  /** Leaving out the containers without a current resource lowers both sums. */
  lemma {:induction false} SizedDemandIsSmaller(r: Resource, p: PodInfo, cs: seq<ContainerStats>)
    requires AllDereferenceable(cs) && forall c :: c in cs ==> NonNegativeUsage(c)
    ensures SumOf(BaseOf(r), Metrics(p, cs, true)) <= SumOf(BaseOf(r), Metrics(p, cs, false))
    ensures MaxOf(RestOf(r), Metrics(p, cs, true)) <= MaxOf(RestOf(r), Metrics(p, cs, false))
  {
    if cs != [] {
      var n := |cs| - 1;
      assert cs[..n + 1] == cs;
      assert cs[n] in cs;
      SizedDemandIsSmaller(r, p, cs[..n]);
      MetricsPush(p, cs, n, true);
      MetricsPush(p, cs, n, false);
    }
  }

  lemma MaxConcat<T>(w: T -> real, a: seq<T>, b: seq<T>)
    ensures MaxOf(w, a + b) <= Max(MaxOf(w, a), MaxOf(w, b))
  {
    forall x | x in a + b ensures w(x) <= Max(MaxOf(w, a), MaxOf(w, b)) {
      if x in a { MaxCovers(w, a, x); } else { MaxCovers(w, b, x); }
    }
    MaxBelow(w, a + b, Max(MaxOf(w, a), MaxOf(w, b)));
  }

  lemma {:induction false} SlotsAreBounded(r: Resource, cache: Cache, overrides: Overrides, pods: seq<PodInfo>)
    requires AllReady(pods)
    requires forall p :: p in pods ==> Measured(p) && MetricsFor(cache, p) == PodMetricsOf(p, overrides)
    ensures SumOf(BaseOf(r), Slots(pods)) <= SumOf(TotalOf(r, cache), pods)
    ensures MaxOf(RestOf(r), Slots(pods)) <= MaxOf(HeadroomOf(r, cache), pods)
  {
    if pods != [] {
      var p, init := pods[|pods| - 1], pods[..|pods| - 1];
      assert p in pods;
      var cs := p.stats.value.containerStats;
      SlotsAreBounded(r, cache, overrides, init);
      SizedDemandIsSmaller(r, p, cs);
      SumConcat(BaseOf(r), Slots(init), Metrics(p, cs, true));
      MaxConcat(RestOf(r), Slots(init), Metrics(p, cs, true));
      assert SumOf(BaseOf(r), Metrics(p, cs, true)) <= Total(r, PodMetricsOf(p, overrides));
      assert MaxOf(RestOf(r), Metrics(p, cs, true)) <= Headroom(r, PodMetricsOf(p, overrides));
    }
  }

  /** A list of pods that fits also fits after the headroom has been shared out. */
  lemma FinalsFit(r: Resource, cache: Cache, overrides: Overrides, budget: real, pods: seq<PodInfo>)
    requires AllReady(pods) && Fits(r, cache, budget, pods)
    requires forall p :: p in pods ==> Measured(p) && MetricsFor(cache, p) == PodMetricsOf(p, overrides)
    ensures SumOf(FinalOf(r, Slots(pods)), Slots(pods)) <= budget
  {
    var slots := Slots(pods);
    FinalsSplit(r, slots, slots);
    SharesSumToOneHeadroom(r, slots);
    SlotsAreBounded(r, cache, overrides, pods);
  }

  lemma {:induction false} RecordsSum(r: Resource, all: seq<ContainerMetric>, ms: seq<ContainerMetric>)
    ensures SumOf(Recommended(r), SurvivorRecords(all, ms)) == SumOf(FinalOf(r, all), ms)
    ensures |SurvivorRecords(all, ms)| == |ms|
  {
    if ms != [] {
      RecordsSum(r, all, ms[..|ms| - 1]);
      SumPush(Recommended(r), SurvivorRecords(all, ms[..|ms| - 1]), RecordOf(all, ms[|ms| - 1]));
    }
  }

  lemma {:induction false} RecordAt(all: seq<ContainerMetric>, ms: seq<ContainerMetric>, i: nat)
    requires i < |ms|
    ensures |SurvivorRecords(all, ms)| == |ms| && SurvivorRecords(all, ms)[i] == RecordOf(all, ms[i])
  {
    RecordsSum(CPU, all, ms);
    if i < |ms| - 1 {
      RecordAt(all, ms[..|ms| - 1], i);
    } else {
      RecordsSum(CPU, all, ms[..i]);
    }
  }

  /** `x` is to `y` as `a` is to `b`. */
  predicate InProportion(x: real, y: real, a: real, b: real) { x * b == y * a }

  lemma SharesAreInProportion(r: Resource, all: seq<ContainerMetric>, m: ContainerMetric, n: ContainerMetric)
    ensures InProportion(ShareOf(r, all)(m), ShareOf(r, all)(n), Rest(r, m), Rest(r, n))
  {
    if SumOf(BaseOf(r), all) > 0.0 && SumOf(RestOf(r), all) > 0.0 {
      CrossMultiplied(MaxOf(RestOf(r), all), Rest(r, m), Rest(r, n), SumOf(RestOf(r), all));
      ShareIsPortion(r, all, m);
      ShareIsPortion(r, all, n);
    }
  }

  lemma CrossMultiplied(most: real, x: real, y: real, total: real)
    requires total > 0.0
    ensures InProportion(Portion(most, x, total), Portion(most, y, total), x, y)
  {
    var u, v := x / total, y / total;
    assert u * total == x && v * total == y;
    assert u * y == u * (v * total) == v * (u * total) == v * x;
    assert (most * u) * y == most * (u * y) == most * (v * x) == (most * v) * x;
  }

  /** What the i-th record adds to the base demand of its container. */
  function ExtraAt(r: Resource, all: seq<ContainerMetric>, i: nat): real
    requires i < |all|
  {
    RecordAt(all, all, i);
    Recommended(r)(SurvivorRecords(all, all)[i]) - Base(r, all[i])
  }

  lemma ExtraAtIs(r: Resource, all: seq<ContainerMetric>, i: nat)
    requires i < |all|
    ensures ExtraAt(r, all, i) == FinalOf(r, all)(all[i]) - Base(r, all[i]) == ShareOf(r, all)(all[i])
  {
    RecordAt(all, all, i);
  }

  /** The extras of the survivors are one headroom, shared in proportion to their own headrooms; there are none where no
      base or no headroom is demanded at all. */
  lemma HeadroomIsSharedInProportion(r: Resource, all: seq<ContainerMetric>, i: nat, j: nat)
    requires i < |all| && j < |all|
    ensures InProportion(ExtraAt(r, all, i), ExtraAt(r, all, j), Rest(r, all[i]), Rest(r, all[j]))
    ensures SumOf(BaseOf(r), all) <= 0.0 || SumOf(RestOf(r), all) <= 0.0 ==> ExtraAt(r, all, i) == 0.0
  {
    ExtraAtIs(r, all, i);
    ExtraAtIs(r, all, j);
    SharesAreInProportion(r, all, all[i], all[j]);
  }

  lemma RecommendedInAll(r: Resource, all: seq<ContainerMetric>)
    ensures SumOf(Recommended(r), SurvivorRecords(all, all)) == SumOf(BaseOf(r), all) +
              if SumOf(BaseOf(r), all) > 0.0 && SumOf(RestOf(r), all) > 0.0 then MaxOf(RestOf(r), all) else 0.0
  {
    RecordsSum(r, all, all);
    FinalsSplit(r, all, all);
    SharesSumToOneHeadroom(r, all);
  }

  /** The budget theorem for one call: as long as one survivor could still have been evicted, all
      recommendations of the survivors stay within what was available, for both resources. */
  lemma AllocationWithinBudget(r: Resource, pods: seq<PodInfo>, overrides: Overrides, cpu: real, memory: real,
                               a: Allocation, stay: PodInfo)
    requires AllReady(pods) && DistinctKeys(pods) && IsAllocation(pods, overrides, cpu, memory, a)
    requires forall p :: p in pods ==> Measured(p)
    requires stay in a.survivors && Evictable(CacheOf(pods, overrides))(stay) && AllReady(a.survivors)
    ensures SumOf(Recommended(r), SurvivorRecords(Slots(a.survivors), Slots(a.survivors))) <=
            if r.CPU? then cpu else memory
  {
    var cache := CacheOf(pods, overrides);
    AllocationFits(r, pods, overrides, cpu, memory, a);
    SurvivorsKnown(pods, overrides, cpu, memory, a);
    FinalsFit(r, cache, overrides, if r.CPU? then cpu else memory, a.survivors);
    RecordsSum(r, Slots(a.survivors), Slots(a.survivors));
  }

  lemma SurvivorsKnown(pods: seq<PodInfo>, overrides: Overrides, cpu: real, memory: real, a: Allocation)
    requires AllReady(pods) && DistinctKeys(pods) && IsAllocation(pods, overrides, cpu, memory, a)
    requires forall p :: p in pods ==> Measured(p)
    ensures forall p :: p in a.survivors ==>
              p in pods && Measured(p) && MetricsFor(CacheOf(pods, overrides), p) == PodMetricsOf(p, overrides)
  {
    AllocationConserves(pods, overrides, cpu, memory, a);
    forall p | p in a.survivors
      ensures p in pods && MetricsFor(CacheOf(pods, overrides), p) == PodMetricsOf(p, overrides)
    {
      assert p in multiset(a.survivors) + multiset(Evicted(a));
      assert p in multiset(pods);
      CacheIsExact(pods, overrides, p);
    }
  }
}
