/** What one pod demands, read off its statistics: containers, init containers and rankings. */
module PodDemand {
  import opened Prelude
  import opened Sequences
  import opened Workloads
  import opened Eviction

  // ---------------------------------------------------------------- containers

  lemma {:induction false} MetricsAddUp(p: PodInfo, a: seq<ContainerStats>, b: seq<ContainerStats>, sizedOnly: bool)
    requires AllDereferenceable(a) && AllDereferenceable(b)
    ensures AllDereferenceable(a + b)
    ensures Metrics(p, a + b, sizedOnly) == Metrics(p, a, sizedOnly) + Metrics(p, b, sizedOnly)
  {
    if b == [] {
      assert a + b == a;
    } else {
      var n := |b| - 1;
      assert (a + b)[..|a + b| - 1] == a + b[..n];
      MetricsAddUp(p, a, b[..n], sizedOnly);
    }
  }

  /** Each container counts on its own. An init container never does. A DaemonSet container without a current resource
      does not either; any other one counts towards the ranking but is not sized. */
  lemma EachContainerCounts(p: PodInfo, a: seq<ContainerStats>, c: ContainerStats, sizedOnly: bool)
    requires AllDereferenceable(a) && (c.containerType != InitContainer ==> Dereferenceable(c))
    ensures AllDereferenceable(a + [c])
    ensures c.containerType == InitContainer ==> Metrics(p, a + [c], sizedOnly) == Metrics(p, a, sizedOnly)
    ensures (forall x :: x in p.containers ==> !EqualFold(x.name, c.containerName)) &&
            (sizedOnly || p.workloadKind == "DaemonSet") ==>
              Metrics(p, a + [c], sizedOnly) == Metrics(p, a, sizedOnly)
    ensures c.containerType != InitContainer && !sizedOnly && p.workloadKind != "DaemonSet" ==>
              Metrics(p, a + [c], sizedOnly) == Metrics(p, a, sizedOnly) + [MetricOf(p, c)]
    ensures c.containerType != InitContainer &&
            (exists x :: x in p.containers && EqualFold(x.name, c.containerName)) ==>
              Metrics(p, a + [c], sizedOnly) == Metrics(p, a, sizedOnly) + [MetricOf(p, c)]
  {
    assert (a + [c])[..|a + [c]| - 1] == a;
  }

  /** Base demand and headroom of one container, in numbers. An out-of-memory kill above the base replaces it. */
  lemma ContainerDemandIs(p: PodInfo, c: ContainerStats)
    requires Dereferenceable(c) && c.psiAdjustedP75.None? && p.workloadKind != "DaemonSet"
    ensures var m, usage, p75, oom := MetricOf(p, c), c.cpuP75.value, c.memory.value.p75, c.memory.value.oomMemory;
      && (m.recommendedCPU, m.restCPU) == (usage, Max(0.0, c.predictedCPU.value - usage))
      && (oom > 0.0 && oom > p75 ==> (m.recommendedMemory, m.restMemory) == (oom, 0.0))
      && (oom <= 0.0 || oom <= p75 ==>
            (m.recommendedMemory, m.restMemory) == (p75, Max(0.0, c.predictedMemory.value - p75)))
  {
    var m := MetricOf(p, c);
    assert Base(CPU, m) == Demand(CPU, p, c).0 && Rest(CPU, m) == Demand(CPU, p, c).1;
    assert Base(Memory, m) == Demand(Memory, p, c).0 && Rest(Memory, m) == Demand(Memory, p, c).1;
  }

  // ---------------------------------------------------------------- the pod

  predicate IsInitRequest(r: Resource, os: seq<OriginalResources>, x: real) {
    exists o :: o in os && o.containerType == InitContainer && OriginalRequest(r, o) == x
  }

  lemma {:induction false} MaxInitAttained(r: Resource, os: seq<OriginalResources>)
    ensures forall o :: o in os && o.containerType == InitContainer ==> OriginalRequest(r, o) <= MaxInit(r, os)
    ensures MaxInit(r, os) == 0.0 || IsInitRequest(r, os, MaxInit(r, os))
  {
    if os != [] {
      var init, last := os[..|os| - 1], os[|os| - 1];
      MaxInitAttained(r, init);
      assert os == init + [last];
      assert last in os;
      if IsInitRequest(r, init, MaxInit(r, init)) {
        var o :| o in init && o.containerType == InitContainer && OriginalRequest(r, o) == MaxInit(r, init);
        assert o in os;
      }
    }
  }

  predicate HasHeadroom(r: Resource, ms: seq<ContainerMetric>, x: real) { exists m :: m in ms && Rest(r, m) == x }

  /** A pod demands the sum of its containers, or the largest request among its init containers where that is more. Its
      headroom is the largest of its containers, not their sum. */
  lemma PodDemandIs(r: Resource, p: PodInfo, overrides: map<string, Option<Override>>)
    requires Ready(p)
    ensures var s, m := p.stats.value, PodMetricsOf(p, overrides);
            var ms := Metrics(p, s.containerStats, false);
      && Total(r, m) >= SumOf(BaseOf(r), ms)
      && (forall o :: o in s.originals && o.containerType == InitContainer ==> Total(r, m) >= OriginalRequest(r, o))
      && (Total(r, m) == SumOf(BaseOf(r), ms) || Total(r, m) == 0.0 || IsInitRequest(r, s.originals, Total(r, m)))
      && (forall x :: x in ms ==> Rest(r, x) <= Headroom(r, m))
      && (Headroom(r, m) == 0.0 || HasHeadroom(r, ms, Headroom(r, m)))
  {
    var s := p.stats.value;
    var ms := Metrics(p, s.containerStats, false);
    MaxInitAttained(r, s.originals);
    forall x | x in ms ensures Rest(r, x) <= MaxOf(RestOf(r), ms) { MaxCovers(RestOf(r), ms, x); }
    var _ := MaxAttained(RestOf(r), ms);
  }

  // ---------------------------------------------------------------- the ranking

  /** The ranking of a pod, for every override. With the overrides the apply run builds: the user's choice, else the
      ranking stored with the workload, else high. A workload without an override keeps its own; a nil override counts
      as medium. */
  lemma RankingIs(p: PodInfo, user: Option<UserOverride>, overrides: map<string, Option<Override>>)
    requires p.stats.Some?
    ensures var stored, rank := p.stats.value.evictionRanking, EvictionRanking(p, overrides);
            var id := p.stats.value.identifier;
            var chosen := if user.Some? && user.value.evictionRanking.Some?
                          then user.value.evictionRanking.value else 0;
      && (id !in overrides && stored != 0 ==> rank == stored)
      && (id !in overrides && stored == 0 ==> rank == 4)
      && (id in overrides && overrides[id].None? ==> rank == 3)
      && (id in overrides && overrides[id] == Some(WithDefaults(user, stored)) ==>
            (chosen != 0 ==> rank == chosen) &&
            (chosen == 0 && stored != 0 ==> rank == stored) &&
            (chosen == 0 && stored == 0 ==> rank == 4))
  {
  }

  /** A workload is enabled only by its user. */
  lemma EnabledByUserOnly(user: Option<UserOverride>, storedRanking: int)
    ensures WithDefaults(user, storedRanking).enabled <==> user.Some? && user.value.enabled == Some(true)
  {
  }
}
