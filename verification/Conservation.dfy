/** Which records each pod receives from one OptimizeNode call. */
module Conservation {
  import opened Prelude
  import opened Sequences
  import opened Workloads
  import opened Eviction
  import opened Allocator

  function IsFor(p: PodInfo): Recommendation -> bool { (rec: Recommendation) => rec.pod == p }

  /** The records of one pod, in order. */
  function RecordsOf(p: PodInfo, recs: seq<Recommendation>): seq<Recommendation> {
    Select(IsFor(p), recs, true)
  }

  /** `recs` holds exactly one record per listed container, all for `p` and all with the same verdict. */
  predicate OneRecordPer(p: PodInfo, names: seq<string>, evict: bool, recs: seq<Recommendation>) {
    |recs| == |names| &&
    forall i :: 0 <= i < |recs| ==> recs[i].pod == p && recs[i].containerName == names[i] && recs[i].evict == evict
  }

  /** The non-init containers; with `sized`, only those that have a current resource. */
  function ContainerNames(p: PodInfo, cs: seq<ContainerStats>, sized: bool): seq<string> {
    if cs == [] then [] else
      var c := cs[|cs| - 1];
      ContainerNames(p, cs[..|cs| - 1], sized) +
      if c.containerType != InitContainer && (sized ==> FindResource(p.containers, c.containerName).Some?)
      then [c.containerName] else []
  }

  lemma {:induction false} EvictRecordsShape(p: PodInfo, cs: seq<ContainerStats>)
    requires AllDereferenceable(cs)
    ensures OneRecordPer(p, ContainerNames(p, cs, false), true, EvictRecords(p, cs))
  {
    if cs != [] {
      EvictRecordsShape(p, cs[..|cs| - 1]);
    }
  }

  /** The predicted peak of a container, to be evicted. */
  predicate IsPeakRecord(p: PodInfo, c: ContainerStats, rec: Recommendation)
    requires Dereferenceable(c)
  {
    rec.pod == p && rec.containerName == c.containerName && rec.evict &&
    rec.cpu == Max(c.predictedCPU.value, if c.psiAdjustedP75.Some? then c.psiAdjustedP75.value else c.cpuP75.value) &&
    rec.memory == Max(c.predictedMemory.value, c.memory.value.p75)
  }

  /** An evicted pod is recommended its predicted peaks, container by container. */
  lemma {:induction false} EvictRecordsArePeaks(p: PodInfo, cs: seq<ContainerStats>, rec: Recommendation)
    requires AllDereferenceable(cs)
    ensures rec in EvictRecords(p, cs) <==>
              exists c :: c in cs && c.containerType != InitContainer && IsPeakRecord(p, c, rec)
  {
    if cs != [] {
      var init, last := cs[..|cs| - 1], cs[|cs| - 1];
      assert cs == init + [last];
      EvictRecordsArePeaks(p, init, rec);
      assert last in cs;
    }
  }

  lemma {:induction false} SurvivorRecordsShape(all: seq<ContainerMetric>, p: PodInfo, cs: seq<ContainerStats>)
    requires AllDereferenceable(cs)
    ensures OneRecordPer(p, ContainerNames(p, cs, true), false, SurvivorRecords(all, Metrics(p, cs, true)))
  {
    if cs != [] {
      var n := |cs| - 1;
      assert cs[..n + 1] == cs;
      SurvivorRecordsShape(all, p, cs[..n]);
      MetricsPush(p, cs, n, true);
      if Counts(p, cs[n], true) {
        SurvivorRecordsConcat(all, Metrics(p, cs[..n], true), [MetricOf(p, cs[n])]);
      }
    }
  }

  lemma {:induction false} SurvivorRecordsConcat(all: seq<ContainerMetric>, a: seq<ContainerMetric>,
                                                 b: seq<ContainerMetric>)
    ensures SurvivorRecords(all, a + b) == SurvivorRecords(all, a) + SurvivorRecords(all, b)
  {
    if b == [] {
      assert a + b == a;
    } else {
      assert (a + b)[..|a + b| - 1] == a + b[..|b| - 1];
      SurvivorRecordsConcat(all, a, b[..|b| - 1]);
    }
  }

  lemma {:induction false} BlockOfOther(p: PodInfo, q: PodInfo, recs: seq<Recommendation>)
    requires forall i :: 0 <= i < |recs| ==> recs[i].pod == q
    ensures RecordsOf(p, recs) == if p == q then recs else []
  {
    if recs != [] {
      BlockOfOther(p, q, recs[1..]);
    }
  }

  lemma DropLastCount(pods: seq<PodInfo>, p: PodInfo)
    requires pods != []
    ensures multiset(pods)[p] == multiset(pods[..|pods| - 1])[p] + if pods[|pods| - 1] == p then 1 else 0
    ensures p in pods <==> multiset(pods)[p] > 0
  {
    assert pods == pods[..|pods| - 1] + [pods[|pods| - 1]];
  }

  lemma {:induction false} EvictionRecordsOf(p: PodInfo, pods: seq<PodInfo>)
    requires AllReady(pods) && multiset(pods)[p] <= 1
    ensures RecordsOf(p, EvictionRecords(pods)) ==
            if p in pods then EvictRecords(p, p.stats.value.containerStats) else []
  {
    if pods != [] {
      var last, init := pods[|pods| - 1], pods[..|pods| - 1];
      assert last in pods;
      var block := EvictRecords(last, last.stats.value.containerStats);
      DropLastCount(pods, p);
      if init != [] { DropLastCount(init, p); }
      EvictionRecordsOf(p, init);
      EvictRecordsShape(last, last.stats.value.containerStats);
      SelectConcat(IsFor(p), EvictionRecords(init), block, true);
      BlockOfOther(p, last, block);
    }
  }

  lemma {:induction false} SurvivorRecordsOf(p: PodInfo, all: seq<ContainerMetric>, pods: seq<PodInfo>)
    requires AllReady(pods) && multiset(pods)[p] <= 1
    ensures RecordsOf(p, SurvivorRecords(all, Slots(pods))) ==
            if p in pods then SurvivorRecords(all, Metrics(p, p.stats.value.containerStats, true)) else []
  {
    if pods != [] {
      var last, init := pods[|pods| - 1], pods[..|pods| - 1];
      assert last in pods;
      var ms := Metrics(last, last.stats.value.containerStats, true);
      DropLastCount(pods, p);
      if init != [] { DropLastCount(init, p); }
      SurvivorRecordsOf(p, all, init);
      SurvivorRecordsConcat(all, Slots(init), ms);
      SurvivorRecordsShape(all, last, last.stats.value.containerStats);
      SelectConcat(IsFor(p), SurvivorRecords(all, Slots(init)), SurvivorRecords(all, ms), true);
      BlockOfOther(p, last, SurvivorRecords(all, ms));
    }
  }

  lemma {:induction false} DistinctCount(pods: seq<PodInfo>, p: PodInfo)
    requires DistinctKeys(pods)
    ensures multiset(pods)[p] <= 1
  {
    if pods != [] {
      DistinctCount(pods[..|pods| - 1], p);
      DropLastCount(pods, p);
      assert forall i :: 0 <= i < |pods| - 1 ==> pods[i] != pods[|pods| - 1];
      if pods[|pods| - 1] == p && |pods| > 1 { DropLastCount(pods[..|pods| - 1], p); }
    }
  }

  /** With distinct keys a pod is in exactly one of the three groups, once. */
  lemma ExactlyOneFate(pods: seq<PodInfo>, overrides: Overrides, cpu: real, memory: real, a: Allocation, p: PodInfo)
    requires AllReady(pods) && DistinctKeys(pods) && IsAllocation(pods, overrides, cpu, memory, a) && p in pods
    ensures multiset(a.memoryEvicted)[p] + multiset(a.cpuEvicted)[p] + multiset(a.survivors)[p] == 1
    ensures p in a.memoryEvicted <==> multiset(a.memoryEvicted)[p] == 1
    ensures p in a.cpuEvicted <==> multiset(a.cpuEvicted)[p] == 1
    ensures p in a.survivors <==> multiset(a.survivors)[p] == 1
  {
    AllocationConserves(pods, overrides, cpu, memory, a);
    DistinctCount(pods, p);
    DropLastCount(pods, p);
    assert multiset(Evicted(a)) == multiset(a.memoryEvicted) + multiset(a.cpuEvicted);
    assert (multiset(a.survivors) + multiset(Evicted(a)))[p] == 1;
  }

  lemma RecordsOfParts(p: PodInfo, a: seq<Recommendation>, b: seq<Recommendation>, c: seq<Recommendation>)
    ensures RecordsOf(p, a) == [] && RecordsOf(p, b) == [] ==> RecordsOf(p, a + b + c) == RecordsOf(p, c)
    ensures RecordsOf(p, a) == [] && RecordsOf(p, c) == [] ==> RecordsOf(p, a + b + c) == RecordsOf(p, b)
    ensures RecordsOf(p, b) == [] && RecordsOf(p, c) == [] ==> RecordsOf(p, a + b + c) == RecordsOf(p, a)
  {
    SelectConcat(IsFor(p), a + b, c, true);
    SelectConcat(IsFor(p), a, b, true);
  }

  lemma RecordsOfOneGroup(p: PodInfo, a: Allocation)
    requires AllReady(a.memoryEvicted) && AllReady(a.cpuEvicted) && AllReady(a.survivors)
    requires multiset(a.memoryEvicted)[p] + multiset(a.cpuEvicted)[p] + multiset(a.survivors)[p] == 1
    ensures p.stats.Some? && AllDereferenceable(p.stats.value.containerStats)
    ensures RecordsOf(p, AllRecords(a)) ==
            if multiset(a.survivors)[p] == 0 then EvictRecords(p, p.stats.value.containerStats)
            else SurvivorRecords(Slots(a.survivors), Metrics(p, p.stats.value.containerStats, true))
  {
    var slots := Slots(a.survivors);
    EvictionRecordsOf(p, a.memoryEvicted);
    EvictionRecordsOf(p, a.cpuEvicted);
    SurvivorRecordsOf(p, slots, a.survivors);
    RecordsOfParts(p, EvictionRecords(a.memoryEvicted), EvictionRecords(a.cpuEvicted), SurvivorRecords(slots, slots));
    if multiset(a.survivors)[p] == 0 {
      assert p in multiset(a.memoryEvicted) || p in multiset(a.cpuEvicted);
    }
  }

  /** Each pod either is evicted, with one eviction record per non-init container, or survives, with one
      resize record per non-init container that has a current resource; never both. */
  lemma EveryPodIsAccountedFor(pods: seq<PodInfo>, overrides: Overrides, cpu: real, memory: real, a: Allocation,
                               p: PodInfo)
    requires AllReady(pods) && DistinctKeys(pods) && IsAllocation(pods, overrides, cpu, memory, a)
    requires AllReady(a.memoryEvicted) && AllReady(a.cpuEvicted) && AllReady(a.survivors)
    requires p in pods
    ensures p in Evicted(a) <==> p !in a.survivors
    ensures p in Evicted(a) ==>
              OneRecordPer(p, ContainerNames(p, p.stats.value.containerStats, false), true, RecordsOf(p, AllRecords(a)))
    ensures p in a.survivors ==>
              OneRecordPer(p, ContainerNames(p, p.stats.value.containerStats, true), false, RecordsOf(p, AllRecords(a)))
  {
    ExactlyOneFate(pods, overrides, cpu, memory, a, p);
    RecordsOfOneGroup(p, a);
    EvictRecordsShape(p, p.stats.value.containerStats);
    SurvivorRecordsShape(Slots(a.survivors), p, p.stats.value.containerStats);
  }
}
