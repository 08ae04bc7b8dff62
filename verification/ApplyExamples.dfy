/** Concrete nodes: what an apply run does against its documentation, and one that meets the budget theorem. */
module ApplyExamples {
  import opened Prelude
  import opened Sequences
  import opened Workloads
  import opened Eviction
  import opened Allocator
  import opened ApplyGates
  import opened ApplyTask
  import opened Conservation
  import opened Resize
  import opened ApplyOutcome
  import Protection
  import Recommendations

  /** A complete statistic of a container. */
  function SomeStats(name: string): ContainerStats {
    ContainerStats(name, AppContainer, Some(0.5), None, Some(MemoryStats(32.0, 0.0)), Some(48.0), Some(0.5), Some(48.0))
  }

  function SomePod(kind: string, pod: string, constraints: Option<Constraints>, limit: real, memory: real): PodInfo {
    PodInfo("ns", pod, kind, "app", 1.0, memory,
            Some(WorkloadStat(WorkloadKey(kind, "ns", "app"), 0, false, false, constraints, RANKING_HIGH, false,
                              [SomeStats("main")], [])),
            [ContainerResources("main", 1.0, limit, memory, memory)])
  }

  lemma SomePodIsComplete(kind: string, pod: string, constraints: Option<Constraints>, limit: real, memory: real)
    requires memory >= 0.0
    ensures var p := SomePod(kind, pod, constraints, limit, memory);
      && CompleteStats(p.stats.value) && Measured(p) && Recommendations.NonNegativeRequests(p) && Labelled(p)
      && (IsGuaranteed(p) <==> limit == 1.0) && !IsBestEffort(p)
      && HasPeak(p, p.containers)
      && ContainerNames(p, p.stats.value.containerStats, true) ==
        ContainerNames(p, p.stats.value.containerStats, false) == ["main"]
  {
    var p := SomePod(kind, pod, constraints, limit, memory);
    var c := p.containers[0];
    assert c in p.containers;
    assert SomeStats("main") in p.stats.value.containerStats;
    assert p.stats.value.containerStats[..0] == [];
    assert EqualFold("main", "main");
    assert FindResource(p.containers, "main") == Some(c);
    assert FindStats(p.stats.value.containerStats, "main").Some?;
  }

  /** Used 32 MB, predicted 48 MB; a DaemonSet pod never demands more than it requests. */
  lemma SomePodDemands(kind: string, pod: string, constraints: Option<Constraints>, limit: real, memory: real,
                       overrides: Overrides)
    requires memory >= 0.0
    ensures var p := SomePod(kind, pod, constraints, limit, memory);
      && Ready(p)
      && Total(Memory, PodMetricsOf(p, overrides)) == (if kind == DAEMON_SET then Min(32.0, memory) else 32.0)
      && Headroom(Memory, PodMetricsOf(p, overrides)) == (if kind == DAEMON_SET then 0.0 else 16.0)
  {
    SomePodIsComplete(kind, pod, constraints, limit, memory);
    var p := SomePod(kind, pod, constraints, limit, memory);
    var c := SomeStats("main");
    assert p.containers[0] in p.containers;
    assert EqualFold("main", "main");
    assert FindResource(p.containers, "main") == Some(p.containers[0]);
    assert RecommendedAndRest(Memory, c) == (32.0, 16.0);
    OneCounts(p, c);
    assert MaxInit(Memory, []) == 0.0;
  }

  lemma OneCounts(p: PodInfo, c: ContainerStats)
    requires Dereferenceable(c) && Counts(p, c, false)
    ensures AllDereferenceable([c])
    ensures SumOf(BaseOf(Memory), Metrics(p, [c], false)) == Demand(Memory, p, c).0
    ensures MaxOf(RestOf(Memory), Metrics(p, [c], false)) == Demand(Memory, p, c).1
  {
    var m, none := MetricOf(p, c), Metrics(p, [], false);
    assert none == [] && none + [m] == [m] && [c][..0] == [];
    assert Metrics(p, [c], false) == none + [m];
    SumPush(BaseOf(Memory), none, m);
    MaxPush(RestOf(Memory), none, m);
    assert Base(Memory, m) == Demand(Memory, p, c).0 && Rest(Memory, m) == Demand(Memory, p, c).1;
  }

  /** A node with one protected DaemonSet pod that fits, survives the strategy, and is evicted by the loop. */
  lemma ProtectedPodCanBeEvicted()
    returns (p: PodInfo, overrides: Overrides, input: ApplyCheckInput, node: NodeInfo, a: Allocation, env: Environment)
    ensures node.pods == [p] && IsDaemonSet(p) && PodsOf(Optimizable, [p], overrides, input) == [p] && AllReady([p])
    ensures IsNodeRun([p], overrides, input, Available(CPU, node, overrides, input),
                      Available(Memory, node, overrides, input), a)
    ensures Protection.SafeFromEviction([p], overrides, p) && a.survivors == [p]
    ensures Evict(KeyOf(p)) in Actions(RecordsOfNode([p], overrides, input, a), env)
  {
    p := SomePod(DAEMON_SET, "agent", Some(Constraints(false)), 1.0, 64.0);
    overrides := map[p.stats.value.identifier := Some(Override(true, RANKING_HIGH))];
    input := TaskInput(true, 0, 0);
    SomePodIsComplete(DAEMON_SET, "agent", Some(Constraints(false)), 1.0, 64.0);
    PodsOfOne(Optimizable, p, overrides, input);
    node, a := RoomForOne([p], p, overrides, input);
    Protection.SafeFromEvictionIff([p], overrides, p);
    env := Environment(WorkloadIds([p]), map[KeyOf(p) := []], 4.0, true, false);
    ProtectedPodIsEvictedIff([p], overrides, input, Available(CPU, node, overrides, input),
                             Available(Memory, node, overrides, input), a, env, [p], p);
  }

  lemma PodsOfTwo(p: PodInfo, q: PodInfo, overrides: Overrides, input: ApplyCheckInput)
    requires ClassOf(p, overrides, input) != Optimizable && ClassOf(q, overrides, input) == Optimizable
    ensures PodsOf(Optimizable, [p, q], overrides, input) == [q]
  {
    PodsOfOne(Optimizable, p, overrides, input);
    PodsOfPush(Optimizable, [p, q], 1, overrides, input);
    assert [p, q][..1] == [p] && [p, q][..2] == [p, q];
  }

  lemma TwoPodsAreProper(p: PodInfo, q: PodInfo)
    requires p.stats.Some? && CompleteStats(p.stats.value) && q.stats.Some? && CompleteStats(q.stats.value)
    requires KeyOf(p) != KeyOf(q)
    ensures Gated([p, q]) && DistinctKeys([p, q])
  {
  }

  /** Next to any optimizable pod of its workload, an excluded pod with limits equal to its requests is evicted. */
  lemma ExcludedSiblingIsEvicted(p: PodInfo, q: PodInfo, overrides: Overrides, input: ApplyCheckInput)
    returns (node: NodeInfo, a: Allocation, env: Environment)
    requires ClassOf(p, overrides, input) == OptimizableButExcluded && ClassOf(q, overrides, input) == Optimizable
    requires p.stats.Some? && CompleteStats(p.stats.value) && q.stats.Some? && CompleteStats(q.stats.value)
    requires KeyOf(p) != KeyOf(q) && WorkloadOf(p) == WorkloadOf(q) && IsGuaranteed(p) && HasPeak(p, p.containers)
    ensures node.pods == [p, q] && env.ids == {WorkloadOf(q)}
    ensures IsNodeRun([p, q], overrides, input, Available(CPU, node, overrides, input),
                      Available(Memory, node, overrides, input), a)
    ensures Evict(KeyOf(p)) in Actions(RecordsOfNode([p, q], overrides, input, a), env)
  {
    PodsOfTwo(p, q, overrides, input);
    TwoPodsAreProper(p, q);
    node, a := RoomForOne([p, q], q, overrides, input);
    env := Environment({WorkloadOf(q)}, map[KeyOf(p) := [], KeyOf(q) := []], 4.0, true, false);
    assert Recorded(p, overrides, input, a) && AsksForEviction(p, overrides, input, a) && IsActedOn(p, env);
    assert p in [p, q];
    PodIsEvictedIff([p, q], overrides, input, Available(CPU, node, overrides, input),
                    Available(Memory, node, overrides, input), a, env, p);
  }

  /** Guaranteed pods are not to be optimised, so one is classified as excluded; it is evicted all the same because a
      burstable sibling is optimizable. */
  lemma GuaranteedSiblingIsEvicted()
    returns (p: PodInfo, q: PodInfo, overrides: Overrides, node: NodeInfo, a: Allocation, env: Environment)
    ensures var input := TaskInput(false, 0, 0);
      && node.pods == [p, q] && WorkloadOf(p) == WorkloadOf(q) && env.ids == {WorkloadOf(q)}
      && ClassOf(p, overrides, input) == OptimizableButExcluded && ClassOf(q, overrides, input) == Optimizable
      && IsNodeRun([p, q], overrides, input, Available(CPU, node, overrides, input),
                   Available(Memory, node, overrides, input), a)
      && Evict(KeyOf(p)) in Actions(RecordsOfNode([p, q], overrides, input, a), env)
  {
    p, q := SomePod("Deployment", "a", None, 1.0, 64.0), SomePod("Deployment", "b", None, 0.0, 64.0);
    overrides := map[p.stats.value.identifier := Some(Override(true, RANKING_HIGH))];
    SomePodIsComplete("Deployment", "a", None, 1.0, 64.0);
    SomePodIsComplete("Deployment", "b", None, 0.0, 64.0);
    PodKeysDiffer();
    node, a, env := ExcludedSiblingIsEvicted(p, q, overrides, TaskInput(false, 0, 0));
  }

  lemma PodKeysDiffer()
    ensures PodKey("ns", "a") != PodKey("ns", "b")
  {
    assert PodKey("ns", "a")[3] == 'a' && PodKey("ns", "b")[3] == 'b';
  }

  /** All assumptions of the budget theorem hold together, for a node with one ordinary pod. */
  lemma BudgetAssumptionsHold()
    returns (node: NodeInfo, overrides: Overrides, input: ApplyCheckInput, a: Allocation, stay: PodInfo)
    ensures Gated(node.pods) && DistinctKeys(node.pods)
    ensures forall p :: p in node.pods ==> (p.stats.Some? ==> Measured(p)) && Recommendations.NonNegativeRequests(p)
    ensures Allocates(PodsOf(Optimizable, node.pods, overrides, input), overrides,
                      Available(CPU, node, overrides, input), Available(Memory, node, overrides, input), a)
    ensures stay in a.survivors && AllReady(PodsOf(Optimizable, node.pods, overrides, input))
    ensures Evictable(CacheOf(PodsOf(Optimizable, node.pods, overrides, input), overrides))(stay)
  {
    stay := SomePod("Deployment", "a", None, 0.0, 64.0);
    overrides := map[stay.stats.value.identifier := Some(Override(true, RANKING_HIGH))];
    input := TaskInput(false, 0, 0);
    SomePodIsComplete("Deployment", "a", None, 0.0, 64.0);
    PodsOfOne(Optimizable, stay, overrides, input);
    node, a := RoomForOne([stay], stay, overrides, input);
  }

  // ---------------------------------------------------------------- pods the documentation protects

  lemma TwoOptimizable(p: PodInfo, q: PodInfo, overrides: Overrides, input: ApplyCheckInput)
    requires ClassOf(p, overrides, input) == Optimizable && ClassOf(q, overrides, input) == Optimizable
    ensures PodsOf(Optimizable, [p, q], overrides, input) == [p, q]
    ensures PodsOf(OptimizableButExcluded, [p, q], overrides, input) ==
              PodsOf(NonOptimizable, [p, q], overrides, input) == []
  {
    forall c ensures PodsOf(c, [p, q], overrides, input) == if c == Optimizable then [p, q] else [] {
      PodsOfOne(c, p, overrides, input);
      PodsOfPush(c, [p, q], 1, overrides, input);
      assert [p, q][..1] == [p] && [p, q][..2] == [p, q];
    }
  }

  lemma ProtectedOfTwo(f: PodInfo -> bool, p: PodInfo, q: PodInfo)
    requires f(p) && !f(q)
    ensures Select(f, [p, q], false) == [q]
  {
    assert [p, q][1..] == [q] && [q][1..] == [];
    assert Select(f, [q][1..], false) == [];
    assert Select(f, [q], false) == [q];
  }

  lemma DoNotFitTogether(p: PodInfo, q: PodInfo, overrides: Overrides, memory: real)
    requires p.stats.Some? && q.stats.Some? && AllReady([p, q]) && KeyOf(p) != KeyOf(q)
    requires !Protection.IsProtected(p, overrides) && Protection.IsProtected(q, overrides)
    requires Total(Memory, PodMetricsOf(p, overrides)) + Protection.Demanded(Memory, q, overrides) > memory
    ensures Evictable(CacheOf([p, q], overrides))(p)
    ensures !Fits(Memory, CacheOf([p, q], overrides), memory, Protection.Protected([p, q], overrides) + [p])
  {
    var cache := CacheOf([p, q], overrides);
    assert p in [p, q] && q in [p, q];
    CacheIsExact([p, q], overrides, p);
    CacheIsExact([p, q], overrides, q);
    ProtectedOfTwo(Evictable(cache), p, q);
    SumPush(TotalOf(Memory, cache), [q], p);
    MaxPush(HeadroomOf(Memory, cache), [q], p);
    assert [q][..0] == [];
  }

  /** Two optimizable pods of a node with 40 MB that do not fit together; the first is not protected, the second is. */
  predicate CrowdsOut(q: PodInfo, p: PodInfo, overrides: Overrides) {
    ClassOf(p, overrides, TaskInput(true, 0, 0)) == Optimizable &&
    ClassOf(q, overrides, TaskInput(true, 0, 0)) == Optimizable &&
    p.stats.Some? && CompleteStats(p.stats.value) && q.stats.Some? && CompleteStats(q.stats.value) &&
    KeyOf(p) != KeyOf(q) && ContainerNames(p, p.stats.value.containerStats, false) != [] &&
    !Protection.IsProtected(p, overrides) && Protection.IsProtected(q, overrides) &&
    Total(Memory, PodMetricsOf(p, overrides)) + Protection.Demanded(Memory, q, overrides) > 40.0
  }

  lemma UnprotectedIsEvicted(p: PodInfo, q: PodInfo, overrides: Overrides)
    returns (node: NodeInfo, a: Allocation, env: Environment)
    requires CrowdsOut(q, p, overrides)
    ensures var input := TaskInput(true, 0, 0);
      && node == NodeInfo(4.0, 40.0, [p, q]) && env.ids == {WorkloadOf(p)}
      && IsNodeRun([p, q], overrides, input, Available(CPU, node, overrides, input),
                   Available(Memory, node, overrides, input), a)
      && p in Evicted(a) && Evict(KeyOf(p)) in Actions(RecordsOfNode([p, q], overrides, input, a), env)
  {
    var input := TaskInput(true, 0, 0);
    node := NodeInfo(4.0, 40.0, [p, q]);
    TwoOptimizable(p, q, overrides, input);
    TwoPodsAreProper(p, q);
    a := Protection.SomeAllocation([p, q], overrides, 4.0, 40.0);
    AllocationConserves([p, q], overrides, 4.0, 40.0, a);
    assert AllReady(a.memoryEvicted) && AllReady(a.cpuEvicted);
    DoNotFitTogether(p, q, overrides, 40.0);
    Protection.CrowdedOutIsEvicted(Memory, [p, q], overrides, 4.0, 40.0, a, p);
    env := Environment({WorkloadOf(p)}, map[KeyOf(p) := []], 4.0, true, false);
    OnlyOneFate([p, q], overrides, 4.0, 40.0, a, p);
    assert Available(CPU, node, overrides, input) == 4.0 && Available(Memory, node, overrides, input) == 40.0;
    PodIsEvictedIff([p, q], overrides, input, 4.0, 40.0, a, env, p);
  }

  lemma OnlyOneFate(pods: seq<PodInfo>, overrides: Overrides, cpu: real, memory: real, a: Allocation, p: PodInfo)
    requires AllReady(pods) && DistinctKeys(pods) && IsAllocation(pods, overrides, cpu, memory, a)
    requires p in pods && p in Evicted(a)
    ensures p !in a.survivors
  {
    ExactlyOneFate(pods, overrides, cpu, memory, a, p);
  }

  lemma SomePodIsOptimizable(kind: string, pod: string, constraints: Option<Constraints>, limit: real, memory: real,
                             overrides: Overrides)
    requires memory >= 0.0
    requires WorkloadKey(kind, "ns", "app") in overrides
    requires var o := overrides[WorkloadKey(kind, "ns", "app")]; o.Some? && o.value.enabled
    ensures ClassOf(SomePod(kind, pod, constraints, limit, memory), overrides, TaskInput(true, 0, 0)) == Optimizable
  {
    SomePodIsComplete(kind, pod, constraints, limit, memory);
  }

  /** A node of 40 MB whose two pods request 16 MB each: a DaemonSet pod whose constraints were not recorded, and a
      protected pod that has grown to 32 MB, with 16 MB of headroom. The DaemonSet pod is evicted. */
  lemma UnrecordedDaemonSetIsEvicted()
    returns (p: PodInfo, q: PodInfo, overrides: Overrides, node: NodeInfo, a: Allocation, env: Environment)
    ensures var input := TaskInput(true, 0, 0);
      && IsDaemonSet(p) && p.stats.Some? && p.stats.value.constraints == None
      && node == NodeInfo(4.0, 40.0, [p, q]) && p.requestedMemory + q.requestedMemory <= 40.0
      && IsNodeRun([p, q], overrides, input, Available(CPU, node, overrides, input),
                   Available(Memory, node, overrides, input), a)
      && p in Evicted(a) && Evict(KeyOf(p)) in Actions(RecordsOfNode([p, q], overrides, input, a), env)
  {
    p, q := Bystander(DAEMON_SET), Grown();
    overrides := ChosenOverrides(DAEMON_SET, RANKING_HIGH);
    BystanderIsCrowdedOut(DAEMON_SET, overrides);
    node, a, env := UnprotectedIsEvicted(p, q, overrides);
  }

  /** The same for a pod whose user chose "no eviction". */
  lemma UnrecordedNoEvictionIsEvicted()
    returns (p: PodInfo, q: PodInfo, overrides: Overrides, node: NodeInfo, a: Allocation, env: Environment)
    ensures var input := TaskInput(true, 0, 0);
      && p.stats.Some? && p.stats.value.constraints == None && EvictionRanking(p, overrides) == RANKING_DISABLED
      && node == NodeInfo(4.0, 40.0, [p, q]) && p.requestedMemory + q.requestedMemory <= 40.0
      && IsNodeRun([p, q], overrides, input, Available(CPU, node, overrides, input),
                   Available(Memory, node, overrides, input), a)
      && p in Evicted(a) && Evict(KeyOf(p)) in Actions(RecordsOfNode([p, q], overrides, input, a), env)
  {
    p, q := Bystander("StatefulSet"), Grown();
    overrides := ChosenOverrides("StatefulSet", RANKING_DISABLED);
    BystanderIsCrowdedOut("StatefulSet", overrides);
    node, a, env := UnprotectedIsEvicted(p, q, overrides);
  }

  function Bystander(kind: string): PodInfo { SomePod(kind, "a", None, 0.0, 16.0) }

  function Grown(): PodInfo { SomePod("Deployment", "b", Some(Constraints(true)), 0.0, 16.0) }

  /** The overrides the run builds: the user chose a ranking for one workload, and nothing else but to enable both. */
  lemma ChosenOverrides(kind: string, ranking: int) returns (overrides: Overrides)
    requires (kind != [] && kind[0] != 'D') || kind == DAEMON_SET
    ensures var mine, other := WorkloadKey(kind, "ns", "app"), WorkloadKey("Deployment", "ns", "app");
      && mine in overrides && other in overrides
      && overrides[mine] == Some(WithDefaults(Some(UserOverride(Some(true), Some(ranking))), RANKING_HIGH))
      && overrides[other] == Some(WithDefaults(Some(UserOverride(Some(true), None)), RANKING_HIGH))
  {
    var mine, other := WorkloadKey(kind, "ns", "app"), WorkloadKey("Deployment", "ns", "app");
    if kind == DAEMON_SET {
      assert mine[1] == 'a' && other[1] == 'e';
    } else {
      assert mine[0] == kind[0] && other[0] == 'D';
    }
    overrides := map[other := Some(Override(true, RANKING_HIGH)), mine := Some(Override(true, ranking))];
  }

  lemma BystanderIsCrowdedOut(kind: string, overrides: Overrides)
    requires kind != "Deployment"
    requires var mine, other := WorkloadKey(kind, "ns", "app"), WorkloadKey("Deployment", "ns", "app");
      && mine in overrides && overrides[mine].Some? && overrides[mine].value.enabled
      && other in overrides && overrides[other].Some? && overrides[other].value.enabled
    ensures CrowdsOut(Grown(), Bystander(kind), overrides)
  {
    SomePodIsComplete(kind, "a", None, 0.0, 16.0);
    SomePodIsComplete("Deployment", "b", Some(Constraints(true)), 0.0, 16.0);
    SomePodIsOptimizable(kind, "a", None, 0.0, 16.0, overrides);
    SomePodIsOptimizable("Deployment", "b", Some(Constraints(true)), 0.0, 16.0, overrides);
    SomePodDemands(kind, "a", None, 0.0, 16.0, overrides);
    SomePodDemands("Deployment", "b", Some(Constraints(true)), 0.0, 16.0, overrides);
    PodKeysDiffer();
  }
}
