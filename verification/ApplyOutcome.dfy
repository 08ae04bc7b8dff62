/** What one apply run does to each pod of a node: the records of the node, then the loop over them. */
module ApplyOutcome {
  import opened Prelude
  import opened Workloads
  import opened Eviction
  import opened Allocator
  import opened ApplyGates
  import opened ApplyTask
  import opened Conservation
  import opened Resize
  import Protection
  import Recommendations

  // ---------------------------------------------------------------- the records of a node

  /** The records to apply, from the non-optimizable pods, the excluded pods and the outcome of the strategy. */
  function ToApply(untouchable: seq<PodInfo>, excluded: seq<PodInfo>, a: Allocation): seq<Recommendation>
    requires AllComplete(excluded) && AllReady(a.memoryEvicted) && AllReady(a.cpuEvicted) && AllReady(a.survivors)
  {
    DefaultRecords(untouchable) + ExcludedRecords(excluded) + AllRecords(a)
  }

  // ---------------------------------------------------------------- whose record is it

  lemma {:induction false} DefaultRecordsOf(pods: seq<PodInfo>, rec: Recommendation)
    ensures rec in DefaultRecords(pods) <==> rec.pod in pods && rec in CurrentRecords(rec.pod, rec.pod.containers)
  {
    if pods != [] {
      var last, init := pods[|pods| - 1], pods[..|pods| - 1];
      assert pods == init + [last];
      DefaultRecordsOf(init, rec);
      CurrentRecordsShape(last, last.containers);
    }
  }

  lemma {:induction false} ExcludedRecordsOf(pods: seq<PodInfo>, rec: Recommendation)
    requires AllComplete(pods)
    ensures rec in ExcludedRecords(pods) <==> rec.pod in pods && rec in PeakRecords(rec.pod, rec.pod.containers)
  {
    if pods != [] {
      var last, init := pods[|pods| - 1], pods[..|pods| - 1];
      assert pods == init + [last];
      ExcludedRecordsOf(init, rec);
      PeakRecordsShape(last, last.containers);
    }
  }

  lemma {:induction false} EvictRecordsAreOf(p: PodInfo, cs: seq<ContainerStats>, rec: Recommendation)
    requires AllDereferenceable(cs) && rec in EvictRecords(p, cs)
    ensures rec.pod == p
  {
    EvictRecordsShape(p, cs);
  }

  lemma {:induction false} EvictionRecordsAreOf(pods: seq<PodInfo>, rec: Recommendation)
    requires AllReady(pods) && rec in EvictionRecords(pods)
    ensures rec.pod in pods
  {
    var last, init := pods[|pods| - 1], pods[..|pods| - 1];
    assert last in pods;
    if rec in EvictionRecords(init) {
      EvictionRecordsAreOf(init, rec);
    } else {
      EvictRecordsAreOf(last, last.stats.value.containerStats, rec);
    }
  }

  lemma {:induction false} SurvivorRecordsAreOf(all: seq<ContainerMetric>, pods: seq<PodInfo>, rec: Recommendation)
    requires AllReady(pods) && rec in SurvivorRecords(all, Slots(pods))
    ensures rec.pod in pods
  {
    var last, init := pods[|pods| - 1], pods[..|pods| - 1];
    assert last in pods;
    var ms := Metrics(last, last.stats.value.containerStats, true);
    SurvivorRecordsConcat(all, Slots(init), ms);
    if rec in SurvivorRecords(all, Slots(init)) {
      SurvivorRecordsAreOf(all, init, rec);
    } else {
      SurvivorRecordsShape(all, last, last.stats.value.containerStats);
    }
  }

  lemma StrategyRecordsAreOf(pods: seq<PodInfo>, overrides: Overrides, cpu: real, memory: real, a: Allocation,
                             rec: Recommendation)
    requires Allocates(pods, overrides, cpu, memory, a) && rec in AllRecords(a)
    ensures rec.pod in pods
  {
    AllocationConserves(pods, overrides, cpu, memory, a);
    if rec in EvictionRecords(a.memoryEvicted) { EvictionRecordsAreOf(a.memoryEvicted, rec); }
    else if rec in EvictionRecords(a.cpuEvicted) { EvictionRecordsAreOf(a.cpuEvicted, rec); }
    else { SurvivorRecordsAreOf(Slots(a.survivors), a.survivors, rec); }
    assert rec.pod in multiset(a.survivors) + multiset(Evicted(a));
    assert rec.pod in multiset(pods);
  }

  // ---------------------------------------------------------------- which pods have records

  /** An excluded pod has a record for each of its containers that has statistics. */
  predicate HasPeak(p: PodInfo, cs: seq<ContainerResources>)
    requires p.stats.Some?
  {
    exists c :: c in cs && FindStats(p.stats.value.containerStats, c.name).Some?
  }

  lemma {:induction false} PeakRecordsExist(p: PodInfo, cs: seq<ContainerResources>)
    requires p.stats.Some? && CompleteStats(p.stats.value)
    ensures PeakRecords(p, cs) != [] <==> HasPeak(p, cs)
  {
    if cs != [] {
      var init, last := cs[..|cs| - 1], cs[|cs| - 1];
      assert cs == init + [last];
      PeakRecordsExist(p, init);
      assert last in cs;
    }
  }

  /** Whether the strategy makes a record for a pod: every non-init container of an evicted pod has one, of a survivor
      every one with a current resource. */
  predicate HasDecision(p: PodInfo, a: Allocation)
    requires p.stats.Some?
  {
    ContainerNames(p, p.stats.value.containerStats, p in a.survivors) != []
  }

  /** Whether a pod has a record to apply at all, by class. */
  predicate Recorded(p: PodInfo, overrides: Overrides, input: ApplyCheckInput, a: Allocation) {
    match ClassOf(p, overrides, input)
    case NonOptimizable => p.containers != []
    case OptimizableButExcluded => p.stats.Some? && HasPeak(p, p.containers)
    case Optimizable => p.stats.Some? && HasDecision(p, a)
  }

  /** What its records then ask for. */
  predicate AsksForEviction(p: PodInfo, overrides: Overrides, input: ApplyCheckInput, a: Allocation) {
    IsGuaranteed(p) || (ClassOf(p, overrides, input) == Optimizable && p in Evicted(a))
  }

  /** The node run behind a list of records. */
  ghost predicate IsNodeRun(pods: seq<PodInfo>, overrides: Overrides, input: ApplyCheckInput, cpu: real,
                            memory: real, a: Allocation)
  {
    Gated(pods) && DistinctKeys(pods) &&
    Allocates(PodsOf(Optimizable, pods, overrides, input), overrides, cpu, memory, a)
  }

  function RecordsOfNode(pods: seq<PodInfo>, overrides: Overrides, input: ApplyCheckInput,
                         a: Allocation): seq<Recommendation>
    requires Gated(pods) && AllReady(a.memoryEvicted) && AllReady(a.cpuEvicted) && AllReady(a.survivors)
  {
    ClassifiedPodsAreReady(OptimizableButExcluded, pods, overrides, input);
    ToApply(PodsOf(NonOptimizable, pods, overrides, input), PodsOf(OptimizableButExcluded, pods, overrides, input), a)
  }

  /** One node of the run: its records, and the actions they cause. */
  method ApplyNode(node: NodeInfo, overrides: Overrides, input: ApplyCheckInput, env: Environment)
    returns (actions: seq<Action>, ghost a: Allocation)
    requires Gated(node.pods) && DistinctKeys(node.pods)
    ensures IsNodeRun(node.pods, overrides, input, Available(CPU, node, overrides, input),
                      Available(Memory, node, overrides, input), a)
    ensures actions == Actions(RecordsOfNode(node.pods, overrides, input, a), env)
  {
    var result, saved, applied, savedRecs, appliedRecs := ProcessNode(node, overrides, input);
    a := applied;
    actions := ApplyRecords(result.toApply, env);
  }

  /** All records of a pod carry the verdict of its class. */
  lemma RecordsAgree(pods: seq<PodInfo>, overrides: Overrides, input: ApplyCheckInput, cpu: real, memory: real,
                     a: Allocation, rec: Recommendation)
    requires IsNodeRun(pods, overrides, input, cpu, memory, a) && rec in RecordsOfNode(pods, overrides, input, a)
    ensures rec.pod in pods && Recorded(rec.pod, overrides, input, a)
    ensures ToBeEvicted(rec) <==> AsksForEviction(rec.pod, overrides, input, a)
  {
    var untouchable, excluded := PodsOf(NonOptimizable, pods, overrides, input),
      PodsOf(OptimizableButExcluded, pods, overrides, input);
    var p := rec.pod;
    if rec in DefaultRecords(untouchable) {
      DefaultRecordsOf(untouchable, rec);
      CurrentRecordsShape(p, p.containers);
    } else if rec in ExcludedRecords(excluded) {
      ExcludedRecordsOf(excluded, rec);
      PeakRecordsShape(p, p.containers);
      PeakRecordsExist(p, p.containers);
    } else {
      StrategyVerdict(PodsOf(Optimizable, pods, overrides, input), overrides, input, cpu, memory, a, pods, rec);
    }
  }

  lemma StrategyVerdict(optimizable: seq<PodInfo>, overrides: Overrides, input: ApplyCheckInput, cpu: real,
                        memory: real, a: Allocation, pods: seq<PodInfo>, rec: Recommendation)
    requires DistinctKeys(pods) && optimizable == PodsOf(Optimizable, pods, overrides, input)
    requires Allocates(optimizable, overrides, cpu, memory, a) && rec in AllRecords(a)
    ensures rec.pod in optimizable && rec.pod.stats.Some? && HasDecision(rec.pod, a)
    ensures rec.evict <==> rec.pod in Evicted(a)
  {
    var p := rec.pod;
    StrategyRecordsAreOf(optimizable, overrides, cpu, memory, a, rec);
    SelectKeepsDistinct(HasClass(Optimizable, overrides, input), pods);
    EveryPodIsAccountedFor(optimizable, overrides, cpu, memory, a, p);
    assert rec in RecordsOf(p, AllRecords(a));
  }

  lemma SomeStrategyRecord(optimizable: seq<PodInfo>, overrides: Overrides, input: ApplyCheckInput, cpu: real,
                           memory: real, a: Allocation, pods: seq<PodInfo>, p: PodInfo) returns (rec: Recommendation)
    requires DistinctKeys(pods) && optimizable == PodsOf(Optimizable, pods, overrides, input)
    requires Allocates(optimizable, overrides, cpu, memory, a) && p in optimizable && p.stats.Some? && HasDecision(p, a)
    ensures rec in AllRecords(a) && rec.pod == p
  {
    SelectKeepsDistinct(HasClass(Optimizable, overrides, input), pods);
    EveryPodIsAccountedFor(optimizable, overrides, cpu, memory, a, p);
    rec := RecordsOf(p, AllRecords(a))[0];
    assert rec in RecordsOf(p, AllRecords(a));
  }

  predicate NamesContainer(cs: seq<ContainerResources>, name: string) { exists c :: c in cs && c.name == name }

  lemma {:induction false} CurrentRecordsName(p: PodInfo, cs: seq<ContainerResources>, rec: Recommendation)
    requires rec in CurrentRecords(p, cs)
    ensures NamesContainer(cs, rec.containerName)
  {
    var init, last := cs[..|cs| - 1], cs[|cs| - 1];
    assert last in cs;
    if rec in CurrentRecords(p, init) { CurrentRecordsName(p, init, rec); }
  }

  lemma {:induction false} PeakRecordsName(p: PodInfo, cs: seq<ContainerResources>, rec: Recommendation)
    requires p.stats.Some? && CompleteStats(p.stats.value) && rec in PeakRecords(p, cs)
    ensures NamesContainer(cs, rec.containerName)
  {
    var init, last := cs[..|cs| - 1], cs[|cs| - 1];
    assert last in cs;
    if rec in PeakRecords(p, init) { PeakRecordsName(p, init, rec); }
  }

  lemma SomeRecord(pods: seq<PodInfo>, overrides: Overrides, input: ApplyCheckInput, cpu: real, memory: real,
                   a: Allocation, p: PodInfo) returns (rec: Recommendation)
    requires IsNodeRun(pods, overrides, input, cpu, memory, a) && p in pods && Recorded(p, overrides, input, a)
    ensures rec in RecordsOfNode(pods, overrides, input, a) && rec.pod == p
    ensures ClassOf(p, overrides, input) != Optimizable ==> NamesContainer(p.containers, rec.containerName)
  {
    var untouchable, excluded := PodsOf(NonOptimizable, pods, overrides, input),
      PodsOf(OptimizableButExcluded, pods, overrides, input);
    match ClassOf(p, overrides, input)
    case NonOptimizable =>
      rec := CurrentRecords(p, p.containers)[|CurrentRecords(p, p.containers)| - 1];
      CurrentRecordsShape(p, p.containers);
      CurrentRecordsName(p, p.containers, rec);
      DefaultRecordsOf(untouchable, rec);
    case OptimizableButExcluded =>
      PeakRecordsExist(p, p.containers);
      rec := PeakRecords(p, p.containers)[0];
      PeakRecordsShape(p, p.containers);
      PeakRecordsName(p, p.containers, rec);
      ExcludedRecordsOf(excluded, rec);
    case Optimizable =>
      rec := SomeStrategyRecord(PodsOf(Optimizable, pods, overrides, input), overrides, input, cpu, memory, a, pods, p);
  }

  // ---------------------------------------------------------------- the fate of each pod

  lemma SameKeySamePod(pods: seq<PodInfo>, p: PodInfo, q: PodInfo)
    requires DistinctKeys(pods) && p in pods && q in pods && KeyOf(p) == KeyOf(q)
    ensures p == q
  {
    var i :| 0 <= i < |pods| && pods[i] == p;
    var j :| 0 <= j < |pods| && pods[j] == q;
  }

  /** A pod of the node is evicted by the run if and only if the filter lets it through, it has a record, and it is
      evicted by the strategy or has limits equal to its requests, whatever its class. */
  lemma PodIsEvictedIff(pods: seq<PodInfo>, overrides: Overrides, input: ApplyCheckInput, cpu: real, memory: real,
                        a: Allocation, env: Environment, p: PodInfo)
    requires IsNodeRun(pods, overrides, input, cpu, memory, a) && p in pods
    ensures Evict(KeyOf(p)) in Actions(RecordsOfNode(pods, overrides, input, a), env) <==>
            IsActedOn(p, env) && Recorded(p, overrides, input, a) && AsksForEviction(p, overrides, input, a)
  {
    var recs, x := RecordsOfNode(pods, overrides, input, a), Evict(KeyOf(p));
    ActionsComeFromRecords(recs, env, x);
    if x in Actions(recs, env) {
      var rec :| rec in recs && x in ActionsFor(rec, env);
      ActionsOfRecord(rec, env, x);
      RecordsAgree(pods, overrides, input, cpu, memory, a, rec);
      SameKeySamePod(pods, p, rec.pod);
    }
    if IsActedOn(p, env) && Recorded(p, overrides, input, a) && AsksForEviction(p, overrides, input, a) {
      var rec := SomeRecord(pods, overrides, input, cpu, memory, a, p);
      RecordsAgree(pods, overrides, input, cpu, memory, a, rec);
      assert x in ActionsFor(rec, env);
    }
  }

  /** A container of the node has its memory resized by the run if and only if the filter lets its pod through, nothing
      asks for the eviction of the pod, and one of the records of that container calls for exactly this patch. */
  lemma MemoryIsResizedIff(pods: seq<PodInfo>, overrides: Overrides, input: ApplyCheckInput, cpu: real, memory: real,
                           a: Allocation, env: Environment, p: PodInfo, container: string, patch: Patch)
    requires IsNodeRun(pods, overrides, input, cpu, memory, a) && p in pods
    ensures var recs := RecordsOfNode(pods, overrides, input, a);
            ResizeMemory(KeyOf(p), container, patch) in Actions(recs, env) <==>
              IsActedOn(p, env) && !AsksForEviction(p, overrides, input, a) && !env.skipMemory &&
              exists rec :: rec in recs && rec.pod == p && rec.containerName == container &&
                MemoryPatch(LiveOf(env.onNode[KeyOf(p)], container), rec, env.supportsReduction) == Some(patch)
  {
    var recs, x := RecordsOfNode(pods, overrides, input, a), ResizeMemory(KeyOf(p), container, patch);
    ActionsComeFromRecords(recs, env, x);
    if x in Actions(recs, env) {
      var rec :| rec in recs && x in ActionsFor(rec, env);
      RecordIsAppliedIff(rec, env, x);
      RecordsAgree(pods, overrides, input, cpu, memory, a, rec);
      SameKeySamePod(pods, p, rec.pod);
    }
    if IsActedOn(p, env) && !AsksForEviction(p, overrides, input, a) && !env.skipMemory {
      if rec :| rec in recs && rec.pod == p && rec.containerName == container &&
                MemoryPatch(LiveOf(env.onNode[KeyOf(p)], container), rec, env.supportsReduction) == Some(patch) {
        RecordsAgree(pods, overrides, input, cpu, memory, a, rec);
        RecordIsAppliedIff(rec, env, x);
      }
    }
  }

  /** No run both evicts and resizes a pod. */
  lemma NeverEvictedAndResized(pods: seq<PodInfo>, overrides: Overrides, input: ApplyCheckInput, cpu: real,
                               memory: real, a: Allocation, env: Environment, x: Action, y: Action)
    requires IsNodeRun(pods, overrides, input, cpu, memory, a)
    requires x in Actions(RecordsOfNode(pods, overrides, input, a), env) &&
             y in Actions(RecordsOfNode(pods, overrides, input, a), env)
    ensures x.pod == y.pod ==> (x.Evict? <==> y.Evict?)
  {
    var recs := RecordsOfNode(pods, overrides, input, a);
    ActionsComeFromRecords(recs, env, x);
    ActionsComeFromRecords(recs, env, y);
    var r :| r in recs && x in ActionsFor(r, env);
    var s :| s in recs && y in ActionsFor(s, env);
    ActionsOfRecord(r, env, x);
    ActionsOfRecord(s, env, y);
    RecordsAgree(pods, overrides, input, cpu, memory, a, r);
    RecordsAgree(pods, overrides, input, cpu, memory, a, s);
    if x.pod == y.pod { SameKeySamePod(pods, r.pod, s.pod); }
  }

  // ---------------------------------------------------------------- pods that are not optimizable

  predicate IsOptimizableKey(pods: seq<PodInfo>, key: string, overrides: Overrides, input: ApplyCheckInput) {
    exists p :: p in pods && KeyOf(p) == key && ClassOf(p, overrides, input) == Optimizable
  }

  /** Whatever is running and however the node is set up, every action is on an optimizable pod of the node. */
  ghost predicate TouchesOptimizableOnly(pods: seq<PodInfo>, recs: seq<Recommendation>, ids: set<string>,
                                         overrides: Overrides, input: ApplyCheckInput)
  {
    forall env: Environment, x: Action :: env.ids == ids && x in Actions(recs, env) ==>
      IsOptimizableKey(pods, x.pod, overrides, input)
  }

  /** No recorded pod of another class shares a workload with an optimizable one. */
  predicate WorkloadsAreUniform(pods: seq<PodInfo>, optimizable: seq<PodInfo>,
                                overrides: Overrides, input: ApplyCheckInput, a: Allocation)
    requires forall q :: q in optimizable ==> q.stats.Some?
  {
    forall p, q ::
      (p in pods && q in optimizable && ClassOf(p, overrides, input) != Optimizable &&
       Recorded(p, overrides, input, a)) ==>
        WorkloadOf(p) != q.stats.value.identifier
  }

  /** Live quantities close to the recorded request, under a limit far above the node: they always cause a patch. */
  function EagerLive(c: ContainerResources): Live
    requires c.cpuRequest >= 0.0
  {
    Live(Some((c.cpuRequest * 1000.0).Floor), Some(1000000), None, None)
  }

  lemma EagerPodIsTouched(p: PodInfo, rec: Recommendation, ids: set<string>) returns (env: Environment, x: Action)
    requires rec.pod == p && NamesContainer(p.containers, rec.containerName) && Recommendations.NonNegativeRequests(p)
    requires WorkloadOf(p) in ids
    ensures env.ids == ids && x in ActionsFor(rec, env) && x.pod == KeyOf(p)
  {
    var c := FindResource(p.containers, rec.containerName).value;
    assert c in p.containers;
    var live := EagerLive(c);
    env := Environment(ids, map[KeyOf(p) := [(rec.containerName, live)]], 1.0, true, true);
    EagerLiveIsPatched(live, c, rec);
    assert LiveOf([(rec.containerName, live)], rec.containerName) == live;
    x := ActionsFor(rec, env)[0];
  }

  lemma EagerLiveIsPatched(live: Live, c: ContainerResources, rec: Recommendation)
    requires c.cpuRequest >= 0.0 && live == EagerLive(c)
    requires FindResource(rec.pod.containers, rec.containerName) == Some(c)
    ensures CpuPatch(live, rec, 1.0).Some?
  {
    Recommendations.RequestBounds(rec.cpu, rec.memory);
    var milli := (c.cpuRequest * 1000.0).Floor;
    assert 0.0 <= c.cpuRequest - Millis(milli) <= Recommendations.MINIMUM_CPU;
    assert Recommendations.RoundMilli(1.0) == 1.0;
    assert CpuLimitToSend(live, rec, 1.0) <= 20.0;
  }

  /** The filter selects workloads, not pods. So the loop touches optimizable pods only if and only if workloads are
      uniform; `optimizable` holds the optimizable pods of all nodes. */
  lemma OnlyOptimizableTouchedIff(pods: seq<PodInfo>, overrides: Overrides, input: ApplyCheckInput,
                                  cpu: real, memory: real, a: Allocation, optimizable: seq<PodInfo>)
    requires IsNodeRun(pods, overrides, input, cpu, memory, a) && forall q :: q in optimizable ==> q.stats.Some?
    requires forall p :: p in pods ==> Recommendations.NonNegativeRequests(p)
    ensures TouchesOptimizableOnly(pods, RecordsOfNode(pods, overrides, input, a), WorkloadIds(optimizable),
                                   overrides, input)
            <==> WorkloadsAreUniform(pods, optimizable, overrides, input, a)
  {
    var recs, ids := RecordsOfNode(pods, overrides, input, a), WorkloadIds(optimizable);
    if TouchesOptimizableOnly(pods, recs, ids, overrides, input) {
      forall p, q | p in pods && q in optimizable && ClassOf(p, overrides, input) != Optimizable &&
                    Recorded(p, overrides, input, a)
        ensures WorkloadOf(p) != q.stats.value.identifier
      {
        if WorkloadOf(p) == q.stats.value.identifier {
          StrangerIsTouched(pods, overrides, input, cpu, memory, a, ids, p);
        }
      }
    }
    if WorkloadsAreUniform(pods, optimizable, overrides, input, a) {
      forall env: Environment, x: Action | env.ids == ids && x in Actions(recs, env)
        ensures IsOptimizableKey(pods, x.pod, overrides, input)
      {
        ActionsComeFromRecords(recs, env, x);
        var rec :| rec in recs && x in ActionsFor(rec, env);
        ActionsOfRecord(rec, env, x);
        RecordsAgree(pods, overrides, input, cpu, memory, a, rec);
        var q :| q in optimizable && q.stats.value.identifier == WorkloadOf(rec.pod);
      }
    }
  }

  lemma StrangerIsTouched(pods: seq<PodInfo>, overrides: Overrides, input: ApplyCheckInput, cpu: real, memory: real,
                          a: Allocation, ids: set<string>, p: PodInfo)
    requires IsNodeRun(pods, overrides, input, cpu, memory, a) && p in pods && Recommendations.NonNegativeRequests(p)
    requires ClassOf(p, overrides, input) != Optimizable && Recorded(p, overrides, input, a) && WorkloadOf(p) in ids
    ensures !TouchesOptimizableOnly(pods, RecordsOfNode(pods, overrides, input, a), ids, overrides, input)
  {
    var recs := RecordsOfNode(pods, overrides, input, a);
    var rec := SomeRecord(pods, overrides, input, cpu, memory, a, p);
    var env, x := EagerPodIsTouched(p, rec, ids);
    ActionsComeFromRecords(recs, env, x);
    if IsOptimizableKey(pods, x.pod, overrides, input) {
      var o :| o in pods && KeyOf(o) == x.pod && ClassOf(o, overrides, input) == Optimizable;
      SameKeySamePod(pods, p, o);
    }
  }

  /** The user enabled the workload. */
  predicate IsEnabled(workload: string, overrides: Overrides) {
    workload in overrides && overrides[workload].Some? && overrides[workload].value.enabled
  }

  /** A workload that its user has not enabled, or for which there is no override, is left alone: no action is on any of
      its pods, whatever is running. `optimizable` holds the optimizable pods of all nodes. */
  lemma DisabledWorkloadIsUntouched(pods: seq<PodInfo>, overrides: Overrides, input: ApplyCheckInput, cpu: real,
                                    memory: real, a: Allocation, env: Environment, optimizable: seq<PodInfo>,
                                    p: PodInfo, x: Action)
    requires IsNodeRun(pods, overrides, input, cpu, memory, a) && p in pods
    requires forall q :: q in optimizable ==> q.stats.Some? && ClassOf(q, overrides, input) == Optimizable
    requires env.ids == WorkloadIds(optimizable) && !IsEnabled(WorkloadOf(p), overrides)
    ensures x in Actions(RecordsOfNode(pods, overrides, input, a), env) ==> x.pod != KeyOf(p)
  {
    var recs := RecordsOfNode(pods, overrides, input, a);
    if x in Actions(recs, env) && x.pod == KeyOf(p) {
      ActionsComeFromRecords(recs, env, x);
      var rec :| rec in recs && x in ActionsFor(rec, env);
      ActionsOfRecord(rec, env, x);
      RecordsAgree(pods, overrides, input, cpu, memory, a, rec);
      SameKeySamePod(pods, p, rec.pod);
      var q :| q in optimizable && q.stats.value.identifier == WorkloadOf(p);
      ClassIsExact(q, overrides, input);
    }
  }

  /** A best-effort pod satisfies the test for guaranteed pods as well: it is evicted by every run that meets it on the
      node next to an optimizable pod of its workload. */
  lemma BestEffortPodIsEvictedIff(pods: seq<PodInfo>, overrides: Overrides, input: ApplyCheckInput, cpu: real,
                                  memory: real, a: Allocation, env: Environment, p: PodInfo)
    requires IsNodeRun(pods, overrides, input, cpu, memory, a) && p in pods
    requires IsBestEffort(p) && p.containers != []
    ensures Evict(KeyOf(p)) in Actions(RecordsOfNode(pods, overrides, input, a), env) <==> IsActedOn(p, env)
  {
    PodIsEvictedIff(pods, overrides, input, cpu, memory, a, env, p);
  }

  // ---------------------------------------------------------------- protected pods

  /** Every pod belongs to the workload its statistics were collected for. */
  predicate Labelled(p: PodInfo) {
    p.stats.Some? ==> p.stats.value.identifier == WorkloadOf(p)
  }

  /** The documentation promises that protected pods are never evicted. A protected, optimizable pod is evicted by the
      run if and only if it is still on the node, its limits equal its requests and it has a container to size. */
  lemma ProtectedPodIsEvictedIff(pods: seq<PodInfo>, overrides: Overrides, input: ApplyCheckInput, cpu: real,
                                 memory: real, a: Allocation, env: Environment, optimizable: seq<PodInfo>, p: PodInfo)
    requires IsNodeRun(pods, overrides, input, cpu, memory, a)
    requires (forall q :: q in optimizable ==> q.stats.Some?) && env.ids == WorkloadIds(optimizable)
    requires p in PodsOf(Optimizable, pods, overrides, input) && p in optimizable && Labelled(p)
    requires Protection.IsProtected(p, overrides)
    ensures Evict(KeyOf(p)) in Actions(RecordsOfNode(pods, overrides, input, a), env) <==>
            KeyOf(p) in env.onNode && IsGuaranteed(p) && ContainerNames(p, p.stats.value.containerStats, true) != []
  {
    var own := PodsOf(Optimizable, pods, overrides, input);
    PodIsEvictedIff(pods, overrides, input, cpu, memory, a, env, p);
    AllocationConserves(own, overrides, cpu, memory, a);
    SelectKeepsDistinct(HasClass(Optimizable, overrides, input), pods);
    Protection.ProtectedIsNotEvicted(own, overrides, cpu, memory, a, p);
    assert p in multiset(own);
    assert p in multiset(a.survivors) + multiset(Evicted(a));
    assert p in a.survivors;
  }
}
