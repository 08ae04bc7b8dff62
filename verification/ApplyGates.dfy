/** Which pods receive recommendations, and which are touched. */
module ApplyGates {
  import opened Prelude
  import opened Sequences
  import opened Workloads

  /** The inputs of both checks that are read; `threshold` is the age a workload must have reached. */
  datatype ApplyCheckInput = ApplyCheckInput(
    k8sVersionGE133: bool, optimizeGuaranteedPods: bool, podExcludedByAnnotation: bool, now: int, threshold: int)

  /** The outcome of a check; everything but `Proceed` is a reason to skip the pod. */
  datatype Verdict = Proceed | NoStats | BestEffort | IncompleteStats | TooNew | Autoscaled
                   | ExcludedByAnnotation | GuaranteedPod | OldCluster | NotEnabled

  function ShouldGenerateRecommendation(p: PodInfo, input: ApplyCheckInput): Verdict {
    if p.stats.None? then NoStats
    else if IsBestEffort(p) then BestEffort
    else if p.stats.value.incomplete then IncompleteStats
    else if p.stats.value.creationTime > input.now - input.threshold then TooNew
    else if p.stats.value.autoscaledOnCPU || p.stats.value.autoscaledOnMemory then Autoscaled
    else Proceed
  }

  function ShouldApplyRecommendationToPod(p: PodInfo, override: Option<Override>, input: ApplyCheckInput): Verdict {
    var generate := ShouldGenerateRecommendation(p, input);
    if generate != Proceed then generate
    else if input.podExcludedByAnnotation then ExcludedByAnnotation
    else if IsGuaranteed(p) && !input.optimizeGuaranteedPods then GuaranteedPod
    else if !input.k8sVersionGE133 then OldCluster
    else if override.None? || !override.value.enabled then NotEnabled
    else Proceed
  }

  datatype PodClass = Optimizable | OptimizableButExcluded | NonOptimizable

  function OverrideFor(p: PodInfo, overrides: map<string, Option<Override>>): Option<Override> {
    if p.stats.Some? && p.stats.value.identifier in overrides then overrides[p.stats.value.identifier] else None
  }

  function ClassOf(p: PodInfo, overrides: map<string, Option<Override>>, input: ApplyCheckInput): PodClass {
    if ShouldGenerateRecommendation(p, input) != Proceed then NonOptimizable
    else if ShouldApplyRecommendationToPod(p, OverrideFor(p, overrides), input) != Proceed then OptimizableButExcluded
    else Optimizable
  }

  /** Some container requests or limits something. */
  predicate AsksForSomething(p: PodInfo) {
    exists c :: c in p.containers &&
      (c.cpuRequest != 0.0 || c.cpuLimit != 0.0 || c.memoryRequest != 0.0 || c.memoryLimit != 0.0)
  }

  /** Every positive request is also the limit, for both resources. */
  predicate LimitsAreRequests(p: PodInfo) {
    forall c :: c in p.containers ==>
      (c.cpuRequest <= 0.0 || c.cpuLimit == c.cpuRequest) &&
      (c.memoryRequest <= 0.0 || c.memoryLimit == c.memoryRequest)
  }

  /** The three classes, on the inputs. A pod can be optimised when its workload has complete statistics, is old enough
      and is not autoscaled, and the pod asks for something. It is optimised when, besides, it is not excluded, is not
      guaranteed unless such pods are to be optimised, the cluster can resize, and its user enabled the workload. */
  lemma ClassIsExact(p: PodInfo, overrides: map<string, Option<Override>>, input: ApplyCheckInput)
    ensures var canBe :=
              p.stats.Some? && !p.stats.value.incomplete && AsksForSomething(p) &&
              p.stats.value.creationTime + input.threshold <= input.now &&
              !p.stats.value.autoscaledOnCPU && !p.stats.value.autoscaledOnMemory;
            var maybe :=
              !input.podExcludedByAnnotation && (input.optimizeGuaranteedPods || !LimitsAreRequests(p)) &&
              input.k8sVersionGE133;
            var enabled :=
              p.stats.Some? && p.stats.value.identifier in overrides &&
              overrides[p.stats.value.identifier].Some? && overrides[p.stats.value.identifier].value.enabled;
      && (ClassOf(p, overrides, input) == Optimizable <==> canBe && maybe && enabled)
      && (ClassOf(p, overrides, input) == OptimizableButExcluded <==> canBe && !(maybe && enabled))
      && (ClassOf(p, overrides, input) == NonOptimizable <==> !canBe)
  {
    assert AsksForSomething(p) <==> !IsBestEffort(p);
    assert LimitsAreRequests(p) <==> IsGuaranteed(p);
  }

  /** In the cluster task neither an annotation nor an old cluster keeps a pod out. */
  lemma TaskClassIs(p: PodInfo, overrides: map<string, Option<Override>>, optimizeGuaranteedPods: bool, now: int,
                    threshold: int)
    requires p.stats.Some?
    ensures var s := p.stats.value;
            ClassOf(p, overrides, TaskInput(optimizeGuaranteedPods, now, threshold)) == Optimizable <==>
              !s.incomplete && AsksForSomething(p) && s.creationTime + threshold <= now &&
              !s.autoscaledOnCPU && !s.autoscaledOnMemory && (optimizeGuaranteedPods || !LimitsAreRequests(p)) &&
              s.identifier in overrides && overrides[s.identifier].Some? && overrides[s.identifier].value.enabled
  {
    ClassIsExact(p, overrides, TaskInput(optimizeGuaranteedPods, now, threshold));
  }

  function HasClass(c: PodClass, overrides: map<string, Option<Override>>, input: ApplyCheckInput): PodInfo -> bool {
    (p: PodInfo) => ClassOf(p, overrides, input) == c
  }

  /** The pods of one class, in their original order. */
  function PodsOf(c: PodClass, pods: seq<PodInfo>, overrides: map<string, Option<Override>>,
                  input: ApplyCheckInput): seq<PodInfo> {
    Select(HasClass(c, overrides, input), pods, true)
  }

  lemma PodsOfPush(c: PodClass, pods: seq<PodInfo>, i: nat, overrides: map<string, Option<Override>>,
                   input: ApplyCheckInput)
    requires i < |pods|
    ensures PodsOf(c, pods[..i + 1], overrides, input) ==
            PodsOf(c, pods[..i], overrides, input) + if ClassOf(pods[i], overrides, input) == c then [pods[i]] else []
  {
    assert pods[..i + 1] == pods[..i] + [pods[i]];
    SelectConcat(HasClass(c, overrides, input), pods[..i], [pods[i]], true);
  }

  /** The cluster task assumes a recent cluster and evaluates the annotation of a nil pod, which is
      never excluded. */
  function TaskInput(optimizeGuaranteedPods: bool, now: int, threshold: int): ApplyCheckInput {
    ApplyCheckInput(true, optimizeGuaranteedPods, false, now, threshold)
  }

  method SegregatePods(pods: seq<PodInfo>, overrides: map<string, Option<Override>>, input: ApplyCheckInput)
    returns (optimizable: seq<PodInfo>, excluded: seq<PodInfo>, untouchable: seq<PodInfo>)
    ensures optimizable == PodsOf(Optimizable, pods, overrides, input)
    ensures excluded == PodsOf(OptimizableButExcluded, pods, overrides, input)
    ensures untouchable == PodsOf(NonOptimizable, pods, overrides, input)
  {
    optimizable, excluded, untouchable := [], [], [];
    for i := 0 to |pods|
      invariant optimizable == PodsOf(Optimizable, pods[..i], overrides, input)
      invariant excluded == PodsOf(OptimizableButExcluded, pods[..i], overrides, input)
      invariant untouchable == PodsOf(NonOptimizable, pods[..i], overrides, input)
    {
      var p := pods[i];
      PodsOfPush(Optimizable, pods, i, overrides, input);
      PodsOfPush(OptimizableButExcluded, pods, i, overrides, input);
      PodsOfPush(NonOptimizable, pods, i, overrides, input);
      if p.stats.None? {
        untouchable := untouchable + [p];
        continue;
      }
      if ShouldGenerateRecommendation(p, input) != Proceed {
        untouchable := untouchable + [p];
        continue;
      }
      if ShouldApplyRecommendationToPod(p, OverrideFor(p, overrides), input) != Proceed {
        excluded := excluded + [p];
        continue;
      }
      optimizable := optimizable + [p];
    }
    assert pods[..|pods|] == pods;
  }

  /** The three lists partition the pods. */
  lemma {:induction false} SegregationIsPartition(pods: seq<PodInfo>, overrides: map<string, Option<Override>>,
                                                  input: ApplyCheckInput)
    ensures multiset(PodsOf(Optimizable, pods, overrides, input)) +
            multiset(PodsOf(OptimizableButExcluded, pods, overrides, input)) +
            multiset(PodsOf(NonOptimizable, pods, overrides, input)) == multiset(pods)
  {
    if pods != [] {
      var n := |pods| - 1;
      assert pods[..n + 1] == pods == pods[..n] + [pods[n]];
      SegregationIsPartition(pods[..n], overrides, input);
      PodsOfPush(Optimizable, pods, n, overrides, input);
      PodsOfPush(OptimizableButExcluded, pods, n, overrides, input);
      PodsOfPush(NonOptimizable, pods, n, overrides, input);
    }
  }

  lemma {:induction false} SelectKeepsDistinct(f: PodInfo -> bool, pods: seq<PodInfo>)
    requires DistinctKeys(pods)
    ensures DistinctKeys(Select(f, pods, true))
  {
    if pods != [] {
      var tail := pods[1..];
      assert forall i, j :: 0 <= i < j < |tail| ==>
             KeyOf(tail[i]) == KeyOf(pods[i + 1]) && KeyOf(tail[j]) == KeyOf(pods[j + 1]);
      SelectKeepsDistinct(f, tail);
      forall q | q in Select(f, tail, true) ensures KeyOf(q) != KeyOf(pods[0]) {
        var k :| 0 <= k < |tail| && tail[k] == q;
        assert pods[k + 1] == q;
      }
      if f(pods[0]) {
        var s := Select(f, tail, true);
        assert Select(f, pods, true) == [pods[0]] + s;
        forall i, j | 0 <= i < j < |s| + 1 ensures KeyOf(([pods[0]] + s)[i]) != KeyOf(([pods[0]] + s)[j]) {
          if i == 0 { assert s[j - 1] in s; }
        }
      }
    }
  }

  /** The comment at the call says an excluded annotation comes from the stored constraints. The code
      never reads them here, so the annotation does not keep a pod out of the optimizable list. */
  lemma StoredExclusionIsIgnored(p: PodInfo, q: PodInfo, overrides: map<string, Option<Override>>,
                                 optimizeGuaranteedPods: bool, now: int, threshold: int)
    requires p.stats.Some?
    requires q == p.(stats := Some(p.stats.value.(constraints := Some(Constraints(true)))))
    ensures ClassOf(q, overrides, TaskInput(optimizeGuaranteedPods, now, threshold)) ==
            ClassOf(p, overrides, TaskInput(optimizeGuaranteedPods, now, threshold))
  {
    assert IsGuaranteed(q) == IsGuaranteed(p) && IsBestEffort(q) == IsBestEffort(p);
  }
}
