/** What the apply loop does to a live pod: evict it, resize a container in place, or leave it alone. */
module Resize {
  import opened Prelude
  import opened Workloads
  import opened Eviction
  import opened Recommendations
  import opened ApplyGates

  /** The live quantities of a container: millicores and bytes; absent keys are `None`. */
  datatype Live = Live(
    cpuRequest: Option<nat>, cpuLimit: Option<nat>, memoryRequest: Option<nat>, memoryLimit: Option<nat>)

  /** A strategic-merge patch of one resource; a limit that is not sent stays as it is. */
  datatype Patch = Patch(request: real, limit: Option<real>)

  function OrZero(q: Option<nat>): nat { if q.Some? then q.value else 0 }

  function Millis(n: nat): real { n as real / 1000.0 }

  function Megabytes(n: nat): real { n as real / 1000000.0 }

  /** updatePodResources: the request always, the limit unless it is zero. */
  function PatchOf(request: real, limit: real): Patch {
    Patch(request, if limit != 0.0 then Some(limit) else None)
  }

  /** The limit in force after the patch; zero stands for none. */
  function LimitAfter(p: Patch, current: real): real {
    if p.limit.Some? then p.limit.value else current
  }

  predicate ValidPair(request: real, limit: real) { limit == 0.0 || request <= limit }

  /** The live request is still close to the one the recommendation was computed from. */
  predicate Comparable(current: real, rec: Recommendation, r: Resource, drift: real) {
    var resource := FindResource(rec.pod.containers, rec.containerName);
    resource.Some? && Abs(current - CurrentRequest(r, resource.value)) <= drift
  }

  /** The CPU limit that would be sent: none where none is set. */
  function CpuLimitToSend(live: Live, rec: Recommendation, allocatableCPU: real): real {
    if OrZero(live.cpuLimit) == 0 then 0.0 else CpuLimitFor(rec.cpu, allocatableCPU)
  }

  function MemoryLimitToSend(live: Live, rec: Recommendation, supportsReduction: bool): real {
    var current, limit := Megabytes(OrZero(live.memoryLimit)),
      MemoryLimitFor(rec.pod.stats, rec.containerName, rec.memory);
    if current == 0.0 then 0.0 else if !supportsReduction && limit < current then Ceil(current) as real else limit
  }

  /** A patch is sent for a live, undrifted request when the request or the limit moves by a millicore or more. */
  function CpuPatch(live: Live, rec: Recommendation, allocatableCPU: real): Option<Patch> {
    var request, limit := CpuRequestFor(rec.cpu), CpuLimitToSend(live, rec, allocatableCPU);
    if live.cpuRequest.Some? && Comparable(Millis(live.cpuRequest.value), rec, CPU, MINIMUM_CPU) &&
       (Abs(request - Millis(live.cpuRequest.value)) >= 0.001 || Abs(limit - Millis(OrZero(live.cpuLimit))) >= 0.001)
    then Some(PatchOf(request, limit)) else None
  }

  /** For memory only a changed request counts. */
  function MemoryPatch(live: Live, rec: Recommendation, supportsReduction: bool): Option<Patch> {
    var request := MemoryRequestFor(rec.memory);
    if live.memoryRequest.Some? && Comparable(Megabytes(live.memoryRequest.value), rec, Memory, MINIMUM_MEMORY) &&
       request != Megabytes(live.memoryRequest.value)
    then Some(PatchOf(request, MemoryLimitToSend(live, rec, supportsReduction))) else None
  }

  method ApplyCPURecommendation(live: Live, rec: Recommendation, allocatableCPU: real) returns (patch: Option<Patch>)
    ensures patch.Some? ==> live.cpuRequest.Some? && patch.value.request == CpuRequestFor(rec.cpu)
    ensures patch.Some? && patch.value.limit.Some? ==> OrZero(live.cpuLimit) > 0
    ensures patch.Some? && patch.value.limit.Some? ==>
              (patch.value.request <= patch.value.limit.value <==> RoundMilli(allocatableCPU) > 0.0)
    ensures patch.Some? && RoundMilli(allocatableCPU) > 0.0 ==>
              ValidPair(patch.value.request, LimitAfter(patch.value, Millis(OrZero(live.cpuLimit))))
    ensures patch == CpuPatch(live, rec, allocatableCPU)
  {
    if live.cpuRequest.None? { return None; }
    var currentRequest := Millis(live.cpuRequest.value);
    var resource := FindResource(rec.pod.containers, rec.containerName);
    if resource.None? { return None; }
    if Abs(currentRequest - resource.value.cpuRequest) > MINIMUM_CPU { return None; }
    var currentLimit := Millis(OrZero(live.cpuLimit));
    var request, _, limit, _ := ComputeRecommendedResourceValues(rec, allocatableCPU);
    if currentLimit == 0.0 {
      limit := 0.0;
    }
    if Abs(request - currentRequest) >= 0.001 || Abs(limit - currentLimit) >= 0.001 {
      return Some(PatchOf(request, limit));
    }
    return None;
  }

  method ApplyMemoryRecommendation(live: Live, rec: Recommendation, supportsReduction: bool)
    returns (patch: Option<Patch>)
    ensures patch.Some? ==> live.memoryRequest.Some? && patch.value.request == MemoryRequestFor(rec.memory)
    ensures patch.Some? ==> (patch.value.limit.Some? <==> OrZero(live.memoryLimit) > 0)
    ensures patch.Some? ==> ValidPair(patch.value.request, LimitAfter(patch.value, Megabytes(OrZero(live.memoryLimit))))
    ensures patch.Some? && !supportsReduction ==>
              LimitAfter(patch.value, Megabytes(OrZero(live.memoryLimit))) >= Megabytes(OrZero(live.memoryLimit))
    ensures patch.Some? && patch.value.limit.Some? ==> patch.value.limit.value.Floor as real == patch.value.limit.value
    ensures patch == MemoryPatch(live, rec, supportsReduction)
  {
    var _, request, _, limit := ComputeRecommendedResourceValues(rec, 0.0);
    var resource := FindResource(rec.pod.containers, rec.containerName);
    if resource.None? { return None; }
    if live.memoryRequest.None? { return None; }
    var currentRequest := Megabytes(live.memoryRequest.value);
    if Abs(currentRequest - resource.value.memoryRequest) > MINIMUM_MEMORY { return None; }
    var currentLimit := Megabytes(OrZero(live.memoryLimit));
    if !supportsReduction && limit < currentLimit {
      limit := Ceil(currentLimit) as real;
    }
    if currentLimit == 0.0 {
      limit := 0.0;
    }
    if Abs(request - currentRequest) > 0.0 {
      return Some(PatchOf(request, limit));
    }
    return None;
  }

  // ---------------------------------------------------------------- when a patch is sent

  /** The live memory request exists and lies within 16 MB of the recorded one. */
  predicate MemoryIsComparable(live: Live, rec: Recommendation) {
    var resource := FindResource(rec.pod.containers, rec.containerName);
    live.memoryRequest.Some? && resource.Some? &&
    -16.0 <= live.memoryRequest.value as real / 1000000.0 - resource.value.memoryRequest <= 16.0
  }

  /** A memory patch is sent exactly when the recommendation, floored at 16 MB and rounded, differs from the comparable
      live request, in either direction. Its limit: none where none is in force; else the recommended one, unless that
      would lower it on a cluster that cannot, where the current one is rounded up. */
  lemma MemoryPatchIsSentIff(live: Live, rec: Recommendation, supportsReduction: bool)
    ensures var patch := MemoryPatch(live, rec, supportsReduction);
            var request := Round(Max(16.0, rec.memory)) as real;
            var current := OrZero(live.memoryLimit) as real / 1000000.0;
            var limit := MemoryLimitFor(rec.pod.stats, rec.containerName, rec.memory);
      && (patch.Some? <==> MemoryIsComparable(live, rec) && request != live.memoryRequest.value as real / 1000000.0)
      && (patch.Some? ==> patch.value.request == request)
      && (patch.Some? && current == 0.0 ==> patch.value.limit == None)
      && (patch.Some? && current > 0.0 && (supportsReduction || limit >= current) ==> patch.value.limit == Some(limit))
      && (patch.Some? && current > 0.0 && !supportsReduction && limit < current ==>
            patch.value.limit.Some? && 0.0 <= patch.value.limit.value - current < 1.0 &&
            IsWhole(patch.value.limit.value))
  {
    RequestBounds(rec.cpu, rec.memory);
    MemoryLimitCoversSignal(rec.pod.stats, rec.containerName, rec.memory);
  }

  /** One memory patch is enough: once its request is in force, the same recommendation causes no other, whatever the
      record of the pod says by then. */
  lemma MemoryPatchSettles(live: Live, rec: Recommendation, supportsReduction: bool, live': Live, rec': Recommendation,
                           supportsReduction': bool)
    requires MemoryPatch(live, rec, supportsReduction).Some? && rec'.memory == rec.memory
    requires live'.memoryRequest.Some? &&
             live'.memoryRequest.value as real / 1000000.0 == MemoryPatch(live, rec, supportsReduction).value.request
    ensures MemoryPatch(live', rec', supportsReduction') == None
  {
    MemoryPatchIsSentIff(live, rec, supportsReduction);
    MemoryPatchIsSentIff(live', rec', supportsReduction');
  }

  predicate CpuIsComparable(live: Live, rec: Recommendation) {
    var resource := FindResource(rec.pod.containers, rec.containerName);
    live.cpuRequest.Some? && resource.Some? &&
    -0.001 <= live.cpuRequest.value as real / 1000.0 - resource.value.cpuRequest <= 0.001
  }

  /** Whole millicores that differ do so by at least one. */
  predicate Differs(a: real, b: real) { a - b >= 0.001 || b - a >= 0.001 }

  /** A CPU patch is sent exactly when the comparable live request or the limit in force would move by a millicore or
      more. A limit is sent only where one is in force, and only if it is not zero. */
  lemma CpuPatchIsSentIff(live: Live, rec: Recommendation, allocatableCPU: real)
    ensures var patch, request := CpuPatch(live, rec, allocatableCPU), CpuRequestFor(rec.cpu);
            var current := OrZero(live.cpuLimit) as real / 1000.0;
            var limit := if current == 0.0 then 0.0 else CpuLimitFor(rec.cpu, allocatableCPU);
      && (patch.Some? <==> CpuIsComparable(live, rec) &&
                           (Differs(request, live.cpuRequest.value as real / 1000.0) || Differs(limit, current)))
      && (patch.Some? ==> patch.value.request == request)
      && (patch.Some? ==> patch.value.limit == if limit == 0.0 then None else Some(limit))
  {
  }

  /** A CPU patch is enough as well, unless a limit is in force on a node that offers less than half a millicore: the
      computed limit of zero is never sent, and the same patch follows again and again. */
  lemma CpuPatchSettlesIff(live: Live, rec: Recommendation, allocatableCPU: real, live': Live, rec': Recommendation)
    requires allocatableCPU >= 0.0 && CpuPatch(live, rec, allocatableCPU).Some?
    requires var patch := CpuPatch(live, rec, allocatableCPU).value;
             rec'.cpu == rec.cpu && CpuIsComparable(live', rec') &&
             live'.cpuRequest.value as real / 1000.0 == patch.request &&
             OrZero(live'.cpuLimit) as real / 1000.0 == LimitAfter(patch, OrZero(live.cpuLimit) as real / 1000.0)
    ensures CpuPatch(live', rec', allocatableCPU) == None <==> OrZero(live.cpuLimit) == 0 || allocatableCPU >= 0.0005
  {
    CpuPatchIsSentIff(live, rec, allocatableCPU);
    CpuPatchIsSentIff(live', rec', allocatableCPU);
    CpuLimitIs(rec.cpu, allocatableCPU);
  }

  // ---------------------------------------------------------------- one record of the apply loop

  datatype Action = Evict(pod: string)
                  | ResizeCPU(pod: string, container: string, patch: Patch)
                  | ResizeMemory(pod: string, container: string, patch: Patch)

  predicate ToBeEvicted(rec: Recommendation) { rec.evict || IsGuaranteed(rec.pod) }

  function WorkloadOf(p: PodInfo): string { WorkloadKey(p.workloadKind, p.namespace, p.workloadName) }

  /** The workloads with at least one optimizable pod, over all nodes. */
  function WorkloadIds(optimizable: seq<PodInfo>): set<string>
    requires forall p :: p in optimizable ==> p.stats.Some?
  {
    set p | p in optimizable :: p.stats.value.identifier
  }

  /** Resources of the live container with this name; the last match wins, and a container that is not
      among the app containers (a sidecar) yields no quantities at all. */
  function LiveOf(containers: seq<(string, Live)>, name: string): Live {
    if containers == [] then Live(None, None, None, None)
    else if containers[|containers| - 1].0 == name then containers[|containers| - 1].1
    else LiveOf(containers[..|containers| - 1], name)
  }

  /** What the loop over the records of one node reads besides the records: the workloads with an optimizable pod, the
      pods running on the node, fetched once, and the settings. */
  datatype Environment = Environment(
    ids: set<string>, onNode: map<string, seq<(string, Live)>>,
    allocatableCPU: real, supportsReduction: bool, skipMemory: bool)

  /** The filter at the head of the loop: by workload, then by presence on the node. */
  predicate IsActedOn(p: PodInfo, env: Environment) { WorkloadOf(p) in env.ids && KeyOf(p) in env.onNode }

  /** The actions one record causes. */
  function ActionsFor(rec: Recommendation, env: Environment): seq<Action> {
    if !IsActedOn(rec.pod, env) then []
    else if ToBeEvicted(rec) then [Evict(KeyOf(rec.pod))]
    else
      var live := LiveOf(env.onNode[KeyOf(rec.pod)], rec.containerName);
      var cpu := CpuPatch(live, rec, env.allocatableCPU);
      var memory := if env.skipMemory then None else MemoryPatch(live, rec, env.supportsReduction);
      (if cpu.Some? then [ResizeCPU(KeyOf(rec.pod), rec.containerName, cpu.value)] else []) +
      (if memory.Some? then [ResizeMemory(KeyOf(rec.pod), rec.containerName, memory.value)] else [])
  }

  method ApplyRecord(rec: Recommendation, env: Environment) returns (actions: seq<Action>)
    ensures actions == ActionsFor(rec, env)
    ensures forall x :: x in actions ==> x.pod == KeyOf(rec.pod) && (x.Evict? <==> ToBeEvicted(rec))
  {
    actions := [];
    if WorkloadOf(rec.pod) !in env.ids { return; }
    if KeyOf(rec.pod) !in env.onNode { return; }
    if ToBeEvicted(rec) { return [Evict(KeyOf(rec.pod))]; }
    var live := LiveOf(env.onNode[KeyOf(rec.pod)], rec.containerName);
    var cpu := ApplyCPURecommendation(live, rec, env.allocatableCPU);
    if cpu.Some? { actions := actions + [ResizeCPU(KeyOf(rec.pod), rec.containerName, cpu.value)]; }
    if !env.skipMemory {
      var memory := ApplyMemoryRecommendation(live, rec, env.supportsReduction);
      if memory.Some? { actions := actions + [ResizeMemory(KeyOf(rec.pod), rec.containerName, memory.value)]; }
    }
  }

  /** The actions of the whole loop. */
  function Actions(recs: seq<Recommendation>, env: Environment): seq<Action> {
    if recs == [] then [] else Actions(recs[..|recs| - 1], env) + ActionsFor(recs[|recs| - 1], env)
  }

  method ApplyRecords(recs: seq<Recommendation>, env: Environment) returns (actions: seq<Action>)
    ensures actions == Actions(recs, env)
  {
    actions := [];
    for i := 0 to |recs|
      invariant actions == Actions(recs[..i], env)
    {
      assert recs[..i + 1][..i] == recs[..i];
      var more := ApplyRecord(recs[i], env);
      actions := actions + more;
    }
    assert recs[..|recs|] == recs;
  }

  /** An action is caused by some record. */
  lemma {:induction false} ActionsComeFromRecords(recs: seq<Recommendation>, env: Environment, x: Action)
    ensures x in Actions(recs, env) <==> exists rec :: rec in recs && x in ActionsFor(rec, env)
  {
    if recs != [] {
      var init, last := recs[..|recs| - 1], recs[|recs| - 1];
      ActionsComeFromRecords(init, env, x);
      assert recs == init + [last];
      assert last in recs;
    }
  }

  lemma ActionsOfRecord(rec: Recommendation, env: Environment, x: Action)
    requires x in ActionsFor(rec, env)
    ensures IsActedOn(rec.pod, env) && x.pod == KeyOf(rec.pod) && (x.Evict? <==> ToBeEvicted(rec))
  {
  }

  /** Of several live containers with one name the last counts; an unknown one has no quantities. */
  lemma {:induction false} LastLiveCounts(containers: seq<(string, Live)>, name: string, i: nat)
    ensures i < |containers| && containers[i].0 == name &&
            (forall j :: i < j < |containers| ==> containers[j].0 != name) ==>
              LiveOf(containers, name) == containers[i].1
    ensures (forall c :: c in containers ==> c.0 != name) ==> LiveOf(containers, name) == Live(None, None, None, None)
  {
    if containers != [] {
      var n := |containers| - 1;
      assert containers[n] in containers;
      assert forall j :: 0 <= j < n ==> containers[..n][j] == containers[j];
      LastLiveCounts(containers[..n], name, i);
    }
  }

  /** What one record causes, exactly. Nothing unless its workload is selected and its pod is on the node. Then either
      the eviction of the pod, if the record asks for it or every request is the limit, or the patches of its
      container; memory is left alone where that is switched off. */
  lemma RecordIsAppliedIff(rec: Recommendation, env: Environment, x: Action)
    ensures var there := WorkloadKey(rec.pod.workloadKind, rec.pod.namespace, rec.pod.workloadName) in env.ids &&
                         PodKey(rec.pod.namespace, rec.pod.name) in env.onNode;
            var live := if there then LiveOf(env.onNode[KeyOf(rec.pod)], rec.containerName)
                        else Live(None, None, None, None);
            x in ActionsFor(rec, env) <==>
              there && x.pod == KeyOf(rec.pod) &&
              match x
              case Evict(_) => rec.evict || LimitsAreRequests(rec.pod)
              case ResizeCPU(_, c, patch) =>
                !rec.evict && !LimitsAreRequests(rec.pod) && c == rec.containerName &&
                CpuPatch(live, rec, env.allocatableCPU) == Some(patch)
              case ResizeMemory(_, c, patch) =>
                !rec.evict && !LimitsAreRequests(rec.pod) && c == rec.containerName && !env.skipMemory &&
                MemoryPatch(live, rec, env.supportsReduction) == Some(patch)
  {
    assert LimitsAreRequests(rec.pod) <==> IsGuaranteed(rec.pod);
  }
}
