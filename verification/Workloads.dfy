/** The records the allocator works on: pods, their containers and the collected statistics. */
module Workloads {
  import opened Prelude

  datatype ContainerType = InitContainer | SidecarContainer | AppContainer

  datatype MemoryStats = MemoryStats(p75: real, oomMemory: real)

  /** An absent statistic (a nil pointer) is `None`; of a prediction only the maximum is read. */
  datatype ContainerStats = ContainerStats(
    containerName: string,
    containerType: ContainerType,
    cpuP75: Option<real>,
    psiAdjustedP75: Option<real>,
    memory: Option<MemoryStats>,
    memory7DayMax: Option<real>,
    predictedCPU: Option<real>,
    predictedMemory: Option<real>)

  datatype ContainerResources = ContainerResources(
    name: string, cpuRequest: real, cpuLimit: real, memoryRequest: real, memoryLimit: real)

  datatype OriginalResources = OriginalResources(
    name: string, containerType: ContainerType, cpuRequest: real, memoryRequest: real)

  /** The one constraint the allocator reads. */
  datatype Constraints = Constraints(excludedAnnotation: bool)

  datatype WorkloadStat = WorkloadStat(
    identifier: string,
    creationTime: int,
    autoscaledOnCPU: bool,
    autoscaledOnMemory: bool,
    constraints: Option<Constraints>,
    evictionRanking: int,
    incomplete: bool,
    containerStats: seq<ContainerStats>,
    originals: seq<OriginalResources>)

  datatype PodInfo = PodInfo(
    namespace: string,
    name: string,
    workloadKind: string,
    workloadName: string,
    requestedCPU: real,
    requestedMemory: real,
    stats: Option<WorkloadStat>,
    containers: seq<ContainerResources>)

  /** A workload override with its defaults merged in. */
  datatype Override = Override(enabled: bool, evictionRanking: int)

  const RANKING_DISABLED := 1
  const RANKING_MEDIUM := 3
  const RANKING_HIGH := 4
  const DAEMON_SET := "DaemonSet"

  function PodKey(namespace: string, name: string): string { namespace + ":" + name }

  function KeyOf(p: PodInfo): string { PodKey(p.namespace, p.name) }

  function WorkloadKey(kind: string, namespace: string, name: string): string {
    kind + ":" + namespace + ":" + name
  }

  predicate IsDaemonSet(p: PodInfo) { p.workloadKind == DAEMON_SET }

  /** Kubernetes names hold no colon, so a pod key determines the pod. */
  lemma PodKeyInjective(ns1: string, n1: string, ns2: string, n2: string)
    requires ':' !in ns1 && ':' !in ns2
    requires PodKey(ns1, n1) == PodKey(ns2, n2)
    ensures ns1 == ns2 && n1 == n2
  {
    var k := PodKey(ns1, n1);
    assert k[|ns1|] == ':' && k[|ns2|] == ':';
    assert |ns1| == |ns2|;
    assert ns1 == k[..|ns1|] == ns2;
    assert n1 == k[|ns1| + 1..] == n2;
  }

  lemma WorkloadKeyInjective(k1: string, ns1: string, n1: string, k2: string, ns2: string, n2: string)
    requires ':' !in k1 && ':' !in k2 && ':' !in ns1 && ':' !in ns2
    requires WorkloadKey(k1, ns1, n1) == WorkloadKey(k2, ns2, n2)
    ensures k1 == k2 && ns1 == ns2 && n1 == n2
  {
    assert WorkloadKey(k1, ns1, n1) == PodKey(k1, PodKey(ns1, n1));
    assert WorkloadKey(k2, ns2, n2) == PodKey(k2, PodKey(ns2, n2));
    PodKeyInjective(k1, PodKey(ns1, n1), k2, PodKey(ns2, n2));
    PodKeyInjective(ns1, n1, ns2, n2);
  }

  function WorkloadContainerKey(kind: string, namespace: string, name: string, container: string): string {
    kind + ":" + namespace + ":" + name + ":" + container
  }

  /** The four-part key determines the container too. */
  lemma WorkloadContainerKeyInjective(k1: string, ns1: string, n1: string, c1: string,
                                      k2: string, ns2: string, n2: string, c2: string)
    requires ':' !in k1 && ':' !in k2 && ':' !in ns1 && ':' !in ns2 && ':' !in n1 && ':' !in n2
    requires WorkloadContainerKey(k1, ns1, n1, c1) == WorkloadContainerKey(k2, ns2, n2, c2)
    ensures k1 == k2 && ns1 == ns2 && n1 == n2 && c1 == c2
  {
    assert WorkloadContainerKey(k1, ns1, n1, c1) == WorkloadKey(k1, ns1, PodKey(n1, c1));
    assert WorkloadContainerKey(k2, ns2, n2, c2) == WorkloadKey(k2, ns2, PodKey(n2, c2));
    WorkloadKeyInjective(k1, ns1, PodKey(n1, c1), k2, ns2, PodKey(n2, c2));
    PodKeyInjective(n1, c1, n2, c2);
  }

  /** strings.EqualFold on the ASCII names Kubernetes allows. */
  function FoldChar(c: char): char {
    if 'A' <= c <= 'Z' then (c as int + 32) as char else c
  }

  predicate EqualFold(a: string, b: string) {
    |a| == |b| && forall i :: 0 <= i < |a| ==> FoldChar(a[i]) == FoldChar(b[i])
  }

  /** One character stands for another: itself, or the same ASCII letter in the other case. */
  predicate SameLetter(a: char, b: char) {
    a == b || ('A' <= a <= 'Z' && b as int == a as int + 32) || ('A' <= b <= 'Z' && a as int == b as int + 32)
  }

  lemma FoldingIsCaseOnly(a: string, b: string)
    ensures EqualFold(a, b) <==> |a| == |b| && forall i :: 0 <= i < |a| ==> SameLetter(a[i], b[i])
  {
    assert forall x, y :: FoldChar(x) == FoldChar(y) <==> SameLetter(x, y);
  }

  /** GetContainerResource: the first current resource whose name matches, ignoring case. */
  function FindResource(rs: seq<ContainerResources>, name: string): (r: Option<ContainerResources>)
    ensures r.Some? ==> r.value in rs && EqualFold(r.value.name, name)
    ensures r.None? <==> forall x :: x in rs ==> !EqualFold(x.name, name)
  {
    if rs == [] then None
    else if EqualFold(rs[0].name, name) then Some(rs[0])
    else FindResource(rs[1..], name)
  }

  /** GetContainerStats: the first statistics record with exactly this name. */
  function FindStats(cs: seq<ContainerStats>, name: string): (r: Option<ContainerStats>)
    ensures r.Some? ==> r.value in cs && r.value.containerName == name
    ensures r.None? <==> forall x :: x in cs ==> x.containerName != name
  {
    if cs == [] then None
    else if cs[0].containerName == name then Some(cs[0])
    else FindStats(cs[1..], name)
  }

  /** Of several matches both lookups take the first. */
  lemma {:induction false} FirstMatchIsFound(rs: seq<ContainerResources>, cs: seq<ContainerStats>, name: string,
                                             i: nat)
    ensures i < |rs| && EqualFold(rs[i].name, name) && (forall j :: 0 <= j < i ==> !EqualFold(rs[j].name, name)) ==>
              FindResource(rs, name) == Some(rs[i])
    ensures i < |cs| && cs[i].containerName == name && (forall j :: 0 <= j < i ==> cs[j].containerName != name) ==>
              FindStats(cs, name) == Some(cs[i])
  {
    if i > 0 {
      var rs', cs' := if rs == [] then rs else rs[1..], if cs == [] then cs else cs[1..];
      assert forall j :: 0 < j <= i && j < |rs| ==> rs'[j - 1] == rs[j];
      assert forall j :: 0 < j <= i && j < |cs| ==> cs'[j - 1] == cs[j];
      FirstMatchIsFound(rs', cs', name, i - 1);
      assert i < |rs| ==> rs'[i - 1] == rs[i];
      assert i < |cs| ==> cs'[i - 1] == cs[i];
    }
  }

  function CurrentRequest(r: Resource, c: ContainerResources): real {
    match r case CPU => c.cpuRequest case Memory => c.memoryRequest
  }

  predicate IsBestEffort(p: PodInfo) {
    forall c :: c in p.containers ==>
      c.cpuRequest == 0.0 && c.cpuLimit == 0.0 && c.memoryRequest == 0.0 && c.memoryLimit == 0.0
  }

  predicate IsGuaranteed(p: PodInfo) {
    forall c :: c in p.containers ==>
      (c.cpuRequest > 0.0 ==> c.cpuLimit == c.cpuRequest) &&
      (c.memoryRequest > 0.0 ==> c.memoryLimit == c.memoryRequest)
  }

  /** Every pointer the allocator follows for this container is set. */
  predicate Dereferenceable(c: ContainerStats) {
    c.cpuP75.Some? && c.memory.Some? && c.predictedCPU.Some? && c.predictedMemory.Some?
  }

  /** The allocator can process this pod without following a nil pointer. */
  predicate Ready(p: PodInfo) {
    p.stats.Some? &&
    forall c :: c in p.stats.value.containerStats && c.containerType != InitContainer ==> Dereferenceable(c)
  }

  predicate AllReady(pods: seq<PodInfo>) {
    forall p :: p in pods ==> Ready(p)
  }

  /** Measured usage is never negative. */
  predicate NonNegativeUsage(c: ContainerStats) {
    (c.cpuP75.Some? ==> c.cpuP75.value >= 0.0) &&
    (c.psiAdjustedP75.Some? ==> c.psiAdjustedP75.value >= 0.0) &&
    (c.memory.Some? ==> c.memory.value.p75 >= 0.0)
  }

  predicate Measured(p: PodInfo) {
    p.stats.Some? && forall c :: c in p.stats.value.containerStats ==> NonNegativeUsage(c)
  }

  predicate DistinctKeys(pods: seq<PodInfo>) {
    forall i, j :: 0 <= i < j < |pods| ==> KeyOf(pods[i]) != KeyOf(pods[j])
  }
}
