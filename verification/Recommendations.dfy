/** From a recommendation to the requests and limits that are sent, and what rounding does to the budget. */
module Recommendations {
  import opened Prelude
  import opened Sequences
  import opened Workloads
  import opened Eviction
  import opened Allocator
  import NodeBudget

  const MINIMUM_CPU := 0.001
  const MINIMUM_MEMORY := 16.0
  const CPU_CLAMP := 20.0

  /** math.Round(x*1000)/1000 */
  function RoundMilli(x: real): real { Round(x * 1000.0) as real / 1000.0 }

  function CpuRequestFor(cpu: real): real { RoundMilli(Min(CPU_CLAMP, Max(MINIMUM_CPU, cpu))) }

  function MemoryRequestFor(memory: real): real { Round(Max(MINIMUM_MEMORY, memory)) as real }

  /** The signal behind the memory limit: the seven-day peak or the last out-of-memory kill. */
  function LimitSignal(c: ContainerStats): real {
    Max(if c.memory7DayMax.Some? then c.memory7DayMax.value else 0.0,
        if c.memory.Some? && c.memory.value.oomMemory > 0.0 then c.memory.value.oomMemory else 0.0)
  }

  function MemoryLimitFor(stats: Option<WorkloadStat>, container: string, memory: real): real {
    var request := Max(MINIMUM_MEMORY, memory);
    var stat := if stats.Some? then FindStats(stats.value.containerStats, container) else None;
    Round(if stat.Some? then Max(request, Max(MINIMUM_MEMORY, LimitSignal(stat.value) * 2.0))
          else request * 2.0) as real
  }

  function CpuLimitFor(cpu: real, allocatable: real): real {
    var limit := RoundMilli(allocatable);
    if limit > 0.0 then Max(limit, CpuRequestFor(cpu)) else limit
  }

  method ComputeRecommendedResourceValues(rec: Recommendation, allocatableCPU: real)
    returns (cpuRequest: real, memoryRequest: real, cpuLimit: real, memoryLimit: real)
    ensures MINIMUM_CPU <= cpuRequest <= CPU_CLAMP && MINIMUM_MEMORY <= memoryRequest <= memoryLimit
    ensures cpuLimit > 0.0 ==> cpuLimit >= cpuRequest
    ensures cpuLimit > 0.0 <==> RoundMilli(allocatableCPU) > 0.0
    ensures rec.cpu >= 0.0 ==> cpuRequest <= rec.cpu + MINIMUM_CPU
    ensures rec.memory >= 0.0 ==> memoryRequest <= rec.memory + MINIMUM_MEMORY
    ensures cpuRequest == CpuRequestFor(rec.cpu) && memoryRequest == MemoryRequestFor(rec.memory)
    ensures cpuLimit == CpuLimitFor(rec.cpu, allocatableCPU)
    ensures memoryLimit == MemoryLimitFor(rec.pod.stats, rec.containerName, rec.memory)
  {
    RequestBounds(rec.cpu, rec.memory);
    cpuRequest := Max(MINIMUM_CPU, rec.cpu);
    if cpuRequest > CPU_CLAMP {
      cpuRequest := CPU_CLAMP;
    }
    memoryRequest := Max(MINIMUM_MEMORY, rec.memory);
    cpuLimit := allocatableCPU;
    memoryLimit := memoryRequest * 2.0;
    if rec.pod.stats.Some? {
      var stat := FindStats(rec.pod.stats.value.containerStats, rec.containerName);
      if stat.Some? {
        var memMax, oom := 0.0, 0.0;
        if stat.value.memory7DayMax.Some? { memMax := stat.value.memory7DayMax.value; }
        if stat.value.memory.Some? && stat.value.memory.value.oomMemory > 0.0 {
          oom := stat.value.memory.value.oomMemory;
        }
        memoryLimit := Max(memoryRequest, Max(MINIMUM_MEMORY, Max(memMax, oom) * 2.0));
      }
    }
    RoundMonotone(memoryRequest, memoryLimit);
    cpuRequest := RoundMilli(cpuRequest);
    cpuLimit := RoundMilli(cpuLimit);
    if cpuLimit > 0.0 {
      cpuLimit := Max(cpuLimit, cpuRequest);
    }
    memoryRequest := Round(memoryRequest) as real;
    memoryLimit := Round(memoryLimit) as real;
  }

  /** Flooring, clamping and rounding move a request up by at most the floor; between floor and clamp only rounding
      moves it at all. */
  lemma RequestBounds(cpu: real, memory: real)
    ensures MINIMUM_CPU <= CpuRequestFor(cpu) <= CPU_CLAMP && MINIMUM_MEMORY <= MemoryRequestFor(memory)
    ensures cpu >= 0.0 ==> CpuRequestFor(cpu) <= cpu + MINIMUM_CPU
    ensures memory >= 0.0 ==> MemoryRequestFor(memory) <= memory + MINIMUM_MEMORY
    ensures MINIMUM_CPU <= cpu <= CPU_CLAMP ==> -0.0005 <= CpuRequestFor(cpu) - cpu <= 0.0005
    ensures MINIMUM_MEMORY <= memory ==> -0.5 <= MemoryRequestFor(memory) - memory <= 0.5
    ensures cpu >= CPU_CLAMP ==> CpuRequestFor(cpu) == CPU_CLAMP
  {
    var c := Min(CPU_CLAMP, Max(MINIMUM_CPU, cpu)) * 1000.0;
    RoundAbove(c, 1);
    RoundBelow(c, 20000);
    if cpu <= MINIMUM_CPU { RoundBelow(c, 1); }
    if cpu >= CPU_CLAMP { RoundAbove(c, 20000); }
    RoundAbove(Max(MINIMUM_MEMORY, memory), 16);
    if memory <= MINIMUM_MEMORY { RoundBelow(Max(MINIMUM_MEMORY, memory), 16); }
  }

  /** The memory limit covers the request, and twice the seven-day peak and the last out-of-memory kill of a known
      container; an unknown container gets twice its request. Rounding takes at most half a megabyte. */
  lemma MemoryLimitCoversSignal(stats: Option<WorkloadStat>, container: string, memory: real)
    ensures MemoryRequestFor(memory) <= MemoryLimitFor(stats, container, memory)
    ensures var stat := if stats.Some? then FindStats(stats.value.containerStats, container) else None;
            var limit := MemoryLimitFor(stats, container, memory);
            (stat.Some? && stat.value.memory7DayMax.Some? ==> limit >= 2.0 * stat.value.memory7DayMax.value - 0.5) &&
            (stat.Some? && stat.value.memory.Some? ==> limit >= 2.0 * stat.value.memory.value.oomMemory - 0.5) &&
            (stat.None? ==> limit >= 2.0 * Max(MINIMUM_MEMORY, memory) - 0.5)
  {
    var request := Max(MINIMUM_MEMORY, memory);
    var stat := if stats.Some? then FindStats(stats.value.containerStats, container) else None;
    RoundMonotone(request, if stat.Some? then Max(request, Max(MINIMUM_MEMORY, LimitSignal(stat.value) * 2.0))
                           else request * 2.0);
  }

  predicate IsWhole(x: real) { x.Floor as real == x }

  /** The requests, in numbers: at least a millicore and 16 MB, at most twenty cores, in whole millicores and megabytes,
      and otherwise the recommendation up to rounding. */
  lemma RequestsAre(cpu: real, memory: real)
    ensures cpu <= 0.001 ==> CpuRequestFor(cpu) == 0.001
    ensures cpu >= 20.0 ==> CpuRequestFor(cpu) == 20.0
    ensures 0.001 <= cpu <= 20.0 ==> -0.0005 <= CpuRequestFor(cpu) - cpu <= 0.0005
    ensures memory <= 16.0 ==> MemoryRequestFor(memory) == 16.0
    ensures memory >= 16.0 ==> -0.5 <= MemoryRequestFor(memory) - memory <= 0.5
    ensures IsWhole(CpuRequestFor(cpu) * 1000.0) && IsWhole(MemoryRequestFor(memory))
  {
    RequestBounds(cpu, memory);
    var n := Round(Min(CPU_CLAMP, Max(MINIMUM_CPU, cpu)) * 1000.0);
    assert CpuRequestFor(cpu) * 1000.0 == n as real;
    if cpu <= 0.001 { assert Round(1.0) == 1; }
  }

  /** The CPU limit is what the node offers, in whole millicores, raised to the request; a node that offers less than
      half a millicore gives no limit. */
  lemma CpuLimitIs(cpu: real, allocatable: real)
    ensures var limit, node := CpuLimitFor(cpu, allocatable), Round(allocatable * 1000.0) as real / 1000.0;
      && (node > 0.0 ==> limit >= node && limit >= CpuRequestFor(cpu) && (limit == node || limit == CpuRequestFor(cpu)))
      && (node <= 0.0 ==> limit == node)
      && (0.0 <= allocatable < 0.0005 ==> limit == 0.0)
      && (0.0005 <= allocatable ==> limit > 0.0)
  {
    if 0.0005 <= allocatable { RoundMonotone(0.5, allocatable * 1000.0); }
    if 0.0 <= allocatable < 0.0005 { assert Round(allocatable * 1000.0) == 0; }
  }

  /** The memory limit of a known container is the largest of its request, twice its seven-day peak and twice its last
      out-of-memory kill, that of an unknown one twice its request; rounded to a whole megabyte. */
  lemma MemoryLimitIs(stats: Option<WorkloadStat>, container: string, memory: real)
    ensures var limit := MemoryLimitFor(stats, container, memory);
            var stat := if stats.Some? then FindStats(stats.value.containerStats, container) else None;
            var peak := if stat.Some? && stat.value.memory7DayMax.Some? then stat.value.memory7DayMax.value else 0.0;
            var kill := if stat.Some? && stat.value.memory.Some? then stat.value.memory.value.oomMemory else 0.0;
            var want := if stat.Some? then Max(16.0, Max(memory, Max(2.0 * peak, 2.0 * kill)))
                        else 2.0 * Max(16.0, memory);
            IsWhole(limit) && -0.5 <= limit - want <= 0.5
  {
  }

  // ---------------------------------------------------------------- the budget after rounding

  function RequestOf(r: Resource): Recommendation -> real {
    (rec: Recommendation) => match r case CPU => CpuRequestFor(rec.cpu) case Memory => MemoryRequestFor(rec.memory)
  }

  function Slack(r: Resource): real { match r case CPU => MINIMUM_CPU case Memory => MINIMUM_MEMORY }

  predicate NonNegativeRequests(p: PodInfo) {
    forall c :: c in p.containers ==> c.cpuRequest >= 0.0 && c.memoryRequest >= 0.0
  }

  lemma {:induction false} MetricsNonNegative(p: PodInfo, cs: seq<ContainerStats>)
    requires AllDereferenceable(cs) && NonNegativeRequests(p) && forall c :: c in cs ==> NonNegativeUsage(c)
    ensures forall m, r :: m in Metrics(p, cs, true) ==> Base(r, m) >= 0.0 && Rest(r, m) >= 0.0
  {
    if cs != [] {
      var last := cs[|cs| - 1];
      assert last in cs;
      MetricsNonNegative(p, cs[..|cs| - 1]);
      if Counts(p, last, true) {
        var current := FindResource(p.containers, last.containerName);
        assert current.value in p.containers;
        forall r ensures Base(r, MetricOf(p, last)) >= 0.0 && Rest(r, MetricOf(p, last)) >= 0.0 {
          assert Base(r, MetricOf(p, last)) == Demand(r, p, last).0;
        }
      }
    }
  }

  lemma {:induction false} SlotsNonNegative(pods: seq<PodInfo>)
    requires AllReady(pods) && forall p :: p in pods ==> Measured(p) && NonNegativeRequests(p)
    ensures forall m, r :: m in Slots(pods) ==> Base(r, m) >= 0.0 && Rest(r, m) >= 0.0
  {
    if pods != [] {
      var last := pods[|pods| - 1];
      assert last in pods;
      SlotsNonNegative(pods[..|pods| - 1]);
      MetricsNonNegative(last, last.stats.value.containerStats);
    }
  }

  lemma FinalNonNegative(r: Resource, all: seq<ContainerMetric>, m: ContainerMetric)
    requires Base(r, m) >= 0.0 && Rest(r, m) >= 0.0
    ensures FinalOf(r, all)(m) >= 0.0
  {
    assert FinalOf(r, all)(m) == Base(r, m) + ShareOf(r, all)(m);
    if SumOf(BaseOf(r), all) > 0.0 && SumOf(RestOf(r), all) > 0.0 {
      NodeBudget.ShareIsPortion(r, all, m);
      NodeBudget.PortionNonNegative(MaxOf(RestOf(r), all), Rest(r, m), SumOf(RestOf(r), all));
    }
  }

  lemma {:induction false} RecordsNonNegative(all: seq<ContainerMetric>, ms: seq<ContainerMetric>)
    requires forall m, r :: m in ms ==> Base(r, m) >= 0.0 && Rest(r, m) >= 0.0
    ensures forall rec :: rec in SurvivorRecords(all, ms) ==> rec.cpu >= 0.0 && rec.memory >= 0.0
  {
    if ms != [] {
      var last := ms[|ms| - 1];
      assert last in ms;
      RecordsNonNegative(all, ms[..|ms| - 1]);
      FinalNonNegative(CPU, all, last);
      FinalNonNegative(Memory, all, last);
    }
  }

  /** The requests that are sent overshoot the recommendations by at most one floor per container. */
  lemma RequestsOvershootBoundedly(r: Resource, recs: seq<Recommendation>)
    requires forall rec :: rec in recs ==> rec.cpu >= 0.0 && rec.memory >= 0.0
    ensures SumOf(RequestOf(r), recs) <= SumOf(Recommended(r), recs) + Slack(r) * |recs| as real
  {
    forall rec | rec in recs ensures RequestOf(r)(rec) <= Recommended(r)(rec) + Slack(r) {
      RequestBounds(rec.cpu, rec.memory);
    }
    SumMonotone(RequestOf(r), Recommended(r), recs, Slack(r));
  }

  /** The budget theorem after flooring, clamping and rounding. */
  lemma RequestsWithinBudget(r: Resource, pods: seq<PodInfo>, overrides: Overrides, cpu: real, memory: real,
                             a: Allocation, stay: PodInfo)
    requires AllReady(pods) && DistinctKeys(pods) && IsAllocation(pods, overrides, cpu, memory, a)
    requires forall p :: p in pods ==> Measured(p) && NonNegativeRequests(p)
    requires stay in a.survivors && Evictable(CacheOf(pods, overrides))(stay) && AllReady(a.survivors)
    ensures var recs := SurvivorRecords(Slots(a.survivors), Slots(a.survivors));
            SumOf(RequestOf(r), recs) <= (if r.CPU? then cpu else memory) + Slack(r) * |recs| as real
  {
    NodeBudget.AllocationWithinBudget(r, pods, overrides, cpu, memory, a, stay);
    NodeBudget.SurvivorsKnown(pods, overrides, cpu, memory, a);
    SlotsNonNegative(a.survivors);
    RecordsNonNegative(Slots(a.survivors), Slots(a.survivors));
    RequestsOvershootBoundedly(r, SurvivorRecords(Slots(a.survivors), Slots(a.survivors)));
  }

  // ---------------------------------------------------------------- capped requests over many runs

  /** A surviving DaemonSet container is recommended no more than it already requests. */
  lemma DaemonSetIsCapped(r: Resource, p: PodInfo, c: ContainerStats, all: seq<ContainerMetric>)
    requires Dereferenceable(c) && IsDaemonSet(p) && FindResource(p.containers, c.containerName).Some?
    ensures FinalOf(r, all)(MetricOf(p, c)) ==
            Min(RecommendedAndRest(r, c).0, CurrentRequest(r, FindResource(p.containers, c.containerName).value))
  {
    var m := MetricOf(p, c);
    assert Rest(r, m) == 0.0 && FinalOf(r, all)(m) == Base(r, m) + ShareOf(r, all)(m);
    if SumOf(BaseOf(r), all) > 0.0 && SumOf(RestOf(r), all) > 0.0 {
      NodeBudget.ShareIsPortion(r, all, m);
      NodeBudget.PortionsAdd(MaxOf(RestOf(r), all), 0.0, 0.0, SumOf(RestOf(r), all));
    }
  }

  /** A request after runs that each send a demand capped at the request then in force, or send nothing (`None`). */
  function RequestAfter(r: Resource, initial: real, runs: seq<Option<real>>): real {
    if runs == [] then initial else CappedStep(r, RequestAfter(r, initial, runs[..|runs| - 1]), runs[|runs| - 1])
  }

  function CappedStep(r: Resource, current: real, base: Option<real>): real {
    match base
    case None => current
    case Some(demand) =>
      match r case CPU => CpuRequestFor(Min(demand, current)) case Memory => MemoryRequestFor(Min(demand, current))
  }

  /** CPU quantities are whole millicores, so the CPU request never passes its initial value. */
  lemma {:induction false} CappedCpuNeverGrows(millicores: int, runs: seq<Option<real>>)
    ensures RequestAfter(CPU, millicores as real / 1000.0, runs) <= Max(MINIMUM_CPU, millicores as real / 1000.0)
  {
    if runs != [] {
      CappedCpuNeverGrows(millicores, runs[..|runs| - 1]);
      var current := RequestAfter(CPU, millicores as real / 1000.0, runs[..|runs| - 1]);
      match runs[|runs| - 1]
      case None =>
      case Some(base) =>
        var bound := if millicores < 1 then 1 else millicores;
        RoundBelow(Min(CPU_CLAMP, Max(MINIMUM_CPU, Min(base, current))) * 1000.0, bound);
    }
  }

  /** Memory is rounded to whole megabytes once; after that it never grows. */
  lemma {:induction false} CappedMemoryNeverGrows(initial: real, runs: seq<Option<real>>)
    ensures RequestAfter(Memory, initial, runs) == initial ||
            RequestAfter(Memory, initial, runs) <= Max(MINIMUM_MEMORY, Round(initial) as real)
  {
    if runs != [] {
      CappedMemoryNeverGrows(initial, runs[..|runs| - 1]);
      var current := RequestAfter(Memory, initial, runs[..|runs| - 1]);
      match runs[|runs| - 1]
      case None =>
      case Some(base) =>
        var bound := if Round(initial) < 16 then 16 else Round(initial);
        if current == initial {
          RoundMonotone(Min(base, current), initial);
          if initial <= 16.0 { RoundBelow(Max(MINIMUM_MEMORY, Min(base, current)), 16); }
          else { RoundMonotone(Max(MINIMUM_MEMORY, Min(base, current)), initial); RoundAbove(initial, 16); }
        } else {
          RoundBelow(Max(MINIMUM_MEMORY, Min(base, current)), bound);
        }
    }
  }
}
