/** The admission webhook: resource patches for a pod that is being created. */
module Webhook {
  import opened Prelude
  import opened JsonPatch
  import opened Workloads

  /** Quantities in thousandths: millicores for CPU, milli-bytes for memory. */
  type Quantities = map<string, int>

  datatype Resources = Resources(requests: Option<Quantities>, limits: Option<Quantities>, others: map<string, Json>)

  datatype Container = Container(name: string, resources: Resources, others: map<string, Json>)

  // ---------------------------------------------------------------- what is decided per container

  const CPU_KEY := "cpu"
  const MEMORY_KEY := "memory"

  function QuantityOf(q: Option<Quantities>, name: string): int {
    if q.Some? && name in q.value then q.value[name] else 0
  }

  /** Quantity.Value: whole units, rounded up. */
  function ValueOf(milli: int): int { (milli + 999) / 1000 }

  const MB := 1000000

  /** The "%dM" printer: whole megabytes, truncated toward zero, as a quantity in milli-bytes. */
  function PrintedMB(bytes: int): int { (if bytes >= 0 then bytes / MB else -((-bytes) / MB)) * MB * 1000 }

  function RecommendedCPU(c: ContainerStats): real
    requires Dereferenceable(c)
  {
    Min(20.0, Max(c.predictedCPU.value, c.cpuP75.value))
  }

  function RecommendedMemory(c: ContainerStats): real
    requires Dereferenceable(c)
  {
    var peak := Max(c.predictedMemory.value, c.memory.value.p75);
    if c.memory.value.oomMemory > 0.0 && c.memory.value.oomMemory > peak then c.memory.value.oomMemory else peak
  }

  function RecommendedLimitBytes(c: ContainerStats): (b: int)
    requires Dereferenceable(c)
    ensures b >= 512 * MB && b as real >= 2.0 * RecommendedMemory(c) * MB as real - 1.0
    ensures c.memory7DayMax.Some? ==> b as real >= 2.0 * c.memory7DayMax.value * MB as real - 1.0
  {
    var memory := RecommendedMemory(c);
    var limit := if c.memory7DayMax.Some? && c.memory7DayMax.value > 0.0
                 then Max(2.0 * c.memory7DayMax.value, Max(2.0 * c.memory.value.oomMemory, 2.0 * memory))
                 else 2.0 * memory;
    Trunc(Max(limit, 512.0) * 1000000.0)
  }

  /** The new values for one container; `None` leaves the value alone. */
  datatype Plan = Plan(cpuRequest: Option<int>, memoryRequest: Option<int>, memoryLimit: Option<int>)

  function PlanFor(r: Resources, stat: Option<ContainerStats>, daemonSet: bool, disableMemory: bool): Plan {
    if stat.None? || !Dereferenceable(stat.value) then Plan(None, None, None)
    else
      var c := stat.value;
      var cpu := if QuantityOf(r.requests, CPU_KEY) > 0 && !daemonSet
                 then Some(Trunc(Max(RecommendedCPU(c) * 1000.0, 1.0))) else None;
      var currentBytes := ValueOf(QuantityOf(r.requests, MEMORY_KEY));
      var currentLimitBytes := ValueOf(QuantityOf(r.limits, MEMORY_KEY));
      var bytes := Trunc(RecommendedMemory(c) * 1000000.0);
      if !disableMemory && currentBytes > 0 && (bytes - currentBytes > 16 * MB || currentBytes - bytes > 16 * MB) then
        if daemonSet then
          Plan(cpu, None, if currentLimitBytes > 0
                          then Some(PrintedMB(MaxInt(currentLimitBytes, MaxInt(RecommendedLimitBytes(c), 16 * MB))))
                          else None)
        else Plan(cpu, Some(PrintedMB(bytes)), Some(PrintedMB(RecommendedLimitBytes(c))))
      else Plan(cpu, None, None)
  }

  function MaxInt(a: int, b: int): int { if a >= b then a else b }

  // ---------------------------------------------------------------- the container after the patch

  function OrEmpty(q: Option<Quantities>): Quantities { if q.Some? then q.value else map[] }

  function Updated(q: Quantities, name: string, v: Option<int>): Quantities {
    if v.Some? then q[name := v.value] else q
  }

  function Adjusted(r: Resources, plan: Plan): Resources {
    Resources(Some(Updated(Updated(OrEmpty(r.requests), CPU_KEY, plan.cpuRequest), MEMORY_KEY, plan.memoryRequest)),
              Some(Updated(OrEmpty(r.limits) - {CPU_KEY}, MEMORY_KEY, plan.memoryLimit)), r.others)
  }

  /** What the API server demands: no request above its limit. */
  predicate Valid(r: Resources) {
    r.requests.Some? && r.limits.Some? ==>
      forall k :: k in r.requests.value && k in r.limits.value ==> r.requests.value[k] <= r.limits.value[k]
  }

  /** A quantity under its name, if there is one. */
  function Find(q: Option<Quantities>, name: string): Option<int> {
    if q.Some? && name in q.value then Some(q.value[name]) else None
  }

  /** What a container holds after the patch: planned values are written, a CPU limit is gone, and every other request,
      limit or field is what it was. */
  lemma AdjustedIs(r: Resources, plan: Plan, k: string)
    ensures var after := Adjusted(r, plan);
      && after.requests.Some? && after.limits.Some? && after.others == r.others
      && Find(after.limits, "cpu") == None
      && Find(after.requests, "cpu") == (if plan.cpuRequest.Some? then plan.cpuRequest else Find(r.requests, "cpu"))
      && Find(after.requests, "memory") ==
         (if plan.memoryRequest.Some? then plan.memoryRequest else Find(r.requests, "memory"))
      && Find(after.limits, "memory") ==
         (if plan.memoryLimit.Some? then plan.memoryLimit else Find(r.limits, "memory"))
      && (k != "cpu" && k != "memory" ==>
            Find(after.requests, k) == Find(r.requests, k) && Find(after.limits, k) == Find(r.limits, k))
  {
    assert |CPU_KEY| == 3 && |MEMORY_KEY| == 6;
  }

  /** The memory limit of a DaemonSet container is rewritten while its request stays. */
  predicate KeepsRequestUnderNewLimit(r: Resources, plan: Plan) {
    plan.memoryLimit.Some? && plan.memoryRequest.None? && r.requests.Some? && MEMORY_KEY in r.requests.value ==>
      r.requests.value[MEMORY_KEY] <= plan.memoryLimit.value
  }

  lemma PrintedMBMonotone(a: int, b: int)
    requires a <= b
    ensures PrintedMB(a) <= PrintedMB(b)
  {
  }

  /** Printing cuts off less than one megabyte. */
  lemma PrintedMBIsWhole(bytes: int)
    requires bytes >= 0
    ensures PrintedMB(bytes) % (MB * 1000) == 0 && 0 <= bytes * 1000 - PrintedMB(bytes) < MB * 1000
  {
  }

  /** Printing the bytes of a megabyte count keeps its whole part. */
  lemma PrintedMegabytes(megabytes: real)
    ensures PrintedMB(Trunc(megabytes * 1000000.0)) == Trunc(megabytes) * MB * 1000
  {
    WholePartIsPrinted(if megabytes >= 0.0 then megabytes else -megabytes);
  }

  lemma WholePartIsPrinted(megabytes: real)
    requires megabytes >= 0.0
    ensures PrintedMB((megabytes * 1000000.0).Floor) == megabytes.Floor * MB * 1000
  {
    var bytes, k := (megabytes * 1000000.0).Floor, megabytes.Floor;
    assert k as real <= megabytes < (k + 1) as real;
    assert k * MB <= bytes < (k + 1) * MB;
    assert bytes / MB == k;
  }

  /** What a plan gives a container with statistics. CPU: whole millicores, never for DaemonSets, at least what was
      used and what is predicted unless cut at twenty cores. Memory: only a change of more than 16 MB; the request is
      the whole part of the recommendation, and the limit leaves twice the recommendation and the seven-day peak,
      less what the printer cuts off. */
  lemma PlanCoversDemand(r: Resources, stat: ContainerStats, daemonSet: bool, disableMemory: bool)
    requires Dereferenceable(stat) && NonNegativeUsage(stat)
    ensures var plan := PlanFor(r, Some(stat), daemonSet, disableMemory);
      && (plan.cpuRequest.Some? <==> !daemonSet && QuantityOf(r.requests, CPU_KEY) > 0)
      && (plan.cpuRequest.Some? ==>
            1 <= plan.cpuRequest.value <= 20000 &&
            (plan.cpuRequest.value == 20000 ||
             (plan.cpuRequest.value as real > stat.predictedCPU.value * 1000.0 - 1.0 &&
              plan.cpuRequest.value as real > stat.cpuP75.value * 1000.0 - 1.0)))
      && (plan.memoryRequest.Some? ==>
            !daemonSet && plan.memoryRequest.value == RecommendedMemory(stat).Floor * MB * 1000)
      && (plan.memoryRequest.Some? || plan.memoryLimit.Some? ==>
            !disableMemory && QuantityOf(r.requests, MEMORY_KEY) > 0 &&
            Abs(RecommendedMemory(stat) * MB as real - ValueOf(QuantityOf(r.requests, MEMORY_KEY)) as real) >
              16.0 * MB as real)
      && (plan.memoryLimit.Some? ==>
            plan.memoryLimit.value > 511 * MB * 1000 &&
            plan.memoryLimit.value as real > (2.0 * RecommendedMemory(stat) - 1.0) * MB as real * 1000.0 - 1000.0 &&
            (stat.memory7DayMax.Some? ==>
               plan.memoryLimit.value as real >
                 (2.0 * stat.memory7DayMax.value - 1.0) * MB as real * 1000.0 - 1000.0) &&
            (daemonSet ==> plan.memoryLimit.value > (ValueOf(QuantityOf(r.limits, MEMORY_KEY)) - MB) * 1000))
  {
    var current, bytes := ValueOf(QuantityOf(r.requests, MEMORY_KEY)), Trunc(RecommendedMemory(stat) * 1000000.0);
    assert RecommendedMemory(stat) >= 0.0;
    PrintedMegabytes(RecommendedMemory(stat));
    PrintedMBIsWhole(RecommendedLimitBytes(stat));
    PrintedMBIsWhole(MaxInt(ValueOf(QuantityOf(r.limits, MEMORY_KEY)), MaxInt(RecommendedLimitBytes(stat), 16 * MB)));
  }

  /** The memory a container is given, in megabytes: the largest of its usage, the prediction and a kill. */
  predicate IsMemoryPeak(c: ContainerStats, peak: real)
    requires Dereferenceable(c)
  {
    var p75, predicted, kill := c.memory.value.p75, c.predictedMemory.value, c.memory.value.oomMemory;
    peak == if kill > 0.0 && kill > p75 && kill > predicted then kill else if p75 > predicted then p75 else predicted
  }

  /** The limit that goes with it: twice the peak and twice the seven-day peak, at least 512 MB. */
  predicate IsMemoryLimit(c: ContainerStats, peak: real, limit: real) {
    var week := if c.memory7DayMax.Some? then c.memory7DayMax.value else 0.0;
    limit >= 512.0 && limit >= 2.0 * peak && limit >= 2.0 * week &&
    (limit == 512.0 || limit == 2.0 * peak || limit == 2.0 * week)
  }

  lemma RecommendedMemoryIs(c: ContainerStats) returns (peak: real, limit: real)
    requires Dereferenceable(c)
    ensures IsMemoryPeak(c, peak) && IsMemoryLimit(c, peak, limit)
    ensures RecommendedMemory(c) == peak && RecommendedLimitBytes(c) == Trunc(limit * 1000000.0)
  {
    peak := RecommendedMemory(c);
    limit := Max(512.0, Max(2.0 * peak, if c.memory7DayMax.Some? then 2.0 * c.memory7DayMax.value else 0.0));
  }

  /** Which memory values a plan writes, and what they are. When memory is enabled, requested, and off the peak by more
      than 16 MB, any container but a DaemonSet's gets the peak and its limit, both cut to whole megabytes; a DaemonSet
      container with a limit keeps its request and the larger of both limits; and otherwise nothing is written. */
  lemma MemoryPlanIs(r: Resources, c: ContainerStats, daemonSet: bool, disableMemory: bool)
    returns (peak: real, limit: real)
    requires Dereferenceable(c)
    ensures IsMemoryPeak(c, peak) && IsMemoryLimit(c, peak, limit)
    ensures var plan := PlanFor(r, Some(c), daemonSet, disableMemory);
            var current, inForce := ValueOf(QuantityOf(r.requests, MEMORY_KEY)),
                ValueOf(QuantityOf(r.limits, MEMORY_KEY));
            var bytes := Trunc(peak * 1000000.0);
            var changes := !disableMemory && current > 0 &&
                           (bytes - current > 16000000 || current - bytes > 16000000);
      && plan.memoryRequest == (if changes && !daemonSet then Some(Trunc(peak) * 1000000000) else None)
      && (!daemonSet ==> plan.memoryLimit == if changes then Some(Trunc(limit) * 1000000000) else None)
      && (daemonSet ==>
            plan.memoryLimit == if changes && inForce > 0
                                then Some(MaxInt(inForce / 1000000, Trunc(limit)) * 1000000000) else None)
  {
    peak, limit := RecommendedMemoryIs(c);
    PrintedMegabytes(peak);
    PrintedMegabytes(limit);
    var inForce := ValueOf(QuantityOf(r.limits, MEMORY_KEY));
    if daemonSet && inForce > 0 {
      var bytes := RecommendedLimitBytes(c);
      assert MaxInt(inForce, MaxInt(bytes, 16 * MB)) == MaxInt(inForce, bytes);
      if inForce <= bytes { PrintedMBMonotone(inForce, bytes); } else { PrintedMBMonotone(bytes, inForce); }
    }
  }

  /** Bytes are rounded up, so an unset quantity has none and any other has at least one. */
  lemma BytesRoundUp(milli: int)
    ensures ValueOf(milli) * 1000 - 1000 < milli <= ValueOf(milli) * 1000
    ensures milli > 0 <==> ValueOf(milli) > 0
  {
  }

  /** The CPU request a plan writes: the larger of usage and prediction, in whole millicores, from one to twenty
      thousand; only where one is set, and never for a DaemonSet. */
  lemma CpuPlanIs(r: Resources, c: ContainerStats, daemonSet: bool, disableMemory: bool)
    requires Dereferenceable(c)
    ensures var v := PlanFor(r, Some(c), daemonSet, disableMemory).cpuRequest;
            var peak := Max(c.predictedCPU.value, c.cpuP75.value);
      && (v.Some? <==> !daemonSet && QuantityOf(r.requests, CPU_KEY) > 0)
      && (v.Some? && peak >= 20.0 ==> v.value == 20000)
      && (v.Some? && peak * 1000.0 < 2.0 ==> v.value == 1)
      && (v.Some? && 1.0 <= peak * 1000.0 && peak < 20.0 ==> v.value as real <= peak * 1000.0 < v.value as real + 1.0)
  {
  }

  /** Without statistics nothing is written. */
  lemma NothingIsPlanned(r: Resources, stat: Option<ContainerStats>, daemonSet: bool, disableMemory: bool)
    requires stat.None? || !Dereferenceable(stat.value)
    ensures PlanFor(r, stat, daemonSet, disableMemory) == Plan(None, None, None)
  {
  }

  /** The printed limit covers the printed request: twice the request, at least 512 MB. */
  lemma PlannedPairIsOrdered(r: Resources, stat: Option<ContainerStats>, daemonSet: bool, disableMemory: bool)
    ensures var plan := PlanFor(r, stat, daemonSet, disableMemory);
            (plan.memoryRequest.Some? ==>
               (plan.memoryLimit.Some? && !daemonSet && plan.memoryRequest.value <= plan.memoryLimit.value)) &&
            (plan.memoryLimit.Some? && plan.memoryRequest.None? ==> daemonSet)
  {
    if stat.Some? && Dereferenceable(stat.value) {
      var c := stat.value;
      var bytes := Trunc(RecommendedMemory(c) * 1000000.0);
      assert bytes <= RecommendedLimitBytes(c);
      PrintedMBMonotone(bytes, RecommendedLimitBytes(c));
    }
  }

  lemma ValidityNeedsLimit(r: Resources, stat: Option<ContainerStats>, daemonSet: bool, disableMemory: bool)
    requires Valid(r)
    ensures var plan := PlanFor(r, stat, daemonSet, disableMemory);
            Valid(Adjusted(r, plan)) <==> KeepsRequestUnderNewLimit(r, plan)
  {
    var plan := PlanFor(r, stat, daemonSet, disableMemory);
    PlannedPairIsOrdered(r, stat, daemonSet, disableMemory);
    var a := Adjusted(r, plan);
    assert CPU_KEY != MEMORY_KEY;
    if plan.memoryLimit.Some? && plan.memoryRequest.None? && r.requests.Some? && MEMORY_KEY in r.requests.value {
      assert a.requests.value[MEMORY_KEY] == r.requests.value[MEMORY_KEY] &&
             a.limits.value[MEMORY_KEY] == plan.memoryLimit.value;
    }
  }

  /** The bytes of a quantity, rounded up to whole megabytes. */
  function UpToMB(milli: int): int { (milli + (MB * 1000 - 1)) / (MB * 1000) * MB }

  /** A quantity stays under a printed limit exactly when it does so rounded up to whole megabytes. */
  lemma PrintedMBCovers(milli: int, bytes: int)
    requires bytes >= 0
    ensures milli <= PrintedMB(bytes) <==> UpToMB(milli) <= bytes
  {
    var up, down := (milli + (MB * 1000 - 1)) / (MB * 1000), bytes / MB;
    assert milli <= down * (MB * 1000) <==> up <= down;
    assert up * MB <= bytes <==> up <= down;
  }

  /** The memory of a container is adjusted: enabled, requested, and off by more than 16 MB. */
  predicate ChangesMemory(r: Resources, c: ContainerStats, disableMemory: bool)
    requires Dereferenceable(c)
  {
    var current, bytes := ValueOf(QuantityOf(r.requests, MEMORY_KEY)), Trunc(RecommendedMemory(c) * 1000000.0);
    !disableMemory && current > 0 && (bytes - current > 16 * MB || current - bytes > 16 * MB)
  }

  /** The memory request, rounded up to whole megabytes, fits the larger of the current limit and the recommended. */
  predicate RequestFitsNewLimit(r: Resources, c: ContainerStats)
    requires Dereferenceable(c)
  {
    UpToMB(QuantityOf(r.requests, MEMORY_KEY)) <=
      MaxInt(ValueOf(QuantityOf(r.limits, MEMORY_KEY)), RecommendedLimitBytes(c))
  }

  /** The inputs for which a container stays valid: anything but a DaemonSet container with statistics and a current
      limit whose memory is adjusted, unless its request fits. */
  predicate StaysValid(r: Resources, stat: Option<ContainerStats>, daemonSet: bool, disableMemory: bool) {
    (daemonSet && stat.Some? && Dereferenceable(stat.value) && ValueOf(QuantityOf(r.limits, MEMORY_KEY)) > 0 &&
     ChangesMemory(r, stat.value, disableMemory)) ==>
      RequestFitsNewLimit(r, stat.value)
  }

  /** A valid container stays valid exactly for these inputs. */
  lemma ValidityIsPreservedIff(r: Resources, stat: Option<ContainerStats>, daemonSet: bool, disableMemory: bool)
    requires Valid(r)
    ensures Valid(Adjusted(r, PlanFor(r, stat, daemonSet, disableMemory))) <==>
              StaysValid(r, stat, daemonSet, disableMemory)
  {
    ValidityNeedsLimit(r, stat, daemonSet, disableMemory);
    PlannedPairIsOrdered(r, stat, daemonSet, disableMemory);
    if daemonSet && stat.Some? && Dereferenceable(stat.value) {
      var limit := MaxInt(ValueOf(QuantityOf(r.limits, MEMORY_KEY)),
        MaxInt(RecommendedLimitBytes(stat.value), 16 * MB));
      PrintedMBCovers(QuantityOf(r.requests, MEMORY_KEY), limit);
    }
  }

  /** It always does when the current memory limit is a whole number of megabytes. */
  lemma WholeMegabyteLimitsAreSafe(r: Resources, stat: Option<ContainerStats>, daemonSet: bool, disableMemory: bool,
                                   megabytes: nat)
    requires Valid(r) && r.limits.Some? && MEMORY_KEY in r.limits.value &&
             r.limits.value[MEMORY_KEY] == megabytes * MB * 1000
    ensures Valid(Adjusted(r, PlanFor(r, stat, daemonSet, disableMemory)))
  {
    ValidityIsPreservedIff(r, stat, daemonSet, disableMemory);
    assert ValueOf(r.limits.value[MEMORY_KEY]) == megabytes * MB;
    assert PrintedMB(megabytes * MB) == megabytes * MB * 1000;
    PrintedMBCovers(QuantityOf(r.requests, MEMORY_KEY), megabytes * MB);
  }

  /** Otherwise the printer can cut the limit below the request: 600.5 MB becomes 600 MB. */
  lemma PrinterCanBreakDaemonSets()
    ensures var r := Resources(Some(map[MEMORY_KEY := 600500000000]), Some(map[MEMORY_KEY := 600500000000]), map[]);
            var c := ContainerStats("agent", AppContainer, Some(0.1), None, Some(MemoryStats(100.0, 0.0)), None,
                                    Some(0.1), Some(100.0));
            Valid(r) && !Valid(Adjusted(r, PlanFor(r, Some(c), true, false)))
  {
    var r := Resources(Some(map[MEMORY_KEY := 600500000000]), Some(map[MEMORY_KEY := 600500000000]), map[]);
    var c := ContainerStats("agent", AppContainer, Some(0.1), None, Some(MemoryStats(100.0, 0.0)), None, Some(0.1),
                            Some(100.0));
    assert RecommendedMemory(c) == 100.0 && RecommendedLimitBytes(c) == 512 * MB;
    assert ValueOf(600500000000) == 600500000;
    ValidityNeedsLimit(r, Some(c), true, false);
  }

  // ---------------------------------------------------------------- the steps below "resources"

  function EncodeQuantities(q: Quantities): Json { Object(map k | k in q :: Quantity(q[k])) }

  const REQUESTS := "requests"
  const LIMITS := "limits"

  function EncodeResources(r: Resources): Json {
    var base := r.others - {REQUESTS, LIMITS};
    var withRequests := if r.requests.Some? then base[REQUESTS := EncodeQuantities(r.requests.value)] else base;
    Object(if r.limits.Some? then withRequests[LIMITS := EncodeQuantities(r.limits.value)] else withRequests)
  }

  lemma EncodeUpdate(q: Quantities, k: string, v: int)
    ensures EncodeQuantities(q[k := v]) == Object(EncodeQuantities(q).fields[k := Quantity(v)])
    ensures EncodeQuantities(q - {k}) == Object(EncodeQuantities(q).fields - {k})
  {
  }

  lemma RequestsField(r: Resources, q: Quantities)
    ensures EncodeResources(r.(requests := Some(q))) ==
              Object(EncodeResources(r).fields[REQUESTS := EncodeQuantities(q)])
    ensures REQUESTS in EncodeResources(r).fields <==> r.requests.Some?
    ensures r.requests.Some? ==> EncodeResources(r).fields[REQUESTS] == EncodeQuantities(r.requests.value)
  {
    assert |REQUESTS| == 8 && |LIMITS| == 6;
  }

  lemma LimitsField(r: Resources, q: Quantities)
    ensures EncodeResources(r.(limits := Some(q))) == Object(EncodeResources(r).fields[LIMITS := EncodeQuantities(q)])
    ensures LIMITS in EncodeResources(r).fields <==> r.limits.Some?
    ensures r.limits.Some? ==> EncodeResources(r).fields[LIMITS] == EncodeQuantities(r.limits.value)
  {
    assert |REQUESTS| == 8 && |LIMITS| == 6;
  }
}
