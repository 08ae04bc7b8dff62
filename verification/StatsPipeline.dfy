/** Statistics: merging raw results, building container statistics, and the completeness gate. */
module StatsPipeline {
  import opened Prelude
  import opened Workloads
  import opened ApplyGates
  import ApplyTask

  // ---------------------------------------------------------------- merging raw results

  datatype MetricType = CpuP75 | MemoryP75 | OomMemory | Memory7DayMax | MedianReplicas | Unknown

  datatype Metrics = Metrics(
    cpuP75: real, memoryP75: real, oomMemory: real, memory7DayMax: real, psiCpuP75: Option<real>,
    medianReplicas: real, hasCPU: bool, hasMemory: bool)

  const NO_METRICS := Metrics(0.0, 0.0, 0.0, 0.0, None, 0.0, false, false)

  datatype Sample = Sample(metric: MetricType, psiAdjusted: bool, value: real)

  function Merged(m: Metrics, s: Sample): Metrics {
    if s.psiAdjusted then
      var current := if m.psiCpuP75.Some? then m.psiCpuP75.value else 0.0;
      m.(psiCpuP75 := Some(if s.metric.CpuP75? then Max(current, s.value) else current))
    else match s.metric
      case CpuP75 => m.(cpuP75 := Max(m.cpuP75, s.value), hasCPU := true)
      case MemoryP75 => m.(memoryP75 := Max(m.memoryP75, s.value), hasMemory := true)
      case OomMemory => m.(oomMemory := Max(m.oomMemory, s.value), hasMemory := true)
      case Memory7DayMax => m.(memory7DayMax := Max(m.memory7DayMax, s.value))
      case MedianReplicas => m.(medianReplicas := s.value)
      case Unknown => m
  }

  function MergedAll(samples: seq<Sample>): Metrics {
    if samples == [] then NO_METRICS else Merged(MergedAll(samples[..|samples| - 1]), samples[|samples| - 1])
  }

  predicate NonNegative(m: Metrics) {
    m.cpuP75 >= 0.0 && m.memoryP75 >= 0.0 && m.oomMemory >= 0.0 && m.memory7DayMax >= 0.0 &&
    (m.psiCpuP75.Some? ==> m.psiCpuP75.value >= 0.0)
  }

  predicate HasSample(samples: seq<Sample>, metric: MetricType) {
    exists i :: 0 <= i < |samples| && samples[i].metric == metric && !samples[i].psiAdjusted
  }

  predicate CoversSamples(m: Metrics, samples: seq<Sample>) {
    forall i :: 0 <= i < |samples| && !samples[i].psiAdjusted ==>
      (samples[i].metric.CpuP75? ==> samples[i].value <= m.cpuP75) &&
      (samples[i].metric.MemoryP75? ==> samples[i].value <= m.memoryP75) &&
      (samples[i].metric.OomMemory? ==> samples[i].value <= m.oomMemory)
  }

  predicate Plain(s: Sample, metric: MetricType) { s.metric == metric && !s.psiAdjusted }

  lemma HasSamplePush(init: seq<Sample>, last: Sample, metric: MetricType)
    ensures HasSample(init + [last], metric) <==> HasSample(init, metric) || Plain(last, metric)
  {
    var all := init + [last];
    if HasSample(init, metric) {
      var i :| 0 <= i < |init| && init[i].metric == metric && !init[i].psiAdjusted;
      assert all[i] == init[i];
    }
    if Plain(last, metric) { assert all[|init|] == last; }
  }

  lemma MergedFlags(m: Metrics, s: Sample)
    ensures NonNegative(m) ==> NonNegative(Merged(m, s))
    ensures Merged(m, s).hasCPU <==> m.hasCPU || Plain(s, CpuP75)
    ensures Merged(m, s).hasMemory <==> m.hasMemory || Plain(s, MemoryP75) || Plain(s, OomMemory)
  {
  }

  lemma MergedCovers(m: Metrics, init: seq<Sample>, s: Sample)
    requires CoversSamples(m, init)
    ensures CoversSamples(Merged(m, s), init + [s])
  {
    var all := init + [s];
    forall i | 0 <= i < |all| && !all[i].psiAdjusted
      ensures all[i].metric.CpuP75? ==> all[i].value <= Merged(m, s).cpuP75
      ensures all[i].metric.MemoryP75? ==> all[i].value <= Merged(m, s).memoryP75
      ensures all[i].metric.OomMemory? ==> all[i].value <= Merged(m, s).oomMemory
    {
      if i < |init| { assert all[i] == init[i]; }
    }
  }

  /** Whatever arrives, in whatever order: usage is the non-negative maximum, and the data flags tell
      exactly whether a plain CPU or memory sample was seen. */
  lemma {:induction false} MergingKeepsMaxima(samples: seq<Sample>)
    ensures NonNegative(MergedAll(samples)) && CoversSamples(MergedAll(samples), samples)
    ensures MergedAll(samples).hasCPU <==> HasSample(samples, CpuP75)
    ensures MergedAll(samples).hasMemory <==> HasSample(samples, MemoryP75) || HasSample(samples, OomMemory)
  {
    if samples != [] {
      var init, last := samples[..|samples| - 1], samples[|samples| - 1];
      MergingKeepsMaxima(init);
      assert samples == init + [last];
      HasSamplePush(init, last, CpuP75);
      HasSamplePush(init, last, MemoryP75);
      HasSamplePush(init, last, OomMemory);
      MergedFlags(MergedAll(init), last);
      MergedCovers(MergedAll(init), init, last);
    }
  }

  predicate Matches(s: Sample, metric: MetricType, psiAdjusted: bool) {
    s.metric == metric && s.psiAdjusted == psiAdjusted
  }

  /** The largest value of these samples, at least zero. */
  predicate IsLargest(samples: seq<Sample>, metric: MetricType, psiAdjusted: bool, v: real) {
    v >= 0.0 &&
    (forall i :: 0 <= i < |samples| && Matches(samples[i], metric, psiAdjusted) ==> samples[i].value <= v) &&
    (v == 0.0 || exists i :: 0 <= i < |samples| && Matches(samples[i], metric, psiAdjusted) && samples[i].value == v)
  }

  predicate HasAdjusted(samples: seq<Sample>) { exists i :: 0 <= i < |samples| && samples[i].psiAdjusted }

  lemma LargestPush(init: seq<Sample>, s: Sample, metric: MetricType, psiAdjusted: bool, v: real)
    requires IsLargest(init, metric, psiAdjusted, v)
    ensures IsLargest(init + [s], metric, psiAdjusted, if Matches(s, metric, psiAdjusted) then Max(v, s.value) else v)
  {
    var all := init + [s];
    assert all[|init|] == s && forall i :: 0 <= i < |init| ==> all[i] == init[i];
    if i :| 0 <= i < |init| && Matches(init[i], metric, psiAdjusted) && init[i].value == v {
      assert all[i] == init[i];
    }
  }

  lemma NoAdjustedIsZero(samples: seq<Sample>)
    requires !HasAdjusted(samples)
    ensures IsLargest(samples, CpuP75, true, 0.0)
  {
  }

  /** Usage adjusted for pressure is kept apart: known as soon as any adjusted sample was seen, and then the largest of
      the CPU samples among them. */
  lemma {:induction false} AdjustedIsKeptApart(samples: seq<Sample>)
    ensures var psi := MergedAll(samples).psiCpuP75;
            (psi.Some? <==> HasAdjusted(samples)) && (psi.Some? ==> IsLargest(samples, CpuP75, true, psi.value))
  {
    if samples != [] {
      var init, last := samples[..|samples| - 1], samples[|samples| - 1];
      AdjustedIsKeptApart(init);
      assert samples == init + [last];
      assert forall i :: 0 <= i < |init| ==> samples[i] == init[i];
      var psi := MergedAll(init).psiCpuP75;
      if psi.None? { NoAdjustedIsZero(init); }
      LargestPush(init, last, CpuP75, true, if psi.Some? then psi.value else 0.0);
    }
  }

  /** The measure of these samples; replicas are not a maximum. */
  function Measure(metric: MetricType, m: Metrics): real {
    match metric
    case CpuP75 => m.cpuP75
    case MemoryP75 => m.memoryP75
    case OomMemory => m.oomMemory
    case Memory7DayMax => m.memory7DayMax
    case _ => 0.0
  }

  lemma {:induction false} MeasureIsLargest(samples: seq<Sample>, metric: MetricType)
    requires metric != MedianReplicas && metric != Unknown
    ensures IsLargest(samples, metric, false, Measure(metric, MergedAll(samples)))
  {
    if samples != [] {
      var init, last := samples[..|samples| - 1], samples[|samples| - 1];
      MeasureIsLargest(init, metric);
      assert samples == init + [last];
      LargestPush(init, last, metric, false, Measure(metric, MergedAll(init)));
    }
  }

  /** The plain samples: each measure is the largest of its own samples and of no others. */
  lemma MergedAreLargest(samples: seq<Sample>)
    ensures var m := MergedAll(samples);
      && IsLargest(samples, CpuP75, false, m.cpuP75)
      && IsLargest(samples, MemoryP75, false, m.memoryP75)
      && IsLargest(samples, OomMemory, false, m.oomMemory)
      && IsLargest(samples, Memory7DayMax, false, m.memory7DayMax)
  {
    MeasureIsLargest(samples, CpuP75);
    MeasureIsLargest(samples, MemoryP75);
    MeasureIsLargest(samples, OomMemory);
    MeasureIsLargest(samples, Memory7DayMax);
  }

  /** Of several replica counts the last one stands. */
  lemma {:induction false} LastReplicasStand(samples: seq<Sample>, i: nat)
    requires i < |samples| && Matches(samples[i], MedianReplicas, false)
    requires forall j :: i < j < |samples| ==> !Matches(samples[j], MedianReplicas, false)
    ensures MergedAll(samples).medianReplicas == samples[i].value
  {
    var n := |samples| - 1;
    if i < n {
      assert forall j :: 0 <= j < n ==> samples[..n][j] == samples[j];
      LastReplicasStand(samples[..n], i);
    }
  }

  /** The record that raw results are merged into, in place. */
  class MetricsRecord {
    var metrics: Metrics

    constructor ()
      ensures metrics == NO_METRICS
    {
      metrics := NO_METRICS;
    }

    method Update(s: Sample)
      modifies this
      ensures metrics == Merged(old(metrics), s)
    {
      if s.psiAdjusted {
        if metrics.psiCpuP75.None? { metrics := metrics.(psiCpuP75 := Some(0.0)); }
        if s.metric.CpuP75? && s.value > metrics.psiCpuP75.value {
          metrics := metrics.(psiCpuP75 := Some(s.value));
        }
        return;
      }
      match s.metric
      case CpuP75 =>
        if s.value > metrics.cpuP75 { metrics := metrics.(cpuP75 := s.value); }
        metrics := metrics.(hasCPU := true);
      case MemoryP75 =>
        if s.value > metrics.memoryP75 { metrics := metrics.(memoryP75 := s.value); }
        metrics := metrics.(hasMemory := true);
      case OomMemory =>
        if s.value > metrics.oomMemory { metrics := metrics.(oomMemory := s.value); }
        metrics := metrics.(hasMemory := true);
      case Memory7DayMax =>
        if s.value > metrics.memory7DayMax { metrics := metrics.(memory7DayMax := s.value); }
      case MedianReplicas =>
        metrics := metrics.(medianReplicas := s.value);
      case Unknown =>
    }
  }

  // ---------------------------------------------------------------- building container statistics

  type ByName = map<string, Metrics>

  predicate Measurable(byName: ByName, o: OriginalResources) {
    o.containerType != InitContainer && o.name in byName && byName[o.name].hasCPU && byName[o.name].hasMemory
  }

  function StatOf(byName: ByName, o: OriginalResources): ContainerStats
    requires Measurable(byName, o)
  {
    var m := byName[o.name];
    ContainerStats(o.name, o.containerType, Some(m.cpuP75), m.psiCpuP75, Some(MemoryStats(m.memoryP75, m.oomMemory)),
                   Some(m.memory7DayMax), None, None)
  }

  /** `stats` holds the measurable containers of `os`, in order. */
  function Measurables(byName: ByName, os: seq<OriginalResources>): seq<ContainerStats> {
    if os == [] then [] else
      Measurables(byName, os[..|os| - 1]) +
      if Measurable(byName, os[|os| - 1]) then [StatOf(byName, os[|os| - 1])] else []
  }

  /** The statistics of one container: its own metrics, with CPU and memory data, and no predictions yet. */
  predicate IsMeasured(byName: ByName, o: OriginalResources, c: ContainerStats) {
    o.containerType != InitContainer && o.name in byName && byName[o.name].hasCPU && byName[o.name].hasMemory &&
    c.containerName == o.name && c.containerType == o.containerType &&
    c.cpuP75 == Some(byName[o.name].cpuP75) && c.psiAdjustedP75 == byName[o.name].psiCpuP75 &&
    c.memory == Some(MemoryStats(byName[o.name].memoryP75, byName[o.name].oomMemory)) &&
    c.memory7DayMax == Some(byName[o.name].memory7DayMax) && c.predictedCPU == None && c.predictedMemory == None
  }

  lemma {:induction false} MeasurablesAre(byName: ByName, os: seq<OriginalResources>, c: ContainerStats)
    ensures c in Measurables(byName, os) <==> exists o :: o in os && IsMeasured(byName, o, c)
  {
    if os != [] {
      var init, last := os[..|os| - 1], os[|os| - 1];
      MeasurablesAre(byName, init, c);
      assert os == init + [last];
      assert last in os;
    }
  }

  /** The order of the containers is kept. */
  lemma {:induction false} MeasurablesInOrder(byName: ByName, a: seq<OriginalResources>, b: seq<OriginalResources>)
    ensures Measurables(byName, a + b) == Measurables(byName, a) + Measurables(byName, b)
  {
    if b == [] {
      assert a + b == a;
    } else {
      assert (a + b)[..|a + b| - 1] == a + b[..|b| - 1];
      MeasurablesInOrder(byName, a, b[..|b| - 1]);
    }
  }

  /** Nothing is returned when no container can be measured. */
  method BuildContainerStatFromCache(byName: ByName, os: seq<OriginalResources>)
    returns (stats: Option<seq<ContainerStats>>)
    ensures stats == if Measurables(byName, os) == [] then None else Some(Measurables(byName, os))
  {
    var collected: seq<ContainerStats> := [];
    for i := 0 to |os|
      invariant collected == Measurables(byName, os[..i])
    {
      assert os[..i + 1][..i] == os[..i];
      if os[i].containerType == InitContainer { continue; }
      if os[i].name !in byName { continue; }
      if !byName[os[i].name].hasCPU || !byName[os[i].name].hasMemory { continue; }
      collected := collected + [StatOf(byName, os[i])];
    }
    assert os[..|os|] == os;
    stats := if |collected| == 0 then None else Some(collected);
  }

  /** The placeholders of a workload without usable metrics. */
  function Placeholders(os: seq<OriginalResources>): seq<ContainerStats> {
    seq(|os|, i requires 0 <= i < |os| =>
      ContainerStats(os[i].name, os[i].containerType, None, None, None, None, None, None))
  }

  // ---------------------------------------------------------------- predictions and the gate

  /** Predicted maxima by container name. */
  type Predictions = map<string, real>

  function Lookup(p: Predictions, name: string): Option<real> { if name in p then Some(p[name]) else None }

  function Predicted(c: ContainerStats, cpu: Predictions, memory: Predictions): ContainerStats {
    c.(predictedCPU := Lookup(cpu, c.containerName), predictedMemory := Lookup(memory, c.containerName))
  }

  function AllPredicted(cs: seq<ContainerStats>, cpu: Predictions, memory: Predictions): (r: seq<ContainerStats>)
    ensures |r| == |cs| && forall i :: 0 <= i < |cs| ==> r[i] == Predicted(cs[i], cpu, memory)
  {
    seq(|cs|, i requires 0 <= i < |cs| => Predicted(cs[i], cpu, memory))
  }

  /** The index by name keeps the last record of each name. */
  function IndexByName(cs: seq<ContainerStats>): (m: map<string, ContainerStats>)
    ensures forall n :: n in m ==> m[n] in cs && m[n].containerName == n
    ensures forall c :: c in cs ==> c.containerName in m
  {
    if cs == [] then map[]
    else
      var m := IndexByName(cs[..|cs| - 1]);
      m[cs[|cs| - 1].containerName := cs[|cs| - 1]]
  }

  method HasCompleteSimplePredictions(cs: seq<ContainerStats>, os: seq<OriginalResources>) returns (complete: bool)
    ensures complete <==> forall o :: o in os && o.containerType != InitContainer ==>
              (o.name in IndexByName(cs) && IndexByName(cs)[o.name].predictedCPU.Some? &&
               IndexByName(cs)[o.name].predictedMemory.Some?)
  {
    var byName := IndexByName(cs);
    for i := 0 to |os|
      invariant forall k :: 0 <= k < i && os[k].containerType != InitContainer ==>
                  os[k].name in byName && byName[os[k].name].predictedCPU.Some? &&
                  byName[os[k].name].predictedMemory.Some?
    {
      if os[i].containerType == InitContainer { continue; }
      if os[i].name !in byName { assert os[i] in os; return false; }
      if byName[os[i].name].predictedCPU.None? || byName[os[i].name].predictedMemory.None? {
        assert os[i] in os;
        return false;
      }
    }
    return true;
  }

  // ---------------------------------------------------------------- one workload

  /** What is known about a workload when its statistics are prepared; `metrics` is absent when no metrics
      exist for the namespace or the workload. */
  datatype Workload = Workload(
    identifier: string, creationTime: int, autoscaledOnCPU: bool, autoscaledOnMemory: bool,
    constraints: Option<Constraints>, evictionRanking: int, originals: seq<OriginalResources>,
    metrics: Option<ByName>, cpu: Predictions, memory: Predictions)

  /** The containers that must be covered. */
  predicate Covered(w: Workload, o: OriginalResources) {
    w.metrics.Some? && Measurable(w.metrics.value, o) && o.name in w.cpu && o.name in w.memory
  }

  /** Every non-init container is covered, and there is one. */
  predicate FullyCovered(w: Workload) {
    w.metrics.Some? && (exists o :: o in w.originals && o.containerType != InitContainer) &&
    forall o :: o in w.originals && o.containerType != InitContainer ==> Covered(w, o)
  }

  /** prepareStatsFromMetrics. The statistics are complete, in every container the allocator reads,
      unless they are marked incomplete; and they are marked exactly when some container is not covered. */
  method PrepareStats(w: Workload) returns (stat: WorkloadStat)
    ensures !stat.incomplete ==> ApplyTask.CompleteStats(stat)
    ensures !stat.incomplete <==> FullyCovered(w)
    ensures !stat.incomplete <==>
            (exists o :: o in w.originals && o.containerType != InitContainer) &&
            forall o :: o in w.originals && o.containerType != InitContainer ==>
              w.metrics.Some? && o.name in w.metrics.value && w.metrics.value[o.name].hasCPU &&
              w.metrics.value[o.name].hasMemory && o.name in w.cpu && o.name in w.memory
    ensures !stat.incomplete ==>
              stat.containerStats == AllPredicted(Measurables(w.metrics.value, w.originals), w.cpu, w.memory)
    ensures stat.incomplete ==> stat.containerStats == Placeholders(w.originals)
    ensures stat.incomplete ==> forall c :: c in stat.containerStats ==>
              c.cpuP75.None? && c.memory.None? && c.predictedCPU.None? && c.predictedMemory.None?
    ensures NonNegativeMetrics(w) ==> forall c :: c in stat.containerStats ==> NonNegativeUsage(c)
    ensures stat.identifier == w.identifier && stat.constraints == w.constraints && stat.originals == w.originals
    ensures stat.creationTime == w.creationTime && stat.evictionRanking == w.evictionRanking
    ensures stat.autoscaledOnCPU == w.autoscaledOnCPU && stat.autoscaledOnMemory == w.autoscaledOnMemory
  {
    var containerStats, incomplete := Placeholders(w.originals), false;
    if w.metrics.None? {
      incomplete := true;
    } else {
      var built := BuildContainerStatFromCache(w.metrics.value, w.originals);
      if built.None? {
        incomplete := true;
      } else {
        containerStats := built.value;
      }
    }
    containerStats := AllPredicted(containerStats, w.cpu, w.memory);
    if !incomplete {
      var complete := HasCompleteSimplePredictions(containerStats, w.originals);
      GateIsExact(w);
      if NonNegativeMetrics(w) { CollectedNonNegative(w); }
      incomplete := !complete;
    } else if w.metrics.Some? {
      NothingMeasurable(w);
    }
    if incomplete {
      containerStats := Placeholders(w.originals);
    }
    stat := WorkloadStat(w.identifier, w.creationTime, w.autoscaledOnCPU, w.autoscaledOnMemory, w.constraints,
                         w.evictionRanking, incomplete, containerStats, w.originals);
  }

  lemma {:induction false} MeasurablesShape(byName: ByName, os: seq<OriginalResources>)
    ensures forall c :: c in Measurables(byName, os) ==>
              c.containerType != InitContainer && c.cpuP75.Some? && c.memory.Some?
    ensures forall n :: HasStatFor(Measurables(byName, os), n) <==> HasMeasurable(byName, os, n)
  {
    if os != [] {
      var init, last := os[..|os| - 1], os[|os| - 1];
      MeasurablesShape(byName, init);
      assert os == init + [last];
      forall n ensures HasStatFor(Measurables(byName, os), n) <==> HasMeasurable(byName, os, n) {
        assert HasStatFor(Measurables(byName, init), n) <==> HasMeasurable(byName, init, n);
        MeasurablePush(byName, init, last, n);
      }
    }
  }

  predicate HasStatFor(cs: seq<ContainerStats>, n: string) { exists c :: c in cs && c.containerName == n }

  predicate HasMeasurable(byName: ByName, os: seq<OriginalResources>, n: string) {
    exists o :: o in os && o.name == n && Measurable(byName, o)
  }

  lemma MeasurablePush(byName: ByName, init: seq<OriginalResources>, last: OriginalResources, n: string)
    ensures HasMeasurable(byName, init + [last], n) <==>
              HasMeasurable(byName, init, n) || (last.name == n && Measurable(byName, last))
    ensures Measurable(byName, last) ==>
              (HasStatFor(Measurables(byName, init) + [StatOf(byName, last)], n) <==>
               HasStatFor(Measurables(byName, init), n) || last.name == n)
  {
    assert last in init + [last];
    if Measurable(byName, last) {
      var s := StatOf(byName, last);
      assert s in Measurables(byName, init) + [s];
      if HasStatFor(Measurables(byName, init), n) {
        var c :| c in Measurables(byName, init) && c.containerName == n;
        assert c in Measurables(byName, init) + [s];
      }
    }
    if HasMeasurable(byName, init, n) {
      var o :| o in init && o.name == n && Measurable(byName, o);
      assert o in init + [last];
    }
  }

  lemma NothingMeasurable(w: Workload)
    requires w.metrics.Some? && Measurables(w.metrics.value, w.originals) == []
    ensures !FullyCovered(w)
  {
    MeasurablesShape(w.metrics.value, w.originals);
    forall o | o in w.originals ensures !Measurable(w.metrics.value, o) {
      assert !HasStatFor(Measurables(w.metrics.value, w.originals), o.name);
      assert !HasMeasurable(w.metrics.value, w.originals, o.name);
    }
  }

  predicate NonNegativeMetrics(w: Workload) {
    w.metrics.Some? ==> forall n :: n in w.metrics.value ==> NonNegative(w.metrics.value[n])
  }

  lemma {:induction false} MeasurablesNonNegative(byName: ByName, os: seq<OriginalResources>)
    requires forall n :: n in byName ==> NonNegative(byName[n])
    ensures forall c :: c in Measurables(byName, os) ==> NonNegativeUsage(c)
  {
    if os != [] { MeasurablesNonNegative(byName, os[..|os| - 1]); }
  }

  lemma CollectedNonNegative(w: Workload)
    requires w.metrics.Some? && NonNegativeMetrics(w)
    ensures forall c :: c in Collected(w) ==> NonNegativeUsage(c)
  {
    var ms := Measurables(w.metrics.value, w.originals);
    MeasurablesNonNegative(w.metrics.value, w.originals);
    forall c | c in Collected(w) ensures NonNegativeUsage(c) {
      var i :| 0 <= i < |Collected(w)| && Collected(w)[i] == c;
      assert ms[i] in ms;
    }
  }

  function Collected(w: Workload): seq<ContainerStats>
    requires w.metrics.Some?
  {
    AllPredicted(Measurables(w.metrics.value, w.originals), w.cpu, w.memory)
  }

  /** What the statistics of a covered workload hold: for each container its own metrics and its own predictions. */
  lemma CollectedAre(w: Workload, c: ContainerStats)
    requires w.metrics.Some? && c in Collected(w)
    ensures c.predictedCPU == (if c.containerName in w.cpu then Some(w.cpu[c.containerName]) else None)
    ensures c.predictedMemory == (if c.containerName in w.memory then Some(w.memory[c.containerName]) else None)
    ensures exists o :: o in w.originals &&
              IsMeasured(w.metrics.value, o, c.(predictedCPU := None, predictedMemory := None))
  {
    var ms := Measurables(w.metrics.value, w.originals);
    var i :| 0 <= i < |Collected(w)| && Collected(w)[i] == c;
    assert ms[i] in ms;
    MeasurablesAre(w.metrics.value, w.originals, ms[i]);
    var o :| o in w.originals && IsMeasured(w.metrics.value, o, ms[i]);
    assert ms[i] == c.(predictedCPU := None, predictedMemory := None);
  }

  lemma CollectedShape(w: Workload, c: ContainerStats)
    requires w.metrics.Some? && c in Collected(w)
    ensures c.containerType != InitContainer && c.cpuP75.Some? && c.memory.Some?
    ensures c.predictedCPU.Some? <==> c.containerName in w.cpu
    ensures c.predictedMemory.Some? <==> c.containerName in w.memory
    ensures HasMeasurable(w.metrics.value, w.originals, c.containerName)
  {
    var ms := Measurables(w.metrics.value, w.originals);
    MeasurablesShape(w.metrics.value, w.originals);
    var i :| 0 <= i < |Collected(w)| && Collected(w)[i] == c;
    assert ms[i] in ms;
    assert HasStatFor(ms, c.containerName);
  }

  lemma CollectedHas(w: Workload, o: OriginalResources)
    requires w.metrics.Some? && o in w.originals && Measurable(w.metrics.value, o)
    ensures o.name in IndexByName(Collected(w))
  {
    var ms := Measurables(w.metrics.value, w.originals);
    MeasurablesShape(w.metrics.value, w.originals);
    assert HasMeasurable(w.metrics.value, w.originals, o.name);
    assert HasStatFor(ms, o.name);
    var c :| c in ms && c.containerName == o.name;
    var i :| 0 <= i < |ms| && ms[i] == c;
    assert Collected(w)[i] in Collected(w);
  }

  predicate PassesGate(w: Workload, o: OriginalResources)
    requires w.metrics.Some?
  {
    var byName := IndexByName(Collected(w));
    o.name in byName && byName[o.name].predictedCPU.Some? && byName[o.name].predictedMemory.Some?
  }

  /** The gate looks at one record per name. Since predictions are looked up by name, that is enough, even
      if two containers shared a name. */
  lemma GateMeansCovered(w: Workload, o: OriginalResources)
    requires w.metrics.Some? && o in w.originals && o.containerType != InitContainer
    ensures PassesGate(w, o) <==> Covered(w, o)
  {
    var byName := IndexByName(Collected(w));
    if o.name in byName {
      CollectedShape(w, byName[o.name]);
    }
    if Measurable(w.metrics.value, o) {
      CollectedHas(w, o);
    }
  }

  lemma GateIsExact(w: Workload)
    requires w.metrics.Some? && Measurables(w.metrics.value, w.originals) != []
    ensures var complete := forall o :: o in w.originals && o.containerType != InitContainer ==> PassesGate(w, o);
            (complete <==> FullyCovered(w)) &&
            (complete ==> forall c :: c in Collected(w) ==> c.containerType != InitContainer && Dereferenceable(c))
  {
    forall o | o in w.originals && o.containerType != InitContainer ensures PassesGate(w, o) <==> Covered(w, o) {
      GateMeansCovered(w, o);
    }
    var first := Collected(w)[0];
    assert first in Collected(w);
    CollectedShape(w, first);
    if FullyCovered(w) {
      forall c | c in Collected(w) ensures c.containerType != InitContainer && Dereferenceable(c) {
        CollectedShape(w, c);
        var o :| o in w.originals && o.name == c.containerName && Measurable(w.metrics.value, o);
        assert Covered(w, o);
      }
    }
  }

  /** A pod that passes the first check of the apply task can be processed without following a nil
      pointer, provided its statistics came out of the pipeline. */
  lemma PassingPodsAreReady(p: PodInfo, input: ApplyCheckInput)
    requires p.stats.Some? && !p.stats.value.incomplete ==> ApplyTask.CompleteStats(p.stats.value)
    requires ShouldGenerateRecommendation(p, input) == Proceed
    ensures Ready(p)
  {
  }
}
