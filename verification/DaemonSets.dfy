/** DaemonSet containers over many runs: from the records of the strategy to the patches that are sent. */
module DaemonSets {
  import opened Prelude
  import opened Workloads
  import opened Eviction
  import opened Allocator
  import opened Recommendations
  import opened Resize

  /** One run as a surviving DaemonSet container sees it: the survivors of its node, its pod, its statistics and its
      live quantities; or a run that does not reach it. */
  datatype Run = Untouched
               | Sized(survivors: seq<PodInfo>, pod: PodInfo, container: ContainerStats, live: Live,
                       allocatableCPU: real, supportsReduction: bool)

  /** The run saw the request that was in force before it. */
  predicate Sees(r: Resource, run: Run, before: real) {
    run.Sized? ==>
      AllReady(run.survivors) && run.pod in run.survivors && IsDaemonSet(run.pod) &&
      run.container in run.pod.stats.value.containerStats && run.container.containerType != InitContainer &&
      (var current := FindResource(run.pod.containers, run.container.containerName);
       current.Some? && CurrentRequest(r, current.value) == before)
  }

  /** The record the strategy makes for the container. */
  function RecordOfRun(r: Resource, run: Run, before: real): Recommendation
    requires run.Sized? && Sees(r, run, before)
  {
    RecordOf(Slots(run.survivors), MetricOf(run.pod, run.container))
  }

  /** The request in force after the run: that of the patch, if one is sent. */
  function RequestAfterRun(r: Resource, run: Run, before: real): real
    requires Sees(r, run, before)
  {
    if run.Untouched? then before
    else
      var rec := RecordOfRun(r, run, before);
      var patch := match r case CPU => CpuPatch(run.live, rec, run.allocatableCPU)
                           case Memory => MemoryPatch(run.live, rec, run.supportsReduction);
      if patch.None? then before else patch.value.request
  }

  lemma {:induction false} MetricIsCounted(p: PodInfo, cs: seq<ContainerStats>, c: ContainerStats)
    requires AllDereferenceable(cs) && c in cs && Counts(p, c, true)
    ensures MetricOf(p, c) in Metrics(p, cs, true)
  {
    if c != cs[|cs| - 1] { MetricIsCounted(p, cs[..|cs| - 1], c); }
  }

  lemma {:induction false} MetricIsASlot(pods: seq<PodInfo>, p: PodInfo, c: ContainerStats)
    requires AllReady(pods) && p in pods && c in p.stats.value.containerStats && Counts(p, c, true)
    ensures MetricOf(p, c) in Slots(pods)
  {
    assert pods[|pods| - 1] in pods;
    if p == pods[|pods| - 1] {
      MetricIsCounted(p, p.stats.value.containerStats, c);
    } else {
      MetricIsASlot(pods[..|pods| - 1], p, c);
    }
  }

  lemma {:induction false} SlotHasRecord(all: seq<ContainerMetric>, ms: seq<ContainerMetric>, m: ContainerMetric)
    requires m in ms
    ensures RecordOf(all, m) in SurvivorRecords(all, ms)
  {
    if m != ms[|ms| - 1] { SlotHasRecord(all, ms[..|ms| - 1], m); }
  }

  /** The strategy does make this record, and the request that follows is capped at the one before. */
  lemma RunIsCapped(r: Resource, run: Run, before: real) returns (base: Option<real>)
    requires Sees(r, run, before)
    ensures run.Sized? ==>
              RecordOfRun(r, run, before) in SurvivorRecords(Slots(run.survivors), Slots(run.survivors)) &&
              Recommended(r)(RecordOfRun(r, run, before)) <= before
    ensures RequestAfterRun(r, run, before) == CappedStep(r, before, base)
  {
    base := None;
    if run.Sized? {
      var slots := Slots(run.survivors);
      MetricIsASlot(run.survivors, run.pod, run.container);
      SlotHasRecord(slots, slots, MetricOf(run.pod, run.container));
      DaemonSetIsCapped(r, run.pod, run.container, slots);
      if RequestAfterRun(r, run, before) != before { base := Some(RecommendedAndRest(r, run.container).0); }
    }
  }

  /** The request after several runs, if each run saw what the runs before it left. */
  function RequestAfterRuns(r: Resource, initial: real, runs: seq<Run>): Option<real> {
    if runs == [] then Some(initial)
    else
      var before, last := RequestAfterRuns(r, initial, runs[..|runs| - 1]), runs[|runs| - 1];
      if before.Some? && Sees(r, last, before.value) then Some(RequestAfterRun(r, last, before.value)) else None
  }

  lemma {:induction false} RunsAreCapped(r: Resource, initial: real, runs: seq<Run>) returns (bases: seq<Option<real>>)
    requires RequestAfterRuns(r, initial, runs).Some?
    ensures RequestAfterRuns(r, initial, runs).value == RequestAfter(r, initial, bases)
  {
    if runs == [] {
      bases := [];
    } else {
      var n := |runs| - 1;
      var init := RunsAreCapped(r, initial, runs[..n]);
      var base := RunIsCapped(r, runs[n], RequestAfterRuns(r, initial, runs[..n]).value);
      bases := init + [base];
      assert bases[..|bases| - 1] == init;
    }
  }

  /** Over any number of runs, whatever they saw and recommended: the CPU request of a surviving DaemonSet container
      never exceeds its initial whole millicores, or the floor. */
  lemma DaemonSetCpuNeverGrows(millicores: int, runs: seq<Run>)
    ensures var request := RequestAfterRuns(CPU, millicores as real / 1000.0, runs);
            request.Some? ==> request.value <= Max(MINIMUM_CPU, millicores as real / 1000.0)
  {
    if RequestAfterRuns(CPU, millicores as real / 1000.0, runs).Some? {
      var bases := RunsAreCapped(CPU, millicores as real / 1000.0, runs);
      CappedCpuNeverGrows(millicores, bases);
    }
  }

  /** Its memory request stays as it is, or within the initial one rounded to whole megabytes, or the floor. */
  lemma DaemonSetMemoryNeverGrows(initial: real, runs: seq<Run>)
    ensures var request := RequestAfterRuns(Memory, initial, runs);
            request.Some? ==> request.value == initial || request.value <= Max(MINIMUM_MEMORY, Round(initial) as real)
  {
    if RequestAfterRuns(Memory, initial, runs).Some? {
      var bases := RunsAreCapped(Memory, initial, runs);
      CappedMemoryNeverGrows(initial, bases);
    }
  }
}
