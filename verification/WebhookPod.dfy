/** Whole-pod patches of the webhook: container resources, then annotations. */
module WebhookPod {
  import opened Prelude
  import opened Decimal
  import opened JsonPointer
  import opened JsonPatch
  import opened Workloads
  import opened Webhook
  import opened WebhookPatches
  import opened Disruption

  /** A pod as submitted: the app containers come first in `containers`, the init containers follow.
      The `others` maps hold every field the webhook does not look at. */
  datatype PodObject = PodObject(
    containers: seq<Container>, apps: nat, annotations: Option<Annotations>,
    others: map<string, Json>, metadataOthers: map<string, Json>, specOthers: map<string, Json>)

  predicate WellFormed(p: PodObject) { p.apps <= |p.containers| }

  const METADATA := "metadata"
  const SPEC := "spec"
  const CONTAINERS := "containers"
  const INIT_CONTAINERS := "initContainers"
  const ANNOTATIONS := "annotations"
  const NAME := "name"

  function EncodeContainer(c: Container): Json {
    Object(c.others[NAME := Text(c.name)][RESOURCES := EncodeResources(c.resources)])
  }

  function EncodeContainers(cs: seq<Container>): (js: seq<Json>)
    ensures |js| == |cs| && forall i :: 0 <= i < |cs| ==> js[i] == EncodeContainer(cs[i])
  {
    seq(|cs|, i requires 0 <= i < |cs| => EncodeContainer(cs[i]))
  }

  /** Init containers are omitted when there are none. */
  function EncodeSpec(p: PodObject): Json
    requires WellFormed(p)
  {
    var fields := (p.specOthers - {INIT_CONTAINERS})[CONTAINERS := Array(EncodeContainers(p.containers[..p.apps]))];
    Object(if p.apps == |p.containers| then fields
           else fields[INIT_CONTAINERS := Array(EncodeContainers(p.containers[p.apps..]))])
  }

  function EncodeAnnotations(a: Annotations): Json { Object(map k | k in a :: Text(a[k])) }

  function EncodeMetadata(p: PodObject): Json {
    var fields := p.metadataOthers - {ANNOTATIONS};
    Object(if p.annotations.Some? then fields[ANNOTATIONS := EncodeAnnotations(p.annotations.value)] else fields)
  }

  function Encode(p: PodObject): Json
    requires WellFormed(p)
  {
    Object(p.others[METADATA := EncodeMetadata(p)][SPEC := EncodeSpec(p)])
  }

  lemma FieldNamesDiffer()
    ensures METADATA != SPEC && CONTAINERS != INIT_CONTAINERS && NAME != RESOURCES
  {
    assert |METADATA| == 8 && |SPEC| == 4 && |CONTAINERS| == 10 && |INIT_CONTAINERS| == 14;
    assert |NAME| == 4 && |RESOURCES| == 9;
  }

  // ---------------------------------------------------------------- patching one container

  function ListOf(p: PodObject, i: nat): string { if i < p.apps then CONTAINERS else INIT_CONTAINERS }

  function PositionOf(p: PodObject, i: nat): nat { if i < p.apps then i else i - p.apps }

  function Prefix(p: PodObject, i: nat): seq<string> { [SPEC, ListOf(p, i), Digits(PositionOf(p, i))] }

  function WithContainer(p: PodObject, i: nat, c: Container): PodObject
    requires i < |p.containers|
  {
    p.(containers := p.containers[i := c])
  }

  lemma ListStepsApply(cs: seq<Container>, j: nat, steps: seq<Step>, c: Container)
    requires j < |cs| && Proper(steps) && Steps(EncodeContainer(cs[j]), steps) == Some(EncodeContainer(c))
    ensures Steps(Array(EncodeContainers(cs)), Below(Digits(j), steps)) == Some(Array(EncodeContainers(cs[j := c])))
    ensures Proper(Below(Digits(j), steps))
  {
    IndexOfDigits(j);
    var doc := Array(EncodeContainers(cs));
    assert Child(doc, Digits(j)) == Some(EncodeContainer(cs[j]));
    StepsBelow(doc, Digits(j), steps);
    assert EncodeContainers(cs)[j := EncodeContainer(c)] == EncodeContainers(cs[j := c]);
  }

  lemma AppListField(p: PodObject, i: nat, c: Container)
    requires WellFormed(p) && i < p.apps
    ensures Child(EncodeSpec(p), CONTAINERS) == Some(Array(EncodeContainers(p.containers[..p.apps])))
    ensures EncodeSpec(WithContainer(p, i, c)) ==
            WithChild(EncodeSpec(p), CONTAINERS, Array(EncodeContainers(p.containers[..p.apps][i := c])))
  {
    FieldNamesDiffer();
    var q := WithContainer(p, i, c);
    assert q.containers[..p.apps] == p.containers[..p.apps][i := c];
    assert q.containers[p.apps..] == p.containers[p.apps..];
  }

  lemma InitListField(p: PodObject, i: nat, c: Container)
    requires WellFormed(p) && p.apps <= i < |p.containers|
    ensures Child(EncodeSpec(p), INIT_CONTAINERS) == Some(Array(EncodeContainers(p.containers[p.apps..])))
    ensures EncodeSpec(WithContainer(p, i, c)) ==
            WithChild(EncodeSpec(p), INIT_CONTAINERS, Array(EncodeContainers(p.containers[p.apps..][i - p.apps := c])))
  {
    FieldNamesDiffer();
    var q := WithContainer(p, i, c);
    assert q.containers[p.apps..] == p.containers[p.apps..][i - p.apps := c];
    assert q.containers[..p.apps] == p.containers[..p.apps];
  }

  lemma SpecField(p: PodObject, i: nat, c: Container)
    requires WellFormed(p) && i < |p.containers|
    ensures Child(Encode(p), SPEC) == Some(EncodeSpec(p))
    ensures Encode(WithContainer(p, i, c)) == WithChild(Encode(p), SPEC, EncodeSpec(WithContainer(p, i, c)))
  {
    FieldNamesDiffer();
  }

  lemma ResourcesField(c: Container, r: Resources)
    ensures Child(EncodeContainer(c), RESOURCES) == Some(EncodeResources(c.resources))
    ensures EncodeContainer(c.(resources := r)) == WithChild(EncodeContainer(c), RESOURCES, EncodeResources(r))
  {
    FieldNamesDiffer();
  }

  lemma SpecStepsApply(p: PodObject, i: nat, steps: seq<Step>, c: Container)
    requires WellFormed(p) && i < |p.containers|
    requires Proper(steps) && Steps(EncodeContainer(p.containers[i]), steps) == Some(EncodeContainer(c))
    ensures Steps(EncodeSpec(p), Below(ListOf(p, i), Below(Digits(PositionOf(p, i)), steps))) ==
            Some(EncodeSpec(WithContainer(p, i, c)))
    ensures Proper(Below(ListOf(p, i), Below(Digits(PositionOf(p, i)), steps)))
  {
    if i < p.apps {
      AppListField(p, i, c);
      ListStepsApply(p.containers[..p.apps], i, steps, c);
      StepsBelow(EncodeSpec(p), CONTAINERS, Below(Digits(i), steps));
    } else {
      InitListField(p, i, c);
      ListStepsApply(p.containers[p.apps..], i - p.apps, steps, c);
      StepsBelow(EncodeSpec(p), INIT_CONTAINERS, Below(Digits(i - p.apps), steps));
    }
  }

  lemma EmitInPod(doc: Json, list: string, digits: string, steps: seq<Step>)
    ensures ApplyAll(doc, Emit([SPEC, list, digits], steps)) ==
              Steps(doc, Below(SPEC, Below(list, Below(digits, steps))))
  {
    assert [SPEC, list, digits] == [SPEC, list] + [digits] && [SPEC, list] == [SPEC] + [list] && [SPEC] == [] + [SPEC];
    EmitBelow([SPEC, list], digits, steps);
    EmitBelow([SPEC], list, Below(digits, steps));
    EmitBelow([], SPEC, Below(list, Below(digits, steps)));
    ApplyEmitted(doc, Below(SPEC, Below(list, Below(digits, steps))));
  }

  lemma PodStepsApply(p: PodObject, i: nat, steps: seq<Step>, c: Container)
    requires WellFormed(p) && i < |p.containers|
    requires Proper(steps) && Steps(EncodeContainer(p.containers[i]), steps) == Some(EncodeContainer(c))
    ensures ApplyAll(Encode(p), Emit(Prefix(p, i), steps)) == Some(Encode(WithContainer(p, i, c)))
  {
    SpecStepsApply(p, i, steps, c);
    SpecField(p, i, c);
    StepsBelow(Encode(p), SPEC, Below(ListOf(p, i), Below(Digits(PositionOf(p, i)), steps)));
    EmitInPod(Encode(p), ListOf(p, i), Digits(PositionOf(p, i)), steps);
  }

  // ---------------------------------------------------------------- all containers

  /** The inputs of the generator besides the pod. */
  datatype Input = Input(stats: seq<ContainerStats>, daemonSet: bool, disableMemory: bool)

  function PlanOf(c: Container, input: Input): Plan {
    PlanFor(c.resources, FindStats(input.stats, c.name), input.daemonSet, input.disableMemory)
  }

  function AdjustedContainer(c: Container, input: Input): Container {
    c.(resources := Adjusted(c.resources, PlanOf(c, input)))
  }

  function ContainerSteps(c: Container, input: Input): seq<Step> {
    Below(RESOURCES, ResourceSteps(c.resources, PlanOf(c, input)))
  }

  /** The patch of one container. */
  function PartOf(p: PodObject, input: Input): nat -> seq<Op> {
    (i: nat) => if i < |p.containers| then Emit(Prefix(p, i), ContainerSteps(p.containers[i], input)) else []
  }

  /** The patch of the first `n` containers. */
  function ResourcePatch(p: PodObject, n: nat, input: Input): seq<Op> { Joined(PartOf(p, input), n) }

  function AdjustedPod(p: PodObject, n: nat, input: Input): (q: PodObject)
    requires n <= |p.containers|
    ensures |q.containers| == |p.containers| && q.apps == p.apps
  {
    p.(containers := seq(|p.containers|, i requires 0 <= i < |p.containers| =>
      if i < n then AdjustedContainer(p.containers[i], input) else p.containers[i]))
  }

  /** Every container, init containers included, is adjusted by the plan for its own name; its name, its other fields
      and the rest of the pod stay. */
  lemma EveryContainerIsAdjusted(p: PodObject, input: Input, i: nat)
    requires i < |p.containers|
    ensures var q, c := AdjustedPod(p, |p.containers|, input), p.containers[i];
      && q.(containers := p.containers) == p
      && q.containers[i] ==
         c.(resources := Adjusted(c.resources, PlanFor(c.resources, FindStats(input.stats, c.name), input.daemonSet,
                                                       input.disableMemory)))
  {
  }

  lemma ContainerStepsApply(c: Container, input: Input)
    ensures Proper(ContainerSteps(c, input))
    ensures Steps(EncodeContainer(c), ContainerSteps(c, input)) == Some(EncodeContainer(AdjustedContainer(c, input)))
  {
    ResourcesField(c, Adjusted(c.resources, PlanOf(c, input)));
    var steps := ResourceSteps(c.resources, PlanOf(c, input));
    PlansAreReplaceable(c.resources, FindStats(input.stats, c.name), input.daemonSet, input.disableMemory);
    ResourceStepsApply(c.resources, PlanOf(c, input));
    ResourceStepsProper(c.resources, PlanOf(c, input));
    StepsBelow(EncodeContainer(c), RESOURCES, steps);
  }

  lemma AdjustOneMore(p: PodObject, n: nat, input: Input)
    requires WellFormed(p) && 0 < n <= |p.containers|
    ensures WithContainer(AdjustedPod(p, n - 1, input), n - 1, AdjustedContainer(p.containers[n - 1], input)) ==
            AdjustedPod(p, n, input)
    ensures AdjustedPod(p, n - 1, input).containers[n - 1] == p.containers[n - 1]
    ensures Prefix(AdjustedPod(p, n - 1, input), n - 1) == Prefix(p, n - 1)
  {
  }

  lemma AdjustNone(p: PodObject, input: Input)
    ensures AdjustedPod(p, 0, input) == p
  {
    assert AdjustedPod(p, 0, input).containers == p.containers;
  }

  lemma PatchOneMore(p: PodObject, i: nat, input: Input)
    requires WellFormed(p) && i < |p.containers|
    ensures ApplyAll(Encode(AdjustedPod(p, i, input)), PartOf(p, input)(i)) ==
              Some(Encode(AdjustedPod(p, i + 1, input)))
  {
    var q, c := AdjustedPod(p, i, input), p.containers[i];
    AdjustOneMore(p, i + 1, input);
    ContainerStepsApply(c, input);
    PodStepsApply(q, i, ContainerSteps(c, input), AdjustedContainer(c, input));
  }

  /** The document once the first containers have been patched. */
  function DocumentAfter(p: PodObject, input: Input): nat -> Json
    requires WellFormed(p)
  {
    (i: nat) => Encode(AdjustedPod(p, if i <= |p.containers| then i else |p.containers|, input))
  }

  lemma DocumentAt(p: PodObject, input: Input, i: nat)
    requires WellFormed(p) && i <= |p.containers|
    ensures DocumentAfter(p, input)(i) == Encode(AdjustedPod(p, i, input))
  {
  }

  /** Every generated patch list applies in order, and its effect is exactly the planned adjustment of
      each container: nothing else in the document changes. */
  lemma ResourcePatchApplies(p: PodObject, n: nat, input: Input)
    requires WellFormed(p) && n <= |p.containers|
    ensures ApplyAll(Encode(p), ResourcePatch(p, n, input)) == Some(Encode(AdjustedPod(p, n, input)))
  {
    var docs := DocumentAfter(p, input);
    forall i | 0 <= i < n ensures ApplyAll(docs(i), PartOf(p, input)(i)) == Some(docs(i + 1)) {
      DocumentAt(p, input, i);
      DocumentAt(p, input, i + 1);
      PatchOneMore(p, i, input);
    }
    DocumentAt(p, input, 0);
    DocumentAt(p, input, n);
    JoinedApplies(docs, PartOf(p, input), n);
    AdjustNone(p, input);
  }

  predicate ValidPod(p: PodObject) { forall i :: 0 <= i < |p.containers| ==> Valid(p.containers[i].resources) }

  /** A valid pod is patched into a valid pod exactly when each of its containers stays valid: for DaemonSets, when
      every rewritten limit has room for its request in whole megabytes; for all other workloads always. */
  lemma PatchedPodIsValidIff(p: PodObject, input: Input)
    requires WellFormed(p) && ValidPod(p)
    ensures ValidPod(AdjustedPod(p, |p.containers|, input)) <==>
            forall i :: 0 <= i < |p.containers| ==> ContainerStaysValid(p.containers[i], input)
    ensures !input.daemonSet ==> ValidPod(AdjustedPod(p, |p.containers|, input))
  {
    var q := AdjustedPod(p, |p.containers|, input);
    forall i | 0 <= i < |p.containers|
      ensures Valid(q.containers[i].resources) <==> ContainerStaysValid(p.containers[i], input)
    {
      var c := p.containers[i];
      assert q.containers[i] == AdjustedContainer(c, input);
      ValidityIsPreservedIff(c.resources, FindStats(input.stats, c.name), input.daemonSet, input.disableMemory);
    }
  }

  predicate ContainerStaysValid(c: Container, input: Input) {
    StaysValid(c.resources, FindStats(input.stats, c.name), input.daemonSet, input.disableMemory)
  }
}
