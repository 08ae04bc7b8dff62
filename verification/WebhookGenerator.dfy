/** The generators themselves: patch lists grown step by step, with paths printed as strings. */
module WebhookGenerator {
  import opened Prelude
  import opened Decimal
  import opened JsonPointer
  import opened JsonPatch
  import opened Webhook
  import opened WebhookPatches
  import opened WebhookPod
  import opened Disruption
  import CronWindow
  import DisruptionRuns

  // ---------------------------------------------------------------- printed paths

  /** A path of two plain tokens is printed with two slashes. */
  lemma TwoTokens(a: string, b: string)
    requires Plain(a) && Plain(b)
    ensures Pointer([a, b]) == ['/'] + a + ['/'] + b
  {
    PlainToken(a);
    PlainToken(b);
    PointerConcat([a], [b]);
    assert [a, b] == [a] + [b];
  }

  lemma ThreeTokens(a: string, b: string, c: string)
    requires Plain(a) && Plain(b)
    ensures Pointer([a, b, c]) == ['/'] + a + ['/'] + b + ['/'] + Escape(c)
  {
    TwoTokens(a, b);
    PointerConcat([a, b], [c]);
    assert [a, b, c] == [a, b] + [c];
    assert Pointer([c]) == ['/'] + Escape(c) by { assert Escape(c) + Pointer([c][1..]) == Escape(c); }
  }

  lemma ResourceNamesArePlain()
    ensures Plain(RESOURCES) && Plain(REQUESTS) && Plain(LIMITS) && Plain(CPU_KEY) && Plain(MEMORY_KEY)
  {
  }

  lemma PodNamesArePlain()
    ensures Plain(SPEC) && Plain(CONTAINERS) && Plain(INIT_CONTAINERS)
  {
  }

  lemma MetadataNamesArePlain()
    ensures Plain(METADATA) && Plain(ANNOTATIONS)
  {
  }

  /** The prefixes printed for the containers of a pod. */
  lemma PrintedPrefixes()
    ensures ['/'] + SPEC + ['/'] + CONTAINERS + ['/'] == "/spec/containers/"
    ensures ['/'] + SPEC + ['/'] + INIT_CONTAINERS + ['/'] == "/spec/initContainers/"
  {
  }

  lemma PrintedResourceMaps()
    ensures ['/'] + RESOURCES + ['/'] + REQUESTS == "/resources/requests"
    ensures ['/'] + RESOURCES + ['/'] + LIMITS == "/resources/limits"
  {
  }

  lemma PrintedRequests()
    ensures ['/'] + RESOURCES + ['/'] + REQUESTS + ['/'] + CPU_KEY == "/resources/requests/cpu"
    ensures ['/'] + RESOURCES + ['/'] + REQUESTS + ['/'] + MEMORY_KEY == "/resources/requests/memory"
  {
  }

  lemma PrintedLimits()
    ensures ['/'] + RESOURCES + ['/'] + LIMITS + ['/'] + CPU_KEY == "/resources/limits/cpu"
    ensures ['/'] + RESOURCES + ['/'] + LIMITS + ['/'] + MEMORY_KEY == "/resources/limits/memory"
  {
  }

  lemma PrintedAnnotations()
    ensures ['/'] + METADATA + ['/'] + ANNOTATIONS + ['/'] == "/metadata/annotations/"
  {
  }

  /** "/spec/containers/%d" or "/spec/initContainers/%d" */
  function ContainerPath(p: PodObject, i: nat): string {
    if i < p.apps then "/spec/containers/" + Digits(i) else "/spec/initContainers/" + Digits(i - p.apps)
  }

  lemma ListPath(list: string, n: nat)
    requires Plain(SPEC) && Plain(list)
    ensures Pointer([SPEC, list, Digits(n)]) == ['/'] + SPEC + ['/'] + list + ['/'] + Digits(n)
  {
    IndexOfDigits(n);
    PlainToken(Digits(n));
    ThreeTokens(SPEC, list, Digits(n));
  }

  lemma ContainerPathIsPointer(p: PodObject, i: nat)
    ensures ContainerPath(p, i) == Pointer(Prefix(p, i))
  {
    PodNamesArePlain();
    ListPath(ListOf(p, i), PositionOf(p, i));
    PrintedPrefixes();
  }

  // ---------------------------------------------------------------- growing the resource patch

  function Emitted(prefix: seq<string>, steps: seq<Step>): seq<Op> { Emit(prefix, Below(RESOURCES, steps)) }

  lemma {:induction false} EmittedConcat(prefix: seq<string>, a: seq<Step>, b: seq<Step>)
    ensures Emitted(prefix, a + b) == Emitted(prefix, a) + Emitted(prefix, b)
  {
    if b == [] {
      assert a + b == a;
    } else {
      var last := b[|b| - 1];
      assert (a + b)[..|a + b| - 1] == a + b[..|b| - 1];
      EmittedConcat(prefix, a, b[..|b| - 1]);
      EmitPush(prefix, Below(RESOURCES, a + b[..|b| - 1]), Step([RESOURCES] + last.tokens, last.verb));
      EmitPush(prefix, Below(RESOURCES, b[..|b| - 1]), Step([RESOURCES] + last.tokens, last.verb));
    }
  }

  /** One operation, printed as the container path followed by a fixed suffix. */
  predicate PrintsAs(prefix: seq<string>, s: Step, suffix: string) {
    Emitted(prefix, [s]) == [Op(Pointer(prefix) + suffix, s.verb)]
  }

  lemma MapPrints(prefix: seq<string>, list: string, verb: Verb, suffix: string)
    requires Plain(RESOURCES) && Plain(list) && suffix == ['/'] + RESOURCES + ['/'] + list
    ensures PrintsAs(prefix, Step([list], verb), suffix)
  {
    TwoTokens(RESOURCES, list);
    assert [RESOURCES] + [list] == [RESOURCES, list];
    EmitOne(prefix, RESOURCES, [list], verb);
  }

  lemma QuantityPrints(prefix: seq<string>, list: string, name: string, verb: Verb, suffix: string)
    requires Plain(RESOURCES) && Plain(list) && Plain(name)
    requires suffix == ['/'] + RESOURCES + ['/'] + list + ['/'] + name
    ensures PrintsAs(prefix, Step([list, name], verb), suffix)
  {
    PlainToken(name);
    ThreeTokens(RESOURCES, list, name);
    assert [RESOURCES] + [list, name] == [RESOURCES, list, name];
    EmitOne(prefix, RESOURCES, [list, name], verb);
  }

  lemma MapsPrint(prefix: seq<string>, verb: Verb)
    ensures PrintsAs(prefix, Step([REQUESTS], verb), "/resources/requests")
    ensures PrintsAs(prefix, Step([LIMITS], verb), "/resources/limits")
  {
    ResourceNamesArePlain();
    PrintedResourceMaps();
    MapPrints(prefix, REQUESTS, verb, "/resources/requests");
    MapPrints(prefix, LIMITS, verb, "/resources/limits");
  }

  lemma RequestsPrint(prefix: seq<string>, verb: Verb)
    ensures PrintsAs(prefix, Step([REQUESTS, CPU_KEY], verb), "/resources/requests/cpu")
    ensures PrintsAs(prefix, Step([REQUESTS, MEMORY_KEY], verb), "/resources/requests/memory")
  {
    ResourceNamesArePlain();
    PrintedRequests();
    QuantityPrints(prefix, REQUESTS, CPU_KEY, verb, "/resources/requests/cpu");
    QuantityPrints(prefix, REQUESTS, MEMORY_KEY, verb, "/resources/requests/memory");
  }

  lemma LimitsPrint(prefix: seq<string>, verb: Verb)
    ensures PrintsAs(prefix, Step([LIMITS, CPU_KEY], verb), "/resources/limits/cpu")
    ensures PrintsAs(prefix, Step([LIMITS, MEMORY_KEY], verb), "/resources/limits/memory")
  {
    ResourceNamesArePlain();
    PrintedLimits();
    QuantityPrints(prefix, LIMITS, CPU_KEY, verb, "/resources/limits/cpu");
    QuantityPrints(prefix, LIMITS, MEMORY_KEY, verb, "/resources/limits/memory");
  }

  method AddMissingMaps(r: Resources, path: string, ghost prefix: seq<string>) returns (ops: seq<Op>)
    requires path == Pointer(prefix)
    ensures ops == Emitted(prefix, CreateSteps(r))
  {
    ghost var a, b: seq<Step> := [], [];
    MapsPrint(prefix, Add(Empty()));
    ops := [];
    if r.requests.None? {
      a := [Step([REQUESTS], Add(Empty()))];
      ops := [Op(path + "/resources/requests", Add(Empty()))];
    }
    assert ops == Emitted(prefix, a);
    if r.limits.None? {
      b := [Step([LIMITS], Add(Empty()))];
      ops := ops + [Op(path + "/resources/limits", Add(Empty()))];
    }
    EmittedConcat(prefix, a, b);
  }

  method RemoveCpuLimit(r: Resources, path: string, ghost prefix: seq<string>) returns (ops: seq<Op>)
    requires path == Pointer(prefix)
    ensures ops == Emitted(prefix, RemoveSteps(r))
  {
    ops := [];
    if r.limits.Some? && CPU_KEY in r.limits.value {
      LimitsPrint(prefix, Remove);
      ops := [Op(path + "/resources/limits/cpu", Remove)];
    }
  }

  method ReplaceRequest(v: Option<int>, name: string, path: string, suffix: string, ghost prefix: seq<string>)
    returns (ops: seq<Op>)
    requires path == Pointer(prefix) && forall verb :: PrintsAs(prefix, Step([REQUESTS, name], verb), suffix)
    ensures ops == Emitted(prefix, if v.Some? then [Step([REQUESTS, name], Replace(Quantity(v.value)))] else [])
  {
    ops := [];
    if v.Some? {
      assert PrintsAs(prefix, Step([REQUESTS, name], Replace(Quantity(v.value))), suffix);
      ops := [Op(path + suffix, Replace(Quantity(v.value)))];
    }
  }

  method ReplaceRequests(plan: Plan, path: string, ghost prefix: seq<string>) returns (ops: seq<Op>)
    requires path == Pointer(prefix)
    ensures ops == Emitted(prefix, RequestSteps(plan))
  {
    forall verb
      ensures PrintsAs(prefix, Step([REQUESTS, CPU_KEY], verb), "/resources/requests/cpu")
      ensures PrintsAs(prefix, Step([REQUESTS, MEMORY_KEY], verb), "/resources/requests/memory")
    {
      RequestsPrint(prefix, verb);
    }
    var cpu := ReplaceRequest(plan.cpuRequest, CPU_KEY, path, "/resources/requests/cpu", prefix);
    var memory := ReplaceRequest(plan.memoryRequest, MEMORY_KEY, path, "/resources/requests/memory", prefix);
    ops := cpu + memory;
    EmittedConcat(prefix,
      if plan.cpuRequest.Some? then [Step([REQUESTS, CPU_KEY], Replace(Quantity(plan.cpuRequest.value)))] else [],
      if plan.memoryRequest.Some?
      then [Step([REQUESTS, MEMORY_KEY], Replace(Quantity(plan.memoryRequest.value)))] else []);
  }

  method SetMemoryLimit(r: Resources, plan: Plan, path: string, ghost prefix: seq<string>) returns (ops: seq<Op>)
    requires path == Pointer(prefix)
    ensures ops == Emitted(prefix, LimitSteps(r, plan))
  {
    ops := [];
    if plan.memoryLimit.Some? {
      var v := Quantity(plan.memoryLimit.value);
      var verb := if ValueOf(QuantityOf(r.limits, MEMORY_KEY)) > 0 then Replace(v) else Add(v);
      LimitsPrint(prefix, verb);
      ops := [Op(path + "/resources/limits/memory", verb)];
    }
  }

  method ContainerPatch(c: Container, path: string, ghost prefix: seq<string>, input: Input) returns (ops: seq<Op>)
    requires path == Pointer(prefix)
    ensures ops == Emit(prefix, ContainerSteps(c, input))
  {
    var r, plan := c.resources, PlanOf(c, input);
    var created := AddMissingMaps(r, path, prefix);
    var removed := RemoveCpuLimit(r, path, prefix);
    var requests := ReplaceRequests(plan, path, prefix);
    var limits := SetMemoryLimit(r, plan, path, prefix);
    ops := created + removed + (requests + limits);
    EmittedConcat(prefix, CreateSteps(r), RemoveSteps(r));
    EmittedConcat(prefix, RequestSteps(plan), LimitSteps(r, plan));
    EmittedConcat(prefix, CreateSteps(r) + RemoveSteps(r), RequestSteps(plan) + LimitSteps(r, plan));
  }

  /** adjustResources: the patch applies to the pod it was computed from and yields the adjusted pod. */
  method AdjustResources(p: PodObject, input: Input) returns (patches: seq<Op>)
    requires WellFormed(p)
    ensures ApplyAll(Encode(p), patches) == Some(Encode(AdjustedPod(p, |p.containers|, input)))
  {
    patches := [];
    for i := 0 to |p.containers|
      invariant patches == ResourcePatch(p, i, input)
    {
      ContainerPathIsPointer(p, i);
      var ops := ContainerPatch(p.containers[i], ContainerPath(p, i), Prefix(p, i), input);
      patches := patches + ops;
    }
    ResourcePatchApplies(p, |p.containers|, input);
  }

  // ---------------------------------------------------------------- growing the annotation patch

  function WithAnnotations(p: PodObject, a: Annotations): PodObject { p.(annotations := Some(a)) }

  lemma AnnotationsField(p: PodObject, a: Annotations, b: Annotations)
    requires WellFormed(p)
    ensures var doc := Encode(WithAnnotations(p, a));
            Child(doc, METADATA) == Some(EncodeMetadata(WithAnnotations(p, a))) &&
            Encode(WithAnnotations(p, b)) == WithChild(doc, METADATA, EncodeMetadata(WithAnnotations(p, b)))
  {
    FieldNamesDiffer();
  }

  lemma MetadataField(p: PodObject, a: Annotations, b: Annotations)
    ensures var doc := EncodeMetadata(WithAnnotations(p, a));
            Child(doc, ANNOTATIONS) == Some(EncodeAnnotations(a)) &&
            EncodeMetadata(WithAnnotations(p, b)) == WithChild(doc, ANNOTATIONS, EncodeAnnotations(b))
  {
  }

  lemma AnnotationPath(key: string)
    ensures Tokens("/metadata/annotations/" + Escape(key)) == Some([METADATA, ANNOTATIONS, key])
  {
    MetadataNamesArePlain();
    ThreeTokens(METADATA, ANNOTATIONS, key);
    PrintedAnnotations();
    TokensOfPointer([METADATA, ANNOTATIONS, key]);
  }

  lemma AtDepthThree(doc: Json, t1: string, t2: string, t3: string, verb: Verb, d1: Json, d2: Json, d3: Json)
    requires Child(doc, t1) == Some(d1) && Child(d1, t2) == Some(d2) && Member(d2, t3, verb) == Some(d3)
    ensures At(doc, [t1, t2, t3], verb) == Some(WithChild(doc, t1, WithChild(d1, t2, d3)))
  {
    AtBelow(d1, t2, [t3], verb);
    AtBelow(doc, t1, [t2, t3], verb);
    assert [t1] + [t2, t3] == [t1, t2, t3] && [t2] + [t3] == [t2, t3];
  }

  lemma AnnotationStep(p: PodObject, a: Annotations, key: string, verb: Verb, b: Annotations)
    requires WellFormed(p) && Member(EncodeAnnotations(a), key, verb) == Some(EncodeAnnotations(b))
    ensures Apply(Encode(WithAnnotations(p, a)), Op("/metadata/annotations/" + Escape(key), verb)) ==
            Some(Encode(WithAnnotations(p, b)))
  {
    AnnotationPath(key);
    AnnotationsField(p, a, b);
    MetadataField(p, a, b);
    AtDepthThree(Encode(WithAnnotations(p, a)), METADATA, ANNOTATIONS, key, verb,
                 EncodeMetadata(WithAnnotations(p, a)), EncodeAnnotations(a), EncodeAnnotations(b));
  }

  /** One more annotation operation at the end of a patch. */
  lemma AnnotationPush(doc: Json, patches: seq<Op>, p: PodObject, a: Annotations, key: string, verb: Verb,
                       b: Annotations)
    requires WellFormed(p) && Member(EncodeAnnotations(a), key, verb) == Some(EncodeAnnotations(b))
    requires ApplyAll(doc, patches) == Some(Encode(WithAnnotations(p, a)))
    ensures ApplyAll(doc, patches + [Op("/metadata/annotations/" + Escape(key), verb)]) ==
            Some(Encode(WithAnnotations(p, b)))
  {
    AnnotationStep(p, a, key, verb, b);
    ApplyPush(doc, patches, Op("/metadata/annotations/" + Escape(key), verb));
  }

  lemma AnnotationMembers(a: Annotations, key: string, v: string)
    ensures Member(EncodeAnnotations(a), key, Add(Text(v))) == Some(EncodeAnnotations(a[key := v]))
    ensures key in a ==> Member(EncodeAnnotations(a), key, Replace(Text(v))) == Some(EncodeAnnotations(a[key := v]))
    ensures key in a ==> Member(EncodeAnnotations(a), key, Remove) == Some(EncodeAnnotations(a - {key}))
  {
    assert EncodeAnnotations(a[key := v]).fields == EncodeAnnotations(a).fields[key := Text(v)];
    assert EncodeAnnotations(a - {key}).fields == EncodeAnnotations(a).fields - {key};
  }

  /** The webhook strips when the workload carries blocking annotations and some window is open now. */
  predicate Strips(constrained: bool, windows: seq<CronWindow.Window>, now: int) {
    constrained && windows != [] && DisruptionRuns.In(windows, now)
  }

  /** The pod after the annotation patch. */
  function StrippedPod(p: PodObject, active: bool): PodObject {
    if active && p.annotations.Some? then WithAnnotations(p, Stripped(p.annotations.value)) else p
  }

  /** buildDisruptionAnnotationPatches: whatever the order in which the keys are visited, the patch strips
      every document with the same annotations; there is none when there is nothing to strip. */
  method BuildDisruptionAnnotationPatches(annotations: Option<Annotations>, constrained: bool,
                                          windows: seq<CronWindow.Window>, now: int, ghost p: PodObject)
    returns (patches: seq<Op>)
    requires WellFormed(p) && p.annotations == annotations
    ensures ApplyAll(Encode(p), patches) == Some(Encode(StrippedPod(p, Strips(constrained, windows, now))))
    ensures patches == [] <==>
            !constrained || (forall i :: 0 <= i < |windows| ==> !CronWindow.InEvictionWindow(windows[i], now)) ||
            annotations.None? || annotations.value.Keys !! DoNotDisruptKeys()
  {
    patches := [];
    if !constrained || |windows| == 0 { return; }
    if !DisruptionRuns.In(windows, now) { return; }
    if annotations.None? { return; }
    patches := StripPatch(annotations.value, p);
    if |patches| > 0 {
      patches := MarkPatch(annotations.value, patches, Encode(p), p);
    } else {
      assert annotations.value - DoNotDisruptKeys() == annotations.value;
    }
  }

  /** The blocking annotations once the keys in `left` remain to be visited. */
  function Remaining(a: Annotations, left: set<string>): Annotations { a - (DoNotDisruptKeys() - left) }

  lemma RemainingStep(a: Annotations, left: set<string>, key: string)
    requires key in left && left <= DoNotDisruptKeys()
    ensures Remaining(a, left - {key}) == Remaining(a, left) - {key}
    ensures key in a ==> Member(EncodeAnnotations(Remaining(a, left)), key, Remove) ==
                         Some(EncodeAnnotations(Remaining(a, left - {key})))
    ensures key !in a ==> Remaining(a, left - {key}) == Remaining(a, left)
    ensures a.Keys !! (DoNotDisruptKeys() - (left - {key})) <==> a.Keys !! (DoNotDisruptKeys() - left) && key !in a
  {
    AnnotationMembers(Remaining(a, left), key, "");
  }

  method StripPatch(a: Annotations, ghost p: PodObject) returns (patches: seq<Op>)
    requires WellFormed(p) && p.annotations == Some(a)
    ensures ApplyAll(Encode(p), patches) == Some(Encode(WithAnnotations(p, a - DoNotDisruptKeys())))
    ensures patches == [] <==> a.Keys !! DoNotDisruptKeys()
  {
    patches := [];
    var keys := DoNotDisruptKeys();
    ghost var doc := Encode(p);
    assert Remaining(a, keys) == a;
    while keys != {}
      invariant keys <= DoNotDisruptKeys()
      invariant ApplyAll(doc, patches) == Some(Encode(WithAnnotations(p, Remaining(a, keys))))
      invariant patches == [] <==> a.Keys !! (DoNotDisruptKeys() - keys)
    {
      var key :| key in keys;
      RemainingStep(a, keys, key);
      if key in a {
        AnnotationPush(doc, patches, p, Remaining(a, keys), key, Remove, Remaining(a, keys - {key}));
        patches := patches + [Op("/metadata/annotations/" + Escape(key), Remove)];
      }
      keys := keys - {key};
    }
    assert Remaining(a, keys) == a - DoNotDisruptKeys();
  }

  method MarkPatch(a: Annotations, before: seq<Op>, ghost doc: Json, ghost p: PodObject) returns (patches: seq<Op>)
    requires WellFormed(p) && !(a.Keys !! DoNotDisruptKeys())
    requires ApplyAll(doc, before) == Some(Encode(WithAnnotations(p, a - DoNotDisruptKeys())))
    ensures ApplyAll(doc, patches) == Some(Encode(WithAnnotations(p, Stripped(a)))) && patches != []
  {
    var verb := if MODIFIED in a then Replace(Text(TRUE_VALUE)) else Add(Text(TRUE_VALUE));
    MarkMember(a);
    AnnotationPush(doc, before, p, a - DoNotDisruptKeys(), MODIFIED, verb, Stripped(a));
    patches := before + [Op("/metadata/annotations/" + Escape(MODIFIED), verb)];
  }

  lemma MarkMember(a: Annotations)
    requires !(a.Keys !! DoNotDisruptKeys())
    ensures Member(EncodeAnnotations(a - DoNotDisruptKeys()), MODIFIED,
                   if MODIFIED in a then Replace(Text(TRUE_VALUE)) else Add(Text(TRUE_VALUE))) ==
            Some(EncodeAnnotations(Stripped(a)))
  {
    KeysAreDistinct();
    AnnotationMembers(a - DoNotDisruptKeys(), MODIFIED, TRUE_VALUE);
  }

  /** The webhook and the reconciler strip a pod alike exactly when it is unmarked or has nothing to strip. */
  lemma WebhookAgreesWithReconcilerIff(a: Annotations, template: Template)
    ensures Stripped(a) == PodReconciled(a, template, StateIn) <==> !Marked(a) || a.Keys !! DoNotDisruptKeys()
  {
    if !(a.Keys !! DoNotDisruptKeys()) {
      var k :| k in a.Keys && k in DoNotDisruptKeys();
      KeysAreDistinct();
      assert k !in Stripped(a);
    }
  }

  /** A pod created with the marker and a blocking annotation: only the webhook strips it. */
  lemma MarkedPodIsStripped(template: Template)
    ensures var a: Annotations := map[MODIFIED := TRUE_VALUE, DO_NOT_EVICT := "true"];
            Stripped(a) == map[MODIFIED := TRUE_VALUE] && PodReconciled(a, template, StateIn) == a
  {
    KeysAreDistinct();
    var a: Annotations := map[MODIFIED := TRUE_VALUE, DO_NOT_EVICT := "true"];
    assert DO_NOT_EVICT in a.Keys && DO_NOT_EVICT in DoNotDisruptKeys();
  }

  /** buildMutatingPatches: resources first, then annotations. The combined patch applies, and both
      changes are made. */
  method BuildMutatingPatches(p: PodObject, input: Input, constrained: bool, windows: seq<CronWindow.Window>, now: int)
    returns (patches: seq<Op>)
    requires WellFormed(p)
    ensures ApplyAll(Encode(p), patches) ==
            Some(Encode(StrippedPod(AdjustedPod(p, |p.containers|, input), Strips(constrained, windows, now))))
  {
    var resources := AdjustResources(p, input);
    ghost var q := AdjustedPod(p, |p.containers|, input);
    var annotations := BuildDisruptionAnnotationPatches(p.annotations, constrained, windows, now, q);
    ApplyBoth(Encode(p), resources, Encode(q), annotations, Encode(StrippedPod(q, Strips(constrained, windows, now))));
    patches := resources + annotations;
  }
}
