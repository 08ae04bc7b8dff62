/** The patch documents of the webhook, applied to the pod they were computed from. */
module WebhookPatches {
  import opened Prelude
  import opened JsonPatch
  import opened Workloads
  import opened Webhook

  // ---------------------------------------------------------------- one container

  const RESOURCES := "resources"

  function Empty(): Json { Object(map[]) }

  /** Missing maps are created first. */
  function CreateSteps(r: Resources): seq<Step> {
    (if r.requests.None? then [Step([REQUESTS], Add(Empty()))] else []) +
    (if r.limits.None? then [Step([LIMITS], Add(Empty()))] else [])
  }

  /** A CPU limit is always removed. */
  function RemoveSteps(r: Resources): seq<Step> {
    if r.limits.Some? && CPU_KEY in r.limits.value then [Step([LIMITS, CPU_KEY], Remove)] else []
  }

  function RequestSteps(plan: Plan): seq<Step> {
    (if plan.cpuRequest.Some? then [Step([REQUESTS, CPU_KEY], Replace(Quantity(plan.cpuRequest.value)))] else []) +
    (if plan.memoryRequest.Some?
     then [Step([REQUESTS, MEMORY_KEY], Replace(Quantity(plan.memoryRequest.value)))] else [])
  }

  function LimitSteps(r: Resources, plan: Plan): seq<Step> {
    if plan.memoryLimit.None? then []
    else
      var v := Quantity(plan.memoryLimit.value);
      [Step([LIMITS, MEMORY_KEY], if ValueOf(QuantityOf(r.limits, MEMORY_KEY)) > 0 then Replace(v) else Add(v))]
  }

  function ResourceSteps(r: Resources, plan: Plan): seq<Step> {
    CreateSteps(r) + RemoveSteps(r) + (RequestSteps(plan) + LimitSteps(r, plan))
  }

  /** Planned requests replace requests that exist. */
  predicate Replaceable(r: Resources, plan: Plan) {
    (plan.cpuRequest.Some? ==> r.requests.Some? && CPU_KEY in r.requests.value) &&
    (plan.memoryRequest.Some? ==> r.requests.Some? && MEMORY_KEY in r.requests.value)
  }

  lemma PlansAreReplaceable(r: Resources, stat: Option<ContainerStats>, daemonSet: bool, disableMemory: bool)
    ensures Replaceable(r, PlanFor(r, stat, daemonSet, disableMemory))
  {
  }

  /** Setting one quantity in an existing map. */
  lemma SetRequest(r: Resources, name: string, v: int, verb: Verb)
    requires r.requests.Some?
    requires verb == Add(Quantity(v)) || (verb == Replace(Quantity(v)) && name in r.requests.value)
    ensures At(EncodeResources(r), [REQUESTS, name], verb) ==
            Some(EncodeResources(r.(requests := Some(r.requests.value[name := v]))))
  {
    RequestsField(r, r.requests.value[name := v]);
    EncodeUpdate(r.requests.value, name, v);
    assert [REQUESTS, name][1..] == [name];
  }

  lemma SetLimit(r: Resources, name: string, v: int, verb: Verb)
    requires r.limits.Some? && (verb == Add(Quantity(v)) || (verb == Replace(Quantity(v)) && name in r.limits.value))
    ensures At(EncodeResources(r), [LIMITS, name], verb) ==
            Some(EncodeResources(r.(limits := Some(r.limits.value[name := v]))))
  {
    LimitsField(r, r.limits.value[name := v]);
    EncodeUpdate(r.limits.value, name, v);
    assert [LIMITS, name][1..] == [name];
  }

  lemma RemoveLimit(r: Resources, name: string)
    requires r.limits.Some? && name in r.limits.value
    ensures At(EncodeResources(r), [LIMITS, name], Remove) ==
            Some(EncodeResources(r.(limits := Some(r.limits.value - {name}))))
  {
    LimitsField(r, r.limits.value - {name});
    EncodeUpdate(r.limits.value, name, 0);
    assert [LIMITS, name][1..] == [name];
  }

  lemma OneStep(doc: Json, s: Step)
    ensures Steps(doc, [s]) == At(doc, s.tokens, s.verb)
    ensures Steps(doc, []) == Some(doc)
  {
    assert [s][..0] == [];
  }

  function Created(r: Resources): Resources {
    r.(requests := Some(OrEmpty(r.requests)), limits := Some(OrEmpty(r.limits)))
  }

  lemma CreateStepsApply(r: Resources)
    ensures Steps(EncodeResources(r), CreateSteps(r)) == Some(EncodeResources(Created(r)))
  {
    var doc := EncodeResources(r);
    var a := if r.requests.None? then [Step([REQUESTS], Add(Empty()))] else [];
    var b := if r.limits.None? then [Step([LIMITS], Add(Empty()))] else [];
    var mid := r.(requests := Some(OrEmpty(r.requests)));
    assert EncodeQuantities(map[]) == Empty();
    StepsConcat(doc, a, b);
    assert Steps(doc, a) == Some(EncodeResources(mid)) by {
      if r.requests.None? {
        RequestsField(r, map[]);
        OneStep(doc, Step([REQUESTS], Add(Empty())));
      }
    }
    assert Steps(EncodeResources(mid), b) == Some(EncodeResources(Created(r))) by {
      if r.limits.None? {
        LimitsField(mid, map[]);
        OneStep(EncodeResources(mid), Step([LIMITS], Add(Empty())));
      }
    }
  }

  function WithoutCpuLimit(r: Resources): Resources { r.(limits := Some(OrEmpty(r.limits) - {CPU_KEY})) }

  lemma RemoveStepsApply(r: Resources)
    ensures Steps(EncodeResources(Created(r)), RemoveSteps(r)) == Some(EncodeResources(WithoutCpuLimit(Created(r))))
  {
    if r.limits.Some? && CPU_KEY in r.limits.value {
      RemoveLimit(Created(r), CPU_KEY);
      OneStep(EncodeResources(Created(r)), Step([LIMITS, CPU_KEY], Remove));
    } else {
      assert OrEmpty(r.limits) - {CPU_KEY} == OrEmpty(r.limits);
    }
  }

  function WithRequests(r: Resources, plan: Plan): Resources {
    var withCpu := Updated(OrEmpty(r.requests), CPU_KEY, plan.cpuRequest);
    r.(requests := Some(Updated(withCpu, MEMORY_KEY, plan.memoryRequest)))
  }

  lemma RequestStepsApply(r: Resources, plan: Plan)
    requires r.requests.Some? && Replaceable(r, plan)
    ensures Steps(EncodeResources(r), RequestSteps(plan)) == Some(EncodeResources(WithRequests(r, plan)))
  {
    var doc := EncodeResources(r);
    var a := if plan.cpuRequest.Some?
             then [Step([REQUESTS, CPU_KEY], Replace(Quantity(plan.cpuRequest.value)))] else [];
    var b := if plan.memoryRequest.Some?
             then [Step([REQUESTS, MEMORY_KEY], Replace(Quantity(plan.memoryRequest.value)))] else [];
    var mid := r.(requests := Some(Updated(OrEmpty(r.requests), CPU_KEY, plan.cpuRequest)));
    StepsConcat(doc, a, b);
    assert Steps(doc, a) == Some(EncodeResources(mid)) by {
      if plan.cpuRequest.Some? {
        SetRequest(r, CPU_KEY, plan.cpuRequest.value, Replace(Quantity(plan.cpuRequest.value)));
        OneStep(doc, Step([REQUESTS, CPU_KEY], Replace(Quantity(plan.cpuRequest.value))));
      }
    }
    assert Steps(EncodeResources(mid), b) == Some(EncodeResources(WithRequests(r, plan))) by {
      if plan.memoryRequest.Some? {
        SetRequest(mid, MEMORY_KEY, plan.memoryRequest.value, Replace(Quantity(plan.memoryRequest.value)));
        OneStep(EncodeResources(mid), Step([REQUESTS, MEMORY_KEY], Replace(Quantity(plan.memoryRequest.value))));
      }
    }
  }

  lemma LimitStepsApply(r: Resources, before: Resources, plan: Plan)
    requires r.limits.Some? && (MEMORY_KEY in OrEmpty(before.limits) ==> MEMORY_KEY in r.limits.value)
    ensures Steps(EncodeResources(r), LimitSteps(before, plan)) ==
            Some(EncodeResources(r.(limits := Some(Updated(r.limits.value, MEMORY_KEY, plan.memoryLimit)))))
  {
    if plan.memoryLimit.Some? {
      var s := LimitSteps(before, plan)[0];
      SetLimit(r, MEMORY_KEY, plan.memoryLimit.value, s.verb);
      OneStep(EncodeResources(r), s);
    }
  }

  lemma StepsChain(d0: Json, a: seq<Step>, d1: Json, b: seq<Step>, d2: Json, c: seq<Step>, d3: Json, d: seq<Step>,
                   d4: Json)
    requires Steps(d0, a) == Some(d1) && Steps(d1, b) == Some(d2) && Steps(d2, c) == Some(d3) &&
             Steps(d3, d) == Some(d4)
    ensures Steps(d0, a + b + (c + d)) == Some(d4)
  {
    StepsConcat(d0, a, b);
    StepsConcat(d0, a + b, c + d);
    StepsConcat(d2, c, d);
  }

  lemma ResourceStepsApply(r: Resources, plan: Plan)
    requires Replaceable(r, plan)
    ensures Steps(EncodeResources(r), ResourceSteps(r, plan)) == Some(EncodeResources(Adjusted(r, plan)))
  {
    var bare := WithoutCpuLimit(Created(r));
    var requested := WithRequests(bare, plan);
    CreateStepsApply(r);
    RemoveStepsApply(r);
    RequestStepsApply(bare, plan);
    assert CPU_KEY != MEMORY_KEY;
    LimitStepsApply(requested, r, plan);
    var adjusted := requested.(limits := Some(Updated(requested.limits.value, MEMORY_KEY, plan.memoryLimit)));
    assert adjusted == Adjusted(r, plan);
    StepsChain(EncodeResources(r), CreateSteps(r), EncodeResources(Created(r)), RemoveSteps(r), EncodeResources(bare),
               RequestSteps(plan), EncodeResources(requested), LimitSteps(r, plan), EncodeResources(adjusted));
  }

  lemma ResourceStepsProper(r: Resources, plan: Plan)
    ensures Proper(ResourceSteps(r, plan))
  {
    forall i | 0 <= i < |ResourceSteps(r, plan)| ensures ResourceSteps(r, plan)[i].tokens != [] {
      var s := ResourceSteps(r, plan)[i];
      assert s in CreateSteps(r) || s in RemoveSteps(r) || s in RequestSteps(plan) || s in LimitSteps(r, plan);
    }
  }
}
