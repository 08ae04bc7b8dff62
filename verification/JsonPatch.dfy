/** JSON documents and JSON Patch (RFC 6902), sections 4.1 to 4.3: add, remove, replace. */
module JsonPatch {
  import opened Prelude
  import opened JsonPointer

  /** Kubernetes quantities are leaves measured in thousandths. */
  datatype Json = Text(s: string) | Quantity(milli: int) | Object(fields: map<string, Json>) | Array(items: seq<Json>)

  datatype Verb = Add(value: Json) | Remove | Replace(value: Json)

  datatype Op = Op(path: string, verb: Verb)

  function Child(doc: Json, t: string): Option<Json> {
    match doc
    case Object(fields) => if t in fields then Some(fields[t]) else None
    case Array(items) =>
      var i := Index(t);
      if i.Some? && i.value < |items| then Some(items[i.value]) else None
    case _ => None
  }

  function WithChild(doc: Json, t: string, c: Json): Json
    requires Child(doc, t).Some?
  {
    match doc
    case Object(fields) => Object(fields[t := c])
    case Array(items) => Array(items[Index(t).value := c])
  }

  /** The operation on the last token: `add` creates or overwrites a member or inserts an element, the
      other two need an existing target. */
  function Member(doc: Json, t: string, verb: Verb): Option<Json> {
    match doc
    case Object(fields) => (
      match verb
      case Add(v) => Some(Object(fields[t := v]))
      case Remove => if t in fields then Some(Object(fields - {t})) else None
      case Replace(v) => if t in fields then Some(Object(fields[t := v])) else None)
    case Array(items) => (
      var i := Index(t);
      match verb
      case Add(v) =>
        if t == "-" then Some(Array(items + [v]))
        else if i.Some? && i.value <= |items| then Some(Array(items[..i.value] + [v] + items[i.value..]))
        else None
      case Remove =>
        if i.Some? && i.value < |items| then Some(Array(items[..i.value] + items[i.value + 1..])) else None
      case Replace(v) => if i.Some? && i.value < |items| then Some(Array(items[i.value := v])) else None)
    case _ => None
  }

  /** Sections 4.1 to 4.3 on a member: `add` writes it, present or not; the other two fail without it; and no other
      member changes. */
  lemma MemberIs(fields: map<string, Json>, t: string, v: Json, other: string)
    ensures Member(Object(fields), t, Add(v)) == Some(Object(fields[t := v]))
    ensures Member(Object(fields), t, Replace(v)).Some? <==> t in fields
    ensures Member(Object(fields), t, Remove).Some? <==> t in fields
    ensures t in fields ==> Member(Object(fields), t, Replace(v)) == Member(Object(fields), t, Add(v))
    ensures t in fields ==>
              var rest := Member(Object(fields), t, Remove).value;
              Child(rest, t) == None && (other != t ==> Child(rest, other) == Child(Object(fields), other))
  {
  }

  /** Every parent on the way must exist. */
  function At(doc: Json, tokens: seq<string>, verb: Verb): Option<Json>
    decreases |tokens|
  {
    if tokens == [] then (if verb.Remove? then None else Some(verb.value))
    else if |tokens| == 1 then Member(doc, tokens[0], verb)
    else
      var child := Child(doc, tokens[0]);
      if child.None? then None
      else
        var c := At(child.value, tokens[1..], verb);
        if c.None? then None else Some(WithChild(doc, tokens[0], c.value))
  }

  function Apply(doc: Json, op: Op): Option<Json> {
    var tokens := Tokens(op.path);
    if tokens.None? then None else At(doc, tokens.value, op.verb)
  }

  /** A patch document is applied in order and fails as a whole. */
  function ApplyAll(doc: Json, ops: seq<Op>): Option<Json> {
    if ops == [] then Some(doc)
    else
      var d := ApplyAll(doc, ops[..|ops| - 1]);
      if d.None? then None else Apply(d.value, ops[|ops| - 1])
  }

  lemma {:induction false} ApplyAllConcat(doc: Json, a: seq<Op>, b: seq<Op>)
    ensures ApplyAll(doc, a + b) ==
            if ApplyAll(doc, a).None? then None else ApplyAll(ApplyAll(doc, a).value, b)
  {
    if b == [] {
      assert a + b == a;
    } else {
      assert (a + b)[..|a + b| - 1] == a + b[..|b| - 1];
      ApplyAllConcat(doc, a, b[..|b| - 1]);
    }
  }

  lemma ApplyPush(doc: Json, a: seq<Op>, op: Op)
    requires ApplyAll(doc, a).Some?
    ensures ApplyAll(doc, a + [op]) == Apply(ApplyAll(doc, a).value, op)
  {
    assert (a + [op])[..|a|] == a;
  }

  lemma ApplyBoth(d0: Json, a: seq<Op>, d1: Json, b: seq<Op>, d2: Json)
    requires ApplyAll(d0, a) == Some(d1) && ApplyAll(d1, b) == Some(d2)
    ensures ApplyAll(d0, a + b) == Some(d2)
  {
    ApplyAllConcat(d0, a, b);
  }

  function Joined(parts: nat -> seq<Op>, n: nat): seq<Op> {
    if n == 0 then [] else Joined(parts, n - 1) + parts(n - 1)
  }

  /** Patches that lead from each document to the next lead, joined, from the first to the last. */
  lemma {:induction false} JoinedApplies(docs: nat -> Json, parts: nat -> seq<Op>, n: nat)
    requires forall k :: 0 <= k < n ==> ApplyAll(docs(k), parts(k)) == Some(docs(k + 1))
    ensures ApplyAll(docs(0), Joined(parts, n)) == Some(docs(n))
  {
    if n > 0 {
      JoinedApplies(docs, parts, n - 1);
      ApplyBoth(docs(0), Joined(parts, n - 1), docs(n - 1), parts(n - 1), docs(n));
    }
  }

  // ---------------------------------------------------------------- operations below a common parent

  /** An operation on the subdocument at some prefix: relative tokens and a verb. */
  datatype Step = Step(tokens: seq<string>, verb: Verb)

  function Steps(doc: Json, steps: seq<Step>): Option<Json> {
    if steps == [] then Some(doc)
    else
      var d := Steps(doc, steps[..|steps| - 1]);
      if d.None? then None else At(d.value, steps[|steps| - 1].tokens, steps[|steps| - 1].verb)
  }

  lemma {:induction false} StepsConcat(doc: Json, a: seq<Step>, b: seq<Step>)
    ensures Steps(doc, a + b) == if Steps(doc, a).None? then None else Steps(Steps(doc, a).value, b)
  {
    if b == [] {
      assert a + b == a;
    } else {
      assert (a + b)[..|a + b| - 1] == a + b[..|b| - 1];
      StepsConcat(doc, a, b[..|b| - 1]);
    }
  }

  /** One more step. */
  lemma StepsPush(doc: Json, steps: seq<Step>, s: Step)
    ensures Steps(doc, steps + [s]) ==
            if Steps(doc, steps).None? then None else At(Steps(doc, steps).value, s.tokens, s.verb)
  {
    assert (steps + [s])[..|steps|] == steps;
  }

  function Below(t: string, steps: seq<Step>): (r: seq<Step>)
    ensures |r| == |steps|
  {
    if steps == [] then [] else
      Below(t, steps[..|steps| - 1]) + [Step([t] + steps[|steps| - 1].tokens, steps[|steps| - 1].verb)]
  }

  predicate Proper(steps: seq<Step>) { forall i :: 0 <= i < |steps| ==> steps[i].tokens != [] }

  lemma ChildOfWithChild(doc: Json, t: string, c: Json, d: Json)
    requires Child(doc, t).Some?
    ensures Child(WithChild(doc, t, c), t) == Some(c)
    ensures WithChild(WithChild(doc, t, c), t, d) == WithChild(doc, t, d)
    ensures WithChild(doc, t, Child(doc, t).value) == doc
  {
  }

  lemma AtBelow(doc: Json, t: string, tokens: seq<string>, verb: Verb)
    requires tokens != [] && Child(doc, t).Some?
    ensures At(doc, [t] + tokens, verb) ==
            var c := At(Child(doc, t).value, tokens, verb);
            if c.None? then None else Some(WithChild(doc, t, c.value))
  {
    assert ([t] + tokens)[1..] == tokens;
  }

  lemma OneMoreBelow(doc: Json, t: string, before: seq<Step>, s: Step, c: Json, d: Json)
    requires Child(doc, t).Some? && s.tokens != [] && At(c, s.tokens, s.verb) == Some(d)
    requires Steps(doc, before) == Some(WithChild(doc, t, c))
    ensures Steps(doc, before + [Step([t] + s.tokens, s.verb)]) == Some(WithChild(doc, t, d))
  {
    ChildOfWithChild(doc, t, c, d);
    StepsPush(doc, before, Step([t] + s.tokens, s.verb));
    AtBelow(WithChild(doc, t, c), t, s.tokens, s.verb);
  }

  /** Operations below a member change that member and nothing else. */
  lemma {:induction false} StepsBelow(doc: Json, t: string, steps: seq<Step>)
    requires Proper(steps) && Child(doc, t).Some? && Steps(Child(doc, t).value, steps).Some?
    ensures Steps(doc, Below(t, steps)) == Some(WithChild(doc, t, Steps(Child(doc, t).value, steps).value))
    ensures Proper(Below(t, steps))
  {
    var child := Child(doc, t).value;
    if steps == [] {
      ChildOfWithChild(doc, t, child, child);
    } else {
      var init, last := steps[..|steps| - 1], steps[|steps| - 1];
      StepsBelow(doc, t, init);
      OneMoreBelow(doc, t, Below(t, init), last, Steps(child, init).value, Steps(child, steps).value);
    }
  }

  /** The operations a generator emits for steps below a pointer prefix. */
  function Emit(prefix: seq<string>, steps: seq<Step>): seq<Op> {
    if steps == [] then [] else
      Emit(prefix, steps[..|steps| - 1]) +
      [Op(Pointer(prefix + steps[|steps| - 1].tokens), steps[|steps| - 1].verb)]
  }

  lemma EmitPush(prefix: seq<string>, steps: seq<Step>, s: Step)
    ensures Emit(prefix, steps + [s]) == Emit(prefix, steps) + [Op(Pointer(prefix + s.tokens), s.verb)]
  {
    assert (steps + [s])[..|steps|] == steps;
  }

  lemma EmitOne(prefix: seq<string>, t: string, tokens: seq<string>, verb: Verb)
    ensures Emit(prefix, Below(t, [Step(tokens, verb)])) == [Op(Pointer(prefix) + Pointer([t] + tokens), verb)]
    ensures Emit(prefix, Below(t, [])) == []
  {
    var none: seq<Step> := [];
    var s := Step([t] + tokens, verb);
    assert [Step(tokens, verb)][..0] == none;
    assert Below(t, [Step(tokens, verb)]) == none + [s];
    EmitPush(prefix, none, s);
    assert Emit(prefix, none) == [];
    PointerConcat(prefix, [t] + tokens);
  }

  /** Emitting below one more token. */
  lemma {:induction false} EmitBelow(prefix: seq<string>, t: string, steps: seq<Step>)
    ensures Emit(prefix + [t], steps) == Emit(prefix, Below(t, steps))
  {
    if steps != [] {
      var init, last := steps[..|steps| - 1], steps[|steps| - 1];
      EmitBelow(prefix, t, init);
      EmitPush(prefix, Below(t, init), Step([t] + last.tokens, last.verb));
      assert prefix + [t] + last.tokens == prefix + ([t] + last.tokens);
    }
  }

  lemma {:induction false} ApplyEmitted(doc: Json, steps: seq<Step>)
    ensures ApplyAll(doc, Emit([], steps)) == Steps(doc, steps)
  {
    if steps != [] {
      var init, last := steps[..|steps| - 1], steps[|steps| - 1];
      ApplyEmitted(doc, init);
      var op := Op(Pointer([] + last.tokens), last.verb);
      assert [] + last.tokens == last.tokens;
      TokensOfPointer(last.tokens);
      assert (Emit([], init) + [op])[..|Emit([], init)|] == Emit([], init);
    }
  }
}
