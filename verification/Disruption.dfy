/** The disruption-window reconciler: PodDisruptionBudgets and pod annotations, relaxed and restored. */
module Disruption {
  import opened Prelude
  import opened Decimal

  type Annotations = map<string, string>

  const TRUE_VALUE := "true"
  const MODIFIED := "cruisekube.truefoundry.com/modified"
  const PDB_MAX_UNAVAILABLE := "cruisekube.truefoundry.com/pdb.maxUnavailable"
  const PDB_MIN_AVAILABLE := "cruisekube.truefoundry.com/pdb.minAvailable"

  const SAFE_TO_EVICT := "cluster-autoscaler.kubernetes.io/safe-to-evict"
  const DO_NOT_EVICT := "karpenter.sh/do-not-evict"
  const DO_NOT_DISRUPT := "karpenter.sh/do-not-disrupt"

  function DoNotDisruptKeys(): set<string> { {SAFE_TO_EVICT, DO_NOT_EVICT, DO_NOT_DISRUPT} }

  lemma KeysAreDistinct()
    ensures MODIFIED != PDB_MAX_UNAVAILABLE && MODIFIED != PDB_MIN_AVAILABLE
    ensures PDB_MAX_UNAVAILABLE != PDB_MIN_AVAILABLE
    ensures MODIFIED !in DoNotDisruptKeys()
    ensures SAFE_TO_EVICT != DO_NOT_EVICT && SAFE_TO_EVICT != DO_NOT_DISRUPT && DO_NOT_EVICT != DO_NOT_DISRUPT
  {
    assert |MODIFIED| == 35 && |PDB_MAX_UNAVAILABLE| == 45 && |PDB_MIN_AVAILABLE| == 43;
    assert |SAFE_TO_EVICT| == 46 && |DO_NOT_EVICT| == 25 && |DO_NOT_DISRUPT| == 27;
  }

  datatype ReconcileState = StateIn | StateAboutToExit | StateOut

  predicate Marked(a: Annotations) { MODIFIED in a && a[MODIFIED] == TRUE_VALUE }

  // ---------------------------------------------------------------- disruption budgets

  datatype Budget = Budget(
    annotations: Annotations, maxUnavailable: Option<IntOrString>, minAvailable: Option<IntOrString>)

  function Save(b: Budget): Budget
  {
    if b.maxUnavailable.Some? then
      Budget(b.annotations[PDB_MAX_UNAVAILABLE := Print(b.maxUnavailable.value)][MODIFIED := TRUE_VALUE],
             Some(StrVal("100%")), b.minAvailable)
    else if b.minAvailable.Some? then
      Budget(b.annotations[PDB_MIN_AVAILABLE := Print(b.minAvailable.value)][MODIFIED := TRUE_VALUE],
             None, Some(IntVal(0)))
    else b
  }

  function Cleaned(a: Annotations): Annotations {
    a - {PDB_MAX_UNAVAILABLE, PDB_MIN_AVAILABLE, MODIFIED}
  }

  function Restore(b: Budget): Budget {
    if PDB_MAX_UNAVAILABLE in b.annotations then
      Budget(Cleaned(b.annotations), Some(Parse(b.annotations[PDB_MAX_UNAVAILABLE])), None)
    else if PDB_MIN_AVAILABLE in b.annotations then
      Budget(Cleaned(b.annotations), None, Some(Parse(b.annotations[PDB_MIN_AVAILABLE])))
    else b
  }

  function Reconciled(b: Budget, state: ReconcileState): Budget {
    match state
    case StateIn => if Marked(b.annotations) then b else Save(b)
    case _ => if Marked(b.annotations) then Restore(b) else b
  }

  /** The API object that the reconciler mutates before writing it back. */
  class PodDisruptionBudget {
    var annotations: Annotations
    var maxUnavailable: Option<IntOrString>
    var minAvailable: Option<IntOrString>

    constructor (b: Budget)
      ensures Value() == b
    {
      annotations, maxUnavailable, minAvailable := b.annotations, b.maxUnavailable, b.minAvailable;
    }

    function Value(): Budget reads this { Budget(annotations, maxUnavailable, minAvailable) }

    /** applyPDBReconcileState: returns whether the object must be written. */
    method ApplyReconcileState(state: ReconcileState) returns (modified: bool)
      modifies this
      ensures Value() == Reconciled(old(Value()), state)
      ensures !modified ==> Value() == old(Value())
      ensures modified ==> Marked(annotations) != Marked(old(annotations))
    {
      KeysAreDistinct();
      modified := false;
      match state
      case StateIn =>
        if !Marked(annotations) {
          modified := true;
          if maxUnavailable.Some? {
            annotations := annotations[PDB_MAX_UNAVAILABLE := Print(maxUnavailable.value)];
            maxUnavailable := Some(StrVal("100%"));
          } else if minAvailable.Some? {
            annotations := annotations[PDB_MIN_AVAILABLE := Print(minAvailable.value)];
            minAvailable := Some(IntVal(0));
          } else {
            modified := false;
          }
          if modified {
            annotations := annotations[MODIFIED := TRUE_VALUE];
          }
        }
      case _ =>
        if Marked(annotations) {
          if PDB_MAX_UNAVAILABLE in annotations {
            maxUnavailable := Some(Parse(annotations[PDB_MAX_UNAVAILABLE]));
            minAvailable := None;
          } else if PDB_MIN_AVAILABLE in annotations {
            minAvailable := Some(Parse(annotations[PDB_MIN_AVAILABLE]));
            maxUnavailable := None;
          } else {
            return;
          }
          annotations := annotations - {PDB_MAX_UNAVAILABLE};
          annotations := annotations - {PDB_MIN_AVAILABLE};
          annotations := annotations - {MODIFIED};
          modified := true;
        }
    }
  }

  /** What the window does to an unmarked budget: the maximum of unavailable pods, if it has one, is lifted, else the
      minimum of available ones; the value is saved under the name of its field, and nothing else changes. */
  lemma RelaxingIs(b: Budget, k: string)
    requires !Marked(b.annotations) && (b.maxUnavailable.Some? || b.minAvailable.Some?)
    ensures var r := Reconciled(b, StateIn);
            var saved := if b.maxUnavailable.Some? then "cruisekube.truefoundry.com/pdb.maxUnavailable"
                         else "cruisekube.truefoundry.com/pdb.minAvailable";
      && Marked(r.annotations) && saved in r.annotations
      && (b.maxUnavailable.Some? ==>
            r.maxUnavailable == Some(StrVal("100%")) && r.minAvailable == b.minAvailable &&
            r.annotations[saved] == Print(b.maxUnavailable.value))
      && (b.maxUnavailable.None? ==>
            r.maxUnavailable == None && r.minAvailable == Some(IntVal(0)) &&
            r.annotations[saved] == Print(b.minAvailable.value))
      && (k != saved && k != MODIFIED ==>
            (k in r.annotations <==> k in b.annotations) &&
            (k in b.annotations ==> r.annotations[k] == b.annotations[k]))
  {
    KeysAreDistinct();
  }

  /** What leaving the window does to a marked budget: the saved value, that of the maximum first, is put back, the
      other field is cleared, and the three annotations go. Without a saved value nothing changes, marker included. */
  lemma RestoringIs(b: Budget, leave: ReconcileState, k: string)
    requires Marked(b.annotations) && leave != StateIn
    ensures var r := Reconciled(b, leave);
            var max, min := "cruisekube.truefoundry.com/pdb.maxUnavailable",
                "cruisekube.truefoundry.com/pdb.minAvailable";
      && (max in b.annotations ==> r.maxUnavailable == Some(Parse(b.annotations[max])) && r.minAvailable == None)
      && (max !in b.annotations && min in b.annotations ==>
            r.maxUnavailable == None && r.minAvailable == Some(Parse(b.annotations[min])))
      && (max !in b.annotations && min !in b.annotations ==> r == b)
      && (max in b.annotations || min in b.annotations ==>
            if k == max || k == min || k == "cruisekube.truefoundry.com/modified" then k !in r.annotations
            else (k in r.annotations <==> k in b.annotations) &&
                 (k in b.annotations ==> r.annotations[k] == b.annotations[k]))
  {
  }

  /** The three annotations the reconciler owns are absent. */
  predicate Clean(a: Annotations) {
    PDB_MAX_UNAVAILABLE !in a && PDB_MIN_AVAILABLE !in a && MODIFIED !in a
  }

  predicate Survives(v: Option<IntOrString>) { v.Some? ==> v.value.IntVal? || Atoi(v.value.s) == None }

  /** Relaxing and then restoring gives back an unmarked budget, exactly, if and only if there is
      nothing to relax, or it has one field only, that field prints and parses back, and none of the
      reconciler's annotations were there before. */
  lemma BudgetIsRestoredIff(b: Budget, leave: ReconcileState)
    requires !Marked(b.annotations) && leave != StateIn
    ensures Reconciled(Reconciled(b, StateIn), leave) == b <==>
            (b.maxUnavailable.None? && b.minAvailable.None?) ||
            ((b.maxUnavailable.None? || b.minAvailable.None?) &&
             Survives(b.maxUnavailable) && Survives(b.minAvailable) && Clean(b.annotations))
  {
    KeysAreDistinct();
    if b.maxUnavailable.Some? { ParseOfPrint(b.maxUnavailable.value); }
    if b.minAvailable.Some? { ParseOfPrint(b.minAvailable.value); }
    var r := Reconciled(Reconciled(b, StateIn), leave);
    if b.maxUnavailable.Some? || b.minAvailable.Some? {
      assert r.annotations == Cleaned(b.annotations);
      assert Clean(b.annotations) <==> Cleaned(b.annotations) == b.annotations by {
        assert Clean(Cleaned(b.annotations));
      }
    }
  }

  /** A saved value left over from earlier: a budget of two available pods comes back as half unavailable. */
  lemma LeftoverAnnotationIsRestored(leave: ReconcileState)
    requires leave != StateIn
    ensures var b := Budget(map[PDB_MAX_UNAVAILABLE := "50%"], None, Some(IntVal(2)));
            !Marked(b.annotations) &&
            Reconciled(Reconciled(b, StateIn), leave) == Budget(map[], Some(StrVal("50%")), None)
  {
    KeysAreDistinct();
    var b := Budget(map[PDB_MAX_UNAVAILABLE := "50%"], None, Some(IntVal(2)));
    NonDigitFails("50%", 2);
    assert Marked(Save(b).annotations) && Save(b).annotations[PDB_MAX_UNAVAILABLE] == "50%";
  }

  /** An unmarked budget as the API server admits it. */
  predicate Original(b: Budget) {
    Clean(b.annotations) &&
    ((b.maxUnavailable.Some? && IsBudgetValue(b.maxUnavailable.value) && b.minAvailable.None?) ||
     (b.minAvailable.Some? && IsBudgetValue(b.minAvailable.value) && b.maxUnavailable.None?))
  }

  function Run(b: Budget, states: seq<ReconcileState>): Budget {
    if states == [] then b else Reconciled(Run(b, states[..|states| - 1]), states[|states| - 1])
  }

  /** Over any run the budget is either the original or its relaxed form with the original saved; which
      of the two depends on the last state only. So no run loses the original. */
  lemma {:induction false} OriginalIsNeverLost(b: Budget, states: seq<ReconcileState>)
    requires Original(b)
    ensures Run(b, states) == if states != [] && states[|states| - 1] == StateIn then Save(b) else b
    ensures Marked(Save(b).annotations) && Save(b) != b
    ensures Cleaned(Save(b).annotations) == b.annotations
    ensures Save(b).maxUnavailable == (if b.maxUnavailable.Some? then Some(StrVal("100%")) else None)
    ensures Save(b).minAvailable == (if b.minAvailable.Some? then Some(IntVal(0)) else None)
  {
    KeysAreDistinct();
    assert Marked(Save(b).annotations);
    if b.maxUnavailable.Some? { BudgetValuesSurvive(b.maxUnavailable.value); ParseOfPrint(b.maxUnavailable.value); }
    if b.minAvailable.Some? { BudgetValuesSurvive(b.minAvailable.value); ParseOfPrint(b.minAvailable.value); }
    if states != [] {
      OriginalIsNeverLost(b, states[..|states| - 1]);
      BudgetIsRestoredIff(b, StateOut);
    }
  }

  // ---------------------------------------------------------------- pod annotations

  /** The pod template of the owning workload, or the failure to read it. */
  datatype Template = Unreadable | Template(annotations: Annotations)

  function Stripped(a: Annotations): Annotations {
    if a.Keys !! DoNotDisruptKeys() then a else (a - DoNotDisruptKeys())[MODIFIED := TRUE_VALUE]
  }

  /** Stripping, key by key: the three do-not-disrupt annotations go, the marker is set if there was one of them, and
      every other annotation stays. */
  lemma StrippedIs(a: Annotations, k: string)
    ensures var any := "cluster-autoscaler.kubernetes.io/safe-to-evict" in a || "karpenter.sh/do-not-evict" in a ||
                       "karpenter.sh/do-not-disrupt" in a;
            var kept := if k in a then Some(a[k]) else None;
            (if k in Stripped(a) then Some(Stripped(a)[k]) else None) ==
            if any && k == MODIFIED then Some("true")
            else if k == "cluster-autoscaler.kubernetes.io/safe-to-evict" || k == "karpenter.sh/do-not-evict" ||
                    k == "karpenter.sh/do-not-disrupt" then None
            else kept
  {
    KeysAreDistinct();
    assert (a.Keys !! DoNotDisruptKeys()) <==>
           SAFE_TO_EVICT !in a && DO_NOT_EVICT !in a && DO_NOT_DISRUPT !in a by {
      assert SAFE_TO_EVICT in a.Keys <==> SAFE_TO_EVICT in a;
      assert DO_NOT_EVICT in a.Keys <==> DO_NOT_EVICT in a;
      assert DO_NOT_DISRUPT in a.Keys <==> DO_NOT_DISRUPT in a;
    }
  }

  /** The blocking annotations of the template. */
  function Blocking(a: Annotations): Annotations {
    map k | k in a && k in DoNotDisruptKeys() :: a[k]
  }

  function PodReconciled(a: Annotations, template: Template, state: ReconcileState): Annotations {
    match state
    case StateIn => if Marked(a) then a else Stripped(a)
    case _ =>
      if !Marked(a) || template.Unreadable? then a
      else (a + Blocking(template.annotations)) - {MODIFIED}
  }

  class Pod {
    var annotations: Annotations

    /** Delete the blocking annotations, visiting the keys in any order. */
    method StripKeys() returns (modified: bool)
      modifies this
      ensures annotations == old(annotations) - DoNotDisruptKeys()
      ensures modified <==> !(old(annotations).Keys !! DoNotDisruptKeys())
    {
      modified := false;
      var keys := DoNotDisruptKeys();
      while keys != {}
        invariant keys <= DoNotDisruptKeys()
        invariant annotations == old(annotations) - (DoNotDisruptKeys() - keys)
        invariant modified <==> !(old(annotations).Keys !! (DoNotDisruptKeys() - keys))
      {
        var key :| key in keys;
        keys := keys - {key};
        if key in annotations {
          annotations := annotations - {key};
          modified := true;
        }
      }
    }

    /** Copy the blocking annotations of the template, visiting the keys in any order. */
    method CopyKeys(template: Annotations)
      modifies this
      ensures annotations == old(annotations) + Blocking(template)
    {
      var keys := DoNotDisruptKeys();
      while keys != {}
        invariant keys <= DoNotDisruptKeys()
        invariant annotations == old(annotations) + (Blocking(template) - keys)
      {
        var key :| key in keys;
        keys := keys - {key};
        if key in template {
          annotations := annotations[key := template[key]];
        }
      }
    }

    /** reconcilePod without the API write; `ok` is false when the template cannot be read. */
    method Reconcile(template: Template, state: ReconcileState) returns (modified: bool, ok: bool)
      modifies this
      ensures annotations == PodReconciled(old(annotations), template, state)
      ensures !modified ==> annotations == old(annotations)
      ensures ok <==> !(state != StateIn && Marked(old(annotations)) && template.Unreadable?)
    {
      modified, ok := false, true;
      match state
      case StateIn =>
        if !Marked(annotations) {
          modified := StripKeys();
          if modified {
            annotations := annotations[MODIFIED := TRUE_VALUE];
          } else {
            assert annotations == old(annotations);
          }
        }
      case _ =>
        if Marked(annotations) {
          if template.Unreadable? { return false, false; }
          CopyKeys(template.annotations);
          annotations := annotations - {MODIFIED};
          modified := true;
        }
    }
  }

  /** A pod gets its annotations back, exactly, if and only if it had nothing to strip, or it carried
      exactly the blocking annotations of its template and no marker of any kind. */
  lemma PodIsRestoredIff(a: Annotations, template: Annotations, leave: ReconcileState)
    requires !Marked(a) && leave != StateIn
    ensures PodReconciled(PodReconciled(a, Template(template), StateIn), Template(template), leave) == a <==>
            (a.Keys !! DoNotDisruptKeys()) || (Blocking(a) == Blocking(template) && MODIFIED !in a)
  {
    KeysAreDistinct();
    if !(a.Keys !! DoNotDisruptKeys()) {
      var s := Stripped(a);
      assert Marked(s);
      var r := (s + Blocking(template)) - {MODIFIED};
      assert PodReconciled(s, Template(template), leave) == r;
      assert Blocking(r) == Blocking(template);
      if Blocking(a) == Blocking(template) && MODIFIED !in a {
        assert forall k :: k in a && k in DoNotDisruptKeys() ==> k in Blocking(a) && Blocking(a)[k] == a[k];
        assert r == a;
      }
    }
  }

  /** A pod that was annotated itself, not through its template, loses its protection for good. */
  lemma OwnAnnotationIsLost(leave: ReconcileState)
    requires leave != StateIn
    ensures var a: Annotations := map[DO_NOT_DISRUPT := "true"];
            PodReconciled(PodReconciled(a, Template(map[]), StateIn), Template(map[]), leave) == map[]
  {
    KeysAreDistinct();
    var a: Annotations := map[DO_NOT_DISRUPT := "true"];
    assert DO_NOT_DISRUPT in a.Keys && DO_NOT_DISRUPT in DoNotDisruptKeys();
    assert Stripped(a) == map[MODIFIED := TRUE_VALUE];
    assert Blocking(map[]) == map[];
  }

  /** Repeated ticks inside a window change nothing after the first one. */
  lemma StrippingIsIdempotent(a: Annotations, template: Template)
    ensures PodReconciled(PodReconciled(a, template, StateIn), template, StateIn) == PodReconciled(a, template, StateIn)
  {
    if !Marked(a) && !(a.Keys !! DoNotDisruptKeys()) {
      assert Marked(Stripped(a));
    }
  }

  /** A template that cannot be read changes nothing, marker included, so the next tick restores all the same. */
  lemma UnreadableTemplateIsRetried(a: Annotations, template: Annotations, leave: ReconcileState)
    requires leave != StateIn
    ensures PodReconciled(a, Unreadable, leave) == a
    ensures Marked(a) ==>
              PodReconciled(PodReconciled(a, Unreadable, leave), Template(template), leave) ==
              (a + Blocking(template)) - {MODIFIED}
  {
  }

  function PodRun(a: Annotations, template: Template, states: seq<ReconcileState>): Annotations {
    if states == [] then a
    else PodReconciled(PodRun(a, template, states[..|states| - 1]), template, states[|states| - 1])
  }

  /** Over any run a pod that carries the blocking annotations of its template, and no marker, has its own annotations
      or the stripped ones, by the last state alone. */
  lemma {:induction false} PodIsNeverLost(a: Annotations, template: Annotations, states: seq<ReconcileState>)
    requires Blocking(a) == Blocking(template) && MODIFIED !in a
    ensures PodRun(a, Template(template), states) ==
            if states != [] && states[|states| - 1] == StateIn then Stripped(a) else a
  {
    if states != [] {
      PodIsNeverLost(a, template, states[..|states| - 1]);
      StrippingIsIdempotent(a, Template(template));
      PodIsRestoredIff(a, template, StateOut);
    }
  }
}
