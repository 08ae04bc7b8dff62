/** Disruption budgets that other clients edit while the reconciler relaxes and restores them. */
module ForeignEdits {
  import opened Prelude
  import opened Decimal
  import opened Disruption

  function OwnKeys(): set<string> { {PDB_MAX_UNAVAILABLE, PDB_MIN_AVAILABLE, MODIFIED} }

  /** The three annotations of the reconciler are as they were. */
  predicate SameOwn(x: Annotations, y: Annotations) {
    forall k :: k in OwnKeys() ==> (k in x <==> k in y) && (k in x ==> x[k] == y[k])
  }

  /** Whatever a client writes into a relaxed budget, leaving its marker and saved value alone: further ticks inside the
      window leave it as it is, and the tick that leaves the window keeps the client's annotations and replaces the
      fields by the original ones. */
  lemma EditOfRelaxedBudget(b: Budget, e: Budget, leave: ReconcileState)
    requires Original(b) && SameOwn(e.annotations, Save(b).annotations)
    ensures Reconciled(e, StateIn) == e
    ensures leave != StateIn ==>
              Reconciled(e, leave) == Budget(Cleaned(e.annotations), b.maxUnavailable, b.minAvailable)
  {
    KeysAreDistinct();
    OriginalIsNeverLost(b, []);
    var s := Save(b).annotations;
    assert MODIFIED in OwnKeys() && PDB_MAX_UNAVAILABLE in OwnKeys() && PDB_MIN_AVAILABLE in OwnKeys();
    assert Marked(e.annotations);
    if b.maxUnavailable.Some? {
      BudgetValuesSurvive(b.maxUnavailable.value);
      assert s[PDB_MAX_UNAVAILABLE] == Print(b.maxUnavailable.value);
    } else {
      BudgetValuesSurvive(b.minAvailable.value);
      assert PDB_MAX_UNAVAILABLE !in s && s[PDB_MIN_AVAILABLE] == Print(b.minAvailable.value);
    }
  }

  /** So a client that sets a field of a relaxed budget finds the old value again once the window closes. */
  lemma FieldEditIsDiscarded(b: Budget, v: IntOrString, leave: ReconcileState)
    requires Original(b) && leave != StateIn
    ensures b.maxUnavailable.Some? ==> Reconciled(Save(b).(maxUnavailable := Some(v)), leave) == b
    ensures b.minAvailable.Some? ==> Reconciled(Save(b).(minAvailable := Some(v)), leave) == b
  {
    OriginalIsNeverLost(b, []);
    EditOfRelaxedBudget(b, Save(b).(maxUnavailable := Some(v)), leave);
    EditOfRelaxedBudget(b, Save(b).(minAvailable := Some(v)), leave);
  }

  // ---------------------------------------------------------------- runs with edits

  datatype Event = Tick(state: ReconcileState) | Edit(budget: Budget)

  /** A budget during such a run: what is stored, what the next tick outside the windows makes of it, and whether it is
      relaxed. Edits of a relaxed budget reach the annotations of the restored one only. */
  datatype Tracked = Tracked(stored: Budget, restored: Budget, relaxed: bool)

  function After(b: Budget, events: seq<Event>): Tracked {
    if events == [] then Tracked(b, b, false)
    else
      var t := After(b, events[..|events| - 1]);
      match events[|events| - 1]
      case Tick(state) => Tracked(Reconciled(t.stored, state), t.restored, state == StateIn)
      case Edit(e) =>
        Tracked(e,
                if t.relaxed
                then Budget(Cleaned(e.annotations), t.restored.maxUnavailable, t.restored.minAvailable) else e,
                t.relaxed)
  }

  /** Clients leave the marker and the saved value of a relaxed budget alone, and otherwise write what the API server
      admits, without annotations of the reconciler. */
  predicate Admissible(b: Budget, events: seq<Event>) {
    if events == [] then true
    else
      var init, last := events[..|events| - 1], events[|events| - 1];
      Admissible(b, init) &&
      (last.Edit? ==>
         if After(b, init).relaxed then SameOwn(last.budget.annotations, After(b, init).stored.annotations)
         else Original(last.budget))
  }

  /** What an admissible run keeps. */
  ghost predicate Consistent(t: Tracked) {
    Original(t.restored) &&
    if t.relaxed then
      SameOwn(t.stored.annotations, Save(t.restored).annotations) &&
      Cleaned(t.stored.annotations) == t.restored.annotations
    else t.stored == t.restored
  }

  lemma TickKeepsConsistent(t: Tracked, state: ReconcileState)
    requires Consistent(t)
    ensures Consistent(Tracked(Reconciled(t.stored, state), t.restored, state == StateIn))
    ensures state != StateIn ==> Reconciled(t.stored, state) == t.restored
  {
    OriginalIsNeverLost(t.restored, []);
    if t.relaxed {
      EditOfRelaxedBudget(t.restored, t.stored, state);
    } else {
      OriginalIsNeverLost(t.restored, [state]);
      NoRunYet(t.restored, state);
    }
  }

  lemma NoRunYet(b: Budget, state: ReconcileState)
    ensures Run(b, [state]) == Reconciled(b, state)
  {
    assert [state][..0] == [];
  }

  lemma EditKeepsConsistent(t: Tracked, e: Budget)
    requires Consistent(t)
    requires if t.relaxed then SameOwn(e.annotations, t.stored.annotations) else Original(e)
    ensures t.relaxed ==>
              var restored := Budget(Cleaned(e.annotations), t.restored.maxUnavailable, t.restored.minAvailable);
              Consistent(Tracked(e, restored, true))
    ensures !t.relaxed ==> Consistent(Tracked(e, e, false))
  {
    if t.relaxed {
      var restored := Budget(Cleaned(e.annotations), t.restored.maxUnavailable, t.restored.minAvailable);
      KeysAreDistinct();
      forall k | k in OwnKeys()
        ensures k in Save(restored).annotations <==> k in Save(t.restored).annotations
        ensures k in Save(restored).annotations ==> Save(restored).annotations[k] == Save(t.restored).annotations[k]
      {
      }
    }
  }

  lemma {:induction false} RunIsConsistent(b: Budget, events: seq<Event>)
    requires Original(b) && Admissible(b, events)
    ensures Consistent(After(b, events))
  {
    if events != [] {
      var init, last := events[..|events| - 1], events[|events| - 1];
      RunIsConsistent(b, init);
      match last
      case Tick(state) => TickKeepsConsistent(After(b, init), state);
      case Edit(e) => EditKeepsConsistent(After(b, init), e);
    }
  }

  /** Over any run of ticks and foreign edits: outside the windows the budget is what its clients last made of it, and
      from any point on the first tick outside them restores its fields as they were before it was relaxed, under the
      annotations it has by then. */
  lemma EditsSurviveExceptRelaxedFields(b: Budget, events: seq<Event>, leave: ReconcileState)
    requires Original(b) && Admissible(b, events) && leave != StateIn
    ensures var t := After(b, events);
      && Original(t.restored)
      && (!t.relaxed ==> t.stored == t.restored)
      && (t.relaxed ==> Cleaned(t.stored.annotations) == t.restored.annotations && Marked(t.stored.annotations))
      && Reconciled(t.stored, leave) == t.restored
  {
    RunIsConsistent(b, events);
    var t := After(b, events);
    TickKeepsConsistent(t, leave);
    OriginalIsNeverLost(t.restored, []);
    assert MODIFIED in OwnKeys();
  }
}
