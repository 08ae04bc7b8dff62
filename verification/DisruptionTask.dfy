/** One run of the disruption task: writing through the API server, and workloads that share a budget. */
module DisruptionTask {
  import opened Prelude
  import opened Sequences
  import opened CronWindow
  import opened Disruption
  import opened DisruptionRuns
  import Workloads

  // ---------------------------------------------------------------- writing a budget back

  /** What other clients do to the object between the read and the write of one attempt. */
  datatype Interference = Nothing | Put(budget: Budget) | Delete

  datatype Result = Unchanged | Updated | GaveUp | Failed

  datatype WriteResult = Written | Conflict | NotFound

  /** The stored budgets; every write changes the version of its object. */
  class ApiServer {
    var budgets: map<string, Budget>
    var versions: map<string, nat>

    ghost predicate Valid() reads this { budgets.Keys <= versions.Keys }

    function Stored(name: string): Option<Budget> reads this { Lookup(budgets, name) }

    /** Update with optimistic concurrency. */
    method Write(name: string, b: Budget, version: nat) returns (r: WriteResult)
      requires Valid()
      modifies this
      ensures Valid()
      ensures r == if name !in old(budgets) then NotFound else if old(versions)[name] != version then Conflict
              else Written
      ensures budgets == if r == Written then old(budgets)[name := b] else old(budgets)
    {
      if name !in budgets { return NotFound; }
      if versions[name] != version { return Conflict; }
      budgets, versions := budgets[name := b], versions[name := version + 1];
      return Written;
    }

    method Interfere(name: string, i: Interference)
      requires Valid() && name in budgets
      modifies this
      ensures Valid()
      ensures budgets == match i case Nothing => old(budgets) case Put(b) => old(budgets)[name := b]
                                 case Delete => old(budgets) - {name}
      ensures i.Put? ==> versions[name] != old(versions)[name]
      ensures i.Nothing? ==> versions == old(versions)
    {
      match i
      case Nothing =>
      case Put(b) => budgets, versions := budgets[name := b], versions[name := versions[name] + 1];
      case Delete => budgets := budgets - {name};
    }
  }

  function AfterInterference(b: Budget, i: Interference): Option<Budget> {
    match i case Nothing => Some(b) case Put(e) => Some(e) case Delete => None
  }

  /** Retrying on conflict, as atomic steps: each attempt reconciles what it reads, and its write takes effect only
      when nobody wrote in between. An attempt with nothing to change ends at once. */
  function Outcome(current: Option<Budget>, state: ReconcileState, others: seq<Interference>): (Option<Budget>, Result)
    decreases |others|
  {
    if others == [] then (current, GaveUp)
    else if current.None? then (current, Failed)
    else if Reconciled(current.value, state) == current.value then
      (AfterInterference(current.value, others[0]), Unchanged)
    else match others[0]
      case Nothing => (Some(Reconciled(current.value, state)), Updated)
      case Put(e) => Outcome(Some(e), state, others[1..])
      case Delete => (None, Failed)
  }

  predicate SameElsewhere(before: map<string, Budget>, after: map<string, Budget>, name: string) {
    before - {name} == after - {name}
  }

  /** reconcilePDB with one attempt per element of `others`. */
  method ReconcileBudget(server: ApiServer, name: string, state: ReconcileState, others: seq<Interference>)
    returns (result: Result)
    requires server.Valid()
    modifies server
    ensures server.Valid()
    ensures (server.Stored(name), result) == Outcome(old(server.Stored(name)), state, others)
    ensures SameElsewhere(old(server.budgets), server.budgets, name)
  {
    for k := 0 to |others|
      invariant server.Valid()
      invariant Outcome(old(server.Stored(name)), state, others) == Outcome(server.Stored(name), state, others[k..])
      invariant SameElsewhere(old(server.budgets), server.budgets, name)
    {
      if name !in server.budgets { return Failed; }
      var read, version := server.budgets[name], server.versions[name];
      var cur := new PodDisruptionBudget(read);
      var modified := cur.ApplyReconcileState(state);
      assert modified <==> Reconciled(read, state) != read;
      server.Interfere(name, others[k]);
      if !modified { return Unchanged; }
      var written := server.Write(name, Budget(cur.annotations, cur.maxUnavailable, cur.minAvailable), version);
      match written
      case Written => return Updated;
      case NotFound => return Failed;
      case Conflict => assert others[k..][1..] == others[k + 1..];
    }
    return GaveUp;
  }

  /** What the object holds after the given writes of others. */
  function Latest(b: Budget, others: seq<Interference>): Budget {
    if others == [] then b
    else if others[|others| - 1].Put? then others[|others| - 1].budget
    else Latest(b, others[..|others| - 1])
  }

  /** Attempt `k` is the first without interference, and stores the reconciled form of the latest value. */
  predicate UpdatesAt(b: Budget, state: ReconcileState, others: seq<Interference>, k: int, after: Option<Budget>) {
    0 <= k < |others| && others[k].Nothing? && (forall i :: 0 <= i < k ==> others[i].Put?) &&
    after == Some(Reconciled(Latest(b, others[..k]), state)) && after != Some(Latest(b, others[..k]))
  }

  /** The reconciler changes a budget only in an attempt without interference, and what it stores is computed from the
      latest value. If it gives up, every attempt met a foreign write, and the last one stands. */
  lemma {:induction false} StoredFromLatest(b: Budget, state: ReconcileState, others: seq<Interference>)
    ensures var r := Outcome(Some(b), state, others);
      && (r.1 == Updated ==> exists k :: UpdatesAt(b, state, others, k, r.0))
      && (r.1 == GaveUp ==> r.0 == Some(Latest(b, others)) && forall k :: 0 <= k < |others| ==> others[k].Put?)
    decreases |others|
  {
    if others != [] && Reconciled(b, state) != b {
      if others[0].Nothing? {
        assert others[..0] == [];
        assert UpdatesAt(b, state, others, 0, Outcome(Some(b), state, others).0);
      } else if others[0].Put? {
        var e := others[0].budget;
        StoredFromLatest(e, state, others[1..]);
        LatestSkipsFirst(b, e, others);
        var r := Outcome(Some(e), state, others[1..]);
        assert forall i :: 0 < i < |others| ==> others[i] == others[1..][i - 1];
        if r.1 == Updated {
          var k :| UpdatesAt(e, state, others[1..], k, r.0);
          assert others[..k + 1][1..] == others[1..][..k];
          LatestSkipsFirst(b, e, others[..k + 1]);
          assert UpdatesAt(b, state, others, k + 1, r.0);
        }
      }
    }
  }

  lemma {:induction false} LatestSkipsFirst(b: Budget, e: Budget, others: seq<Interference>)
    requires others != [] && others[0] == Put(e)
    ensures Latest(b, others) == Latest(e, others[1..])
  {
    var n := |others| - 1;
    if n > 0 {
      assert others[1..][..n - 1] == others[..n][1..];
      LatestSkipsFirst(b, e, others[..n]);
    }
  }

  // ---------------------------------------------------------------- the workload loop

  /** One stored workload: whether it is marked as blocking consolidation and still exists, and the budgets
      selecting its pods. */
  datatype Entry = Entry(blocking: bool, windows: seq<Window>, found: bool, hasBudget: bool, budgets: set<string>)

  function EffectiveState(w: Entry, now: int, period: int): ReconcileState { StateAt(w.windows, now, period) }

  predicate ActsOn(w: Entry, name: string) { w.blocking && w.found && w.hasBudget && name in w.budgets }

  /** The states one run applies to a budget, in workload order. */
  function TickStates(ws: seq<Entry>, name: string, now: int, period: int): seq<ReconcileState> {
    if ws == [] then [] else
      var before, w := TickStates(ws[..|ws| - 1], name, now, period), ws[|ws| - 1];
      if ActsOn(w, name) then before + [EffectiveState(w, now, period)] else before
  }

  function Lookup(budgets: map<string, Budget>, name: string): Option<Budget> {
    if name in budgets then Some(budgets[name]) else None
  }

  /** What other clients do while workload `i` reconciles a budget, attempt by attempt. */
  type Interferences = (nat, string) -> seq<Interference>

  /** What one run leaves of a budget. */
  function StoredAfter(b: Option<Budget>, ws: seq<Entry>, name: string, now: int, period: int,
                       others: Interferences): Option<Budget> {
    if ws == [] then b
    else
      var n, before := |ws| - 1, StoredAfter(b, ws[..|ws| - 1], name, now, period, others);
      if ActsOn(ws[n], name) then Outcome(before, EffectiveState(ws[n], now, period), others(n, name)).0 else before
  }

  /** The budget part of Run, with other clients writing at the same time. */
  method RunOnce(server: ApiServer, ws: seq<Entry>, now: int, period: int, others: Interferences)
    requires server.Valid()
    modifies server
    ensures server.Valid()
    ensures forall n :: Lookup(server.budgets, n) ==
              StoredAfter(Lookup(old(server.budgets), n), ws, n, now, period, others)
  {
    for i := 0 to |ws|
      invariant server.Valid()
      invariant forall n :: Lookup(server.budgets, n) ==
                  StoredAfter(Lookup(old(server.budgets), n), ws[..i], n, now, period, others)
    {
      assert ws[..i + 1][..i] == ws[..i];
      if !ws[i].blocking { continue; }
      var state := StateOut;
      if |ws[i].windows| > 0 {
        state := ComputeStateFromWindows(ws[i].windows, now, period);
      }
      if !ws[i].found { continue; }
      if ws[i].hasBudget { ReconcileAll(server, ws[i].budgets, state, i, others); }
    }
    assert ws[..|ws|] == ws;
  }

  /** The budgets matched by one workload, in any order. */
  method ReconcileAll(server: ApiServer, names: set<string>, state: ReconcileState, i: nat, others: Interferences)
    requires server.Valid()
    modifies server
    ensures server.Valid()
    ensures forall n :: Lookup(server.budgets, n) ==
              if n in names then Outcome(Lookup(old(server.budgets), n), state, others(i, n)).0
              else Lookup(old(server.budgets), n)
  {
    var left := names;
    while left != {}
      invariant left <= names && server.Valid()
      invariant forall n :: Lookup(server.budgets, n) ==
                  if n in names - left then Outcome(Lookup(old(server.budgets), n), state, others(i, n)).0
                  else Lookup(old(server.budgets), n)
    {
      var name := AnyOf(left);
      ghost var before := server.budgets;
      var _ := ReconcileBudget(server, name, state, others(i, name));
      SameLookups(before, server.budgets, name);
      left := left - {name};
    }
  }

  lemma SameLookups(before: map<string, Budget>, after: map<string, Budget>, name: string)
    requires SameElsewhere(before, after, name)
    ensures forall n :: n != name ==> Lookup(after, n) == Lookup(before, n)
  {
    forall n | n != name ensures Lookup(after, n) == Lookup(before, n) {
      assert n in after - {name} <==> n in after;
      assert n in before - {name} <==> n in before;
    }
  }

  /** When the first attempt on a budget is always undisturbed, a run applies its states one after the other. */
  lemma {:induction false} QuietRunAppliesStates(b: Budget, ws: seq<Entry>, name: string, now: int, period: int,
                                                 others: Interferences)
    requires forall i :: 0 <= i < |ws| ==> others(i, name) != [] && others(i, name)[0].Nothing?
    ensures StoredAfter(Some(b), ws, name, now, period, others) == Some(Run(b, TickStates(ws, name, now, period)))
  {
    if ws != [] {
      var n := |ws| - 1;
      QuietRunAppliesStates(b, ws[..n], name, now, period, others);
      assert others(n, name)[0].Nothing?;
      RunPush(b, TickStates(ws[..n], name, now, period), EffectiveState(ws[n], now, period));
    }
  }

  /** A workload without blocking pods, or one that is gone, has no budgets or does not select this one, leaves it
      alone, whatever else happens. */
  lemma {:induction false} IdleWorkloadsLeaveBudgets(b: Option<Budget>, ws: seq<Entry>, name: string, now: int,
                                                     period: int, others: Interferences)
    requires forall i :: 0 <= i < |ws| ==>
               !(ws[i].blocking && ws[i].found && ws[i].hasBudget && name in ws[i].budgets)
    ensures StoredAfter(b, ws, name, now, period, others) == b && TickStates(ws, name, now, period) == []
  {
    if ws != [] { IdleWorkloadsLeaveBudgets(b, ws[..|ws| - 1], name, now, period, others); }
  }

  lemma RunPush(b: Budget, states: seq<ReconcileState>, s: ReconcileState)
    ensures Run(b, states + [s]) == Reconciled(Run(b, states), s)
  {
    assert (states + [s])[..|states|] == states;
  }

  /** The last workload in the list that acts on a budget. */
  function LastActing(ws: seq<Entry>, name: string): Option<Entry> {
    if ws == [] then None
    else if ActsOn(ws[|ws| - 1], name) then Some(ws[|ws| - 1])
    else LastActing(ws[..|ws| - 1], name)
  }

  lemma {:induction false} TickStatesEnd(ws: seq<Entry>, name: string, now: int, period: int)
    ensures var states, last := TickStates(ws, name, now, period), LastActing(ws, name);
            if last.None? then states == []
            else states != [] && states[|states| - 1] == EffectiveState(last.value, now, period)
  {
    if ws != [] && !ActsOn(ws[|ws| - 1], name) {
      TickStatesEnd(ws[..|ws| - 1], name, now, period);
    }
  }

  /** Workloads that share a budget are not weighed against each other: whatever happened before, after a run the
      budget is relaxed if and only if the last of them in the list is well inside a window. */
  lemma LastWorkloadDecides(b: Budget, history: seq<ReconcileState>, ws: seq<Entry>, name: string, now: int,
                            period: int)
    requires Original(b) && LastActing(ws, name).Some?
    ensures Run(b, history + TickStates(ws, name, now, period)) != b <==>
            EffectiveState(LastActing(ws, name).value, now, period) == StateIn
  {
    TickStatesEnd(ws, name, now, period);
    OriginalIsNeverLost(b, history + TickStates(ws, name, now, period));
  }

  /** The states applied to a budget by the runs at ticks 0..k. */
  function History(ws: seq<Entry>, name: string, first: int, period: int, k: nat): seq<ReconcileState> {
    (if k == 0 then [] else History(ws, name, first, period, k - 1)) +
    TickStates(ws, name, Tick(first, period, k), period)
  }

  /** Between tick k and the next one, `t` included, the budget is relaxed. */
  predicate SharedRelaxedAt(b: Budget, ws: seq<Entry>, name: string, period: int, first: int, k: nat, t: int) {
    Tick(first, period, k) <= t < Tick(first, period, k + 1) && Run(b, History(ws, name, first, period, k)) != b
  }

  /** Every workload that acts on the budget is inside one of its windows. */
  predicate AllIn(ws: seq<Entry>, name: string, t: int) {
    forall i :: 0 <= i < |ws| && ActsOn(ws[i], name) ==> In(ws[i].windows, t)
  }

  /** No workload ever has its budget relaxed outside its own windows. */
  ghost predicate SharedIsSafe(b: Budget, ws: seq<Entry>, name: string, period: int) {
    forall first, k, t :: SharedRelaxedAt(b, ws, name, period, first, k, t) ==> AllIn(ws, name, t)
  }

  /** Safety of a shared budget over all runs and instants: it holds if and only if all its workloads are inside
      throughout every period at whose two ends the last of them is inside. */
  lemma SharedBudgetIsSafeIff(b: Budget, ws: seq<Entry>, name: string, period: int)
    requires Original(b) && period > 0 && LastActing(ws, name).Some?
    ensures SharedIsSafe(b, ws, name, period) <==>
            forall s, x :: Spans(LastActing(ws, name).value.windows, period, s) && s <= x < s + period ==>
              AllIn(ws, name, x)
  {
    var last := LastActing(ws, name).value;
    if forall s, x :: Spans(last.windows, period, s) && s <= x < s + period ==> AllIn(ws, name, x) {
      forall first, k, t | SharedRelaxedAt(b, ws, name, period, first, k, t) ensures AllIn(ws, name, t) {
        SharedFollowsLast(b, ws, name, first, period, k);
        assert Spans(last.windows, period, Tick(first, period, k));
      }
    }
    if SharedIsSafe(b, ws, name, period) {
      forall s, x | Spans(last.windows, period, s) && s <= x < s + period ensures AllIn(ws, name, x) {
        SharedFollowsLast(b, ws, name, s, period, 0);
        assert Tick(s, period, 1) == Tick(s, period, 0) + period;
        assert SharedRelaxedAt(b, ws, name, period, s, 0, x);
      }
    }
  }

  lemma SharedFollowsLast(b: Budget, ws: seq<Entry>, name: string, first: int, period: int, k: nat)
    requires Original(b) && LastActing(ws, name).Some?
    ensures Run(b, History(ws, name, first, period, k)) != b <==>
            EffectiveState(LastActing(ws, name).value, Tick(first, period, k), period) == StateIn
  {
    var before := if k == 0 then [] else History(ws, name, first, period, k - 1);
    LastWorkloadDecides(b, before, ws, name, Tick(first, period, k), period);
  }

  lemma LastSpanRelaxesAll(b: Budget, w: Entry, last: Entry, name: string, period: int, s: int)
    requires Original(b) && period > 0 && ActsOn(w, name) && ActsOn(last, name)
    requires !In(w.windows, s) && Spans(last.windows, period, s)
    ensures SharedRelaxedAt(b, [w, last], name, period, s, 0, s) && !AllIn([w, last], name, s)
  {
    SharedFollowsLast(b, [w, last], name, s, period, 0);
    assert Tick(s, period, 1) == Tick(s, period, 0) + period;
    assert [w, last][0] == w;
  }

  lemma OpenAtThree()
    ensures Spans([Window(Some(Daily(2)), Some(Daily(6)))], 1, 3)
  {
    var daily := Window(Some(Daily(2)), Some(Daily(6)));
    NextTwoAndSix();
    assert InEvictionWindow([daily][0], 3) && InEvictionWindow([daily][0], 4);
  }

  lemma NextTwoAndSix()
    ensures Daily(2)(3) == 26 && Daily(6)(3) == 6 && Daily(2)(4) == 26 && Daily(6)(4) == 6
  {
    DailyAt(2, 3);
    DailyAt(6, 3);
    DailyAt(2, 4);
    DailyAt(6, 4);
  }

  /** A workload without windows that shares its budget with one that may be disrupted every day from 2 to 6: at 3 the
      budget is relaxed for both. */
  lemma SharedBudgetLeaks(b: Budget, name: string)
    requires Original(b)
    ensures var daily := Window(Some(Daily(2)), Some(Daily(6)));
            var ws := [Entry(true, [], true, true, {name}), Entry(true, [daily], true, true, {name})];
            SharedRelaxedAt(b, ws, name, 1, 3, 0, 3) && !AllIn(ws, name, 3)
  {
    var daily := Window(Some(Daily(2)), Some(Daily(6)));
    OpenAtThree();
    LastSpanRelaxesAll(b, Entry(true, [], true, true, {name}), Entry(true, [daily], true, true, {name}), name, 1, 3);
  }

  // ---------------------------------------------------------------- the pod loop

  /** The value that makes a do-not-disrupt annotation blocking. */
  function BlockingValue(key: string): string { if key == SAFE_TO_EVICT then "false" else "true" }

  predicate Blocks(a: Annotations) {
    exists k :: k in DoNotDisruptKeys() && k in a && Workloads.EqualFold(a[k], BlockingValue(k))
  }

  /** The loop skips a pod that neither blocks nor is marked. */
  function TaskReconciled(a: Annotations, template: Template, state: ReconcileState): Annotations {
    if !Blocks(a) && !Marked(a) then a else PodReconciled(a, template, state)
  }

  method HasBlockingAnnotations(a: Annotations) returns (blocks: bool)
    ensures blocks <==> Blocks(a)
    ensures blocks <==>
            (SAFE_TO_EVICT in a && Workloads.EqualFold(a[SAFE_TO_EVICT], "false")) ||
            (DO_NOT_EVICT in a && Workloads.EqualFold(a[DO_NOT_EVICT], "true")) ||
            (DO_NOT_DISRUPT in a && Workloads.EqualFold(a[DO_NOT_DISRUPT], "true"))
  {
    KeysAreDistinct();
    var keys := DoNotDisruptKeys();
    while keys != {}
      invariant keys <= DoNotDisruptKeys()
      invariant forall k :: k in DoNotDisruptKeys() - keys && k in a ==> !Workloads.EqualFold(a[k], BlockingValue(k))
    {
      var key := AnyOf(keys);
      if key in a && Workloads.EqualFold(a[key], BlockingValue(key)) { return true; }
      keys := keys - {key};
    }
    return false;
  }

  method ReconcileListedPod(pod: Pod, template: Template, state: ReconcileState)
    modifies pod
    ensures pod.annotations == TaskReconciled(old(pod.annotations), template, state)
  {
    var blocks := HasBlockingAnnotations(pod.annotations);
    if !blocks && !Marked(pod.annotations) { return; }
    var _, _ := pod.Reconcile(template, state);
  }

  /** Through the pod loop, a pod gets its annotations back, exactly, if and only if it did not block, or it carried the
      blocking annotations of its template and no marker. */
  lemma ListedPodIsRestoredIff(a: Annotations, template: Annotations, leave: ReconcileState)
    requires !Marked(a) && leave != StateIn
    ensures TaskReconciled(TaskReconciled(a, Template(template), StateIn), Template(template), leave) == a <==>
            !Blocks(a) || (Blocking(a) == Blocking(template) && MODIFIED !in a)
  {
    if Blocks(a) {
      var k :| k in DoNotDisruptKeys() && k in a && Workloads.EqualFold(a[k], BlockingValue(k));
      assert k in a.Keys;
      KeysAreDistinct();
      assert Marked(Stripped(a));
      PodIsRestoredIff(a, template, leave);
    }
  }

  /** The webhook strips every do-not-disrupt key; the pod loop leaves pods alone whose values do not block. They agree
      exactly when there is nothing to strip, or the pod blocks and is unmarked. */
  lemma TaskAgreesWithWebhookIff(a: Annotations, template: Template)
    ensures Stripped(a) == TaskReconciled(a, template, StateIn) <==>
            a.Keys !! DoNotDisruptKeys() || (!Marked(a) && Blocks(a))
  {
    if !(a.Keys !! DoNotDisruptKeys()) {
      var k :| k in a.Keys && k in DoNotDisruptKeys();
      KeysAreDistinct();
      assert k !in Stripped(a);
    }
  }

  /** A pod marked safe to evict: the webhook strips the annotation, the pod loop leaves the pod alone. */
  lemma HarmlessAnnotationIsStripped(template: Template)
    ensures var a: Annotations := map[SAFE_TO_EVICT := "true"];
            !Marked(a) && TaskReconciled(a, template, StateIn) == a && Stripped(a) == map[MODIFIED := TRUE_VALUE]
  {
    KeysAreDistinct();
    var a: Annotations := map[SAFE_TO_EVICT := "true"];
    assert SAFE_TO_EVICT in a.Keys && SAFE_TO_EVICT in DoNotDisruptKeys();
    assert !Workloads.EqualFold("true", "false");
  }
}
