/** The audit recorder as interleaved steps: callers of Record and Close, and the worker that writes. */
module AuditQueue {
  type Event = int

  const DEFAULT_BUFFER_SIZE: nat := 5000

  /** Where a goroutine stands in Record or Close; each name says what its next step does. */
  datatype Call =
    | Idle
    | RecordLock(event: Event)
    | RecordCheck(event: Event)
    | RecordSend(event: Event)
    | RecordUnlock
    | CloseLock
    | CloseCheck
    | CloseChannel
    | CloseUnlock(first: bool)
    | CloseWait

  datatype Worker = Receive | Write(event: Event) | SignalDone | Exited

  /**
   * One moment of a run. `owner` is the goroutine inside the mutex, or -1. `accepted` lists the events the
   * channel took and `handed` those passed to the database, both in order. `panicked` is raised by a send on a
   * closed channel, a second close and an unlock of a free mutex; `drained` once a Close that waited has returned.
   */
  datatype Audit = Audit(
    capacity: nat, calls: seq<Call>, owner: int, closed: bool, channelOpen: bool, queue: seq<Event>,
    worker: Worker, done: bool, accepted: seq<Event>, handed: seq<Event>, drained: bool, panicked: bool)

  datatype Action = Begin(caller: nat, call: Call) | Run(caller: nat) | Work

  function NewAudit(bufferSize: int, callers: nat): (s: Audit)
    ensures s.capacity > 0 && Inv(s)
    ensures s.capacity == (if bufferSize > 0 then bufferSize else 5000)
    ensures s.calls == seq(callers, _ => Idle) && !s.closed && s.queue == s.accepted == []
  {
    Audit(if bufferSize <= 0 then DEFAULT_BUFFER_SIZE else bufferSize, seq(callers, _ => Idle), -1, false, true, [],
          Receive, false, [], [], false, false)
  }

  predicate Enabled(s: Audit, a: Action) {
    !s.panicked &&
    match a
    case Begin(t, call) => t < |s.calls| && s.calls[t].Idle? && (call.RecordLock? || call.CloseLock?)
    case Run(t) =>
      t < |s.calls| && (match s.calls[t]
                        case Idle => false
                        case RecordLock(_) => s.owner == -1
                        case CloseLock => s.owner == -1
                        case CloseWait => s.done
                        case _ => true)
    case Work =>
      (match s.worker
       case Receive => s.queue != [] || !s.channelOpen
       case Exited => false
       case _ => true)
  }

  function Apply(s: Audit, a: Action): Audit
    requires Enabled(s, a)
  {
    match a
    case Begin(t, call) => s.(calls := s.calls[t := call])
    case Run(t) => RunCaller(s, t)
    case Work => RunWorker(s)
  }

  function RunCaller(s: Audit, t: nat): Audit
    requires Enabled(s, Run(t))
  {
    match s.calls[t]
    case RecordLock(e) => s.(calls := s.calls[t := RecordCheck(e)], owner := t)
    case RecordCheck(e) => s.(calls := s.calls[t := if s.closed then RecordUnlock else RecordSend(e)])
    case RecordSend(e) => Send(s.(calls := s.calls[t := RecordUnlock]), e)
    case RecordUnlock => Unlock(s.(calls := s.calls[t := Idle]))
    case CloseLock => s.(calls := s.calls[t := CloseCheck], owner := t)
    case CloseCheck =>
      if s.closed then s.(calls := s.calls[t := CloseUnlock(false)])
      else s.(calls := s.calls[t := CloseChannel], closed := true)
    case CloseChannel =>
      s.(calls := s.calls[t := CloseUnlock(true)], channelOpen := false, panicked := !s.channelOpen)
    case CloseUnlock(first) => Unlock(s.(calls := s.calls[t := if first then CloseWait else Idle]))
    case CloseWait => s.(calls := s.calls[t := Idle], drained := true)
  }

  /** The select with a default branch: send when there is room, drop otherwise. */
  function Send(s: Audit, e: Event): Audit {
    if !s.channelOpen then s.(panicked := true)
    else if |s.queue| < s.capacity then s.(queue := s.queue + [e], accepted := s.accepted + [e])
    else s
  }

  function Unlock(s: Audit): Audit {
    s.(owner := -1, panicked := s.owner == -1)
  }

  function RunWorker(s: Audit): Audit
    requires Enabled(s, Work)
  {
    match s.worker
    case Receive =>
      if s.queue != [] then s.(worker := Write(s.queue[0]), queue := s.queue[1..]) else s.(worker := SignalDone)
    case Write(e) => s.(worker := Receive, handed := s.handed + [e])
    case SignalDone => s.(worker := Exited, done := true, panicked := s.done)
  }

  // ---------------------------------------------------------------- the invariant

  predicate HoldsLock(c: Call) {
    c.RecordCheck? || c.RecordSend? || c.RecordUnlock? || c.CloseCheck? || c.CloseChannel? || c.CloseUnlock?
  }

  /** What the position of one goroutine says about the shared state. */
  predicate CallOk(s: Audit, c: Call) {
    && (c.RecordSend? ==> !s.closed)
    && (c.CloseChannel? ==> s.closed && s.channelOpen)
    && (c.CloseUnlock? ==> s.closed && !s.channelOpen)
    && (c.CloseWait? ==> !s.channelOpen)
  }

  /** The event the worker has taken off the queue and not yet handed over. */
  function InFlight(w: Worker): seq<Event> {
    if w.Write? then [w.event] else []
  }

  predicate Inv(s: Audit) {
    && !s.panicked
    && -1 <= s.owner < |s.calls|
    && (forall t :: 0 <= t < |s.calls| ==> (HoldsLock(s.calls[t]) <==> s.owner == t))
    && (forall t :: 0 <= t < |s.calls| ==> CallOk(s, s.calls[t]))
    && (s.channelOpen <==> !s.closed || (s.owner != -1 && s.calls[s.owner].CloseChannel?))
    && |s.queue| <= s.capacity
    && s.handed + InFlight(s.worker) + s.queue == s.accepted
    && (s.worker.SignalDone? || s.worker.Exited? ==> !s.channelOpen && s.queue == [])
    && (s.done <==> s.worker.Exited?)
    && (s.drained ==> s.done)
  }

  lemma StepKeepsInv(s: Audit, a: Action)
    requires Inv(s) && Enabled(s, a)
    ensures Inv(Apply(s, a))
  {
    match a
    case Begin(t, call) =>
    case Run(t) => CallerKeepsInv(s, t);
    case Work => WorkerKeepsInv(s);
  }

  lemma CallerKeepsInv(s: Audit, t: nat)
    requires Inv(s) && Enabled(s, Run(t))
    ensures Inv(RunCaller(s, t))
  {
    assert CallOk(s, s.calls[t]);
    if s.calls[t].RecordSend? {
      assert s.handed + InFlight(s.worker) + (s.queue + [s.calls[t].event]) == s.accepted + [s.calls[t].event];
    }
  }

  lemma WorkerKeepsInv(s: Audit)
    requires Inv(s) && Enabled(s, Work)
    ensures Inv(RunWorker(s))
  {
    var s2 := RunWorker(s);
    forall t | 0 <= t < |s.calls| ensures CallOk(s2, s2.calls[t]) { assert CallOk(s, s.calls[t]); }
    assert s2.handed + InFlight(s2.worker) + s2.queue == s.handed + InFlight(s.worker) + s.queue;
  }

  // ---------------------------------------------------------------- runs

  /** An interleaving of any number of goroutines. */
  ghost predicate IsExecution(states: seq<Audit>, actions: seq<Action>) {
    && |states| == |actions| + 1
    && forall i :: 0 <= i < |actions| ==>
      Enabled(states[i], actions[i]) && states[i + 1] == Apply(states[i], actions[i])
  }

  /** One that starts from a new recorder. */
  ghost predicate IsRun(states: seq<Audit>, actions: seq<Action>, bufferSize: int, callers: nat) {
    IsExecution(states, actions) && states[0] == NewAudit(bufferSize, callers)
  }

  lemma {:induction false} RunKeepsInv(states: seq<Audit>, actions: seq<Action>, i: nat)
    requires IsExecution(states, actions) && Inv(states[0]) && i < |states|
    ensures Inv(states[i]) && states[i].capacity == states[0].capacity
  {
    if i > 0 {
      RunKeepsInv(states, actions, i - 1);
      StepKeepsInv(states[i - 1], actions[i - 1]);
    }
  }

  /**
   * In every interleaving: no panic; at most one goroutine is inside the mutex; the queue stays within the buffer;
   * and the accepted events are, in order, those handed to the database, the one being written and those queued.
   */
  lemma QueueIsFaithful(states: seq<Audit>, actions: seq<Action>, bufferSize: int, callers: nat, i: nat)
    requires IsRun(states, actions, bufferSize, callers) && i < |states|
    ensures var s := states[i];
      && !s.panicked
      && (forall t, u :: 0 <= t < |s.calls| && 0 <= u < |s.calls| && HoldsLock(s.calls[t]) && HoldsLock(s.calls[u])
                         ==> t == u)
      && |s.queue| <= (if bufferSize <= 0 then DEFAULT_BUFFER_SIZE else bufferSize)
      && s.accepted == s.handed + InFlight(s.worker) + s.queue
  {
    RunKeepsInv(states, actions, i);
  }

  /** Whether a step of the run is a send that finds room. */
  predicate Accepts(s: Audit, a: Action) {
    a.Run? && a.caller < |s.calls| && s.calls[a.caller].RecordSend? && |s.queue| < s.capacity
  }

  /** Events are accepted by exactly the sends that find room in the buffer, whatever the others do meanwhile. So a
      Record call drops its event only if it met a closed recorder or a full buffer. */
  lemma AcceptedIff(states: seq<Audit>, actions: seq<Action>, bufferSize: int, callers: nat, i: nat)
    requires IsRun(states, actions, bufferSize, callers) && i < |actions|
    ensures states[i + 1].accepted ==
            states[i].accepted +
            if Accepts(states[i], actions[i]) then [states[i].calls[actions[i].caller].event] else []
    ensures var (s, a) := (states[i], actions[i]);
            a.Run? && s.calls[a.caller].RecordCheck? ==>
              states[i + 1].calls[a.caller] == if s.closed then RecordUnlock else RecordSend(s.calls[a.caller].event)
  {
    RunKeepsInv(states, actions, i);
    var s, a := states[i], actions[i];
    assert s.accepted + [] == s.accepted;
    if a.Run? { assert CallOk(s, s.calls[a.caller]); }
  }

  lemma ClosedStepAcceptsNothing(s: Audit, a: Action)
    requires Inv(s) && Enabled(s, a) && s.closed
    ensures Apply(s, a).closed && Apply(s, a).accepted == s.accepted
  {
    if a.Run? { assert CallOk(s, s.calls[a.caller]); }
  }

  /** Once the flag is set, no later step of the run adds to the accepted events. */
  lemma {:induction false} NothingAcceptedAfterClose(
    states: seq<Audit>, actions: seq<Action>, i: nat, j: nat)
    requires IsExecution(states, actions) && Inv(states[0]) && i <= j < |states| && states[i].closed
    ensures states[j].closed && states[j].accepted == states[i].accepted
  {
    if i < j {
      NothingAcceptedAfterClose(states, actions, i, j - 1);
      RunKeepsInv(states, actions, j - 1);
      ClosedStepAcceptsNothing(states[j - 1], actions[j - 1]);
    }
  }

  /**
   * From the step at which the Close that closed the channel returns, every accepted event has been handed to the
   * database exactly once and in order, and this stays so for the rest of the run.
   */
  lemma FirstCloseDrains(
    states: seq<Audit>, actions: seq<Action>, bufferSize: int, callers: nat, i: nat, j: nat)
    requires IsRun(states, actions, bufferSize, callers) && i < j < |states|
    requires actions[i].Run? && states[i].calls[actions[i].caller].CloseWait?
    ensures states[j].handed == states[j].accepted == states[i].accepted && states[j].queue == []
  {
    RunKeepsInv(states, actions, i);
    RunKeepsInv(states, actions, j);
    assert CallOk(states[i], states[i].calls[actions[i].caller]);
    NothingAcceptedAfterClose(states, actions, i, j);
    DoneStays(states, actions, i, j);
  }

  lemma {:induction false} DoneStays(
    states: seq<Audit>, actions: seq<Action>, i: nat, j: nat)
    requires IsExecution(states, actions) && Inv(states[0]) && i <= j < |states| && states[i].done
    ensures states[j].done
  {
    if i < j { DoneStays(states, actions, i, j - 1); }
  }

  lemma {:induction false} HandedOnlyGrows(states: seq<Audit>, actions: seq<Action>, i: nat, j: nat)
    requires IsExecution(states, actions) && i <= j < |states|
    ensures states[i].handed <= states[j].handed
  {
    if i < j { HandedOnlyGrows(states, actions, i, j - 1); }
  }

  predicate IdleAt(s: Audit, t: nat) { t < |s.calls| && s.calls[t].Idle? }

  /** From its first to its last state, goroutine `t` makes one call of Close, whatever the others do meanwhile. */
  ghost predicate IsCloseCall(states: seq<Audit>, actions: seq<Action>, t: nat) {
    && IsExecution(states, actions) && actions != [] && actions[0] == Begin(t, CloseLock)
    && (forall k :: 0 < k < |actions| ==> !IdleAt(states[k], t))
    && IdleAt(states[|actions|], t)
  }

  ghost predicate EveryCloseDrains(s: Audit, t: nat) {
    forall states: seq<Audit>, actions: seq<Action> :: IsCloseCall(states, actions, t) && states[0] == s ==>
      states[|actions|].handed == states[|actions|].accepted
  }

  /**
   * What Close promises when the recorder is closed already: that everything is drained when it returns holds under
   * every schedule if and only if everything was drained before the call. The call itself waits for nothing.
   */
  lemma LaterCloseDrainsIff(s: Audit, t: nat)
    requires Inv(s) && s.closed && IdleAt(s, t)
    ensures EveryCloseDrains(s, t) <==> s.handed == s.accepted
  {
    if s.handed == s.accepted {
      forall states: seq<Audit>, actions: seq<Action> | IsCloseCall(states, actions, t) && states[0] == s
        ensures states[|actions|].handed == states[|actions|].accepted
      {
        DrainedStaysDrained(states, actions);
      }
    } else {
      var states, actions := ClosingWithoutWorker(s, t);
    }
  }

  /** Whoever is inside the mutex leaves it, and nothing else happens. */
  lemma {:induction false} Release(s: Audit, t: nat) returns (states: seq<Audit>, actions: seq<Action>)
    requires Inv(s) && s.closed && t < |s.calls| && s.calls[t].CloseLock?
    ensures IsExecution(states, actions) && states[0] == s
    ensures var e := states[|actions|];
      && Inv(e) && e.closed && e.owner == -1 && t < |e.calls| && e.calls[t].CloseLock?
      && e.handed == s.handed && e.accepted == s.accepted
    ensures forall k :: 0 <= k <= |actions| ==> !IdleAt(states[k], t)
    decreases if s.owner == -1 then 0 else Weight(s.calls[s.owner])
  {
    if s.owner == -1 {
      states, actions := [s], [];
    } else {
      var a := Run(s.owner);
      assert HoldsLock(s.calls[s.owner]) && CallOk(s, s.calls[s.owner]);
      StepKeepsInv(s, a);
      var more, others := Release(Apply(s, a), t);
      Joined([s, Apply(s, a)], [a], more, others);
      states, actions := [s, Apply(s, a)] + more[1..], [a] + others;
      assert forall k :: 0 < k <= |actions| ==> states[k] == more[k - 1];
    }
  }

  /** A Close of a closed recorder during which the worker does not move. */
  lemma ClosingWithoutWorker(s: Audit, t: nat) returns (states: seq<Audit>, actions: seq<Action>)
    requires Inv(s) && s.closed && IdleAt(s, t)
    ensures IsCloseCall(states, actions, t) && states[0] == s
    ensures states[|actions|].handed == s.handed && states[|actions|].accepted == s.accepted
  {
    var s1 := Apply(s, Begin(t, CloseLock));
    StepKeepsInv(s, Begin(t, CloseLock));
    var mid, steps := Release(s1, t);
    var e := mid[|steps|];
    var e1 := Apply(e, Run(t));
    var e2 := Apply(e1, Run(t));
    var e3 := Apply(e2, Run(t));
    var all, done := [s, s1] + mid[1..], [Begin(t, CloseLock)] + steps;
    Joined([s, s1], [Begin(t, CloseLock)], mid, steps);
    assert forall k :: 0 < k < |all| ==> all[k] == mid[k - 1];
    Joined(all, done, [e, e1, e2, e3], [Run(t), Run(t), Run(t)]);
    states, actions := all + [e, e1, e2, e3][1..], done + [Run(t), Run(t), Run(t)];
    forall k | 0 < k < |actions| ensures !IdleAt(states[k], t) {
      if k < |all| { assert states[k] == mid[k - 1]; }
      else { assert states[k] == [e, e1, e2, e3][k - |all| + 1]; }
    }
    assert states[|actions|] == e3;
  }

  lemma DrainedStaysDrained(states: seq<Audit>, actions: seq<Action>)
    requires IsExecution(states, actions) && Inv(states[0]) && states[0].closed &&
             states[0].handed == states[0].accepted
    ensures states[|actions|].handed == states[|actions|].accepted
  {
    var n := |actions|;
    HandedOnlyGrows(states, actions, 0, n);
    NothingAcceptedAfterClose(states, actions, 0, n);
    RunKeepsInv(states, actions, n);
    var last := states[n];
    assert |last.handed| <= |last.accepted| == |states[0].handed|;
  }

  /** A Close of a closed recorder while nobody else moves: four steps, and every field as it was. */
  lemma ClosingAlone(s: Audit, t: nat) returns (states: seq<Audit>, actions: seq<Action>)
    requires Inv(s) && s.closed && s.owner == -1 && IdleAt(s, t)
    ensures IsCloseCall(states, actions, t) && |actions| == 4 && states[0] == s && states[4] == s
  {
    var s1 := Apply(s, Begin(t, CloseLock));
    var s2 := Apply(s1, Run(t));
    var s3 := Apply(s2, Run(t));
    assert s.calls[t := CloseLock][t := CloseCheck][t := CloseUnlock(false)][t := Idle] == s.calls;
    states, actions := [s, s1, s2, s3, s], [Begin(t, CloseLock), Run(t), Run(t), Run(t)];
  }

  /** A run in which a second Close has returned, the first still waiting, with the one accepted event unwritten. */
  lemma SecondCloseReturnsEarly(event: Event) returns (states: seq<Audit>, actions: seq<Action>)
    ensures IsRun(states, actions, 1, 2) && |actions| == 14
    ensures IsCloseCall(states[10..], actions[10..], 1)
    ensures var s := states[14]; s.calls == [CloseWait, Idle] && s.accepted == s.queue == [event] && s.handed == []
  {
    states, actions := ClosedWithOneEvent(event);
    var more, others := ClosingAlone(states[10], 1);
    Joined(states, actions, more, others);
    states, actions := states + more[1..], actions + others;
    assert states[10..] == more && actions[10..] == others;
  }

  lemma Joined(states: seq<Audit>, actions: seq<Action>, more: seq<Audit>, others: seq<Action>)
    requires IsExecution(states, actions) && IsExecution(more, others) && states[|actions|] == more[0]
    ensures IsExecution(states + more[1..], actions + others)
  {
    var all, n := states + more[1..], |actions|;
    forall i | 0 <= i < |actions + others|
      ensures Enabled(all[i], (actions + others)[i]) && all[i + 1] == Apply(all[i], (actions + others)[i])
    {
      if i >= n { assert all[i] == more[i - n] && all[i + 1] == more[i - n + 1]; }
    }
  }

  lemma ClosedWithOneEvent(event: Event) returns (states: seq<Audit>, actions: seq<Action>)
    ensures IsRun(states, actions, 1, 2) && |actions| == 10
    ensures Inv(states[10]) && states[10].closed && states[10].owner == -1 && states[10].calls == [CloseWait, Idle]
    ensures states[10].accepted == states[10].queue == [event] && states[10].handed == []
  {
    states, actions := OneEventQueued(event);
    states, actions := Extend(states, actions, Begin(0, CloseLock));
    states, actions := Extend(states, actions, Run(0));
    states, actions := Extend(states, actions, Run(0));
    states, actions := Extend(states, actions, Run(0));
    states, actions := Extend(states, actions, Run(0));
  }

  lemma OneEventQueued(event: Event) returns (states: seq<Audit>, actions: seq<Action>)
    ensures IsRun(states, actions, 1, 2) && |actions| == 5
    ensures states[5] == NewAudit(1, 2).(queue := [event], accepted := [event])
  {
    states, actions := [NewAudit(1, 2)], [];
    states, actions := Extend(states, actions, Begin(0, RecordLock(event)));
    states, actions := Extend(states, actions, Run(0));
    states, actions := Extend(states, actions, Run(0));
    states, actions := Extend(states, actions, Run(0));
    states, actions := Extend(states, actions, Run(0));
  }

  lemma Extend(states: seq<Audit>, actions: seq<Action>, a: Action) returns (more: seq<Audit>, longer: seq<Action>)
    requires IsRun(states, actions, 1, 2) && Enabled(states[|actions|], a)
    ensures IsRun(more, longer, 1, 2)
    ensures more == states + [Apply(states[|actions|], a)] && longer == actions + [a]
  {
    more, longer := states + [Apply(states[|actions|], a)], actions + [a];
  }

  // ---------------------------------------------------------------- progress

  /** Record never waits for the database: whoever is inside the mutex can always take its next step. */
  lemma LockIsNeverHeldWhileWaiting(states: seq<Audit>, actions: seq<Action>, bufferSize: int, callers: nat, i: nat)
    requires IsRun(states, actions, bufferSize, callers) && i < |states| && states[i].owner >= 0
    ensures Enabled(states[i], Run(states[i].owner))
  {
    RunKeepsInv(states, actions, i);
    assert HoldsLock(states[i].calls[states[i].owner]);
  }

  function Weight(c: Call): nat {
    match c
    case Idle => 0
    case RecordLock(_) => 6
    case RecordCheck(_) => 5
    case RecordSend(_) => 4
    case RecordUnlock => 1
    case CloseLock => 5
    case CloseCheck => 4
    case CloseChannel => 3
    case CloseUnlock(_) => 2
    case CloseWait => 1
  }

  function Weights(calls: seq<Call>): nat {
    if calls == [] then 0 else Weight(calls[0]) + Weights(calls[1..])
  }

  lemma {:induction false} WeightsUpdate(calls: seq<Call>, t: nat, c: Call)
    requires t < |calls|
    ensures Weights(calls[t := c]) == Weights(calls) - Weight(calls[t]) + Weight(c)
  {
    if t > 0 {
      assert calls[t := c][1..] == calls[1..][t - 1 := c];
      WeightsUpdate(calls[1..], t - 1, c);
    } else {
      assert calls[t := c][1..] == calls[1..];
    }
  }

  /** A bound on the steps left when no new call begins. */
  function StepsLeft(s: Audit): nat {
    Weights(s.calls) + 2 * |s.queue| +
    (match s.worker case Receive => 2 case Write(_) => 3 case SignalDone => 1 case Exited => 0)
  }

  lemma StepsRunOut(s: Audit, a: Action)
    requires Inv(s) && Enabled(s, a) && !a.Begin?
    ensures StepsLeft(Apply(s, a)) < StepsLeft(s)
  {
    if a.Run? { WeightsUpdate(s.calls, a.caller, Apply(s, a).calls[a.caller]); }
  }

  /** Neither the worker nor any started call can take a step. */
  predicate Quiet(s: Audit) {
    !Enabled(s, Work) && forall t :: 0 <= t < |s.calls| ==> !Enabled(s, Run(t))
  }

  /** Every call has returned, nothing is unwritten, and the worker is gone just when the recorder is closed. */
  predicate Finished(s: Audit) {
    (forall t :: 0 <= t < |s.calls| ==> s.calls[t].Idle?) && s.handed == s.accepted && (s.done <==> s.closed)
  }

  /** Nobody is stuck: while a call is under way or an event unwritten, some started activity can move. */
  lemma QuietMeansFinished(s: Audit)
    requires Inv(s) && Quiet(s)
    ensures Finished(s)
  {
    assert s.owner == -1 || (HoldsLock(s.calls[s.owner]) && !Enabled(s, Run(s.owner)));
    forall t | 0 <= t < |s.calls| ensures s.calls[t].Idle? {
      assert !Enabled(s, Run(t));
      assert CallOk(s, s.calls[t]);
    }
  }

  lemma {:induction false} StepsAreBounded(
    states: seq<Audit>, actions: seq<Action>, i: nat, j: nat)
    requires IsExecution(states, actions) && Inv(states[0]) && i <= j < |states|
    requires forall k :: i <= k < j ==> !actions[k].Begin?
    ensures j - i + StepsLeft(states[j]) <= StepsLeft(states[i])
  {
    if i < j {
      StepsAreBounded(states, actions, i, j - 1);
      RunKeepsInv(states, actions, j - 1);
      StepsRunOut(states[j - 1], actions[j - 1]);
    }
  }

  /**
   * Every call returns: from any state of a run, however the goroutines are scheduled while no new call begins,
   * only boundedly many steps follow, and when none is left every call has returned with nothing unwritten.
   */
  lemma EveryCallReturns(
    states: seq<Audit>, actions: seq<Action>, bufferSize: int, callers: nat, i: nat, j: nat)
    requires IsRun(states, actions, bufferSize, callers) && i <= j < |states|
    requires forall k :: i <= k < j ==> !actions[k].Begin?
    ensures j - i <= StepsLeft(states[i])
    ensures Quiet(states[j]) ==> Finished(states[j])
  {
    StepsAreBounded(states, actions, i, j);
    RunKeepsInv(states, actions, j);
    if Quiet(states[j]) { QuietMeansFinished(states[j]); }
  }
}
