/** Disruption windows over time: when a budget is relaxed during a run of the periodic task. */
module DisruptionRuns {
  import opened CronWindow
  import opened Disruption

  /** Some window of the workload contains the instant. */
  predicate In(windows: seq<Window>, t: int) {
    exists i :: 0 <= i < |windows| && InEvictionWindow(windows[i], t)
  }

  /** "In" needs the next run to be inside a window too. */
  function StateAt(windows: seq<Window>, now: int, period: int): ReconcileState {
    if !In(windows, now) then StateOut
    else if In(windows, now + period) then StateIn
    else StateAboutToExit
  }

  method ComputeStateFromWindows(windows: seq<Window>, now: int, period: int) returns (state: ReconcileState)
    ensures state == StateAt(windows, now, period)
    ensures state == StateOut <==> forall i :: 0 <= i < |windows| ==> !InEvictionWindow(windows[i], now)
    ensures state == StateIn ==> exists i :: 0 <= i < |windows| && InEvictionWindow(windows[i], now + period)
  {
    var nextRun := now + period;
    var inNow, inNext := false, false;
    for i := 0 to |windows|
      invariant inNow <==> In(windows[..i], now)
      invariant inNext <==> In(windows[..i], nextRun)
    {
      InPush(windows, i, now);
      InPush(windows, i, nextRun);
      if InEvictionWindow(windows[i], now) { inNow := true; }
      if InEvictionWindow(windows[i], nextRun) { inNext := true; }
    }
    assert windows[..|windows|] == windows;
    if inNow {
      return if inNext then StateIn else StateAboutToExit;
    }
    return StateOut;
  }

  lemma InPush(windows: seq<Window>, i: nat, t: int)
    requires i < |windows|
    ensures In(windows[..i + 1], t) <==> In(windows[..i], t) || InEvictionWindow(windows[i], t)
  {
    assert forall k :: 0 <= k < i ==> windows[..i + 1][k] == windows[..i][k];
    if InEvictionWindow(windows[i], t) { assert windows[..i + 1][i] == windows[i]; }
  }

  // ---------------------------------------------------------------- runs

  /** The instant of the k-th tick; ticks are exactly one period apart. */
  function Tick(first: int, period: int, k: nat): int {
    if k == 0 then first else Tick(first, period, k - 1) + period
  }

  /** The states computed at ticks 0..k. */
  function States(windows: seq<Window>, first: int, period: int, k: nat): seq<ReconcileState> {
    (if k == 0 then [] else States(windows, first, period, k - 1)) +
    [StateAt(windows, Tick(first, period, k), period)]
  }

  /** The budget between tick k and tick k+1. */
  function BudgetAfter(b: Budget, windows: seq<Window>, first: int, period: int, k: nat): Budget {
    Run(b, States(windows, first, period, k))
  }

  lemma {:induction false} BudgetFollowsState(b: Budget, windows: seq<Window>, first: int, period: int, k: nat)
    requires Original(b)
    ensures BudgetAfter(b, windows, first, period, k) != b <==>
            StateAt(windows, Tick(first, period, k), period) == StateIn
  {
    OriginalIsNeverLost(b, States(windows, first, period, k));
  }

  /** A window whose cron texts are empty or do not parse never relaxes a budget, nor does any number of them. */
  lemma NoScheduleNeverRelaxes(b: Budget, windows: seq<Window>, period: int, first: int, k: nat, t: int)
    requires Original(b)
    requires forall i :: 0 <= i < |windows| ==> windows[i].start.None? || windows[i].end.None?
    ensures !RelaxedAt(b, windows, period, first, k, t)
  {
    BudgetFollowsState(b, windows, first, period, k);
  }

  // ---------------------------------------------------------------- safety

  /** A maximal stretch outside all windows, between two windows. */
  ghost predicate IsGap(windows: seq<Window>, from: int, to: int) {
    from < to && In(windows, from - 1) && In(windows, to) && forall x :: from <= x < to ==> !In(windows, x)
  }

  ghost predicate GapsAtLeast(windows: seq<Window>, period: int) {
    forall from, to :: IsGap(windows, from, to) ==> to - from >= period
  }

  /** No instant outside the windows ever sees a relaxed budget, whenever the reconciler is started. */
  ghost predicate RelaxedOnlyInside(b: Budget, windows: seq<Window>, period: int) {
    forall first, k, t :: RelaxedAt(b, windows, period, first, k, t) ==> In(windows, t)
  }

  predicate RelaxedAt(b: Budget, windows: seq<Window>, period: int, first: int, k: nat, t: int) {
    Tick(first, period, k) <= t < Tick(first, period, k + 1) && BudgetAfter(b, windows, first, period, k) != b
  }

  /** Every window stays open for at least one period. */
  ghost predicate WindowsAtLeast(windows: seq<Window>, period: int) {
    forall s, x :: In(windows, s) && !In(windows, s - 1) && s <= x < s + period ==> In(windows, x)
  }

  lemma {:induction false} GapStart(windows: seq<Window>, a: int, b: int) returns (from: int)
    requires a < b && In(windows, a) && !In(windows, b)
    ensures a < from <= b && In(windows, from - 1) && forall x :: from <= x <= b ==> !In(windows, x)
    decreases b - a
  {
    if In(windows, b - 1) {
      from := b;
    } else {
      from := GapStart(windows, a, b - 1);
    }
  }

  lemma {:induction false} GapEnd(windows: seq<Window>, b: int, c: int) returns (to: int)
    requires b < c && !In(windows, b) && In(windows, c)
    ensures b < to <= c && In(windows, to) && forall x :: b <= x < to ==> !In(windows, x)
    decreases c - b
  {
    if In(windows, b + 1) {
      to := b + 1;
    } else {
      to := GapEnd(windows, b + 1, c);
    }
  }

  lemma RelaxedIsInside(b: Budget, windows: seq<Window>, period: int, first: int, k: nat, t: int)
    requires Original(b) && GapsAtLeast(windows, period) && RelaxedAt(b, windows, period, first, k, t)
    ensures In(windows, t)
  {
    BudgetFollowsState(b, windows, first, period, k);
    var now := Tick(first, period, k);
    if !In(windows, t) {
      var from := GapStart(windows, now, t);
      var to := GapEnd(windows, t, now + period);
      assert IsGap(windows, from, to);
      assert false;
    }
  }

  lemma ShortGapIsUnsafe(b: Budget, windows: seq<Window>, period: int, from: int, to: int)
    requires Original(b) && WindowsAtLeast(windows, period)
    requires IsGap(windows, from, to) && to - from < period
    ensures RelaxedAt(b, windows, period, from - 1, 0, from) && !In(windows, from)
  {
    BudgetFollowsState(b, windows, from - 1, period, 0);
    assert In(windows, to) && !In(windows, to - 1);
    assert Tick(from - 1, period, 1) == Tick(from - 1, period, 0) + period;
  }

  /** Inside at some instant and again one period later. */
  predicate Spans(windows: seq<Window>, period: int, s: int) { In(windows, s) && In(windows, s + period) }

  ghost predicate SpansAreCovered(windows: seq<Window>, period: int) {
    forall s, x :: Spans(windows, period, s) && s <= x < s + period ==> In(windows, x)
  }

  /** No instant outside the windows ever lies in a period that began with the state "in". */
  ghost predicate InOnlyInside(windows: seq<Window>, period: int) {
    forall first, k, t :: BeganIn(windows, period, first, k, t) ==> In(windows, t)
  }

  predicate BeganIn(windows: seq<Window>, period: int, first: int, k: nat, t: int) {
    Tick(first, period, k) <= t < Tick(first, period, k + 1) &&
    StateAt(windows, Tick(first, period, k), period) == StateIn
  }

  lemma InOnlyInsideIff(windows: seq<Window>, period: int)
    requires period > 0
    ensures InOnlyInside(windows, period) <==> SpansAreCovered(windows, period)
  {
    if SpansAreCovered(windows, period) {
      forall first, k, t | BeganIn(windows, period, first, k, t) ensures In(windows, t) {
        assert Spans(windows, period, Tick(first, period, k));
      }
    }
    if InOnlyInside(windows, period) {
      forall s, x | Spans(windows, period, s) && s <= x < s + period ensures In(windows, x) {
        assert Tick(s, period, 1) == Tick(s, period, 0) + period;
        assert BeganIn(windows, period, s, 0, x);
      }
    }
  }

  /** Safety over all runs, for all windows: a budget is relaxed only inside the windows if and only if the windows
      cover every period at whose two ends some window is open. */
  lemma RelaxedOnlyInsideIff(b: Budget, windows: seq<Window>, period: int)
    requires Original(b) && period > 0
    ensures RelaxedOnlyInside(b, windows, period) <==> SpansAreCovered(windows, period)
  {
    forall first, k, t ensures RelaxedAt(b, windows, period, first, k, t) <==> BeganIn(windows, period, first, k, t) {
      BudgetFollowsState(b, windows, first, period, k);
    }
    InOnlyInsideIff(windows, period);
  }

  /** The annotations of a pod between tick k and tick k+1. */
  function PodAfter(a: Annotations, template: Template, windows: seq<Window>, first: int, period: int,
                    k: nat): Annotations {
    PodRun(a, template, States(windows, first, period, k))
  }

  predicate StrippedAt(a: Annotations, template: Template, windows: seq<Window>, period: int, first: int, k: nat,
                       t: int) {
    Tick(first, period, k) <= t < Tick(first, period, k + 1) && PodAfter(a, template, windows, first, period, k) != a
  }

  ghost predicate StrippedOnlyInside(a: Annotations, template: Template, windows: seq<Window>, period: int) {
    forall first, k, t :: StrippedAt(a, template, windows, period, first, k, t) ==> In(windows, t)
  }

  /** The same condition decides whether a pod that has something to strip is stripped only inside the windows. */
  lemma StrippedOnlyInsideIff(a: Annotations, template: Annotations, windows: seq<Window>, period: int)
    requires Blocking(a) == Blocking(template) && MODIFIED !in a && !(a.Keys !! DoNotDisruptKeys()) && period > 0
    ensures StrippedOnlyInside(a, Template(template), windows, period) <==> SpansAreCovered(windows, period)
  {
    var t' := Template(template);
    assert Stripped(a) != a;
    forall first, k, t ensures StrippedAt(a, t', windows, period, first, k, t) <==>
           BeganIn(windows, period, first, k, t) {
      PodIsNeverLost(a, template, States(windows, first, period, k));
    }
    InOnlyInsideIff(windows, period);
  }

  /** In terms of gaps: gaps of at least a period are always enough, and when every window lasts a period they are
      necessary. */
  lemma GapsDecideSafety(b: Budget, windows: seq<Window>, period: int)
    requires Original(b) && period > 0
    ensures GapsAtLeast(windows, period) ==> RelaxedOnlyInside(b, windows, period)
    ensures WindowsAtLeast(windows, period) && RelaxedOnlyInside(b, windows, period) ==> GapsAtLeast(windows, period)
  {
    if GapsAtLeast(windows, period) {
      forall first, k, t | RelaxedAt(b, windows, period, first, k, t) ensures In(windows, t) {
        RelaxedIsInside(b, windows, period, first, k, t);
      }
    }
    if WindowsAtLeast(windows, period) && RelaxedOnlyInside(b, windows, period) {
      forall from, to | IsGap(windows, from, to) ensures to - from >= period {
        if to - from < period {
          ShortGapIsUnsafe(b, windows, period, from, to);
        }
      }
    }
  }

  // ---------------------------------------------------------------- progress

  /** The run started at `first` relaxes the budget at a tick inside [start, end). */
  ghost predicate RelaxesWithin(b: Budget, windows: seq<Window>, period: int, first: int, start: int, end: int) {
    exists k :: start <= Tick(first, period, k) < end && BudgetAfter(b, windows, first, period, k) != b
  }

  lemma {:induction false} FirstTickFrom(first: int, period: int, start: int, k: nat) returns (n: nat)
    requires period > 0 && Tick(first, period, k) < start + period
    ensures start <= Tick(first, period, n) < start + period
    decreases start - Tick(first, period, k)
  {
    if Tick(first, period, k) >= start {
      n := k;
    } else {
      assert Tick(first, period, k + 1) == Tick(first, period, k) + period;
      n := FirstTickFrom(first, period, start, k + 1);
    }
  }

  lemma {:induction false} TicksIncrease(first: int, period: int, k: nat)
    requires period > 0
    ensures k >= 2 ==> Tick(first, period, k) >= first + period + period
  {
    if k >= 2 {
      TicksIncrease(first, period, k - 1);
      if k == 2 {
        assert Tick(first, period, 2) == Tick(first, period, 1) + period;
        assert Tick(first, period, 1) == Tick(first, period, 0) + period;
      }
    }
  }

  /** Progress over all runs: a window that ends for good is taken up by every run started before it if
      and only if it lasts at least two periods. */
  lemma WindowIsTakenUpIff(b: Budget, windows: seq<Window>, period: int, start: int, end: int)
    requires Original(b) && period > 0 && start < end
    requires (forall x :: start <= x < end ==> In(windows, x)) && !In(windows, end)
    ensures (forall first :: first <= start ==> RelaxesWithin(b, windows, period, first, start, end))
            <==> end - start >= 2 * period
  {
    if end - start >= 2 * period {
      forall first | first <= start ensures RelaxesWithin(b, windows, period, first, start, end) {
        var n := FirstTickFrom(first, period, start, 0);
        assert In(windows, Tick(first, period, n)) && In(windows, Tick(first, period, n) + period);
        BudgetFollowsState(b, windows, first, period, n);
      }
    } else {
      var first := end - 2 * period;
      if RelaxesWithin(b, windows, period, first, start, end) {
        var k :| start <= Tick(first, period, k) < end && BudgetAfter(b, windows, first, period, k) != b;
        TicksIncrease(first, period, k);
        assert k < 2;
        assert Tick(first, period, 1) == Tick(first, period, 0) + period;
        BudgetFollowsState(b, windows, first, period, k);
        assert false;
      }
      assert first <= start;
    }
  }
}
