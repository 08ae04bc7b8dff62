/** Disruption windows: cron schedules, the next-event test and what it means. */
module CronWindow {
  import opened Prelude

  /** A parsed cron schedule is known by its Next function on instants (whole nanoseconds). */
  type Schedule = int -> int

  /** Next(t) is the first event strictly after t: nothing changes until it is reached. */
  ghost predicate Lawful(next: Schedule) {
    (forall t :: next(t) > t) &&
    (forall t, u :: t <= u < next(t) ==> next(u) == next(t))
  }

  /** The events of a schedule. */
  ghost predicate Fires(next: Schedule, x: int) { next(x - 1) == x }

  lemma NextIsFirstEvent(next: Schedule, t: int)
    requires Lawful(next)
    ensures Fires(next, next(t))
    ensures forall x :: t < x && Fires(next, x) ==> next(t) <= x
  {
    assert next(next(t) - 1) == next(t);
    forall x | t < x && Fires(next, x) ensures next(t) <= x {
      assert t <= x - 1 < next(t) ==> next(x - 1) == next(t);
    }
  }

  /** A window whose cron expressions are empty or do not parse has no schedule. */
  datatype Window = Window(start: Option<Schedule>, end: Option<Schedule>)

  /** InEvictionWindow: the next end comes no later than the next start. */
  predicate InEvictionWindow(w: Window, t: int) {
    w.start.Some? && w.end.Some? && w.end.value(t) <= w.start.value(t)
  }

  /** Some window was opened at or before `t` and has not been closed since. */
  ghost predicate Opened(start: Schedule, end: Schedule, t: int) {
    exists s :: OpenSince(start, end, s, t)
  }

  ghost predicate OpenSince(start: Schedule, end: Schedule, s: int, t: int) {
    Fires(start, s) && s <= t && forall e :: s < e <= t ==> !Fires(end, e)
  }

  /** An end lies between any two starts, and a start between any two ends; an end and the next start
      may coincide. */
  ghost predicate Alternate(start: Schedule, end: Schedule) {
    (forall s1, s2 :: s1 < s2 && Fires(start, s1) && Fires(start, s2) ==> FiresIn(end, s1 + 1, s2 + 1)) &&
    (forall e1, e2 :: e1 < e2 && Fires(end, e1) && Fires(end, e2) ==> FiresIn(start, e1, e2))
  }

  ghost predicate FiresIn(next: Schedule, from: int, to: int) {
    exists x :: from <= x < to && Fires(next, x)
  }

  /** The schedule also reaches arbitrarily far back, as every recurring cron schedule does. */
  ghost predicate ReachesBack(next: Schedule) {
    forall t :: FiredBy(next, t)
  }

  ghost predicate FiredBy(next: Schedule, t: int) { exists x :: x <= t && Fires(next, x) }

  lemma {:induction false} LastEvent(next: Schedule, x: int, t: int) returns (last: int)
    requires x <= t && Fires(next, x)
    ensures x <= last <= t && Fires(next, last) && forall y :: last < y <= t ==> !Fires(next, y)
    decreases t - x
  {
    if y :| x < y <= t && Fires(next, y) {
      last := LastEvent(next, y, t);
    } else {
      last := x;
    }
  }

  lemma TestImpliesOpened(start: Schedule, end: Schedule, t: int)
    requires Lawful(start) && Lawful(end) && Alternate(start, end) && ReachesBack(end)
    requires end(t) <= start(t)
    ensures Opened(start, end, t)
  {
    assert FiredBy(end, t);
    var x :| x <= t && Fires(end, x);
    var e1 := LastEvent(end, x, t);
    NextIsFirstEvent(end, t);
    NextIsFirstEvent(start, t);
    assert FiresIn(start, e1, end(t));
    var s :| e1 <= s < end(t) && Fires(start, s);
    assert OpenSince(start, end, s, t);
  }

  lemma OpenedImpliesTest(start: Schedule, end: Schedule, t: int)
    requires Lawful(start) && Lawful(end) && Alternate(start, end) && Opened(start, end, t)
    ensures end(t) <= start(t)
  {
    var s :| OpenSince(start, end, s, t);
    NextIsFirstEvent(end, t);
    NextIsFirstEvent(start, t);
    assert FiresIn(end, s + 1, start(t) + 1);
    var e :| s + 1 <= e < start(t) + 1 && Fires(end, e);
  }

  /** The test and the meaning agree at every instant exactly when starts and ends alternate. */
  lemma WindowTestIsExactIff(start: Schedule, end: Schedule)
    requires Lawful(start) && Lawful(end) && ReachesBack(end)
    ensures (forall t :: InEvictionWindow(Window(Some(start), Some(end)), t) <==> Opened(start, end, t))
            <==> Alternate(start, end)
  {
    var w := Window(Some(start), Some(end));
    if Alternate(start, end) {
      forall t ensures InEvictionWindow(w, t) <==> Opened(start, end, t) {
        if end(t) <= start(t) { TestImpliesOpened(start, end, t); }
        if Opened(start, end, t) { OpenedImpliesTest(start, end, t); }
      }
    }
    if forall t :: InEvictionWindow(w, t) <==> Opened(start, end, t) {
      forall s1, s2 | s1 < s2 && Fires(start, s1) && Fires(start, s2) ensures FiresIn(end, s1 + 1, s2 + 1) {
        StartsAreSeparated(start, end, s1, s2);
      }
      forall e1, e2 | e1 < e2 && Fires(end, e1) && Fires(end, e2) ensures FiresIn(start, e1, e2) {
        EndsAreSeparated(start, end, e1, e2);
      }
    }
  }

  lemma StartsAreSeparated(start: Schedule, end: Schedule, s1: int, s2: int)
    requires Lawful(start) && Lawful(end) && s1 < s2 && Fires(start, s1) && Fires(start, s2)
    requires InEvictionWindow(Window(Some(start), Some(end)), s2 - 1) <==> Opened(start, end, s2 - 1)
    ensures FiresIn(end, s1 + 1, s2 + 1)
  {
    if OpenSince(start, end, s1, s2 - 1) {
      NextIsFirstEvent(end, s2 - 1);
      assert end(s2 - 1) == s2;
    }
  }

  lemma EndsAreSeparated(start: Schedule, end: Schedule, e1: int, e2: int)
    requires Lawful(start) && Lawful(end) && e1 < e2 && Fires(end, e1) && Fires(end, e2)
    requires InEvictionWindow(Window(Some(start), Some(end)), e2 - 1) <==> Opened(start, end, e2 - 1)
    ensures FiresIn(start, e1, e2)
  {
    assert end(e2 - 1) == e2 <= start(e2 - 1);
    var s :| OpenSince(start, end, s, e2 - 1);
    assert e1 <= s < e2;
  }

  // ---------------------------------------------------------------- concrete schedules, on whole hours

  function NextAt(hour: int, t: int): int { hour - 24 * ((hour - t - 1) / 24) }

  /** Every day at the given hour. */
  function Daily(hour: int): Schedule { (t: int) => NextAt(hour, t) }

  lemma DailyAt(hour: int, t: int)
    ensures 0 < hour - t <= 24 ==> Daily(hour)(t) == hour
    ensures -24 < hour - t <= 0 ==> Daily(hour)(t) == hour + 24
  {
  }

  lemma SameDay(hour: int, t: int, u: int)
    requires t <= u < NextAt(hour, t)
    ensures NextAt(hour, u) == NextAt(hour, t)
  {
    var q := (hour - t - 1) / 24;
    assert 24 * q <= hour - u - 1 < 24 * q + 24;
  }

  lemma DailyIsLawful(hour: int)
    ensures Lawful(Daily(hour))
  {
    var next := Daily(hour);
    forall t, u | t <= u < next(t) ensures next(u) == next(t) { SameDay(hour, t, u); }
    forall t ensures next(t) > t { assert next(t) == NextAt(hour, t); }
  }

  /** Whichever comes first. */
  function Either(a: Schedule, b: Schedule): Schedule { (t: int) => if a(t) <= b(t) then a(t) else b(t) }

  lemma EitherIsLawful(a: Schedule, b: Schedule)
    requires Lawful(a) && Lawful(b)
    ensures Lawful(Either(a, b))
  {
  }

  lemma NotOpenSince(start: Schedule, end: Schedule, s: int, e: int, t: int)
    requires s <= t ==> (s < e <= t && Fires(end, e)) || !Fires(start, s)
    ensures !OpenSince(start, end, s, t)
  {
  }

  lemma EndsAtSix()
    ensures Fires(Either(Daily(6), Daily(10)), 6)
  {
    assert NextAt(6, 5) == 6 && NextAt(10, 5) == 10;
  }

  lemma NoStartAfterSix(s: int)
    requires s == 6 || s == 7
    ensures !Fires(Daily(2), s)
  {
    assert NextAt(2, 5) == 26 && NextAt(2, 6) == 26;
  }

  lemma NextAfterSeven()
    ensures Daily(2)(7) == 26 && Either(Daily(6), Daily(10))(7) == 10
  {
    assert NextAt(2, 7) == 26 && NextAt(6, 7) == 30 && NextAt(10, 7) == 10;
  }

  lemma TwoEndsAreLawful()
    ensures Lawful(Daily(2)) && Lawful(Either(Daily(6), Daily(10)))
  {
    DailyIsLawful(2);
    DailyIsLawful(6);
    DailyIsLawful(10);
    EitherIsLawful(Daily(6), Daily(10));
  }

  /** A window that opens every day at 2 and whose end expression fires at 6 and again at 10: at 7 it has been closed
      for an hour, and the test still says it is open. */
  lemma TwoEndsMislead()
    ensures var start, end := Daily(2), Either(Daily(6), Daily(10));
      && Lawful(start) && Lawful(end)
      && InEvictionWindow(Window(Some(start), Some(end)), 7) && !Opened(start, end, 7)
  {
    var start, end := Daily(2), Either(Daily(6), Daily(10));
    TwoEndsAreLawful();
    NextAfterSeven();
    EndsAtSix();
    forall s ensures !OpenSince(start, end, s, 7) {
      if 6 <= s <= 7 { NoStartAfterSix(s); }
      NotOpenSince(start, end, s, 6, 7);
    }
  }
}
