/** Sums, maxima, selections and orders over sequences, for any element type. */
module Sequences {
  import opened Prelude

  function SumOf<T>(w: T -> real, s: seq<T>): real {
    if s == [] then 0.0 else SumOf(w, s[..|s| - 1]) + w(s[|s| - 1])
  }

  /** The largest weight, at least zero. */
  function MaxOf<T>(w: T -> real, s: seq<T>): (m: real)
    ensures m >= 0.0
  {
    if s == [] then 0.0 else Max(MaxOf(w, s[..|s| - 1]), w(s[|s| - 1]))
  }

  lemma SumPush<T>(w: T -> real, s: seq<T>, x: T)
    ensures SumOf(w, s + [x]) == SumOf(w, s) + w(x)
  {
    assert (s + [x])[..|s|] == s;
  }

  lemma MaxPush<T>(w: T -> real, s: seq<T>, x: T)
    ensures MaxOf(w, s + [x]) == Max(MaxOf(w, s), w(x))
  {
    assert (s + [x])[..|s|] == s;
  }

  lemma {:induction false} SumConcat<T>(w: T -> real, a: seq<T>, b: seq<T>)
    ensures SumOf(w, a + b) == SumOf(w, a) + SumOf(w, b)
  {
    if b == [] {
      assert a + b == a;
    } else {
      assert (a + b)[..|a + b| - 1] == a + b[..|b| - 1];
      SumConcat(w, a, b[..|b| - 1]);
    }
  }

  lemma {:induction false} SumNonNegative<T>(w: T -> real, s: seq<T>)
    requires forall x :: x in s ==> w(x) >= 0.0
    ensures SumOf(w, s) >= 0.0
  {
    if s != [] {
      SumNonNegative(w, s[..|s| - 1]);
    }
  }

  lemma {:induction false} SumMonotone<T>(v: T -> real, w: T -> real, s: seq<T>, slack: real)
    requires forall x :: x in s ==> v(x) <= w(x) + slack
    ensures SumOf(v, s) <= SumOf(w, s) + slack * |s| as real
  {
    if s != [] {
      SumMonotone(v, w, s[..|s| - 1], slack);
    }
  }

  lemma {:induction false} SumAgrees<T>(v: T -> real, w: T -> real, s: seq<T>)
    requires forall x :: x in s ==> v(x) == w(x)
    ensures SumOf(v, s) == SumOf(w, s) && MaxOf(v, s) == MaxOf(w, s)
  {
    if s != [] {
      assert s[|s| - 1] in s;
      SumAgrees(v, w, s[..|s| - 1]);
    }
  }

  /** Every element is bounded by the maximum. */
  lemma {:induction false} MaxCovers<T>(w: T -> real, s: seq<T>, x: T)
    requires x in s
    ensures w(x) <= MaxOf(w, s)
  {
    if x != s[|s| - 1] {
      MaxCovers(w, s[..|s| - 1], x);
    }
  }

  /** It is attained, or there is nothing above zero. */
  lemma {:induction false} MaxAttained<T>(w: T -> real, s: seq<T>) returns (x: Option<T>)
    ensures if x.None? then MaxOf(w, s) == 0.0 else x.value in s && w(x.value) == MaxOf(w, s)
  {
    if s == [] {
      x := None;
    } else {
      x := MaxAttained(w, s[..|s| - 1]);
      var last := s[|s| - 1];
      if w(last) >= MaxOf(w, s[..|s| - 1]) {
        x := Some(last);
      }
    }
  }

  lemma {:induction false} MaxBelow<T>(w: T -> real, s: seq<T>, bound: real)
    requires bound >= 0.0 && forall x :: x in s ==> w(x) <= bound
    ensures MaxOf(w, s) <= bound
  {
    if s != [] {
      MaxBelow(w, s[..|s| - 1], bound);
    }
  }

  /** A place where `x` stands. */
  lemma Pick<T>(s: seq<T>, x: T) returns (before: seq<T>, after: seq<T>)
    requires x in s
    ensures s == (before + [x]) + after && multiset(before + after) == multiset(s) - multiset{x}
  {
    var i :| 0 <= i < |s| && s[i] == x;
    before, after := s[..i], s[i + 1..];
    assert s == (before + [x]) + after;
  }

  lemma SumOfMiddle<T>(w: T -> real, a: seq<T>, x: T, b: seq<T>, whole: seq<T>)
    requires whole == (a + [x]) + b
    ensures SumOf(w, whole) == SumOf(w, a + b) + w(x)
  {
    SumConcat(w, a + [x], b);
    SumPush(w, a, x);
    SumConcat(w, a, b);
  }

  lemma DropLastMultiset<T>(b: seq<T>)
    requires b != []
    ensures multiset(b) == multiset(b[..|b| - 1]) + multiset{b[|b| - 1]}
  {
    assert b == b[..|b| - 1] + [b[|b| - 1]];
  }

  /** Fewer elements, in any order, weigh no more. */
  lemma {:induction false} SumOfSubset<T>(w: T -> real, a: seq<T>, b: seq<T>)
    requires multiset(a) <= multiset(b)
    requires forall x :: x in b ==> w(x) >= 0.0
    ensures SumOf(w, a) <= SumOf(w, b)
    decreases |b|
  {
    if b == [] {
      assert |multiset(a)| <= |multiset(b)|;
    } else {
      var init, last := b[..|b| - 1], b[|b| - 1];
      DropLastMultiset(b);
      if last in a {
        var before, after := Pick(a, last);
        SumOfMiddle(w, before, last, after, a);
        SumOfSubset(w, before + after, init);
      } else {
        assert multiset(a)[last] == 0;
        SumOfSubset(w, a, init);
      }
    }
  }

  lemma MaxOfSubset<T>(w: T -> real, a: seq<T>, b: seq<T>)
    requires forall x :: x in a ==> x in b
    ensures MaxOf(w, a) <= MaxOf(w, b)
  {
    forall x | x in a ensures w(x) <= MaxOf(w, b) { MaxCovers(w, b, x); }
    MaxBelow(w, a, MaxOf(w, b));
  }

  /** Any element: the iteration order of a map or set is not specified. */
  method AnyOf<T(==)>(s: set<T>) returns (x: T)
    requires s != {}
    ensures x in s
  {
    x :| x in s;
  }

  // ---------------------------------------------------------------- selecting

  /** The elements on which `f` has the value `want`, in order. */
  function Select<T(!new)>(f: T -> bool, s: seq<T>, want: bool): (r: seq<T>)
    ensures forall x :: x in r <==> x in s && f(x) == want
  {
    if s == [] then []
    else if f(s[0]) == want then [s[0]] + Select(f, s[1..], want)
    else Select(f, s[1..], want)
  }

  lemma {:induction false} SelectIsPart<T(!new)>(f: T -> bool, s: seq<T>, want: bool)
    ensures multiset(Select(f, s, want)) <= multiset(s)
  {
    if s != [] {
      assert s == [s[0]] + s[1..];
      SelectIsPart(f, s[1..], want);
    }
  }

  /** What is left after removing the first `k` elements that satisfy `f`. */
  function Kept<T>(f: T -> bool, s: seq<T>, k: nat): seq<T>
  {
    if s == [] || k == 0 then s
    else if f(s[0]) then Kept(f, s[1..], k - 1)
    else [s[0]] + Kept(f, s[1..], k)
  }

  lemma {:induction false} SelectConcat<T(!new)>(f: T -> bool, a: seq<T>, b: seq<T>, want: bool)
    ensures Select(f, a + b, want) == Select(f, a, want) + Select(f, b, want)
  {
    if a == [] {
      assert a + b == b;
    } else {
      assert (a + b)[1..] == a[1..] + b;
      SelectConcat(f, a[1..], b, want);
    }
  }

  lemma {:induction false} SelectNone<T(!new)>(f: T -> bool, s: seq<T>)
    requires forall x :: x in s ==> !f(x)
    ensures Select(f, s, true) == [] && Select(f, s, false) == s
  {
    if s != [] {
      SelectNone(f, s[1..]);
    }
  }

  /** Removing what precedes any cut is removing as many candidates as stand before the cut. */
  lemma {:induction false} KeptAtCut<T(!new)>(f: T -> bool, s: seq<T>, j: nat)
    requires j <= |s|
    ensures Kept(f, s, |Select(f, s[..j], true)|) == Select(f, s[..j], false) + s[j..]
  {
    if j > 0 {
      KeptAtCut(f, s[1..], j - 1);
      assert s[..j][1..] == s[1..][..j - 1];
      assert s[1..][j - 1..] == s[j..];
      if Select(f, s[..j], true) == [] {
        assert s == s[..j] + s[j..];
        SelectNone(f, s[..j]);
      }
    }
  }

  /** Nothing is lost or duplicated. */
  lemma {:induction false} KeptConserves<T(!new)>(f: T -> bool, s: seq<T>, k: nat)
    requires k <= |Select(f, s, true)|
    ensures multiset(Kept(f, s, k)) + multiset(Select(f, s, true)[..k]) == multiset(s)
  {
    if k > 0 {
      assert s == [s[0]] + s[1..];
      if f(s[0]) {
        KeptConserves(f, s[1..], k - 1);
        assert Select(f, s, true)[..k] == [s[0]] + Select(f, s[1..], true)[..k - 1];
      } else {
        KeptConserves(f, s[1..], k);
      }
    }
  }

  /** The cut before which exactly the first `k` candidates stand. */
  lemma {:induction false} CutAt<T(!new)>(f: T -> bool, s: seq<T>, k: nat) returns (j: nat)
    requires k <= |Select(f, s, true)|
    ensures j <= |s| && Select(f, s[..j], true) == Select(f, s, true)[..k]
  {
    if k == 0 {
      j := 0;
    } else {
      j := CutAt(f, s[1..], if f(s[0]) then k - 1 else k);
      j := j + 1;
      assert s[..j] == [s[0]] + s[1..][..j - 1];
      SelectConcat(f, [s[0]], s[1..][..j - 1], true);
    }
  }

  /** Whoever was removed stood before every candidate that stayed. */
  lemma RemovedComeFirst<T(!new)>(f: T -> bool, s: seq<T>, k: nat, gone: T, stay: T) returns (i: nat, j: nat)
    requires k <= |Select(f, s, true)| && gone in Select(f, s, true)[..k]
    requires stay in Kept(f, s, k) && f(stay)
    ensures i < j < |s| && s[i] == gone && s[j] == stay
  {
    var cut := CutAt(f, s, k);
    KeptAtCut(f, s, cut);
    assert gone in s[..cut];
    assert stay in s[cut..];
    i :| 0 <= i < cut && s[i] == gone;
    j :| cut <= j < |s| && s[j] == stay;
  }

  // ---------------------------------------------------------------- scanning with deletion

  /** A scan that deletes the candidates it meets until `enough` holds of what is left. */
  function Scan<T>(f: T -> bool, enough: seq<T> -> bool, cur: seq<T>, i: nat, gone: seq<T>): (seq<T>, seq<T>)
    decreases |cur| - i
  {
    if i >= |cur| || enough(cur) then (cur, gone)
    else if f(cur[i]) then Scan(f, enough, cur[..i] + cur[i + 1..], i, gone + [cur[i]])
    else Scan(f, enough, cur, i + 1, gone)
  }

  /** The first `k` candidates were removed, `k` least such that the rest is `enough`, or all of them. */
  ghost predicate LeastRemoval<T(!new)>(f: T -> bool, enough: seq<T> -> bool, s: seq<T>, kept: seq<T>, gone: seq<T>) {
    var candidates := Select(f, s, true);
    |gone| <= |candidates| &&
    gone == candidates[..|gone|] &&
    kept == Kept(f, s, |gone|) &&
    TooFew(f, enough, [], s, |gone|) &&
    (enough(kept) || gone == candidates)
  }

  ghost predicate TooFew<T>(f: T -> bool, enough: seq<T> -> bool, passed: seq<T>, s: seq<T>, k: nat) {
    forall j :: 0 <= j < k ==> !enough(passed + Kept(f, s, j))
  }

  lemma TooFewAfterDeleting<T>(f: T -> bool, enough: seq<T> -> bool, passed: seq<T>, s: seq<T>, k: nat)
    requires s != [] && f(s[0]) && !enough(passed + s) && TooFew(f, enough, passed, s[1..], k)
    ensures TooFew(f, enough, passed, s, k + 1)
  {
    forall j | 0 <= j < k + 1 ensures !enough(passed + Kept(f, s, j)) {
      if j > 0 { assert Kept(f, s, j) == Kept(f, s[1..], j - 1); }
    }
  }

  lemma KeptAfterPassing<T>(f: T -> bool, passed: seq<T>, s: seq<T>, k: nat)
    requires s != [] && !f(s[0])
    ensures (passed + [s[0]]) + Kept(f, s[1..], k) == passed + Kept(f, s, k)
  {
    assert k == 0 ==> s == [s[0]] + s[1..];
  }

  lemma TooFewAfterPassing<T>(f: T -> bool, enough: seq<T> -> bool, passed: seq<T>, s: seq<T>, k: nat)
    requires s != [] && !f(s[0]) && TooFew(f, enough, passed + [s[0]], s[1..], k)
    ensures TooFew(f, enough, passed, s, k)
  {
    forall j | 0 <= j < k ensures !enough(passed + Kept(f, s, j)) {
      KeptAfterPassing(f, passed, s, j);
    }
  }

  /** From any point of the scan on, the least sufficient number of further candidates is deleted. */
  lemma {:induction false} ScanRemovesLeast<T(!new)>(f: T -> bool, enough: seq<T> -> bool,
                                                     passed: seq<T>, s: seq<T>, gone: seq<T>) returns (k: nat)
    ensures k <= |Select(f, s, true)|
    ensures Scan(f, enough, passed + s, |passed|, gone) ==
            (passed + Kept(f, s, k), gone + Select(f, s, true)[..k])
    ensures TooFew(f, enough, passed, s, k)
    ensures enough(passed + Kept(f, s, k)) || k == |Select(f, s, true)|
    decreases |s|
  {
    var cur, i := passed + s, |passed|;
    if s == [] || enough(cur) {
      k := 0;
      assert gone + [] == gone;
    } else if f(s[0]) {
      assert cur[..i] + cur[i + 1..] == passed + s[1..];
      k := ScanRemovesLeast(f, enough, passed, s[1..], gone + [s[0]]);
      TooFewAfterDeleting(f, enough, passed, s, k);
      assert (gone + [s[0]]) + Select(f, s[1..], true)[..k] == gone + Select(f, s, true)[..k + 1];
      k := k + 1;
    } else {
      assert (passed + [s[0]]) + s[1..] == cur;
      k := ScanRemovesLeast(f, enough, passed + [s[0]], s[1..], gone);
      TooFewAfterPassing(f, enough, passed, s, k);
      KeptAfterPassing(f, passed, s, k);
    }
  }

  lemma ScanIsLeastRemoval<T(!new)>(f: T -> bool, enough: seq<T> -> bool, s: seq<T>)
    ensures LeastRemoval(f, enough, s, Scan(f, enough, s, 0, []).0, Scan(f, enough, s, 0, []).1)
  {
    var k := ScanRemovesLeast(f, enough, [], s, []);
    assert [] + s == s;
    assert [] + Kept(f, s, k) == Kept(f, s, k);
  }

  /** The order of the elements determines the outcome. */
  lemma LeastRemovalIsUnique<T(!new)>(f: T -> bool, enough: seq<T> -> bool, s: seq<T>,
                                      k1: seq<T>, g1: seq<T>, k2: seq<T>, g2: seq<T>)
    requires LeastRemoval(f, enough, s, k1, g1) && LeastRemoval(f, enough, s, k2, g2)
    ensures k1 == k2 && g1 == g2
  {
    assert [] + k1 == k1 && [] + k2 == k2;
    assert |g1| == |g2|;
  }

  /** It ends with enough removed or with no candidate left. */
  lemma EnoughOrNoCandidates<T(!new)>(f: T -> bool, enough: seq<T> -> bool, s: seq<T>, kept: seq<T>, gone: seq<T>)
    requires LeastRemoval(f, enough, s, kept, gone)
    ensures enough(kept) || forall x :: x in kept ==> !f(x)
  {
    if gone == Select(f, s, true) {
      assert s[..|s|] == s;
      KeptAtCut(f, s, |s|);
    }
  }

  /** It removes nothing exactly when there is enough already, or no candidate. */
  lemma NothingRemovedIff<T(!new)>(f: T -> bool, enough: seq<T> -> bool, s: seq<T>, kept: seq<T>, gone: seq<T>)
    requires LeastRemoval(f, enough, s, kept, gone)
    ensures gone == [] <==> enough(s) || forall x :: x in s ==> !f(x)
    ensures gone == [] ==> kept == s
  {
    var none: seq<T> := [];
    assert none + Kept(f, s, 0) == s;
    if forall x :: x in s ==> !f(x) { SelectNone(f, s); }
    if gone == [] && !enough(s) {
      forall x | x in s ensures !f(x) { assert x !in Select(f, s, true); }
    }
  }

  // ---------------------------------------------------------------- sorting

  predicate SortedBy<T>(less: (T, T) -> bool, s: seq<T>) {
    forall i, j :: 0 <= i < j < |s| ==> !less(s[j], s[i])
  }

  /** What a comparator must satisfy for sorting to make sense. */
  ghost predicate StrictWeakOrder<T(!new)>(less: (T, T) -> bool) {
    (forall a :: !less(a, a)) &&
    (forall a, b, c :: less(a, b) && less(b, c) ==> less(a, c)) &&
    (forall a, b, c :: !less(a, b) && !less(b, c) ==> !less(a, c))
  }

  function Insert<T(!new)>(less: (T, T) -> bool, x: T, s: seq<T>): (r: seq<T>)
    requires StrictWeakOrder(less) && SortedBy(less, s)
    ensures SortedBy(less, r) && multiset(r) == multiset(s) + multiset{x}
  {
    if s == [] then [x]
    else if !less(x, s[|s| - 1]) then s + [x]
    else
      var last, init := s[|s| - 1], s[..|s| - 1];
      var r := Insert(less, x, init);
      assert s == init + [last];
      assert forall i :: 0 <= i < |r| ==> !less(last, r[i]) by {
        forall i | 0 <= i < |r| ensures !less(last, r[i]) {
          assert r[i] in multiset(r);
          assert r[i] == x || r[i] in init;
        }
      }
      r + [last]
  }

  /** Some sorted permutation. */
  function SortedOf<T(!new)>(less: (T, T) -> bool, s: seq<T>): (r: seq<T>)
    requires StrictWeakOrder(less)
    ensures SortedBy(less, r) && multiset(r) == multiset(s)
  {
    if s == [] then []
    else
      assert s == s[..|s| - 1] + [s[|s| - 1]];
      Insert(less, s[|s| - 1], SortedOf(less, s[..|s| - 1]))
  }

  /** Stands for sort.Slice: callers learn only that the result is a sorted permutation. */
  method Sort<T(!new)>(less: (T, T) -> bool, s: seq<T>) returns (r: seq<T>)
    requires StrictWeakOrder(less)
    ensures SortedBy(less, r) && multiset(r) == multiset(s)
  {
    r := [];
    for i := 0 to |s|
      invariant SortedBy(less, r) && multiset(r) == multiset(s[..i])
    {
      assert s[..i + 1] == s[..i] + [s[i]];
      r := Insert(less, s[i], r);
    }
    assert s[..|s|] == s;
  }
}
