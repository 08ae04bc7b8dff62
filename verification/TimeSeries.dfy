/** Combining the time series of ReplicaSets into one series per Deployment container. */
module TimeSeries {
  import opened Sequences
  import Workloads

  datatype SamplePair = SamplePair(timestamp: int, value: real)

  /** The labels that are read. */
  datatype Stream = Stream(kind: string, namespace: string, name: string, container: string, values: seq<SamplePair>)

  const REPLICA_SET := "ReplicaSet"
  const DEPLOYMENT := "Deployment"

  // ---------------------------------------------------------------- the pointwise maximum

  predicate StrictlyIncreasing(s: seq<SamplePair>) {
    forall i, j :: 0 <= i < j < |s| ==> s[i].timestamp < s[j].timestamp
  }

  predicate HasPair(samples: seq<Stream>, p: SamplePair) {
    exists s :: s in samples && p in s.values
  }

  /** The largest value any stream has at this instant, attained by one of them. */
  ghost predicate IsMaxAt(samples: seq<Stream>, p: SamplePair) {
    HasPair(samples, p) && forall q :: HasPair(samples, q) && q.timestamp == p.timestamp ==> q.value <= p.value
  }

  /** Timestamps strictly increase, every instant of the input occurs, and each value is the maximum. */
  ghost predicate IsCombination(samples: seq<Stream>, r: seq<SamplePair>) {
    StrictlyIncreasing(r) &&
    (forall i :: 0 <= i < |r| ==> IsMaxAt(samples, r[i])) &&
    (forall q :: HasPair(samples, q) ==> Occurs(r, q.timestamp))
  }

  predicate Occurs(r: seq<SamplePair>, t: int) { exists i :: 0 <= i < |r| && r[i].timestamp == t }

  /** Two combinations of the same samples are the same sequence, so the order in which streams, samples
      or map entries are visited does not matter. */
  lemma {:induction false} CombinationIsUnique(a: seq<Stream>, b: seq<Stream>, r: seq<SamplePair>, s: seq<SamplePair>)
    requires forall q :: HasPair(a, q) <==> HasPair(b, q)
    requires IsCombination(a, r) && IsCombination(b, s)
    ensures r == s
  {
    forall t ensures Occurs(r, t) <==> Occurs(s, t) {
      if Occurs(r, t) {
        var i :| 0 <= i < |r| && r[i].timestamp == t;
        assert HasPair(b, r[i]);
      }
      if Occurs(s, t) {
        var i :| 0 <= i < |s| && s[i].timestamp == t;
        assert HasPair(a, s[i]);
      }
    }
    SameTimesSameSequence(r, s);
    forall i | 0 <= i < |r| ensures r[i] == s[i] {
      assert IsMaxAt(a, r[i]) && IsMaxAt(b, s[i]);
      assert HasPair(b, r[i]) && HasPair(a, s[i]);
    }
  }

  lemma {:induction false} SameTimesSameSequence(r: seq<SamplePair>, s: seq<SamplePair>)
    requires StrictlyIncreasing(r) && StrictlyIncreasing(s)
    requires forall t :: Occurs(r, t) <==> Occurs(s, t)
    ensures |r| == |s| && forall i :: 0 <= i < |r| ==> r[i].timestamp == s[i].timestamp
  {
    if r == [] {
      assert forall t :: !Occurs(s, t);
      NoTimes(s);
    } else {
      assert Occurs(r, r[|r| - 1].timestamp);
      var k :| 0 <= k < |s| && s[k].timestamp == r[|r| - 1].timestamp;
      assert Occurs(s, s[|s| - 1].timestamp);
      var m :| 0 <= m < |r| && r[m].timestamp == s[|s| - 1].timestamp;
      assert k == |s| - 1 && m == |r| - 1;
      var r', s' := r[..|r| - 1], s[..|s| - 1];
      forall t ensures Occurs(r', t) <==> Occurs(s', t) {
        WithoutLast(r, t);
        WithoutLast(s, t);
      }
      SameTimesSameSequence(r', s');
    }
  }

  lemma NoTimes(s: seq<SamplePair>)
    requires forall t :: !Occurs(s, t)
    ensures s == []
  {
    assert |s| == 0 || Occurs(s, s[0].timestamp);
  }

  lemma WithoutLast(r: seq<SamplePair>, t: int)
    requires r != [] && StrictlyIncreasing(r)
    ensures Occurs(r[..|r| - 1], t) <==> Occurs(r, t) && t != r[|r| - 1].timestamp
  {
    if Occurs(r[..|r| - 1], t) {
      var i :| 0 <= i < |r| - 1 && r[..|r| - 1][i].timestamp == t;
      assert r[i].timestamp == t;
    }
    if Occurs(r, t) && t != r[|r| - 1].timestamp {
      var i :| 0 <= i < |r| && r[i].timestamp == t;
      assert r[..|r| - 1][i] == r[i];
    }
  }

  // ---------------------------------------------------------------- collecting the maxima

  /** The pairs seen so far: all of the first `n` streams and `k` pairs of the next. */
  predicate Seen(samples: seq<Stream>, n: nat, k: nat, p: SamplePair)
    requires n <= |samples| && (n < |samples| ==> k <= |samples[n].values|)
  {
    (exists i :: 0 <= i < n && p in samples[i].values) || (n < |samples| && p in samples[n].values[..k])
  }

  ghost predicate HoldsMaxima(samples: seq<Stream>, n: nat, k: nat, maxima: map<int, real>)
    requires n <= |samples| && (n < |samples| ==> k <= |samples[n].values|)
  {
    (forall t :: t in maxima ==> Seen(samples, n, k, SamplePair(t, maxima[t]))) &&
    (forall p :: Seen(samples, n, k, p) ==> p.timestamp in maxima && p.value <= maxima[p.timestamp])
  }

  lemma SeenPush(samples: seq<Stream>, n: nat, k: nat, p: SamplePair)
    requires n < |samples| && k < |samples[n].values|
    ensures Seen(samples, n, k + 1, p) <==> Seen(samples, n, k, p) || p == samples[n].values[k]
  {
    assert samples[n].values[..k + 1] == samples[n].values[..k] + [samples[n].values[k]];
  }

  lemma SeenNext(samples: seq<Stream>, n: nat, p: SamplePair)
    requires n < |samples|
    ensures Seen(samples, n + 1, 0, p) <==> Seen(samples, n, |samples[n].values|, p)
  {
    assert samples[n].values[..|samples[n].values|] == samples[n].values;
    if Seen(samples, n, |samples[n].values|, p) && p in samples[n].values { assert 0 <= n < n + 1; }
  }

  lemma MaximaPush(samples: seq<Stream>, n: nat, k: nat, maxima: map<int, real>)
    requires n < |samples| && k < |samples[n].values| && HoldsMaxima(samples, n, k, maxima)
    ensures var p := samples[n].values[k];
            HoldsMaxima(samples, n, k + 1,
              if p.timestamp !in maxima || p.value > maxima[p.timestamp] then maxima[p.timestamp := p.value]
              else maxima)
  {
    forall p ensures Seen(samples, n, k + 1, p) <==> Seen(samples, n, k, p) || p == samples[n].values[k] {
      SeenPush(samples, n, k, p);
    }
  }

  method CollectMaxima(samples: seq<Stream>) returns (maxima: map<int, real>)
    ensures forall t :: t in maxima ==> HasPair(samples, SamplePair(t, maxima[t]))
    ensures forall p :: HasPair(samples, p) ==> p.timestamp in maxima && p.value <= maxima[p.timestamp]
  {
    maxima := map[];
    for n := 0 to |samples|
      invariant HoldsMaxima(samples, n, 0, maxima)
    {
      for k := 0 to |samples[n].values|
        invariant HoldsMaxima(samples, n, k, maxima)
      {
        MaximaPush(samples, n, k, maxima);
        var pair := samples[n].values[k];
        if pair.timestamp !in maxima || pair.value > maxima[pair.timestamp] {
          maxima := maxima[pair.timestamp := pair.value];
        }
      }
      forall p ensures Seen(samples, n + 1, 0, p) <==> Seen(samples, n, |samples[n].values|, p) {
        SeenNext(samples, n, p);
      }
    }
    forall p ensures Seen(samples, |samples|, 0, p) <==> HasPair(samples, p) {
      if HasPair(samples, p) {
        var s :| s in samples && p in s.values;
        var i :| 0 <= i < |samples| && samples[i] == s;
      }
    }
  }

  function ByTimestamp(): (SamplePair, SamplePair) -> bool {
    (a: SamplePair, b: SamplePair) => a.timestamp < b.timestamp
  }

  /** combineTimeSeriesByMax: the map is read in any order, then the pairs are sorted. */
  method CombineTimeSeriesByMax(samples: seq<Stream>) returns (result: seq<SamplePair>)
    ensures IsCombination(samples, result)
  {
    var maxima := CollectMaxima(samples);
    var pairs := ToPairs(maxima);
    result := Sort(ByTimestamp(), pairs);
    SortedPairs(pairs, result);
    forall i | 0 <= i < |result| ensures IsMaxAt(samples, result[i]) {
      assert result[i] in multiset(result);
      assert result[i] in pairs;
    }
    forall q | HasPair(samples, q) ensures Occurs(result, q.timestamp) {
      var p := SamplePair(q.timestamp, maxima[q.timestamp]);
      assert p in pairs;
      assert p in multiset(pairs);
      assert p in result;
    }
  }

  predicate DistinctTimes(s: seq<SamplePair>) {
    forall i, j :: 0 <= i < j < |s| ==> s[i].timestamp != s[j].timestamp
  }

  method ToPairs(maxima: map<int, real>) returns (pairs: seq<SamplePair>)
    ensures DistinctTimes(pairs)
    ensures forall p :: p in pairs <==> p.timestamp in maxima && maxima[p.timestamp] == p.value
  {
    pairs := [];
    var keys := maxima.Keys;
    while keys != {}
      invariant keys <= maxima.Keys
      invariant DistinctTimes(pairs)
      invariant forall p :: p in pairs <==>
                  p.timestamp in maxima && p.timestamp !in keys && maxima[p.timestamp] == p.value
    {
      var t := AnyOf(keys);
      assert forall i :: 0 <= i < |pairs| ==> pairs[i] in pairs;
      pairs := pairs + [SamplePair(t, maxima[t])];
      keys := keys - {t};
    }
  }

  /** Sorting pairs with distinct timestamps makes the timestamps strictly increase. */
  lemma SortedPairs(pairs: seq<SamplePair>, sorted: seq<SamplePair>)
    requires DistinctTimes(pairs) && SortedBy(ByTimestamp(), sorted) && multiset(sorted) == multiset(pairs)
    ensures StrictlyIncreasing(sorted)
  {
    forall i, j | 0 <= i < j < |sorted| ensures sorted[i].timestamp < sorted[j].timestamp {
      assert !ByTimestamp()(sorted[j], sorted[i]);
      if sorted[i].timestamp == sorted[j].timestamp {
        DuplicateTimes(pairs, sorted, i, j);
      }
    }
  }

  lemma DuplicateTimes(pairs: seq<SamplePair>, sorted: seq<SamplePair>, i: nat, j: nat)
    requires DistinctTimes(pairs) && multiset(sorted) == multiset(pairs)
    requires i < j < |sorted|
    ensures sorted[i].timestamp != sorted[j].timestamp
  {
    var a, b := sorted[i], sorted[j];
    assert a in multiset(pairs) && b in multiset(pairs);
    var x :| 0 <= x < |pairs| && pairs[x] == a;
    var y :| 0 <= y < |pairs| && pairs[y] == b;
    if x == y {
      TwiceInSorted(sorted, i, j);
      OnceInPairs(pairs, x);
    }
  }

  lemma TwiceInSorted(s: seq<SamplePair>, i: nat, j: nat)
    requires i < j < |s| && s[i] == s[j]
    ensures multiset(s)[s[i]] >= 2
  {
    assert s == s[..i + 1] + s[i + 1..];
    assert s[i] in s[..i + 1] && s[i] == s[i + 1..][j - i - 1] && s[i] in s[i + 1..];
    assert s[i] in multiset(s[..i + 1]) && s[i] in multiset(s[i + 1..]);
  }

  lemma OnceInPairs(s: seq<SamplePair>, x: nat)
    requires x < |s| && DistinctTimes(s)
    ensures multiset(s)[s[x]] == 1
  {
    assert s == s[..x] + ([s[x]] + s[x + 1..]);
    assert s[x] !in s[..x] && s[x] !in s[x + 1..];
  }

  // ---------------------------------------------------------------- ReplicaSets to Deployments

  /** The position after which no dash follows; the name's length when there is none. */
  function LastDash(s: string): (i: nat)
    ensures i <= |s| && ('-' in s ==> i < |s| && s[i] == '-' && '-' !in s[i + 1..])
  {
    if s == [] then 0
    else if s[|s| - 1] == '-' then |s| - 1
    else var i := LastDash(s[..|s| - 1]);
      assert i < |s| - 1 ==> s[i + 1..] == s[..|s| - 1][i + 1..] + [s[|s| - 1]];
      if i == |s| - 1 then |s| else i
  }

  function DeploymentName(replicaSet: string): string { replicaSet[..LastDash(replicaSet)] }

  /** The name of a Deployment is that of its ReplicaSet without the last dash and what follows it. */
  lemma DeploymentOfReplicaSet(deployment: string, hash: string)
    requires '-' !in hash
    ensures DeploymentName(deployment + ("-" + hash)) == deployment
  {
    var name, i := deployment + ("-" + hash), LastDash(deployment + ("-" + hash));
    assert name[|deployment|] == '-' && '-' in name;
  }

  function KeyOf(s: Stream): string { Workloads.WorkloadContainerKey(s.kind, s.namespace, s.name, s.container) }

  function GroupKey(s: Stream): string {
    Workloads.WorkloadContainerKey(DEPLOYMENT, s.namespace, DeploymentName(s.name), s.container)
  }

  /** The ReplicaSets of one Deployment share its key, container by container, and no others have it. */
  lemma GroupIsDeployment(s: Stream, deployment: string, hash: string, d: Stream)
    requires s.kind == "ReplicaSet" && s.name == deployment + ("-" + hash) && '-' !in hash
    requires PlainLabels(s) && PlainLabels(d) && ':' !in deployment && d.kind == "Deployment"
    ensures GroupKey(s) == KeyOf(d) <==>
            d.namespace == s.namespace && d.name == deployment && d.container == s.container
  {
    DeploymentOfReplicaSet(deployment, hash);
    KeyIsContainer(Stream(DEPLOYMENT, s.namespace, deployment, s.container, s.values), d);
  }

  function InGroup(key: string): Stream -> bool { (s: Stream) => s.kind == REPLICA_SET && GroupKey(s) == key }

  function IsReplicaSet(): Stream -> bool { (s: Stream) => s.kind == REPLICA_SET }

  /** The ReplicaSet streams that end up in one Deployment container, in order. */
  function GroupOf(matrix: seq<Stream>, key: string): seq<Stream> { Select(InGroup(key), matrix, true) }

  /** One output stream per group. */
  ghost predicate CombinesGroup(matrix: seq<Stream>, c: Stream) {
    c.kind == DEPLOYMENT && GroupOf(matrix, KeyOf(c)) != [] && IsCombination(GroupOf(matrix, KeyOf(c)), c.values)
  }

  predicate HasKey(streams: seq<Stream>, key: string) { exists i :: 0 <= i < |streams| && KeyOf(streams[i]) == key }

  /** The labels of a stream hold no colon, as Kubernetes names do. */
  predicate PlainLabels(s: Stream) {
    ':' !in s.kind && ':' !in s.namespace && ':' !in s.name && ':' !in s.container
  }

  /** With such labels, streams with different keys belong to different containers, so "one per key" is "one per
      Deployment container". */
  lemma KeyIsContainer(s: Stream, t: Stream)
    requires PlainLabels(s) && PlainLabels(t)
    ensures KeyOf(s) == KeyOf(t) <==>
            s.kind == t.kind && s.namespace == t.namespace && s.name == t.name && s.container == t.container
  {
    if KeyOf(s) == KeyOf(t) {
      Workloads.WorkloadContainerKeyInjective(s.kind, s.namespace, s.name, s.container,
                                              t.kind, t.namespace, t.name, t.container);
    }
  }

  /** combineReplicasetsToDeployments: other streams pass through in order, then follows exactly one stream
      per group, with the pointwise maximum of the group. A ReplicaSet name without a dash makes the slice of
      its name panic: `ok` is false exactly then. */
  method CombineReplicasetsToDeployments(matrix: seq<Stream>)
    returns (ok: bool, passed: seq<Stream>, deployments: seq<Stream>)
    ensures ok <==> forall s :: s in matrix && s.kind == REPLICA_SET ==> '-' in s.name
    ensures ok ==> passed == Select(IsReplicaSet(), matrix, false)
    ensures ok ==> forall c :: c in deployments ==> CombinesGroup(matrix, c)
    ensures ok ==> forall s :: s in matrix && s.kind == REPLICA_SET ==> HasKey(deployments, GroupKey(s))
    ensures forall i, j :: 0 <= i < j < |deployments| ==> KeyOf(deployments[i]) != KeyOf(deployments[j])
  {
    deployments := [];
    var groups: map<string, seq<Stream>>;
    ok, passed, groups := GroupStreams(matrix);
    if !ok { return; }
    assert matrix[..|matrix|] == matrix;
    var keys := groups.Keys;
    while keys != {}
      invariant keys <= groups.Keys
      invariant forall c :: c in deployments ==> CombinesGroup(matrix, c)
      invariant forall i :: 0 <= i < |deployments| ==> KeyOf(deployments[i]) in groups && KeyOf(deployments[i]) !in keys
      invariant forall k :: k in groups && k !in keys ==> HasKey(deployments, k)
      invariant forall i, j :: 0 <= i < j < |deployments| ==> KeyOf(deployments[i]) != KeyOf(deployments[j])
    {
      var key := AnyOf(keys);
      var c := CombineGroup(matrix, key, groups[key]);
      KeepsKeys(deployments, c);
      deployments := deployments + [c];
      keys := keys - {key};
    }
    forall s | s in matrix && s.kind == REPLICA_SET ensures HasKey(deployments, GroupKey(s)) {
      assert s in GroupOf(matrix, GroupKey(s));
    }
  }

  lemma KeepsKeys(streams: seq<Stream>, c: Stream)
    ensures forall k :: HasKey(streams, k) ==> HasKey(streams + [c], k)
    ensures HasKey(streams + [c], KeyOf(c))
  {
    forall k | HasKey(streams, k) ensures HasKey(streams + [c], k) {
      var i :| 0 <= i < |streams| && KeyOf(streams[i]) == k;
      assert (streams + [c])[i] == streams[i];
    }
    assert (streams + [c])[|streams|] == c;
  }

  method CombineGroup(matrix: seq<Stream>, key: string, samples: seq<Stream>) returns (c: Stream)
    requires samples == GroupOf(matrix, key) && samples != []
    ensures CombinesGroup(matrix, c) && KeyOf(c) == key
  {
    var template := samples[0];
    assert template in samples;
    var values := CombineTimeSeriesByMax(samples);
    c := Stream(DEPLOYMENT, template.namespace, DeploymentName(template.name), template.container, values);
  }

  /** The groups formed by the first `i` streams. */
  ghost predicate Grouped(matrix: seq<Stream>, i: nat, groups: map<string, seq<Stream>>)
    requires i <= |matrix|
  {
    (forall k :: k in groups ==> groups[k] == GroupOf(matrix[..i], k) && groups[k] != []) &&
    (forall k :: GroupOf(matrix[..i], k) != [] ==> k in groups)
  }

  function AddToGroup(groups: map<string, seq<Stream>>, s: Stream): map<string, seq<Stream>> {
    groups[GroupKey(s) := (if GroupKey(s) in groups then groups[GroupKey(s)] else []) + [s]]
  }

  lemma GroupedPush(matrix: seq<Stream>, i: nat, groups: map<string, seq<Stream>>)
    requires i < |matrix| && Grouped(matrix, i, groups)
    ensures Grouped(matrix, i + 1, if matrix[i].kind == REPLICA_SET then AddToGroup(groups, matrix[i]) else groups)
  {
    forall k ensures GroupOf(matrix[..i + 1], k) ==
           GroupOf(matrix[..i], k) + if InGroup(k)(matrix[i]) then [matrix[i]] else [] {
      GroupPush(matrix, i, k);
    }
    if matrix[i].kind == REPLICA_SET {
      var key, none := GroupKey(matrix[i]), GroupOf(matrix[..i], GroupKey(matrix[i]));
      assert key !in groups ==> none == [] && none + [matrix[i]] == [] + [matrix[i]];
    }
  }

  method GroupStreams(matrix: seq<Stream>)
    returns (ok: bool, passed: seq<Stream>, groups: map<string, seq<Stream>>)
    ensures ok <==> forall s :: s in matrix && s.kind == REPLICA_SET ==> '-' in s.name
    ensures ok ==> passed == Select(IsReplicaSet(), matrix, false)
    ensures ok ==> Grouped(matrix, |matrix|, groups)
  {
    ok, passed, groups := true, [], map[];
    for i := 0 to |matrix|
      invariant forall k :: 0 <= k < i && matrix[k].kind == REPLICA_SET ==> '-' in matrix[k].name
      invariant passed == Select(IsReplicaSet(), matrix[..i], false)
      invariant Grouped(matrix, i, groups)
    {
      GroupedPush(matrix, i, groups);
      PassedPush(matrix, i);
      if matrix[i].kind != REPLICA_SET {
        passed := passed + [matrix[i]];
        continue;
      }
      if '-' !in matrix[i].name { assert matrix[i] in matrix; return false, passed, groups; }
      groups := AddToGroup(groups, matrix[i]);
    }
    assert matrix[..|matrix|] == matrix;
  }

  lemma PassedPush(matrix: seq<Stream>, i: nat)
    requires i < |matrix|
    ensures Select(IsReplicaSet(), matrix[..i + 1], false) ==
            Select(IsReplicaSet(), matrix[..i], false) + if matrix[i].kind == REPLICA_SET then [] else [matrix[i]]
  {
    assert matrix[..i + 1] == matrix[..i] + [matrix[i]];
    SelectConcat(IsReplicaSet(), matrix[..i], [matrix[i]], false);
  }

  lemma GroupPush(matrix: seq<Stream>, i: nat, key: string)
    requires i < |matrix|
    ensures GroupOf(matrix[..i + 1], key) ==
            GroupOf(matrix[..i], key) + if InGroup(key)(matrix[i]) then [matrix[i]] else []
  {
    assert matrix[..i + 1] == matrix[..i] + [matrix[i]];
    SelectConcat(InGroup(key), matrix[..i], [matrix[i]], true);
  }

  /** The series of a Deployment container does not depend on the order of the input streams. */
  lemma CombinationIgnoresOrder(a: seq<Stream>, b: seq<Stream>, c: Stream, d: Stream)
    requires multiset(a) == multiset(b) && CombinesGroup(a, c) && CombinesGroup(b, d) && KeyOf(c) == KeyOf(d)
    ensures c.values == d.values
  {
    var key := KeyOf(c);
    forall s ensures s in a <==> s in b {
      assert s in multiset(a) <==> s in a;
      assert s in multiset(b) <==> s in b;
    }
    forall q ensures HasPair(GroupOf(a, key), q) <==> HasPair(GroupOf(b, key), q) {
      if HasPair(GroupOf(a, key), q) {
        var s :| s in GroupOf(a, key) && q in s.values;
        assert s in GroupOf(b, key);
      }
      if HasPair(GroupOf(b, key), q) {
        var s :| s in GroupOf(b, key) && q in s.values;
        assert s in GroupOf(a, key);
      }
    }
    CombinationIsUnique(GroupOf(a, key), GroupOf(b, key), c.values, d.values);
  }
}
