/**
 Grouping CPUs into clusters: a disjoint-set forest with path halving, kept in one
 array, and the pass that reads the clusters off it.
 */
module CpuClusters {

  // ---------- the forest as a value ----------

  /** Parents never exceed their children. */
  predicate Forest(e: seq<nat>) {
    forall i | 0 <= i < |e| :: e[i] <= i
  }

  function Root(e: seq<nat>, i: nat): (r: nat)
    requires Forest(e) && i < |e|
    ensures r <= i && e[r] == r
  {
    if e[i] == i then i else Root(e, e[i])
  }

  predicate SameRoots(e: seq<nat>, e': seq<nat>) {
    && Forest(e) && Forest(e') && |e'| == |e|
    && forall i | 0 <= i < |e| :: Root(e', i) == Root(e, i)
  }

  /** Pointing a node at its grandparent moves nobody to another tree. */
  lemma {:induction false} HalvingKeepsRoot(e: seq<nat>, n: nat, i: nat)
    requires Forest(e) && n < |e| && i < |e|
    ensures Forest(e[n := e[e[n]]]) && Root(e[n := e[e[n]]], i) == Root(e, i)
    decreases i
  {
    var e' := e[n := e[e[n]]];
    assert Forest(e');
    if e[i] != i {
      HalvingKeepsRoot(e, n, e[i]);
      if i == n && e[e[i]] != i {
        HalvingKeepsRoot(e, n, e[e[i]]);
      }
    }
  }

  function Min(a: nat, b: nat): nat {
    if a <= b then a else b
  }

  function Max(a: nat, b: nat): nat {
    if a <= b then b else a
  }

  /** Where a node ends up once the trees of the roots a and b are joined. */
  function Merged(r: nat, a: nat, b: nat): nat {
    if r == a || r == b then Min(a, b) else r
  }

  predicate Joins(e: seq<nat>, e': seq<nat>, a: nat, b: nat) {
    && Forest(e) && Forest(e') && |e'| == |e| && a < |e| && b < |e|
    && forall i | 0 <= i < |e| :: Root(e', i) == Merged(Root(e, i), Root(e, a), Root(e, b))
  }

  /** Hanging one root below the other joins exactly those two trees. */
  lemma {:induction false} LinkMerges(e: seq<nat>, a: nat, b: nat, i: nat)
    requires Forest(e) && i < |e| && a < |e| && b < |e| && e[a] == a && e[b] == b && a != b
    ensures Forest(e[Max(a, b) := Min(a, b)]) && Root(e[Max(a, b) := Min(a, b)], i) == Merged(Root(e, i), a, b)
    decreases i
  {
    var e' := e[Max(a, b) := Min(a, b)];
    assert Forest(e');
    if i == Max(a, b) {
      assert e'[Min(a, b)] == Min(a, b);
    } else if e[i] != i {
      LinkMerges(e, a, b, e[i]);
    }
  }

  lemma LinkMergesAll(e: seq<nat>, a: nat, b: nat)
    requires Forest(e) && a < |e| && b < |e| && e[a] == a && e[b] == b && a != b
    ensures Forest(e[Max(a, b) := Min(a, b)])
    ensures forall i | 0 <= i < |e| :: Root(e[Max(a, b) := Min(a, b)], i) == Merged(Root(e, i), a, b)
  {
    LinkMerges(e, a, b, a);
    forall i | 0 <= i < |e| ensures Root(e[Max(a, b) := Min(a, b)], i) == Merged(Root(e, i), a, b) {
      LinkMerges(e, a, b, i);
    }
  }

  /** Every node points straight at its root. */
  predicate Flat(e: seq<nat>, upTo: nat)
    requires Forest(e) && upTo <= |e|
  {
    forall i | 0 <= i < upTo :: e[i] == Root(e, i)
  }

  function RootsBelow(e: seq<nat>, n: nat): set<nat>
    requires n <= |e|
  {
    set i | 0 <= i < n && e[i] == i
  }

  class ClusterMap {
    const elements: array<nat>

    constructor (count: nat)
      ensures fresh(elements) && elements.Length == count
      ensures Forest(elements[..]) && forall i | 0 <= i < count :: Root(elements[..], i) == i
    {
      elements := new nat[count];
      new;
      for i := 0 to count
        invariant forall j | 0 <= j < i :: elements[j] == j
      {
        elements[i] := i;
      }
    }

    /** FindSet: path halving on the way to the root. */
    method FindSet(start: nat) returns (root: nat)
      requires Forest(elements[..]) && start < elements.Length
      modifies elements
      ensures SameRoots(old(elements[..]), elements[..])
      ensures root == Root(elements[..], start)
      ensures Flat(old(elements[..]), start) ==> Flat(elements[..], start + 1)
    {
      var node: nat := start;
      while true
        invariant node <= start && SameRoots(old(elements[..]), elements[..])
        invariant Root(elements[..], node) == Root(elements[..], start)
        invariant Flat(old(elements[..]), start) ==> Flat(elements[..], start)
        invariant Flat(old(elements[..]), start) && node != start ==> Flat(elements[..], start + 1)
        decreases node
      {
        ghost var e := elements[..];
        var parent := elements[node];
        var grandparent := elements[parent];
        if parent == grandparent {
          return parent;
        }
        forall i | 0 <= i < |e|
          ensures Forest(e[node := grandparent]) && Root(e[node := grandparent], i) == Root(e, i)
        {
          HalvingKeepsRoot(e, node, i);
        }
        elements[node] := grandparent;
        assert elements[..] == e[node := grandparent];
        node := parent;
      }
    }

    /** UnionSets. */
    method UnionSets(a: nat, b: nat)
      requires Forest(elements[..]) && a < elements.Length && b < elements.Length
      modifies elements
      ensures Joins(old(elements[..]), elements[..], a, b)
    {
      ghost var joined := false;
      while true
        invariant Forest(elements[..])
        invariant !joined ==> SameRoots(old(elements[..]), elements[..])
        invariant joined ==> Joins(old(elements[..]), elements[..], a, b)
        decreases !joined
      {
        var rootA := FindSet(a);
        var rootB := FindSet(b);
        if rootA == rootB {
          return;
        }
        ghost var e := elements[..];
        LinkMergesAll(e, rootA, rootB);
        if rootA < rootB {
          elements[rootB] := rootA;
        } else {
          elements[rootA] := rootB;
        }
        assert elements[..] == e[Max(rootA, rootB) := Min(rootA, rootB)];
        joined := true;
      }
    }

    method ClusterCount() returns (count: nat)
      ensures count == |RootsBelow(elements[..], elements.Length)|
    {
      count := 0;
      for i := 0 to elements.Length
        invariant count == |RootsBelow(elements[..], i)|
      {
        assert RootsBelow(elements[..], i + 1) ==
               if elements[i] == i then RootsBelow(elements[..], i) + {i} else RootsBelow(elements[..], i);
        if elements[i] == i {
          count := count + 1;
        }
      }
    }

    /** MemberCount: counts a root's members and, on the way, flattens the whole forest. */
    method MemberCount(root: nat) returns (count: nat)
      requires Forest(elements[..])
      modifies elements
      ensures SameRoots(old(elements[..]), elements[..]) && Flat(elements[..], elements.Length)
      ensures count == |MembersBelow(elements[..], root, elements.Length)|
    {
      count := 0;
      ghost var e0 := elements[..];
      for i := 0 to elements.Length
        invariant SameRoots(e0, elements[..]) && Flat(elements[..], i)
        invariant count == |MembersBelow(e0, root, i)|
      {
        var r := FindSet(i);
        MembersGrow(e0, root, i);
        if r == root {
          count := count + 1;
        }
      }
      SameMembers(e0, elements[..], root, elements.Length);
    }
  }

  function MembersBelow(e: seq<nat>, root: nat, n: nat): set<nat>
    requires Forest(e) && n <= |e|
  {
    set i | 0 <= i < n && Root(e, i) == root
  }

  lemma MembersGrow(e: seq<nat>, root: nat, i: nat)
    requires Forest(e) && i < |e|
    ensures |MembersBelow(e, root, i + 1)| == |MembersBelow(e, root, i)| + if Root(e, i) == root then 1 else 0
  {
    assert MembersBelow(e, root, i + 1) ==
           if Root(e, i) == root then MembersBelow(e, root, i) + {i} else MembersBelow(e, root, i);
  }

  lemma NoMembers(e: seq<nat>, root: nat)
    requires Forest(e)
    ensures |MembersBelow(e, root, 0)| == 0
  {
    assert MembersBelow(e, root, 0) == {};
  }

  lemma SameMembers(e: seq<nat>, e': seq<nat>, root: nat, n: nat)
    requires SameRoots(e, e') && n <= |e|
    ensures MembersBelow(e', root, n) == MembersBelow(e, root, n)
  {
  }

  // ---------- connected components ----------

  /** CpuDistanceMap, read with the smaller CPU first as DoAutoCluster does. */
  datatype Distances = Distances(count: nat, of: (nat, nat) -> int, threshold: int)

  predicate Near(d: Distances, i: nat, j: nat) {
    i < d.count && j < d.count && i != j && d.of(Min(i, j), Max(i, j)) < d.threshold
  }

  ghost predicate IsPath(d: Distances, p: seq<nat>, i: nat, j: nat) {
    && |p| > 0 && p[0] == i && p[|p| - 1] == j
    && forall k | 0 <= k < |p| - 1 :: Near(d, p[k], p[k + 1])
  }

  /** i and j are linked by a chain of CPUs, each near the next. */
  ghost predicate Connected(d: Distances, i: nat, j: nat) {
    exists p :: IsPath(d, p, i, j)
  }

  lemma ConnectedSelf(d: Distances, i: nat)
    ensures Connected(d, i, i)
  {
    assert IsPath(d, [i], i, i);
  }

  lemma ConnectedTrans(d: Distances, i: nat, j: nat, k: nat)
    requires Connected(d, i, j) && Connected(d, j, k)
    ensures Connected(d, i, k)
  {
    var p :| IsPath(d, p, i, j);
    var q :| IsPath(d, q, j, k);
    assert IsPath(d, p + q[1..], i, k);
  }

  lemma ConnectedSym(d: Distances, i: nat, j: nat)
    requires Connected(d, i, j)
    ensures Connected(d, j, i)
  {
    var p :| IsPath(d, p, i, j);
    var q := seq(|p|, k requires 0 <= k < |p| => p[|p| - 1 - k]);
    forall k | 0 <= k < |q| - 1 ensures Near(d, q[k], q[k + 1]) {
      assert Near(d, p[|p| - 2 - k], p[|p| - 2 - k + 1]);
    }
    assert IsPath(d, q, j, i);
  }

  /** Nobody is filed with a CPU it is not connected to. */
  ghost predicate Grounded(d: Distances, e: seq<nat>) {
    Forest(e) && |e| == d.count && forall i | 0 <= i < d.count :: Connected(d, i, Root(e, i))
  }

  /** The near pairs already looked at share a root. */
  predicate Joined(d: Distances, e: seq<nat>, i: nat, j: nat) {
    && Forest(e) && |e| == d.count
    && forall x, y | 0 <= x < y < d.count && (x < i || (x == i && y < j)) && Near(d, x, y) :: Root(e, x) == Root(e, y)
  }

  lemma JoinKeepsGrounded(d: Distances, e: seq<nat>, e': seq<nat>, a: nat, b: nat)
    requires Grounded(d, e) && Near(d, a, b) && Joins(e, e', a, b)
    ensures Grounded(d, e')
  {
    var ra, rb := Root(e, a), Root(e, b);
    assert Connected(d, ra, rb) by {
      assert IsPath(d, [a, b], a, b);
      ConnectedSym(d, a, ra);
      ConnectedTrans(d, ra, a, b);
      ConnectedTrans(d, ra, b, rb);
    }
    ConnectedSym(d, ra, rb);
    ConnectedSelf(d, ra);
    ConnectedSelf(d, rb);
    forall i | 0 <= i < d.count ensures Connected(d, i, Root(e', i)) {
      var r := Root(e, i);
      if r == ra || r == rb {
        assert Connected(d, r, Min(ra, rb));
        ConnectedTrans(d, i, r, Min(ra, rb));
      }
    }
  }

  lemma {:induction false} PathSharesRoot(d: Distances, e: seq<nat>, p: seq<nat>, i: nat, j: nat)
    requires Joined(d, e, d.count, 0) && IsPath(d, p, i, j) && i < d.count
    ensures j < d.count && Root(e, i) == Root(e, j)
    decreases |p|
  {
    if |p| > 1 {
      assert Near(d, p[0], p[1]);
      assert Root(e, Min(p[0], p[1])) == Root(e, Max(p[0], p[1]));
      forall k | 0 <= k < |p[1..]| - 1 ensures Near(d, p[1..][k], p[1..][k + 1]) {
        assert Near(d, p[k + 1], p[k + 2]);
      }
      PathSharesRoot(d, e, p[1..], p[1], j);
    }
  }

  /** The trees of the finished forest are exactly the connected components. */
  lemma RootsAreComponents(d: Distances, e: seq<nat>, i: nat, j: nat)
    requires Grounded(d, e) && Joined(d, e, d.count, 0) && i < d.count && j < d.count
    ensures Root(e, i) == Root(e, j) <==> Connected(d, i, j)
  {
    if Root(e, i) == Root(e, j) {
      ConnectedSym(d, j, Root(e, j));
      ConnectedTrans(d, i, Root(e, i), j);
    }
    if p :| IsPath(d, p, i, j) {
      PathSharesRoot(d, e, p, i, j);
    }
  }

  lemma RowStarts(d: Distances, e: seq<nat>, i: nat)
    requires Joined(d, e, i, 0)
    ensures Joined(d, e, i, i + 1)
  {
  }

  lemma RowEnds(d: Distances, e: seq<nat>, i: nat)
    requires Joined(d, e, i, d.count)
    ensures Joined(d, e, i + 1, 0)
  {
  }

  lemma PairLooked(d: Distances, e: seq<nat>, e': seq<nat>, i: nat, j: nat)
    requires Joined(d, e, i, j) && i < j < d.count
    requires if Near(d, i, j) then Joins(e, e', i, j) else e' == e
    ensures Joined(d, e', i, j + 1)
  {
    forall x, y | 0 <= x < y < d.count && (x < i || (x == i && y < j + 1)) && Near(d, x, y)
      ensures Root(e', x) == Root(e', y)
    {
      assert (x == i && y == j) || Root(e, x) == Root(e, y);
    }
  }

  lemma Fresh(d: Distances, e: seq<nat>)
    requires Forest(e) && |e| == d.count && forall i | 0 <= i < d.count :: Root(e, i) == i
    ensures Grounded(d, e) && Joined(d, e, 0, 0)
  {
    forall i | 0 <= i < d.count ensures Connected(d, i, Root(e, i)) { ConnectedSelf(d, i); }
  }

  /** The agglomerative pass over all pairs. */
  method Agglomerate(d: Distances) returns (m: ClusterMap)
    ensures fresh(m) && fresh(m.elements) && m.elements.Length == d.count
    ensures Grounded(d, m.elements[..]) && Joined(d, m.elements[..], d.count, 0)
  {
    m := new ClusterMap(d.count);
    Fresh(d, m.elements[..]);
    hide Connected;
    for i := 0 to d.count
      invariant Grounded(d, m.elements[..]) && Joined(d, m.elements[..], i, 0)
    {
      RowStarts(d, m.elements[..], i);
      for j := i + 1 to d.count
        invariant Grounded(d, m.elements[..]) && Joined(d, m.elements[..], i, j)
      {
        ghost var e := m.elements[..];
        if d.of(i, j) < d.threshold {
          m.UnionSets(i, j);
          JoinKeepsGrounded(d, e, m.elements[..], i, j);
        }
        PairLooked(d, e, m.elements[..], i, j);
      }
      RowEnds(d, m.elements[..], i);
    }
  }

  // ---------- reading the clusters off the forest ----------

  /** The members of root among the CPUs below n, in increasing order. */
  function Listed(e: seq<nat>, root: nat, n: nat): (l: seq<nat>)
    requires Forest(e) && n <= |e|
    ensures forall i :: i in l <==> 0 <= i < n && Root(e, i) == root
    ensures forall x, y | 0 <= x < y < |l| :: l[x] < l[y]
  {
    if n == 0 then []
    else if Root(e, n - 1) == root then
      var l := Listed(e, root, n - 1);
      assert forall x | 0 <= x < |l| :: l[x] in l;
      l + [n - 1]
    else Listed(e, root, n - 1)
  }

  lemma {:induction false} ListedCount(e: seq<nat>, root: nat, n: nat)
    requires Forest(e) && n <= |e|
    ensures |Listed(e, root, n)| == |MembersBelow(e, root, n)|
    decreases n
  {
    hide MembersBelow, Forest;
    if n > 0 {
      ListedCount(e, root, n - 1);
      MembersGrow(e, root, n - 1);
    } else {
      NoMembers(e, root);
    }
  }

  /** cpu_to_cluster_map entry: cluster id and position among its members. */
  datatype Entry = Entry(cluster: nat, index: nat)

  datatype ClusterSet = ClusterSet(clusters: seq<seq<nat>>, entries: map<nat, Entry>)

  /** No cluster is empty and members are listed in increasing order. */
  predicate Ascending(s: ClusterSet) {
    && (forall c | 0 <= c < |s.clusters| :: s.clusters[c] != [])
    && (forall c, x, y | 0 <= c < |s.clusters| && 0 <= x < y < |s.clusters[c]| :: s.clusters[c][x] < s.clusters[c][y])
  }

  /** Every member's entry says where it is listed. */
  predicate Located(s: ClusterSet) {
    forall c, x | 0 <= c < |s.clusters| && 0 <= x < |s.clusters[c]| ::
      s.clusters[c][x] in s.entries && s.entries[s.clusters[c][x]] == Entry(c, x)
  }

  predicate At(s: ClusterSet, i: nat, n: Entry) {
    n.cluster < |s.clusters| && n.index < |s.clusters[n.cluster]| && s.clusters[n.cluster][n.index] == i
  }

  /** Every entry points at the place where its CPU is listed. */
  predicate Filed(s: ClusterSet) {
    forall i :: i in s.entries ==> At(s, i, s.entries[i])
  }

  /** Clusters and the CPU map describe each other. */
  predicate Consistent(s: ClusterSet) {
    Ascending(s) && Located(s) && Filed(s)
  }

  /** The CPUs filed so far are those whose root is below n, filed together exactly if they share it. */
  ghost predicate Grouped(e: seq<nat>, s: ClusterSet, n: nat)
    requires Forest(e) && n <= |e|
  {
    && (forall i: nat :: i in s.entries <==> i < |e| && Root(e, i) < n)
    && (forall i: nat, j: nat :: i in s.entries && j in s.entries && i < |e| && j < |e| ==>
          (s.entries[i].cluster == s.entries[j].cluster <==> Root(e, i) == Root(e, j)))
  }

  /** After the roots below n have been handled: one cluster per root. */
  ghost predicate Filled(e: seq<nat>, s: ClusterSet, n: nat)
    requires Forest(e) && n <= |e|
  {
    Consistent(s) && Grouped(e, s, n) && |s.clusters| == |RootsBelow(e, n)|
  }

  /** The CPU map with one more cluster written into it. */
  function Record(entries: map<nat, Entry>, id: nat, members: seq<nat>): map<nat, Entry> {
    if members == [] then entries
    else Record(entries, id, members[..|members| - 1])[members[|members| - 1] := Entry(id, |members| - 1)]
  }

  ghost predicate Recorded(entries: map<nat, Entry>, id: nat, members: seq<nat>, r: map<nat, Entry>) {
    && (forall i :: i in r <==> i in entries || i in members)
    && (forall x | 0 <= x < |members| :: r[members[x]] == Entry(id, x))
    && (forall i :: i in entries && i !in members ==> r[i] == entries[i])
  }

  lemma {:induction false} RecordSays(entries: map<nat, Entry>, id: nat, members: seq<nat>)
    requires forall x, y | 0 <= x < y < |members| :: members[x] < members[y]
    ensures Recorded(entries, id, members, Record(entries, id, members))
    decreases |members|
  {
    if members != [] {
      var rest, last := members[..|members| - 1], members[|members| - 1];
      RecordSays(entries, id, rest);
      assert members == rest + [last];
      forall x | 0 <= x < |members| ensures Record(entries, id, members)[members[x]] == Entry(id, x) {
        if x < |rest| { assert rest[x] == members[x] < last; }
      }
    }
  }

  lemma FlatRoot(e: seq<nat>, now: seq<nat>, j: nat)
    requires SameRoots(e, now) && Flat(now, |now|) && j < |now|
    ensures now[j] == Root(e, j)
  {
  }

  lemma RecordOne(entries: map<nat, Entry>, id: nat, members: seq<nat>, j: nat)
    ensures Record(entries, id, members + [j]) == Record(entries, id, members)[j := Entry(id, |members|)]
  {
    assert (members + [j])[..|members|] == members;
  }

  /** One turn of the inner loop, over plain sequences. */
  lemma ListedOne(e: seq<nat>, now: seq<nat>, root: nat, j: nat)
    requires SameRoots(e, now) && Flat(now, |now|) && j < |now|
    ensures Listed(e, root, j + 1) == if now[j] == root then Listed(e, root, j) + [j] else Listed(e, root, j)
  {
    FlatRoot(e, now, j);
  }

  /** The inner loop of DoAutoCluster: collect the CPUs whose direct parent is the root. */
  method FillCluster(m: ClusterMap, root: nat, id: nat, entries: map<nat, Entry>, ghost e: seq<nat>)
    returns (members: seq<nat>, entries': map<nat, Entry>)
    requires SameRoots(e, m.elements[..]) && Flat(m.elements[..], m.elements.Length)
    ensures members == Listed(e, root, |e|) && entries' == Record(entries, id, members)
  {
    members, entries' := [], entries;
    ghost var now := m.elements[..];
    assert |now| == |e| && Listed(e, root, 0) == [];
    hide SameRoots, Flat, Forest, Listed, Record;
    for j := 0 to m.elements.Length
      invariant members == Listed(e, root, j) && entries' == Record(entries, id, members)
    {
      ListedOne(e, now, root, j);
      if m.elements[j] == root {
        RecordOne(entries, id, members, j);
        entries' := entries'[j := Entry(id, |members|)];
        members := members + [j];
      }
    }
  }

  lemma RootOrNothing(e: seq<nat>, i: nat)
    requires Forest(e) && i < |e|
    ensures |MembersBelow(e, i, |e|)| != 0 <==> e[i] == i
    ensures RootsBelow(e, i + 1) == if e[i] == i then RootsBelow(e, i) + {i} else RootsBelow(e, i)
  {
    if e[i] == i {
      assert i in MembersBelow(e, i, |e|);
    } else {
      assert MembersBelow(e, i, |e|) == {};
    }
  }

  lemma NewClusterLocated(s: ClusterSet, members: seq<nat>, r: map<nat, Entry>)
    requires Located(s) && Recorded(s.entries, |s.clusters|, members, r)
    requires forall i :: i in members ==> i !in s.entries
    ensures Located(ClusterSet(s.clusters + [members], r))
  {
    var s' := ClusterSet(s.clusters + [members], r);
    forall c, x | 0 <= c < |s'.clusters| && 0 <= x < |s'.clusters[c]|
      ensures s'.clusters[c][x] in s'.entries && s'.entries[s'.clusters[c][x]] == Entry(c, x)
    {
      if c < |s.clusters| {
        assert s.clusters[c][x] in s.entries;
      } else {
        assert members[x] in members;
      }
    }
  }

  lemma NewClusterFiled(s: ClusterSet, members: seq<nat>, r: map<nat, Entry>)
    requires Filed(s) && Recorded(s.entries, |s.clusters|, members, r)
    ensures Filed(ClusterSet(s.clusters + [members], r))
  {
    var s' := ClusterSet(s.clusters + [members], r);
    forall i | i in s'.entries ensures At(s', i, s'.entries[i]) {
      if i in members {
        var x :| 0 <= x < |members| && members[x] == i;
      } else {
        assert At(s, i, s.entries[i]);
      }
    }
  }

  lemma NewClusterConsistent(s: ClusterSet, members: seq<nat>, r: map<nat, Entry>)
    requires Consistent(s) && members != [] && Recorded(s.entries, |s.clusters|, members, r)
    requires forall x, y | 0 <= x < y < |members| :: members[x] < members[y]
    requires forall i :: i in members ==> i !in s.entries
    ensures Consistent(ClusterSet(s.clusters + [members], r))
  {
    NewClusterLocated(s, members, r);
    NewClusterFiled(s, members, r);
    hide Located, Filed;
  }

  /** Where a CPU is filed after one more cluster: in the new one, or where it was. */
  lemma NewClusterOf(s: ClusterSet, l: seq<nat>, r: map<nat, Entry>, x: nat)
    requires Filed(s) && Recorded(s.entries, |s.clusters|, l, r) && x in r
    ensures x in l ==> r[x].cluster == |s.clusters|
    ensures x !in l ==> x in s.entries && r[x].cluster == s.entries[x].cluster < |s.clusters|
  {
    if x in l {
      var k :| 0 <= k < |l| && l[k] == x;
    } else {
      assert At(s, x, s.entries[x]);
    }
  }

  lemma NewClusterGroups(e: seq<nat>, s: ClusterSet, i: nat, l: seq<nat>, r: map<nat, Entry>)
    requires Forest(e) && i < |e| && Filed(s) && Grouped(e, s, i)
    requires Recorded(s.entries, |s.clusters|, l, r) && forall x: nat :: x in l <==> x < |e| && Root(e, x) == i
    ensures Grouped(e, ClusterSet(s.clusters + [l], r), i + 1)
  {
    forall x: nat ensures x in r <==> x < |e| && Root(e, x) < i + 1 {}
    hide Filed, Recorded;
    forall x: nat, y: nat | x in r && y in r && x < |e| && y < |e|
      ensures r[x].cluster == r[y].cluster <==> Root(e, x) == Root(e, y)
    {
      NewClusterOf(s, l, r, x);
      NewClusterOf(s, l, r, y);
    }
  }

  lemma NotYetFiled(e: seq<nat>, s: ClusterSet, i: nat, l: seq<nat>)
    requires Forest(e) && i < |e| && Grouped(e, s, i) && forall x: nat :: x in l <==> x < |e| && Root(e, x) == i
    ensures forall x :: x in l ==> x !in s.entries
  {
  }

  lemma NewClusterFilled(e: seq<nat>, s: ClusterSet, i: nat, l: seq<nat>, r: map<nat, Entry>)
    requires Forest(e) && i < |e| && Filled(e, s, i) && e[i] == i
    requires l == Listed(e, i, |e|) && r == Record(s.entries, |s.clusters|, l)
    ensures Filled(e, ClusterSet(s.clusters + [l], r), i + 1)
  {
    hide Record, Listed, Recorded, Grouped, Located, Filed, Ascending;
    assert i in l;
    RecordSays(s.entries, |s.clusters|, l);
    RootOrNothing(e, i);
    NotYetFiled(e, s, i, l);
    NewClusterConsistent(s, l, r);
    NewClusterGroups(e, s, i, l, r);
  }

  lemma NoClusterFilled(e: seq<nat>, s: ClusterSet, i: nat)
    requires Forest(e) && i < |e| && Filled(e, s, i) && e[i] != i
    ensures Filled(e, s, i + 1)
  {
    hide Consistent;
    RootOrNothing(e, i);
  }

  lemma FilledIsResult(d: Distances, e: seq<nat>, s: ClusterSet)
    requires Grounded(d, e) && Joined(d, e, d.count, 0) && Filled(e, s, d.count)
    ensures Consistent(s) && forall i: nat :: i in s.entries <==> i < d.count
    ensures Partition(d, s) && |s.clusters| == |RootsBelow(e, d.count)|
  {
    hide Consistent;
    assert forall i: nat :: i in s.entries <==> i < d.count;
    forall i, j | 0 <= i < d.count && 0 <= j < d.count
      ensures s.entries[i].cluster == s.entries[j].cluster <==> Connected(d, i, j)
    {
      RootsAreComponents(d, e, i, j);
    }
  }

  /** Two CPUs share a cluster exactly when they are connected. */
  ghost predicate Partition(d: Distances, s: ClusterSet)
    requires forall i: nat :: i in s.entries <==> i < d.count
  {
    forall i, j | 0 <= i < d.count && 0 <= j < d.count ::
      s.entries[i].cluster == s.entries[j].cluster <==> Connected(d, i, j)
  }

  /** What was allocated before filling: one slot per cluster, one per member. */
  predicate Fits(clusters: seq<seq<nat>>, memberCounts: seq<nat>) {
    |memberCounts| == |clusters| && forall c | 0 <= c < |clusters| :: |clusters[c]| == memberCounts[c]
  }

  /** A CPU that counts members is a root, and its cluster has the size counted. */
  lemma ClusterAdded(e: seq<nat>, now: seq<nat>, s: ClusterSet, i: nat, l: seq<nat>, r: map<nat, Entry>, n: nat)
    requires SameRoots(e, now) && i < |e| && Filled(e, s, i) && n == |MembersBelow(now, i, |e|)| && n != 0
    requires l == Listed(e, i, |e|) && r == Record(s.entries, |s.clusters|, l)
    ensures Filled(e, ClusterSet(s.clusters + [l], r), i + 1) && |l| == n
  {
    hide Filled, Record, Listed;
    SameMembers(e, now, i, |e|);
    RootOrNothing(e, i);
    ListedCount(e, i, |e|);
    NewClusterFilled(e, s, i, l, r);
  }

  lemma ClusterSkipped(e: seq<nat>, now: seq<nat>, s: ClusterSet, i: nat)
    requires SameRoots(e, now) && i < |e| && Filled(e, s, i) && |MembersBelow(now, i, |e|)| == 0
    ensures Filled(e, s, i + 1)
  {
    hide Filled;
    SameMembers(e, now, i, |e|);
    RootOrNothing(e, i);
    NoClusterFilled(e, s, i);
  }

  lemma SameRootsTrans(e: seq<nat>, e': seq<nat>, e'': seq<nat>)
    requires SameRoots(e, e') && SameRoots(e', e'')
    ensures SameRoots(e, e'') && Forest(e'') && |e''| == |e|
  {
  }

  lemma Starting(d: Distances, e: seq<nat>)
    requires Grounded(d, e)
    ensures Forest(e) && |e| == d.count && SameRoots(e, e) && Filled(e, ClusterSet([], map[]), 0)
  {
    NothingFilled(e);
  }

  /** DoAutoCluster; the counts are the sizes it allocates before it fills anything in. */
  method DoAutoCluster(d: Distances) returns (s: ClusterSet, clusterCount: nat, memberCounts: seq<nat>)
    ensures Consistent(s)
    ensures forall i: nat :: i in s.entries <==> i < d.count
    ensures Partition(d, s)
    ensures |s.clusters| == clusterCount && Fits(s.clusters, memberCounts)
  {
    hide Filled, Consistent, Grounded, Joined, Record, Listed, Partition, SameRoots, Forest, Flat;
    hide MembersBelow, RootsBelow;
    var m := Agglomerate(d);
    ghost var e := m.elements[..];
    clusterCount := m.ClusterCount();
    s, memberCounts := ClusterSet([], map[]), [];
    Starting(d, e);
    for i := 0 to d.count
      invariant Forest(m.elements[..]) && SameRoots(e, m.elements[..])
      invariant Filled(e, s, i) && Fits(s.clusters, memberCounts)
    {
      ghost var before := m.elements[..];
      var memberCount := m.MemberCount(i);
      ghost var now := m.elements[..];
      SameRootsTrans(e, before, now);
      if memberCount != 0 {
        var members, entries := FillCluster(m, i, |s.clusters|, s.entries, e);
        ClusterAdded(e, now, s, i, members, entries, memberCount);
        s, memberCounts := ClusterSet(s.clusters + [members], entries), memberCounts + [memberCount];
      } else {
        ClusterSkipped(e, now, s, i);
      }
    }
    FilledIsResult(d, e, s);
  }

  lemma NothingFilled(e: seq<nat>)
    requires Forest(e)
    ensures Filled(e, ClusterSet([], map[]), 0)
  {
    assert RootsBelow(e, 0) == {};
  }
}
