/**
 The order in which a CPU searches the others for work: sorted by policy, cache
 distance, and a rotation of clusters and cluster members.
 */
module CpuSearchSet {
  import opened CpuClusters
  import opened Arithmetic

  /** What the comparator of DoInitialize closes over. */
  datatype Policy = Policy(
    self: nat,
    count: nat,
    clusterSet: ClusterSet,
    distance: nat -> int,
    preferLittle: bool,
    perfScale: nat -> int)

  predicate Valid(p: Policy) {
    Consistent(p.clusterSet) && p.self < p.count && forall i | 0 <= i < p.count :: i in p.clusterSet.entries
  }

  function ClusterPrime(p: Policy, a: nat): nat
    requires Valid(p) && a < p.count
  {
    assert At(p.clusterSet, a, p.clusterSet.entries[a]) && At(p.clusterSet, p.self, p.clusterSet.entries[p.self]);
    var n := |p.clusterSet.clusters|;
    (p.clusterSet.entries[p.self].cluster + n - p.clusterSet.entries[a].cluster) % n
  }

  function IndexPrime(p: Policy, a: nat): nat
    requires Valid(p) && a < p.count
  {
    assert At(p.clusterSet, a, p.clusterSet.entries[a]);
    var members := p.clusterSet.clusters[p.clusterSet.entries[a].cluster];
    members[(p.clusterSet.entries[p.self].index + |members| - p.clusterSet.entries[a].index) % |members|]
  }

  /** The comparator. */
  predicate Less(p: Policy, a: nat, b: nat)
    requires Valid(p) && a < p.count && b < p.count
  {
    if p.preferLittle && p.perfScale(a) != p.perfScale(b) then p.perfScale(a) < p.perfScale(b)
    else if p.distance(a) != p.distance(b) then p.distance(a) < p.distance(b)
    else if ClusterPrime(p, a) != ClusterPrime(p, b) then ClusterPrime(p, a) < ClusterPrime(p, b)
    else IndexPrime(p, a) < IndexPrime(p, b)
  }

  // ---------- a strict total order ----------

  /** A rotation by t hits every residue once. */
  lemma RotationInjective(t: nat, n: nat, x: nat, y: nat)
    requires x < n && y < n && (t + n - x) % n == (t + n - y) % n
    ensures x == y
  {
    var a, b := t + n - x, t + n - y;
    var i, j := a / n, b / n;
    assert a == n * i + a % n && b == n * j + b % n;
    Distribute(n, i, j);
    if i != j { BigMultiple(n, i - j); }
  }

  lemma SameClusterPrime(p: Policy, a: nat, b: nat)
    requires Valid(p) && a < p.count && b < p.count && ClusterPrime(p, a) == ClusterPrime(p, b)
    ensures p.clusterSet.entries[a].cluster == p.clusterSet.entries[b].cluster
  {
    assert At(p.clusterSet, a, p.clusterSet.entries[a]) && At(p.clusterSet, b, p.clusterSet.entries[b]);
    var entries := p.clusterSet.entries;
    RotationInjective(entries[p.self].cluster, |p.clusterSet.clusters|, entries[a].cluster, entries[b].cluster);
  }

  /** Equal keys mean the same CPU. */
  lemma KeysDiffer(p: Policy, a: nat, b: nat)
    requires Valid(p) && a < p.count && b < p.count
    requires ClusterPrime(p, a) == ClusterPrime(p, b) && IndexPrime(p, a) == IndexPrime(p, b)
    ensures a == b
  {
    SameClusterPrime(p, a, b);
    var ea, eb := p.clusterSet.entries[a], p.clusterSet.entries[b];
    assert At(p.clusterSet, a, ea) && At(p.clusterSet, b, eb);
    var members := p.clusterSet.clusters[ea.cluster];
    var t := p.clusterSet.entries[p.self].index;
    var x, y := (t + |members| - ea.index) % |members|, (t + |members| - eb.index) % |members|;
    assert members[x] == members[y];
    assert x == y;
    RotationInjective(t, |members|, ea.index, eb.index);
  }

  lemma LessTotal(p: Policy, a: nat, b: nat)
    requires Valid(p) && a < p.count && b < p.count
    ensures !(Less(p, a, b) && Less(p, b, a))
    ensures Less(p, a, b) || Less(p, b, a) || a == b
    ensures a == b ==> !Less(p, a, b)
  {
    if ClusterPrime(p, a) == ClusterPrime(p, b) && IndexPrime(p, a) == IndexPrime(p, b) {
      KeysDiffer(p, a, b);
    }
  }

  lemma LessTransitive(p: Policy, a: nat, b: nat, c: nat)
    requires Valid(p) && a < p.count && b < p.count && c < p.count && Less(p, a, b) && Less(p, b, c)
    ensures Less(p, a, c)
  {
    hide ClusterPrime, IndexPrime;
  }

  // ---------- the sorted search order ----------

  predicate InRange(p: Policy, o: seq<nat>) {
    forall i | 0 <= i < |o| :: o[i] < p.count
  }

  predicate Sorted(p: Policy, o: seq<nat>)
    requires Valid(p) && InRange(p, o)
  {
    forall i, j | 0 <= i < j < |o| :: Less(p, o[i], o[j])
  }

  /** Every CPU once, in the comparator's order. */
  predicate IsSearchOrder(p: Policy, o: seq<nat>) {
    && Valid(p) && InRange(p, o) && Sorted(p, o)
    && forall i | 0 <= i < p.count :: i in o
  }

  /** Sorting has no freedom left: the search order is determined. */
  lemma {:induction false} SortedUnique(p: Policy, o: seq<nat>, q: seq<nat>)
    requires Valid(p) && InRange(p, o) && InRange(p, q) && Sorted(p, o) && Sorted(p, q)
    requires forall i :: i in o <==> i in q
    ensures o == q
    decreases |o|
  {
    assert |q| > 0 ==> q[0] in q;
    if o != [] {
      assert o[0] in o;
      assert o[0] == q[0] by {
        var i :| 0 <= i < |q| && q[i] == o[0];
        var j :| 0 <= j < |o| && o[j] == q[0];
        LessTotal(p, o[0], q[0]);
      }
      TailMembers(p, o);
      TailMembers(p, q);
      SortedUnique(p, o[1..], q[1..]);
      assert o == [o[0]] + o[1..] && q == [q[0]] + q[1..];
    }
  }

  lemma TailMembers(p: Policy, o: seq<nat>)
    requires Valid(p) && InRange(p, o) && Sorted(p, o) && o != []
    ensures forall i :: i in o[1..] <==> i in o && i != o[0]
  {
    forall j | 1 <= j < |o| ensures o[j] != o[0] {
      LessTotal(p, o[0], o[j]);
    }
    assert o == [o[0]] + o[1..];
  }

  /** How far forward the policy and the distance alone put a CPU. */
  predicate NoFarther(p: Policy, a: nat, b: nat) {
    if p.preferLittle && p.perfScale(a) != p.perfScale(b) then p.perfScale(a) < p.perfScale(b)
    else p.distance(a) <= p.distance(b)
  }

  lemma SelfBeatsTies(p: Policy, b: nat)
    requires Valid(p) && b < p.count && b != p.self && NoFarther(p, p.self, b)
    ensures Less(p, p.self, b)
  {
    var es, eb := p.clusterSet.entries[p.self], p.clusterSet.entries[b];
    assert At(p.clusterSet, p.self, es) && At(p.clusterSet, b, eb);
    var n := |p.clusterSet.clusters|;
    assert (es.cluster + n - es.cluster) % n == 0;
    if ClusterPrime(p, b) == 0 {
      SameClusterPrime(p, p.self, b);
      var members := p.clusterSet.clusters[es.cluster];
      assert (es.index + |members| - es.index) % |members| == 0;
      assert IndexPrime(p, p.self) == members[0] <= IndexPrime(p, b);
      if IndexPrime(p, p.self) == IndexPrime(p, b) { KeysDiffer(p, p.self, b); }
    }
  }

  /** A CPU heads its own search list if and only if no other CPU is strictly preferred or nearer. */
  lemma SelfFirst(p: Policy, o: seq<nat>)
    requires IsSearchOrder(p, o)
    ensures |o| > 0 && (o[0] == p.self <==> forall b | 0 <= b < p.count :: NoFarther(p, p.self, b))
  {
    assert p.self in o;
    var k :| 0 <= k < |o| && o[k] == p.self;
    if forall b | 0 <= b < p.count :: NoFarther(p, p.self, b) {
      if k > 0 {
        assert Less(p, o[0], o[k]);
        LessTotal(p, o[0], p.self);
        SelfBeatsTies(p, o[0]);
        assert false;
      }
    }
    if o[0] == p.self {
      forall b | 0 <= b < p.count ensures NoFarther(p, p.self, b) {
        assert b in o;
        var j :| 0 <= j < |o| && o[j] == b;
      }
    }
  }

  /** Without the little-CPU preference the list is in order of cache distance. */
  lemma OrderedByDistance(p: Policy, o: seq<nat>, i: nat, j: nat)
    requires IsSearchOrder(p, o) && !p.preferLittle && i < j < |o|
    ensures p.distance(o[i]) <= p.distance(o[j])
  {
    assert Less(p, o[i], o[j]);
  }

  // ---------- the order among CPUs at the same distance ----------

  /** Going back k places from here, around a circle of n, leads to there. */
  predicate StepsBack(n: nat, here: nat, there: nat, k: nat) {
    k < n && there < n && (there + k) % n == here % n
  }

  lemma RotationSteps(n: nat, here: nat, there: nat)
    requires there < n
    ensures StepsBack(n, here, there, (here + n - there) % n)
  {
    var x := here + n - there;
    var k := x % n;
    AddMod(there, x, n);
    assert there + x == here + n;
    AddMod(here, n, n);
  }

  /** A summand can be reduced first. */
  lemma AddMod(a: nat, b: nat, n: nat)
    requires n > 0
    ensures (a + b % n) % n == (a + b) % n
  {
    var q, r := (a + b % n) / n, (a + b % n) % n;
    Distribute(n, q + b / n, q);
    assert n * (q + b / n) == n * q + n * (b / n) by { Distribute(n, q + b / n, q); }
    DivModUnique(a + b, n, q + b / n, r);
  }

  /** The cluster of a is reached from one's own by going back so many clusters. */
  lemma ClusterSteps(p: Policy, a: nat)
    requires Valid(p) && a < p.count
    ensures StepsBack(|p.clusterSet.clusters|, p.clusterSet.entries[p.self].cluster, p.clusterSet.entries[a].cluster,
                      ClusterPrime(p, a))
  {
    assert At(p.clusterSet, a, p.clusterSet.entries[a]);
    RotationSteps(|p.clusterSet.clusters|, p.clusterSet.entries[p.self].cluster, p.clusterSet.entries[a].cluster);
  }

  /** How far back around its cluster, from one's own position, a sits. */
  ghost function MemberSteps(p: Policy, a: nat): (k: nat)
    requires Valid(p) && a < p.count
    ensures var e := p.clusterSet.entries[a];
            && e.cluster < |p.clusterSet.clusters|
            && StepsBack(|p.clusterSet.clusters[e.cluster]|, p.clusterSet.entries[p.self].index, e.index, k)
            && IndexPrime(p, a) == p.clusterSet.clusters[e.cluster][k]
  {
    var e := p.clusterSet.entries[a];
    assert At(p.clusterSet, a, e);
    var n := |p.clusterSet.clusters[e.cluster]|;
    RotationSteps(n, p.clusterSet.entries[p.self].index, e.index);
    (p.clusterSet.entries[p.self].index + n - e.index) % n
  }

  /** There is only one number of steps back. */
  lemma StepsUnique(n: nat, here: nat, there: nat, j: nat, k: nat)
    requires StepsBack(n, here, there, j) && StepsBack(n, here, there, k)
    ensures j == k
  {
    if j <= k {
      SameRemainder(there + j, there + k, n);
    } else {
      SameRemainder(there + k, there + j, n);
    }
  }

  lemma Quotient(x: nat, n: nat) returns (q: nat)
    requires n > 0
    ensures x == n * q + x % n
  {
    q := x / n;
  }

  /** Less than n apart and with the same remainder. */
  lemma SameRemainder(x: nat, y: nat, n: nat)
    requires n > 0 && x <= y < x + n && x % n == y % n
    ensures x == y
  {
    var i := Quotient(x, n);
    var j := Quotient(y, n);
    Distribute(n, j, i);
    if i != j { BigMultiple(n, j - i); }
  }

  /**
   Among CPUs that policy and distance put level, the search goes back through the
   clusters from one's own, and back through each cluster from one's own position.
   */
  lemma TieOrder(p: Policy, a: nat, b: nat, ca: nat, cb: nat, ma: nat, mb: nat)
    requires Valid(p) && a < p.count && b < p.count && NoFarther(p, a, b) && NoFarther(p, b, a)
    requires var s, n := p.clusterSet.entries, |p.clusterSet.clusters|;
             StepsBack(n, s[p.self].cluster, s[a].cluster, ca) && StepsBack(n, s[p.self].cluster, s[b].cluster, cb)
    requires var s, c := p.clusterSet.entries, p.clusterSet.clusters;
             && StepsBack(|c[s[a].cluster]|, s[p.self].index, s[a].index, ma)
             && StepsBack(|c[s[b].cluster]|, s[p.self].index, s[b].index, mb)
    ensures Less(p, a, b) <==> ca < cb || (ca == cb && ma < mb)
  {
    ClusterSteps(p, a);
    ClusterSteps(p, b);
    var s, c := p.clusterSet.entries, p.clusterSet.clusters;
    StepsUnique(|c|, s[p.self].cluster, s[a].cluster, ca, ClusterPrime(p, a));
    StepsUnique(|c|, s[p.self].cluster, s[b].cluster, cb, ClusterPrime(p, b));
    var ka, kb := MemberSteps(p, a), MemberSteps(p, b);
    StepsUnique(|c[s[a].cluster]|, s[p.self].index, s[a].index, ma, ka);
    StepsUnique(|c[s[b].cluster]|, s[p.self].index, s[b].index, mb, kb);
    if ca == cb {
      SameClusterPrime(p, a, b);
    }
    hide ClusterPrime, IndexPrime, StepsBack;
  }

  /** One insertion of the sort, which moves an entry left past everything it precedes. */
  method Insert(p: Policy, o: seq<nat>, a: nat) returns (r: seq<nat>)
    requires Valid(p) && InRange(p, o) && Sorted(p, o) && a < p.count && a !in o
    ensures InRange(p, r) && Sorted(p, r) && forall i :: i in r <==> i in o || i == a
  {
    hide Less;
    var k := |o|;
    while k > 0 && Less(p, a, o[k - 1])
      invariant 0 <= k <= |o| && forall i | k <= i < |o| :: Less(p, a, o[i])
    {
      k := k - 1;
    }
    r := o[..k] + [a] + o[k..];
    InsertionSorted(p, o, k, a);
  }

  lemma InsertionSorted(p: Policy, o: seq<nat>, k: nat, a: nat)
    requires Valid(p) && InRange(p, o) && Sorted(p, o) && a < p.count && a !in o && k <= |o|
    requires (forall i | k <= i < |o| :: Less(p, a, o[i])) && (k > 0 ==> !Less(p, a, o[k - 1]))
    ensures var r := o[..k] + [a] + o[k..];
            InRange(p, r) && Sorted(p, r) && forall i :: i in r <==> i in o || i == a
  {
    hide Less;
    forall i | 0 <= i < k ensures Less(p, o[i], a) {
      assert o[k - 1] in o;
      LessTotal(p, a, o[k - 1]);
      if i < k - 1 { LessTransitive(p, o[i], o[k - 1], a); }
    }
    hide Valid;
    InsertionMembers(o, k, a);
  }

  lemma InsertionMembers(o: seq<nat>, k: nat, a: nat)
    requires k <= |o|
    ensures forall i :: i in o[..k] + [a] + o[k..] <==> i in o || i == a
  {
    assert o == o[..k] + o[k..];
  }

  /** DoInitialize: the CPUs in ordinal order, then sorted. */
  method DoInitialize(p: Policy) returns (o: seq<nat>)
    requires Valid(p)
    ensures IsSearchOrder(p, o)
  {
    o := [];
    for i := 0 to p.count
      invariant InRange(p, o) && Sorted(p, o) && forall j :: j in o <==> 0 <= j < i
    {
      o := Insert(p, o, i);
    }
  }
}
