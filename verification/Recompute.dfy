/**
 The reference definition of profile inheritance: every inherited value computed
 from scratch, from the base profiles and the edges alone, by recursion over the
 nodes upstream.  The incrementally maintained values are shown to equal it.
 */
module Recompute {
  import opened Basics
  import opened Profiles
  import opened PiGraph
  import opened Inheritance

  /** stale: the values of the threads that have disowned their queues. */
  datatype Structure = Structure(base: map<ThreadId, BaseProfile>, edges: Edges, stale: map<ThreadId, Ipv>)

  function StructureOf(s: State): Structure {
    Structure(map t | t in s.threads :: s.threads[t].base,
              s.edges,
              map t | t in s.threads && t in s.disowned :: s.threads[t].ipv)
  }

  /** Every node some edge points at. */
  function Targets(e: Edges): set<Node> {
    (set t | t in e.blockedIn :: Q(e.blockedIn[t])) + (set q | q in e.owner :: T(e.owner[q]))
  }

  lemma {:induction false} DistinctFits<X>(c: seq<X>, s: set<X>)
    requires forall i, j | 0 <= i < j < |c| :: c[i] != c[j]
    requires forall i | 0 <= i < |c| :: c[i] in s
    ensures |c| <= |s|
    decreases |c|
  {
    if |c| > 0 {
      DistinctFits(c[1..], s - {c[0]});
    }
  }

  lemma ChainBound(e: Edges, n: Node)
    requires Acyclic(e)
    ensures |ChainOf(e, n)| <= |Targets(e)| + 1
  {
    var c := ChainOf(e, n);
    ChainDistinct(e, n, c);
    forall i | 1 <= i < |c| ensures c[i] in Targets(e) {
      assert Next(e, c[i - 1]) == Some(c[i]);
    }
    DistinctFits(c[1..], Targets(e));
  }

  /** One step upstream is one step further from the end of the graph. */
  lemma UpstreamIsDeeper(e: Edges, n: Node, m: Node)
    requires Acyclic(e) && Next(e, n) == Some(m)
    ensures |ChainOf(e, n)| == |ChainOf(e, m)| + 1
  {
    var c := ChainOf(e, n);
    ChainStep(e, c, 0);
    ChainTail(e, c, 1);
    ChainUnique(e, m, c[1..], ChainOf(e, m));
  }

  ghost function Height(e: Edges, n: Node): nat
    requires Acyclic(e)
  {
    ChainBound(e, n);
    |Targets(e)| + 1 - |ChainOf(e, n)|
  }

  predicate Occupied(g: Structure, q: Queue) {
    exists t :: t in g.edges.blockedIn && g.edges.blockedIn[t] == q
  }

  ghost function ThreadIpv(g: Structure, t: ThreadId): Ipv
    requires Acyclic(g.edges)
    decreases Height(g.edges, T(t))
  {
    if t in g.stale then g.stale[t]
    else Agg(map q | q in g.edges.owner && g.edges.owner[q] == t && Occupied(g, q) ::
               UpstreamIsDeeper(g.edges, Q(q), T(t));
               QueueIpv(g, q))
  }

  ghost function QueueIpv(g: Structure, q: Queue): Ipv
    requires Acyclic(g.edges)
    decreases Height(g.edges, Q(q))
  {
    Agg(map t | t in g.base && t in g.edges.blockedIn && g.edges.blockedIn[t] == q ::
          UpstreamIsDeeper(g.edges, T(t), Q(q));
          Transmitted(g.base[t], ThreadIpv(g, t)))
  }

  /** Everything upstream of x, and x itself, is exact. */
  ghost predicate ExactAbove(s: State, x: Node)
    requires Acyclic(s.edges)
  {
    forall m: Node :: Reaches(s.edges, m, x) ==> NodeExact(s, m)
  }

  lemma ExactFurtherUp(s: State, u: Node, x: Node)
    requires Acyclic(s.edges) && ExactAbove(s, x) && Next(s.edges, u) == Some(x)
    ensures ExactAbove(s, u)
  {
    forall m: Node | Reaches(s.edges, m, u) ensures NodeExact(s, m) {
      ReachesOn(s.edges, m, u, x);
    }
  }

  lemma {:induction false} IncrementalThread(s: State, t: ThreadId)
    requires Linked(s) && Acyclic(s.edges) && ExactAbove(s, T(t)) && t in s.threads
    ensures s.threads[t].ipv == ThreadIpv(StructureOf(s), t)
    decreases Height(s.edges, T(t))
  {
    var g := StructureOf(s);
    if t !in s.disowned {
      assert Reaches(s.edges, T(t), T(t)) && NodeExact(s, T(t));
      forall q | q in s.edges.owner && s.edges.owner[q] == t
        ensures q in s.qIpv <==> Occupied(g, q)
        ensures q in s.qIpv ==> s.qIpv[q] == QueueIpv(g, q)
      {
        OccupiedIffStored(s, q);
        if q in s.qIpv {
          UpstreamIsDeeper(s.edges, Q(q), T(t));
          ExactFurtherUp(s, Q(q), T(t));
          IncrementalQueue(s, q);
        }
      }
      ThreadFromQueues(s, t);
    }
  }

  /** A thread whose occupied queues hold the recomputed values has the recomputed aggregate. */
  lemma ThreadFromQueues(s: State, t: ThreadId)
    requires Acyclic(s.edges) && t in s.threads && t !in s.disowned
    requires forall q :: q in s.edges.owner && s.edges.owner[q] == t ==>
               && (q in s.qIpv <==> Occupied(StructureOf(s), q))
               && (q in s.qIpv ==> s.qIpv[q] == QueueIpv(StructureOf(s), q))
    ensures Agg(OwnedIpvs(s, t)) == ThreadIpv(StructureOf(s), t)
  {
    var g := StructureOf(s);
    var m := map q | q in g.edges.owner && g.edges.owner[q] == t && Occupied(g, q) :: QueueIpv(g, q);
    assert m == OwnedIpvs(s, t);
  }

  lemma {:induction false} IncrementalQueue(s: State, q: Queue)
    requires Linked(s) && Acyclic(s.edges) && ExactAbove(s, Q(q)) && q in s.qIpv
    ensures s.qIpv[q] == QueueIpv(StructureOf(s), q)
    decreases Height(s.edges, Q(q))
  {
    assert Reaches(s.edges, Q(q), Q(q)) && NodeExact(s, Q(q));
    forall t | t in s.threads && t in s.edges.blockedIn && s.edges.blockedIn[t] == q
      ensures s.threads[t].ipv == ThreadIpv(StructureOf(s), t)
    {
      UpstreamIsDeeper(s.edges, T(t), Q(q));
      ExactFurtherUp(s, T(t), Q(q));
      IncrementalThread(s, t);
    }
    QueueFromWaiters(s, q);
  }

  /** A queue whose waiters hold the recomputed values has the recomputed aggregate. */
  lemma QueueFromWaiters(s: State, q: Queue)
    requires Acyclic(s.edges)
    requires forall t :: t in s.threads && t in s.edges.blockedIn && s.edges.blockedIn[t] == q ==>
               s.threads[t].ipv == ThreadIpv(StructureOf(s), t)
    ensures Agg(Waiters(s, q)) == QueueIpv(StructureOf(s), q)
  {
    var g := StructureOf(s);
    var m := map t | t in g.base && t in g.edges.blockedIn && g.edges.blockedIn[t] == q ::
               Transmitted(g.base[t], ThreadIpv(g, t));
    assert m == Waiters(s, q);
  }

  lemma OccupiedIffStored(s: State, q: Queue)
    requires Linked(s) && q.Owned?
    ensures q in s.qIpv <==> Occupied(StructureOf(s), q)
  {
    if q in s.qIpv {
      var t :| t in Waiters(s, q);
      assert t in s.edges.blockedIn && s.edges.blockedIn[t] == q;
    }
  }

  /**
   Incremental inheritance equals recomputation: in every exact state each thread
   and each occupied queue holds the value the reference definition gives it, so
   two exact states over the same profiles and edges agree everywhere.
   */
  lemma IncrementalEqualsRecomputed(s: State)
    requires Linked(s) && Acyclic(s.edges) && Exact(s)
    ensures forall t :: t in s.threads ==> s.threads[t].ipv == ThreadIpv(StructureOf(s), t)
    ensures forall q :: q in s.qIpv ==> s.qIpv[q] == QueueIpv(StructureOf(s), q)
    ensures forall t :: t in s.threads ==>
              s.threads[t].eff == Effective(s.threads[t].base, ThreadIpv(StructureOf(s), t))
  {
    forall t | t in s.threads ensures s.threads[t].ipv == ThreadIpv(StructureOf(s), t) {
      IncrementalThread(s, t);
    }
    forall q | q in s.qIpv ensures s.qIpv[q] == QueueIpv(StructureOf(s), q) {
      IncrementalQueue(s, q);
    }
  }

  // ---------- what a thread is scheduled with ----------

  /**
   What a thread is scheduled with, in terms of its base profile and of everything
   upstream: a deadline profile exactly if it has one or inherits utilization, a fair
   weight that is its own plus all it inherits, a utilization that is the capped sum,
   and the least deadline in reach.
   */
  lemma ScheduledWith(s: State, t: ThreadId)
    requires Linked(s) && Acyclic(s.edges) && Exact(s) && t in s.threads
    ensures var base, eff, up := s.threads[t].base, s.threads[t].eff, ThreadIpv(StructureOf(s), t);
            && (eff.EffDeadline? <==> base.Deadline? || up.utilization > 0)
            && (eff.EffFair? ==> base.Fair? && eff.weight == base.weight + up.weight)
            && (eff.EffDeadline? ==>
                  && eff.utilization <= CPU_UTILIZATION_LIMIT
                  && eff.utilization <= OwnUtilization(base) + up.utilization
                  && (eff.utilization == CPU_UTILIZATION_LIMIT ||
                      eff.utilization == OwnUtilization(base) + up.utilization)
                  && eff.deadline <= up.minDeadline && (base.Deadline? ==> eff.deadline <= base.deadline)
                  && (eff.deadline == up.minDeadline || (base.Deadline? && eff.deadline == base.deadline)))
  {
    IncrementalThread(s, t);
  }

  function OwnUtilization(base: BaseProfile): nat {
    if base.Deadline? then base.utilization else 0
  }
}
