/**
 Propagation as a function of the graph, for any profiles at all: what the code
 computes node by node, and when that leaves the whole graph exact.
 */
module Propagation {
  import opened Basics
  import opened Profiles
  import opened PiGraph
  import opened Inheritance
  import opened EdgeChanges
  import opened Recompute

  // ---------- what one node computes ----------

  /** The deadline a thread is scheduled with, if any. */
  function EffectiveDeadlineOf(th: Thread): Duration {
    match th.eff case EffDeadline(_, d) => d case EffFair(_) => MAX_DURATION
  }

  /** A queue's waiters as the search for its least deadline sees them. */
  function Scanned(s: State, q: Queue): map<ThreadId, Ipv> {
    map t | t in s.threads && t in s.edges.blockedIn && s.edges.blockedIn[t] == q ::
      Ipv(0, 0, EffectiveDeadlineOf(s.threads[t]))
  }

  ghost function ScannedMin(s: State, q: Queue): Duration {
    Agg(Scanned(s, q)).minDeadline
  }

  /** ApplyIpvDeltaToOwq. */
  ghost function QueueAfter(s: State, q: Queue, c: Change): Ipv
    requires q in s.qIpv
  {
    var v := s.qIpv[q];
    Ipv(v.weight + WeightDelta(c), v.utilization + UtilizationDelta(c), ScannedMin(s, q))
  }

  /** The minimum of ApplyIpvDeltaToThread: rescan only if the value that goes may have been the minimum. */
  ghost function MinAfter(s: State, t: ThreadId, c: Change): Duration
    requires t in s.threads
  {
    var m := s.threads[t].ipv.minDeadline;
    if c.added.Some? && c.added.value.minDeadline <= m then c.added.value.minDeadline
    else
      var r := if c.lost.Some? && c.lost.value.minDeadline <= m then Agg(OwnedIpvs(s, t)).minDeadline else m;
      if c.added.Some? then Min(r, c.added.value.minDeadline) else r
  }

  /** ApplyIpvDeltaToThread. */
  ghost function ThreadAfter(s: State, t: ThreadId, c: Change): Ipv
    requires t in s.threads
  {
    var v := s.threads[t].ipv;
    Ipv(v.weight + WeightDelta(c), v.utilization + UtilizationDelta(c), MinAfter(s, t, c))
  }

  /** Propagation can stand at n: a queue with waiters, or a thread that keeps its inherited values. */
  ghost predicate Present(s: State, n: Node) {
    match n
    case Q(q) => q in s.qIpv
    case T(t) => t in s.threads && t !in s.disowned
  }

  ghost function Absorb(s: State, n: Node, c: Change): State
    requires Present(s, n)
  {
    match n
    case Q(q) => AbsorbQueue(s, q, QueueAfter(s, q, c))
    case T(t) => AbsorbThread(s, t, ThreadAfter(s, t, c))
  }

  /** Where propagation goes from n; plain wait queues inherit nothing. */
  function Onward(e: Edges, n: Node): Option<Node> {
    match n
    case Q(q) => if q in e.owner then Some(T(e.owner[q])) else None
    case T(t) => if t in e.blockedIn && e.blockedIn[t].Owned? then Some(Q(e.blockedIn[t])) else None
  }

  lemma AbsorbLinked(s: State, n: Node, c: Change)
    requires Linked(s) && Present(s, n)
    ensures var s' := Absorb(s, n, c);
            && Linked(s') && s'.edges == s.edges && s'.disowned == s.disowned && SameProfiles(s, s')
            && (Onward(s.edges, n).Some? ==> Present(s', Onward(s.edges, n).value))
  {
    match n {
      case Q(q) => AbsorbQueueLinked(s, q, QueueAfter(s, q, c));
      case T(t) => AbsorbThreadLinked(s, t, ThreadAfter(s, t, c));
    }
  }

  // ---------- the walk down the chain ----------

  lemma OnwardShortens(e: Edges, n: Node)
    requires Acyclic(e) && forall q :: q in e.owner ==> q.Owned?
    ensures match Onward(e, n)
            case Some(m) => ChainOf(e, n) == [n] + ChainOf(e, m)
            case None => forall q :: Q(q) in ChainOf(e, n) && q.Owned? ==> n == Q(q)
  {
    match Onward(e, n) {
      case Some(m) => PathChain(e, [n], m);
      case None => EndOfWalk(e, n);
    }
  }

  lemma EndOfWalk(e: Edges, n: Node)
    requires Acyclic(e) && Onward(e, n) == None && forall q :: q in e.owner ==> q.Owned?
    ensures forall q :: Q(q) in ChainOf(e, n) && q.Owned? ==> n == Q(q)
  {
    if Next(e, n) == None {
      LoneChain(e, n);
    } else {
      var p := Next(e, n).value;
      PathChain(e, [n], p);
      LoneChain(e, p);
    }
  }

  /** FinishPropagate past its early exit. */
  ghost function Walk(s: State, n: Node, c: Change): State
    requires Linked(s) && Acyclic(s.edges) && Present(s, n)
    decreases |ChainOf(s.edges, n)|
  {
    AbsorbLinked(s, n, c);
    var s' := Absorb(s, n, c);
    match Onward(s.edges, n)
    case None => s'
    case Some(m) =>
      PathChain(s.edges, [n], m);
      Walk(s', m, c)
  }

  predicate Negligible(c: Change) {
    (c.lost.Some? ==> !Consequential(c.lost.value)) && (c.added.Some? ==> !Consequential(c.added.value))
  }

  /** FinishPropagate. */
  ghost function Propagate(s: State, n: Node, c: Change): State
    requires Linked(s) && Acyclic(s.edges) && Present(s, n)
  {
    if Negligible(c) then s else Walk(s, n, c)
  }

  lemma AbsorbFrame(s: State, n: Node, c: Change)
    requires Present(s, n)
    ensures var s' := Absorb(s, n, c);
            && s'.qIpv.Keys == s.qIpv.Keys
            && (forall q :: q in s.qIpv && n != Q(q) ==> s'.qIpv[q] == s.qIpv[q])
            && (forall t :: t in s.threads && n != T(t) ==> t in s'.threads && s'.threads[t] == s.threads[t])
  {
  }

  /** The walk changes only values, and only those of the nodes on its way. */
  lemma {:induction false} WalkFrame(s: State, n: Node, c: Change)
    requires Linked(s) && Acyclic(s.edges) && Present(s, n)
    ensures var s' := Walk(s, n, c);
            && Linked(s') && s'.edges == s.edges && s'.disowned == s.disowned && SameProfiles(s, s')
            && s'.qIpv.Keys == s.qIpv.Keys
            && (forall q :: q in s.qIpv && !Reaches(s.edges, n, Q(q)) ==> s'.qIpv[q] == s.qIpv[q])
            && (forall t :: t in s.threads && !Reaches(s.edges, n, T(t)) ==> s'.threads[t] == s.threads[t])
    decreases |ChainOf(s.edges, n)|
  {
    hide Linked, Absorb, Present;
    AbsorbLinked(s, n, c);
    AbsorbFrame(s, n, c);
    assert n in ChainOf(s.edges, n);
    match Onward(s.edges, n) {
      case None =>
      case Some(m) =>
        PathChain(s.edges, [n], m);
        WalkFrame(Absorb(s, n, c), m, c);
    }
  }

  lemma PropagateFrame(s: State, n: Node, c: Change)
    requires Linked(s) && Acyclic(s.edges) && Present(s, n)
    ensures var s' := Propagate(s, n, c);
            Linked(s') && s'.edges == s.edges && s'.disowned == s.disowned && SameProfiles(s, s')
  {
    hide Linked, Walk;
    if !Negligible(c) { WalkFrame(s, n, c); }
  }

  /** Propagation writes only the nodes of one chain. */
  lemma PropagateOnlyChanges(s: State, n: Node, c: Change)
    requires Linked(s) && Acyclic(s.edges) && Present(s, n)
    ensures OnlyChanged(s, Propagate(s, n, c), Nodes(ChainOf(s.edges, n)))
  {
    hide Linked, Walk;
    if !Negligible(c) { WalkFrame(s, n, c); }
  }

  /** The walk from n comes past u. */
  ghost predicate Downstream(s: State, n: Node, u: ThreadId)
    requires Acyclic(s.edges)
  {
    Reaches(s.edges, n, T(u))
  }

  lemma OwnerDownstream(s: State, q: Queue)
    requires Acyclic(s.edges) && q in s.edges.owner
    ensures Downstream(s, Q(q), s.edges.owner[q])
  {
    assert Reaches(s.edges, Q(q), Q(q));
    ReachesOn(s.edges, Q(q), Q(q), T(s.edges.owner[q]));
  }

  /** Every thread on the way absorbs the same two deltas, and no other thread absorbs anything. */
  lemma {:induction false} WalkAdds(s: State, n: Node, c: Change, u: ThreadId)
    requires Linked(s) && Acyclic(s.edges) && Present(s, n) && u in s.threads
    ensures u in Walk(s, n, c).threads
    ensures var before, after := s.threads[u].ipv, Walk(s, n, c).threads[u].ipv;
            && after.weight == before.weight + (if Downstream(s, n, u) then WeightDelta(c) else 0)
            && after.utilization == before.utilization + (if Downstream(s, n, u) then UtilizationDelta(c) else 0)
    decreases |ChainOf(s.edges, n)|
  {
    hide Acyclic, Linked, Absorb, WeightDelta, UtilizationDelta, Reaches, Present;
    AbsorbLinked(s, n, c);
    AbsorbAdds(s, n, c, u);
    OwnersOwned(s);
    match Onward(s.edges, n) {
      case None =>
        LastOnWalk(s.edges, n, u);
      case Some(m) =>
        NextOnWalk(s.edges, n, m, u);
        WalkAdds(Absorb(s, n, c), m, c, u);
    }
  }

  lemma OwnersOwned(s: State)
    requires Linked(s)
    ensures forall q :: q in s.edges.owner ==> q.Owned?
  {
  }

  lemma NextOnWalk(e: Edges, n: Node, m: Node, u: ThreadId)
    requires Acyclic(e) && Next(e, n) == Some(m)
    ensures |ChainOf(e, m)| < |ChainOf(e, n)|
    ensures Reaches(e, n, T(u)) <==> n == T(u) || Reaches(e, m, T(u))
    ensures !(n == T(u) && Reaches(e, m, T(u)))
  {
    var c, d := ChainOf(e, n), ChainOf(e, m);
    PathChain(e, [n], m);
    ChainDistinct(e, n, c);
    forall i | 0 <= i < |d| ensures d[i] != n {
      assert c[i + 1] == d[i];
    }
  }

  lemma AbsorbAdds(s: State, n: Node, c: Change, u: ThreadId)
    requires Present(s, n) && u in s.threads
    ensures var s' := Absorb(s, n, c);
            && u in s'.threads
            && s'.threads[u].ipv.weight == s.threads[u].ipv.weight + (if n == T(u) then WeightDelta(c) else 0)
            && s'.threads[u].ipv.utilization ==
               s.threads[u].ipv.utilization + (if n == T(u) then UtilizationDelta(c) else 0)
  {
  }

  lemma LastOnWalk(e: Edges, n: Node, u: ThreadId)
    requires Acyclic(e) && Onward(e, n) == None && forall q :: q in e.owner ==> q.Owned?
    ensures Reaches(e, n, T(u)) <==> n == T(u)
  {
    assert Reaches(e, n, n);
    if Next(e, n) == None {
      LoneChain(e, n);
    } else {
      var p := Next(e, n).value;
      PathChain(e, [n], p);
      LoneChain(e, p);
    }
  }

  lemma PropagateAdds(s: State, n: Node, c: Change, u: ThreadId)
    requires Linked(s) && Acyclic(s.edges) && Present(s, n) && u in s.threads
    ensures u in Propagate(s, n, c).threads
    ensures var before, after := s.threads[u].ipv, Propagate(s, n, c).threads[u].ipv;
            && after.weight == before.weight + (if Downstream(s, n, u) then WeightDelta(c) else 0)
            && after.utilization == before.utilization + (if Downstream(s, n, u) then UtilizationDelta(c) else 0)
  {
    hide Walk, Downstream;
    if !Negligible(c) { WalkAdds(s, n, c, u); }
  }

  // ---------- when the walk gets it right ----------

  /** The search for the least deadline finds the least one transmitted. */
  ghost predicate Seen(s: State, q: Queue) {
    ScannedMin(s, q) == Agg(Waiters(s, q)).minDeadline
  }

  lemma SameMin(m: map<ThreadId, Ipv>, m': map<ThreadId, Ipv>)
    requires m'.Keys == m.Keys && forall k :: k in m ==> m'[k].minDeadline == m[k].minDeadline
    ensures Agg(m').minDeadline == Agg(m).minDeadline
  {
    AggMin(m);
    AggMin(m');
  }

  lemma HealthySeen(s: State, q: Queue)
    requires WellFormed(s)
    ensures Seen(s, q)
  {
    forall t | t in Waiters(s, q) ensures EffectiveDeadlineOf(s.threads[t]) == Trans(s.threads[t]).minDeadline {
      EffectiveDeadline(s.threads[t]);
    }
    hide Agg;
    SameMin(Waiters(s, q), Scanned(s, q));
  }

  lemma QueueArrives(s: State, q: Queue, c: Change)
    requires Pending(s, Q(q), c) && Seen(s, q)
    ensures q in s.qIpv && QueueAfter(s, q, c) == Agg(Waiters(s, q))
  {
    hide Agg;
    PendingDelta(s, Q(q), c);
    DeltaArrives(s.qIpv[q], Agg(Waiters(s, q)), c);
  }

  lemma ThreadArrives(s: State, t: ThreadId, c: Change)
    requires Pending(s, T(t), c)
    ensures t in s.threads && ThreadAfter(s, t, c) == Agg(OwnedIpvs(s, t))
  {
    hide Agg;
    PendingDelta(s, T(t), c);
    DeltaArrives(s.threads[t].ipv, Agg(OwnedIpvs(s, t)), c);
  }

  lemma PendingPresent(s: State, n: Node, c: Change)
    requires Pending(s, n, c)
    ensures Present(s, n)
  {
  }

  /** A node that absorbs its change leaves the next one with it, or the whole graph exact. */
  lemma AbsorbStep(s: State, n: Node, c: Change)
    requires Linked(s) && Pending(s, n, c) && (n.Q? ==> Seen(s, n.queue))
    ensures Present(s, n)
    ensures var s' := Absorb(s, n, c);
            && Linked(s') && (Healthy(s) ==> Healthy(s'))
            && (match Onward(s.edges, n) case Some(m) => Pending(s', m, c) case None => Exact(s'))
  {
    PendingPresent(s, n, c);
    match n {
      case Q(q) =>
        QueueArrives(s, q, c);
        StepQueue(s, q, c);
      case T(t) =>
        ThreadArrives(s, t, c);
        StepThread(s, t, c);
    }
  }

  /** Under admissible profiles the walk makes the whole graph exact. */
  lemma {:induction false} WalkValid(s: State, n: Node, c: Change)
    requires WellFormed(s) && Acyclic(s.edges) && Pending(s, n, c)
    ensures Present(s, n) && Valid(Walk(s, n, c))
    decreases |ChainOf(s.edges, n)|
  {
    if n.Q? { HealthySeen(s, n.queue); }
    AbsorbStep(s, n, c);
    AbsorbLinked(s, n, c);
    hide Linked, Healthy, Exact, Pending, Absorb;
    match Onward(s.edges, n) {
      case None =>
      case Some(m) =>
        PathChain(s.edges, [n], m);
        WalkValid(Absorb(s, n, c), m, c);
    }
  }

  lemma PropagateValid(s: State, n: Node, c: Change)
    requires WellFormed(s) && Acyclic(s.edges) && Pending(s, n, c) && SoundChange(c)
    ensures Present(s, n) && Valid(Propagate(s, n, c))
  {
    hide WellFormed, Exact, Pending, Walk;
    PendingPresent(s, n, c);
    if Negligible(c) {
      InconsequentialChange(s, n, c);
    } else {
      WalkValid(s, n, c);
    }
  }

  // ---------- and exactly when it does not ----------

  /** Nothing downstream of a queue's owner waits in that queue. */
  lemma WaitersUpstream(e: Edges, q: Queue, t: ThreadId)
    requires Acyclic(e) && q in e.owner && t in e.blockedIn && e.blockedIn[t] == q
    ensures !Reaches(e, T(e.owner[q]), T(t))
  {
    var p := [T(t), Q(q)];
    PathChain(e, p, T(e.owner[q]));
    var c := p + ChainOf(e, T(e.owner[q]));
    ChainDistinct(e, T(t), c);
    assert c[0] == T(t) && forall i | 0 <= i < |ChainOf(e, T(e.owner[q]))| :: c[i + 2] == ChainOf(e, T(e.owner[q]))[i];
  }

  lemma SameThreadsSameWaiters(s: State, s': State, q: Queue)
    requires s'.edges == s.edges && s'.threads.Keys == s.threads.Keys
    requires forall t :: t in s.threads && t in s.edges.blockedIn && s.edges.blockedIn[t] == q ==>
             s'.threads[t] == s.threads[t]
    ensures Waiters(s', q) == Waiters(s, q) && Scanned(s', q) == Scanned(s, q)
  {
  }

  /** The walk that starts at a queue leaves that queue's waiters, and what it stored there, alone. */
  lemma WalkLeavesStart(s: State, q: Queue, c: Change)
    requires Linked(s) && Acyclic(s.edges) && q in s.qIpv
    ensures var s' := Walk(s, Q(q), c);
            && Waiters(s', q) == Waiters(s, q) && Scanned(s', q) == Scanned(s, q)
            && q in s'.qIpv && s'.qIpv[q] == QueueAfter(s, q, c)
  {
    var s1 := Absorb(s, Q(q), c);
    var s' := Walk(s, Q(q), c);
    AbsorbLinked(s, Q(q), c);
    WalkFrame(s, Q(q), c);
    if q in s.edges.owner {
      var o := s.edges.owner[q];
      PathChain(s.edges, [Q(q)], T(o));
      ChainDistinct(s.edges, Q(q), [Q(q)] + ChainOf(s.edges, T(o)));
      forall i | 0 <= i < |ChainOf(s.edges, T(o))| ensures ChainOf(s.edges, T(o))[i] != Q(q) {
        assert ([Q(q)] + ChainOf(s.edges, T(o)))[i + 1] == ChainOf(s.edges, T(o))[i];
      }
      hide Linked, QueueAfter;
      WalkFrame(s1, T(o), c);
      forall t | t in s.threads && t in s.edges.blockedIn && s.edges.blockedIn[t] == q
        ensures s'.threads[t] == s.threads[t]
      {
        WaitersUpstream(s.edges, q, t);
      }
    }
    SameThreadsSameWaiters(s, s', q);
  }

  /** The recomputed waiters of a queue, as the search for its least deadline would see them. */
  ghost function RecomputedScan(g: Structure, q: Queue): map<ThreadId, Ipv>
    requires Acyclic(g.edges)
  {
    map t | t in g.base && t in g.edges.blockedIn && g.edges.blockedIn[t] == q ::
      Ipv(0, 0, match Effective(g.base[t], ThreadIpv(g, t)) case EffDeadline(_, d) => d case EffFair(_) => MAX_DURATION)
  }

  /** Judging by base profiles and edges alone: the search finds the least deadline the waiters transmit. */
  ghost predicate Findable(g: Structure, q: Queue)
    requires Acyclic(g.edges)
  {
    Agg(RecomputedScan(g, q)).minDeadline == QueueIpv(g, q).minDeadline
  }

  lemma ScanRecomputed(s: State, q: Queue)
    requires Acyclic(s.edges)
    requires forall t :: t in s.threads && t in s.edges.blockedIn && s.edges.blockedIn[t] == q ==>
               && s.threads[t].ipv == ThreadIpv(StructureOf(s), t)
               && s.threads[t].eff == Effective(s.threads[t].base, s.threads[t].ipv)
    ensures RecomputedScan(StructureOf(s), q) == Scanned(s, q)
  {
    hide ThreadIpv, Effective;
  }

  lemma SeenIffFindable(s: State, q: Queue)
    requires Acyclic(s.edges)
    requires forall t :: t in s.threads && t in s.edges.blockedIn && s.edges.blockedIn[t] == q ==>
               && s.threads[t].ipv == ThreadIpv(StructureOf(s), t)
               && s.threads[t].eff == Effective(s.threads[t].base, s.threads[t].ipv)
    ensures Seen(s, q) <==> Findable(StructureOf(s), q)
  {
    hide Agg, QueueIpv, ThreadIpv, Waiters, Scanned, RecomputedScan, Effective;
    QueueFromWaiters(s, q);
    ScanRecomputed(s, q);
  }

  /** The waiters of a queue with a pending change hold what recomputation gives them. */
  lemma PendingSeenIff(s: State, q: Queue, c: Change)
    requires Linked(s) && Acyclic(s.edges) && Pending(s, Q(q), c)
    ensures Seen(s, q) <==> Findable(StructureOf(s), q)
  {
    forall t | t in s.threads && t in s.edges.blockedIn && s.edges.blockedIn[t] == q
      ensures s.threads[t].ipv == ThreadIpv(StructureOf(s), t)
      ensures s.threads[t].eff == Effective(s.threads[t].base, s.threads[t].ipv)
    {
      forall m: Node | Reaches(s.edges, m, T(t)) ensures NodeExact(s, m) {
        PathAvoidsSelf(s.edges, t, q);
      }
      IncrementalThread(s, t);
    }
    hide Seen, Findable;
    SeenIffFindable(s, q);
  }

  lemma PathAvoidsSelf(e: Edges, t: ThreadId, q: Queue)
    requires Acyclic(e) && t in e.blockedIn && e.blockedIn[t] == q
    ensures !Reaches(e, Q(q), T(t))
  {
    PathChain(e, [T(t)], Q(q));
    var c := [T(t)] + ChainOf(e, Q(q));
    ChainDistinct(e, T(t), c);
    assert c[0] == T(t) && forall i | 0 <= i < |ChainOf(e, Q(q))| :: c[i + 1] == ChainOf(e, Q(q))[i];
  }

  lemma SameStructure(s: State, s': State)
    requires s'.edges == s.edges && s'.disowned == s.disowned && SameProfiles(s, s')
    ensures StructureOf(s') == StructureOf(s)
  {
  }

  /** Every owned queue on the way can find the least deadline of its waiters. */
  ghost predicate AllFindable(g: Structure, n: Node)
    requires Acyclic(g.edges)
  {
    forall q: Queue :: q.Owned? && Reaches(g.edges, n, Q(q)) ==> Findable(g, q)
  }

  lemma AllFindableOnward(g: Structure, n: Node)
    requires Acyclic(g.edges) && forall q :: q in g.edges.owner ==> q.Owned?
    ensures AllFindable(g, n) <==>
            && (n.Q? && n.queue.Owned? ==> Findable(g, n.queue))
            && (Onward(g.edges, n).Some? ==> AllFindable(g, Onward(g.edges, n).value))
  {
    hide Findable;
    OnwardShortens(g.edges, n);
    assert n in ChainOf(g.edges, n);
  }

  /** A queue that misses a deadline stores the wrong value, and the rest of the walk does not repair it. */
  lemma UnseenStaysWrong(s: State, q: Queue, c: Change)
    requires Linked(s) && Acyclic(s.edges) && q in s.qIpv && !Seen(s, q)
    ensures !Exact(Walk(s, Q(q), c))
  {
    WalkLeavesStart(s, q, c);
    hide Agg, Walk;
    assert !NodeExact(Walk(s, Q(q), c), Q(q));
  }

  /**
   For any profiles: a walk that starts with everything else exact ends with
   everything exact if and only if every queue on its way can find the least deadline
   its waiters transmit, which base profiles and edges decide beforehand.
   */
  lemma {:induction false} WalkExactIff(s: State, n: Node, c: Change)
    requires Linked(s) && Acyclic(s.edges) && Pending(s, n, c)
    ensures Present(s, n)
    ensures Exact(Walk(s, n, c)) <==> AllFindable(StructureOf(s), n)
    decreases |ChainOf(s.edges, n)|
  {
    PendingPresent(s, n, c);
    AllFindableOnward(StructureOf(s), n);
    if n.Q? { PendingSeenIff(s, n.queue, c); }
    WalkUnfolds(s, n, c);
    assert n.Q? ==> n.queue.Owned?;
    hide NodeExact, Seen, Findable, AllFindable, Agg, Walk, Absorb, Linked, Pending;
    if n.Q? && !Seen(s, n.queue) {
      UnseenStaysWrong(s, n.queue, c);
    } else {
      AbsorbStep(s, n, c);
      if Onward(s.edges, n).Some? {
        WalkExactIff(Absorb(s, n, c), Onward(s.edges, n).value, c);
      }
    }
  }

  lemma WalkUnfolds(s: State, n: Node, c: Change)
    requires Linked(s) && Acyclic(s.edges) && Present(s, n)
    ensures var s' := Absorb(s, n, c);
            && Linked(s') && s'.edges == s.edges && StructureOf(s') == StructureOf(s)
            && match Onward(s.edges, n)
               case None => Walk(s, n, c) == s'
               case Some(m) =>
                 && Present(s', m) && |ChainOf(s.edges, m)| < |ChainOf(s.edges, n)|
                 && Walk(s, n, c) == Walk(s', m, c)
  {
    hide Absorb, Linked, Present;
    AbsorbLinked(s, n, c);
    SameStructure(s, Absorb(s, n, c));
    if Onward(s.edges, n).Some? {
      PathChain(s.edges, [n], Onward(s.edges, n).value);
    }
  }
}
