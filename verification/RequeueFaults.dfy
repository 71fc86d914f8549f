/**
 Inputs on which a requeue trips over its own locks: one for the retreat after the
 third walk, one for the releases of a completed requeue.
 */
module RequeueFaults {
  import opened Basics
  import opened Profiles
  import opened PiGraph
  import opened Inheritance
  import opened Operations
  import opened OwnedWaitQueue
  import opened ChainLocks

  /** Four fair threads. */
  const CAST: map<ThreadId, BaseProfile> :=
    map[1 := Fair(1, true), 2 := Fair(1, true), 3 := Fair(1, true), 4 := Fair(1, true)]

  function Everybody(q: Queue, target: Queue): set<Node> {
    {T(1), T(2), T(3), T(4), Q(q), Q(target)}
  }

  lemma EverybodyAlive(e: Edges, q: Queue, target: Queue)
    requires forall t :: t in e.blockedIn ==> e.blockedIn[t] in {q, target}
    requires forall p :: p in e.owner ==> e.owner[p] in CAST
    ensures Closed(e, Everybody(q, target))
    ensures forall t :: T(t) in Everybody(q, target) <==> t in CAST
  {
  }

  // ---------- the retreat after the third walk ----------

  /** Thread 3 waits in q, which 2 owns; thread 4 waits in target, which 1 owns and is to keep. */
  function RetreatEdges(q: Queue, target: Queue): Edges {
    Edges(map[3 := q, 4 := target], map[q := 2, target := 1])
  }

  /** The locks of the first two walks, and a third walk that has somewhere to go. */
  lemma RetreatInput(q: Queue, target: Queue)
    requires q.Owned? && target.Owned? && q != target
    ensures var e, locks := RetreatEdges(q, target), RequeueLocks(q, target, [3]);
            && Acyclic(e) && Listed(e.blockedIn, q, [3])
            && OwnerWalk(e, locks, Some(1), [T(1)], None)
            && OwnerIn(e, target) == Some(1)
            && OwnerWalk(e, locks + {T(1)}, Leaving(e, target, Some(1)), [], None)
            && OwnerIn(e, q) == Some(2) && T(2) !in locks + {T(1)}
  {
    var e := RetreatEdges(q, target);
    forall n: Node ensures HasChain(e, n) {
      if n == T(3) {
        assert IsChain(e, n, [n, Q(q), T(2)]);
      } else if n == T(4) {
        assert IsChain(e, n, [n, Q(target), T(1)]);
      } else if n == Q(q) {
        assert IsChain(e, n, [n, T(2)]);
      } else if n == Q(target) {
        assert IsChain(e, n, [n, T(1)]);
      } else {
        assert IsChain(e, n, [n]);
      }
    }
  }

  /** The graph of that input, built by the operations themselves. */
  method RetreatGraph(q: Queue, target: Queue) returns (g: Graph)
    requires q.Owned? && target.Owned? && q != target
    ensures fresh(g) && g.Inv() && g.View().edges == RetreatEdges(q, target) && g.threads.Keys == CAST.Keys
  {
    hide Exact, Linked, Healthy, Acyclic, OnlyChanged, OwnerNodes, SameProfiles;
    g := WaitersGraph(q, target);
    ghost var s := g.View();
    LoneChain(s.edges, T(2));
    g.AssignOwnerInternal(q, Some(2));
    ghost var s1 := g.View();
    SameProfilesRefl(s);
    SameProfilesTrans(s, s, s1);
    LoneChain(s1.edges, T(1));
    g.AssignOwnerInternal(target, Some(1));
    SameProfilesTrans(s, s1, g.View());
  }

  /** On that input the retreat releases a lock that it no longer holds. */
  method RetreatFaults(q: Queue, target: Queue) returns (fault: bool)
    requires q.Owned? && target.Owned? && q != target
    ensures fault
  {
    hide Valid, OwnerWalk, Acyclic, Closed, Listed;
    var g := RetreatGraph(q, target);
    RetreatInput(q, target);
    EverybodyAlive(RetreatEdges(q, target), q, target);
    var tx := new Transaction(g, 1, Everybody(q, target));
    tx.held := RequeueLocks(q, target, [3]) + {T(1)};
    assert Nodes([T(1)]) == {T(1)} && Nodes([]) == {};
    fault := tx.RetreatFromWake(q, target, [3], Some(1), Stops(None, None, None), Paths([T(1)], [], []));
  }

  // ---------- the releases of a completed requeue ----------

  /** Thread 3 waits in q and is to be woken; it owns target, where 4 waits, and is to keep it. */
  function ReleaseEdges(q: Queue, target: Queue): Edges {
    Edges(map[3 := q, 4 := target], map[target := 3])
  }

  /** Everything is locked by the two queues and the list; all three walks are empty. */
  lemma ReleaseInput(q: Queue, target: Queue)
    requires q.Owned? && target.Owned? && q != target
    ensures var e := ReleaseEdges(q, target);
            && Acyclic(e) && Listed(e.blockedIn, q, [3] + []) && OwnerIn(e, target) == Some(3)
            && RequeueReady(e, RequeueLocks(q, target, [3] + []), q, target, [3] + [], Some(3),
                            Stops(Some(T(3)), None, None), Paths([], [], []))
            && AcceptableTarget(e, q, target, 3, [])
  {
    var e := ReleaseEdges(q, target);
    forall n: Node ensures HasChain(e, n) {
      if n == T(3) {
        assert IsChain(e, n, [n, Q(q)]);
      } else if n == T(4) {
        assert IsChain(e, n, [n, Q(target), T(3), Q(q)]);
      } else if n == Q(target) {
        assert IsChain(e, n, [n, T(3), Q(q)]);
      } else {
        assert IsChain(e, n, [n]);
      }
    }
    assert 3 in [3] + [];
    var e' := WithoutOwner(e, q);
    forall c | IsChain(e', T(3), c) ensures c == [T(3), Q(q)] {
      assert IsChain(e', T(3), [T(3), Q(q)]);
      ChainUnique(e', T(3), c, [T(3), Q(q)]);
    }
  }

  method ReleaseGraph(q: Queue, target: Queue) returns (g: Graph)
    requires q.Owned? && target.Owned? && q != target
    ensures fresh(g) && g.Inv() && g.View().edges == ReleaseEdges(q, target)
    ensures g.threads.Keys == CAST.Keys && g.exiting == {}
  {
    hide Exact, Linked, Healthy, Acyclic, OnlyChanged, OwnerNodes, SameProfiles;
    g := WaitersGraph(q, target);
    ghost var s := g.View();
    SameProfilesRefl(s);
    PathChain(s.edges, [T(3)], Q(q));
    LoneChain(s.edges, Q(q));
    g.AssignOwnerInternal(target, Some(3));
    SameProfilesTrans(s, s, g.View());
  }

  /** On that input the completed requeue asks for a walk that starts where it stops. */
  method ReleaseFaults(q: Queue, target: Queue) returns (fault: bool)
    requires q.Owned? && target.Owned? && q != target
    ensures fault
  {
    hide Valid, RequeueReady, AcceptableTarget, Acyclic, Closed, Listed, OnlyChanged, SameProfiles, Moved, OwnerSet;
    var g := ReleaseGraph(q, target);
    ReleaseInput(q, target);
    EverybodyAlive(ReleaseEdges(q, target), q, target);
    var tx := new Transaction(g, 1, Everybody(q, target));
    tx.held := RequeueLocks(q, target, [3] + []);
    var wakeOwner;
    fault, wakeOwner := tx.WakeAndRequeueInternal(q, target, Some(3), [3], [], false,
                                                  Stops(Some(T(3)), None, None), Paths([], [], []));
  }

  /** Thread 3 waits in q and thread 4 in target; nobody owns anything yet. */
  method WaitersGraph(q: Queue, target: Queue) returns (g: Graph)
    requires q.Owned? && target.Owned? && q != target
    ensures fresh(g) && g.Inv() && g.View().edges == Edges(map[3 := q, 4 := target], map[])
    ensures g.threads.Keys == CAST.Keys && g.exiting == {}
  {
    hide Exact, Linked, Healthy, Acyclic, Do, SameProfiles;
    g := new Graph(CAST);
    ghost var s := g.View();
    assert 3 in CAST && 4 in CAST;
    SameProfilesRefl(s);
    LoneChain(s.edges, Q(q));
    g.InsertWaiter(3, q);
    ghost var s1 := g.View();
    SameProfilesTrans(s, s, s1);
    LoneChain(s1.edges, Q(target));
    g.InsertWaiter(4, target);
    SameProfilesTrans(s, s1, g.View());
  }
}
