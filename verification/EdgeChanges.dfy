/**
 The primitive changes an operation makes to the inheritance graph.  Each one
 leaves a single node with a pending change; propagation then absorbs it.
 */
module EdgeChanges {
  import opened Basics
  import opened Profiles
  import opened PiGraph
  import opened Inheritance

  /** A thread joins a queue; the first waiter brings empty storage for the queue's values. */
  function AddWaiter(s: State, t: ThreadId, q: Queue): State {
    s.(edges := s.edges.(blockedIn := s.edges.blockedIn[t := q]),
       qIpv := if q.Owned? && q !in s.qIpv then s.qIpv[q := ZERO_IPV] else s.qIpv)
  }

  predicate SoleWaiter(s: State, t: ThreadId, q: Queue) {
    forall u :: u in s.edges.blockedIn && s.edges.blockedIn[u] == q ==> u == t
  }

  /** A thread leaves its queue; the last waiter takes the storage with it. */
  function RemoveWaiter(s: State, t: ThreadId): State
    requires t in s.edges.blockedIn
  {
    var q := s.edges.blockedIn[t];
    s.(edges := s.edges.(blockedIn := s.edges.blockedIn - {t}),
       qIpv := if SoleWaiter(s, t, q) then s.qIpv - {q} else s.qIpv)
  }

  function SetOwner(s: State, q: Queue, t: ThreadId): State {
    s.(edges := s.edges.(owner := s.edges.owner[q := t]))
  }

  function ClearOwner(s: State, q: Queue): State {
    s.(edges := s.edges.(owner := s.edges.owner - {q}))
  }

  function SetBase(s: State, t: ThreadId, base: BaseProfile): State
    requires t in s.threads
  {
    var ipv := s.threads[t].ipv;
    s.(threads := s.threads[t := Thread(base, ipv, Effective(base, ipv))])
  }

  // ---------- a thread joins a queue ----------

  lemma AddWaiterWaiters(s: State, t: ThreadId, q: Queue, p: Queue)
    requires t in s.threads && t !in s.edges.blockedIn
    ensures Waiters(AddWaiter(s, t, q), p) == if p == q then Waiters(s, p)[t := Trans(s.threads[t])] else Waiters(s, p)
  {
  }

  /** A newly occupied queue starts with nothing to pass on. */
  predicate NewlyOwned(s: State, q: Queue, u: ThreadId) {
    q.Owned? && q !in s.qIpv && q in s.edges.owner && s.edges.owner[q] == u
  }

  lemma AddWaiterOwnedMap(s: State, t: ThreadId, q: Queue, u: ThreadId)
    ensures OwnedIpvs(AddWaiter(s, t, q), u)
         == if NewlyOwned(s, q, u) then OwnedIpvs(s, u)[q := ZERO_IPV] else OwnedIpvs(s, u)
  {
  }

  lemma AddWaiterOwned(s: State, t: ThreadId, q: Queue, u: ThreadId)
    ensures Agg(OwnedIpvs(AddWaiter(s, t, q), u)) == Agg(OwnedIpvs(s, u))
  {
    AddWaiterOwnedMap(s, t, q, u);
    if NewlyOwned(s, q, u) {
      AggAddZero(OwnedIpvs(s, u), q, OwnedIpvs(AddWaiter(s, t, q), u));
    }
  }

  lemma AddWaiterLinked(s: State, t: ThreadId, q: Queue)
    requires Linked(s) && t in s.threads && t !in s.edges.blockedIn
    ensures Linked(AddWaiter(s, t, q)) && (Healthy(s) ==> Healthy(AddWaiter(s, t, q)))
  {
    var s' := AddWaiter(s, t, q);
    forall p | p in s'.qIpv ensures p.Owned? && Waiters(s', p) != map[] {
      AddWaiterWaiters(s, t, q, p);
      assert p == q ==> t in Waiters(s', p);
    }
  }

  lemma NoWaiters(s: State, q: Queue)
    requires Linked(s) && q.Owned? && q !in s.qIpv
    ensures Waiters(s, q) == map[]
  {
  }

  lemma AddWaiterPending(s: State, t: ThreadId, q: Queue)
    requires Linked(s) && Exact(s) && t in s.threads && t !in s.edges.blockedIn
    ensures var s' := AddWaiter(s, t, q);
            && Linked(s')
            && (if q.Owned? then Pending(s', Q(q), Change(None, Some(Trans(s.threads[t])))) else Exact(s'))
  {
    var s' := AddWaiter(s, t, q);
    AddWaiterLinked(s, t, q);
    forall m: Node | m != Q(q) ensures NodeExact(s', m) {
      assert NodeExact(s, m);
      if m.Q? {
        AddWaiterWaiters(s, t, q, m.queue);
      } else {
        AddWaiterOwned(s, t, q, m.thread);
      }
    }
    if q.Owned? {
      assert NodeExact(s, Q(q));
      AddWaiterWaiters(s, t, q, q);
      DeltaAdd(Waiters(s, q), t, Trans(s.threads[t]));
      if q !in s.qIpv { NoWaiters(s, q); }
    }
  }

  // ---------- a thread leaves a queue ----------

  lemma RemoveWaiterWaiters(s: State, t: ThreadId, p: Queue)
    requires t in s.edges.blockedIn
    ensures Waiters(RemoveWaiter(s, t), p) == if p == s.edges.blockedIn[t] then Waiters(s, p) - {t} else Waiters(s, p)
  {
  }

  lemma RemoveWaiterLinked(s: State, t: ThreadId)
    requires Linked(s) && t in s.edges.blockedIn
    ensures Linked(RemoveWaiter(s, t)) && (Healthy(s) ==> Healthy(RemoveWaiter(s, t)))
  {
    var s' := RemoveWaiter(s, t);
    var q := s.edges.blockedIn[t];
    forall p | p in s'.qIpv ensures p.Owned? && Waiters(s', p) != map[] {
      RemoveWaiterWaiters(s, t, p);
      if p == q {
        var u :| u in s.edges.blockedIn && s.edges.blockedIn[u] == q && u != t;
        assert u in Waiters(s', p);
      }
    }
  }

  lemma RemoveWaiterOwned(s: State, t: ThreadId, u: ThreadId)
    requires t in s.edges.blockedIn
    ensures OwnedIpvs(RemoveWaiter(s, t), u)
         == if SoleWaiter(s, t, s.edges.blockedIn[t]) then OwnedIpvs(s, u) - {s.edges.blockedIn[t]} else OwnedIpvs(s, u)
  {
  }

  lemma SoleWaiterValue(s: State, t: ThreadId)
    requires Linked(s) && Exact(s) && t in s.edges.blockedIn
    requires s.edges.blockedIn[t].Owned? && SoleWaiter(s, t, s.edges.blockedIn[t])
    ensures s.qIpv[s.edges.blockedIn[t]] == Trans(s.threads[t])
  {
    var q := s.edges.blockedIn[t];
    assert NodeExact(s, Q(q));
    assert Waiters(s, q) == map[t := Trans(s.threads[t])];
    AggSplit(Waiters(s, q), t);
    assert Waiters(s, q) - {t} == map[];
  }

  lemma RemoveWaiterOthers(s: State, t: ThreadId, m: Node)
    requires Linked(s) && Exact(s) && t in s.edges.blockedIn
    requires m != Q(s.edges.blockedIn[t])
    requires m.T? && SoleWaiter(s, t, s.edges.blockedIn[t]) ==>
               !(s.edges.blockedIn[t] in s.edges.owner && s.edges.owner[s.edges.blockedIn[t]] == m.thread)
    ensures NodeExact(RemoveWaiter(s, t), m)
  {
    assert NodeExact(s, m);
    if m.Q? {
      RemoveWaiterWaiters(s, t, m.queue);
    } else {
      RemoveWaiterOwned(s, t, m.thread);
      if SoleWaiter(s, t, s.edges.blockedIn[t]) {
        assert OwnedIpvs(s, m.thread) - {s.edges.blockedIn[t]} == OwnedIpvs(s, m.thread);
      }
    }
  }

  /** Which node has to absorb the departure of t, if any. */
  function DepartureTarget(s: State, t: ThreadId): Option<Node>
    requires t in s.edges.blockedIn
  {
    var q := s.edges.blockedIn[t];
    if q.Plain? then None
    else if !SoleWaiter(s, t, q) then Some(Q(q))
    else if q in s.edges.owner then Some(T(s.edges.owner[q]))
    else None
  }

  lemma RemoveWaiterPending(s: State, t: ThreadId)
    requires Linked(s) && Exact(s) && t in s.edges.blockedIn
    ensures var s' := RemoveWaiter(s, t);
            && Linked(s')
            && (match DepartureTarget(s, t)
                case Some(n) => Pending(s', n, Change(Some(Trans(s.threads[t])), None))
                case None => Exact(s'))
  {
    var s' := RemoveWaiter(s, t);
    var q := s.edges.blockedIn[t];
    RemoveWaiterLinked(s, t);
    forall m: Node | Some(m) != DepartureTarget(s, t) ensures NodeExact(s', m) {
      if m != Q(q) {
        RemoveWaiterOthers(s, t, m);
      } else if q.Plain? {
        assert q !in s'.qIpv;
      }
    }
    match DepartureTarget(s, t) {
      case Some(Q(p)) =>
        assert NodeExact(s, Q(q));
        RemoveWaiterWaiters(s, t, q);
        DeltaRemove(Waiters(s, q), t);
      case Some(T(o)) =>
        assert NodeExact(s, T(o));
        SoleWaiterValue(s, t);
        RemoveWaiterOwned(s, t, o);
        DeltaRemove(OwnedIpvs(s, o), q);
      case None =>
    }
  }

  // ---------- a queue changes owner ----------

  lemma OwnerChangeKeepsWaiters(s: State, owner: map<Queue, ThreadId>, p: Queue)
    ensures Waiters(s.(edges := s.edges.(owner := owner)), p) == Waiters(s, p)
  {
  }

  lemma OwnerChangeLinked(s: State, owner: map<Queue, ThreadId>)
    requires Linked(s)
    requires forall q :: q in owner ==> q.Owned? && owner[q] in s.threads && owner[q] !in s.disowned
    ensures Linked(s.(edges := s.edges.(owner := owner))) &&
            (Healthy(s) ==> Healthy(s.(edges := s.edges.(owner := owner))))
  {
    var s' := s.(edges := s.edges.(owner := owner));
    forall p | p in s'.qIpv ensures p.Owned? && Waiters(s', p) != map[] {
      OwnerChangeKeepsWaiters(s, owner, p);
    }
  }

  lemma ClearOwnerOwned(s: State, q: Queue, u: ThreadId)
    requires q in s.edges.owner
    ensures OwnedIpvs(ClearOwner(s, q), u) == OwnedIpvs(s, u) - {q}
  {
  }

  lemma ClearOwnerOthers(s: State, q: Queue, m: Node)
    requires Exact(s) && q in s.edges.owner
    requires m != T(s.edges.owner[q]) || q !in s.qIpv
    ensures NodeExact(ClearOwner(s, q), m)
  {
    assert NodeExact(s, m);
    if m.Q? {
      OwnerChangeKeepsWaiters(s, s.edges.owner - {q}, m.queue);
    } else {
      ClearOwnerOwned(s, q, m.thread);
      assert OwnedIpvs(s, m.thread) - {q} == OwnedIpvs(s, m.thread);
    }
  }

  lemma ClearOwnerPending(s: State, q: Queue)
    requires Linked(s) && Exact(s) && q in s.edges.owner
    ensures var s' := ClearOwner(s, q);
            && Linked(s')
            && (if q in s.qIpv then Pending(s', T(s.edges.owner[q]), Change(Some(s.qIpv[q]), None)) else Exact(s'))
  {
    var s' := ClearOwner(s, q);
    var o := s.edges.owner[q];
    OwnerChangeLinked(s, s.edges.owner - {q});
    forall m: Node | m != T(o) || q !in s.qIpv ensures NodeExact(s', m) {
      ClearOwnerOthers(s, q, m);
    }
    if q in s.qIpv {
      assert NodeExact(s, T(o));
      ClearOwnerOwned(s, q, o);
      DeltaRemove(OwnedIpvs(s, o), q);
    }
  }

  lemma SetOwnerOwned(s: State, q: Queue, o: ThreadId, u: ThreadId)
    requires q !in s.edges.owner
    ensures OwnedIpvs(SetOwner(s, q, o), u)
         == if u == o && q in s.qIpv then OwnedIpvs(s, u)[q := s.qIpv[q]] else OwnedIpvs(s, u)
  {
  }

  lemma SetOwnerOthers(s: State, q: Queue, o: ThreadId, m: Node)
    requires Exact(s) && q !in s.edges.owner
    requires m != T(o) || q !in s.qIpv
    ensures NodeExact(SetOwner(s, q, o), m)
  {
    assert NodeExact(s, m);
    if m.Q? {
      OwnerChangeKeepsWaiters(s, s.edges.owner[q := o], m.queue);
    } else {
      SetOwnerOwned(s, q, o, m.thread);
    }
  }

  lemma SetOwnerPending(s: State, q: Queue, o: ThreadId)
    requires Linked(s) && Exact(s) && q !in s.edges.owner
    requires q.Owned? && o in s.threads && o !in s.disowned
    ensures var s' := SetOwner(s, q, o);
            && Linked(s')
            && (if q in s.qIpv then Pending(s', T(o), Change(None, Some(s.qIpv[q]))) else Exact(s'))
  {
    var s' := SetOwner(s, q, o);
    OwnerChangeLinked(s, s.edges.owner[q := o]);
    forall m: Node | m != T(o) || q !in s.qIpv ensures NodeExact(s', m) {
      SetOwnerOthers(s, q, o, m);
    }
    if q in s.qIpv {
      assert NodeExact(s, T(o));
      SetOwnerOwned(s, q, o, o);
      DeltaAdd(OwnedIpvs(s, o), q, s.qIpv[q]);
    }
  }

  // ---------- a thread changes its base profile ----------

  lemma SetBaseWaiters(s: State, t: ThreadId, base: BaseProfile, p: Queue)
    requires t in s.threads
    ensures Waiters(SetBase(s, t, base), p)
         == if t in Waiters(s, p) then Waiters(s, p)[t := Transmitted(base, s.threads[t].ipv)] else Waiters(s, p)
  {
  }

  lemma SetBaseOwned(s: State, t: ThreadId, base: BaseProfile, u: ThreadId)
    requires t in s.threads
    ensures OwnedIpvs(SetBase(s, t, base), u) == OwnedIpvs(s, u)
  {
  }

  lemma SetBaseLinked(s: State, t: ThreadId, base: BaseProfile)
    requires Linked(s) && t in s.threads
    ensures Linked(SetBase(s, t, base)) && (Healthy(s) && Admissible(base) ==> Healthy(SetBase(s, t, base)))
  {
    var s' := SetBase(s, t, base);
    forall p | p in s'.qIpv ensures p.Owned? && Waiters(s', p) != map[] {
      SetBaseWaiters(s, t, base, p);
    }
  }

  lemma SetBaseOthers(s: State, t: ThreadId, base: BaseProfile, m: Node)
    requires Linked(s) && Exact(s) && t in s.threads
    requires !(t in s.edges.blockedIn && s.edges.blockedIn[t].Owned? && m == Q(s.edges.blockedIn[t]))
    ensures NodeExact(SetBase(s, t, base), m)
  {
    assert NodeExact(s, m);
    if m.Q? {
      SetBaseWaiters(s, t, base, m.queue);
    } else {
      SetBaseOwned(s, t, base, m.thread);
    }
  }

  /** The queue a rebased thread is blocked in has that thread's change to absorb. */
  lemma SetBaseDelta(s: State, t: ThreadId, base: BaseProfile, q: Queue)
    requires Linked(s) && Exact(s) && t in s.threads
    requires t in s.edges.blockedIn && q == s.edges.blockedIn[t] && q.Owned?
    ensures q in s.qIpv
    ensures Delta(s.qIpv[q], Agg(Waiters(SetBase(s, t, base), q)),
                  Change(Some(Trans(s.threads[t])), Some(Transmitted(base, s.threads[t].ipv))))
  {
    var x := Transmitted(base, s.threads[t].ipv);
    assert NodeExact(s, Q(q));
    SetBaseWaiters(s, t, base, q);
    DeltaReplace(Waiters(s, q), t, x, Change(Some(Trans(s.threads[t])), Some(x)));
  }

  lemma SetBasePending(s: State, t: ThreadId, base: BaseProfile)
    requires Linked(s) && Exact(s) && t in s.threads
    ensures var s' := SetBase(s, t, base);
            && Linked(s')
            && (if t in s.edges.blockedIn && s.edges.blockedIn[t].Owned?
                then Pending(s', Q(s.edges.blockedIn[t]),
                             Change(Some(Trans(s.threads[t])), Some(Transmitted(base, s.threads[t].ipv))))
                else Exact(s'))
  {
    var s' := SetBase(s, t, base);
    SetBaseLinked(s, t, base);
    if t in s.edges.blockedIn && s.edges.blockedIn[t].Owned? {
      SetBaseDelta(s, t, base, s.edges.blockedIn[t]);
    }
    hide Linked, NodeExact, Agg, Waiters, Delta;
    forall m: Node | !(t in s.edges.blockedIn && s.edges.blockedIn[t].Owned? && m == Q(s.edges.blockedIn[t]))
      ensures NodeExact(s', m)
    {
      SetBaseOthers(s, t, base, m);
    }
  }

  // ---------- an exiting thread gives up its queues ----------

  /** Every queue of t loses its owner; nothing is propagated and t's values are left stale. */
  function DisownAll(s: State, t: ThreadId): State {
    s.(edges := s.edges.(owner := map q | q in s.edges.owner && s.edges.owner[q] != t :: s.edges.owner[q]),
       disowned := s.disowned + {t})
  }

  lemma DisownAllOwned(s: State, t: ThreadId, u: ThreadId)
    requires u != t
    ensures OwnedIpvs(DisownAll(s, t), u) == OwnedIpvs(s, u)
  {
  }

  lemma DisownAllWaiters(s: State, t: ThreadId, q: Queue)
    ensures Waiters(DisownAll(s, t), q) == Waiters(s, q)
  {
  }

  lemma DisownAllLinked(s: State, t: ThreadId)
    requires Linked(s)
    ensures Linked(DisownAll(s, t)) && (Healthy(s) ==> Healthy(DisownAll(s, t)))
  {
    var s' := DisownAll(s, t);
    forall q | q in s'.qIpv ensures q.Owned? && Waiters(s', q) != map[] {
      DisownAllWaiters(s, t, q);
    }
  }

  lemma DisownAllExact(s: State, t: ThreadId)
    requires Exact(s)
    ensures Exact(DisownAll(s, t))
  {
    var s' := DisownAll(s, t);
    forall m: Node ensures NodeExact(s', m) {
      assert NodeExact(s, m);
      match m {
        case Q(q) => DisownAllWaiters(s, t, q);
        case T(u) => if u != t { DisownAllOwned(s, t, u); }
      }
    }
  }

  /** Chains that avoid a queue do not notice that it loses its owner. */
  lemma StillUnreached(s: State, q: Queue, n: Node, s': State)
    requires Acyclic(s.edges) && s'.edges == ClearOwner(s, q).edges && Acyclic(s'.edges)
    requires !Reaches(s.edges, n, Q(q))
    ensures ChainOf(s'.edges, n) == ChainOf(s.edges, n)
  {
    RemoveEdgeAcyclic(s.edges, s'.edges, Q(q));
  }
}
