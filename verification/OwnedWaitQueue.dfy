/**
 Owned wait queues: blocking, waking, requeueing, owner changes and base-profile
 changes, each of which pushes its effect down one inheritance chain.
 */
module OwnedWaitQueue {
  import opened Basics
  import opened Profiles
  import opened PiGraph
  import opened Inheritance
  import opened EdgeChanges
  import opened Propagation
  import opened Operations

  class Graph {
    var threads: map<ThreadId, Thread>
    var blockedIn: map<ThreadId, Queue>
    var owner: map<Queue, ThreadId>
    var qIpv: map<Queue, Ipv>
    var disowned: set<ThreadId>
    /** Threads on their way out, which may no longer become owners. */
    var exiting: set<ThreadId>

    /** Threads with the given base profiles, none of them blocked, none an owner. */
    constructor (profiles: map<ThreadId, BaseProfile>)
      ensures threads.Keys == profiles.Keys && exiting == {} && disowned == {}
      ensures blockedIn == map[] && owner == map[] && qIpv == map[]
      ensures forall t :: t in threads ==>
                threads[t] == Thread(profiles[t], ZERO_IPV, Effective(profiles[t], ZERO_IPV))
      ensures (forall t :: t in profiles ==> Admissible(profiles[t])) ==> Inv()
    {
      threads := map t | t in profiles :: Thread(profiles[t], ZERO_IPV, Effective(profiles[t], ZERO_IPV));
      blockedIn, owner, qIpv, disowned, exiting := map[], map[], map[], {}, {};
      new;
      NoEdgesExact(View());
    }

    ghost function View(): State
      reads this
    {
      State(threads, Edges(blockedIn, owner), qIpv, disowned)
    }

    ghost predicate Inv()
      reads this
    {
      Valid(View()) && disowned <= exiting
    }

    /** MinInheritableRelativeDeadline: the least deadline among the waiters with a deadline profile. */
    method MinInheritableRelativeDeadline(q: Queue) returns (m: Duration)
      requires blockedIn.Keys <= threads.Keys
      ensures m == ScannedMin(View(), q)
    {
      m := MAX_DURATION;
      var rest := set t | t in blockedIn && blockedIn[t] == q;
      ghost var w := Scanned(View(), q);
      ghost var least: Option<ThreadId> := None;
      while rest != {}
        invariant rest <= w.Keys
        invariant forall t :: t in w && t !in rest ==> m <= w[t].minDeadline
        invariant match least case None => m == MAX_DURATION case Some(k) => k in w && w[k].minDeadline == m
      {
        var t :| t in rest;
        var eff := threads[t].eff;
        if eff.EffDeadline? && eff.deadline < m {
          m := eff.deadline;
          least := Some(t);
        }
        rest := rest - {t};
      }
      AggMinUnique(w, m, least);
    }

    /** The recomputation loop over the queues a thread owns. */
    method MinOwnedDeadline(t: ThreadId) returns (m: Duration)
      ensures m == Agg(OwnedIpvs(View(), t)).minDeadline
    {
      m := MAX_DURATION;
      var rest := set q | q in owner && owner[q] == t && q in qIpv;
      ghost var w := OwnedIpvs(View(), t);
      ghost var least: Option<Queue> := None;
      while rest != {}
        invariant rest <= w.Keys
        invariant forall q :: q in w && q !in rest ==> m <= w[q].minDeadline
        invariant match least case None => m == MAX_DURATION case Some(k) => k in w && w[k].minDeadline == m
      {
        var q :| q in rest;
        if qIpv[q].minDeadline < m {
          m := qIpv[q].minDeadline;
          least := Some(q);
        }
        rest := rest - {q};
      }
      AggMinUnique(w, m, least);
    }

    method ApplyIpvDeltaToOwq(q: Queue, c: Change)
      requires blockedIn.Keys <= threads.Keys && q in qIpv
      modifies this`qIpv
      ensures View() == Absorb(old(View()), Q(q), c)
    {
      hide ScannedMin;
      var m := MinInheritableRelativeDeadline(q);
      var v := qIpv[q];
      qIpv := qIpv[q := Ipv(v.weight + WeightDelta(c), v.utilization + UtilizationDelta(c), m)];
    }

    /** The thread's inherited values absorb the change and its effective profile is recomputed. */
    method ApplyIpvDeltaToThread(t: ThreadId, c: Change)
      requires Present(View(), T(t))
      modifies this`threads
      ensures View() == Absorb(old(View()), T(t), c)
    {
      hide Agg;
      var th := threads[t];
      var m: Duration := th.ipv.minDeadline;
      if c.added.Some? && c.added.value.minDeadline <= m {
        m := Min(m, c.added.value.minDeadline);
      } else {
        if c.lost.Some? && c.lost.value.minDeadline <= m {
          m := MinOwnedDeadline(t);
        }
        if c.added.Some? {
          m := Min(m, c.added.value.minDeadline);
        }
      }
      var v := Ipv(th.ipv.weight + WeightDelta(c), th.ipv.utilization + UtilizationDelta(c), m);
      threads := threads[t := Thread(th.base, v, Effective(th.base, v))];
    }

    /** FinishPropagate: carry the change c from n to the end of its chain. */
    method FinishPropagate(n: Node, c: Change)
      requires Linked(View()) && Acyclic(View().edges) && Present(View(), n)
      modifies this`threads, this`qIpv
      ensures View() == Propagate(old(View()), n, c)
    {
      hide Linked, Acyclic, Absorb, Walk;
      if (c.lost.None? || !Consequential(c.lost.value)) && (c.added.None? || !Consequential(c.added.value)) {
        return;
      }
      ghost var goal := Walk(View(), n, c);
      var next := Some(n);
      ghost var left := |ChainOf(View().edges, n)|;
      while next.Some?
        invariant Linked(View()) && Acyclic(View().edges)
        invariant next.Some? ==>
                    && Present(View(), next.value) && Walk(View(), next.value, c) == goal
                    && left == |ChainOf(View().edges, next.value)|
        invariant next.None? ==> View() == goal
        decreases left, next.Some?
      {
        WalkUnfolds(View(), next.value, c);
        LinkedKeys(View());
        match next.value {
          case Q(q) =>
            ApplyIpvDeltaToOwq(q, c);
            next := if q in owner then Some(T(owner[q])) else None;
          case T(t) =>
            ApplyIpvDeltaToThread(t, c);
            next := if t in blockedIn && blockedIn[t].Owned? then Some(Q(blockedIn[t])) else None;
        }
        if next.Some? { left := |ChainOf(View().edges, next.value)|; }
      }
    }

    // ---------- one edge at a time ----------

    /** A thread joins a queue's collection and its pressure is propagated. */
    method InsertWaiter(t: ThreadId, q: Queue)
      requires Linked(View()) && Enabled(View(), Join(t, q))
      modifies this`blockedIn, this`threads, this`qIpv
      ensures View() == Do(old(View()), Join(t, q))
      ensures blockedIn == old(blockedIn)[t := q]
      ensures SameProfiles(old(View()), View()) && (old(Valid(View())) ==> Valid(View()))
    {
      ghost var s, op := View(), Join(t, q);
      DoKeeps(s, op);
      EditReady(s, op);
      hide Linked, Exact, Healthy, Acyclic, Propagate, SameProfiles;
      blockedIn := blockedIn[t := q];
      if q.Owned? && q !in qIpv {
        qIpv := qIpv[q := ZERO_IPV];
      }
      assert View() == Edit(s, op);
      if q.Owned? {
        FinishPropagate(Q(q), Change(None, Some(Trans(threads[t]))));
      }
    }

    /** A thread leaves its queue (wake, timeout, requeue) and its pressure is taken back. */
    method RemoveWaiterFromQueue(t: ThreadId)
      requires Linked(View()) && Enabled(View(), Leave(t))
      modifies this`blockedIn, this`threads, this`qIpv
      ensures View() == Do(old(View()), Leave(t))
      ensures blockedIn == old(blockedIn) - {t}
      ensures SameProfiles(old(View()), View()) && (old(Valid(View())) ==> Valid(View()))
    {
      ghost var s, op := View(), Leave(t);
      DoKeeps(s, op);
      EditReady(s, op);
      LinkedKeys(s);
      hide Linked, Exact, Healthy, Acyclic, Propagate, SameProfiles;
      var q := blockedIn[t];
      var last := forall u :: u in blockedIn && blockedIn[u] == q ==> u == t;
      blockedIn := blockedIn - {t};
      if last {
        qIpv := qIpv - {q};
      }
      assert View() == Edit(s, op);
      if q.Plain? || (last && q !in owner) {
        return;
      }
      FinishPropagate(if last then T(owner[q]) else Q(q), Change(Some(Trans(threads[t])), None));
    }

    method RemoveOwner(q: Queue)
      requires Linked(View()) && Enabled(View(), Disown(q))
      modifies this`owner, this`threads, this`qIpv
      ensures View() == Do(old(View()), Disown(q))
      ensures owner == old(owner) - {q}
      ensures SameProfiles(old(View()), View()) && (old(Valid(View())) ==> Valid(View()))
    {
      ghost var s, op := View(), Disown(q);
      DoKeeps(s, op);
      EditReady(s, op);
      hide Linked, Exact, Healthy, Acyclic, Propagate, SameProfiles;
      var o := owner[q];
      owner := owner - {q};
      assert View() == Edit(s, op);
      if q in qIpv {
        FinishPropagate(T(o), Change(Some(qIpv[q]), None));
      }
    }

    method AddOwner(q: Queue, o: ThreadId)
      requires Linked(View()) && Enabled(View(), Own(q, o))
      modifies this`owner, this`threads, this`qIpv
      ensures View() == Do(old(View()), Own(q, o))
      ensures owner == old(owner)[q := o]
      ensures SameProfiles(old(View()), View()) && (old(Valid(View())) ==> Valid(View()))
    {
      ghost var s, op := View(), Own(q, o);
      DoKeeps(s, op);
      EditReady(s, op);
      hide Linked, Exact, Healthy, Acyclic, Propagate, SameProfiles;
      owner := owner[q := o];
      assert View() == Edit(s, op);
      if q in qIpv {
        FinishPropagate(T(o), Change(None, Some(qIpv[q])));
      }
    }

    // ---------- operations ----------

    /** AssignOwnerInternal. */
    method AssignOwnerInternal(q: Queue, newOwner: Option<ThreadId>)
      requires Valid(View()) && q.Owned?
      requires newOwner.Some? ==> newOwner.value in threads && newOwner.value !in disowned
      requires newOwner.Some? && newOwner != OwnerOf(q) ==> !Reaches(View().edges, T(newOwner.value), Q(q))
      modifies this`owner, this`threads, this`qIpv
      ensures Valid(View())
      ensures owner == OwnerSet(old(owner), q, newOwner)
      ensures SameProfiles(old(View()), View())
      ensures OnlyChanged(old(View()), View(), OwnerNodes(old(View().edges), q, newOwner))
    {
      hide Exact, Linked, Healthy, OnlyChanged;
      ghost var s := View();
      OnlyChangedRefl(s, OwnerNodes(s.edges, q, newOwner));
      OnlyChangedRefl(s, Nodes(ChainOf(s.edges, Q(q))));
      if OwnerOf(q) == newOwner {
        return;
      }
      if q in owner {
        RemoveOwner(q);
        DisownOnlyChanges(s, q);
      }
      ghost var s1 := View();
      if newOwner.Some? {
        if q in old(owner) {
          StillUnreached(old(View()), q, T(newOwner.value), View());
        }
        AddOwner(q, newOwner.value);
        OwnOnlyChanges(s1, q, newOwner.value);
      }
      ReplaceOnlyChanges(s, s1, View(), q, newOwner);
    }

    function OwnerOf(q: Queue): Option<ThreadId>
      reads this
    {
      if q in owner then Some(owner[q]) else None
    }

    /** Follows the chain from n until it ends or meets m. */
    method ChainMeets(n: Node, m: Node) returns (met: bool)
      requires Acyclic(View().edges)
      ensures met == Reaches(View().edges, n, m)
    {
      ghost var chain := ChainOf(View().edges, n);
      ghost var i := 0;
      var cur := n;
      while cur != m
        invariant 0 <= i < |chain| && cur == chain[i] && m !in chain[..i]
        decreases |chain| - i
      {
        ChainStep(View().edges, chain, i);
        match Next(Edges(blockedIn, owner), cur) {
          case None =>
            assert chain == chain[..i] + [cur];
            return false;
          case Some(x) =>
            i, cur := i + 1, x;
            assert chain[..i] == chain[..i - 1] + [chain[i - 1]];
        }
      }
      return true;
    }

    /** AssignOwner: refused if and only if the new owner's chain leads back to the queue. */
    method AssignOwner(q: Queue, newOwner: Option<ThreadId>) returns (ok: bool)
      requires Inv() && q.Owned?
      requires newOwner.Some? ==> newOwner.value in threads && newOwner.value !in exiting
      modifies this`owner, this`threads, this`qIpv
      ensures Inv()
      ensures !ok <==>
              && newOwner.Some? && newOwner != old(OwnerOf(q))
              && Reaches(old(View().edges), T(newOwner.value), Q(q))
      ensures owner == if ok then OwnerSet(old(owner), q, newOwner) else old(owner)
      ensures SameProfiles(old(View()), View())
    {
      hide Exact, Linked, Healthy, Acyclic;
      if newOwner.Some? && newOwner != OwnerOf(q) {
        var met := ChainMeets(T(newOwner.value), Q(q));
        if met {
          return false;
        }
      }
      AssignOwnerInternal(q, newOwner);
      return true;
    }

    /** One woken thread leaves its queue and perhaps becomes the queue's owner. */
    method WakeOne(t: ThreadId, q: Queue, assignOwner: bool)
      requires Inv() && q.Owned? && t in blockedIn && blockedIn[t] == q
      requires assignOwner ==> t !in exiting
      modifies this`owner, this`blockedIn, this`threads, this`qIpv
      ensures Inv()
      ensures blockedIn == old(blockedIn) - {t}
      ensures owner == if assignOwner && HasWaiters(blockedIn, q) then old(owner)[q := t] else old(owner)
      ensures SameProfiles(old(View()), View())
      ensures OnlyChanged(old(View()), View(), Nodes(ChainOf(old(View().edges), T(t))))
    {
      hide Exact, Linked, Healthy, Acyclic, OnlyChanged;
      ghost var s := View();
      WaiterLives(s, t);
      RemoveWaiterFromQueue(t);
      LeaveOnlyChanges(s, t);
      ghost var s1 := View();
      if assignOwner && HasWaiters(blockedIn, q) {
        LoneChain(View().edges, T(t));
        AssignOwnerInternal(q, Some(t));
        AfterLeaving(s.edges, s1.edges, t);
        OnlyChangedTrans(s, Nodes(ChainOf(s.edges, T(t))), s1, OwnerNodes(s1.edges, q, Some(t)), View(),
                         Nodes(ChainOf(s.edges, T(t))));
      }
    }

    /** WakeThreadsLocked: drop the owner, wake the listed threads, perhaps make the one woken thread the owner. */
    method WakeThreadsLocked(q: Queue, list: seq<ThreadId>, assignOwner: bool)
      returns (woken: nat, newOwner: Option<ThreadId>)
      requires Inv() && q.Owned? && Listed(blockedIn, q, list)
      requires assignOwner ==> |list| <= 1 && forall t :: t in list ==> t !in exiting
      modifies this`owner, this`blockedIn, this`threads, this`qIpv
      ensures Inv() && woken == |list|
      ensures blockedIn == old(blockedIn) - Members(list)
      ensures newOwner == WakeOwner(blockedIn, q, list, assignOwner)
      ensures owner == OwnerSet(old(owner), q, newOwner)
      ensures SameProfiles(old(View()), View())
    {
      hide Exact, Linked, Healthy, Acyclic, SameProfiles, OnlyChanged, OwnerNodes;
      SameProfilesRefl(View());
      AssignOwnerInternal(q, None);
      woken := 0;
      while woken < |list|
        invariant 0 <= woken <= |list|
        invariant Inv()
        invariant blockedIn == old(blockedIn) - Members(list[..woken])
        invariant owner == OwnerSet(old(owner), q,
                    if assignOwner && woken == 1 && HasWaiters(blockedIn, q) then Some(list[0]) else None)
        invariant SameProfiles(old(View()), View())
      {
        assert list[woken] !in list[..woken] && list[woken] in list;
        ghost var s := View();
        WakeOne(list[woken], q, assignOwner);
        SameProfilesTrans(old(View()), s, View());
        woken := woken + 1;
        assert list[..woken] == list[..woken - 1] + [list[woken - 1]];
      }
      assert list[..woken] == list;
      newOwner := OwnerOf(q);
    }

    method RequeueOne(t: ThreadId, target: Queue, ghost n: Node)
      requires Inv() && t in blockedIn && target.Owned?
      requires !Reaches(View().edges, Q(target), T(t)) && !Reaches(View().edges, n, T(t))
      modifies this`blockedIn, this`threads, this`qIpv
      ensures Inv()
      ensures blockedIn == old(blockedIn)[t := target]
      ensures ChainOf(View().edges, n) == ChainOf(old(View().edges), n)
      ensures ChainOf(View().edges, Q(target)) == ChainOf(old(View().edges), Q(target))
      ensures SameProfiles(old(View()), View())
      ensures OnlyChanged(old(View()), View(),
                          Nodes(ChainOf(old(View().edges), T(t))) + Nodes(ChainOf(old(View().edges), Q(target))))
    {
      hide Exact, Linked, Healthy, Acyclic, OnlyChanged, Do;
      ghost var s := View();
      WaiterLives(s, t);
      RemoveWaiterFromQueue(t);
      ghost var s1 := View();
      ChainsWithout(s.edges, s1.edges, t, n);
      ChainsWithout(s.edges, s1.edges, t, Q(target));
      SameReach(s.edges, s1.edges, Q(target), T(t));
      InsertWaiter(t, target);
      ChainsWith(s1.edges, View().edges, t, target, n);
      ChainsWith(s1.edges, View().edges, t, target, Q(target));
      RequeueOnlyChanges(s, s1, t, target);
    }

    method SetThreadBaseProfileAndPropagate(t: ThreadId, profile: BaseProfile)
      requires Linked(View()) && Enabled(View(), Rebase(t, profile))
      modifies this`threads, this`qIpv
      ensures View() == Do(old(View()), Rebase(t, profile))
      ensures threads.Keys == old(threads.Keys) && threads[t].base == profile
      ensures forall u :: u in threads && u != t ==> threads[u].base == old(threads[u].base)
      ensures old(Valid(View())) && Admissible(profile) ==> Valid(View())
    {
      ghost var s, op := View(), Rebase(t, profile);
      DoLinked(s, op);
      EditReady(s, op);
      if Valid(s) && Admissible(profile) { DoValid(s, op); }
      hide Linked, Exact, Healthy, Acyclic, Propagate;
      var before := Trans(threads[t]);
      threads := threads[t := Thread(profile, threads[t].ipv, Effective(profile, threads[t].ipv))];
      assert View() == Edit(s, op);
      if t in blockedIn && blockedIn[t].Owned? {
        FinishPropagate(Q(blockedIn[t]), Change(Some(before), Some(Trans(threads[t]))));
      }
    }

    method ResetOwnerIfNoWaiters(q: Queue)
      requires Inv()
      modifies this`owner, this`threads, this`qIpv
      ensures Inv()
      ensures owner == if HasWaiters(blockedIn, q) then old(owner) else old(owner) - {q}
      ensures threads == old(threads) && qIpv == old(qIpv)
    {
      if HasWaiters(blockedIn, q) || q !in owner {
        return;
      }
      Unoccupied(View(), q);
      DoKeeps(View(), Disown(q));
      owner := owner - {q};
    }

    /** DisownAllQueues: an exiting thread gives up its queues one by one. */
    method DisownAllQueues(t: ThreadId)
      requires Inv() && t in exiting && t !in blockedIn
      modifies this`owner, this`disowned
      ensures Inv()
      ensures disowned == old(disowned) + {t}
      ensures forall q :: OwnerOf(q) == if old(OwnerOf(q)) == Some(t) then None else old(OwnerOf(q))
    {
      ghost var s := View();
      var rest := set q | q in owner && owner[q] == t;
      while rest != {}
        invariant disowned == old(disowned)
        invariant forall q :: q in rest <==> q in owner && owner[q] == t
        invariant owner.Keys <= old(owner).Keys
        invariant forall q :: q in owner ==> owner[q] == old(owner)[q]
        invariant forall q :: q in old(owner) && q !in owner ==> old(owner)[q] == t
      {
        var q :| q in rest;
        owner := owner - {q};
        rest := rest - {q};
      }
      disowned := disowned + {t};
      assert forall q :: q in owner ==> q !in rest && owner[q] != t;
      assert owner == DisownAll(s, t).edges.owner;
      assert View() == DisownAll(s, t);
      DoValid(s, GiveUp(t));
    }
  }

  /** The nodes that a change of owner writes: the chains of the queue and of the new owner. */
  ghost function OwnerNodes(e: Edges, q: Queue, newOwner: Option<ThreadId>): set<Node>
    requires Acyclic(e)
  {
    Nodes(ChainOf(e, Q(q))) + match newOwner case None => {} case Some(o) => Nodes(ChainOf(e, T(o)))
  }

  /** Once t has left its queue, the queue's chain and t itself lie on t's old chain. */
  lemma AfterLeaving(e: Edges, e': Edges, t: ThreadId)
    requires Acyclic(e) && Acyclic(e') && t in e.blockedIn && e' == e.(blockedIn := e.blockedIn - {t})
    ensures OwnerNodes(e', e.blockedIn[t], Some(t)) <= Nodes(ChainOf(e, T(t)))
  {
    var q := e.blockedIn[t];
    PathChain(e, [T(t)], Q(q));
    RemoveEdgeAcyclic(e, e', T(t));
    LoneChain(e', T(t));
    hide Acyclic;
    assert ChainOf(e', Q(q)) <= ChainOf(e, Q(q));
  }

  lemma ChainsWithout(e: Edges, e': Edges, t: ThreadId, n: Node)
    requires Acyclic(e) && Acyclic(e') && e' == e.(blockedIn := e.blockedIn - {t}) && !Reaches(e, n, T(t))
    ensures ChainOf(e', n) == ChainOf(e, n) && !Reaches(e', n, T(t))
  {
    RemoveEdgeAcyclic(e, e', T(t));
  }

  lemma ChainsWith(e: Edges, e': Edges, t: ThreadId, q: Queue, n: Node)
    requires Acyclic(e) && Acyclic(e') && t !in e.blockedIn && e' == e.(blockedIn := e.blockedIn[t := q])
    requires !Reaches(e, Q(q), T(t)) && !Reaches(e, n, T(t))
    ensures ChainOf(e', n) == ChainOf(e, n)
  {
    AddEdgeAcyclic(e, e', T(t), Q(q));
  }

  lemma RequeueOnlyChanges(s: State, s': State, t: ThreadId, target: Queue)
    requires Linked(s) && Enabled(s, Leave(t)) && s' == Do(s, Leave(t))
    requires Linked(s') && Enabled(s', Join(t, target)) && ChainOf(s'.edges, Q(target)) == ChainOf(s.edges, Q(target))
    ensures OnlyChanged(s, Do(s', Join(t, target)),
                        Nodes(ChainOf(s.edges, T(t))) + Nodes(ChainOf(s.edges, Q(target))))
  {
    hide Linked, Acyclic, OnlyChanged, Do;
    LeaveOnlyChanges(s, t);
    JoinOnlyChanges(s', t, target);
    assert ChainOf(s.edges, T(t))[0] == T(t);
    OnlyChangedTrans(s, Nodes(ChainOf(s.edges, T(t))), s', {T(t)} + Nodes(ChainOf(s'.edges, Q(target))),
                     Do(s', Join(t, target)), Nodes(ChainOf(s.edges, T(t))) + Nodes(ChainOf(s.edges, Q(target))));
  }

  lemma ReplaceOnlyChanges(s: State, s': State, s'': State, q: Queue, newOwner: Option<ThreadId>)
    requires Acyclic(s.edges) && Acyclic(s'.edges) && s'.edges == WithoutOwner(s.edges, q)
    requires OnlyChanged(s, s', Nodes(ChainOf(s.edges, Q(q))))
    requires match newOwner
             case None => s'' == s'
             case Some(o) => OnlyChanged(s', s'', {Q(q)} + Nodes(ChainOf(s'.edges, T(o))))
    ensures OnlyChanged(s, s'', OwnerNodes(s.edges, q, newOwner))
  {
    var all := OwnerNodes(s.edges, q, newOwner);
    RemoveEdgeAcyclic(s.edges, s'.edges, Q(q));
    hide Acyclic, OnlyChanged;
    assert ChainOf(s.edges, Q(q))[0] == Q(q);
    match newOwner {
      case None =>
        OnlyChangedRefl(s', {});
        OnlyChangedTrans(s, Nodes(ChainOf(s.edges, Q(q))), s', {}, s'', all);
      case Some(o) =>
        assert ChainOf(s'.edges, T(o)) <= ChainOf(s.edges, T(o));
        OnlyChangedTrans(s, Nodes(ChainOf(s.edges, Q(q))), s', {Q(q)} + Nodes(ChainOf(s'.edges, T(o))), s'', all);
    }
  }

  predicate HasWaiters(blockedIn: map<ThreadId, Queue>, q: Queue) {
    exists t :: t in blockedIn && blockedIn[t] == q
  }

  /** The owner that a requeue leaves its target with: a new one only if somebody waits. */
  function TargetOwner(blockedIn: map<ThreadId, Queue>, target: Queue, was: Option<ThreadId>,
                       newOwner: Option<ThreadId>): Option<ThreadId> {
    if newOwner == was || HasWaiters(blockedIn, target) then newOwner else None
  }

  /** The owner that a wake leaves its queue with: the one thread woken, if others still wait. */
  function WakeOwner(blockedIn: map<ThreadId, Queue>, q: Queue, list: seq<ThreadId>, assignOwner: bool)
    : Option<ThreadId> {
    if assignOwner && |list| == 1 && HasWaiters(blockedIn, q) then Some(list[0]) else None
  }

  function Members(list: seq<ThreadId>): set<ThreadId> {
    set t | t in list
  }

  /** list names distinct threads, all of them blocked in q. */
  predicate Listed(blockedIn: map<ThreadId, Queue>, q: Queue, list: seq<ThreadId>) {
    && (forall i, j | 0 <= i < j < |list| :: list[i] != list[j])
    && (forall t :: t in list ==> t in blockedIn && blockedIn[t] == q)
  }

  function Moved(blockedIn: map<ThreadId, Queue>, list: seq<ThreadId>, target: Queue): map<ThreadId, Queue> {
    map t | t in blockedIn :: if t in list then target else blockedIn[t]
  }

  function WithoutOwner(e: Edges, q: Queue): Edges {
    e.(owner := e.owner - {q})
  }

  ghost predicate Avoids(e: Edges, n: Node, list: seq<ThreadId>)
    requires Acyclic(e)
  {
    forall t :: t in list ==> !Reaches(e, n, T(t))
  }

  /** Once q has no owner, o's chain meets neither the target nor a thread about to be requeued. */
  ghost predicate AcceptableTarget(e: Edges, q: Queue, target: Queue, o: ThreadId, requeue: seq<ThreadId>) {
    forall c :: IsChain(WithoutOwner(e, q), T(o), c) ==> Q(target) !in c && forall t :: t in requeue ==> T(t) !in c
  }

  lemma SameReach(e: Edges, e': Edges, n: Node, m: Node)
    requires Acyclic(e) && Acyclic(e') && ChainOf(e', n) == ChainOf(e, n)
    ensures Reaches(e', n, m) == Reaches(e, n, m)
  {
  }

  lemma TargetChain(e: Edges, target: Queue, list: seq<ThreadId>)
    requires Acyclic(e)
    requires target in e.owner ==> Avoids(e, T(e.owner[target]), list)
    ensures Avoids(e, Q(target), list)
  {
    if target in e.owner {
      PathChain(e, [Q(target)], T(e.owner[target]));
    } else {
      LoneChain(e, Q(target));
    }
  }

  lemma SplitList(blockedIn: map<ThreadId, Queue>, q: Queue, wake: seq<ThreadId>, requeue: seq<ThreadId>)
    requires Listed(blockedIn, q, wake + requeue)
    ensures Listed(blockedIn, q, wake) && Listed(blockedIn, q, requeue)
    ensures forall target :: Listed(Moved(blockedIn, requeue, target), q, wake)
  {
    var all := wake + requeue;
    assert forall i | 0 <= i < |wake| :: all[i] == wake[i];
    assert forall i | 0 <= i < |requeue| :: all[|wake| + i] == requeue[i];
    forall t | t in wake ensures t !in requeue && t in all {
      var i :| 0 <= i < |wake| && wake[i] == t;
      assert all[i] == t;
    }
    assert forall t :: t in requeue ==> t in all;
  }

  /** Waking threads of q leaves the other queues as occupied as they were. */
  lemma OtherQueueKept(blockedIn: map<ThreadId, Queue>, list: seq<ThreadId>, q: Queue, target: Queue)
    requires q != target && forall t :: t in list ==> t in blockedIn && blockedIn[t] == q
    ensures HasWaiters(blockedIn - Members(list), target) == HasWaiters(blockedIn, target)
  {
    if t :| t in blockedIn && blockedIn[t] == target {
      assert t in blockedIn - Members(list);
    }
  }

  lemma LinkedKeys(s: State)
    requires Linked(s)
    ensures s.edges.blockedIn.Keys <= s.threads.Keys
  {
  }

  lemma EditReady(s: State, op: Op)
    requires Linked(s) && Enabled(s, op)
    ensures Linked(Edit(s, op)) && Acyclic(Edit(s, op).edges)
    ensures Target(s, op).Some? ==> Present(Edit(s, op), Target(s, op).value)
  {
    EditLinked(s, op);
    EditAcyclic(s, op);
    if Target(s, op).Some? { TargetPresent(s, op); }
  }

  lemma WaiterLives(s: State, t: ThreadId)
    requires Linked(s) && t in s.edges.blockedIn
    ensures t in s.threads
  {
  }

  lemma Unoccupied(s: State, q: Queue)
    requires Linked(s) && !HasWaiters(s.edges.blockedIn, q)
    ensures q !in s.qIpv
  {
    if q in s.qIpv {
      var t :| t in Waiters(s, q);
    }
  }

  function OwnerSet(owner: map<Queue, ThreadId>, q: Queue, o: Option<ThreadId>): map<Queue, ThreadId> {
    match o
    case Some(t) => owner[q := t]
    case None => owner - {q}
  }
}
