/**
 When incremental inheritance goes wrong.  Propagation stops at once when a change
 carries neither weight nor utilization, and a fair thread without inherited
 utilization hides the deadline it transmits.  Both matter only for deadline
 profiles whose utilization rounds to zero; this module says exactly when.
 */
module EarlyExit {
  import opened Basics
  import opened Profiles
  import opened PiGraph
  import opened Inheritance
  import opened EdgeChanges
  import opened Recompute
  import opened Propagation
  import opened Operations

  // ---------- operations whose effect is skipped ----------

  ghost function StoredMin(s: State, n: Node): Duration
    requires Present(s, n)
  {
    match n case Q(q) => s.qIpv[q].minDeadline case T(t) => s.threads[t].ipv.minDeadline
  }

  ghost function RightMin(s: State, n: Node): Duration {
    match n case Q(q) => Agg(Waiters(s, q)).minDeadline case T(t) => Agg(OwnedIpvs(s, t)).minDeadline
  }

  /** A change without weight or utilization can only be about the minimum. */
  lemma SkippedIsAboutMin(s: State, n: Node, c: Change)
    requires Pending(s, n, c) && Negligible(c)
    ensures Present(s, n) && (Exact(s) <==> StoredMin(s, n) == RightMin(s, n))
  {
    PendingDelta(s, n, c);
    hide Agg;
    if StoredMin(s, n) == RightMin(s, n) {
      forall m: Node ensures NodeExact(s, m) {}
    } else {
      assert !NodeExact(s, n);
    }
  }

  /** A skipped operation leaves the graph as the edit made it. */
  lemma SkippedExactIff(s: State, op: Op, n: Node)
    requires Linked(s) && Exact(s) && Enabled(s, op) && Target(s, op) == Some(n) && Negligible(Effect(s, op))
    ensures Do(s, op) == Edit(s, op) && Present(Edit(s, op), n)
    ensures Exact(Do(s, op)) <==> StoredMin(Edit(s, op), n) == RightMin(Edit(s, op), n)
  {
    EditPending(s, op);
    hide Linked, Exact, Pending, Edit, Effect, StoredMin, RightMin, Target;
    SkippedIsAboutMin(Edit(s, op), n, Effect(s, op));
  }

  /** The queue's value, read as the code reads it: nothing inherited while nobody waits. */
  function Current(s: State, q: Queue): Ipv {
    if q in s.qIpv then s.qIpv[q] else ZERO_IPV
  }

  /** A join is harmless if and only if the newcomer's deadline is no shorter than what the queue inherits. */
  lemma SkippedJoinExactIff(s: State, t: ThreadId, q: Queue)
    requires Linked(s) && Exact(s) && Enabled(s, Join(t, q)) && q.Owned?
    requires !Consequential(Trans(s.threads[t]))
    ensures Exact(Do(s, Join(t, q))) <==> Trans(s.threads[t]).minDeadline >= Current(s, q).minDeadline
  {
    SkippedExactIff(s, Join(t, q), Q(q));
    JoinedMin(s, t, q);
  }

  lemma JoinedMin(s: State, t: ThreadId, q: Queue)
    requires Linked(s) && Exact(s) && t in s.threads && t !in s.edges.blockedIn && q.Owned?
    ensures Agg(Waiters(s, q)).minDeadline == Current(s, q).minDeadline
    ensures Agg(Waiters(AddWaiter(s, t, q), q)).minDeadline ==
            Min(Trans(s.threads[t]).minDeadline, Current(s, q).minDeadline)
  {
    assert NodeExact(s, Q(q));
    if q !in s.qIpv { NoWaiters(s, q); }
    AddWaiterWaiters(s, t, q, q);
    AggAdd(Waiters(s, q), t, Trans(s.threads[t]));
  }

  /** A departure from a queue that stays occupied: if and only if somebody who stays is as urgent. */
  lemma SkippedLeaveExactIff(s: State, t: ThreadId)
    requires Linked(s) && Exact(s) && Enabled(s, Leave(t))
    requires s.edges.blockedIn[t].Owned? && !SoleWaiter(s, t, s.edges.blockedIn[t])
    requires !Consequential(Trans(s.threads[t]))
    ensures Exact(Do(s, Leave(t))) <==>
            Agg(Waiters(s, s.edges.blockedIn[t]) - {t}).minDeadline <= Trans(s.threads[t]).minDeadline
  {
    var q := s.edges.blockedIn[t];
    SkippedExactIff(s, Leave(t), Q(q));
    assert NodeExact(s, Q(q));
    RemoveWaiterWaiters(s, t, q);
    AggSplit(Waiters(s, q), t);
  }

  /** The last departure from an owned queue: if and only if another queue of the owner is as urgent. */
  lemma SkippedLastLeaveExactIff(s: State, t: ThreadId, q: Queue)
    requires Linked(s) && Exact(s) && Enabled(s, Leave(t)) && q == s.edges.blockedIn[t]
    requires q.Owned? && SoleWaiter(s, t, q) && q in s.edges.owner
    requires !Consequential(Trans(s.threads[t]))
    ensures Exact(Do(s, Leave(t))) <==>
            Agg(OwnedIpvs(s, s.edges.owner[q]) - {q}).minDeadline <= Trans(s.threads[t]).minDeadline
  {
    var o := s.edges.owner[q];
    SkippedExactIff(s, Leave(t), T(o));
    assert NodeExact(s, T(o));
    SoleWaiterValue(s, t);
    RemoveWaiterOwned(s, t, o);
    AggSplit(OwnedIpvs(s, o), q);
  }

  /** A new owner: if and only if it already inherits a deadline as short. */
  lemma SkippedOwnExactIff(s: State, q: Queue, o: ThreadId)
    requires Linked(s) && Exact(s) && Enabled(s, Own(q, o)) && q in s.qIpv && !Consequential(s.qIpv[q])
    ensures Exact(Do(s, Own(q, o))) <==> s.qIpv[q].minDeadline >= s.threads[o].ipv.minDeadline
  {
    SkippedExactIff(s, Own(q, o), T(o));
    assert NodeExact(s, T(o));
    SetOwnerOwned(s, q, o, o);
    AggAdd(OwnedIpvs(s, o), q, s.qIpv[q]);
  }

  /** A former owner: if and only if another of its queues is as urgent. */
  lemma SkippedDisownExactIff(s: State, q: Queue)
    requires Linked(s) && Exact(s) && Enabled(s, Disown(q)) && q in s.qIpv && !Consequential(s.qIpv[q])
    ensures Exact(Do(s, Disown(q))) <==>
            Agg(OwnedIpvs(s, s.edges.owner[q]) - {q}).minDeadline <= s.qIpv[q].minDeadline
  {
    var o := s.edges.owner[q];
    SkippedExactIff(s, Disown(q), T(o));
    assert NodeExact(s, T(o));
    ClearOwnerOwned(s, q, o);
    AggSplit(OwnedIpvs(s, o), q);
  }

  /** A new base profile: if and only if the deadline stays, or another waiter is as urgent before and after. */
  lemma SkippedRebaseExactIff(s: State, t: ThreadId, base: BaseProfile, q: Queue)
    requires Linked(s) && Exact(s) && Enabled(s, Rebase(t, base))
    requires t in s.edges.blockedIn && q == s.edges.blockedIn[t] && q.Owned?
    requires !Consequential(Trans(s.threads[t])) && !Consequential(Transmitted(base, s.threads[t].ipv))
    ensures var before, after := Trans(s.threads[t]).minDeadline, Transmitted(base, s.threads[t].ipv).minDeadline;
            Exact(Do(s, Rebase(t, base))) <==>
            after == before || Agg(Waiters(s, q) - {t}).minDeadline <= Min(before, after)
  {
    SkippedExactIff(s, Rebase(t, base), Q(q));
    assert NodeExact(s, Q(q));
    SetBaseWaiters(s, t, base, q);
    var m, x := Waiters(s, q), Transmitted(base, s.threads[t].ipv);
    AggSplit(m, t);
    AggSplit(m[t := x], t);
    assert m[t := x] - {t} == m - {t};
  }

  /** No admissible profile is ever in that position: the exit is taken only when nothing is carried. */
  lemma AdmissibleNeverLoses(th: Thread)
    requires ThreadOk(th) && !Consequential(Trans(th))
    ensures Trans(th) == ZERO_IPV
  {
  }

  // ---------- operations whose effect is propagated ----------

  /**
   Any operation whose effect is propagated: the graph stays exact if and only if, by
   base profiles and edges alone, every queue on the way can find its least deadline.
   */
  lemma WalkedExactIff(s: State, op: Op, n: Node)
    requires Linked(s) && Exact(s) && Enabled(s, op) && Target(s, op) == Some(n) && !Negligible(Effect(s, op))
    ensures Acyclic(Edit(s, op).edges)
    ensures Exact(Do(s, op)) <==> AllFindable(StructureOf(Edit(s, op)), n)
  {
    EditLinked(s, op);
    EditAcyclic(s, op);
    EditPending(s, op);
    TargetPresent(s, op);
    hide Linked, Exact, Pending, Edit, Effect, Target, Walk, AllFindable;
    WalkExactIff(Edit(s, op), n, Effect(s, op));
  }

  /** The deadline a thread transmits is the one it is scheduled with. */
  predicate Shows(th: Thread) {
    th.base.Deadline? || th.ipv.utilization > 0 || th.ipv.minDeadline == MAX_DURATION
  }

  lemma ShownDeadline(th: Thread)
    requires th.eff == Effective(th.base, th.ipv)
    ensures EffectiveDeadlineOf(th) == if Shows(th) then Trans(th).minDeadline else MAX_DURATION
    ensures !Shows(th) ==> Trans(th).minDeadline < MAX_DURATION
  {
  }

  lemma JoinedScan(s: State, t: ThreadId, q: Queue)
    requires t in s.threads && t !in s.edges.blockedIn
    ensures ScannedMin(AddWaiter(s, t, q), q) == Min(EffectiveDeadlineOf(s.threads[t]), ScannedMin(s, q))
  {
    var x := Ipv(0, 0, EffectiveDeadlineOf(s.threads[t]));
    assert Scanned(AddWaiter(s, t, q), q) == Scanned(s, q)[t := x];
    AggAdd(Scanned(s, q), t, x);
  }

  lemma JoinSeenIff(s: State, t: ThreadId, q: Queue)
    requires Linked(s) && Exact(s) && t in s.threads && t !in s.edges.blockedIn && q.Owned? && Seen(s, q)
    ensures Seen(AddWaiter(s, t, q), q) <==>
            Shows(s.threads[t]) || Trans(s.threads[t]).minDeadline >= Current(s, q).minDeadline
  {
    JoinedScan(s, t, q);
    JoinedMin(s, t, q);
    ShownDeadline(s.threads[t]);
  }

  lemma LoneFindable(g: Structure, q: Queue)
    requires Acyclic(g.edges) && q.Owned? && q !in g.edges.owner
    ensures AllFindable(g, Q(q)) <==> Findable(g, q)
  {
    LoneChain(g.edges, Q(q));
    hide Findable;
    assert Reaches(g.edges, Q(q), Q(q));
  }

  /**
   A thread that does carry weight joins a queue nobody owns: the graph stays exact if
   and only if the thread shows its deadline or the queue already inherits one as short.
   */
  lemma WalkedJoinExactIff(s: State, t: ThreadId, q: Queue)
    requires Linked(s) && Exact(s) && Enabled(s, Join(t, q)) && q.Owned? && q !in s.edges.owner && Seen(s, q)
    requires Consequential(Trans(s.threads[t]))
    ensures Exact(Do(s, Join(t, q))) <==>
            Shows(s.threads[t]) || Trans(s.threads[t]).minDeadline >= Current(s, q).minDeadline
  {
    var s', c := AddWaiter(s, t, q), Change(None, Some(Trans(s.threads[t])));
    hide Linked, Exact, Pending, Findable, AllFindable, Seen, Shows, Do, Acyclic;
    WalkedExactIff(s, Join(t, q), Q(q));
    EditPending(s, Join(t, q));
    EditLinked(s, Join(t, q));
    LoneFindable(StructureOf(s'), q);
    PendingSeenIff(s', q, c);
    JoinSeenIff(s, t, q);
  }

  // ---------- two inputs that break the law ----------

  /** One thread, not blocked, whose capacity rounds to zero utilization. */
  function Starved(d: Duration): State {
    var base := Deadline(0, d);
    State(map[1 := Thread(base, ZERO_IPV, Effective(base, ZERO_IPV))], Edges(map[], map[]), map[], {})
  }

  lemma StarvedExact(d: Duration)
    ensures Linked(Starved(d)) && Exact(Starved(d)) && Acyclic(Starved(d).edges)
  {
    NoEdgesExact(Starved(d));
  }

  /** One blocking operation of that thread breaks the aggregate law, whatever its deadline. */
  lemma ZeroUtilizationLosesItsDeadline(d: Duration, q: Queue)
    requires d < MAX_DURATION && q.Owned?
    ensures Linked(Starved(d)) && Exact(Starved(d)) && Enabled(Starved(d), Join(1, q))
    ensures !Exact(Do(Starved(d), Join(1, q)))
  {
    StarvedExact(d);
    LoneChain(Starved(d).edges, Q(q));
    hide Linked, Exact, Acyclic, Agg, Do;
    SkippedJoinExactIff(Starved(d), 1, q);
  }

  /** Such a thread and a fair one wait in q, which a third thread owns. */
  function Masked(d: Duration, w: nat, q: Queue): State {
    var starved, fair, own := Deadline(0, d), Fair(w, true), Fair(1, true);
    var v := Ipv(w, 0, d);
    State(map[1 := Thread(starved, ZERO_IPV, Effective(starved, ZERO_IPV)),
              2 := Thread(fair, ZERO_IPV, Effective(fair, ZERO_IPV)),
              3 := Thread(own, v, Effective(own, v))],
          Edges(map[1 := q, 2 := q], map[q := 3]), map[q := v], {})
  }

  lemma MaskedChain(d: Duration, w: nat, q: Queue)
    ensures Acyclic(Masked(d, w, q).edges)
  {
    var e := Masked(d, w, q).edges;
    forall n: Node ensures HasChain(e, n) {
      if n == Q(q) {
        assert IsChain(e, n, [n, T(3)]);
      } else if n == T(1) || n == T(2) {
        assert IsChain(e, n, [n, Q(q), T(3)]);
      } else {
        assert IsChain(e, n, [n]);
      }
    }
  }

  lemma PairAgg(m: map<ThreadId, Ipv>, a: ThreadId, x: Ipv, b: ThreadId, y: Ipv)
    requires a != b && m == map[a := x, b := y]
    ensures Agg(m) == Plus(y, x)
  {
    var none: map<ThreadId, Ipv> := map[];
    assert Agg(none) == ZERO_IPV;
    hide Agg;
    AggAdd(none, a, x);
    AggAdd(none[a := x], b, y);
    assert none[a := x][b := y] == m;
  }

  lemma MaskedQueue(d: Duration, w: nat, q: Queue)
    ensures Agg(Waiters(Masked(d, w, q), q)) == Ipv(w, 0, d)
  {
    var s := Masked(d, w, q);
    hide Agg, Effective;
    assert Trans(s.threads[1]) == Ipv(0, 0, d) && Trans(s.threads[2]) == Ipv(w, 0, MAX_DURATION);
    PairAgg(Waiters(s, q), 1, Ipv(0, 0, d), 2, Ipv(w, 0, MAX_DURATION));
  }

  lemma MaskedOwned(d: Duration, w: nat, q: Queue, t: ThreadId)
    ensures Agg(OwnedIpvs(Masked(d, w, q), t)) == if t == 3 then Ipv(w, 0, d) else ZERO_IPV
  {
    var s := Masked(d, w, q);
    if t == 3 {
      assert OwnedIpvs(s, t) == map[][q := Ipv(w, 0, d)];
      AggAdd<Queue>(map[], q, Ipv(w, 0, d));
    } else {
      assert OwnedIpvs(s, t) == map[];
    }
  }

  lemma MaskedExact(d: Duration, w: nat, q: Queue)
    requires q.Owned?
    ensures Linked(Masked(d, w, q)) && Exact(Masked(d, w, q))
  {
    var s := Masked(d, w, q);
    assert 1 in Waiters(s, q);
    hide Agg, Waiters, OwnedIpvs;
    MaskedQueue(d, w, q);
    forall n: Node ensures NodeExact(s, n) {
      if n.T? { MaskedOwned(d, w, q, n.thread); }
    }
  }

  lemma NobodyWaits(s: State, q: Queue)
    requires forall t :: t in s.edges.blockedIn ==> s.edges.blockedIn[t] != q
    ensures Agg(Waiters(s, q)) == ZERO_IPV
  {
    assert Waiters(s, q) == map[];
  }

  lemma NobodySeen(s: State, q: Queue)
    requires forall t :: t in s.edges.blockedIn ==> s.edges.blockedIn[t] != q
    ensures Seen(s, q)
  {
    NobodyWaits(s, q);
    hide Waiters;
    assert Scanned(s, q) == map[];
  }

  /** The owner's consequential join is propagated, and still the deadline it transmits is missed. */
  lemma HiddenDeadlineIsMissed(d: Duration, w: nat, q: Queue, p: Queue)
    requires d < MAX_DURATION && q.Owned? && p.Owned? && p != q
    ensures var s := Masked(d, w, q);
            && Linked(s) && Exact(s) && Enabled(s, Join(3, p)) && Consequential(Trans(s.threads[3]))
            && !Exact(Do(s, Join(3, p)))
  {
    hide Linked, Exact, Acyclic, Seen, Do;
    var s := Masked(d, w, q);
    MaskedExact(d, w, q);
    MaskedChain(d, w, q);
    LoneChain(s.edges, Q(p));
    NobodySeen(s, p);
    WalkedJoinExactIff(s, 3, p);
  }

  // ---------- the law over whole runs ----------

  /** Threads with profiles from the given set, and no edges yet. */
  ghost predicate Initial(s: State, profiles: iset<BaseProfile>) {
    && s.edges == Edges(map[], map[]) && s.qIpv == map[] && s.disowned == {}
    && forall t :: t in s.threads ==>
         && s.threads[t].base in profiles && s.threads[t].ipv == ZERO_IPV
         && s.threads[t].eff == Effective(s.threads[t].base, ZERO_IPV)
  }

  ghost predicate Steps(s: State, op: Op, s': State, profiles: iset<BaseProfile>) {
    Linked(s) && Enabled(s, op) && (op.Rebase? ==> op.base in profiles) && s' == Do(s, op)
  }

  ghost predicate Leads(s: State, s': State, profiles: iset<BaseProfile>) {
    exists op :: Steps(s, op, s', profiles)
  }

  /** A run: any operations in any order, with base profiles from the given set. */
  ghost predicate IsRun(run: seq<State>, profiles: iset<BaseProfile>) {
    && |run| > 0 && Initial(run[0], profiles)
    && forall i | 0 <= i < |run| - 1 :: Leads(run[i], run[i + 1], profiles)
  }

  lemma InitialValid(s: State, profiles: iset<BaseProfile>)
    requires Initial(s, profiles) && forall b :: b in profiles ==> Admissible(b)
    ensures Valid(s)
  {
    NoEdgesExact(s);
  }

  lemma {:induction false} RunValid(run: seq<State>, profiles: iset<BaseProfile>, i: nat)
    requires IsRun(run, profiles) && i < |run| && forall b :: b in profiles ==> Admissible(b)
    ensures Valid(run[i])
  {
    hide Valid, Initial, Do;
    if i == 0 {
      InitialValid(run[0], profiles);
    } else {
      RunValid(run, profiles, i - 1);
      assert Leads(run[i - 1], run[i - 1 + 1], profiles);
      var op :| Steps(run[i - 1], op, run[i], profiles);
      DoValid(run[i - 1], op);
    }
  }

  /**
   The aggregate law holds throughout every run over a set of base profiles if and only
   if every profile of the set is admissible.
   */
  lemma LawHoldsIffAdmissible(profiles: iset<BaseProfile>)
    ensures (forall run, i :: IsRun(run, profiles) && 0 <= i < |run| ==> Exact(run[i]))
       <==> (forall b :: b in profiles ==> Admissible(b))
  {
    if forall b :: b in profiles ==> Admissible(b) {
      forall run, i | IsRun(run, profiles) && 0 <= i < |run| ensures Exact(run[i]) {
        RunValid(run, profiles, i);
      }
    } else {
      var b :| b in profiles && !Admissible(b);
      BrokenRun(profiles, b);
    }
  }

  lemma BrokenRun(profiles: iset<BaseProfile>, b: BaseProfile)
    requires b in profiles && !Admissible(b)
    ensures exists run, i :: IsRun(run, profiles) && 0 <= i < |run| && !Exact(run[i])
  {
    var s, q := Starved(b.deadline), Owned(0);
    ZeroUtilizationLosesItsDeadline(b.deadline, q);
    hide Linked, Exact, Do;
    var run := [s, Do(s, Join(1, q))];
    assert Steps(run[0], Join(1, q), run[1], profiles);
    assert IsRun(run, profiles) && !Exact(run[1]);
  }
}
