/**
 What it means for every node of the inheritance graph to hold the right
 inherited values, and how one pending change travels down a chain.
 */
module Inheritance {
  import opened Basics
  import opened Profiles
  import opened PiGraph

  datatype Thread = Thread(base: BaseProfile, ipv: Ipv, eff: EffectiveProfile)

  /**
   threads: every live thread; qIpv: the inherited values of the owned queues that
   have waiters; disowned: threads that gave up all their queues on their way out
   and whose inherited values are deliberately left alone.
   */
  datatype State = State(
    threads: map<ThreadId, Thread>,
    edges: Edges,
    qIpv: map<Queue, Ipv>,
    disowned: set<ThreadId>)

  function Trans(th: Thread): Ipv {
    Transmitted(th.base, th.ipv)
  }

  function Waiters(s: State, q: Queue): map<ThreadId, Ipv> {
    map t | t in s.threads && t in s.edges.blockedIn && s.edges.blockedIn[t] == q :: Trans(s.threads[t])
  }

  function OwnedIpvs(s: State, t: ThreadId): map<Queue, Ipv> {
    map q | q in s.qIpv && q in s.edges.owner && s.edges.owner[q] == t :: s.qIpv[q]
  }

  ghost predicate ThreadOk(th: Thread) {
    Admissible(th.base) && Sound(th.ipv) && th.eff == Effective(th.base, th.ipv)
  }

  /** The links, the storage and the effective profiles agree with each other. */
  ghost predicate Linked(s: State) {
    && s.edges.blockedIn.Keys <= s.threads.Keys
    && (forall q :: q in s.edges.owner ==>
          q.Owned? && s.edges.owner[q] in s.threads && s.edges.owner[q] !in s.disowned)
    && (forall t :: t in s.edges.blockedIn && s.edges.blockedIn[t].Owned? ==> s.edges.blockedIn[t] in s.qIpv)
    && (forall q :: q in s.qIpv ==> q.Owned? && Waiters(s, q) != map[])
    && (forall t :: t in s.threads ==> s.threads[t].eff == Effective(s.threads[t].base, s.threads[t].ipv))
  }

  /** Every base profile is admissible and every inherited value has the shape that follows. */
  ghost predicate Healthy(s: State) {
    && (forall q :: q in s.qIpv ==> Sound(s.qIpv[q]))
    && (forall t :: t in s.threads ==> Admissible(s.threads[t].base) && Sound(s.threads[t].ipv))
  }

  ghost predicate WellFormed(s: State) {
    Linked(s) && Healthy(s)
  }

  /** The same threads with the same base profiles; disowned threads are untouched. */
  ghost predicate SameProfiles(s: State, s': State) {
    && s'.threads.Keys == s.threads.Keys
    && (forall t :: t in s.threads ==> s'.threads[t].base == s.threads[t].base)
    && (forall t :: t in s.threads && t in s.disowned ==> s'.threads[t] == s.threads[t])
  }

  lemma SameProfilesRefl(s: State)
    ensures SameProfiles(s, s)
  {
  }

  lemma SameProfilesTrans(s: State, s': State, s'': State)
    requires SameProfiles(s, s') && SameProfiles(s', s'') && s'.disowned == s.disowned
    ensures SameProfiles(s, s'') && s''.threads.Keys == s.threads.Keys
  {
  }

  /** Only the nodes in h have another edge, another profile or other inherited values. */
  ghost predicate OnlyChanged(s: State, s': State, h: set<Node>) {
    && s'.threads.Keys == s.threads.Keys
    && (forall t :: t in s.threads && T(t) !in h ==> s'.threads[t] == s.threads[t])
    && (forall q :: q in s.qIpv && Q(q) !in h ==> q in s'.qIpv && s'.qIpv[q] == s.qIpv[q])
    && (forall q :: q in s'.qIpv && Q(q) !in h ==> q in s.qIpv)
    && (forall n: Node :: n !in h ==> Next(s'.edges, n) == Next(s.edges, n))
  }

  lemma OnlyChangedRefl(s: State, h: set<Node>)
    ensures OnlyChanged(s, s, h)
  {
  }

  lemma OnlyChangedTrans(s: State, h: set<Node>, s': State, h': set<Node>, s'': State, all: set<Node>)
    requires OnlyChanged(s, s', h) && OnlyChanged(s', s'', h') && h <= all && h' <= all
    ensures OnlyChanged(s, s'', all)
  {
  }

  lemma OnlyChangedMore(s: State, s': State, h: set<Node>, h': set<Node>)
    requires OnlyChanged(s, s', h) && h <= h'
    ensures OnlyChanged(s, s', h')
  {
  }

  /** The deadline a waiter is scheduled with is the one it transmits. */
  lemma EffectiveDeadline(th: Thread)
    requires ThreadOk(th)
    ensures Trans(th).minDeadline == match th.eff case EffDeadline(_, d) => d case EffFair(_) => MAX_DURATION
  {
  }

  ghost predicate QueueExact(s: State, q: Queue) {
    q in s.qIpv ==> s.qIpv[q] == Agg(Waiters(s, q))
  }

  ghost predicate ThreadExact(s: State, t: ThreadId) {
    t in s.threads && t !in s.disowned ==> s.threads[t].ipv == Agg(OwnedIpvs(s, t))
  }

  ghost predicate NodeExact(s: State, n: Node) {
    match n
    case Q(q) => QueueExact(s, q)
    case T(t) => ThreadExact(s, t)
  }

  /** Every queue and every thread holds exactly the aggregate of its contributors. */
  ghost predicate Exact(s: State) {
    forall n: Node :: NodeExact(s, n)
  }

  ghost predicate Valid(s: State) {
    WellFormed(s) && Acyclic(s.edges) && Exact(s)
  }

  /** Without edges there is nothing to inherit. */
  lemma NoEdgesExact(s: State)
    requires s.edges == Edges(map[], map[]) && s.qIpv == map[]
    requires forall t :: t in s.threads ==> s.threads[t].ipv == ZERO_IPV
    ensures Exact(s) && Acyclic(s.edges)
  {
    forall n: Node ensures NodeExact(s, n) && HasChain(s.edges, n) {
      assert IsChain(s.edges, n, [n]);
      if n.T? {
        assert OwnedIpvs(s, n.thread) == map[];
        assert Agg<Queue>(map[]) == ZERO_IPV;
      }
    }
  }

  /** Every node is exact but n, which still has to absorb the change c. */
  ghost predicate Pending(s: State, n: Node, c: Change) {
    && (forall m: Node :: m != n ==> NodeExact(s, m))
    && (match n
        case Q(q) => q in s.qIpv && Delta(s.qIpv[q], Agg(Waiters(s, q)), c)
        case T(t) => t in s.threads && t !in s.disowned && Delta(s.threads[t].ipv, Agg(OwnedIpvs(s, t)), c))
  }

  ghost predicate SoundChange(c: Change) {
    && (c.lost.Some? ==> Sound(c.lost.value))
    && (c.added.Some? ==> Sound(c.added.value))
  }

  lemma WaitersSound(s: State, q: Queue)
    requires WellFormed(s)
    ensures Sound(Agg(Waiters(s, q)))
  {
    var m := Waiters(s, q);
    forall t | t in m ensures Sound(m[t]) {
      assert ThreadOk(s.threads[t]) && m[t] == Trans(s.threads[t]);
    }
    hide Agg, WellFormed, Linked, Healthy;
    AggSound(m);
  }

  lemma OwnedSound(s: State, t: ThreadId)
    requires WellFormed(s)
    ensures Sound(Agg(OwnedIpvs(s, t)))
  {
    AggSound(OwnedIpvs(s, t));
  }

  // ---------- one step of propagation ----------

  function AbsorbQueue(s: State, q: Queue, v: Ipv): State {
    s.(qIpv := s.qIpv[q := v])
  }

  function AbsorbThread(s: State, t: ThreadId, v: Ipv): State
    requires t in s.threads
  {
    var th := s.threads[t];
    s.(threads := s.threads[t := Thread(th.base, v, Effective(th.base, v))])
  }

  lemma AbsorbQueueWaiters(s: State, q: Queue, v: Ipv, p: Queue)
    ensures Waiters(AbsorbQueue(s, q, v), p) == Waiters(s, p)
  {
  }

  lemma AbsorbQueueOwned(s: State, q: Queue, v: Ipv, t: ThreadId)
    requires q in s.qIpv
    ensures OwnedIpvs(AbsorbQueue(s, q, v), t)
         == if q in OwnedIpvs(s, t) then OwnedIpvs(s, t)[q := v] else OwnedIpvs(s, t)
  {
  }

  lemma AbsorbQueueLinked(s: State, q: Queue, v: Ipv)
    requires Linked(s) && q in s.qIpv
    ensures Linked(AbsorbQueue(s, q, v)) && (Healthy(s) && Sound(v) ==> Healthy(AbsorbQueue(s, q, v)))
  {
    var s' := AbsorbQueue(s, q, v);
    forall p | p in s'.qIpv ensures p.Owned? && Waiters(s', p) != map[] {
      AbsorbQueueWaiters(s, q, v, p);
    }
  }

  /** A queue that absorbs its change passes the same change on to its owner. */
  lemma StepQueue(s: State, q: Queue, c: Change)
    requires Linked(s) && Pending(s, Q(q), c)
    ensures var s' := AbsorbQueue(s, q, Agg(Waiters(s, q)));
            && Linked(s') && (Healthy(s) ==> Healthy(s'))
            && (if q in s.edges.owner then Pending(s', T(s.edges.owner[q]), c) else Exact(s'))
  {
    var v := Agg(Waiters(s, q));
    var s' := AbsorbQueue(s, q, v);
    if Healthy(s) { WaitersSound(s, q); }
    AbsorbQueueLinked(s, q, v);
    forall m: Node | !(q in s.edges.owner && m == T(s.edges.owner[q])) ensures NodeExact(s', m) {
      if m.Q? {
        AbsorbQueueWaiters(s, q, v, m.queue);
      } else {
        AbsorbQueueOwned(s, q, v, m.thread);
      }
      assert m != Q(q) ==> NodeExact(s, m);
    }
    if q in s.edges.owner {
      var t := s.edges.owner[q];
      AbsorbQueueOwned(s, q, v, t);
      DeltaReplace(OwnedIpvs(s, t), q, v, c);
      assert NodeExact(s, T(t));
    }
  }

  lemma AbsorbThreadOwned(s: State, t: ThreadId, v: Ipv, u: ThreadId)
    requires t in s.threads
    ensures OwnedIpvs(AbsorbThread(s, t, v), u) == OwnedIpvs(s, u)
  {
  }

  lemma AbsorbThreadWaiters(s: State, t: ThreadId, v: Ipv, p: Queue)
    requires t in s.threads
    ensures Waiters(AbsorbThread(s, t, v), p)
         == if t in Waiters(s, p) then Waiters(s, p)[t := Transmitted(s.threads[t].base, v)] else Waiters(s, p)
  {
  }

  lemma AbsorbThreadLinked(s: State, t: ThreadId, v: Ipv)
    requires Linked(s) && t in s.threads
    ensures Linked(AbsorbThread(s, t, v)) && (Healthy(s) && Sound(v) ==> Healthy(AbsorbThread(s, t, v)))
  {
    var s' := AbsorbThread(s, t, v);
    forall p | p in s'.qIpv ensures p.Owned? && Waiters(s', p) != map[] {
      AbsorbThreadWaiters(s, t, v, p);
    }
  }

  /** A thread that absorbs its change passes it on to the queue it is blocked in. */
  lemma StepThread(s: State, t: ThreadId, c: Change)
    requires Linked(s) && Pending(s, T(t), c)
    ensures var s' := AbsorbThread(s, t, Agg(OwnedIpvs(s, t)));
            && Linked(s') && (Healthy(s) ==> Healthy(s'))
            && (if t in s.edges.blockedIn && s.edges.blockedIn[t].Owned?
                then Pending(s', Q(s.edges.blockedIn[t]), c)
                else Exact(s'))
  {
    var v := Agg(OwnedIpvs(s, t));
    var s' := AbsorbThread(s, t, v);
    if Healthy(s) { OwnedSound(s, t); }
    AbsorbThreadLinked(s, t, v);
    forall m: Node | !(t in s.edges.blockedIn && m == Q(s.edges.blockedIn[t])) ensures NodeExact(s', m) {
      if m.Q? {
        AbsorbThreadWaiters(s, t, v, m.queue);
      } else {
        AbsorbThreadOwned(s, t, v, m.thread);
      }
      assert m != T(t) ==> NodeExact(s, m);
    }
    if t in s.edges.blockedIn {
      var p := s.edges.blockedIn[t];
      var w := Transmitted(s.threads[t].base, v);
      AbsorbThreadWaiters(s, t, v, p);
      DeltaTrans(s.threads[t].base, s.threads[t].ipv, v, c);
      DeltaReplace(Waiters(s, p), t, w, c);
      assert NodeExact(s, Q(p));
      assert p.Plain? ==> NodeExact(s', Q(p));
    }
  }

  lemma DeltaTrans(base: BaseProfile, before: Ipv, after: Ipv, c: Change)
    requires Delta(before, after, c)
    ensures Delta(Transmitted(base, before), Transmitted(base, after), c)
  {
    TransmittedIsPlus(base, before);
    TransmittedIsPlus(base, after);
    DeltaThrough(before, after, BaseIpv(base), c);
  }

  /** The change that a pending node still has to absorb. */
  lemma PendingDelta(s: State, n: Node, c: Change)
    requires Pending(s, n, c)
    ensures match n
            case Q(q) => q in s.qIpv && Delta(s.qIpv[q], Agg(Waiters(s, q)), c)
            case T(t) => t in s.threads && t !in s.disowned && Delta(s.threads[t].ipv, Agg(OwnedIpvs(s, t)), c)
  {
  }

  lemma NoDelta(before: Ipv, after: Ipv, c: Change)
    requires Delta(before, after, c) && SoundChange(c)
    requires c.lost.Some? ==> !Consequential(c.lost.value)
    requires c.added.Some? ==> !Consequential(c.added.value)
    ensures after == before
  {
  }

  /** The early exit of FinishPropagate: a change nobody can notice. */
  lemma InconsequentialChange(s: State, n: Node, c: Change)
    requires Pending(s, n, c) && SoundChange(c)
    requires c.lost.Some? ==> !Consequential(c.lost.value)
    requires c.added.Some? ==> !Consequential(c.added.value)
    ensures Exact(s)
  {
    PendingDelta(s, n, c);
    match n {
      case Q(q) => NoDelta(s.qIpv[q], Agg(Waiters(s, q)), c);
      case T(t) => NoDelta(s.threads[t].ipv, Agg(OwnedIpvs(s, t)), c);
    }
    hide Delta, Agg;
    forall m: Node ensures NodeExact(s, m) {}
  }
}
