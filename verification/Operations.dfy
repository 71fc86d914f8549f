/**
 The operations on the inheritance graph as functions: one edit of the links or of a
 base profile, followed by the propagation of its effect.
 */
module Operations {
  import opened Basics
  import opened Profiles
  import opened PiGraph
  import opened Inheritance
  import opened EdgeChanges
  import opened Propagation

  datatype Op =
    | Join(t: ThreadId, q: Queue)
    | Leave(t: ThreadId)
    | Own(q: Queue, o: ThreadId)
    | Disown(q: Queue)
    | Rebase(t: ThreadId, base: BaseProfile)
    | GiveUp(t: ThreadId)

  /** What the callers guarantee: the parties exist, and a new edge closes no cycle. */
  ghost predicate Enabled(s: State, op: Op) {
    && Acyclic(s.edges)
    && match op
       case Join(t, q) => t in s.threads && t !in s.edges.blockedIn && !Reaches(s.edges, Q(q), T(t))
       case Leave(t) => t in s.edges.blockedIn
       case Own(q, o) =>
         q !in s.edges.owner && q.Owned? && o in s.threads && o !in s.disowned && !Reaches(s.edges, T(o), Q(q))
       case Disown(q) => q in s.edges.owner
       case Rebase(t, _) => t in s.threads
       case GiveUp(t) => t !in s.edges.blockedIn
  }

  ghost function Edit(s: State, op: Op): State
    requires Enabled(s, op)
  {
    match op
    case Join(t, q) => AddWaiter(s, t, q)
    case Leave(t) => RemoveWaiter(s, t)
    case Own(q, o) => SetOwner(s, q, o)
    case Disown(q) => ClearOwner(s, q)
    case Rebase(t, base) => SetBase(s, t, base)
    case GiveUp(t) => DisownAll(s, t)
  }

  /** Where the effect of the edit has to be absorbed first, if anywhere. */
  ghost function Target(s: State, op: Op): Option<Node>
    requires Enabled(s, op)
  {
    match op
    case Join(t, q) => if q.Owned? then Some(Q(q)) else None
    case Leave(t) => DepartureTarget(s, t)
    case Own(q, o) => if q in s.qIpv then Some(T(o)) else None
    case Disown(q) => if q in s.qIpv then Some(T(s.edges.owner[q])) else None
    case Rebase(t, _) =>
      if t in s.edges.blockedIn && s.edges.blockedIn[t].Owned? then Some(Q(s.edges.blockedIn[t])) else None
    case GiveUp(_) => None
  }

  /** What is gained and what is lost there. */
  ghost function Effect(s: State, op: Op): Change
    requires Enabled(s, op) && Linked(s)
  {
    match op
    case Join(t, _) => Change(None, Some(Trans(s.threads[t])))
    case Leave(t) => Change(Some(Trans(s.threads[t])), None)
    case Own(q, _) => Change(None, if q in s.qIpv then Some(s.qIpv[q]) else None)
    case Disown(q) => Change(if q in s.qIpv then Some(s.qIpv[q]) else None, None)
    case Rebase(t, base) => Change(Some(Trans(s.threads[t])), Some(Transmitted(base, s.threads[t].ipv)))
    case GiveUp(_) => Change(None, None)
  }

  // ---------- the edit by itself ----------

  lemma EditLinked(s: State, op: Op)
    requires Linked(s) && Enabled(s, op)
    ensures Linked(Edit(s, op))
    ensures Healthy(s) && (op.Rebase? ==> Admissible(op.base)) ==> Healthy(Edit(s, op))
  {
    match op {
      case Join(t, q) => AddWaiterLinked(s, t, q);
      case Leave(t) => RemoveWaiterLinked(s, t);
      case Own(q, o) => OwnerChangeLinked(s, s.edges.owner[q := o]);
      case Disown(q) => OwnerChangeLinked(s, s.edges.owner - {q});
      case Rebase(t, base) => SetBaseLinked(s, t, base);
      case GiveUp(t) => DisownAllLinked(s, t);
    }
  }

  lemma EditAcyclic(s: State, op: Op)
    requires Enabled(s, op)
    ensures Acyclic(Edit(s, op).edges)
  {
    var e, e' := s.edges, Edit(s, op).edges;
    match op {
      case Join(t, q) => AddEdgeAcyclic(e, e', T(t), Q(q));
      case Leave(t) => RemoveEdgeAcyclic(e, e', T(t));
      case Own(q, o) => AddEdgeAcyclic(e, e', Q(q), T(o));
      case Disown(q) => RemoveEdgeAcyclic(e, e', Q(q));
      case Rebase(_, _) =>
      case GiveUp(_) => SubgraphAcyclic(e, e');
    }
  }

  lemma TargetPresent(s: State, op: Op)
    requires Linked(s) && Enabled(s, op) && Target(s, op).Some?
    ensures Present(Edit(s, op), Target(s, op).value)
  {
  }

  /** From an exact graph the edit leaves one node with one pending change, or nothing to do. */
  lemma EditPending(s: State, op: Op)
    requires Linked(s) && Exact(s) && Enabled(s, op)
    ensures match Target(s, op)
            case Some(n) => Pending(Edit(s, op), n, Effect(s, op))
            case None => Exact(Edit(s, op))
  {
    match op {
      case Join(t, q) => AddWaiterPending(s, t, q);
      case Leave(t) => RemoveWaiterPending(s, t);
      case Own(q, o) => SetOwnerPending(s, q, o);
      case Disown(q) => ClearOwnerPending(s, q);
      case Rebase(t, base) => SetBasePending(s, t, base);
      case GiveUp(t) => DisownAllExact(s, t);
    }
  }

  // ---------- the whole operation ----------

  /** The edit and the propagation of its effect. */
  ghost function Do(s: State, op: Op): State
    requires Linked(s) && Enabled(s, op)
  {
    EditLinked(s, op);
    EditAcyclic(s, op);
    match Target(s, op)
    case None => Edit(s, op)
    case Some(n) =>
      TargetPresent(s, op);
      Propagate(Edit(s, op), n, Effect(s, op))
  }

  lemma EffectSound(s: State, op: Op)
    requires WellFormed(s) && Enabled(s, op) && (op.Rebase? ==> Admissible(op.base))
    ensures SoundChange(Effect(s, op))
  {
  }

  /** Under admissible profiles every operation takes valid graphs to valid graphs. */
  lemma DoValid(s: State, op: Op)
    requires Valid(s) && Enabled(s, op) && (op.Rebase? ==> Admissible(op.base))
    ensures Valid(Do(s, op))
  {
    EditLinked(s, op);
    EditAcyclic(s, op);
    EditPending(s, op);
    EffectSound(s, op);
    hide Linked, Healthy, Exact, Pending, Edit, Effect, Propagate;
    if Target(s, op).Some? {
      TargetPresent(s, op);
      PropagateValid(Edit(s, op), Target(s, op).value, Effect(s, op));
    }
  }

  /** For any profiles: the links end up as the edit made them and stay sound, whatever the values. */
  lemma DoLinked(s: State, op: Op)
    requires Linked(s) && Enabled(s, op)
    ensures var s' := Do(s, op);
            && Linked(s') && Acyclic(s'.edges) && s'.edges == Edit(s, op).edges
            && s'.disowned == Edit(s, op).disowned && SameProfiles(Edit(s, op), s')
  {
    EditLinked(s, op);
    EditAcyclic(s, op);
    hide Linked, Edit, Effect, Propagate, SameProfiles, Target;
    SameProfilesRefl(Edit(s, op));
    if Target(s, op).Some? {
      TargetPresent(s, op);
      PropagateFrame(Edit(s, op), Target(s, op).value, Effect(s, op));
    }
  }

  /** What every operation on the links tells its caller. */
  lemma DoKeeps(s: State, op: Op)
    requires Linked(s) && Enabled(s, op) && !op.Rebase? && !op.GiveUp?
    ensures var s' := Do(s, op);
            && Linked(s') && s'.edges == Edit(s, op).edges && s'.disowned == s.disowned && SameProfiles(s, s')
            && (Valid(s) ==> Valid(s'))
  {
    DoLinked(s, op);
    if Valid(s) { DoValid(s, op); }
    hide Linked, Exact, Healthy, Do;
    assert Edit(s, op).threads == s.threads && Edit(s, op).disowned == s.disowned;
  }

  // ---------- which nodes an operation writes ----------

  /** The nodes whose own edge, profile or storage the edit changes. */
  ghost function Edited(s: State, op: Op): set<Node>
    requires Enabled(s, op)
  {
    match op
    case Join(t, q) => {T(t), Q(q)}
    case Leave(t) => {T(t), Q(s.edges.blockedIn[t])}
    case Own(q, _) => {Q(q)}
    case Disown(q) => {Q(q)}
    case Rebase(t, _) => {T(t)}
    case GiveUp(t) => set q | q in s.edges.owner && s.edges.owner[q] == t :: Q(q)
  }

  lemma EditOnlyChanges(s: State, op: Op)
    requires Linked(s) && Enabled(s, op)
    ensures OnlyChanged(s, Edit(s, op), Edited(s, op))
  {
    hide Acyclic, Reaches, Linked, Effective;
    match op {
      case Join(t, q) =>
      case Leave(t) =>
      case Own(q, o) =>
      case Disown(q) =>
      case Rebase(t, base) =>
      case GiveUp(t) =>
    }
  }

  /** Past its own edit, an operation writes only nodes on the chain it propagates along. */
  lemma DoOnlyChanges(s: State, op: Op, h: set<Node>)
    requires Linked(s) && Enabled(s, op) && Edited(s, op) <= h
    requires Acyclic(Edit(s, op).edges)
    requires Target(s, op).Some? ==> Nodes(ChainOf(Edit(s, op).edges, Target(s, op).value)) <= h
    ensures OnlyChanged(s, Do(s, op), h)
  {
    EditOnlyChanges(s, op);
    EditLinked(s, op);
    hide Linked, Edit, Edited, Acyclic, OnlyChanged, Effect, Target, Propagate;
    var s' := Edit(s, op);
    match Target(s, op) {
      case None =>
        OnlyChangedRefl(s', h);
        OnlyChangedTrans(s, Edited(s, op), s', h, s', h);
      case Some(n) =>
        TargetPresent(s, op);
        PropagateOnlyChanges(s', n, Effect(s, op));
        OnlyChangedTrans(s, Edited(s, op), s', Nodes(ChainOf(s'.edges, n)), Do(s, op), h);
    }
  }

  /** The locks of one chain cover a join, given the newcomer's own. */
  lemma JoinOnlyChanges(s: State, t: ThreadId, q: Queue)
    requires Linked(s) && Enabled(s, Join(t, q))
    ensures OnlyChanged(s, Do(s, Join(t, q)), {T(t)} + Nodes(ChainOf(s.edges, Q(q))))
  {
    var e' := Edit(s, Join(t, q)).edges;
    assert ChainOf(s.edges, Q(q))[0] == Q(q);
    AddEdgeAcyclic(s.edges, e', T(t), Q(q));
    hide Linked, Acyclic, OnlyChanged, Do;
    DoOnlyChanges(s, Join(t, q), {T(t)} + Nodes(ChainOf(s.edges, Q(q))));
  }

  lemma LeaveOnlyChanges(s: State, t: ThreadId)
    requires Linked(s) && Enabled(s, Leave(t))
    ensures OnlyChanged(s, Do(s, Leave(t)), Nodes(ChainOf(s.edges, T(t))))
  {
    var q, e' := s.edges.blockedIn[t], Edit(s, Leave(t)).edges;
    PathChain(s.edges, [T(t)], Q(q));
    RemoveEdgeAcyclic(s.edges, e', T(t));
    PathAvoidsSelf(s.edges, t, q);
    assert ChainOf(e', Q(q)) == ChainOf(s.edges, Q(q)) && ChainOf(s.edges, Q(q))[0] == Q(q);
    if q in e'.owner {
      PathChain(e', [Q(q)], T(e'.owner[q]));
    }
    hide Linked, Acyclic, OnlyChanged, Do;
    DoOnlyChanges(s, Leave(t), Nodes(ChainOf(s.edges, T(t))));
  }

  lemma OwnOnlyChanges(s: State, q: Queue, o: ThreadId)
    requires Linked(s) && Enabled(s, Own(q, o))
    ensures OnlyChanged(s, Do(s, Own(q, o)), {Q(q)} + Nodes(ChainOf(s.edges, T(o))))
  {
    AddEdgeAcyclic(s.edges, Edit(s, Own(q, o)).edges, Q(q), T(o));
    hide Linked, Acyclic, OnlyChanged, Do;
    DoOnlyChanges(s, Own(q, o), {Q(q)} + Nodes(ChainOf(s.edges, T(o))));
  }

  lemma DisownOnlyChanges(s: State, q: Queue)
    requires Linked(s) && Enabled(s, Disown(q))
    ensures OnlyChanged(s, Do(s, Disown(q)), Nodes(ChainOf(s.edges, Q(q))))
  {
    var o := s.edges.owner[q];
    PathChain(s.edges, [Q(q)], T(o));
    RemoveEdgeAcyclic(s.edges, Edit(s, Disown(q)).edges, Q(q));
    hide Linked, Acyclic, OnlyChanged, Do;
    DoOnlyChanges(s, Disown(q), Nodes(ChainOf(s.edges, Q(q))));
  }

  // ---------- what reaches the threads downstream ----------

  /** Every thread downstream gains, or loses, exactly what the operation changes; nobody else does. */
  lemma PressureArrives(s: State, op: Op, u: ThreadId)
    requires Linked(s) && Enabled(s, op) && u in s.threads
    ensures Acyclic(Edit(s, op).edges) && u in Do(s, op).threads
    ensures var before, after := s.threads[u].ipv, Do(s, op).threads[u].ipv;
            var reached := Target(s, op).Some? && Downstream(Edit(s, op), Target(s, op).value, u);
            && after.weight == before.weight + (if reached then WeightDelta(Effect(s, op)) else 0)
            && after.utilization == before.utilization + (if reached then UtilizationDelta(Effect(s, op)) else 0)
  {
    EditLinked(s, op);
    EditAcyclic(s, op);
    EditKeepsIpv(s, op, u);
    if Target(s, op).Some? {
      TargetPresent(s, op);
      hide Linked, Acyclic, Edit, Effect, Target, Downstream, WeightDelta, UtilizationDelta;
      PropagateAdds(Edit(s, op), Target(s, op).value, Effect(s, op), u);
    }
  }

  lemma EditKeepsIpv(s: State, op: Op, u: ThreadId)
    requires Enabled(s, op) && u in s.threads
    ensures u in Edit(s, op).threads && Edit(s, op).threads[u].ipv == s.threads[u].ipv
  {
  }

  /** A thread that joins raises the effective weight of a fair owner by exactly what it transmits. */
  lemma JoinRaisesWeight(s: State, t: ThreadId, q: Queue)
    requires Valid(s) && Enabled(s, Join(t, q)) && q in s.edges.owner && s.edges.owner[q] in s.threads
    requires var o := s.edges.owner[q]; s.threads[o].eff.EffFair? && Trans(s.threads[t]).utilization == 0
    ensures var o := s.edges.owner[q];
            var s' := Do(s, Join(t, q));
            && o in s'.threads && s'.threads[o].eff.EffFair?
            && s'.threads[o].eff.weight == s.threads[o].eff.weight + Trans(s.threads[t]).weight
  {
    hide Exact, Healthy, Acyclic, Do;
    var o, op := s.edges.owner[q], Join(t, q);
    PressureArrives(s, op, o);
    DoValid(s, op);
    DoKeeps(s, op);
    OwnerDownstream(Edit(s, op), q);
  }
}
