/**
 Scheduling profiles and the values a thread inherits from the threads blocked
 behind it.  Weights and utilizations are whole numbers here: the inheritance
 rules only add, subtract, compare and take minima.
 */
module Profiles {
  import opened Basics
  import opened Aggregates

  /** SchedDuration::Max(), the "no deadline" sentinel. */
  const MAX_DURATION: int := 0x7FFF_FFFF_FFFF_FFFF

  /** The utilization at which an effective profile is capped (the source's 1.0). */
  const CPU_UTILIZATION_LIMIT: nat := 0x10_0000

  type Duration = d: int | d <= MAX_DURATION witness MAX_DURATION

  datatype BaseProfile =
    | Fair(weight: nat, inheritable: bool)
    | Deadline(utilization: nat, deadline: Duration)  // always inheritable

  datatype EffectiveProfile =
    | EffFair(weight: int)
    | EffDeadline(utilization: int, deadline: Duration)

  /** InheritedProfileValues. */
  datatype Ipv = Ipv(weight: int, utilization: int, minDeadline: Duration)

  const ZERO_IPV := Ipv(0, 0, MAX_DURATION)

  function Min(a: Duration, b: Duration): Duration {
    if a <= b then a else b
  }

  function Plus(a: Ipv, b: Ipv): Ipv {
    Ipv(a.weight + b.weight, a.utilization + b.utilization, Min(a.minDeadline, b.minDeadline))
  }

  /** What a base profile adds to the pressure its thread transmits. */
  function BaseIpv(base: BaseProfile): Ipv {
    match base
    case Fair(w, inheritable) => if inheritable then Ipv(w, 0, MAX_DURATION) else ZERO_IPV
    case Deadline(u, d) => Ipv(0, u, d)
  }

  /** SnapshotThreadIpv: the pressure a thread transmits to the queue it is blocked in. */
  function Transmitted(base: BaseProfile, inherited: Ipv): Ipv {
    match base
    case Fair(w, inheritable) =>
      if inheritable then inherited.(weight := inherited.weight + w) else inherited
    case Deadline(u, d) =>
      inherited.(utilization := inherited.utilization + u, minDeadline := Min(inherited.minDeadline, d))
  }

  lemma TransmittedIsPlus(base: BaseProfile, inherited: Ipv)
    ensures Transmitted(base, inherited) == Plus(BaseIpv(base), inherited)
  {
  }

  /** SchedulerState::RecomputeEffectiveProfile. */
  function Effective(base: BaseProfile, inherited: Ipv): EffectiveProfile {
    match base
    case Deadline(u, d) =>
      EffDeadline(Cap(inherited.utilization + u), Min(inherited.minDeadline, d))
    case Fair(w, _) =>
      if inherited.utilization > 0 then
        EffDeadline(Cap(inherited.utilization), inherited.minDeadline)
      else
        EffFair(w + inherited.weight)
  }

  function Cap(u: int): int {
    if u <= CPU_UTILIZATION_LIMIT then u else CPU_UTILIZATION_LIMIT
  }

  /** IpvsAreConsequential. */
  predicate Consequential(i: Ipv) {
    i.weight != 0 || i.utilization != 0
  }

  /** The shape of every inherited value under admissible profiles: no deadline without utilization. */
  predicate Sound(i: Ipv) {
    && i.weight >= 0
    && i.utilization >= 0
    && (i.utilization == 0 ==> i.minDeadline == MAX_DURATION)
  }

  /** A deadline comes with some utilization, however small its capacity was. */
  predicate Admissible(base: BaseProfile) {
    base.Deadline? ==> base.utilization > 0 || base.deadline == MAX_DURATION
  }

  // ---------- aggregates ----------

  /** The combined pressure of a finite family of contributors. */
  ghost function Agg<K>(m: map<K, Ipv>): Ipv {
    Fold(m, ZERO_IPV, Plus)
  }

  /** Any contributor can be split off: the order of summation does not matter. */
  lemma AggSplit<K>(m: map<K, Ipv>, k: K)
    requires k in m
    ensures Agg(m) == Plus(m[k], Agg(m - {k}))
  {
    FoldSplit(m, ZERO_IPV, Plus, k);
  }

  lemma AggAdd<K>(m: map<K, Ipv>, k: K, v: Ipv)
    requires k !in m
    ensures Agg(m[k := v]) == Plus(v, Agg(m))
  {
    AggSplit(m[k := v], k);
    assert m[k := v] - {k} == m;
  }

  lemma AggAddZero<K>(m: map<K, Ipv>, k: K, r: map<K, Ipv>)
    requires k !in m && r == m[k := ZERO_IPV]
    ensures Agg(r) == Agg(m)
  {
    AggAdd(m, k, ZERO_IPV);
  }

  lemma {:induction false} AggSound<K>(m: map<K, Ipv>)
    requires forall k :: k in m ==> Sound(m[k])
    ensures Sound(Agg(m))
    decreases |m|
  {
    if m != map[] {
      var k :| k in m;
      AggSplit(m, k);
      AggSound(m - {k});
    }
  }

  /** The aggregate deadline is a lower bound that some contributor attains. */
  lemma {:induction false} AggMin<K>(m: map<K, Ipv>)
    ensures forall k :: k in m ==> Agg(m).minDeadline <= m[k].minDeadline
    ensures Agg(m).minDeadline == MAX_DURATION || exists k :: k in m && m[k].minDeadline == Agg(m).minDeadline
    decreases |m|
  {
    forall k | k in m ensures Agg(m).minDeadline <= m[k].minDeadline { AggSplit(m, k); }
    if m != map[] {
      var k :| k in m;
      AggSplit(m, k);
      AggMin(m - {k});
    }
  }

  lemma AggMinUnique<K>(m: map<K, Ipv>, d: Duration, k: Option<K>)
    requires forall j :: j in m ==> d <= m[j].minDeadline
    requires match k case None => d == MAX_DURATION case Some(j) => j in m && m[j].minDeadline == d
    ensures d == Agg(m).minDeadline
  {
    AggMin(m);
  }

  // ---------- deltas ----------

  datatype Change = Change(lost: Option<Ipv>, added: Option<Ipv>)

  function WeightDelta(c: Change): int {
    (if c.added.Some? then c.added.value.weight else 0) - (if c.lost.Some? then c.lost.value.weight else 0)
  }

  function UtilizationDelta(c: Change): int {
    (if c.added.Some? then c.added.value.utilization else 0)
    - (if c.lost.Some? then c.lost.value.utilization else 0)
  }

  /** How a minimum moves when one of its contributors changes by c. */
  predicate MinStep(before: Duration, after: Duration, c: Change) {
    && (c.lost.Some? ==> before <= c.lost.value.minDeadline)
    && (c.added.Some? ==> after <= c.added.value.minDeadline)
    && (after >= before || (c.added.Some? && after >= c.added.value.minDeadline))
    && (c.added.Some? && c.added.value.minDeadline <= before ==> after == c.added.value.minDeadline)
    && ((c.added.Some? && c.added.value.minDeadline <= before)
        || (c.lost.Some? && c.lost.value.minDeadline <= before)
        || after == before)
  }

  /** before and after differ exactly as the change c says. */
  predicate Delta(before: Ipv, after: Ipv, c: Change) {
    && after.weight == before.weight + WeightDelta(c)
    && after.utilization == before.utilization + UtilizationDelta(c)
    && MinStep(before.minDeadline, after.minDeadline, c)
  }

  /** A change is carried unchanged through any further aggregation. */
  lemma DeltaThrough(before: Ipv, after: Ipv, rest: Ipv, c: Change)
    requires Delta(before, after, c)
    ensures Delta(Plus(before, rest), Plus(after, rest), c)
  {
  }

  lemma DeltaReplace<K>(m: map<K, Ipv>, k: K, v: Ipv, c: Change)
    requires k in m && Delta(m[k], v, c)
    ensures Delta(Agg(m), Agg(m[k := v]), c)
  {
    AggSplit(m, k);
    AggSplit(m[k := v], k);
    assert m[k := v] - {k} == m - {k};
    DeltaThrough(m[k], v, Agg(m - {k}), c);
  }

  lemma DeltaAdd<K>(m: map<K, Ipv>, k: K, v: Ipv)
    requires k !in m
    ensures Delta(Agg(m), Agg(m[k := v]), Change(None, Some(v)))
  {
    AggAdd(m, k, v);
  }

  lemma DeltaRemove<K>(m: map<K, Ipv>, k: K)
    requires k in m
    ensures Delta(Agg(m), Agg(m - {k}), Change(Some(m[k]), None))
  {
    AggSplit(m, k);
  }

  /** Adding a change to the sums, and recomputing the minimum, arrives at the new value. */
  lemma DeltaArrives(before: Ipv, after: Ipv, c: Change)
    requires Delta(before, after, c)
    ensures Ipv(before.weight + WeightDelta(c), before.utilization + UtilizationDelta(c), after.minDeadline) == after
  {
  }
}
