/**
 The per-CPU timer queue: coalescing insertion into a sorted list, the programmed
 hardware deadline, the timer interrupt, and the hand-off when a CPU goes away.
 */
module TimerQueue {

  const INFINITE: int := 0x7FFF_FFFF_FFFF_FFFF
  const INFINITE_PAST: int := -0x8000_0000_0000_0000

  /** zx_time_t and zx_duration_t: signed 64-bit nanoseconds. */
  type Time = x: int | INFINITE_PAST <= x <= INFINITE witness 0

  /** Times are added and subtracted with saturation. */
  function Clamp(x: int): Time {
    if x > INFINITE then INFINITE else if x < INFINITE_PAST then INFINITE_PAST else x
  }

  datatype SlackMode = Center | Early | Late

  datatype Deadline = Deadline(when: Time, amount: Time, mode: SlackMode)

  function Earliest(d: Deadline): Time {
    match d.mode
    case Center => Clamp(d.when - d.amount)
    case Late => d.when
    case Early => Clamp(d.when - d.amount)
  }

  function Latest(d: Deadline): Time {
    match d.mode
    case Center => Clamp(d.when + d.amount)
    case Late => Clamp(d.when + d.amount)
    case Early => d.when
  }

  /** The window of a deadline contains it, saturated or not. */
  lemma WindowHoldsDeadline(d: Deadline)
    requires d.amount >= 0
    ensures Earliest(d) <= d.when <= Latest(d)
  {
  }

  /** An early timer is never due after its deadline, a late one never before. */
  lemma SlackDirection(d: Deadline)
    requires d.amount >= 0
    ensures d.mode == Early ==> Latest(d) == d.when
    ensures d.mode == Late ==> Earliest(d) == d.when
  {
  }

  /** The window reaches as far as the slack on each side it is allowed to, unless time itself ends first. */
  lemma WindowWidth(d: Deadline)
    requires d.amount >= 0
    ensures d.mode != Late ==> d.when - Earliest(d) == d.amount || Earliest(d) == INFINITE_PAST
    ensures d.mode != Early ==> Latest(d) - d.when == d.amount || Latest(d) == INFINITE
    ensures d.when - Earliest(d) <= d.amount && Latest(d) - d.when <= d.amount
  {
  }

  datatype Timer = Timer(id: nat, time: Time, slack: Time)

  predicate Sorted(l: seq<Timer>) {
    forall i, j | 0 <= i < j < |l| :: l[i].time <= l[j].time
  }

  // ---------- which time a new timer gets ----------

  /** Some timer of the list is due at x, inside the window. */
  predicate Overlaps(l: seq<Timer>, earliest: Time, latest: Time, x: int) {
    earliest <= x <= latest && exists i :: 0 <= i < |l| && l[i].time == x
  }

  function Distance(a: int, b: int): nat {
    if a <= b then b - a else a - b
  }

  /** A later timer exactly at the end of the window does not count if an earlier one overlaps. */
  ghost predicate Candidate(l: seq<Timer>, earliest: Time, latest: Time, t: Time, x: int) {
    && Overlaps(l, earliest, latest, x)
    && !(x == latest && x > t && exists y :: y < t && Overlaps(l, earliest, latest, y))
  }

  /** c is t itself if nothing overlaps, and else the nearest candidate, the earlier one on a tie. */
  ghost predicate Chosen(l: seq<Timer>, earliest: Time, latest: Time, t: Time, c: int) {
    && earliest <= c <= latest
    && ((forall x :: !Overlaps(l, earliest, latest, x)) ==> c == t)
    && ((exists x :: Overlaps(l, earliest, latest, x)) ==> Candidate(l, earliest, latest, t, c))
    && (forall x :: Candidate(l, earliest, latest, t, x) ==>
          Distance(c, t) < Distance(x, t) || (Distance(c, t) == Distance(x, t) && c <= x))
  }

  /** Whether the walk may pass entry i: the next timer is the better match. */
  predicate NextIsBetter(l: seq<Timer>, i: int, t: Time, latest: Time)
    requires 0 <= i < |l|
  {
    i + 1 < |l| &&
    (l[i + 1].time <= t || (l[i + 1].time < latest && Clamp(l[i + 1].time - t) < Clamp(t - l[i].time)))
  }

  /** Saturation never changes which neighbour is nearer. */
  lemma SaturationIsHarmless(before: Time, t: Time, after: Time, latest: Time)
    requires before < t < after < latest
    ensures Clamp(after - t) < Clamp(t - before) <==> after - t < t - before
  {
  }

  function Inserted(l: seq<Timer>, k: nat, x: Timer): seq<Timer>
    requires k <= |l|
  {
    l[..k] + [x] + l[k..]
  }

  lemma InsertedSorted(l: seq<Timer>, k: nat, x: Timer)
    requires Sorted(l) && k <= |l|
    requires forall i | 0 <= i < k :: l[i].time <= x.time
    requires forall i | k <= i < |l| :: x.time <= l[i].time
    ensures Sorted(Inserted(l, k, x))
  {
  }

  /** The entries passed so far are all too early, or worse than the one at i. */
  predicate Passed(l: seq<Timer>, i: nat, earliest: Time, t: Time, latest: Time) {
    && i <= |l|
    && (forall j | 0 <= j < i :: l[j].time < t)
    && (i > 0 && l[i - 1].time >= earliest ==> NextIsBetter(l, i - 1, t, latest))
  }

  /** The first timer at or after t is too far away and nothing before it overlaps. */
  lemma ChooseNone(l: seq<Timer>, i: nat, earliest: Time, t: Time, latest: Time)
    requires Sorted(l) && earliest <= t <= latest && Passed(l, i, earliest, t, latest)
    requires i < |l| ==> l[i].time > latest
    ensures Chosen(l, earliest, latest, t, t)
  {
    forall x ensures !Overlaps(l, earliest, latest, x) {
      if j :| 0 <= j < |l| && l[j].time == x {
        assert j < i ==> l[j].time <= l[i - 1].time < t;
      }
    }
  }

  lemma ChooseLater(l: seq<Timer>, i: nat, earliest: Time, t: Time, latest: Time)
    requires Sorted(l) && earliest <= t <= latest && Passed(l, i, earliest, t, latest) && i < |l|
    requires t <= l[i].time <= latest
    ensures Chosen(l, earliest, latest, t, l[i].time)
  {
    var c := l[i].time;
    assert Overlaps(l, earliest, latest, c);
    forall x | Overlaps(l, earliest, latest, x)
      ensures Distance(c, t) < Distance(x, t) || (Distance(c, t) == Distance(x, t) && c <= x)
      ensures x < t && c > t ==> c < latest
    {
      var j :| 0 <= j < |l| && l[j].time == x;
      if j < i {
        assert l[j].time <= l[i - 1].time;
        if c > t { SaturationIsHarmless(l[i - 1].time, t, c, latest); }
      } else {
        assert l[i].time <= l[j].time;
      }
    }
  }

  lemma ChooseEarlier(l: seq<Timer>, i: nat, earliest: Time, t: Time, latest: Time)
    requires Sorted(l) && earliest <= t <= latest && Passed(l, i, earliest, t, latest) && i < |l|
    requires earliest <= l[i].time < t && !NextIsBetter(l, i, t, latest)
    ensures Chosen(l, earliest, latest, t, l[i].time)
  {
    var c := l[i].time;
    assert Overlaps(l, earliest, latest, c);
    forall x | Candidate(l, earliest, latest, t, x)
      ensures Distance(c, t) < Distance(x, t) || (Distance(c, t) == Distance(x, t) && c <= x)
    {
      var j :| 0 <= j < |l| && l[j].time == x;
      if j <= i {
        assert l[j].time <= l[i].time;
      } else {
        assert t < l[i + 1].time <= l[j].time;
        assert x != latest;
        SaturationIsHarmless(c, t, l[i + 1].time, latest);
      }
    }
  }

  // ---------- the queue ----------

  /** Which timers are due when, disregarding their order. */
  ghost function Due(l: seq<Timer>): multiset<(nat, Time)> {
    if l == [] then multiset{} else multiset{(l[0].id, l[0].time)} + Due(l[1..])
  }

  lemma {:induction false} DueInserted(l: seq<Timer>, k: nat, x: Timer)
    requires k <= |l|
    ensures Due(Inserted(l, k, x)) == Due(l) + multiset{(x.id, x.time)}
    decreases k
  {
    var r := Inserted(l, k, x);
    if k == 0 {
      assert r[1..] == l;
    } else {
      DueInserted(l[1..], k - 1, x);
      assert r[1..] == Inserted(l[1..], k - 1, x);
    }
  }

  lemma DuePop(l: seq<Timer>)
    requires l != []
    ensures Due(l) == multiset{(l[0].id, l[0].time)} + Due(l[1..])
  {
  }

  function Sooner(a: Time, b: Time): Time {
    if b < a then b else a
  }

  lemma {:induction false} DueRemoved(l: seq<Timer>, k: nat)
    requires k < |l|
    ensures Due(l) == Due(l[..k] + l[k + 1..]) + multiset{(l[k].id, l[k].time)}
  {
    assert Inserted(l[..k] + l[k + 1..], k, l[k]) == l;
    DueInserted(l[..k] + l[k + 1..], k, l[k]);
  }

  lemma {:induction false} DueAppend(l: seq<Timer>, x: Timer)
    ensures Due(l + [x]) == Due(l) + multiset{(x.id, x.time)}
  {
    assert Inserted(l, |l|, x) == l + [x];
    DueInserted(l, |l|, x);
  }

  /** What a timer callback may do to the queue of its own CPU. */
  datatype Effect = SetTimer(id: nat, deadline: Deadline) | CancelTimer(id: nat) | ResetPreemption(at: Time)

  /** The preemption deadline after some effects: the last one reset, or what it was. */
  function Preemption(p: Time, effects: seq<Effect>): Time
    decreases |effects|
  {
    if effects == [] then p
    else
      var e := effects[|effects| - 1];
      if e.ResetPreemption? then e.at else Preemption(p, effects[..|effects| - 1])
  }

  /** The effects of the callbacks of the first n timers fired. */
  function Performed(callbacks: seq<seq<Effect>>, n: nat): seq<Effect> {
    if n == 0 || callbacks == [] then [] else callbacks[0] + Performed(callbacks[1..], n - 1)
  }

  lemma NothingPerformed(callbacks: seq<seq<Effect>>)
    ensures Performed(callbacks, 0) == []
  {
  }

  lemma {:induction false} PerformedMore(callbacks: seq<seq<Effect>>, n: nat)
    ensures Performed(callbacks, n + 1) ==
            if n < |callbacks| then Performed(callbacks, n) + callbacks[n] else Performed(callbacks, n)
    decreases n
  {
    if callbacks != [] {
      if n == 0 {
        assert Performed(callbacks[1..], 0) == [];
      } else {
        PerformedMore(callbacks[1..], n - 1);
      }
    }
  }

  lemma PreemptionOne(p: Time, e: Effect)
    ensures Preemption(p, [e]) == if e.ResetPreemption? then e.at else p
  {
  }

  lemma PreemptionNone(p: Time)
    ensures Preemption(p, []) == p
  {
  }

  /** What was there, what came, what went: one more effect keeps the balance. */
  lemma Balance(d0: multiset<(nat, Time)>, d: multiset<(nat, Time)>, d': multiset<(nat, Time)>, a: Traffic, b: Traffic)
    requires d + a.cancelled == d0 + a.added && d' + b.cancelled == d + b.added
    ensures d' + Both(a, b).cancelled == d0 + Both(a, b).added
  {
    var l, r := d' + (a.cancelled + b.cancelled), d0 + (a.added + b.added);
    assert l == (d' + b.cancelled) + a.cancelled;
    assert l == (d + b.added) + a.cancelled;
    assert l == (d + a.cancelled) + b.added;
    assert l == (d0 + a.added) + b.added;
    assert l == r;
  }

  lemma {:induction false} PreemptionMore(p: Time, a: seq<Effect>, b: seq<Effect>)
    ensures Preemption(p, a + b) == Preemption(Preemption(p, a), b)
    decreases |b|
  {
    if b == [] {
      assert a + b == a;
    } else {
      assert (a + b)[..|a + b| - 1] == a + b[..|b| - 1];
      PreemptionMore(p, a, b[..|b| - 1]);
    }
  }

  /** What the timers set and cancelled amount to. */
  datatype Traffic = Traffic(added: multiset<(nat, Time)>, cancelled: multiset<(nat, Time)>)

  function Both(a: Traffic, b: Traffic): Traffic {
    Traffic(a.added + b.added, a.cancelled + b.cancelled)
  }

  const QUIET := Traffic(multiset{}, multiset{})

  /** One effect adds at most the timer it sets and cancels at most the timer it names. */
  ghost predicate Caused(e: Effect, tr: Traffic) {
    match e
    case SetTimer(id, d) => tr.cancelled == multiset{} && exists x: Time ::
        Earliest(d) <= x <= Latest(d) && tr.added == multiset{(id, x)}
    case CancelTimer(id) => tr.added == multiset{} &&
      (tr.cancelled == multiset{} || exists x: Time :: tr.cancelled == multiset{(id, x)})
    case ResetPreemption(_) => tr == QUIET
  }

  /** A sequence of effects, one after the other. */
  ghost predicate CausedAll(effects: seq<Effect>, trs: seq<Traffic>) {
    |trs| == |effects| && forall i | 0 <= i < |trs| :: Caused(effects[i], trs[i])
  }

  function Total(trs: seq<Traffic>): Traffic {
    if trs == [] then QUIET else Both(Total(trs[..|trs| - 1]), trs[|trs| - 1])
  }

  class Queue {
    var list: seq<Timer>
    /** next_timer_deadline_: what the hardware is programmed to. */
    var next: Time
    var preempt: Time

    /** The hardware fires no later than the first timer and the preemption deadline. */
    predicate Programmed()
      reads this
    {
      next <= preempt && (list != [] ==> next <= list[0].time)
    }

    method UpdatePlatformTimer(deadline: Time)
      modifies this`next
      ensures next == Sooner(old(next), deadline)
    {
      if deadline < next {
        next := deadline;
      }
    }

    method PlaceAt(k: nat, x: Timer)
      requires Sorted(list) && k <= |list|
      requires k > 0 ==> list[k - 1].time <= x.time
      requires k < |list| ==> x.time <= list[k].time
      modifies this`list
      ensures Sorted(list) && list == Inserted(old(list), k, x)
    {
      InsertedSorted(list, k, x);
      list := Inserted(list, k, x);
    }

    /** TimerQueue::Insert. */
    method Insert(id: nat, t: Time, earliest: Time, latest: Time) returns (k: nat, timer: Timer)
      requires Sorted(list) && earliest <= t <= latest
      modifies this`list
      ensures Sorted(list)
      ensures k <= |old(list)| && list == Inserted(old(list), k, timer) && timer.id == id
      ensures Chosen(old(list), earliest, latest, t, timer.time)
      ensures timer.slack == Clamp(timer.time - t)
      ensures k == 0 ==> timer.time == t
    {
      hide Chosen;
      var i := 0;
      while i < |list|
        invariant list == old(list) && Passed(list, i, earliest, t, latest)
      {
        var entry := list[i];
        if entry.time > latest {
          ChooseNone(list, i, earliest, t, latest);
          k, timer := i, Timer(id, t, 0);
          PlaceAt(k, timer);
          return;
        }
        if entry.time >= t {
          ChooseLater(list, i, earliest, t, latest);
          k, timer := i + 1, Timer(id, entry.time, Clamp(entry.time - t));
          PlaceAt(k, timer);
          return;
        }
        if entry.time < earliest || NextIsBetter(list, i, t, latest) {
          i := i + 1;
          continue;
        }
        ChooseEarlier(list, i, earliest, t, latest);
        k, timer := i + 1, Timer(id, entry.time, Clamp(entry.time - t));
        PlaceAt(k, timer);
        return;
      }
      ChooseNone(list, i, earliest, t, latest);
      k, timer := |list|, Timer(id, t, 0);
      PlaceAt(k, timer);
    }

    /** Timer::Set, with the timer lock held; cancelled says that a running callback has been cancelled. */
    method Set(id: nat, d: Deadline, cancelled: bool)
      requires Sorted(list) && d.amount >= 0
      modifies this`list, this`next
      ensures Sorted(list) && (old(Programmed()) ==> Programmed())
      ensures cancelled ==> list == old(list)
      ensures !cancelled ==> exists k, x :: 0 <= k <= |old(list)| && list == Inserted(old(list), k, x) && x.id == id
                               && Chosen(old(list), Earliest(d), Latest(d), d.when, x.time)
                               && next == (if k == 0 then Sooner(old(next), x.time) else old(next))
      ensures cancelled ==> next == old(next)
    {
      if cancelled {
        return;
      }
      WindowHoldsDeadline(d);
      var k, timer := Insert(id, d.when, Earliest(d), Latest(d));
      if k == 0 {
        UpdatePlatformTimer(d.when);
      }
    }

    method PreemptReset(deadline: Time)
      modifies this`preempt, this`next
      ensures preempt == deadline && next == Sooner(old(next), deadline) && (old(Programmed()) ==> Programmed())
    {
      preempt := deadline;
      UpdatePlatformTimer(deadline);
    }

    /** Timer::Cancel for a timer of this queue, or of none. */
    method Cancel(id: nat) returns (wasQueued: bool)
      requires Sorted(list)
      modifies this`list, this`next
      ensures Sorted(list) && (old(Programmed()) ==> Programmed())
      ensures wasQueued <==> exists x :: x in old(list) && x.id == id
      ensures if wasQueued
              then exists k :: 0 <= k < |old(list)| && old(list)[k].id == id &&
                               list == old(list)[..k] + old(list)[k + 1..] &&
                               next == (if k == 0 && list != [] then Sooner(old(next), list[0].time) else old(next))
              else list == old(list) && next == old(next)
    {
      var k := 0;
      while k < |list| && list[k].id != id
        invariant 0 <= k <= |list| && forall j | 0 <= j < k :: list[j].id != id
      {
        k := k + 1;
      }
      if k == |list| {
        return false;
      }
      assert list[k] in list;
      list := list[..k] + list[k + 1..];
      if k == 0 && list != [] {
        UpdatePlatformTimer(list[0].time);
      }
      return true;
    }

    method Perform(e: Effect) returns (ghost tr: Traffic)
      requires Sorted(list) && (e.SetTimer? ==> e.deadline.amount >= 0)
      modifies this
      ensures Sorted(list) && Caused(e, tr) && Due(list) + tr.cancelled == old(Due(list)) + tr.added
      ensures e.CancelTimer? ==> (tr.cancelled != multiset{} <==> exists x :: x in old(list) && x.id == e.id)
      ensures preempt == Preemption(old(preempt), [e])
    {
      hide Due, Chosen, Inserted, Caused, Sorted, Earliest, Latest, Preemption;
      PreemptionOne(preempt, e);
      match e
      case SetTimer(id, d) =>
        Set(id, d, false);
        ghost var k, x :| 0 <= k <= |old(list)| && list == Inserted(old(list), k, x) && x.id == id
                          && Chosen(old(list), Earliest(d), Latest(d), d.when, x.time);
        tr := Traffic(multiset{(id, x.time)}, multiset{});
        SetCauses(old(list), k, x, d);
      case CancelTimer(id) =>
        var was := Cancel(id);
        tr := QUIET;
        QuietCauses(e);
        if was {
          ghost var k :| 0 <= k < |old(list)| && old(list)[k].id == id && list == old(list)[..k] + old(list)[k + 1..];
          tr := Traffic(multiset{}, multiset{(id, old(list)[k].time)});
          CancelCauses(old(list), k);
        }
      case ResetPreemption(at) =>
        PreemptReset(at);
        tr := QUIET;
        QuietCauses(e);
    }

    /** A whole callback. */
    method PerformAll(c: seq<Effect>) returns (ghost trs: seq<Traffic>)
      requires Sorted(list) && forall e :: e in c && e.SetTimer? ==> e.deadline.amount >= 0
      modifies this
      ensures Sorted(list) && CausedAll(c, trs)
      ensures Due(list) + Total(trs).cancelled == old(Due(list)) + Total(trs).added
      ensures preempt == Preemption(old(preempt), c)
      ensures c == [] ==> list == old(list) && next == old(next)
    {
      hide Due, Caused, Preemption, Total;
      trs := [];
      TotalNone();
      PreemptionNone(preempt);
      for i := 0 to |c|
        invariant Sorted(list) && CausedAll(c[..i], trs)
        invariant Due(list) + Total(trs).cancelled == old(Due(list)) + Total(trs).added
        invariant preempt == Preemption(old(preempt), c[..i])
        invariant i == 0 ==> list == old(list) && next == old(next)
      {
        assert c[i] in c;
        ghost var before := Due(list);
        ghost var tr := Perform(c[i]);
        Balance(old(Due(list)), before, Due(list), Total(trs), tr);
        TotalOne(trs, tr);
        assert c[..i + 1] == c[..i] + [c[i]];
        PreemptionMore(old(preempt), c[..i], [c[i]]);
        trs := trs + [tr];
      }
      assert c[..|c|] == c;
    }

    /**
     The loop of TickInternal; callbacks lists what each fired callback does, for as long
     as it does anything.  seen is the list as each firing finds it.
     */
    method Fire(now: Time, callbacks: seq<seq<Effect>>)
      returns (fired: seq<Timer>, ghost seen: seq<seq<Timer>>, ghost trs: seq<Traffic>)
      requires Sorted(list)
      requires forall c, e :: c in callbacks && e in c && e.SetTimer? ==> e.deadline.amount >= 0
      modifies this
      ensures Sorted(list) && forall x :: x in list ==> x.time > now
      // each timer fired was due and the first of the list at that moment, and leaves it alone
      ensures |seen| == |fired| + 1 && seen[0] == old(list) && seen[|fired|] == list
      ensures forall i | 0 <= i < |fired| :: Fires(now, callbacks, fired, seen, i)
      // nothing gets lost and nothing comes from nowhere
      ensures CausedAll(Performed(callbacks, |fired|), trs)
      ensures Due(list) + Due(fired) + Total(trs).cancelled == old(Due(list)) + Total(trs).added
      ensures preempt == Preemption(old(preempt), Performed(callbacks, |fired|))
      ensures Idle(callbacks) ==> next == old(next) && fired + list == old(list)
    {
      hide Due, Caused, Preemption, Total, Sorted, CausedAll, Fires, Performed;
      fired, seen, trs := [], [list], [];
      CausedNone();
      DueEmpty([]);
      TotalNone();
      NothingPerformed(callbacks);
      PreemptionNone(preempt);
      while list != [] && list[0].time <= now
        invariant Sorted(list)
        invariant |seen| == |fired| + 1 && seen[0] == old(list) && seen[|fired|] == list
        invariant forall i | 0 <= i < |fired| :: Fires(now, callbacks, fired, seen, i)
        invariant CausedAll(Performed(callbacks, |fired|), trs)
        invariant Due(list) + Due(fired) + Total(trs).cancelled == old(Due(list)) + Total(trs).added
        invariant preempt == Preemption(old(preempt), Performed(callbacks, |fired|))
        invariant Idle(callbacks) ==> next == old(next)
        decreases if |fired| < |callbacks| then |callbacks| - |fired| else 0, |list|
      {
        ghost var d0 := Due(list);
        var x := list[0];
        DuePop(list);
        DueAppend(fired, x);
        PerformedMore(callbacks, |fired|);
        TailSorted(list);
        list := list[1..];
        ghost var more := [];
        ghost var d1 := Due(list);
        TotalNone();
        CausedNone();
        if |fired| < |callbacks| {
          var c := callbacks[|fired|];
          assert c in callbacks;
          more := PerformAll(c);
          PreemptionMore(old(preempt), Performed(callbacks, |fired|), c);
          CausedMore(Performed(callbacks, |fired|), trs, c, more);
        } else {
          assert trs + more == trs;
        }
        FiredBalance(old(Due(list)), d0, d1, Due(list), Due(fired), x, Total(trs), Total(more));
        TotalMore(trs, more);
        FiresMore(now, callbacks, fired, seen, list);
        trs, fired, seen := trs + more, fired + [x], seen + [list];
      }
      AllLater(list, now);
      if Idle(callbacks) {
        IdleTick(old(list), now, callbacks, fired, seen, |fired|);
        assert fired[..|fired|] == fired;
      }
    }

    /** The preemption timer has come: it is used up, and the scheduler may set it again. */
    method UsePreemption(atPreemption: seq<Effect>)
      requires forall e :: e in atPreemption ==> e.ResetPreemption?
      modifies this`preempt, this`next
      ensures preempt == Preemption(INFINITE, atPreemption)
      ensures atPreemption == [] ==> next == old(next)
    {
      preempt := INFINITE;
      for i := 0 to |atPreemption|
        invariant preempt == Preemption(INFINITE, atPreemption[..i])
        invariant i == 0 ==> next == old(next)
      {
        assert atPreemption[i] in atPreemption;
        assert atPreemption[..i + 1][..i] == atPreemption[..i];
        PreemptReset(atPreemption[i].at);
      }
      assert atPreemption[..|atPreemption|] == atPreemption;
    }

    /** Tick: the timer interrupt; atPreemption is what the scheduler's own tick does to this queue. */
    method Tick(now: Time, atPreemption: seq<Effect>, callbacks: seq<seq<Effect>>)
      returns (fired: seq<Timer>, ghost seen: seq<seq<Timer>>, ghost trs: seq<Traffic>)
      requires Sorted(list)
      requires forall e :: e in atPreemption ==> e.ResetPreemption?
      requires forall c, e :: c in callbacks && e in c && e.SetTimer? ==> e.deadline.amount >= 0
      modifies this
      ensures Sorted(list) && Programmed()
      ensures forall x :: x in list ==> x.time > now
      ensures |seen| == |fired| + 1 && seen[0] == old(list) && seen[|fired|] == list
      ensures forall i | 0 <= i < |fired| :: Fires(now, callbacks, fired, seen, i)
      ensures CausedAll(Performed(callbacks, |fired|), trs)
      ensures Due(list) + Due(fired) + Total(trs).cancelled == old(Due(list)) + Total(trs).added
      // the preemption deadline is used up only if it has come, and set only by those who reset it
      ensures preempt == Preemption(if now >= old(preempt) then Preemption(INFINITE, atPreemption) else old(preempt),
                                    Performed(callbacks, |fired|))
      // with callbacks that leave the queue alone, exactly the timers that are due fire, in order, the others
      // stay, and the hardware is set to exactly what comes next
      ensures Idle(callbacks) ==> fired + list == old(list)
      ensures Idle(callbacks) && (now < old(preempt) || atPreemption == []) ==>
                next == Sooner(preempt, if list == [] then INFINITE else list[0].time)
    {
      hide Due, Caused, Preemption, Total, Sorted, CausedAll, Performed;
      next := INFINITE;
      if now >= preempt {
        UsePreemption(atPreemption);
      }
      fired, seen, trs := Fire(now, callbacks);
      var deadline := if list == [] then INFINITE else list[0].time;
      if preempt < deadline {
        deadline := preempt;
      }
      UpdatePlatformTimer(deadline);
    }

    /** Moves every timer over, each at its exact time. */
    method TakeTimers(source: Queue)
      requires this != source && Sorted(list) && Sorted(source.list)
      modifies this`list, source`list
      ensures Sorted(list) && source.list == []
      ensures Due(list) == old(Due(list)) + old(Due(source.list))
    {
      hide Due, Chosen, Inserted;
      while source.list != []
        invariant Sorted(list) && Sorted(source.list)
        invariant Due(list) + Due(source.list) == old(Due(list)) + old(Due(source.list))
        decreases |source.list|
      {
        var x := source.list[0];
        ghost var before, rest := list, source.list[1..];
        DuePop(source.list);
        source.list := source.list[1..];
        var k, timer := Insert(x.id, x.time, x.time, x.time);
        ExactWindow(before, x.time, timer.time);
        DueInserted(before, k, timer);
        assert Due(list) + Due(source.list) == Due(before) + (multiset{(x.id, x.time)} + Due(rest));
      }
      DueEmpty(source.list);
    }

    /** TransitionOffCpu: takes over every timer of a CPU that goes offline. */
    method TransitionOffCpu(source: Queue)
      requires this != source && Sorted(list) && Sorted(source.list) && Programmed()
      modifies this`list, this`next, source
      ensures Sorted(list) && Programmed() && preempt == old(preempt)
      ensures next == if list == [] then old(next) else Sooner(old(next), list[0].time)
      ensures Due(list) == old(Due(list)) + old(Due(source.list))
      ensures source.list == [] && source.Programmed() && source.next == source.preempt == INFINITE
    {
      hide Due;
      var oldHead := list[..if list == [] then 0 else 1];
      TakeTimers(source);
      if list != [] && list[..1] != oldHead {
        UpdatePlatformTimer(list[0].time);
      }
      source.preempt := INFINITE;
      source.next := INFINITE;
    }
  }

  lemma DueEmpty(l: seq<Timer>)
    requires l == []
    ensures Due(l) == multiset{}
  {
  }

  lemma ChosenInWindow(l: seq<Timer>, earliest: Time, latest: Time, t: Time, c: int)
    requires Chosen(l, earliest, latest, t, c)
    ensures earliest <= c <= latest
  {
  }

  lemma TotalNone()
    ensures Total([]) == QUIET
  {
  }

  lemma TotalOne(trs: seq<Traffic>, tr: Traffic)
    ensures Total(trs + [tr]) == Both(Total(trs), tr)
  {
    assert (trs + [tr])[..|trs|] == trs;
  }

  lemma {:induction false} TotalMore(a: seq<Traffic>, b: seq<Traffic>)
    ensures Total(a + b) == Both(Total(a), Total(b))
    decreases |b|
  {
    if b == [] {
      assert a + b == a;
    } else {
      assert (a + b)[..|a + b| - 1] == a + b[..|b| - 1];
      TotalMore(a, b[..|b| - 1]);
    }
  }

  /** The i-th firing takes the first timer of the list, which is due; an idle callback leaves the rest as it is. */
  predicate Fires(now: Time, callbacks: seq<seq<Effect>>, fired: seq<Timer>, seen: seq<seq<Timer>>, i: int)
    requires 0 <= i < |fired| && |seen| == |fired| + 1
  {
    && Sorted(seen[i]) && seen[i] != [] && fired[i] == seen[i][0] && fired[i].time <= now
    && (i >= |callbacks| || callbacks[i] == [] ==> seen[i + 1] == seen[i][1..])
  }

  /** Callbacks that do nothing to the queue. */
  predicate Idle(callbacks: seq<seq<Effect>>) {
    forall i | 0 <= i < |callbacks| :: callbacks[i] == []
  }

  /** With idle callbacks exactly the timers that are due fire, in order, and exactly the others stay. */
  lemma {:induction false} IdleTick(l: seq<Timer>, now: Time, callbacks: seq<seq<Effect>>, fired: seq<Timer>,
                                    seen: seq<seq<Timer>>, n: nat)
    requires Idle(callbacks) && |seen| == |fired| + 1 && seen[0] == l && n <= |fired|
    requires forall i | 0 <= i < |fired| :: Fires(now, callbacks, fired, seen, i)
    ensures n <= |l| && fired[..n] == l[..n] && seen[n] == l[n..]
    ensures forall i | 0 <= i < n :: l[i].time <= now
    decreases n
  {
    if n > 0 {
      IdleTick(l, now, callbacks, fired, seen, n - 1);
      assert Fires(now, callbacks, fired, seen, n - 1);
      assert fired[..n] == fired[..n - 1] + [fired[n - 1]] && l[..n] == l[..n - 1] + [l[n - 1]];
    }
  }

  lemma CausedNone()
    ensures CausedAll([], [])
  {
  }

  lemma CausedMore(a: seq<Effect>, x: seq<Traffic>, b: seq<Effect>, y: seq<Traffic>)
    requires CausedAll(a, x) && CausedAll(b, y)
    ensures CausedAll(a + b, x + y)
  {
    hide Caused;
  }

  lemma TailSorted(l: seq<Timer>)
    requires Sorted(l) && l != []
    ensures Sorted(l[1..])
  {
  }

  lemma SetCauses(l: seq<Timer>, k: nat, x: Timer, d: Deadline)
    requires k <= |l| && Chosen(l, Earliest(d), Latest(d), d.when, x.time)
    ensures var tr := Traffic(multiset{(x.id, x.time)}, multiset{});
            Caused(SetTimer(x.id, d), tr) && Due(Inserted(l, k, x)) + tr.cancelled == Due(l) + tr.added
  {
    hide Due, Inserted;
    DueInserted(l, k, x);
    ChosenInWindow(l, Earliest(d), Latest(d), d.when, x.time);
  }

  lemma CancelCauses(l: seq<Timer>, k: nat)
    requires k < |l|
    ensures var tr := Traffic(multiset{}, multiset{(l[k].id, l[k].time)});
            Caused(CancelTimer(l[k].id), tr) && Due(l[..k] + l[k + 1..]) + tr.cancelled == Due(l) + tr.added
  {
    hide Due;
    DueRemoved(l, k);
  }

  lemma QuietCauses(e: Effect)
    requires !e.SetTimer?
    ensures Caused(e, QUIET)
  {
  }

  lemma FiresMore(now: Time, callbacks: seq<seq<Effect>>, fired: seq<Timer>, seen: seq<seq<Timer>>, l: seq<Timer>)
    requires |seen| == |fired| + 1 && forall i | 0 <= i < |fired| :: Fires(now, callbacks, fired, seen, i)
    requires var s := seen[|fired|];
             && Sorted(s) && s != [] && s[0].time <= now
             && (|fired| >= |callbacks| || callbacks[|fired|] == [] ==> l == s[1..])
    ensures forall i | 0 <= i <= |fired| :: Fires(now, callbacks, fired + [seen[|fired|][0]], seen + [l], i)
  {
    forall i | 0 <= i <= |fired| ensures Fires(now, callbacks, fired + [seen[|fired|][0]], seen + [l], i) {
      assert i < |fired| ==> Fires(now, callbacks, fired, seen, i);
    }
  }

  lemma AllLater(l: seq<Timer>, now: Time)
    requires Sorted(l) && (l != [] ==> l[0].time > now)
    ensures forall x :: x in l ==> x.time > now
  {
  }

  /** One firing and what its callback does keep the balance. */
  lemma FiredBalance(start: multiset<(nat, Time)>, d0: multiset<(nat, Time)>, d1: multiset<(nat, Time)>,
                     d2: multiset<(nat, Time)>, gone: multiset<(nat, Time)>, x: Timer, a: Traffic, b: Traffic)
    requires d0 + gone + a.cancelled == start + a.added
    requires d0 == multiset{(x.id, x.time)} + d1 && d2 + b.cancelled == d1 + b.added
    ensures d2 + (gone + multiset{(x.id, x.time)}) + Both(a, b).cancelled == start + Both(a, b).added
  {
    var one := multiset{(x.id, x.time)};
    assert d1 + (gone + one) + a.cancelled == start + a.added by {
      assert d1 + (gone + one) + a.cancelled == one + d1 + gone + a.cancelled;
    }
    assert (d2 + (gone + one)) + b.cancelled == (d1 + (gone + one)) + b.added by {
      assert (d2 + (gone + one)) + b.cancelled == (d2 + b.cancelled) + (gone + one);
    }
    Balance(start, d1 + (gone + one), d2 + (gone + one), a, b);
  }

  /** A window of zero width leaves no choice. */
  lemma ExactWindow(l: seq<Timer>, t: Time, c: int)
    requires Chosen(l, t, t, t, c)
    ensures c == t
  {
  }
}
