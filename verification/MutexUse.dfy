/**
 What the operations of the mutex do from start to end when nobody else moves in
 between, and what becomes of the contested flag over whole runs.
 */
module MutexUse {
  import opened Alone
  import opened Basics
  import opened Mutex

  // ---------- one thread on its own ----------

  /** The step an action of t is, where it can be taken. */
  function Try(t: ThreadId): (State, Action) -> Option<State> {
    (s: State, a: Action) => if Enabled(s, t, a) then Some(Do(s, t, a)) else None
  }

  predicate Goes(s: State, t: ThreadId, a: Action, s': State) {
    Leads(Try(t), s, a, s')
  }

  /** Where the actions of t alone lead, if it can take them one after the other. */
  function Solo(s: State, t: ThreadId, acts: seq<Action>): Option<State> {
    After(Try(t), s, acts)
  }

  /** The other threads of s, with t at pc, and these two words. */
  function Put(s: State, t: ThreadId, pc: Pc, val: Val, queueLock: Option<ThreadId>): State {
    State(s.pcs[t := pc], val, queueLock)
  }

  lemma PutSelf(s: State, t: ThreadId)
    requires t in s.pcs
    ensures s == Put(s, t, s.pcs[t], s.val, s.queueLock)
  {
    assert s.pcs == s.pcs[t := s.pcs[t]];
  }

  lemma Edge(s: State, t: ThreadId, a: Action, pc: Pc, v: Val, l: Option<ThreadId>, pc': Pc, v': Val,
             l': Option<ThreadId>)
    requires Goes(Put(s, t, pc, v, l), t, a, Go(State(s.pcs[t := pc], v', l'), t, pc'))
    ensures Goes(Put(s, t, pc, v, l), t, a, Put(s, t, pc', v', l'))
  {
    hide Leads, Try;
    assert s.pcs[t := pc][t := pc'] == s.pcs[t := pc'];
  }

  /** Taking a free mutex and giving it back leaves no trace. */
  lemma RoundTrip(s: State, t: ThreadId)
    requires t in s.pcs && s.pcs[t] == Idle && s.val == FREE
    ensures Do(s, t, FastAcquire(false)) == Put(s, t, Held, Val(Some(t), false), s.queueLock)
    ensures Solo(s, t, [FastAcquire(false), TryRelease]) == Some(s)
  {
    var l, mine := s.queueLock, Val(Some(t), false);
    PutSelf(s, t);
    Edge(s, t, FastAcquire(false), Idle, FREE, l, Held, mine, l);
    Edge(s, t, TryRelease, Held, mine, l, Idle, FREE, l);
    Along2(Try(t), s, FastAcquire(false), Put(s, t, Held, mine, l), TryRelease, s);
  }

  /** A failed attempt, for whatever reason, changes nothing but t's place; a later one on a free mutex succeeds. */
  lemma SpinningWaits(s: State, t: ThreadId, spurious: bool)
    requires t in s.pcs
    ensures s.pcs[t] == Idle && (spurious || s.val != FREE) ==> Do(s, t, FastAcquire(spurious)) == Go(s, t, Spin)
    ensures s.pcs[t] == Spin && (spurious || s.val != FREE) ==> Do(s, t, SpinAcquire(spurious)) == Go(s, t, Spin)
    ensures s.pcs[t] == Spin && !spurious && s.val == FREE ==>
              Do(s, t, SpinAcquire(spurious)) == Go(s.(val := Val(Some(t), false)), t, Held)
    ensures s.pcs[t] == Spin ==> Do(s, t, StopSpinning) == Go(s, t, Slow)
  {
  }

  lemma TakesLock(s: State, t: ThreadId, v: Val)
    ensures Goes(Put(s, t, Slow, v, None), t, TakeQueueLock, Put(s, t, Locked, v, Some(t)))
  {
    Edge(s, t, TakeQueueLock, Slow, v, None, Locked, v, Some(t));
  }

  lemma Loads(s: State, t: ThreadId, v: Val, l: Option<ThreadId>)
    ensures Goes(Put(s, t, Locked, v, l), t, Load, Put(s, t, if v.contested then Parking(v.owner) else Loaded, v, l))
  {
    Edge(s, t, Load, Locked, v, l, if v.contested then Parking(v.owner) else Loaded, v, l);
  }

  lemma Flags(s: State, t: ThreadId, v: Val, l: Option<ThreadId>)
    ensures Goes(Put(s, t, Loaded, v, l), t, FetchOr,
                 Put(s, t, if v == FREE then Claiming else Parking(v.owner), v.(contested := true), l))
  {
    Edge(s, t, FetchOr, Loaded, v, l, if v == FREE then Claiming else Parking(v.owner), v.(contested := true), l);
  }

  lemma Stores(s: State, t: ThreadId, v: Val, l: Option<ThreadId>)
    ensures Goes(Put(s, t, Claiming, v, l), t, Store, Put(s, t, Unlocking, Val(Some(t), false), l))
  {
    Edge(s, t, Store, Claiming, v, l, Unlocking, Val(Some(t), false), l);
  }

  lemma Unlocks(s: State, t: ThreadId, v: Val, l: Option<ThreadId>)
    ensures Goes(Put(s, t, Unlocking, v, l), t, DropQueueLock, Put(s, t, Held, v, None))
    ensures Goes(Put(s, t, ReleaseUnlock, v, l), t, DropQueueLock, Put(s, t, Idle, v, None))
  {
    Edge(s, t, DropQueueLock, Unlocking, v, l, Held, v, None);
    Edge(s, t, DropQueueLock, ReleaseUnlock, v, l, Idle, v, None);
  }

  lemma Parks(s: State, t: ThreadId, o: Option<ThreadId>, v: Val, l: Option<ThreadId>)
    ensures Goes(Put(s, t, Parking(o), v, l), t, Block, Put(s, t, Blocked, v, None))
    ensures Goes(Put(s, t, Parking(o), v, l), t, BackOff, Put(s, t, Slow, v, None))
  {
    Edge(s, t, Block, Parking(o), v, l, Blocked, v, None);
    Edge(s, t, BackOff, Parking(o), v, l, Slow, v, None);
  }

  lemma FailsToRelease(s: State, t: ThreadId, v: Val, l: Option<ThreadId>)
    requires v.contested
    ensures Goes(Put(s, t, Held, v, l), t, TryRelease, Put(s, t, Releasing(v), v, l))
  {
    Edge(s, t, TryRelease, Held, v, l, Releasing(v), v, l);
  }

  lemma LocksForWake(s: State, t: ThreadId, x: Option<ThreadId>, v: Val)
    requires t in s.pcs && s.pcs[t] == Held
    requires match x case Some(u) => u in s.pcs && s.pcs[u] == Blocked case None => NobodyWaits(s)
    ensures Goes(Put(s, t, Releasing(v), v, None), t, LockForWake(x), Put(s, t, ReleaseLocked(v, x), v, Some(t)))
  {
    Edge(s, t, LockForWake(x), Releasing(v), v, None, ReleaseLocked(v, x), v, Some(t));
  }

  lemma FreesWord(s: State, t: ThreadId, l: Option<ThreadId>)
    ensures var v := Val(Some(t), true);
            Goes(Put(s, t, ReleaseLocked(v, None), v, l), t, ReleaseSwap, Put(s, t, ReleaseUnlock, FREE, l))
  {
    var v := Val(Some(t), true);
    Edge(s, t, ReleaseSwap, ReleaseLocked(v, None), v, l, ReleaseUnlock, FREE, l);
  }

  /** On the slow path a mutex found free is taken, without the flag. */
  lemma SlowAcquire(s: State, t: ThreadId)
    requires t in s.pcs && s.pcs[t] == Slow && s.val == FREE && s.queueLock == None
    ensures Solo(s, t, [TakeQueueLock, Load, FetchOr, Store, DropQueueLock]) ==
            Some(Put(s, t, Held, Val(Some(t), false), None))
  {
    hide Leads, Try, After, Put;
    var me, mine := Some(t), Val(Some(t), false);
    PutSelf(s, t);
    TakesLock(s, t, FREE);
    Loads(s, t, FREE, me);
    Flags(s, t, FREE, me);
    Stores(s, t, Val(None, true), me);
    Unlocks(s, t, mine, me);
    Along5(Try(t), s, TakeQueueLock, Put(s, t, Locked, FREE, me), Load, Put(s, t, Loaded, FREE, me), FetchOr,
           Put(s, t, Claiming, Val(None, true), me), Store, Put(s, t, Unlocking, mine, me), DropQueueLock,
           Put(s, t, Held, mine, None));
  }

  /** On the slow path a mutex found owned is flagged, and t sleeps behind its owner. */
  lemma SlowBlock(s: State, t: ThreadId)
    requires t in s.pcs && s.pcs[t] == Slow && s.val.owner.Some? && s.queueLock == None
    ensures !s.val.contested ==>
              Solo(s, t, [TakeQueueLock, Load, FetchOr, Block]) ==
              Some(Put(s, t, Blocked, s.val.(contested := true), None))
    ensures s.val.contested ==> Solo(s, t, [TakeQueueLock, Load, Block]) == Some(Put(s, t, Blocked, s.val, None))
    ensures s.val.contested ==> Solo(s, t, [TakeQueueLock, Load, BackOff]) == Some(s)
  {
    hide Leads, Try, After, Put;
    var me, v, o := Some(t), s.val, s.val.owner;
    PutSelf(s, t);
    TakesLock(s, t, v);
    Loads(s, t, v, me);
    if v.contested {
      Parks(s, t, o, v, me);
      Along3(Try(t), s, TakeQueueLock, Put(s, t, Locked, v, me), Load, Put(s, t, Parking(o), v, me), Block,
             Put(s, t, Blocked, v, None));
      Along3(Try(t), s, TakeQueueLock, Put(s, t, Locked, v, me), Load, Put(s, t, Parking(o), v, me), BackOff, s);
    } else {
      var v' := v.(contested := true);
      Flags(s, t, v, me);
      Parks(s, t, o, v', me);
      Along4(Try(t), s, TakeQueueLock, Put(s, t, Locked, v, me), Load, Put(s, t, Loaded, v, me), FetchOr,
             Put(s, t, Parking(o), v', me), Block, Put(s, t, Blocked, v', None));
    }
  }

  predicate SomebodyElseSleeps(s: State, x: ThreadId) {
    exists u :: u in s.pcs && u != x && s.pcs[u] == Blocked
  }

  /** A contended release hands the mutex to a sleeper; the flag stays up exactly if somebody else sleeps. */
  lemma HandOver(s: State, t: ThreadId, x: ThreadId)
    requires t in s.pcs && s.pcs[t] == Held && s.val == Val(Some(t), true) && s.queueLock == None
    requires x in s.pcs && s.pcs[x] == Blocked
    ensures Solo(s, t, [TryRelease, LockForWake(Some(x)), ReleaseSwap, Wake, DropQueueLock]) ==
            Some(Put(Go(s, x, Held), t, Idle, Val(Some(x), SomebodyElseSleeps(s, x)), None))
  {
    hide Leads, Try, After, Put, Go, SomebodyElseSleeps;
    var me, v := Some(t), s.val;
    var v' := Val(Some(x), SomebodyElseSleeps(s, x));
    PutSelf(s, t);
    FailsToRelease(s, t, v, None);
    LocksForWake(s, t, Some(x), v);
    SwapHands(s, t, x);
    WakeEdge(s, t, x, v');
    Unlocks(Go(s, x, Held), t, v', me);
    Along5(Try(t), s, TryRelease, Put(s, t, Releasing(v), v, None), LockForWake(Some(x)),
           Put(s, t, ReleaseLocked(v, Some(x)), v, me), ReleaseSwap, Put(s, t, Handing(x), v', me), Wake,
           Put(Go(s, x, Held), t, ReleaseUnlock, v', me), DropQueueLock, Put(Go(s, x, Held), t, Idle, v', None));
  }

  lemma SwapHands(s: State, t: ThreadId, x: ThreadId)
    requires t in s.pcs && s.pcs[t] == Held && s.val == Val(Some(t), true) && x in s.pcs && s.pcs[x] == Blocked
    ensures Goes(Put(s, t, ReleaseLocked(s.val, Some(x)), s.val, Some(t)), t, ReleaseSwap,
                 Put(s, t, Handing(x), Val(Some(x), SomebodyElseSleeps(s, x)), Some(t)))
  {
    var v, pc := s.val, ReleaseLocked(s.val, Some(x));
    var s' := Put(s, t, pc, v, Some(t));
    assert OthersWait(s', x) == SomebodyElseSleeps(s, x) by {
      forall u | u in s.pcs ensures s'.pcs[u] == Blocked <==> s.pcs[u] == Blocked {}
      if SomebodyElseSleeps(s, x) {
        var u :| u in s.pcs && s.pcs[u] == Blocked && u != x;
        assert s'.pcs[u] == Blocked;
      }
    }
    Edge(s, t, ReleaseSwap, pc, v, Some(t), Handing(x), Val(Some(x), SomebodyElseSleeps(s, x)), Some(t));
  }

  lemma WakeEdge(s: State, t: ThreadId, x: ThreadId, v: Val)
    requires t in s.pcs && x in s.pcs && x != t
    ensures Goes(Put(s, t, Handing(x), v, Some(t)), t, Wake, Put(Go(s, x, Held), t, ReleaseUnlock, v, Some(t)))
  {
    assert s.pcs[t := Handing(x)][x := Held][t := ReleaseUnlock] == s.pcs[x := Held][t := ReleaseUnlock];
  }

  /** A flagged mutex nobody waits for any more is simply freed. */
  lemma FlaggedForNothing(s: State, t: ThreadId)
    requires t in s.pcs && s.pcs[t] == Held && s.val == Val(Some(t), true) && s.queueLock == None && NobodyWaits(s)
    ensures Solo(s, t, [TryRelease, LockForWake(None), ReleaseSwap, DropQueueLock]) == Some(Put(s, t, Idle, FREE, None))
  {
    hide Leads, Try, After, Put, NobodyWaits;
    var me, v := Some(t), s.val;
    PutSelf(s, t);
    FailsToRelease(s, t, v, None);
    LocksForWake(s, t, None, v);
    FreesWord(s, t, me);
    Unlocks(s, t, FREE, me);
    Along4(Try(t), s, TryRelease, Put(s, t, Releasing(v), v, None), LockForWake(None),
           Put(s, t, ReleaseLocked(v, None), v, me), ReleaseSwap, Put(s, t, ReleaseUnlock, FREE, me), DropQueueLock,
           Put(s, t, Idle, FREE, None));
  }

  // ---------- the flag over whole runs ----------

  datatype Step = Step(t: ThreadId, a: Action)

  /** A run together with the steps that were taken. */
  ghost predicate IsHistory(run: seq<State>, steps: seq<Step>) {
    && |run| == |steps| + 1 && Init(run[0])
    && forall i {:trigger steps[i]} | 0 <= i < |steps| :: Goes(run[i], steps[i].t, steps[i].a, run[i + 1])
  }

  lemma HistoryIsRun(run: seq<State>, steps: seq<Step>)
    requires IsHistory(run, steps)
    ensures IsRun(run)
  {
    hide Do, Enabled, Goes, Follows;
    forall i | 0 <= i < |run| - 1 ensures Follows(run[i], run[i + 1]) {
      assert Goes(run[i], steps[i].t, steps[i].a, run[i + 1]);
      GoesFollows(run[i], steps[i].t, steps[i].a, run[i + 1]);
    }
  }

  lemma GoesMeans(s: State, t: ThreadId, a: Action, s': State)
    requires Goes(s, t, a, s')
    ensures Enabled(s, t, a) && s' == Do(s, t, a)
  {
    hide Do, Enabled;
  }

  lemma GoesFollows(s: State, t: ThreadId, a: Action, s': State)
    requires Goes(s, t, a, s')
    ensures Follows(s, s')
  {
    hide Do, Enabled;
  }

  /** In every run, a hand-over leaves the flag up if and only if somebody other than the new owner sleeps. */
  lemma FlagAfterHandOver(run: seq<State>, steps: seq<Step>, i: nat, x: ThreadId)
    requires IsHistory(run, steps) && i < |steps| && steps[i].a == ReleaseSwap
    requires steps[i].t in run[i].pcs && run[i].pcs[steps[i].t].ReleaseLocked?
    requires run[i].pcs[steps[i].t].wakeMe == Some(x)
    ensures run[i + 1].val.owner == Some(x)
    ensures run[i + 1].val.contested <==> SomebodyElseSleeps(run[i + 1], x)
  {
    HistoryIsRun(run, steps);
    RunInv(run, i);
    var s, s', t := run[i], run[i + 1], steps[i].t;
    assert Goes(s, t, ReleaseSwap, s') && PcRight(s, t, s.pcs[t]);
    if u :| u in s.pcs && s.pcs[u] == Blocked && u != x {
      assert s'.pcs[u] == Blocked;
    }
  }

  /** While x owns the mutex unflagged, only a release of its own or somebody's flag can change that. */
  lemma UnflaggedStays(s: State, t: ThreadId, a: Action, x: ThreadId)
    requires Inv(s) && Enabled(s, t, a) && s.val == Val(Some(x), false)
    requires a != FetchOr && !(t == x && a == TryRelease)
    ensures Do(s, t, a).val == Val(Some(x), false)
  {
    assert PcRight(s, t, s.pcs[t]);
    assert Owns(s.pcs[t]) ==> t == x;
  }

  lemma {:induction false} UnflaggedAlong(run: seq<State>, steps: seq<Step>, i: nat, j: nat, x: ThreadId)
    requires IsHistory(run, steps) && i <= j < |run| && run[i].val == Val(Some(x), false)
    requires forall k | i <= k < j :: steps[k].a != FetchOr && !(steps[k].t == x && steps[k].a == TryRelease)
    ensures run[j].val == Val(Some(x), false)
    decreases j - i
  {
    hide Inv, Do, Enabled, Goes, IsRun;
    if i < j {
      UnflaggedAlong(run, steps, i, j - 1, x);
      HistoryIsRun(run, steps);
      RunInv(run, j - 1);
      GoesMeans(run[j - 1], steps[j - 1].t, steps[j - 1].a, run[j]);
      UnflaggedStays(run[j - 1], steps[j - 1].t, steps[j - 1].a, x);
    }
  }

  /**
   In every run, if the last sleeper was handed the mutex and nobody has set the flag
   since, then its own release frees the mutex at once.
   */
  lemma LastSleeperFrees(run: seq<State>, steps: seq<Step>, i: nat, j: nat, x: ThreadId)
    requires IsHistory(run, steps) && i < j < |steps|
    requires steps[i].a == ReleaseSwap && steps[i].t in run[i].pcs && run[i].pcs[steps[i].t].ReleaseLocked?
    requires run[i].pcs[steps[i].t].wakeMe == Some(x)
    requires !SomebodyElseSleeps(run[i + 1], x)
    requires forall k | i < k < j :: steps[k].a != FetchOr && !(steps[k].t == x && steps[k].a == TryRelease)
    requires steps[j] == Step(x, TryRelease)
    ensures run[j + 1].val == FREE && x in run[j + 1].pcs && run[j + 1].pcs[x] == Idle
  {
    FlagAfterHandOver(run, steps, i, x);
    UnflaggedAlong(run, steps, i + 1, j, x);
    assert Goes(run[j], steps[j].t, steps[j].a, run[j + 1]);
  }

  // ---------- nobody is ever stuck ----------

  /** A step that a thread at this point can take as soon as the queue lock is free. */
  function NextStep(pc: Pc, wakeMe: Option<ThreadId>): Action {
    match pc
    case Spin => StopSpinning
    case Slow => TakeQueueLock
    case Locked => Load
    case Loaded => FetchOr
    case Claiming => Store
    case Parking(_) => Block
    case Held => TryRelease
    case Releasing(_) => LockForWake(wakeMe)
    case ReleaseLocked(_, _) => ReleaseSwap
    case Handing(_) => Wake
    case _ => DropQueueLock
  }

  ghost function Sleeper(s: State): (x: Option<ThreadId>)
    ensures match x case Some(u) => Waiting(s, u) case None => NobodyWaits(s)
  {
    if NobodyWaits(s) then None
    else
      var u :| u in s.pcs && s.pcs[u] == Blocked;
      Some(u)
  }

  /** In every state of every run, unless all threads are outside or asleep, somebody can take a step. */
  lemma NobodyIsStuck(run: seq<State>, n: nat, t: ThreadId)
    requires IsRun(run) && n < |run| && t in run[n].pcs && run[n].pcs[t] != Idle && run[n].pcs[t] != Blocked
    ensures exists u, x :: u in run[n].pcs && Enabled(run[n], u, NextStep(run[n].pcs[u], x))
  {
    RunInv(run, n);
    var s := run[n];
    assert PcRight(s, t, s.pcs[t]);
    if s.queueLock == None {
      var x := Sleeper(s);
      assert Enabled(s, t, NextStep(s.pcs[t], x));
    } else {
      LockHolderKnown(run, n);
      var u := s.queueLock.value;
      assert PcRight(s, u, s.pcs[u]);
      assert Enabled(s, u, NextStep(s.pcs[u], None));
    }
  }

  lemma HolderStep(s: State, t: ThreadId, a: Action)
    requires Enabled(s, t, a) && (s.queueLock.Some? ==> s.queueLock.value in s.pcs)
    ensures var s' := Do(s, t, a); s'.queueLock.Some? ==> s'.queueLock.value in s'.pcs
  {
  }

  lemma {:induction false} LockHolderKnown(run: seq<State>, n: nat)
    requires IsRun(run) && n < |run|
    ensures run[n].queueLock.Some? ==> run[n].queueLock.value in run[n].pcs
  {
    hide Do, Enabled;
    if n > 0 {
      LockHolderKnown(run, n - 1);
      assert Follows(run[n - 1], run[n - 1 + 1]);
      var t, a :| Enabled(run[n - 1], t, a) && run[n] == Do(run[n - 1], t, a);
      HolderStep(run[n - 1], t, a);
    }
  }
}
