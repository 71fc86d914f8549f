/**
 What the operations of the semaphore do from start to end when nobody else moves in
 between, and that over whole runs every post and every wait ends exactly once.
 */
module SemaphoreUse {
  import opened Alone
  import opened Basics
  import opened Counting
  import opened Semaphore

  // ---------- one thread on its own ----------

  /** The step an action of t is, where it can be taken. */
  function Try(t: ThreadId): (State, Action) -> Option<State> {
    (s: State, a: Action) => if Enabled(s, t, a) then Some(Do(s, t, a)) else None
  }

  predicate Goes(s: State, t: ThreadId, a: Action, s': State) {
    Leads(Try(t), s, a, s')
  }

  /** Where the actions of t alone lead, if it can take them one after the other. */
  function Solo(s: State, t: ThreadId, acts: seq<Action>): Option<State> {
    After(Try(t), s, acts)
  }

  /** The other threads of s, with t at pc, and these words. */
  function Put(s: State, t: ThreadId, pc: Pc, count: int, queueLock: Option<ThreadId>, posts: nat, waits: nat): State {
    State(s.pcs[t := pc], count, queueLock, posts, waits)
  }

  lemma PutSelf(s: State, t: ThreadId)
    requires t in s.pcs
    ensures s == Put(s, t, s.pcs[t], s.count, s.queueLock, s.posts, s.waits)
  {
    assert s.pcs == s.pcs[t := s.pcs[t]];
  }

  lemma Edge(s: State, t: ThreadId, a: Action, pc: Pc, n: int, l: Option<ThreadId>, p: nat, w: nat,
             pc': Pc, n': int, l': Option<ThreadId>, p': nat, w': nat)
    requires Goes(Put(s, t, pc, n, l, p, w), t, a, Go(State(s.pcs[t := pc], n', l', p', w'), t, pc'))
    ensures Goes(Put(s, t, pc, n, l, p, w), t, a, Put(s, t, pc', n', l', p', w'))
  {
    hide Leads, Try;
    assert s.pcs[t := pc][t := pc'] == s.pcs[t := pc'];
  }

  // The edges of the control flow, one thread at a time.

  lemma PostTries(s: State, t: ThreadId, n: int, l: Option<ThreadId>, p: nat, w: nat)
    requires n >= 0
    ensures Goes(Put(s, t, Idle, n, l, p, w), t, StartPost, Put(s, t, PostTry(n), n, l, p, w))
  {
    Edge(s, t, StartPost, Idle, n, l, p, w, PostTry(n), n, l, p, w);
  }

  lemma PostSwaps(s: State, t: ThreadId, n: int, l: Option<ThreadId>, p: nat, w: nat)
    ensures Goes(Put(s, t, PostTry(n), n, l, p, w), t, Swap(false), Put(s, t, Idle, n + 1, l, p + 1, w))
  {
    Edge(s, t, Swap(false), PostTry(n), n, l, p, w, Idle, n + 1, l, p + 1, w);
  }

  lemma WaitTries(s: State, t: ThreadId, n: int, l: Option<ThreadId>, p: nat, w: nat)
    requires n > 0
    ensures Goes(Put(s, t, Idle, n, l, p, w), t, StartWait, Put(s, t, WaitTry(n), n, l, p, w))
  {
    Edge(s, t, StartWait, Idle, n, l, p, w, WaitTry(n), n, l, p, w);
  }

  lemma WaitSwaps(s: State, t: ThreadId, n: int, l: Option<ThreadId>, p: nat, w: nat)
    ensures Goes(Put(s, t, WaitTry(n), n, l, p, w), t, Swap(false), Put(s, t, Idle, n - 1, l, p, w + 1))
  {
    Edge(s, t, Swap(false), WaitTry(n), n, l, p, w, Idle, n - 1, l, p, w + 1);
  }

  lemma PostSlows(s: State, t: ThreadId, n: int, l: Option<ThreadId>, p: nat, w: nat)
    requires n < 0
    ensures Goes(Put(s, t, Idle, n, l, p, w), t, StartPost, Put(s, t, PostSlow, n, l, p, w))
  {
    Edge(s, t, StartPost, Idle, n, l, p, w, PostSlow, n, l, p, w);
  }

  lemma WaitSlows(s: State, t: ThreadId, n: int, l: Option<ThreadId>, p: nat, w: nat)
    requires n <= 0
    ensures Goes(Put(s, t, Idle, n, l, p, w), t, StartWait, Put(s, t, WaitSlow, n, l, p, w))
  {
    Edge(s, t, StartWait, Idle, n, l, p, w, WaitSlow, n, l, p, w);
  }

  lemma PostLocks(s: State, t: ThreadId, n: int, p: nat, w: nat)
    ensures Goes(Put(s, t, PostSlow, n, None, p, w), t, TakeQueueLock, Put(s, t, PostLocked, n, Some(t), p, w))
  {
    Edge(s, t, TakeQueueLock, PostSlow, n, None, p, w, PostLocked, n, Some(t), p, w);
  }

  lemma WaitLocks(s: State, t: ThreadId, n: int, p: nat, w: nat)
    ensures Goes(Put(s, t, WaitSlow, n, None, p, w), t, TakeQueueLock, Put(s, t, WaitLocked, n, Some(t), p, w))
  {
    Edge(s, t, TakeQueueLock, WaitSlow, n, None, p, w, WaitLocked, n, Some(t), p, w);
  }

  lemma Subtracts(s: State, t: ThreadId, n: int, p: nat, w: nat)
    requires n <= 0
    ensures Goes(Put(s, t, WaitLocked, n, Some(t), p, w), t, Subtract, Put(s, t, WaitBlock, n - 1, Some(t), p, w))
  {
    Edge(s, t, Subtract, WaitLocked, n, Some(t), p, w, WaitBlock, n - 1, Some(t), p, w);
  }

  lemma SubtractsCredit(s: State, t: ThreadId, n: int, p: nat, w: nat)
    requires n > 0
    ensures Goes(Put(s, t, WaitLocked, n, Some(t), p, w), t, Subtract, Put(s, t, WaitUnlock, n - 1, Some(t), p, w + 1))
  {
    Edge(s, t, Subtract, WaitLocked, n, Some(t), p, w, WaitUnlock, n - 1, Some(t), p, w + 1);
  }

  lemma Sleeps(s: State, t: ThreadId, n: int, p: nat, w: nat)
    ensures Goes(Put(s, t, WaitBlock, n, Some(t), p, w), t, Sleep, Put(s, t, Blocked, n, None, p, w))
  {
    Edge(s, t, Sleep, WaitBlock, n, Some(t), p, w, Blocked, n, None, p, w);
  }

  lemma FailsToSleep(s: State, t: ThreadId, n: int, p: nat, w: nat)
    ensures Goes(Put(s, t, WaitBlock, n, Some(t), p, w), t, FailToSleep, Put(s, t, Idle, n, None, p, w))
  {
    Edge(s, t, FailToSleep, WaitBlock, n, Some(t), p, w, Idle, n, None, p, w);
  }

  lemma WaitUnlocks(s: State, t: ThreadId, n: int, p: nat, w: nat)
    ensures Goes(Put(s, t, WaitUnlock, n, Some(t), p, w), t, DropQueueLock, Put(s, t, Idle, n, None, p, w))
  {
    Edge(s, t, DropQueueLock, WaitUnlock, n, Some(t), p, w, Idle, n, None, p, w);
  }

  lemma PostUnlocks(s: State, t: ThreadId, n: int, p: nat, w: nat)
    ensures Goes(Put(s, t, PostUnlock, n, Some(t), p, w), t, DropQueueLock, Put(s, t, Idle, n, None, p, w))
  {
    Edge(s, t, DropQueueLock, PostUnlock, n, Some(t), p, w, Idle, n, None, p, w);
  }

  lemma LooksForReset(s: State, t: ThreadId, n: int, p: nat, w: nat)
    requires n < 0 && NobodySleeps(s)
    ensures Goes(Put(s, t, PostLocked, n, Some(t), p, w), t, Look, Put(s, t, PostReset, n, Some(t), p, w))
  {
    Edge(s, t, Look, PostLocked, n, Some(t), p, w, PostReset, n, Some(t), p, w);
  }

  lemma LooksForCredit(s: State, t: ThreadId, n: int, p: nat, w: nat)
    requires n >= 0
    ensures Goes(Put(s, t, PostLocked, n, Some(t), p, w), t, Look, Put(s, t, PostAdd, n, Some(t), p, w))
  {
    Edge(s, t, Look, PostLocked, n, Some(t), p, w, PostAdd, n, Some(t), p, w);
  }

  lemma Resets(s: State, t: ThreadId, n: int, p: nat, w: nat)
    ensures Goes(Put(s, t, PostReset, n, Some(t), p, w), t, Reset, Put(s, t, PostUnlock, 1, Some(t), p + 1, w))
  {
    Edge(s, t, Reset, PostReset, n, Some(t), p, w, PostUnlock, 1, Some(t), p + 1, w);
  }

  lemma Adds(s: State, t: ThreadId, n: int, p: nat, w: nat)
    ensures Goes(Put(s, t, PostAdd, n, Some(t), p, w), t, Add, Put(s, t, PostUnlock, n + 1, Some(t), p + 1, w))
  {
    Edge(s, t, Add, PostAdd, n, Some(t), p, w, PostUnlock, n + 1, Some(t), p + 1, w);
  }

  lemma Zeroes(s: State, t: ThreadId, n: int, p: nat, w: nat)
    ensures Goes(Put(s, t, PostZero, n, Some(t), p, w), t, Zero, Put(s, t, PostUnlock, 0, Some(t), p, w))
  {
    Edge(s, t, Zero, PostZero, n, Some(t), p, w, PostUnlock, 0, Some(t), p, w);
  }

  lemma BacksOff(s: State, t: ThreadId, n: int, p: nat, w: nat)
    ensures Goes(Put(s, t, PostWake, n, Some(t), p, w), t, BackOff, Put(s, t, PostSlow, n, None, p, w))
  {
    Edge(s, t, BackOff, PostWake, n, Some(t), p, w, PostSlow, n, None, p, w);
  }

  /** A post while the count is not negative adds one to it. */
  lemma FastPost(s: State, t: ThreadId)
    requires t in s.pcs && s.pcs[t] == Idle && s.count >= 0
    ensures Solo(s, t, [StartPost, Swap(false)]) ==
            Some(Put(s, t, Idle, s.count + 1, s.queueLock, s.posts + 1, s.waits))
  {
    hide Leads, Try, After, Put;
    var n, l, p, w := s.count, s.queueLock, s.posts, s.waits;
    PutSelf(s, t);
    PostTries(s, t, n, l, p, w);
    PostSwaps(s, t, n, l, p, w);
    Along2(Try(t), s, StartPost, Put(s, t, PostTry(n), n, l, p, w), Swap(false), Put(s, t, Idle, n + 1, l, p + 1, w));
  }

  /** A wait while the count is positive takes one from it. */
  lemma FastWait(s: State, t: ThreadId)
    requires t in s.pcs && s.pcs[t] == Idle && s.count > 0
    ensures Solo(s, t, [StartWait, Swap(false)]) ==
            Some(Put(s, t, Idle, s.count - 1, s.queueLock, s.posts, s.waits + 1))
  {
    hide Leads, Try, After, Put;
    var n, l, p, w := s.count, s.queueLock, s.posts, s.waits;
    PutSelf(s, t);
    WaitTries(s, t, n, l, p, w);
    WaitSwaps(s, t, n, l, p, w);
    Along2(Try(t), s, StartWait, Put(s, t, WaitTry(n), n, l, p, w), Swap(false), Put(s, t, Idle, n - 1, l, p, w + 1));
  }

  /** A failed swap looks at the count again and changes nothing else. */
  lemma FailedSwap(s: State, t: ThreadId, spurious: bool)
    requires t in s.pcs && (s.pcs[t].PostTry? || s.pcs[t].WaitTry?) && (spurious || s.count != s.pcs[t].seen)
    ensures Do(s, t, Swap(spurious)) ==
            Go(s, t, if s.pcs[t].PostTry? then (if s.count >= 0 then PostTry(s.count) else PostSlow)
                     else (if s.count > 0 then WaitTry(s.count) else WaitSlow))
  {
  }

  /** A wait that finds no credit goes to sleep, or gives up at once, one below where the count was. */
  lemma SlowWait(s: State, t: ThreadId)
    requires t in s.pcs && s.pcs[t] == Idle && s.count <= 0 && s.queueLock == None
    ensures Solo(s, t, [StartWait, TakeQueueLock, Subtract, Sleep]) ==
            Some(Put(s, t, Blocked, s.count - 1, None, s.posts, s.waits))
    ensures Solo(s, t, [StartWait, TakeQueueLock, Subtract, FailToSleep]) ==
            Some(Put(s, t, Idle, s.count - 1, None, s.posts, s.waits))
  {
    hide Leads, Try, After, Put;
    var n, p, w, me := s.count, s.posts, s.waits, Some(t);
    PutSelf(s, t);
    WaitSlows(s, t, n, None, p, w);
    WaitLocks(s, t, n, p, w);
    Subtracts(s, t, n, p, w);
    Sleeps(s, t, n - 1, p, w);
    FailsToSleep(s, t, n - 1, p, w);
    var s1, s2 := Put(s, t, WaitSlow, n, None, p, w), Put(s, t, WaitLocked, n, me, p, w);
    var s3 := Put(s, t, WaitBlock, n - 1, me, p, w);
    Along4(Try(t), s, StartWait, s1, TakeQueueLock, s2, Subtract, s3, Sleep, Put(s, t, Blocked, n - 1, None, p, w));
    Along4(Try(t), s, StartWait, s1, TakeQueueLock, s2, Subtract, s3, FailToSleep, Put(s, t, Idle, n - 1, None, p, w));
  }

  /** A wait that finds credit only under the lock takes it there. */
  lemma LateWait(s: State, t: ThreadId)
    requires t in s.pcs && s.pcs[t] == WaitSlow && s.count > 0 && s.queueLock == None
    ensures Solo(s, t, [TakeQueueLock, Subtract, DropQueueLock]) ==
            Some(Put(s, t, Idle, s.count - 1, None, s.posts, s.waits + 1))
  {
    hide Leads, Try, After, Put;
    var n, p, w, me := s.count, s.posts, s.waits, Some(t);
    PutSelf(s, t);
    WaitLocks(s, t, n, p, w);
    SubtractsCredit(s, t, n, p, w);
    WaitUnlocks(s, t, n - 1, p, w + 1);
    Along3(Try(t), s, TakeQueueLock, Put(s, t, WaitLocked, n, me, p, w), Subtract,
           Put(s, t, WaitUnlock, n - 1, me, p, w + 1), DropQueueLock, Put(s, t, Idle, n - 1, None, p, w + 1));
  }

  /** A post that finds the count negative only because of waits that gave up starts over at one. */
  lemma ResettingPost(s: State, t: ThreadId)
    requires t in s.pcs && s.pcs[t] == Idle && s.count < 0 && NobodySleeps(s) && s.queueLock == None
    ensures Solo(s, t, [StartPost, TakeQueueLock, Look, Reset, DropQueueLock]) ==
            Some(Put(s, t, Idle, 1, None, s.posts + 1, s.waits))
  {
    hide Leads, Try, After, Put;
    var n, p, w, me := s.count, s.posts, s.waits, Some(t);
    PutSelf(s, t);
    PostSlows(s, t, n, None, p, w);
    PostLocks(s, t, n, p, w);
    LooksForReset(s, t, n, p, w);
    Resets(s, t, n, p, w);
    PostUnlocks(s, t, 1, p + 1, w);
    Along5(Try(t), s, StartPost, Put(s, t, PostSlow, n, None, p, w), TakeQueueLock,
           Put(s, t, PostLocked, n, me, p, w), Look, Put(s, t, PostReset, n, me, p, w), Reset,
           Put(s, t, PostUnlock, 1, me, p + 1, w), DropQueueLock, Put(s, t, Idle, 1, None, p + 1, w));
  }

  /** A post that finds credit under the lock adds to it. */
  lemma LatePost(s: State, t: ThreadId)
    requires t in s.pcs && s.pcs[t] == PostSlow && s.count >= 0 && s.queueLock == None
    ensures Solo(s, t, [TakeQueueLock, Look, Add, DropQueueLock]) ==
            Some(Put(s, t, Idle, s.count + 1, None, s.posts + 1, s.waits))
  {
    hide Leads, Try, After, Put;
    var n, p, w, me := s.count, s.posts, s.waits, Some(t);
    PutSelf(s, t);
    PostLocks(s, t, n, p, w);
    LooksForCredit(s, t, n, p, w);
    Adds(s, t, n, p, w);
    PostUnlocks(s, t, n + 1, p + 1, w);
    Along4(Try(t), s, TakeQueueLock, Put(s, t, PostLocked, n, me, p, w), Look, Put(s, t, PostAdd, n, me, p, w), Add,
           Put(s, t, PostUnlock, n + 1, me, p + 1, w), DropQueueLock, Put(s, t, Idle, n + 1, None, p + 1, w));
  }

  predicate OthersSleep(s: State, x: ThreadId) {
    exists u :: u in s.pcs && u != x && s.pcs[u] == Blocked
  }

  lemma LookFindsSleeper(s: State, t: ThreadId, x: ThreadId)
    requires t in s.pcs && x in s.pcs && s.pcs[x] == Blocked && t != x && s.count < 0
    ensures Goes(Put(s, t, PostLocked, s.count, Some(t), s.posts, s.waits), t, Look,
                 Put(s, t, PostWake, s.count, Some(t), s.posts, s.waits))
  {
    var s' := Put(s, t, PostLocked, s.count, Some(t), s.posts, s.waits);
    assert s'.pcs[x] == Blocked;
    Edge(s, t, Look, PostLocked, s.count, Some(t), s.posts, s.waits, PostWake, s.count, Some(t), s.posts, s.waits);
  }

  lemma WakeEdge(s: State, t: ThreadId, x: ThreadId)
    requires t in s.pcs && x in s.pcs && s.pcs[x] == Blocked && s.pcs[t] == PostSlow
    ensures Goes(Put(s, t, PostWake, s.count, Some(t), s.posts, s.waits), t, WakeOne(x),
                 Put(Go(s, x, Idle), t, if OthersSleep(s, x) then PostUnlock else PostZero,
                     s.count, Some(t), s.posts + 1, s.waits + 1))
  {
    var s' := Put(s, t, PostWake, s.count, Some(t), s.posts, s.waits);
    assert (forall u :: u in s'.pcs && s'.pcs[u] == Blocked ==> u == x) <==> !OthersSleep(s, x) by {
      forall u | u in s.pcs ensures s'.pcs[u] == Blocked <==> s.pcs[u] == Blocked {}
      if OthersSleep(s, x) {
        var u :| u in s.pcs && u != x && s.pcs[u] == Blocked;
        assert s'.pcs[u] == Blocked;
      }
    }
    var pc := if OthersSleep(s, x) then PostUnlock else PostZero;
    assert s.pcs[t := PostWake][x := Idle][t := pc] == s.pcs[x := Idle][t := pc];
  }

  /** A post that finds a sleeper wakes it; waking the last one puts the count back to zero. */
  lemma WakingPost(s: State, t: ThreadId, x: ThreadId)
    requires t in s.pcs && s.pcs[t] == PostSlow && s.count < 0 && s.queueLock == None
    requires x in s.pcs && s.pcs[x] == Blocked
    ensures OthersSleep(s, x) ==>
              Solo(s, t, [TakeQueueLock, Look, WakeOne(x), DropQueueLock]) ==
              Some(Put(Go(s, x, Idle), t, Idle, s.count, None, s.posts + 1, s.waits + 1))
    ensures !OthersSleep(s, x) ==>
              Solo(s, t, [TakeQueueLock, Look, WakeOne(x), Zero, DropQueueLock]) ==
              Some(Put(Go(s, x, Idle), t, Idle, 0, None, s.posts + 1, s.waits + 1))
  {
    hide Leads, Try, After, Put, Go, OthersSleep;
    var n, p, w, me, s' := s.count, s.posts, s.waits, Some(t), Go(s, x, Idle);
    PutSelf(s, t);
    PostLocks(s, t, n, p, w);
    LookFindsSleeper(s, t, x);
    WakeEdge(s, t, x);
    Zeroes(s', t, n, p + 1, w + 1);
    PostUnlocks(s', t, n, p + 1, w + 1);
    PostUnlocks(s', t, 0, p + 1, w + 1);
    var s1, s2 := Put(s, t, PostLocked, n, me, p, w), Put(s, t, PostWake, n, me, p, w);
    if OthersSleep(s, x) {
      Along4(Try(t), s, TakeQueueLock, s1, Look, s2, WakeOne(x), Put(s', t, PostUnlock, n, me, p + 1, w + 1),
             DropQueueLock, Put(s', t, Idle, n, None, p + 1, w + 1));
    } else {
      Along5(Try(t), s, TakeQueueLock, s1, Look, s2, WakeOne(x), Put(s', t, PostZero, n, me, p + 1, w + 1), Zero,
             Put(s', t, PostUnlock, 0, me, p + 1, w + 1), DropQueueLock, Put(s', t, Idle, 0, None, p + 1, w + 1));
    }
  }

  /** A post that could not lock the sleeper starts over; a sleeper that gives up just leaves. */
  lemma NoHarmDone(s: State, t: ThreadId)
    requires t in s.pcs && s.queueLock == None
    ensures s.pcs[t] == Blocked ==> Do(s, t, GiveUp) == Go(s, t, Idle)
    ensures s.pcs[t] == PostSlow && s.count < 0 && !NobodySleeps(s) ==>
              Solo(s, t, [TakeQueueLock, Look, BackOff]) == Some(s)
  {
    hide Leads, Try, After, Put;
    if s.pcs[t] == PostSlow && s.count < 0 && !NobodySleeps(s) {
      var x :| x in s.pcs && s.pcs[x] == Blocked;
      var n, p, w, me := s.count, s.posts, s.waits, Some(t);
      PutSelf(s, t);
      PostLocks(s, t, n, p, w);
      LookFindsSleeper(s, t, x);
      BacksOff(s, t, n, p, w);
      Along3(Try(t), s, TakeQueueLock, Put(s, t, PostLocked, n, me, p, w), Look, Put(s, t, PostWake, n, me, p, w),
             BackOff, s);
    }
  }

  // ---------- every operation ends exactly once ----------

  datatype Step = Step(t: ThreadId, a: Action)

  /** A run together with the steps that were taken. */
  ghost predicate IsHistory(run: seq<State>, steps: seq<Step>) {
    && |run| == |steps| + 1 && Init(run[0])
    && forall i {:trigger steps[i]} | 0 <= i < |steps| :: Goes(run[i], steps[i].t, steps[i].a, run[i + 1])
  }

  /** How many of the steps are of the given kind. */
  function Taken(steps: seq<Step>, kind: Action -> bool): nat {
    if steps == [] then 0 else Taken(steps[..|steps| - 1], kind) + if kind(steps[|steps| - 1].a) then 1 else 0
  }

  predicate StartsPost(a: Action) {
    a.StartPost?
  }

  predicate StartsWait(a: Action) {
    a.StartWait?
  }

  /** The two ways in which a wait comes back without credit. */
  predicate Fails(a: Action) {
    a.FailToSleep? || a.GiveUp?
  }

  /** A post that has not been counted yet. */
  predicate Posting(pc: Pc) {
    pc.PostTry? || pc.PostSlow? || pc.PostLocked? || pc.PostAdd? || pc.PostReset? || pc.PostWake?
  }

  /** A wait that has neither succeeded nor failed yet. */
  predicate Pending(pc: Pc) {
    pc.WaitTry? || pc.WaitSlow? || pc.WaitLocked? || pc.WaitBlock? || pc.Blocked?
  }

  predicate Accounted(s: State, postsBegun: int, waitsBegun: int, failures: int) {
    && postsBegun == s.posts + |Where(s.pcs, Posting)|
    && waitsBegun == s.waits + failures + |Where(s.pcs, Pending)|
  }

  /** A step that moves one thread and its counters together. */
  lemma MoveAccounted(s: State, s': State, t: ThreadId, pc: Pc, b: int, c: int, f: int, b': int, c': int, f': int)
    requires Accounted(s, b, c, f) && t in s.pcs && s'.pcs == s.pcs[t := pc]
    requires b' - b == s'.posts - s.posts + One(Posting(pc)) - One(Posting(s.pcs[t]))
    requires c' - c == s'.waits - s.waits + f' - f + One(Pending(pc)) - One(Pending(s.pcs[t]))
    ensures Accounted(s', b', c', f')
  {
    hide Posting, Pending;
    WhereUpdate(s.pcs, t, pc, Posting);
    WhereUpdate(s.pcs, t, pc, Pending);
  }

  lemma StepAccounted(s: State, t: ThreadId, a: Action, b: int, c: int, f: int)
    requires Accounted(s, b, c, f) && Enabled(s, t, a) && !a.WakeOne?
    ensures Accounted(Do(s, t, a), b + One(StartsPost(a)), c + One(StartsWait(a)), f + One(Fails(a)))
  {
    var s' := Do(s, t, a);
    StepMoves(s, t, a);
    hide Accounted, Do;
    MoveAccounted(s, s', t, s'.pcs[t], b, c, f, b + One(StartsPost(a)), c + One(StartsWait(a)), f + One(Fails(a)));
  }

  lemma StepMoves(s: State, t: ThreadId, a: Action)
    requires Enabled(s, t, a) && !a.WakeOne?
    ensures var s' := Do(s, t, a);
            && t in s.pcs && t in s'.pcs && s'.pcs == s.pcs[t := s'.pcs[t]]
            && One(StartsPost(a)) == s'.posts - s.posts + One(Posting(s'.pcs[t])) - One(Posting(s.pcs[t]))
            && One(StartsWait(a)) ==
               s'.waits - s.waits + One(Fails(a)) + One(Pending(s'.pcs[t])) - One(Pending(s.pcs[t]))
  {
  }

  lemma WakeAccounted(s: State, t: ThreadId, x: ThreadId, b: int, c: int, f: int)
    requires Accounted(s, b, c, f) && Enabled(s, t, WakeOne(x))
    ensures Accounted(Do(s, t, WakeOne(x)), b, c, f)
  {
    var s' := Do(s, t, WakeOne(x));
    var s1 := Go(s.(waits := s.waits + 1), x, Idle);
    MoveAccounted(s, s1, x, Idle, b, c, f, b, c, f);
    MoveAccounted(s1, s', t, s'.pcs[t], b, c, f, b, c, f);
  }

  /**
   At every point of every run: every post begun has been counted or is still under
   way, and every wait begun has succeeded, has failed, or is still under way.
   */
  lemma {:induction false} EveryOperationEnds(run: seq<State>, steps: seq<Step>)
    requires IsHistory(run, steps)
    ensures var s := run[|steps|];
            && Taken(steps, StartsPost) == s.posts + |Where(s.pcs, Posting)|
            && Taken(steps, StartsWait) == s.waits + Taken(steps, Fails) + |Where(s.pcs, Pending)|
    decreases |steps|
  {
    var n := |steps|;
    if n == 0 {
      assert Where(run[0].pcs, Posting) == {} && Where(run[0].pcs, Pending) == {};
    } else {
      var before, t, a := steps[..n - 1], steps[n - 1].t, steps[n - 1].a;
      forall i {:trigger before[i]} | 0 <= i < |before|
        ensures Goes(run[..n][i], before[i].t, before[i].a, run[..n][i + 1])
      {
        assert before[i] == steps[i];
      }
      EveryOperationEnds(run[..n], before);
      assert Goes(run[n - 1], t, a, run[n]);
      var b, c, f := Taken(before, StartsPost), Taken(before, StartsWait), Taken(before, Fails);
      assert Accounted(run[n - 1], b, c, f);
      hide Accounted, Do;
      if a.WakeOne? {
        WakeAccounted(run[n - 1], t, a.x, b, c, f);
      } else {
        StepAccounted(run[n - 1], t, a, b, c, f);
      }
    }
  }
}
