/**
 The counting semaphore as a state machine: every atomic operation on count_ is one
 step, the wait queue's lock is a lock of its own, and a blocked thread may time out
 or be interrupted whenever that lock is free.
 */
module Semaphore {
  import opened Basics
  import opened Counting

  datatype Pc =
    | Idle
    // Post
    | PostTry(seen: int)                  // about to swap seen for seen + 1
    | PostSlow | PostLocked
    | PostAdd                             // saw a count that was not negative
    | PostReset                           // saw a negative count and an empty queue
    | PostWake                            // saw a negative count and a sleeper
    | PostZero                            // woke the last sleeper
    | PostUnlock
    // Wait
    | WaitTry(seen: int)                  // about to swap seen for seen - 1
    | WaitSlow | WaitLocked
    | WaitBlock                           // has taken its count, about to sleep
    | Blocked
    | WaitUnlock

  /** posts and waits count the completed posts and the successful waits so far. */
  datatype State = State(
    pcs: map<ThreadId, Pc>, count: int, queueLock: Option<ThreadId>,
    posts: nat, waits: nat)

  datatype Action =
    | StartPost | StartWait | Swap(spurious: bool)
    | TakeQueueLock | DropQueueLock
    | Look | Add | Reset | Zero
    | WakeOne(x: ThreadId) | BackOff
    | Subtract | Sleep | FailToSleep | GiveUp

  function Go(s: State, t: ThreadId, pc: Pc): State {
    s.(pcs := s.pcs[t := pc])
  }

  function PostAgain(count: int): Pc {
    if count >= 0 then PostTry(count) else PostSlow
  }

  function WaitAgain(count: int): Pc {
    if count > 0 then WaitTry(count) else WaitSlow
  }

  predicate NobodySleeps(s: State) {
    forall u :: u in s.pcs ==> s.pcs[u] != Blocked
  }

  predicate Enabled(s: State, t: ThreadId, a: Action) {
    t in s.pcs &&
    var pc := s.pcs[t];
    match a
    case StartPost => pc.Idle?
    case StartWait => pc.Idle?
    case Swap(_) => pc.PostTry? || pc.WaitTry?
    case TakeQueueLock => (pc.PostSlow? || pc.WaitSlow?) && s.queueLock == None
    case DropQueueLock => pc.PostUnlock? || pc.WaitUnlock?
    case Look => pc.PostLocked?
    case Add => pc.PostAdd?
    case Reset => pc.PostReset?
    case Zero => pc.PostZero?
    case WakeOne(x) => pc.PostWake? && x in s.pcs && s.pcs[x] == Blocked
    case BackOff => pc.PostWake?
    case Subtract => pc.WaitLocked?
    case Sleep => pc.WaitBlock?
    case FailToSleep => pc.WaitBlock?
    case GiveUp => pc.Blocked? && s.queueLock == None
  }

  /** The compare-and-swap loops of the two fast paths. */
  function DoSwap(s: State, t: ThreadId, spurious: bool): State
    requires t in s.pcs && (s.pcs[t].PostTry? || s.pcs[t].WaitTry?)
  {
    var pc := s.pcs[t];
    if s.count == pc.seen && !spurious then
      if pc.PostTry? then Go(s.(count := s.count + 1, posts := s.posts + 1), t, Idle)
      else Go(s.(count := s.count - 1, waits := s.waits + 1), t, Idle)
    else
      Go(s, t, if pc.PostTry? then PostAgain(s.count) else WaitAgain(s.count))
  }

  function DoLook(s: State, t: ThreadId): State {
    Go(s, t, if s.count >= 0 then PostAdd else if NobodySleeps(s) then PostReset else PostWake)
  }

  /** WakeOneLocked: the woken thread's wait succeeds, and so does this post. */
  function DoWakeOne(s: State, t: ThreadId, x: ThreadId): State {
    var last := forall u :: u in s.pcs && s.pcs[u] == Blocked ==> u == x;
    Go(Go(s.(posts := s.posts + 1, waits := s.waits + 1), x, Idle), t, if last then PostZero else PostUnlock)
  }

  function DoSubtract(s: State, t: ThreadId): State {
    if s.count > 0 then Go(s.(count := s.count - 1, waits := s.waits + 1), t, WaitUnlock)
    else Go(s.(count := s.count - 1), t, WaitBlock)
  }

  function Do(s: State, t: ThreadId, a: Action): State
    requires Enabled(s, t, a)
  {
    match a
    case StartPost => Go(s, t, PostAgain(s.count))
    case StartWait => Go(s, t, WaitAgain(s.count))
    case Swap(spurious) => DoSwap(s, t, spurious)
    case TakeQueueLock => Go(s.(queueLock := Some(t)), t, if s.pcs[t] == PostSlow then PostLocked else WaitLocked)
    case DropQueueLock => Go(s.(queueLock := None), t, Idle)
    case Look => DoLook(s, t)
    case Add => Go(s.(count := s.count + 1, posts := s.posts + 1), t, PostUnlock)
    case Reset => Go(s.(count := 1, posts := s.posts + 1), t, PostUnlock)
    case Zero => Go(s.(count := 0), t, PostUnlock)
    case WakeOne(x) => DoWakeOne(s, t, x)
    case BackOff => Go(s.(queueLock := None), t, PostSlow)
    case Subtract => DoSubtract(s, t)
    case Sleep => Go(s.(queueLock := None), t, Blocked)
    case FailToSleep => Go(s.(queueLock := None), t, Idle)
    case GiveUp => Go(s, t, Idle)
  }

  predicate Init(s: State) {
    && (forall t :: t in s.pcs ==> s.pcs[t] == Idle)
    && s.queueLock == None && s.posts == 0 && s.waits == 0
  }

  // ---------- the invariant ----------

  function Positive(n: int): nat {
    if n > 0 then n else 0
  }

  predicate HoldsQueueLock(pc: Pc) {
    pc.PostLocked? || pc.PostAdd? || pc.PostReset? || pc.PostWake? || pc.PostZero? || pc.PostUnlock?
    || pc.WaitLocked? || pc.WaitBlock? || pc.WaitUnlock?
  }

  predicate LockHeldRight(s: State) {
    forall t :: t in s.pcs ==> (HoldsQueueLock(s.pcs[t]) <==> s.queueLock == Some(t))
  }

  predicate Asleep(pc: Pc) {
    pc.Blocked?
  }

  /** Threads that have taken a count below zero and sleep, or are about to. */
  predicate InLine(pc: Pc) {
    pc.Blocked? || pc.WaitBlock?
  }

  /** Everything that ever came in has been taken out or is still there. */
  predicate Conserved(s: State, initial: int) {
    Positive(initial) + s.posts == s.waits + Positive(s.count)
  }

  predicate PcRight(s: State, pc: Pc) {
    match pc
    case PostTry(n) => n >= 0
    case WaitTry(n) => n > 0
    case PostAdd => s.count >= 0
    case PostReset => s.count < 0 && NobodySleeps(s)
    case PostWake => s.count < 0
    case PostZero => s.count < 0 && NobodySleeps(s)
    case _ => true
  }

  predicate Inv(s: State, initial: int) {
    && Conserved(s, initial)
    && LockHeldRight(s)
    && (forall t :: t in s.pcs ==> PcRight(s, s.pcs[t]))
    && |Where(s.pcs, InLine)| <= Positive(-s.count)
  }

  // ---------- every step keeps it ----------

  lemma InitInv(s: State)
    requires Init(s)
    ensures Inv(s, s.count)
  {
    assert Where(s.pcs, InLine) == {};
  }

  /** One thread moves, and with it at most one place in line. */
  lemma MoveInLine(s: State, s': State, t: ThreadId, pc: Pc)
    requires t in s.pcs && s'.pcs == s.pcs[t := pc] && |Where(s.pcs, InLine)| <= Positive(-s.count)
    requires Positive(-s'.count) - Positive(-s.count) >= One(InLine(pc)) - One(InLine(s.pcs[t]))
    ensures |Where(s'.pcs, InLine)| <= Positive(-s'.count)
  {
    WhereUpdate(s.pcs, t, pc, InLine);
  }

  /** A lock holder that finds nobody asleep is alone in front of the queue. */
  lemma EmptyLine(s: State, t: ThreadId)
    requires LockHeldRight(s) && t in s.pcs && HoldsQueueLock(s.pcs[t]) && !s.pcs[t].WaitBlock? && NobodySleeps(s)
    ensures Where(s.pcs, InLine) == {}
  {
  }

  /** Steps that neither move the count nor anybody's place in line. */
  lemma QuietKeepsInv(s: State, s': State, initial: int, t: ThreadId, pc: Pc)
    requires Inv(s, initial) && t in s.pcs && s'.pcs == s.pcs[t := pc]
    requires s'.count == s.count && s'.posts == s.posts && s'.waits == s.waits
    requires One(InLine(pc)) <= One(InLine(s.pcs[t])) && (pc == Blocked ==> HoldsQueueLock(s.pcs[t]))
    requires PcRight(s, pc)
    requires if HoldsQueueLock(s.pcs[t]) then s'.queueLock == (if HoldsQueueLock(pc) then Some(t) else None)
             else if HoldsQueueLock(pc) then s.queueLock == None && s'.queueLock == Some(t)
             else s'.queueLock == s.queueLock
    ensures Inv(s', initial)
  {
    MoveInLine(s, s', t, pc);
    forall u | u in s'.pcs ensures PcRight(s', s'.pcs[u]) {
      assert u != t ==> PcRight(s, s.pcs[u]);
      if pc == Blocked && u != t {
        assert !HoldsQueueLock(s.pcs[u]);
      }
    }
  }

  lemma SwapKeepsInv(s: State, initial: int, t: ThreadId, spurious: bool)
    requires Inv(s, initial) && Enabled(s, t, Swap(spurious))
    ensures Inv(DoSwap(s, t, spurious), initial)
  {
    var s' := DoSwap(s, t, spurious);
    var pc := s'.pcs[t];
    assert PcRight(s, s.pcs[t]);
    if s.count == s.pcs[t].seen && !spurious {
      MoveInLine(s, s', t, pc);
      forall u | u in s'.pcs ensures PcRight(s', s'.pcs[u]) {
        assert u != t ==> PcRight(s, s.pcs[u]);
      }
    } else {
      QuietKeepsInv(s, s', initial, t, pc);
    }
  }

  lemma LookKeepsInv(s: State, initial: int, t: ThreadId)
    requires Inv(s, initial) && Enabled(s, t, Look)
    ensures Inv(DoLook(s, t), initial)
  {
    QuietKeepsInv(s, DoLook(s, t), initial, t, DoLook(s, t).pcs[t]);
  }

  lemma SubtractKeepsInv(s: State, initial: int, t: ThreadId)
    requires Inv(s, initial) && Enabled(s, t, Subtract)
    ensures Inv(DoSubtract(s, t), initial)
  {
    var s' := DoSubtract(s, t);
    MoveInLine(s, s', t, s'.pcs[t]);
    forall u | u in s'.pcs ensures PcRight(s', s'.pcs[u]) {
      assert u != t ==> PcRight(s, s.pcs[u]) && !HoldsQueueLock(s.pcs[u]);
    }
  }

  /** The poster's own writes to the count, all made under the queue lock. */
  lemma WriteKeepsInv(s: State, initial: int, t: ThreadId, a: Action)
    requires Inv(s, initial) && Enabled(s, t, a) && (a.Add? || a.Reset? || a.Zero?)
    ensures Inv(Do(s, t, a), initial)
  {
    var s' := Do(s, t, a);
    assert PcRight(s, s.pcs[t]);
    if a.Add? {
      MoveInLine(s, s', t, PostUnlock);
    } else {
      EmptyLine(s, t);
      WhereUpdate(s.pcs, t, PostUnlock, InLine);
    }
    forall u | u in s'.pcs ensures PcRight(s', s'.pcs[u]) {
      assert u != t ==> PcRight(s, s.pcs[u]) && !HoldsQueueLock(s.pcs[u]);
    }
  }

  lemma WakeKeepsInv(s: State, initial: int, t: ThreadId, x: ThreadId)
    requires Inv(s, initial) && Enabled(s, t, WakeOne(x))
    ensures Inv(DoWakeOne(s, t, x), initial)
  {
    var s' := DoWakeOne(s, t, x);
    var s1 := Go(s.(posts := s.posts + 1, waits := s.waits + 1), x, Idle);
    MoveInLine(s, s1, x, Idle);
    MoveInLine(s1, s', t, s'.pcs[t]);
    forall u | u in s'.pcs ensures PcRight(s', s'.pcs[u]) {
      assert PcRight(s, s.pcs[u]);
      assert u != t ==> !HoldsQueueLock(s.pcs[u]);
    }
  }

  lemma StepKeepsInv(s: State, initial: int, t: ThreadId, a: Action)
    requires Inv(s, initial) && Enabled(s, t, a)
    ensures Inv(Do(s, t, a), initial)
  {
    match a
    case Swap(spurious) => SwapKeepsInv(s, initial, t, spurious);
    case Look => LookKeepsInv(s, initial, t);
    case Subtract => SubtractKeepsInv(s, initial, t);
    case Add => WriteKeepsInv(s, initial, t, a);
    case Reset => WriteKeepsInv(s, initial, t, a);
    case Zero => WriteKeepsInv(s, initial, t, a);
    case WakeOne(x) => WakeKeepsInv(s, initial, t, x);
    case _ =>
      QuietKeepsInv(s, Do(s, t, a), initial, t, Do(s, t, a).pcs[t]);
  }

  // ---------- every run ----------

  /** A run: any interleaving of the threads' steps. */
  ghost predicate IsRun(run: seq<State>) {
    && |run| > 0 && Init(run[0])
    && forall i | 0 <= i < |run| - 1 :: exists t, a :: Enabled(run[i], t, a) && run[i + 1] == Do(run[i], t, a)
  }

  lemma {:induction false} RunInv(run: seq<State>, n: nat)
    requires IsRun(run) && n < |run|
    ensures Inv(run[n], run[0].count)
  {
    if n == 0 {
      InitInv(run[0]);
    } else {
      hide Inv;
      RunInv(run, n - 1);
      var t, a :| Enabled(run[n - 1], t, a) && run[n] == Do(run[n - 1], t, a);
      StepKeepsInv(run[n - 1], run[0].count, t, a);
    }
  }

  /** Conservation at every point of every run, failed waits included. */
  lemma Conservation(run: seq<State>, n: nat)
    requires IsRun(run) && n < |run|
    ensures Positive(run[0].count) + run[n].posts == run[n].waits + Positive(run[n].count)
  {
    RunInv(run, n);
  }

  /** The queue is never longer than the count is negative; a sleeper keeps the fast path of Post shut. */
  lemma QueueBounded(run: seq<State>, n: nat)
    requires IsRun(run) && n < |run|
    ensures |Where(run[n].pcs, Asleep)| <= Positive(-run[n].count)
    ensures !NobodySleeps(run[n]) ==> run[n].count < 0
  {
    RunInv(run, n);
    var s := run[n];
    SubsetSmaller(Where(s.pcs, Asleep), Where(s.pcs, InLine));
    if !NobodySleeps(s) {
      var u :| u in s.pcs && s.pcs[u] == Blocked;
      WhereNonempty(s.pcs, u, InLine);
    }
  }

  lemma {:induction false} SubsetSmaller<X>(a: set<X>, b: set<X>)
    requires a <= b
    ensures |a| <= |b|
  {
    assert b == a + (b - a);
  }

  /** A post that finds the count negative and somebody asleep wakes exactly one thread or has to retry. */
  lemma PostNeverPassesSleepers(run: seq<State>, n: nat, t: ThreadId)
    requires IsRun(run) && n < |run| && Enabled(run[n], t, Look) && !NobodySleeps(run[n])
    ensures Do(run[n], t, Look).pcs[t] == PostWake
  {
    QueueBounded(run, n);
  }
}
