/**
 The kernel mutex as a state machine: every atomic operation on val_ is one step of
 one thread, and the wait queue's lock is a lock of its own.
 */
module Mutex {
  import opened Basics

  /** val_: the holder's address with the contested flag in its lowest bit. */
  datatype Val = Val(owner: Option<ThreadId>, contested: bool)

  const FREE := Val(None, false)

  datatype Pc =
    | Idle
    // AcquireCommon and AcquireContendedMutex
    | Spin
    | Slow                                  // about to take the queue lock
    | Locked                                // holds it, about to look at val_
    | Loaded                                // saw the contested flag clear
    | Claiming                              // set the flag on a free mutex
    | Unlocking                             // stored itself as the owner, still holds the queue lock
    | Parking(seen: Option<ThreadId>)       // saw an owner, about to block behind it
    | Blocked
    | Held                                  // returned from Acquire
    // TryRelease and ReleaseContendedMutex
    | Releasing(observed: Val)
    | ReleaseLocked(observed: Val, wakeMe: Option<ThreadId>)
    | Handing(to: ThreadId)                 // ownership is recorded, the thread is not yet woken
    | ReleaseUnlock
    | Panicked

  datatype State = State(pcs: map<ThreadId, Pc>, val: Val, queueLock: Option<ThreadId>)

  datatype Action =
    | FastAcquire(spurious: bool) | SpinAcquire(spurious: bool) | StopSpinning
    | TakeQueueLock | Load | FetchOr | Store
    | BackOff | Block
    | TryRelease | LockForWake(wakeMe: Option<ThreadId>) | ReleaseSwap | Wake
    | DropQueueLock

  function Go(s: State, t: ThreadId, pc: Pc): State {
    s.(pcs := s.pcs[t := pc])
  }

  /** The weak compare-and-swap of the acquire paths, which may fail for no reason. */
  function Swap(s: State, t: ThreadId, spurious: bool): State {
    if s.val == FREE && !spurious then Go(s.(val := Val(Some(t), false)), t, Held) else Go(s, t, Spin)
  }

  predicate Waiting(s: State, t: ThreadId) {
    t in s.pcs && s.pcs[t] == Blocked
  }

  predicate NobodyWaits(s: State) {
    forall u :: u in s.pcs ==> s.pcs[u] != Blocked
  }

  predicate OthersWait(s: State, x: ThreadId) {
    exists u :: u in s.pcs && s.pcs[u] == Blocked && u != x
  }

  predicate Enabled(s: State, t: ThreadId, a: Action) {
    t in s.pcs &&
    var pc := s.pcs[t];
    match a
    case FastAcquire(_) => pc.Idle?
    case SpinAcquire(_) => pc.Spin?
    case StopSpinning => pc.Spin?
    case TakeQueueLock => pc.Slow? && s.queueLock == None
    case Load => pc.Locked?
    case FetchOr => pc.Loaded?
    case Store => pc.Claiming?
    case BackOff => pc.Parking?
    case Block => pc.Parking?
    case TryRelease => pc.Held?
    case LockForWake(x) =>
      pc.Releasing? && s.queueLock == None &&
      (match x case Some(u) => Waiting(s, u) case None => NobodyWaits(s))
    case ReleaseSwap => pc.ReleaseLocked?
    case Wake => pc.Handing?
    case DropQueueLock => pc.Unlocking? || pc.ReleaseUnlock?
  }

  function DoFetchOr(s: State, t: ThreadId): State {
    Go(s.(val := s.val.(contested := true)), t, if s.val == FREE then Claiming else Parking(s.val.owner))
  }

  function DoTryRelease(s: State, t: ThreadId): State {
    if s.val == Val(Some(t), false) then Go(s.(val := FREE), t, Idle) else Go(s, t, Releasing(s.val))
  }

  function DoReleaseSwap(s: State, t: ThreadId): State
    requires t in s.pcs && s.pcs[t].ReleaseLocked?
  {
    var ReleaseLocked(observed, wakeMe) := s.pcs[t];
    if observed != Val(Some(t), true) || s.val != observed then Go(s, t, Panicked)
    else match wakeMe
      case Some(x) => Go(s.(val := Val(Some(x), OthersWait(s, x))), t, Handing(x))
      case None => Go(s.(val := FREE), t, ReleaseUnlock)
  }

  function Do(s: State, t: ThreadId, a: Action): State
    requires Enabled(s, t, a)
  {
    match a
    case FastAcquire(spurious) => Swap(s, t, spurious)
    case SpinAcquire(spurious) => Swap(s, t, spurious)
    case StopSpinning => Go(s, t, Slow)
    case TakeQueueLock => Go(s.(queueLock := Some(t)), t, Locked)
    case Load => Go(s, t, if s.val.contested then Parking(s.val.owner) else Loaded)
    case FetchOr => DoFetchOr(s, t)
    case Store => Go(s.(val := Val(Some(t), false)), t, Unlocking)
    case BackOff => Go(s.(queueLock := None), t, Slow)
    case Block => Go(s.(queueLock := None), t, Blocked)
    case TryRelease => DoTryRelease(s, t)
    case LockForWake(x) => Go(s.(queueLock := Some(t)), t, ReleaseLocked(s.pcs[t].observed, x))
    case ReleaseSwap => DoReleaseSwap(s, t)
    case Wake => Go(Go(s, s.pcs[t].to, Held), t, ReleaseUnlock)
    case DropQueueLock => Go(s.(queueLock := None), t, if s.pcs[t] == Unlocking then Held else Idle)
  }

  predicate Init(s: State) {
    (forall t :: t in s.pcs ==> s.pcs[t] == Idle) && s.val == FREE && s.queueLock == None
  }

  // ---------- the invariant ----------

  predicate HoldsQueueLock(pc: Pc) {
    pc.Locked? || pc.Loaded? || pc.Claiming? || pc.Unlocking? || pc.Parking? || pc.ReleaseLocked? || pc.Handing?
    || pc.ReleaseUnlock?
  }

  /** Between a successful acquire and the step that gives the mutex up. */
  predicate Owns(pc: Pc) {
    pc.Held? || pc.Unlocking? || pc.Releasing? || pc.ReleaseLocked?
  }

  predicate LockHeldRight(s: State) {
    forall t :: t in s.pcs ==> (HoldsQueueLock(s.pcs[t]) <==> s.queueLock == Some(t))
  }

  /** The thread ownership has been handed to while it is still asleep. */
  predicate HandedTo(s: State, x: ThreadId) {
    exists u :: u in s.pcs && s.pcs[u] == Handing(x)
  }

  /** val_ names exactly the thread that owns the mutex. */
  predicate OwnerRight(s: State) {
    && (forall t :: t in s.pcs && Owns(s.pcs[t]) ==> s.val.owner == Some(t))
    && (s.val.owner.Some? ==>
          && s.val.owner.value in s.pcs
          && (Owns(s.pcs[s.val.owner.value]) || (Waiting(s, s.val.owner.value) && HandedTo(s, s.val.owner.value))))
  }

  /** What a thread at this point may count on. */
  predicate PcRight(s: State, t: ThreadId, pc: Pc) {
    match pc
    case Loaded => !s.val.contested
    case Claiming => s.val == Val(None, true) && NobodyWaits(s)
    case Parking(o) => o.Some? && s.val == Val(o, true)
    case Releasing(v) => v == Val(Some(t), true) && s.val == v
    case ReleaseLocked(v, x) =>
      && v == Val(Some(t), true) && s.val == v
      && (match x case Some(u) => Waiting(s, u) case None => NobodyWaits(s))
    case Handing(x) => Waiting(s, x) && s.val.owner == Some(x)
    case Panicked => false
    case _ => true
  }

  predicate PcsRight(s: State) {
    forall t :: t in s.pcs ==> PcRight(s, t, s.pcs[t])
  }

  /** Sleepers keep the contested flag up, so that the owner cannot leave without waking one. */
  predicate FlagRight(s: State) {
    && (forall t :: t in s.pcs && s.pcs[t] == Blocked && s.val.owner != Some(t) ==>
          s.val.contested && s.val.owner.Some?)
    && (s.val.contested ==> s.val.owner.Some? || exists t :: t in s.pcs && s.pcs[t] == Claiming)
  }

  predicate Inv(s: State) {
    LockHeldRight(s) && OwnerRight(s) && PcsRight(s) && FlagRight(s)
  }

  // ---------- every step keeps it ----------

  lemma SwapSucceeds(s: State, t: ThreadId)
    requires Inv(s) && t in s.pcs && (s.pcs[t] == Idle || s.pcs[t] == Spin) && s.val == FREE
    ensures Inv(Go(s.(val := Val(Some(t), false)), t, Held))
  {
    assert NobodyWaits(s);
  }

  /** Nobody can tell these points apart: no lock, no claim, no count on anything. */
  predicate Outside(pc: Pc) {
    pc.Idle? || pc.Spin? || pc.Slow?
  }

  lemma OutsideKeepsOwner(s: State, t: ThreadId, pc: Pc)
    requires OwnerRight(s) && FlagRight(s) && t in s.pcs && Outside(s.pcs[t]) && Outside(pc)
    ensures OwnerRight(Go(s, t, pc)) && FlagRight(Go(s, t, pc))
  {
    var s' := Go(s, t, pc);
    if s.val.owner.Some? && HandedTo(s, s.val.owner.value) {
      var v :| v in s.pcs && s.pcs[v] == Handing(s.val.owner.value);
      assert s'.pcs[v] == s.pcs[v];
    }
    if v :| v in s.pcs && s.pcs[v] == Claiming {
      assert s'.pcs[v] == Claiming;
    }
  }

  lemma OutsideKeepsInv(s: State, t: ThreadId, pc: Pc)
    requires Inv(s) && t in s.pcs && Outside(s.pcs[t]) && Outside(pc)
    ensures Inv(Go(s, t, pc))
  {
    OutsideKeepsOwner(s, t, pc);
    hide OwnerRight, FlagRight;
    var s' := Go(s, t, pc);
    forall u | u in s'.pcs ensures PcRight(s', u, s'.pcs[u]) {
      assert u != t ==> PcRight(s, u, s.pcs[u]);
    }
  }

  lemma AcquireKeepsInv(s: State, t: ThreadId, spurious: bool)
    requires Inv(s) && t in s.pcs && (s.pcs[t] == Idle || s.pcs[t] == Spin)
    ensures Inv(Swap(s, t, spurious))
  {
    hide Inv;
    if s.val == FREE && !spurious {
      SwapSucceeds(s, t);
    } else {
      OutsideKeepsInv(s, t, Spin);
    }
  }

  lemma TakeLockKeepsInv(s: State, t: ThreadId)
    requires Inv(s) && Enabled(s, t, TakeQueueLock)
    ensures Inv(Do(s, t, TakeQueueLock))
  {
  }

  lemma DropLockKeepsInv(s: State, t: ThreadId)
    requires Inv(s) && Enabled(s, t, DropQueueLock)
    ensures Inv(Do(s, t, DropQueueLock))
  {
  }

  lemma BackOffKeepsInv(s: State, t: ThreadId)
    requires Inv(s) && Enabled(s, t, BackOff)
    ensures Inv(Do(s, t, BackOff))
  {
  }

  lemma FetchOrKeepsInv(s: State, t: ThreadId)
    requires Inv(s) && Enabled(s, t, FetchOr)
    ensures Inv(DoFetchOr(s, t))
  {
  }

  lemma TryReleaseKeepsInv(s: State, t: ThreadId)
    requires Inv(s) && Enabled(s, t, TryRelease)
    ensures Inv(DoTryRelease(s, t))
  {
  }

  lemma ReleaseSwapKeepsInv(s: State, t: ThreadId)
    requires Inv(s) && Enabled(s, t, ReleaseSwap)
    ensures Inv(DoReleaseSwap(s, t))
  {
  }

  lemma WakeKeepsInv(s: State, t: ThreadId)
    requires Inv(s) && Enabled(s, t, Wake)
    ensures Inv(Do(s, t, Wake))
  {
  }

  lemma StoreKeepsInv(s: State, t: ThreadId)
    requires Inv(s) && Enabled(s, t, Store)
    ensures Inv(Do(s, t, Store))
  {
  }

  lemma BlockKeepsInv(s: State, t: ThreadId)
    requires Inv(s) && Enabled(s, t, Block)
    ensures Inv(Do(s, t, Block))
  {
  }

  lemma LoadKeepsInv(s: State, t: ThreadId)
    requires Inv(s) && Enabled(s, t, Load)
    ensures Inv(Do(s, t, Load))
  {
  }

  lemma LockForWakeKeepsInv(s: State, t: ThreadId, x: Option<ThreadId>)
    requires Inv(s) && Enabled(s, t, LockForWake(x))
    ensures Inv(Do(s, t, LockForWake(x)))
  {
  }

  lemma StepKeepsInv(s: State, t: ThreadId, a: Action)
    requires Inv(s) && Enabled(s, t, a)
    ensures Inv(Do(s, t, a))
  {
    hide Inv, Swap, DoFetchOr, DoTryRelease, DoReleaseSwap;
    match a
    case FastAcquire(spurious) => AcquireKeepsInv(s, t, spurious);
    case SpinAcquire(spurious) => AcquireKeepsInv(s, t, spurious);
    case StopSpinning => OutsideKeepsInv(s, t, Slow);
    case TakeQueueLock => TakeLockKeepsInv(s, t);
    case Load => LoadKeepsInv(s, t);
    case FetchOr => FetchOrKeepsInv(s, t);
    case Store => StoreKeepsInv(s, t);
    case BackOff => BackOffKeepsInv(s, t);
    case Block => BlockKeepsInv(s, t);
    case TryRelease => TryReleaseKeepsInv(s, t);
    case LockForWake(x) => LockForWakeKeepsInv(s, t, x);
    case ReleaseSwap => ReleaseSwapKeepsInv(s, t);
    case Wake => WakeKeepsInv(s, t);
    case DropQueueLock => DropLockKeepsInv(s, t);
  }

  // ---------- every run ----------

  /** Some thread takes a step from s to s'. */
  ghost predicate Follows(s: State, s': State) {
    exists t, a :: Enabled(s, t, a) && s' == Do(s, t, a)
  }

  /** A run: any interleaving of the threads' steps. */
  ghost predicate IsRun(run: seq<State>) {
    && |run| > 0 && Init(run[0])
    && forall i | 0 <= i < |run| - 1 :: Follows(run[i], run[i + 1])
  }

  lemma {:induction false} RunInv(run: seq<State>, n: nat)
    requires IsRun(run) && n < |run|
    ensures Inv(run[n])
  {
    if n > 0 {
      hide Inv;
      RunInv(run, n - 1);
      assert Follows(run[n - 1], run[n - 1 + 1]);
      var t, a :| Enabled(run[n - 1], t, a) && run[n] == Do(run[n - 1], t, a);
      StepKeepsInv(run[n - 1], t, a);
    }
  }

  /** Never two owners, and val_ names the one there is. */
  lemma Exclusion(run: seq<State>, n: nat, t: ThreadId, u: ThreadId)
    requires IsRun(run) && n < |run| && t in run[n].pcs && u in run[n].pcs
    requires Owns(run[n].pcs[t]) && Owns(run[n].pcs[u])
    ensures t == u && run[n].val.owner == Some(t)
  {
    RunInv(run, n);
  }

  /**
   While the queue lock is free, a sleeper implies the contested flag and a recorded
   owner that is awake, so that owner's uncontended release must fail.
   */
  lemma SleepersAreAttended(run: seq<State>, n: nat, t: ThreadId)
    requires IsRun(run) && n < |run| && Waiting(run[n], t) && run[n].queueLock == None
    ensures run[n].val.contested && run[n].val.owner.Some?
    ensures var o := run[n].val.owner.value; o in run[n].pcs && o != t && Owns(run[n].pcs[o])
  {
    RunInv(run, n);
    var s := run[n];
    forall x ensures !HandedTo(s, x) {}
  }

  /** A sleeper is woken only once it is the recorded owner, and by a thread that no longer is. */
  lemma WokenIsOwner(run: seq<State>, n: nat, t: ThreadId)
    requires IsRun(run) && n < |run| && Enabled(run[n], t, Wake)
    ensures run[n].val.owner == Some(run[n].pcs[t].to) && Waiting(run[n], run[n].pcs[t].to)
    ensures Do(run[n], t, Wake).pcs[run[n].pcs[t].to] == Held && !Owns(Do(run[n], t, Wake).pcs[t])
  {
    RunInv(run, n);
  }

  /** Neither the consistency check nor the final compare-and-swap of a contended release ever fails. */
  lemma NeverPanics(run: seq<State>, n: nat, t: ThreadId)
    requires IsRun(run) && n < |run| && t in run[n].pcs
    ensures run[n].pcs[t] != Panicked
  {
    RunInv(run, n);
  }
}
