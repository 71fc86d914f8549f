/**
 The blocking reader/writer lock as a state machine: every atomic read-modify-write,
 compare-and-swap, load or store on the state word is one step of one thread, and
 the wait queue's lock is a lock of its own.
 */
module BrwLock {
  import opened Basics
  import opened Counting

  datatype Waker = ByReader | ByWriter | ByReleaser

  /** Where a thread stands in the code, as far as the lock can tell. */
  datatype Pc =
    | Idle
    | Reading                        // returned from ReadAcquire
    // ContendedReadAcquire
    | ReadSpin | ReadSlow            // the optimistic count is in place
    | ReadLocked
    | ReadConfirm                    // a waiter for the moment, about to become a reader
    | ReadGranted
    | ReadBlocking | ReadBlocked | ReadUndo
    | ReadRetry | ReadUnlock
    // ContendedWriteAcquire
    | WriteSpin | WriteSlow | WriteLocked
    | WriteBlocking | WriteBlocked | WriteAbandon | WriteUnlock
    | Claim | Claimed | WriteGranted
    | Writing                        // returned from WriteAcquire or ReadUpgrade
    | WriteReleasing
    // ContendedReadUpgrade
    | UpgradeSlow | UpgradeLocked | UpgradeBlocking | UpgradeUnlock
    // ReleaseWakeup and TryWake
    | Releasing | ReleaseLocked | ReleaseRetry | ReleaseDone
    | Waking(who: Waker) | Storing(who: Waker, target: ThreadId)

  // Which field of the state word a thread is counted in, if any.

  predicate IsReader(pc: Pc) {
    pc.Reading? || pc.ReadSpin? || pc.ReadSlow? || pc.ReadLocked? || pc.ReadGranted? || pc.ReadUnlock?
    || pc.UpgradeSlow? || pc.UpgradeLocked? || pc.UpgradeUnlock?
  }

  predicate IsWaiter(pc: Pc) {
    pc.ReadConfirm? || pc.ReadBlocking? || pc.ReadBlocked? || pc.ReadUndo? || pc.ReadRetry?
    || pc.WriteBlocking? || pc.WriteBlocked? || pc.WriteAbandon? || pc.Claim? || pc.Claimed? || pc.UpgradeBlocking?
    || ((pc.Waking? || pc.Storing?) && pc.who != ByReleaser)
  }

  predicate IsWriter(pc: Pc) {
    pc.WriteGranted? || pc.Writing? || pc.WriteReleasing?
  }

  /** Read access has been granted, not just hoped for. */
  predicate HoldsRead(pc: Pc) {
    pc.Reading? || pc.ReadGranted? || pc.UpgradeSlow? || pc.UpgradeLocked? || pc.UpgradeUnlock?
  }

  predicate InQueue(pc: Pc) {
    pc.ReadBlocked? || pc.WriteBlocked?
  }

  predicate HoldsQueueLock(pc: Pc) {
    pc.ReadLocked? || pc.ReadConfirm? || pc.ReadGranted? || pc.ReadBlocking? || pc.ReadRetry? || pc.ReadUnlock?
    || pc.WriteLocked? || pc.WriteBlocking? || pc.WriteAbandon? || pc.WriteUnlock?
    || pc.Claim? || pc.Claimed? || pc.WriteGranted?
    || pc.UpgradeLocked? || pc.UpgradeBlocking? || pc.UpgradeUnlock?
    || pc.ReleaseLocked? || pc.ReleaseRetry? || pc.ReleaseDone? || pc.Waking? || pc.Storing?
  }

  /** The state word (writer bit, readers, waiters), the writer_ pointer and the queue lock. */
  datatype State = State(
    pcs: map<ThreadId, Pc>,
    writer: int, readers: int, waiters: int,
    ptr: Option<ThreadId>,
    queueLock: Option<ThreadId>)

  function Go(s: State, t: ThreadId, pc: Pc): State {
    s.(pcs := s.pcs[t := pc])
  }

  datatype Action =
    | ReadAcquire | WriteAcquire
    | Spin(timeout: bool)
    | TakeQueueLock | DropQueueLock
    | Mark
    | Block | FailToBlock
    | Restore
    | WakeNobody | WakeReaders(woken: set<ThreadId>) | PickWriter(x: ThreadId) | GrantWriter
    | StorePointer | ClaimWord
    | ReadRelease | ClearPointer | ReleaseWord
    | ReadUpgrade

  // ---------- one function per kind of step ----------

  /** The inline fast path of ReadAcquire: count first, then look at what was there. */
  function DoReadAcquire(s: State, t: ThreadId): State {
    Go(s.(readers := s.readers + 1), t, if s.writer == 0 && s.waiters == 0 then Reading else ReadSpin)
  }

  /** AtomicWriteAcquire: one double-word compare-and-swap of the state word and the writer pointer. */
  function CompareAndSwap(s: State, t: ThreadId, readers: nat, otherwise: Pc): State {
    if s.writer == 0 && s.readers == readers && s.waiters == 0 && s.ptr == None
    then Go(s.(writer := 1, readers := 0, ptr := Some(t)), t, Writing)
    else Go(s, t, otherwise)
  }

  function DoReadSpin(s: State, t: ThreadId, timeout: bool): State {
    Go(s, t,
       if s.waiters > 0 then ReadSlow
       else if s.writer == 0 then Reading
       else if timeout then ReadSlow else ReadSpin)
  }

  function DoWriteSpin(s: State, t: ThreadId, timeout: bool): State {
    CompareAndSwap(s, t, 0, if s.waiters > 0 || timeout then WriteSlow else WriteSpin)
  }

  function Locked(pc: Pc): Pc {
    match pc
    case ReadSlow => ReadLocked
    case WriteSlow => WriteLocked
    case UpgradeSlow => UpgradeLocked
    case _ => ReleaseLocked
  }

  function Unlocked(pc: Pc): Pc {
    match pc
    case ReadGranted => Reading
    case ReadUnlock => ReadSlow
    case WriteGranted => Writing
    case WriteUnlock => WriteSlow
    case UpgradeUnlock => UpgradeSlow
    case ReleaseRetry => Releasing
    case _ => Idle
  }

  /** The first look at the state word under the queue lock; all but the releaser trade in a count. */
  function DoMark(s: State, t: ThreadId): State
    requires t in s.pcs
  {
    match s.pcs[t]
    case ReadLocked =>
      Go(s.(readers := s.readers - 1, waiters := s.waiters + 1), t,
         if s.writer > 0 then ReadBlocking
         else if s.waiters == 0 then ReadConfirm
         else if s.readers == 1 then Waking(ByReader)
         else ReadBlocking)
    case WriteLocked =>
      Go(s.(waiters := s.waiters + 1), t,
         if s.writer > 0 || s.readers > 0 then WriteBlocking
         else if s.waiters == 0 then Claim
         else Waking(ByWriter))
    case UpgradeLocked =>
      Go(s.(readers := s.readers - 1, waiters := s.waiters + 1), t,
         if s.writer == 0 && s.readers == 1 then Claim else UpgradeBlocking)
    case _ =>
      Go(s, t, if s.waiters > 0 && s.writer == 0 && s.readers == 0 then Waking(ByReleaser) else ReleaseDone)
  }

  function DoBlock(s: State, t: ThreadId): State
    requires t in s.pcs
  {
    Go(s.(queueLock := None), t, if s.pcs[t] == ReadBlocking then ReadBlocked else WriteBlocked)
  }

  /** Only the reader's failed attempt lets go of the queue lock before it takes its count back. */
  function DoFailToBlock(s: State, t: ThreadId): State
    requires t in s.pcs
  {
    match s.pcs[t]
    case ReadBlocking => Go(s.(queueLock := None), t, ReadUndo)
    case WriteBlocking => Go(s, t, WriteAbandon)
    case _ => Go(s.(readers := s.readers + 1, waiters := s.waiters - 1), t, UpgradeUnlock)
  }

  /** A speculative waiter count is traded back. */
  function DoRestore(s: State, t: ThreadId): State
    requires t in s.pcs
  {
    match s.pcs[t]
    case ReadConfirm => Go(s.(readers := s.readers + 1, waiters := s.waiters - 1), t, ReadGranted)
    case ReadUndo => Go(s.(readers := s.readers + 1, waiters := s.waiters - 1), t, ReadSlow)
    case ReadRetry => Go(s.(readers := s.readers + 1, waiters := s.waiters - 1), t, ReadUnlock)
    case _ => Go(s.(waiters := s.waiters - 1), t, WriteUnlock)
  }

  function AfterFailedWake(who: Waker): Pc {
    match who case ByReader => ReadRetry case ByWriter => WriteAbandon case ByReleaser => ReleaseRetry
  }

  function AfterWake(who: Waker, wokeReaders: bool): Pc {
    match who
    case ByReader => if wokeReaders then ReadConfirm else ReadRetry
    case ByWriter => WriteBlocking
    case ByReleaser => ReleaseDone
  }

  function Woken(pcs: map<ThreadId, Pc>, woken: set<ThreadId>): map<ThreadId, Pc> {
    map u | u in pcs :: if u in woken then Reading else pcs[u]
  }

  function DoWakeReaders(s: State, t: ThreadId, woken: set<ThreadId>): State
    requires t in s.pcs && s.pcs[t].Waking?
  {
    Go(s.(pcs := Woken(s.pcs, woken), readers := s.readers + |woken|, waiters := s.waiters - |woken|),
       t, AfterWake(s.pcs[t].who, true))
  }

  function DoGrantWriter(s: State, t: ThreadId): State
    requires t in s.pcs && s.pcs[t].Storing?
  {
    var Storing(who, x) := s.pcs[t];
    Go(Go(s.(writer := s.writer + 1, waiters := s.waiters - 1), x, Writing), t, AfterWake(who, false))
  }

  /** The inline ReadRelease: the last reader out wakes whoever waits. */
  function DoReadRelease(s: State, t: ThreadId): State {
    Go(s.(readers := s.readers - 1), t, if s.readers == 1 && s.waiters > 0 then Releasing else Idle)
  }

  function DoReleaseWord(s: State, t: ThreadId): State {
    Go(s.(writer := s.writer - 1), t, if s.waiters > 0 then Releasing else Idle)
  }

  // ---------- the state machine ----------

  /** The step t takes by doing a, if it is at a point where it can. */
  predicate Enabled(s: State, t: ThreadId, a: Action) {
    t in s.pcs &&
    var pc := s.pcs[t];
    match a
    case ReadAcquire => pc.Idle?
    case WriteAcquire => pc.Idle?
    case Spin(_) => pc.ReadSpin? || pc.WriteSpin?
    case TakeQueueLock => s.queueLock == None && (pc.ReadSlow? || pc.WriteSlow? || pc.UpgradeSlow? || pc.Releasing?)
    case DropQueueLock =>
      pc.ReadGranted? || pc.ReadUnlock? || pc.WriteGranted? || pc.WriteUnlock? || pc.UpgradeUnlock?
      || pc.ReleaseRetry? || pc.ReleaseDone?
    case Mark => pc.ReadLocked? || pc.WriteLocked? || pc.UpgradeLocked? || pc.ReleaseLocked?
    case Block => pc.ReadBlocking? || pc.WriteBlocking? || pc.UpgradeBlocking?
    case FailToBlock => pc.ReadBlocking? || pc.WriteBlocking? || pc.UpgradeBlocking?
    case Restore => pc.ReadConfirm? || pc.ReadUndo? || pc.ReadRetry? || pc.WriteAbandon?
    case WakeNobody => pc.Waking?
    case WakeReaders(woken) =>
      pc.Waking? && woken != {} && forall u :: u in woken ==> u in s.pcs && s.pcs[u].ReadBlocked?
    case PickWriter(x) => pc.Waking? && x in s.pcs && s.pcs[x].WriteBlocked?
    case GrantWriter => pc.Storing?
    case StorePointer => pc.Claim?
    case ClaimWord => pc.Claimed?
    case ReadRelease => pc.Reading?
    case ClearPointer => pc.Writing?
    case ReleaseWord => pc.WriteReleasing?
    case ReadUpgrade => pc.Reading?
  }

  function Do(s: State, t: ThreadId, a: Action): State
    requires Enabled(s, t, a)
  {
    match a
    case ReadAcquire => DoReadAcquire(s, t)
    case WriteAcquire => CompareAndSwap(s, t, 0, WriteSpin)
    case Spin(timeout) => if s.pcs[t].ReadSpin? then DoReadSpin(s, t, timeout) else DoWriteSpin(s, t, timeout)
    case TakeQueueLock => Go(s.(queueLock := Some(t)), t, Locked(s.pcs[t]))
    case DropQueueLock => Go(s.(queueLock := None), t, Unlocked(s.pcs[t]))
    case Mark => DoMark(s, t)
    case Block => DoBlock(s, t)
    case FailToBlock => DoFailToBlock(s, t)
    case Restore => DoRestore(s, t)
    case WakeNobody => Go(s, t, AfterFailedWake(s.pcs[t].who))
    case WakeReaders(woken) => DoWakeReaders(s, t, woken)
    case PickWriter(x) => Go(s.(ptr := Some(x)), t, Storing(s.pcs[t].who, x))
    case GrantWriter => DoGrantWriter(s, t)
    case StorePointer => Go(s.(ptr := Some(t)), t, Claimed)
    case ClaimWord => Go(s.(writer := s.writer + 1, waiters := s.waiters - 1), t, WriteGranted)
    case ReadRelease => DoReadRelease(s, t)
    case ClearPointer => Go(s.(ptr := None), t, WriteReleasing)
    case ReleaseWord => DoReleaseWord(s, t)
    case ReadUpgrade => CompareAndSwap(s, t, 1, UpgradeSlow)
  }

  predicate Init(s: State) {
    && (forall t :: t in s.pcs ==> s.pcs[t] == Idle)
    && s.writer == 0 && s.readers == 0 && s.waiters == 0
    && s.ptr == None && s.queueLock == None
  }

  // ---------- the invariant ----------

  /** The fields of the state word are the numbers of threads in each role. */
  predicate Counted(s: State) {
    && s.writer == |Where(s.pcs, IsWriter)|
    && s.readers == |Where(s.pcs, IsReader)|
    && s.waiters == |Where(s.pcs, IsWaiter)|
  }

  predicate LockHeldRight(s: State) {
    forall t :: t in s.pcs ==> (HoldsQueueLock(s.pcs[t]) <==> s.queueLock == Some(t))
  }

  predicate NoReader(s: State) {
    forall t :: t in s.pcs ==> !HoldsRead(s.pcs[t])
  }

  predicate Queued(s: State) {
    exists t :: t in s.pcs && InQueue(s.pcs[t])
  }

  /** A thread at this point may hand out, or take, write access. */
  predicate Entitled(pc: Pc) {
    pc.Claim? || pc.Claimed? || pc.Storing? || (pc.Waking? && pc.who != ByReleaser)
  }

  /** A releaser may do so too, once it finds somebody in the queue. */
  predicate Probing(pc: Pc) {
    pc.Waking? && pc.who == ByReleaser
  }

  predicate Decides(s: State, pc: Pc) {
    Entitled(pc) || (Probing(pc) && Queued(s))
  }

  /** About to turn its waiter count into a granted read. */
  predicate Confirming(pc: Pc) {
    pc.ReadConfirm? || pc.UpgradeBlocking?
  }

  predicate Excluded(s: State) {
    && s.writer <= 1
    && (s.writer == 1 ==> NoReader(s))
    && (forall t :: t in s.pcs && Decides(s, s.pcs[t]) ==> s.writer == 0 && NoReader(s))
    && (forall t :: t in s.pcs && Confirming(s.pcs[t]) ==> s.writer == 0)
  }

  /** The thread the writer pointer must name while some thread is at this point. */
  function Names(t: ThreadId, pc: Pc): Option<ThreadId> {
    if pc.Writing? || pc.WriteGranted? || pc.Claimed? then Some(t)
    else if pc.Storing? then Some(pc.target)
    else None
  }

  predicate Pointed(s: State) {
    forall t :: t in s.pcs ==>
      && (Names(t, s.pcs[t]).Some? ==> s.ptr == Names(t, s.pcs[t]))
      && (s.pcs[t].Storing? ==> s.pcs[t].target in s.pcs && s.pcs[s.pcs[t].target] == WriteBlocked)
  }

  /** A thread that will still look at the queue, or make somebody else look, before it leaves. */
  predicate Active(pc: Pc) {
    !pc.Idle? && !InQueue(pc) && !pc.ReleaseDone? && !Parks(pc)
  }

  predicate Parks(pc: Pc) {
    pc.ReadBlocking? || pc.WriteBlocking? || pc.UpgradeBlocking?
  }

  predicate Attended(s: State) {
    (exists t :: t in s.pcs && (InQueue(s.pcs[t]) || Parks(s.pcs[t]))) ==> exists u :: u in s.pcs && Active(s.pcs[u])
  }

  predicate Inv(s: State) {
    Counted(s) && LockHeldRight(s) && Excluded(s) && Pointed(s) && Attended(s)
  }

  // ---------- counting ----------

  /** A step that moves one thread and adjusts the word by the difference keeps the count. */
  lemma MoveKeepsCount(s: State, s': State, t: ThreadId, pc: Pc)
    requires Counted(s) && t in s.pcs && s'.pcs == s.pcs[t := pc]
    requires s'.writer == s.writer - One(IsWriter(s.pcs[t])) + One(IsWriter(pc))
    requires s'.readers == s.readers - One(IsReader(s.pcs[t])) + One(IsReader(pc))
    requires s'.waiters == s.waiters - One(IsWaiter(s.pcs[t])) + One(IsWaiter(pc))
    ensures Counted(s')
  {
    hide IsWriter, IsReader, IsWaiter;
    WhereUpdate(s.pcs, t, pc, IsWriter);
    WhereUpdate(s.pcs, t, pc, IsReader);
    WhereUpdate(s.pcs, t, pc, IsWaiter);
  }

  lemma HasRole(s: State, t: ThreadId)
    requires t in s.pcs && Counted(s)
    ensures s.writer >= 0 && s.readers >= 0 && s.waiters >= 0
    ensures IsReader(s.pcs[t]) ==> s.readers > 0
    ensures IsWaiter(s.pcs[t]) ==> s.waiters > 0
    ensures IsWriter(s.pcs[t]) ==> s.writer > 0
  {
    hide IsWriter, IsReader, IsWaiter;
    if IsReader(s.pcs[t]) { WhereNonempty(s.pcs, t, IsReader); }
    if IsWaiter(s.pcs[t]) { WhereNonempty(s.pcs, t, IsWaiter); }
    if IsWriter(s.pcs[t]) { WhereNonempty(s.pcs, t, IsWriter); }
  }

  // ---------- one thread moves ----------

  predicate Moves(s: State, s': State, t: ThreadId, pc: Pc) {
    t in s.pcs && s'.pcs == s.pcs[t := pc]
  }

  lemma MoveKeepsLock(s: State, s': State, t: ThreadId, pc: Pc)
    requires LockHeldRight(s) && Moves(s, s', t, pc)
    requires if HoldsQueueLock(s.pcs[t]) then s'.queueLock == (if HoldsQueueLock(pc) then Some(t) else None)
             else if HoldsQueueLock(pc) then s.queueLock == None && s'.queueLock == Some(t)
             else s'.queueLock == s.queueLock
    ensures LockHeldRight(s')
  {
    hide HoldsQueueLock;
  }

  lemma SameQueue(s: State, s': State, t: ThreadId, pc: Pc)
    requires Moves(s, s', t, pc) && InQueue(pc) == InQueue(s.pcs[t])
    ensures Queued(s') == Queued(s)
  {
    hide InQueue;
    if Queued(s) {
      var u :| u in s.pcs && InQueue(s.pcs[u]);
      assert InQueue(s'.pcs[u]);
    }
  }

  predicate NoOtherReads(s: State, t: ThreadId) {
    forall u :: u in s.pcs && u != t ==> !HoldsRead(s.pcs[u])
  }

  /** t gains nothing it did not have and the queue stays as it is. */
  lemma QuietMove(s: State, s': State, t: ThreadId, pc: Pc)
    requires Excluded(s) && Moves(s, s', t, pc) && 0 <= s'.writer <= s.writer
    requires InQueue(pc) == InQueue(s.pcs[t]) && (HoldsRead(pc) ==> HoldsRead(s.pcs[t]))
    requires Decides(s, pc) ==> s'.writer == 0 && !HoldsRead(pc) && NoOtherReads(s, t)
    requires Confirming(pc) ==> s'.writer == 0
    ensures Excluded(s')
  {
    SameQueue(s, s', t, pc);
    hide InQueue, HoldsRead, Entitled, Probing, Confirming, Queued;
  }

  /** t is granted read access while nobody is about to hand out write access. */
  lemma ReadMove(s: State, s': State, t: ThreadId, pc: Pc)
    requires Excluded(s) && Moves(s, s', t, pc) && s.writer == 0 == s'.writer
    requires InQueue(pc) == InQueue(s.pcs[t]) && !Decides(s, pc)
    requires forall u :: u in s.pcs && u != t ==> !Decides(s, s.pcs[u])
    ensures Excluded(s')
  {
    SameQueue(s, s', t, pc);
    hide InQueue, HoldsRead, Entitled, Probing, Confirming, Queued;
  }

  /** t is granted write access while nobody else holds or is promised anything. */
  lemma WriteMove(s: State, s': State, t: ThreadId, pc: Pc)
    requires Excluded(s) && Moves(s, s', t, pc) && s'.writer == 1
    requires InQueue(pc) == InQueue(s.pcs[t]) && !Decides(s, pc) && !HoldsRead(pc) && !Confirming(pc)
    requires forall u :: u in s.pcs && u != t ==> !Decides(s, s.pcs[u]) && !HoldsRead(s.pcs[u]) && !Confirming(s.pcs[u])
    ensures Excluded(s')
  {
    SameQueue(s, s', t, pc);
    hide InQueue, HoldsRead, Entitled, Probing, Confirming, Queued;
  }

  /** t goes to sleep in the queue, holding its lock until then. */
  lemma QueueMove(s: State, s': State, t: ThreadId, pc: Pc)
    requires Excluded(s) && Moves(s, s', t, pc) && s'.writer == s.writer
    requires !HoldsRead(pc) && !Entitled(pc) && !Probing(pc) && !Confirming(pc)
    requires forall u :: u in s.pcs && u != t ==> !Entitled(s.pcs[u]) && !Probing(s.pcs[u])
    ensures Excluded(s')
  {
    hide InQueue, HoldsRead, Entitled, Probing, Confirming, Queued;
  }

  lemma MoveKeepsPointer(s: State, s': State, t: ThreadId, pc: Pc)
    requires Pointed(s) && Moves(s, s', t, pc) && s.pcs[t] != WriteBlocked
    requires s'.ptr == s.ptr || forall u :: u in s.pcs && u != t ==> Names(u, s.pcs[u]) == None
    requires Names(t, pc).Some? ==> s'.ptr == Names(t, pc)
    requires pc.Storing? ==> pc.target in s.pcs && pc.target != t && s.pcs[pc.target] == WriteBlocked
    ensures Pointed(s')
  {
    forall u | u in s'.pcs
      ensures Names(u, s'.pcs[u]).Some? ==> s'.ptr == Names(u, s'.pcs[u])
      ensures s'.pcs[u].Storing? ==> s'.pcs[u].target in s'.pcs && s'.pcs[s'.pcs[u].target] == WriteBlocked
    {
      assert u != t ==> s'.pcs[u] == s.pcs[u];
    }
  }

  /** Somebody else keeps an eye on the queue, or nobody needs it. */
  predicate OtherActive(s: State, t: ThreadId) {
    exists u :: u in s.pcs && u != t && Active(s.pcs[u])
  }

  lemma MoveKeepsAttended(s: State, s': State, t: ThreadId, pc: Pc)
    requires Attended(s) && Moves(s, s', t, pc)
    requires Active(pc) || OtherActive(s, t)
          || (!InQueue(pc) && !Parks(pc) && forall u :: u in s.pcs && u != t ==> !InQueue(s.pcs[u]) && !Parks(s.pcs[u]))
    ensures Attended(s')
  {
    hide Active, InQueue, Parks;
    if Active(pc) {
      assert s'.pcs[t] == pc;
    } else if OtherActive(s, t) {
      var u :| u in s.pcs && u != t && Active(s.pcs[u]);
      assert s'.pcs[u] == s.pcs[u];
    } else {
      assert forall u :: u in s'.pcs ==> u == t || s'.pcs[u] == s.pcs[u];
    }
  }

  // ---------- what an invariant state tells the thread that moves ----------

  lemma LockHolderAlone(s: State, t: ThreadId)
    requires LockHeldRight(s) && t in s.pcs && HoldsQueueLock(s.pcs[t])
    ensures s.queueLock == Some(t)
    ensures forall u :: u in s.pcs && u != t ==> !HoldsQueueLock(s.pcs[u]) && !Confirming(s.pcs[u]) && !Parks(s.pcs[u])
    ensures forall u :: u in s.pcs && u != t ==> !Decides(s, s.pcs[u]) && !Entitled(s.pcs[u]) && !Probing(s.pcs[u])
  {
  }

  lemma NoWaiterNoDecision(s: State)
    requires Counted(s) && Pointed(s) && s.waiters == 0
    ensures forall u :: u in s.pcs ==> !IsWaiter(s.pcs[u])
    ensures forall u :: u in s.pcs ==> !InQueue(s.pcs[u]) && !Parks(s.pcs[u])
    ensures forall u :: u in s.pcs ==> !Decides(s, s.pcs[u]) && !Confirming(s.pcs[u]) && !Entitled(s.pcs[u])
  {
    forall u | u in s.pcs ensures !IsWaiter(s.pcs[u]) && !InQueue(s.pcs[u]) {
      HasRole(s, u);
    }
    assert !Queued(s);
  }

  lemma NoOtherReader(s: State, t: ThreadId)
    requires Counted(s) && t in s.pcs && s.readers <= One(IsReader(s.pcs[t]))
    ensures NoOtherReads(s, t)
  {
    WhereAlone(s.pcs, t, IsReader);
  }

  lemma AnotherReader(s: State, t: ThreadId)
    requires Counted(s) && t in s.pcs && s.readers > One(IsReader(s.pcs[t]))
    ensures OtherActive(s, t)
  {
    WhereOther(s.pcs, t, IsReader);
    var u :| u in s.pcs && u != t && IsReader(s.pcs[u]);
    assert Active(s.pcs[u]);
  }

  lemma AnotherWriter(s: State, t: ThreadId)
    requires Counted(s) && t in s.pcs && s.writer > One(IsWriter(s.pcs[t]))
    ensures OtherActive(s, t)
  {
    WhereOther(s.pcs, t, IsWriter);
    var u :| u in s.pcs && u != t && IsWriter(s.pcs[u]);
    assert Active(s.pcs[u]);
  }

  /** The word and the queue lock change exactly as t's move says. */
  predicate Accounts(s: State, s': State, t: ThreadId, pc: Pc) {
    && Moves(s, s', t, pc)
    && s'.writer == s.writer - One(IsWriter(s.pcs[t])) + One(IsWriter(pc))
    && s'.readers == s.readers - One(IsReader(s.pcs[t])) + One(IsReader(pc))
    && s'.waiters == s.waiters - One(IsWaiter(s.pcs[t])) + One(IsWaiter(pc))
    && (if HoldsQueueLock(s.pcs[t]) then s'.queueLock == (if HoldsQueueLock(pc) then Some(t) else None)
        else if HoldsQueueLock(pc) then s.queueLock == None && s'.queueLock == Some(t)
        else s'.queueLock == s.queueLock)
  }

  /** Whoever stays behind need not worry about the queue, or somebody else does. */
  predicate Watched(s: State, t: ThreadId, pc: Pc) {
    || Active(pc)
    || OtherActive(s, t)
    || (!InQueue(pc) && !Parks(pc) && forall u :: u in s.pcs && u != t ==> !InQueue(s.pcs[u]) && !Parks(s.pcs[u]))
  }

  lemma Assemble(s: State, s': State, t: ThreadId, pc: Pc)
    requires Inv(s) && Accounts(s, s', t, pc) && Watched(s, t, pc)
    requires Excluded(s') && Pointed(s')
    ensures Inv(s')
  {
    MoveKeepsCount(s, s', t, pc);
    MoveKeepsLock(s, s', t, pc);
    MoveKeepsAttended(s, s', t, pc);
  }

  /** The common case: t neither gains access nor touches the writer pointer. */
  lemma QuietStep(s: State, s': State, t: ThreadId, pc: Pc)
    requires Inv(s) && Accounts(s, s', t, pc) && Watched(s, t, pc)
    requires s'.ptr == s.ptr && 0 <= s'.writer <= s.writer && Names(t, pc) in {None, Names(t, s.pcs[t])} && !pc.Storing?
    requires !InQueue(pc) && !InQueue(s.pcs[t]) && (HoldsRead(pc) ==> HoldsRead(s.pcs[t]))
    requires Decides(s, pc) ==> s'.writer == 0 && !HoldsRead(pc) && NoOtherReads(s, t)
    requires Confirming(pc) ==> s'.writer == 0
    ensures Inv(s')
  {
    QuietMove(s, s', t, pc);
    hide Counted, LockHeldRight, Excluded, Attended;
    MoveKeepsPointer(s, s', t, pc);
    Assemble(s, s', t, pc);
  }

  /** What the invariant says about the thread that is about to move. */
  lemma Facts(s: State, t: ThreadId)
    requires Inv(s) && t in s.pcs
    ensures 0 <= s.writer <= 1 && s.readers >= 0 && s.waiters >= 0
    ensures HoldsQueueLock(s.pcs[t]) <==> s.queueLock == Some(t)
    ensures HoldsRead(s.pcs[t]) || Confirming(s.pcs[t]) ==> s.writer == 0
    ensures Decides(s, s.pcs[t]) ==> s.writer == 0 && NoOtherReads(s, t)
    ensures IsReader(s.pcs[t]) ==> s.readers > 0
    ensures IsWaiter(s.pcs[t]) ==> s.waiters > 0
    ensures IsWriter(s.pcs[t]) ==> s.writer > 0
  {
    HasRole(s, t);
  }

  // ---------- one lemma per step ----------

  lemma MarkReadAccounts(s: State, t: ThreadId)
    requires t in s.pcs && s.pcs[t] == ReadLocked && s.queueLock == Some(t) && s.readers > 0
    ensures var s' := DoMark(s, t);
            && t in s'.pcs && Accounts(s, s', t, s'.pcs[t]) && s'.ptr == s.ptr && s'.writer == s.writer
            && ((s'.pcs[t] == ReadBlocking && (s.writer > 0 || s.readers > 1))
               || (s'.pcs[t] == ReadConfirm && s.writer <= 0)
               || (s'.pcs[t] == Waking(ByReader) && s.writer <= 0 && s.readers == 1))
  {
  }

  lemma MarkReadKeepsInv(s: State, t: ThreadId)
    requires Inv(s) && t in s.pcs && s.pcs[t] == ReadLocked
    ensures Inv(DoMark(s, t))
  {
    hide DoMark, Accounts, OtherActive, Excluded, Counted, LockHeldRight, Pointed, Attended, NoOtherReads;
    Facts(s, t);
    MarkReadAccounts(s, t);
    if s.readers == 1 { NoOtherReader(s, t); } else { AnotherReader(s, t); }
    if s.writer > 0 { AnotherWriter(s, t); }
    QuietStep(s, DoMark(s, t), t, DoMark(s, t).pcs[t]);
  }

  lemma MarkWriteAccounts(s: State, t: ThreadId)
    requires t in s.pcs && s.pcs[t] == WriteLocked && s.queueLock == Some(t) && s.readers >= 0
    ensures var s' := DoMark(s, t);
            && t in s'.pcs && Accounts(s, s', t, s'.pcs[t]) && s'.ptr == s.ptr && s'.writer == s.writer
            && ((s'.pcs[t] == WriteBlocking && (s.writer > 0 || s.readers > 0))
               || (s'.pcs[t] in {Claim, Waking(ByWriter)} && s.writer <= 0 && s.readers == 0))
  {
  }

  lemma MarkWriteKeepsInv(s: State, t: ThreadId)
    requires Inv(s) && t in s.pcs && s.pcs[t] == WriteLocked
    ensures Inv(DoMark(s, t))
  {
    hide DoMark, Accounts, OtherActive, Excluded, Counted, LockHeldRight, Pointed, Attended, NoOtherReads;
    Facts(s, t);
    MarkWriteAccounts(s, t);
    if s.readers == 0 { NoOtherReader(s, t); } else { AnotherReader(s, t); }
    if s.writer > 0 { AnotherWriter(s, t); }
    QuietStep(s, DoMark(s, t), t, DoMark(s, t).pcs[t]);
  }

  lemma MarkUpgradeAccounts(s: State, t: ThreadId)
    requires t in s.pcs && s.pcs[t] == UpgradeLocked && s.queueLock == Some(t) && s.readers > 0 && s.writer == 0
    ensures var s' := DoMark(s, t);
            && t in s'.pcs && Accounts(s, s', t, s'.pcs[t]) && s'.ptr == s.ptr && s'.writer == 0
            && s'.pcs[t] == if s.readers == 1 then Claim else UpgradeBlocking
  {
  }

  lemma MarkUpgradeKeepsInv(s: State, t: ThreadId)
    requires Inv(s) && t in s.pcs && s.pcs[t] == UpgradeLocked
    ensures Inv(DoMark(s, t))
  {
    hide DoMark, Accounts, OtherActive, Excluded, Counted, LockHeldRight, Pointed, Attended, NoOtherReads;
    Facts(s, t);
    MarkUpgradeAccounts(s, t);
    if s.readers == 1 { NoOtherReader(s, t); } else { AnotherReader(s, t); }
    QuietStep(s, DoMark(s, t), t, DoMark(s, t).pcs[t]);
  }

  lemma MarkReleaseAccounts(s: State, t: ThreadId)
    requires t in s.pcs && s.pcs[t] == ReleaseLocked && s.queueLock == Some(t)
    ensures var s' := DoMark(s, t);
            && t in s'.pcs && Accounts(s, s', t, s'.pcs[t]) && s'.ptr == s.ptr && s'.writer == s.writer
            && (s'.pcs[t] == Waking(ByReleaser) || s'.pcs[t] == ReleaseDone)
            && (s'.pcs[t] == Waking(ByReleaser) <==> s.waiters > 0 && s.writer == 0 && s.readers == 0)
  {
  }

  lemma MarkReleaseKeepsInv(s: State, t: ThreadId)
    requires Inv(s) && t in s.pcs && s.pcs[t] == ReleaseLocked
    ensures Inv(DoMark(s, t))
  {
    hide DoMark, Accounts, OtherActive, Excluded, Counted, LockHeldRight, Pointed, Attended, NoOtherReads;
    Facts(s, t);
    MarkReleaseAccounts(s, t);
    if s.readers == 0 { NoOtherReader(s, t); } else { AnotherReader(s, t); }
    if s.writer > 0 { AnotherWriter(s, t); }
    if s.waiters == 0 { NoWaiterNoDecision(s); }
    QuietStep(s, DoMark(s, t), t, DoMark(s, t).pcs[t]);
  }

  /** A step whose outcome is pc and that leaves the writer pointer alone. */
  predicate Lands(s: State, s': State, t: ThreadId, pc: Pc) {
    t in s'.pcs && s'.pcs[t] == pc && Accounts(s, s', t, pc) && s'.ptr == s.ptr
  }

  lemma TakeLockLands(s: State, t: ThreadId)
    requires Enabled(s, t, TakeQueueLock)
    ensures Lands(s, Do(s, t, TakeQueueLock), t, Locked(s.pcs[t])) && Do(s, t, TakeQueueLock).writer == s.writer
  {
  }

  lemma TakeLockKeepsInv(s: State, t: ThreadId)
    requires Inv(s) && Enabled(s, t, TakeQueueLock)
    ensures Inv(Do(s, t, TakeQueueLock))
  {
    hide Do, Accounts, OtherActive, Excluded, Counted, LockHeldRight, Pointed, Attended, NoOtherReads;
    Facts(s, t);
    TakeLockLands(s, t);
    QuietStep(s, Do(s, t, TakeQueueLock), t, Locked(s.pcs[t]));
  }

  lemma DropLockLands(s: State, t: ThreadId)
    requires Enabled(s, t, DropQueueLock)
    ensures Lands(s, Do(s, t, DropQueueLock), t, Unlocked(s.pcs[t])) && Do(s, t, DropQueueLock).writer == s.writer
  {
  }

  lemma DropLockKeepsInv(s: State, t: ThreadId)
    requires Inv(s) && Enabled(s, t, DropQueueLock)
    ensures Inv(Do(s, t, DropQueueLock))
  {
    if s.pcs[t] == ReleaseDone { LeaveWatched(s, t); }
    hide Do, Accounts, OtherActive, Excluded, Counted, LockHeldRight, Pointed, Attended, NoOtherReads;
    Facts(s, t);
    DropLockLands(s, t);
    QuietStep(s, Do(s, t, DropQueueLock), t, Unlocked(s.pcs[t]));
  }

  /** A thread that is not itself keeping watch can leave: either somebody is, or nobody needs it. */
  lemma LeaveWatched(s: State, t: ThreadId)
    requires Attended(s) && t in s.pcs && !Active(s.pcs[t])
    ensures Watched(s, t, Idle)
    ensures Parks(s.pcs[t]) ==> OtherActive(s, t)
  {
  }

  lemma BlockLands(s: State, t: ThreadId)
    requires Enabled(s, t, Block) && s.queueLock == Some(t)
    ensures Lands(s, DoBlock(s, t), t, if s.pcs[t] == ReadBlocking then ReadBlocked else WriteBlocked)
  {
  }

  lemma BlockKeepsInv(s: State, t: ThreadId)
    requires Inv(s) && Enabled(s, t, Block)
    ensures Inv(DoBlock(s, t))
  {
    LeaveWatched(s, t);
    LockHolderAlone(s, t);
    hide DoBlock, OtherActive, Counted, LockHeldRight, Attended;
    Facts(s, t);
    BlockLands(s, t);
    var pc := if s.pcs[t] == ReadBlocking then ReadBlocked else WriteBlocked;
    QueueMove(s, DoBlock(s, t), t, pc);
    MoveKeepsPointer(s, DoBlock(s, t), t, pc);
    Assemble(s, DoBlock(s, t), t, pc);
  }

  /** A lock holder whose waiter count kept every writer out turns it into a granted read. */
  lemma ConfirmedRead(s: State, s': State, t: ThreadId, pc: Pc)
    requires Inv(s) && t in s.pcs && Confirming(s.pcs[t]) && (pc == ReadGranted || pc == UpgradeUnlock)
    requires Lands(s, s', t, pc) && s'.writer == s.writer
    ensures Inv(s')
  {
    LockHolderAlone(s, t);
    Facts(s, t);
    hide OtherActive, Counted, LockHeldRight, Attended;
    ReadMove(s, s', t, pc);
    MoveKeepsPointer(s, s', t, pc);
    Assemble(s, s', t, pc);
  }

  lemma FailToBlockLands(s: State, t: ThreadId)
    requires Enabled(s, t, FailToBlock) && s.queueLock == Some(t)
    ensures DoFailToBlock(s, t).writer == s.writer
    ensures Lands(s, DoFailToBlock(s, t), t,
                  if s.pcs[t] == ReadBlocking then ReadUndo
                  else if s.pcs[t] == WriteBlocking then WriteAbandon else UpgradeUnlock)
  {
  }

  lemma FailToBlockKeepsInv(s: State, t: ThreadId)
    requires Inv(s) && Enabled(s, t, FailToBlock)
    ensures Inv(DoFailToBlock(s, t))
  {
    hide DoFailToBlock, Accounts, OtherActive, Excluded, Counted, LockHeldRight, Pointed, Attended, NoOtherReads;
    Facts(s, t);
    FailToBlockLands(s, t);
    if s.pcs[t] == UpgradeBlocking {
      ConfirmedRead(s, DoFailToBlock(s, t), t, UpgradeUnlock);
    } else {
      QuietStep(s, DoFailToBlock(s, t), t, if s.pcs[t] == ReadBlocking then ReadUndo else WriteAbandon);
    }
  }

  function Restored(pc: Pc): Pc {
    match pc
    case ReadConfirm => ReadGranted
    case ReadUndo => ReadSlow
    case ReadRetry => ReadUnlock
    case _ => WriteUnlock
  }

  lemma RestoreLands(s: State, t: ThreadId)
    requires Enabled(s, t, Restore) && (s.pcs[t] == ReadUndo || s.queueLock == Some(t))
    ensures Lands(s, DoRestore(s, t), t, Restored(s.pcs[t])) && DoRestore(s, t).writer == s.writer
  {
  }

  lemma RestoreKeepsInv(s: State, t: ThreadId)
    requires Inv(s) && Enabled(s, t, Restore)
    ensures Inv(DoRestore(s, t))
  {
    hide DoRestore, Accounts, OtherActive, Excluded, Counted, LockHeldRight, Pointed, Attended, NoOtherReads;
    Facts(s, t);
    RestoreLands(s, t);
    if s.pcs[t] == ReadConfirm {
      ConfirmedRead(s, DoRestore(s, t), t, ReadGranted);
    } else {
      QuietStep(s, DoRestore(s, t), t, Restored(s.pcs[t]));
    }
  }

  lemma WakeNobodyLands(s: State, t: ThreadId)
    requires Enabled(s, t, WakeNobody) && s.queueLock == Some(t)
    ensures Lands(s, Do(s, t, WakeNobody), t, AfterFailedWake(s.pcs[t].who)) && Do(s, t, WakeNobody).writer == s.writer
  {
  }

  lemma WakeNobodyKeepsInv(s: State, t: ThreadId)
    requires Inv(s) && Enabled(s, t, WakeNobody)
    ensures Inv(Do(s, t, WakeNobody))
  {
    hide Do, Accounts, OtherActive, Excluded, Counted, LockHeldRight, Pointed, Attended, NoOtherReads;
    Facts(s, t);
    WakeNobodyLands(s, t);
    QuietStep(s, Do(s, t, WakeNobody), t, AfterFailedWake(s.pcs[t].who));
  }

  // ---------- gaining access without the queue lock ----------

  /** With no writer and no waiter in the word, an optimistic count is as good as a granted read. */
  lemma UncontendedRead(s: State, s': State, t: ThreadId)
    requires Inv(s) && t in s.pcs && (s.pcs[t] == Idle || s.pcs[t] == ReadSpin)
    requires s.writer == 0 && s.waiters == 0 && Lands(s, s', t, Reading)
    ensures Inv(s')
  {
    NoWaiterNoDecision(s);
    hide OtherActive, Counted, LockHeldRight, Attended;
    ReadMove(s, s', t, Reading);
    MoveKeepsPointer(s, s', t, Reading);
    Assemble(s, s', t, Reading);
  }

  lemma ReadAcquireLands(s: State, t: ThreadId)
    requires Enabled(s, t, ReadAcquire) && s.queueLock != Some(t)
    ensures Lands(s, DoReadAcquire(s, t), t, if s.writer == 0 && s.waiters == 0 then Reading else ReadSpin)
    ensures DoReadAcquire(s, t).writer == s.writer
  {
  }

  lemma ReadAcquireKeepsInv(s: State, t: ThreadId)
    requires Inv(s) && Enabled(s, t, ReadAcquire)
    ensures Inv(DoReadAcquire(s, t))
  {
    hide DoReadAcquire, Accounts, OtherActive, Excluded, Counted, LockHeldRight, Pointed, Attended, NoOtherReads;
    Facts(s, t);
    ReadAcquireLands(s, t);
    if s.writer == 0 && s.waiters == 0 {
      UncontendedRead(s, DoReadAcquire(s, t), t);
    } else {
      QuietStep(s, DoReadAcquire(s, t), t, ReadSpin);
    }
  }

  lemma ReadSpinLands(s: State, t: ThreadId, timeout: bool)
    requires t in s.pcs && s.pcs[t] == ReadSpin && s.waiters >= 0
    ensures var s' := DoReadSpin(s, t, timeout);
            && s'.writer == s.writer
            && (|| (Lands(s, s', t, Reading) && s.writer == 0 && s.waiters == 0)
                || Lands(s, s', t, ReadSlow)
                || Lands(s, s', t, ReadSpin))
  {
  }

  lemma ReadSpinKeepsInv(s: State, t: ThreadId, timeout: bool)
    requires Inv(s) && t in s.pcs && s.pcs[t] == ReadSpin
    ensures Inv(DoReadSpin(s, t, timeout))
  {
    hide DoReadSpin, Accounts, OtherActive, Excluded, Counted, LockHeldRight, Pointed, Attended, NoOtherReads;
    Facts(s, t);
    ReadSpinLands(s, t, timeout);
    if DoReadSpin(s, t, timeout).pcs[t] == Reading {
      UncontendedRead(s, DoReadSpin(s, t, timeout), t);
    } else {
      QuietStep(s, DoReadSpin(s, t, timeout), t, DoReadSpin(s, t, timeout).pcs[t]);
    }
  }

  /** A compare-and-swap that succeeds finds nobody but t in the word. */
  lemma SwapSucceeds(s: State, s': State, t: ThreadId)
    requires Inv(s) && t in s.pcs && Accounts(s, s', t, Writing) && s'.ptr == Some(t)
    requires s.pcs[t] in {Idle, WriteSpin, Reading}
    requires s.writer == 0 && s.waiters == 0 && s.readers == One(IsReader(s.pcs[t]))
    ensures Inv(s')
  {
    NoWaiterNoDecision(s);
    NoOtherReader(s, t);
    NobodyNamed(s, t);
    hide OtherActive, Counted, LockHeldRight, Attended;
    WriteMove(s, s', t, Writing);
    MoveKeepsPointer(s, s', t, Writing);
    Assemble(s, s', t, Writing);
  }

  /** While there is no writer, only a thread about to hand out write access needs the pointer. */
  lemma NobodyNamed(s: State, t: ThreadId)
    requires Inv(s) && t in s.pcs && s.writer <= One(IsWriter(s.pcs[t]))
    requires forall u :: u in s.pcs && u != t ==> !Entitled(s.pcs[u])
    ensures forall u :: u in s.pcs && u != t ==> Names(u, s.pcs[u]) == None
  {
    WhereAlone(s.pcs, t, IsWriter);
  }

  lemma SwapAccounts(s: State, t: ThreadId, readers: nat, otherwise: Pc)
    requires t in s.pcs && s.queueLock != Some(t) && otherwise in {WriteSpin, WriteSlow, UpgradeSlow}
    requires if s.pcs[t] == Reading then readers == 1 && otherwise == UpgradeSlow
             else s.pcs[t] in {Idle, WriteSpin} && readers == 0 && otherwise != UpgradeSlow
    ensures var s' := CompareAndSwap(s, t, readers, otherwise);
            if s.writer == 0 && s.readers == readers && s.waiters == 0 && s.ptr == None
            then Accounts(s, s', t, Writing) && s'.ptr == Some(t)
            else Lands(s, s', t, otherwise) && s'.writer == s.writer
  {
  }

  lemma SwapKeepsInv(s: State, t: ThreadId, readers: nat, otherwise: Pc)
    requires Inv(s) && t in s.pcs && otherwise in {WriteSpin, WriteSlow, UpgradeSlow}
    requires if s.pcs[t] == Reading then readers == 1 && otherwise == UpgradeSlow
             else s.pcs[t] in {Idle, WriteSpin} && readers == 0 && otherwise != UpgradeSlow
    ensures Inv(CompareAndSwap(s, t, readers, otherwise))
  {
    hide CompareAndSwap, Accounts, OtherActive, Excluded, Counted, LockHeldRight, Pointed, Attended, NoOtherReads;
    Facts(s, t);
    SwapAccounts(s, t, readers, otherwise);
    if s.writer == 0 && s.readers == readers && s.waiters == 0 && s.ptr == None {
      SwapSucceeds(s, CompareAndSwap(s, t, readers, otherwise), t);
    } else {
      QuietStep(s, CompareAndSwap(s, t, readers, otherwise), t, otherwise);
    }
  }

  // ---------- handing out and giving up write access ----------

  lemma PointerStep(s: State, s': State, t: ThreadId, pc: Pc)
    requires Inv(s) && t in s.pcs && Decides(s, s.pcs[t]) && HoldsQueueLock(s.pcs[t]) && Accounts(s, s', t, pc)
    requires pc == Claimed || (pc.Storing? && pc.target in s.pcs && pc.target != t && s.pcs[pc.target] == WriteBlocked)
    requires s'.ptr == Names(t, pc) && s'.writer == s.writer
    ensures Inv(s')
  {
    Facts(s, t);
    LockHolderAlone(s, t);
    NobodyNamed(s, t);
    hide OtherActive, Counted, LockHeldRight, Attended;
    QuietMove(s, s', t, pc);
    MoveKeepsPointer(s, s', t, pc);
    Assemble(s, s', t, pc);
  }

  lemma PickWriterAccounts(s: State, t: ThreadId, x: ThreadId)
    requires Enabled(s, t, PickWriter(x)) && s.queueLock == Some(t)
    ensures var s' := Do(s, t, PickWriter(x));
            Accounts(s, s', t, Storing(s.pcs[t].who, x)) && s'.ptr == Some(x) && s'.writer == s.writer
  {
  }

  lemma PickWriterKeepsInv(s: State, t: ThreadId, x: ThreadId)
    requires Inv(s) && Enabled(s, t, PickWriter(x))
    ensures Inv(Do(s, t, PickWriter(x)))
  {
    assert Queued(s) by { assert InQueue(s.pcs[x]); }
    hide Do, Accounts, OtherActive, Excluded, Counted, LockHeldRight, Pointed, Attended, NoOtherReads;
    Facts(s, t);
    PickWriterAccounts(s, t, x);
    PointerStep(s, Do(s, t, PickWriter(x)), t, Storing(s.pcs[t].who, x));
  }

  lemma StorePointerKeepsInv(s: State, t: ThreadId)
    requires Inv(s) && Enabled(s, t, StorePointer)
    ensures Inv(Do(s, t, StorePointer))
  {
    hide OtherActive, Excluded, Counted, Pointed, Attended;
    PointerStep(s, Do(s, t, StorePointer), t, Claimed);
  }

  lemma ClaimWordKeepsInv(s: State, t: ThreadId)
    requires Inv(s) && Enabled(s, t, ClaimWord)
    ensures Inv(Do(s, t, ClaimWord))
  {
    Facts(s, t);
    LockHolderAlone(s, t);
    hide OtherActive, Counted, LockHeldRight, Attended;
    var s' := Do(s, t, ClaimWord);
    WriteMove(s, s', t, WriteGranted);
    MoveKeepsPointer(s, s', t, WriteGranted);
    Assemble(s, s', t, WriteGranted);
  }

  lemma ReadReleaseLands(s: State, t: ThreadId)
    requires Enabled(s, t, ReadRelease) && s.queueLock != Some(t)
    ensures Lands(s, DoReadRelease(s, t), t, if s.readers == 1 && s.waiters > 0 then Releasing else Idle)
    ensures DoReadRelease(s, t).writer == s.writer
  {
  }

  lemma ReadReleaseKeepsInv(s: State, t: ThreadId)
    requires Inv(s) && Enabled(s, t, ReadRelease)
    ensures Inv(DoReadRelease(s, t))
  {
    hide DoReadRelease, Accounts, OtherActive, Excluded, Counted, LockHeldRight, Pointed, Attended, NoOtherReads;
    Facts(s, t);
    ReadReleaseLands(s, t);
    if s.readers > 1 { AnotherReader(s, t); }
    if s.waiters == 0 { NoWaiterNoDecision(s); }
    QuietStep(s, DoReadRelease(s, t), t, if s.readers == 1 && s.waiters > 0 then Releasing else Idle);
  }

  lemma ReleaseWordLands(s: State, t: ThreadId)
    requires Enabled(s, t, ReleaseWord) && s.queueLock != Some(t)
    ensures Lands(s, DoReleaseWord(s, t), t, if s.waiters > 0 then Releasing else Idle)
    ensures DoReleaseWord(s, t).writer == s.writer - 1
  {
  }

  lemma ReleaseWordKeepsInv(s: State, t: ThreadId)
    requires Inv(s) && Enabled(s, t, ReleaseWord)
    ensures Inv(DoReleaseWord(s, t))
  {
    hide DoReleaseWord, Accounts, OtherActive, Excluded, Counted, LockHeldRight, Pointed, Attended, NoOtherReads;
    Facts(s, t);
    ReleaseWordLands(s, t);
    if s.waiters == 0 { NoWaiterNoDecision(s); }
    QuietStep(s, DoReleaseWord(s, t), t, if s.waiters > 0 then Releasing else Idle);
  }

  lemma ClearPointerAccounts(s: State, t: ThreadId)
    requires Enabled(s, t, ClearPointer) && s.queueLock != Some(t)
    ensures var s' := Do(s, t, ClearPointer); Accounts(s, s', t, WriteReleasing) && s'.writer == s.writer
  {
  }

  lemma ClearPointerKeepsInv(s: State, t: ThreadId)
    requires Inv(s) && Enabled(s, t, ClearPointer)
    ensures Inv(Do(s, t, ClearPointer))
  {
    Facts(s, t);
    NobodyNamed(s, t);
    ClearPointerAccounts(s, t);
    hide Do, OtherActive, Counted, Attended, LockHeldRight;
    var s' := Do(s, t, ClearPointer);
    QuietMove(s, s', t, WriteReleasing);
    MoveKeepsPointer(s, s', t, WriteReleasing);
    Assemble(s, s', t, WriteReleasing);
  }

  /** Nobody but t decides, confirms or relies on the pointer while t hands out the lock. */
  predicate Alone(s: State, t: ThreadId) {
    forall u :: u in s.pcs && u != t ==>
      && !Entitled(s.pcs[u]) && !Probing(s.pcs[u]) && !Confirming(s.pcs[u]) && !HoldsRead(s.pcs[u])
      && Names(u, s.pcs[u]) == None && !s.pcs[u].Storing?
  }

  lemma WakerAlone(s: State, t: ThreadId)
    requires Inv(s) && t in s.pcs && (s.pcs[t].Waking? || s.pcs[t].Storing?) && Queued(s)
    ensures s.writer == 0 && Alone(s, t) && s.queueLock == Some(t)
  {
    Facts(s, t);
    LockHolderAlone(s, t);
    NobodyNamed(s, t);
  }

  /** The waiting writer leaves the queue with the lock. */
  function Granted(s: State, x: ThreadId): State {
    Go(s.(writer := s.writer + 1, waiters := s.waiters - 1), x, Writing)
  }

  lemma GrantedCounts(s: State, x: ThreadId)
    requires Counted(s) && LockHeldRight(s) && x in s.pcs && s.pcs[x] == WriteBlocked
    ensures Counted(Granted(s, x)) && LockHeldRight(Granted(s, x))
  {
    hide Counted, LockHeldRight;
    MoveKeepsCount(s, Granted(s, x), x, Writing);
    MoveKeepsLock(s, Granted(s, x), x, Writing);
  }

  /** The waker goes on to whatever it does after a successful wake. */
  lemma WakerGoesOn(s: State, t: ThreadId, wokeReaders: bool)
    requires Counted(s) && LockHeldRight(s) && s.queueLock == Some(t)
    requires t in s.pcs && (s.pcs[t].Waking? || s.pcs[t].Storing?)
    ensures var s' := Go(s, t, AfterWake(s.pcs[t].who, wokeReaders)); Counted(s') && LockHeldRight(s')
  {
    hide Counted, LockHeldRight;
    var pc := AfterWake(s.pcs[t].who, wokeReaders);
    MoveKeepsCount(s, Go(s, t, pc), t, pc);
    MoveKeepsLock(s, Go(s, t, pc), t, pc);
  }

  /** After a wake the lock belongs to the woken threads and the waker decides nothing any more. */
  predicate Settled(s: State, s': State, t: ThreadId, wokeReaders: bool) {
    && t in s.pcs && s'.pcs.Keys == s.pcs.Keys && (s.pcs[t].Waking? || s.pcs[t].Storing?)
    && s'.pcs[t] == AfterWake(s.pcs[t].who, wokeReaders)
    && (forall u :: u in s.pcs && u != t ==>
          s'.pcs[u] == s.pcs[u] || (s'.pcs[u] == if wokeReaders then Reading else Writing))
    && (exists u :: u in s.pcs && u != t && (s'.pcs[u] == if wokeReaders then Reading else Writing))
  }

  lemma SettledAttended(s: State, s': State, t: ThreadId, wokeReaders: bool)
    requires Settled(s, s', t, wokeReaders)
    ensures Attended(s')
  {
    var u :| u in s.pcs && u != t && (s'.pcs[u] == if wokeReaders then Reading else Writing);
    assert Active(s'.pcs[u]);
  }

  lemma SettledExcluded(s: State, s': State, t: ThreadId, wokeReaders: bool)
    requires Settled(s, s', t, wokeReaders) && Alone(s, t) && s'.writer == if wokeReaders then 0 else 1
    ensures Excluded(s')
  {
    forall u | u in s'.pcs
      ensures !Entitled(s'.pcs[u]) && !Probing(s'.pcs[u])
      ensures !wokeReaders ==> !Confirming(s'.pcs[u]) && !HoldsRead(s'.pcs[u])
    {
    }
  }

  lemma GrantWriterSettles(s: State, t: ThreadId)
    requires t in s.pcs && s.pcs[t].Storing? && s.pcs[t].target in s.pcs && s.pcs[t].target != t
    ensures Settled(s, DoGrantWriter(s, t), t, false)
    ensures DoGrantWriter(s, t) == Go(Granted(s, s.pcs[t].target), t, AfterWake(s.pcs[t].who, false))
  {
    assert DoGrantWriter(s, t).pcs[s.pcs[t].target] == Writing;
  }

  lemma GrantWriterPointed(s: State, t: ThreadId)
    requires t in s.pcs && s.pcs[t].Storing? && Alone(s, t)
    requires s.pcs[t].target in s.pcs && s.ptr == Some(s.pcs[t].target)
    ensures Pointed(DoGrantWriter(s, t))
  {
    var s' := DoGrantWriter(s, t);
    var x := s.pcs[t].target;
    forall u | u in s'.pcs ensures !s'.pcs[u].Storing? && Names(u, s'.pcs[u]) in {None, Some(x)} {
      assert u != t && u != x ==> s'.pcs[u] == s.pcs[u];
    }
  }

  lemma GrantWriterKeepsInv(s: State, t: ThreadId)
    requires Inv(s) && Enabled(s, t, GrantWriter)
    ensures Inv(DoGrantWriter(s, t))
  {
    var x := s.pcs[t].target;
    assert s.ptr == Some(x) && InQueue(s.pcs[x]);
    hide Counted, LockHeldRight, Excluded, Attended, Pointed, DoGrantWriter, Alone, Settled;
    WakerAlone(s, t);
    GrantedCounts(s, x);
    WakerGoesOn(Granted(s, x), t, false);
    GrantWriterSettles(s, t);
    SettledAttended(s, DoGrantWriter(s, t), t, false);
    SettledExcluded(s, DoGrantWriter(s, t), t, false);
    GrantWriterPointed(s, t);
  }

  // ---------- waking readers ----------

  lemma WokenCounts(s: State, s': State, woken: set<ThreadId>)
    requires Counted(s) && (forall u :: u in woken ==> u in s.pcs && s.pcs[u] == ReadBlocked)
    requires s'.pcs == Woken(s.pcs, woken) && s'.writer == s.writer
    requires s'.readers == s.readers + |woken| && s'.waiters == s.waiters - |woken|
    ensures Counted(s')
  {
    WhereUpdateAll(s.pcs, s'.pcs, woken, ReadBlocked, Reading, IsWriter);
    WhereUpdateAll(s.pcs, s'.pcs, woken, ReadBlocked, Reading, IsReader);
    WhereUpdateAll(s.pcs, s'.pcs, woken, ReadBlocked, Reading, IsWaiter);
  }

  lemma WokenLock(s: State, s': State, woken: set<ThreadId>)
    requires LockHeldRight(s) && (forall u :: u in woken ==> u in s.pcs && s.pcs[u] == ReadBlocked)
    requires s'.pcs == Woken(s.pcs, woken) && s'.queueLock == s.queueLock
    ensures LockHeldRight(s')
  {
    forall u | u in s'.pcs ensures HoldsQueueLock(s'.pcs[u]) <==> HoldsQueueLock(s.pcs[u]) {
    }
  }

  lemma WakeReadersCounts(s: State, t: ThreadId, woken: set<ThreadId>)
    requires Counted(s) && LockHeldRight(s) && Enabled(s, t, WakeReaders(woken)) && s.queueLock == Some(t)
    ensures Counted(DoWakeReaders(s, t, woken)) && LockHeldRight(DoWakeReaders(s, t, woken))
  {
    hide Counted, LockHeldRight;
    var s1 := s.(pcs := Woken(s.pcs, woken), readers := s.readers + |woken|, waiters := s.waiters - |woken|);
    assert t !in woken && s1.pcs[t] == s.pcs[t];
    WokenCounts(s, s1, woken);
    WokenLock(s, s1, woken);
    WakerGoesOn(s1, t, true);
  }

  lemma WakeReadersSettles(s: State, t: ThreadId, woken: set<ThreadId>)
    requires Enabled(s, t, WakeReaders(woken))
    ensures Settled(s, DoWakeReaders(s, t, woken), t, true)
  {
    var u :| u in woken;
    assert DoWakeReaders(s, t, woken).pcs[u] == Reading;
  }

  lemma WakeReadersPointed(s: State, t: ThreadId, woken: set<ThreadId>)
    requires Enabled(s, t, WakeReaders(woken)) && Alone(s, t)
    ensures Pointed(DoWakeReaders(s, t, woken))
  {
    var s' := DoWakeReaders(s, t, woken);
    forall u | u in s'.pcs ensures !s'.pcs[u].Storing? && Names(u, s'.pcs[u]) == None {
    }
  }

  lemma WakeReadersKeepsInv(s: State, t: ThreadId, woken: set<ThreadId>)
    requires Inv(s) && Enabled(s, t, WakeReaders(woken))
    ensures Inv(DoWakeReaders(s, t, woken))
  {
    assert Queued(s) by {
      var u :| u in woken;
      assert InQueue(s.pcs[u]);
    }
    hide Counted, LockHeldRight, Excluded, Attended, Pointed, Alone, Settled, Woken;
    WakerAlone(s, t);
    WakeReadersCounts(s, t, woken);
    WakeReadersSettles(s, t, woken);
    SettledAttended(s, DoWakeReaders(s, t, woken), t, true);
    SettledExcluded(s, DoWakeReaders(s, t, woken), t, true);
    WakeReadersPointed(s, t, woken);
  }

  // ---------- every run ----------

  lemma InitInv(s: State)
    requires Init(s)
    ensures Inv(s)
  {
    assert Where(s.pcs, IsWriter) == {} && Where(s.pcs, IsReader) == {} && Where(s.pcs, IsWaiter) == {};
  }

  /** Every step of every thread keeps the invariant. */
  lemma StepKeepsInv(s: State, t: ThreadId, a: Action)
    requires Inv(s) && Enabled(s, t, a)
    ensures Inv(Do(s, t, a))
  {
    hide Inv, DoReadAcquire, CompareAndSwap, DoReadSpin, DoMark, DoBlock, DoFailToBlock, DoRestore,
      DoWakeReaders, DoGrantWriter, DoReadRelease, DoReleaseWord;
    match a
    case ReadAcquire => ReadAcquireKeepsInv(s, t);
    case WriteAcquire => SwapKeepsInv(s, t, 0, WriteSpin);
    case Spin(timeout) =>
      if s.pcs[t].ReadSpin? {
        ReadSpinKeepsInv(s, t, timeout);
      } else {
        SwapKeepsInv(s, t, 0, if s.waiters > 0 || timeout then WriteSlow else WriteSpin);
      }
    case TakeQueueLock => TakeLockKeepsInv(s, t);
    case DropQueueLock => DropLockKeepsInv(s, t);
    case Mark =>
      match s.pcs[t] {
        case ReadLocked => MarkReadKeepsInv(s, t);
        case WriteLocked => MarkWriteKeepsInv(s, t);
        case UpgradeLocked => MarkUpgradeKeepsInv(s, t);
        case _ => MarkReleaseKeepsInv(s, t);
      }
    case Block => BlockKeepsInv(s, t);
    case FailToBlock => FailToBlockKeepsInv(s, t);
    case Restore => RestoreKeepsInv(s, t);
    case WakeNobody => WakeNobodyKeepsInv(s, t);
    case WakeReaders(woken) => WakeReadersKeepsInv(s, t, woken);
    case PickWriter(x) => PickWriterKeepsInv(s, t, x);
    case GrantWriter => GrantWriterKeepsInv(s, t);
    case StorePointer => StorePointerKeepsInv(s, t);
    case ClaimWord => ClaimWordKeepsInv(s, t);
    case ReadRelease => ReadReleaseKeepsInv(s, t);
    case ClearPointer => ClearPointerKeepsInv(s, t);
    case ReleaseWord => ReleaseWordKeepsInv(s, t);
    case ReadUpgrade => SwapKeepsInv(s, t, 1, UpgradeSlow);
  }

  /** A run: any interleaving of the threads' steps. */
  ghost predicate IsRun(run: seq<State>) {
    && |run| > 0 && Init(run[0])
    && forall i | 0 <= i < |run| - 1 :: exists t, a :: Enabled(run[i], t, a) && run[i + 1] == Do(run[i], t, a)
  }

  lemma {:induction false} RunInv(run: seq<State>, n: nat)
    requires IsRun(run) && n < |run|
    ensures Inv(run[n])
  {
    hide Inv, Init;
    if n == 0 {
      InitInv(run[0]);
    } else {
      RunInv(run, n - 1);
      var t, a :| Enabled(run[n - 1], t, a) && run[n] == Do(run[n - 1], t, a);
      StepKeepsInv(run[n - 1], t, a);
    }
  }

  /** Reader/writer exclusion in every interleaving. */
  lemma Exclusion(run: seq<State>, n: nat)
    requires IsRun(run) && n < |run|
    ensures Counted(run[n]) && run[n].writer <= 1
    ensures forall t, u ::
              t in run[n].pcs && u in run[n].pcs && IsWriter(run[n].pcs[t]) && IsWriter(run[n].pcs[u]) ==> t == u
    ensures forall t, u :: t in run[n].pcs && u in run[n].pcs && IsWriter(run[n].pcs[t]) ==> !HoldsRead(run[n].pcs[u])
  {
    RunInv(run, n);
    var s := run[n];
    forall t | t in s.pcs && IsWriter(s.pcs[t]) ensures forall u :: u in s.pcs && IsWriter(s.pcs[u]) ==> u == t {
      WhereAlone(s.pcs, t, IsWriter);
    }
    forall t | t in s.pcs && IsWriter(s.pcs[t]) ensures NoReader(s) {
      HasRole(s, t);
    }
  }

  /** The writer named by writer_ is the thread that holds the lock: WriteRelease's check never fails. */
  lemma WriterIsNamed(run: seq<State>, n: nat, t: ThreadId)
    requires IsRun(run) && n < |run| && t in run[n].pcs && run[n].pcs[t] == Writing
    ensures run[n].ptr == Some(t)
  {
    RunInv(run, n);
  }

  /**
   No wake-up is lost: if somebody sleeps in the queue, then somebody else holds the
   lock, or is still on its way through the code and will look at the queue.
   */
  lemma SleepersAreAttended(run: seq<State>, n: nat)
    requires IsRun(run) && n < |run| && Queued(run[n])
    ensures exists u :: u in run[n].pcs && Active(run[n].pcs[u])
    ensures (forall u :: u in run[n].pcs ==> run[n].pcs[u] in {Idle, Reading, Writing, ReadBlocked, WriteBlocked})
            ==> run[n].writer + run[n].readers > 0
  {
    RunInv(run, n);
    var s := run[n];
    var u :| u in s.pcs && Active(s.pcs[u]);
    HasRole(s, u);
  }
}
