/**
 What the operations of the reader/writer lock do from start to end when nobody else
 moves in between, in every state that any run can reach; and when the writer pointer
 is empty.
 */
module BrwLockUse {
  import opened Alone
  import opened Basics
  import opened Counting
  import opened BrwLock

  // ---------- the writer pointer ----------

  /** The pointer never names a thread unless somebody stands at a point that makes it do so. */
  predicate Named(s: State) {
    s.ptr.Some? ==> exists t :: t in s.pcs && Names(t, s.pcs[t]) == s.ptr
  }

  /** What a step does to the pointer: empties it, makes it name t's choice, or leaves it to others. */
  lemma PointerEffect(s: State, t: ThreadId, a: Action)
    requires Enabled(s, t, a) && !a.GrantWriter?
    requires Names(t, s.pcs[t]).Some? ==> s.ptr == Names(t, s.pcs[t])
    ensures var s' := Do(s, t, a);
            s'.ptr == None || Names(t, s'.pcs[t]) == s'.ptr || (s'.ptr == s.ptr && Names(t, s.pcs[t]) == None)
  {
  }

  lemma OthersNamesKept(s: State, t: ThreadId, a: Action, u: ThreadId)
    requires Enabled(s, t, a) && !a.GrantWriter? && u in s.pcs && u != t && Names(u, s.pcs[u]).Some?
    ensures var s' := Do(s, t, a); t in s'.pcs && u in s'.pcs && s'.pcs[u] == s.pcs[u]
  {
  }

  lemma GrantNames(s: State, t: ThreadId)
    requires Pointed(s) && Enabled(s, t, GrantWriter)
    ensures Named(Do(s, t, GrantWriter))
  {
    var s', x := Do(s, t, GrantWriter), s.pcs[t].target;
    assert x in s'.pcs && Names(x, s'.pcs[x]) == s'.ptr;
  }

  lemma StepKeepsNamed(s: State, t: ThreadId, a: Action)
    requires Inv(s) && Named(s) && Enabled(s, t, a)
    ensures Named(Do(s, t, a))
  {
    assert Pointed(s);
    hide Counted, LockHeldRight, Excluded, Attended, Do, Enabled, Names;
    if a.GrantWriter? {
      hide Named;
      GrantNames(s, t);
    } else {
      PointerEffect(s, t, a);
      var s' := Do(s, t, a);
      StaysThere(s, t, a);
      if s'.ptr.Some? && Names(t, s'.pcs[t]) != s'.ptr {
        var u :| u in s.pcs && Names(u, s.pcs[u]) == s.ptr;
        OthersNamesKept(s, t, a, u);
      }
    }
  }

  lemma StaysThere(s: State, t: ThreadId, a: Action)
    requires Enabled(s, t, a)
    ensures t in s.pcs && t in Do(s, t, a).pcs
  {
  }

  lemma {:induction false} RunNamed(run: seq<State>, n: nat)
    requires IsRun(run) && n < |run|
    ensures Inv(run[n]) && Named(run[n])
  {
    hide Inv, Named, Do, Enabled;
    RunInv(run, n);
    if n == 0 {
      assert Named(run[0]) by { InitNamed(run[0]); }
    } else {
      RunNamed(run, n - 1);
      var t, a :| Enabled(run[n - 1], t, a) && run[n] == Do(run[n - 1], t, a);
      StepKeepsNamed(run[n - 1], t, a);
    }
  }

  lemma InitNamed(s: State)
    requires Init(s)
    ensures Named(s)
  {
  }

  predicate FreeWord(s: State) {
    s.writer == 0 && s.readers == 0 && s.waiters == 0
  }

  /** A word of all zeros goes with an empty pointer. */
  lemma FreeMeansUnnamed(s: State)
    requires Inv(s) && Named(s) && FreeWord(s)
    ensures s.ptr == None
  {
    if s.ptr.Some? {
      var t :| t in s.pcs && Names(t, s.pcs[t]) == s.ptr;
      HasRole(s, t);
      if s.pcs[t].Storing? { HasRole(s, s.pcs[t].target); }
      assert false;
    }
  }

  /** In every run a write acquire of a free lock succeeds at once. */
  lemma FreeLockIsTaken(run: seq<State>, n: nat, t: ThreadId)
    requires IsRun(run) && n < |run| && Enabled(run[n], t, WriteAcquire) && FreeWord(run[n])
    ensures run[n].ptr == None && Do(run[n], t, WriteAcquire).pcs[t] == Writing
  {
    RunNamed(run, n);
    FreeMeansUnnamed(run[n]);
  }

  // ---------- one thread on its own ----------

  /** The step an action of t is, where it can be taken. */
  function Try(t: ThreadId): (State, Action) -> Option<State> {
    (s: State, a: Action) => if Enabled(s, t, a) then Some(Do(s, t, a)) else None
  }

  predicate Goes(s: State, t: ThreadId, a: Action, s': State) {
    Leads(Try(t), s, a, s')
  }

  /** Where the actions of t alone lead, if it can take them one after the other. */
  function Solo(s: State, t: ThreadId, acts: seq<Action>): Option<State> {
    After(Try(t), s, acts)
  }

  /** The other threads of s, with t at pc, and these words. */
  function Put(s: State, t: ThreadId, pc: Pc, writer: int, readers: int, waiters: int, ptr: Option<ThreadId>,
               queueLock: Option<ThreadId>): State {
    State(s.pcs[t := pc], writer, readers, waiters, ptr, queueLock)
  }

  lemma PutSelf(s: State, t: ThreadId)
    requires t in s.pcs
    ensures s == Put(s, t, s.pcs[t], s.writer, s.readers, s.waiters, s.ptr, s.queueLock)
  {
    assert s.pcs == s.pcs[t := s.pcs[t]];
  }

  lemma WordsKept(s: State, x: ThreadId, pc: Pc)
    ensures var s' := Go(s, x, pc);
            && s'.writer == s.writer && s'.readers == s.readers && s'.waiters == s.waiters
            && s'.ptr == s.ptr && s'.queueLock == s.queueLock
  {
  }

  lemma PutGo(s: State, t: ThreadId, pc: Pc, w: int, r: int, n: int, p: Option<ThreadId>, l: Option<ThreadId>)
    ensures Put(s, t, pc, w, r, n, p, l) ==
            Go(s.(writer := w, readers := r, waiters := n, ptr := p, queueLock := l), t, pc)
  {
  }

  /** One step that concerns nobody but t and the words. */
  lemma Edge(s: State, t: ThreadId, a: Action, pc: Pc, w: int, r: int, n: int, p: Option<ThreadId>,
             l: Option<ThreadId>, pc': Pc, w': int, r': int, n': int, p': Option<ThreadId>, l': Option<ThreadId>)
    requires Goes(Put(s, t, pc, w, r, n, p, l), t, a, Go(State(s.pcs[t := pc], w', r', n', p', l'), t, pc'))
    ensures Goes(Put(s, t, pc, w, r, n, p, l), t, a, Put(s, t, pc', w', r', n', p', l'))
  {
    hide Leads, Try;
    assert s.pcs[t := pc][t := pc'] == s.pcs[t := pc'];
  }

  // The edges of the control flow, one thread at a time.

  lemma TakeRead(s: State, t: ThreadId, w: int, r: int, n: int, p: Option<ThreadId>)
    ensures Goes(Put(s, t, ReadSlow, w, r, n, p, None), t, TakeQueueLock, Put(s, t, ReadLocked, w, r, n, p, Some(t)))
  {
    Edge(s, t, TakeQueueLock, ReadSlow, w, r, n, p, None, ReadLocked, w, r, n, p, Some(t));
  }

  lemma TakeWrite(s: State, t: ThreadId, w: int, r: int, n: int, p: Option<ThreadId>)
    ensures Goes(Put(s, t, WriteSlow, w, r, n, p, None), t, TakeQueueLock, Put(s, t, WriteLocked, w, r, n, p, Some(t)))
  {
    Edge(s, t, TakeQueueLock, WriteSlow, w, r, n, p, None, WriteLocked, w, r, n, p, Some(t));
  }

  lemma TakeUpgrade(s: State, t: ThreadId, w: int, r: int, n: int, p: Option<ThreadId>)
    ensures Goes(Put(s, t, UpgradeSlow, w, r, n, p, None), t, TakeQueueLock,
                 Put(s, t, UpgradeLocked, w, r, n, p, Some(t)))
  {
    Edge(s, t, TakeQueueLock, UpgradeSlow, w, r, n, p, None, UpgradeLocked, w, r, n, p, Some(t));
  }

  lemma TakeRelease(s: State, t: ThreadId, w: int, r: int, n: int, p: Option<ThreadId>)
    ensures Goes(Put(s, t, Releasing, w, r, n, p, None), t, TakeQueueLock,
                 Put(s, t, ReleaseLocked, w, r, n, p, Some(t)))
  {
    Edge(s, t, TakeQueueLock, Releasing, w, r, n, p, None, ReleaseLocked, w, r, n, p, Some(t));
  }

  lemma DropReadGranted(s: State, t: ThreadId, w: int, r: int, n: int, p: Option<ThreadId>)
    ensures Goes(Put(s, t, ReadGranted, w, r, n, p, Some(t)), t, DropQueueLock, Put(s, t, Reading, w, r, n, p, None))
  {
    Edge(s, t, DropQueueLock, ReadGranted, w, r, n, p, Some(t), Reading, w, r, n, p, None);
  }

  lemma DropReadUnlock(s: State, t: ThreadId, w: int, r: int, n: int, p: Option<ThreadId>)
    ensures Goes(Put(s, t, ReadUnlock, w, r, n, p, Some(t)), t, DropQueueLock, Put(s, t, ReadSlow, w, r, n, p, None))
  {
    Edge(s, t, DropQueueLock, ReadUnlock, w, r, n, p, Some(t), ReadSlow, w, r, n, p, None);
  }

  lemma DropWriteGranted(s: State, t: ThreadId, w: int, r: int, n: int, p: Option<ThreadId>)
    ensures Goes(Put(s, t, WriteGranted, w, r, n, p, Some(t)), t, DropQueueLock, Put(s, t, Writing, w, r, n, p, None))
  {
    Edge(s, t, DropQueueLock, WriteGranted, w, r, n, p, Some(t), Writing, w, r, n, p, None);
  }

  lemma DropWriteUnlock(s: State, t: ThreadId, w: int, r: int, n: int, p: Option<ThreadId>)
    ensures Goes(Put(s, t, WriteUnlock, w, r, n, p, Some(t)), t, DropQueueLock, Put(s, t, WriteSlow, w, r, n, p, None))
  {
    Edge(s, t, DropQueueLock, WriteUnlock, w, r, n, p, Some(t), WriteSlow, w, r, n, p, None);
  }

  lemma DropUpgradeUnlock(s: State, t: ThreadId, w: int, r: int, n: int, p: Option<ThreadId>)
    ensures Goes(Put(s, t, UpgradeUnlock, w, r, n, p, Some(t)), t, DropQueueLock,
                 Put(s, t, UpgradeSlow, w, r, n, p, None))
  {
    Edge(s, t, DropQueueLock, UpgradeUnlock, w, r, n, p, Some(t), UpgradeSlow, w, r, n, p, None);
  }

  lemma DropReleaseRetry(s: State, t: ThreadId, w: int, r: int, n: int, p: Option<ThreadId>)
    ensures Goes(Put(s, t, ReleaseRetry, w, r, n, p, Some(t)), t, DropQueueLock, Put(s, t, Releasing, w, r, n, p, None))
  {
    Edge(s, t, DropQueueLock, ReleaseRetry, w, r, n, p, Some(t), Releasing, w, r, n, p, None);
  }

  lemma DropReleaseDone(s: State, t: ThreadId, w: int, r: int, n: int, p: Option<ThreadId>)
    ensures Goes(Put(s, t, ReleaseDone, w, r, n, p, Some(t)), t, DropQueueLock, Put(s, t, Idle, w, r, n, p, None))
  {
    Edge(s, t, DropQueueLock, ReleaseDone, w, r, n, p, Some(t), Idle, w, r, n, p, None);
  }

  lemma MarkReadEdge(s: State, t: ThreadId, w: int, r: int, n: int, p: Option<ThreadId>)
    ensures Goes(Put(s, t, ReadLocked, w, r, n, p, Some(t)), t, Mark,
                 Put(s, t, if w > 0 || (n != 0 && r != 1) then ReadBlocking
                           else if n == 0 then ReadConfirm else Waking(ByReader), w, r - 1, n + 1, p, Some(t)))
  {
    var pc' := if w > 0 || (n != 0 && r != 1) then ReadBlocking else if n == 0 then ReadConfirm else Waking(ByReader);
    Edge(s, t, Mark, ReadLocked, w, r, n, p, Some(t), pc', w, r - 1, n + 1, p, Some(t));
  }

  lemma MarkReadBlocks(s: State, t: ThreadId, w: int, r: int, n: int, p: Option<ThreadId>)
    requires w > 0 || (n > 0 && r > 1)
    ensures Goes(Put(s, t, ReadLocked, w, r, n, p, Some(t)), t, Mark,
                 Put(s, t, ReadBlocking, w, r - 1, n + 1, p, Some(t)))
  {
    hide Leads, Try, Put;
    MarkReadEdge(s, t, w, r, n, p);
  }

  lemma MarkReadWakes(s: State, t: ThreadId, n: int, p: Option<ThreadId>)
    requires n > 0
    ensures Goes(Put(s, t, ReadLocked, 0, 1, n, p, Some(t)), t, Mark,
                 Put(s, t, Waking(ByReader), 0, 0, n + 1, p, Some(t)))
  {
    hide Leads, Try, Put;
    MarkReadEdge(s, t, 0, 1, n, p);
  }

  lemma MarkWriteEdge(s: State, t: ThreadId, w: int, r: int, n: int, p: Option<ThreadId>)
    ensures Goes(Put(s, t, WriteLocked, w, r, n, p, Some(t)), t, Mark,
                 Put(s, t, if w > 0 || r > 0 then WriteBlocking else if n == 0 then Claim else Waking(ByWriter),
                     w, r, n + 1, p, Some(t)))
  {
    var pc' := if w > 0 || r > 0 then WriteBlocking else if n == 0 then Claim else Waking(ByWriter);
    Edge(s, t, Mark, WriteLocked, w, r, n, p, Some(t), pc', w, r, n + 1, p, Some(t));
  }

  lemma MarkWriteBlocks(s: State, t: ThreadId, w: int, r: int, n: int, p: Option<ThreadId>)
    requires w > 0 || r > 0
    ensures Goes(Put(s, t, WriteLocked, w, r, n, p, Some(t)), t, Mark,
                 Put(s, t, WriteBlocking, w, r, n + 1, p, Some(t)))
  {
    hide Leads, Try, Put;
    MarkWriteEdge(s, t, w, r, n, p);
  }

  lemma MarkUpgradeEdge(s: State, t: ThreadId, w: int, r: int, n: int, p: Option<ThreadId>)
    ensures Goes(Put(s, t, UpgradeLocked, w, r, n, p, Some(t)), t, Mark,
                 Put(s, t, if w == 0 && r == 1 then Claim else UpgradeBlocking, w, r - 1, n + 1, p, Some(t)))
  {
    var pc' := if w == 0 && r == 1 then Claim else UpgradeBlocking;
    Edge(s, t, Mark, UpgradeLocked, w, r, n, p, Some(t), pc', w, r - 1, n + 1, p, Some(t));
  }

  lemma MarkReleaseEdge(s: State, t: ThreadId, w: int, r: int, n: int, p: Option<ThreadId>)
    ensures Goes(Put(s, t, ReleaseLocked, w, r, n, p, Some(t)), t, Mark,
                 Put(s, t, if n > 0 && w == 0 && r == 0 then Waking(ByReleaser) else ReleaseDone, w, r, n, p, Some(t)))
  {
    var pc' := if n > 0 && w == 0 && r == 0 then Waking(ByReleaser) else ReleaseDone;
    Edge(s, t, Mark, ReleaseLocked, w, r, n, p, Some(t), pc', w, r, n, p, Some(t));
  }

  lemma BlockEdge(s: State, t: ThreadId, pc: Pc, w: int, r: int, n: int, p: Option<ThreadId>)
    requires pc in {ReadBlocking, WriteBlocking, UpgradeBlocking}
    ensures Goes(Put(s, t, pc, w, r, n, p, Some(t)), t, Block,
                 Put(s, t, if pc == ReadBlocking then ReadBlocked else WriteBlocked, w, r, n, p, None))
  {
    var pc' := if pc == ReadBlocking then ReadBlocked else WriteBlocked;
    Edge(s, t, Block, pc, w, r, n, p, Some(t), pc', w, r, n, p, None);
  }

  lemma FailReadEdge(s: State, t: ThreadId, w: int, r: int, n: int, p: Option<ThreadId>)
    ensures Goes(Put(s, t, ReadBlocking, w, r, n, p, Some(t)), t, FailToBlock, Put(s, t, ReadUndo, w, r, n, p, None))
  {
    Edge(s, t, FailToBlock, ReadBlocking, w, r, n, p, Some(t), ReadUndo, w, r, n, p, None);
  }

  lemma FailWriteEdge(s: State, t: ThreadId, w: int, r: int, n: int, p: Option<ThreadId>)
    ensures Goes(Put(s, t, WriteBlocking, w, r, n, p, Some(t)), t, FailToBlock,
                 Put(s, t, WriteAbandon, w, r, n, p, Some(t)))
  {
    Edge(s, t, FailToBlock, WriteBlocking, w, r, n, p, Some(t), WriteAbandon, w, r, n, p, Some(t));
  }

  lemma FailUpgradeEdge(s: State, t: ThreadId, w: int, r: int, n: int, p: Option<ThreadId>)
    ensures Goes(Put(s, t, UpgradeBlocking, w, r, n, p, Some(t)), t, FailToBlock,
                 Put(s, t, UpgradeUnlock, w, r + 1, n - 1, p, Some(t)))
  {
    Edge(s, t, FailToBlock, UpgradeBlocking, w, r, n, p, Some(t), UpgradeUnlock, w, r + 1, n - 1, p, Some(t));
  }

  lemma RestoreEdge(s: State, t: ThreadId, pc: Pc, w: int, r: int, n: int, p: Option<ThreadId>, l: Option<ThreadId>)
    requires pc in {ReadConfirm, ReadUndo, ReadRetry, WriteAbandon}
    ensures Goes(Put(s, t, pc, w, r, n, p, l), t, Restore,
                 Put(s, t, if pc == ReadConfirm then ReadGranted else if pc == ReadUndo then ReadSlow
                           else if pc == ReadRetry then ReadUnlock else WriteUnlock,
                     w, if pc == WriteAbandon then r else r + 1, n - 1, p, l))
  {
    var pc' := if pc == ReadConfirm then ReadGranted else if pc == ReadUndo then ReadSlow
               else if pc == ReadRetry then ReadUnlock else WriteUnlock;
    Edge(s, t, Restore, pc, w, r, n, p, l, pc', w, if pc == WriteAbandon then r else r + 1, n - 1, p, l);
  }

  lemma WakeNobodyEdge(s: State, t: ThreadId, who: Waker, w: int, r: int, n: int, p: Option<ThreadId>)
    ensures Goes(Put(s, t, Waking(who), w, r, n, p, Some(t)), t, WakeNobody,
                 Put(s, t, AfterFailedWake(who), w, r, n, p, Some(t)))
  {
    Edge(s, t, WakeNobody, Waking(who), w, r, n, p, Some(t), AfterFailedWake(who), w, r, n, p, Some(t));
  }

  lemma ClaimEdges(s: State, t: ThreadId, w: int, r: int, n: int, p: Option<ThreadId>)
    ensures Goes(Put(s, t, Claim, w, r, n, p, Some(t)), t, StorePointer, Put(s, t, Claimed, w, r, n, Some(t), Some(t)))
    ensures Goes(Put(s, t, Claimed, w, r, n, p, Some(t)), t, ClaimWord,
                 Put(s, t, WriteGranted, w + 1, r, n - 1, p, Some(t)))
  {
    Edge(s, t, StorePointer, Claim, w, r, n, p, Some(t), Claimed, w, r, n, Some(t), Some(t));
    Edge(s, t, ClaimWord, Claimed, w, r, n, p, Some(t), WriteGranted, w + 1, r, n - 1, p, Some(t));
  }

  /** Where a thread goes that leaves the lock to others. */
  function WayOut(somebodyWaits: bool): Pc {
    if somebodyWaits then Releasing else Idle
  }

  lemma ClearEdge(s: State, t: ThreadId, w: int, r: int, n: int, p: Option<ThreadId>, l: Option<ThreadId>)
    ensures Goes(Put(s, t, Writing, w, r, n, p, l), t, ClearPointer, Put(s, t, WriteReleasing, w, r, n, None, l))
  {
    Edge(s, t, ClearPointer, Writing, w, r, n, p, l, WriteReleasing, w, r, n, None, l);
  }

  lemma ReleaseWordEdge(s: State, t: ThreadId, w: int, r: int, n: int, p: Option<ThreadId>, l: Option<ThreadId>)
    ensures Goes(Put(s, t, WriteReleasing, w, r, n, p, l), t, ReleaseWord,
                 Put(s, t, WayOut(n > 0), w - 1, r, n, p, l))
  {
    Edge(s, t, ReleaseWord, WriteReleasing, w, r, n, p, l, WayOut(n > 0), w - 1, r, n, p, l);
  }

  lemma ReadReleaseEdge(s: State, t: ThreadId, w: int, r: int, n: int, p: Option<ThreadId>, l: Option<ThreadId>)
    ensures Goes(Put(s, t, Reading, w, r, n, p, l), t, ReadRelease,
                 Put(s, t, WayOut(r == 1 && n > 0), w, r - 1, n, p, l))
  {
    Edge(s, t, ReadRelease, Reading, w, r, n, p, l, WayOut(r == 1 && n > 0), w, r - 1, n, p, l);
  }

  lemma ReadEdge(s: State, t: ThreadId, w: int, r: int, n: int, p: Option<ThreadId>, l: Option<ThreadId>)
    ensures Goes(Put(s, t, Idle, w, r, n, p, l), t, ReadAcquire,
                 Put(s, t, if w == 0 && n == 0 then Reading else ReadSpin, w, r + 1, n, p, l))
  {
    Edge(s, t, ReadAcquire, Idle, w, r, n, p, l, if w == 0 && n == 0 then Reading else ReadSpin, w, r + 1, n, p, l);
  }

  lemma SwapEdges(s: State, t: ThreadId, p: Option<ThreadId>, l: Option<ThreadId>, w: int, r: int, n: int)
    ensures Goes(Put(s, t, Idle, 0, 0, 0, None, l), t, WriteAcquire, Put(s, t, Writing, 1, 0, 0, Some(t), l))
    ensures Goes(Put(s, t, Reading, 0, 1, 0, None, l), t, ReadUpgrade, Put(s, t, Writing, 1, 0, 0, Some(t), l))
    ensures w != 0 || r != 0 || n != 0 || p != None ==>
              Goes(Put(s, t, Idle, w, r, n, p, l), t, WriteAcquire, Put(s, t, WriteSpin, w, r, n, p, l))
    ensures w != 0 || r != 1 || n != 0 || p != None ==>
              Goes(Put(s, t, Reading, w, r, n, p, l), t, ReadUpgrade, Put(s, t, UpgradeSlow, w, r, n, p, l))
  {
    Edge(s, t, WriteAcquire, Idle, 0, 0, 0, None, l, Writing, 1, 0, 0, Some(t), l);
    Edge(s, t, ReadUpgrade, Reading, 0, 1, 0, None, l, Writing, 1, 0, 0, Some(t), l);
    if w != 0 || r != 0 || n != 0 || p != None {
      Edge(s, t, WriteAcquire, Idle, w, r, n, p, l, WriteSpin, w, r, n, p, l);
    }
    if w != 0 || r != 1 || n != 0 || p != None {
      Edge(s, t, ReadUpgrade, Reading, w, r, n, p, l, UpgradeSlow, w, r, n, p, l);
    }
  }

  /** The sleeping threads that are woken change along with t. */
  lemma WakeReadersEdge(s: State, t: ThreadId, who: Waker, woken: set<ThreadId>, w: int, r: int, n: int,
                        p: Option<ThreadId>)
    requires woken != {} && t !in woken && forall u :: u in woken ==> u in s.pcs && s.pcs[u] == ReadBlocked
    ensures Goes(Put(s, t, Waking(who), w, r, n, p, Some(t)), t, WakeReaders(woken),
                 Put(s.(pcs := Woken(s.pcs, woken)), t, AfterWake(who, true), w, r + |woken|, n - |woken|, p, Some(t)))
  {
    assert Woken(s.pcs[t := Waking(who)], woken)[t := AfterWake(who, true)] ==
           Woken(s.pcs, woken)[t := AfterWake(who, true)];
  }

  lemma WakeWriterEdges(s: State, t: ThreadId, who: Waker, x: ThreadId, w: int, r: int, n: int, p: Option<ThreadId>)
    requires x != t && x in s.pcs && s.pcs[x] == WriteBlocked
    ensures Goes(Put(s, t, Waking(who), w, r, n, p, Some(t)), t, PickWriter(x),
                 Put(s, t, Storing(who, x), w, r, n, Some(x), Some(t)))
    ensures Goes(Put(s, t, Storing(who, x), w, r, n, p, Some(t)), t, GrantWriter,
                 Put(Go(s, x, Writing), t, AfterWake(who, false), w + 1, r, n - 1, p, Some(t)))
  {
    Edge(s, t, PickWriter(x), Waking(who), w, r, n, p, Some(t), Storing(who, x), w, r, n, Some(x), Some(t));
    assert s.pcs[t := Storing(who, x)][x := Writing][t := AfterWake(who, false)] ==
           s.pcs[x := Writing][t := AfterWake(who, false)];
  }

  // ---------- round trips ----------

  /** Acquiring a free lock for writing and releasing it leaves no trace. */
  lemma WriteRoundTrip(s: State, t: ThreadId)
    requires Inv(s) && Named(s) && FreeWord(s) && t in s.pcs && s.pcs[t] == Idle
    ensures Solo(s, t, [WriteAcquire, ClearPointer, ReleaseWord]) == Some(s)
  {
    hide Inv, Named, Leads, Try, After, Put, Go;
    FreeMeansUnnamed(s);
    PutSelf(s, t);
    var l := s.queueLock;
    SwapEdges(s, t, None, l, 0, 0, 0);
    ClearEdge(s, t, 1, 0, 0, Some(t), l);
    ReleaseWordEdge(s, t, 1, 0, 0, None, l);
    Along3(Try(t), s, WriteAcquire, Put(s, t, Writing, 1, 0, 0, Some(t), l), ClearPointer,
           Put(s, t, WriteReleasing, 1, 0, 0, None, l), ReleaseWord, s);
  }

  /** Reading while nobody writes or waits leaves no trace, whoever else reads. */
  lemma ReadRoundTrip(s: State, t: ThreadId)
    requires s.writer == 0 && s.waiters == 0 && t in s.pcs && s.pcs[t] == Idle
    ensures Solo(s, t, [ReadAcquire, ReadRelease]) == Some(s)
  {
    hide Leads, Try, After, Put, Go;
    PutSelf(s, t);
    ReadEdge(s, t, 0, s.readers, 0, s.ptr, s.queueLock);
    ReadReleaseEdge(s, t, 0, s.readers + 1, 0, s.ptr, s.queueLock);
    Along2(Try(t), s, ReadAcquire, Put(s, t, Reading, 0, s.readers + 1, 0, s.ptr, s.queueLock), ReadRelease, s);
  }

  /** A sole reader nobody waits for is upgraded in one step, and out again without a trace. */
  lemma UpgradeRoundTrip(s: State, t: ThreadId)
    requires Inv(s) && Named(s) && FreeWord(s) && t in s.pcs && s.pcs[t] == Idle
    ensures Solo(s, t, [ReadAcquire, ReadUpgrade, ClearPointer, ReleaseWord]) == Some(s)
  {
    hide Inv, Named, Leads, Try, After, Put, Go;
    FreeMeansUnnamed(s);
    PutSelf(s, t);
    var l := s.queueLock;
    ReadEdge(s, t, 0, 0, 0, None, l);
    SwapEdges(s, t, None, l, 0, 0, 0);
    ClearEdge(s, t, 1, 0, 0, Some(t), l);
    ReleaseWordEdge(s, t, 1, 0, 0, None, l);
    Along4(Try(t), s, ReadAcquire, Put(s, t, Reading, 0, 1, 0, None, l), ReadUpgrade,
           Put(s, t, Writing, 1, 0, 0, Some(t), l), ClearPointer, Put(s, t, WriteReleasing, 1, 0, 0, None, l),
           ReleaseWord, s);
  }

  /** Spinning ends as soon as the lock is free, and goes on only while somebody holds it and nobody waits. */
  lemma SpinEnds(s: State, t: ThreadId, timeout: bool)
    requires Inv(s) && Named(s) && t in s.pcs
    ensures s.pcs[t] == ReadSpin ==>
              Do(s, t, Spin(timeout)) ==
              Go(s, t, if s.waiters == 0 && s.writer == 0 then Reading
                       else if s.waiters == 0 && !timeout then ReadSpin else ReadSlow)
    ensures s.pcs[t] == WriteSpin && FreeWord(s) ==>
              Do(s, t, Spin(timeout)) == Go(s.(writer := 1, ptr := Some(t)), t, Writing)
    ensures s.pcs[t] == WriteSpin && !FreeWord(s) ==>
              Do(s, t, Spin(timeout)) == Go(s, t, if s.waiters == 0 && !timeout then WriteSpin else WriteSlow)
  {
    hide Inv, Named;
    if FreeWord(s) { FreeMeansUnnamed(s); }
    NothingNegative(s, t);
  }

  lemma NothingNegative(s: State, t: ThreadId)
    requires Inv(s) && t in s.pcs
    ensures s.writer >= 0 && s.readers >= 0 && s.waiters >= 0
  {
    HasRole(s, t);
  }

  // ---------- contended acquires ----------

  /** A contended reader sleeps if a writer holds the lock, or if others wait and somebody reads. */
  lemma ReaderSleeps(s: State, t: ThreadId)
    requires t in s.pcs && s.pcs[t] == ReadSlow && s.queueLock == None
    requires s.writer > 0 || (s.waiters > 0 && s.readers > 1)
    ensures Solo(s, t, [TakeQueueLock, Mark, Block]) ==
            Some(Go(s.(readers := s.readers - 1, waiters := s.waiters + 1), t, ReadBlocked))
  {
    hide Leads, Try, After, Put, Go;
    var w, r, n, p := s.writer, s.readers, s.waiters, s.ptr;
    PutSelf(s, t);
    TakeRead(s, t, w, r, n, p);
    MarkReadBlocks(s, t, w, r, n, p);
    BlockEdge(s, t, ReadBlocking, w, r - 1, n + 1, p);
    PutGo(s, t, ReadBlocked, w, r - 1, n + 1, p, None);
    Along3(Try(t), s, TakeQueueLock, Put(s, t, ReadLocked, w, r, n, p, Some(t)), Mark,
           Put(s, t, ReadBlocking, w, r - 1, n + 1, p, Some(t)), Block,
           Put(s, t, ReadBlocked, w, r - 1, n + 1, p, None));
  }

  /** If it may not sleep it gets its read count back and starts over. */
  lemma ReaderFailsToSleep(s: State, t: ThreadId)
    requires t in s.pcs && s.pcs[t] == ReadSlow && s.queueLock == None
    requires s.writer > 0 || (s.waiters > 0 && s.readers > 1)
    ensures Solo(s, t, [TakeQueueLock, Mark, FailToBlock, Restore]) == Some(s)
  {
    hide Leads, Try, After, Put, Go;
    var w, r, n, p := s.writer, s.readers, s.waiters, s.ptr;
    PutSelf(s, t);
    TakeRead(s, t, w, r, n, p);
    MarkReadBlocks(s, t, w, r, n, p);
    FailReadEdge(s, t, w, r - 1, n + 1, p);
    RestoreEdge(s, t, ReadUndo, w, r - 1, n + 1, p, None);
    Along4(Try(t), s, TakeQueueLock, Put(s, t, ReadLocked, w, r, n, p, Some(t)), Mark,
           Put(s, t, ReadBlocking, w, r - 1, n + 1, p, Some(t)), FailToBlock,
           Put(s, t, ReadUndo, w, r - 1, n + 1, p, None), Restore, s);
  }

  /** A contended reader that finds neither writer nor waiter gets in. */
  lemma ReaderGetsIn(s: State, t: ThreadId)
    requires t in s.pcs && s.pcs[t] == ReadSlow && s.queueLock == None && s.writer == 0 && s.waiters == 0
    ensures Solo(s, t, [TakeQueueLock, Mark, Restore, DropQueueLock]) == Some(Go(s, t, Reading))
  {
    hide Leads, Try, After, Put, Go;
    var r, p := s.readers, s.ptr;
    PutSelf(s, t);
    TakeRead(s, t, 0, r, 0, p);
    MarkReadEdge(s, t, 0, r, 0, p);
    RestoreEdge(s, t, ReadConfirm, 0, r - 1, 1, p, Some(t));
    DropReadGranted(s, t, 0, r, 0, p);
    PutGo(s, t, Reading, 0, r, 0, p, None);
    Along4(Try(t), s, TakeQueueLock, Put(s, t, ReadLocked, 0, r, 0, p, Some(t)), Mark,
           Put(s, t, ReadConfirm, 0, r - 1, 1, p, Some(t)), Restore, Put(s, t, ReadGranted, 0, r, 0, p, Some(t)),
           DropQueueLock, Put(s, t, Reading, 0, r, 0, p, None));
  }

  /** A contended reader that is the only one counted and finds sleepers wakes readers and joins them. */
  lemma ReaderWakes(s: State, t: ThreadId, woken: set<ThreadId>)
    requires t in s.pcs && s.pcs[t] == ReadSlow && s.queueLock == None
    requires s.writer == 0 && s.readers == 1 && s.waiters > 0
    requires woken != {} && forall u :: u in woken ==> u in s.pcs && s.pcs[u] == ReadBlocked
    ensures Solo(s, t, [TakeQueueLock, Mark, WakeReaders(woken), Restore, DropQueueLock]) ==
            Some(Go(s.(readers := 1 + |woken|, waiters := s.waiters - |woken|, pcs := Woken(s.pcs, woken)), t, Reading))
  {
    hide Leads, Try, After, Woken, Put, Go;
    var n, p, k := s.waiters, s.ptr, |woken|;
    var s' := s.(pcs := Woken(s.pcs, woken));
    PutSelf(s, t);
    TakeRead(s, t, 0, 1, n, p);
    MarkReadWakes(s, t, n, p);
    WakeReadersEdge(s, t, ByReader, woken, 0, 0, n + 1, p);
    RestoreEdge(s', t, ReadConfirm, 0, k, n + 1 - k, p, Some(t));
    DropReadGranted(s', t, 0, k + 1, n - k, p);
    PutGo(s', t, Reading, 0, k + 1, n - k, p, None);
    Along5(Try(t), s, TakeQueueLock, Put(s, t, ReadLocked, 0, 1, n, p, Some(t)), Mark,
           Put(s, t, Waking(ByReader), 0, 0, n + 1, p, Some(t)), WakeReaders(woken),
           Put(s', t, ReadConfirm, 0, k, n + 1 - k, p, Some(t)), Restore,
           Put(s', t, ReadGranted, 0, k + 1, n - k, p, Some(t)), DropQueueLock,
           Put(s', t, Reading, 0, k + 1, n - k, p, None));
  }

  /** A reader that hands the lock to a writer instead gets its own count back and tries again. */
  lemma ReaderYields(s: State, t: ThreadId, x: ThreadId)
    requires t in s.pcs && s.pcs[t] == ReadLocked && s.queueLock == Some(t)
    requires s.writer == 0 && s.readers == 1 && s.waiters > 0 && x in s.pcs && s.pcs[x] == WriteBlocked
    ensures Solo(s, t, [Mark, PickWriter(x), GrantWriter, Restore, DropQueueLock]) ==
            Some(Go(Go(s, x, Writing).(writer := 1, waiters := s.waiters - 1, ptr := Some(x), queueLock := None),
                    t, ReadSlow))
  {
    hide Leads, Try, After, Put, Go;
    var n, p := s.waiters, s.ptr;
    var s' := Go(s, x, Writing);
    PutSelf(s, t);
    WordsKept(s, x, Writing);
    MarkReadWakes(s, t, n, p);
    WakeWriterEdges(s, t, ByReader, x, 0, 0, n + 1, p);
    WakeWriterEdges(s, t, ByReader, x, 0, 0, n + 1, Some(x));
    RestoreEdge(s', t, ReadRetry, 1, 0, n, Some(x), Some(t));
    DropReadUnlock(s', t, 1, 1, n - 1, Some(x));
    PutGo(s', t, ReadSlow, 1, 1, n - 1, Some(x), None);
    Along5(Try(t), s, Mark, Put(s, t, Waking(ByReader), 0, 0, n + 1, p, Some(t)), PickWriter(x),
           Put(s, t, Storing(ByReader, x), 0, 0, n + 1, Some(x), Some(t)), GrantWriter,
           Put(s', t, ReadRetry, 1, 0, n, Some(x), Some(t)), Restore,
           Put(s', t, ReadUnlock, 1, 1, n - 1, Some(x), Some(t)), DropQueueLock,
           Put(s', t, ReadSlow, 1, 1, n - 1, Some(x), None));
  }

  /** A contended writer sleeps if anybody holds the lock. */
  lemma WriterSleeps(s: State, t: ThreadId)
    requires t in s.pcs && s.pcs[t] == WriteSlow && s.queueLock == None && (s.writer > 0 || s.readers > 0)
    ensures Solo(s, t, [TakeQueueLock, Mark, Block]) == Some(Go(s.(waiters := s.waiters + 1), t, WriteBlocked))
  {
    hide Leads, Try, After, Put, Go;
    var w, r, n, p := s.writer, s.readers, s.waiters, s.ptr;
    PutSelf(s, t);
    TakeWrite(s, t, w, r, n, p);
    MarkWriteBlocks(s, t, w, r, n, p);
    BlockEdge(s, t, WriteBlocking, w, r, n + 1, p);
    PutGo(s, t, WriteBlocked, w, r, n + 1, p, None);
    Along3(Try(t), s, TakeQueueLock, Put(s, t, WriteLocked, w, r, n, p, Some(t)), Mark,
           Put(s, t, WriteBlocking, w, r, n + 1, p, Some(t)), Block, Put(s, t, WriteBlocked, w, r, n + 1, p, None));
  }

  /** If it may not sleep it takes its waiter count back and starts over. */
  lemma WriterFailsToSleep(s: State, t: ThreadId)
    requires t in s.pcs && s.pcs[t] == WriteSlow && s.queueLock == None && (s.writer > 0 || s.readers > 0)
    ensures Solo(s, t, [TakeQueueLock, Mark, FailToBlock, Restore, DropQueueLock]) == Some(s)
  {
    hide Leads, Try, After, Put, Go;
    var w, r, n, p := s.writer, s.readers, s.waiters, s.ptr;
    PutSelf(s, t);
    TakeWrite(s, t, w, r, n, p);
    MarkWriteBlocks(s, t, w, r, n, p);
    FailWriteEdge(s, t, w, r, n + 1, p);
    RestoreEdge(s, t, WriteAbandon, w, r, n + 1, p, Some(t));
    DropWriteUnlock(s, t, w, r, n, p);
    Along5(Try(t), s, TakeQueueLock, Put(s, t, WriteLocked, w, r, n, p, Some(t)), Mark,
           Put(s, t, WriteBlocking, w, r, n + 1, p, Some(t)), FailToBlock,
           Put(s, t, WriteAbandon, w, r, n + 1, p, Some(t)), Restore, Put(s, t, WriteUnlock, w, r, n, p, Some(t)),
           DropQueueLock, s);
  }

  /** A contended writer that finds the lock free and nobody waiting takes it. */
  lemma WriterGetsIn(s: State, t: ThreadId)
    requires t in s.pcs && s.pcs[t] == WriteSlow && s.queueLock == None && FreeWord(s)
    ensures Solo(s, t, [TakeQueueLock, Mark, StorePointer, ClaimWord, DropQueueLock]) ==
            Some(Go(s.(writer := 1, ptr := Some(t)), t, Writing))
  {
    hide Leads, Try, After, Put, Go;
    var p := s.ptr;
    PutSelf(s, t);
    TakeWrite(s, t, 0, 0, 0, p);
    MarkWriteEdge(s, t, 0, 0, 0, p);
    ClaimEdges(s, t, 0, 0, 1, p);
    ClaimEdges(s, t, 0, 0, 1, Some(t));
    DropWriteGranted(s, t, 1, 0, 0, Some(t));
    PutGo(s, t, Writing, 1, 0, 0, Some(t), None);
    Along5(Try(t), s, TakeQueueLock, Put(s, t, WriteLocked, 0, 0, 0, p, Some(t)), Mark,
           Put(s, t, Claim, 0, 0, 1, p, Some(t)), StorePointer, Put(s, t, Claimed, 0, 0, 1, Some(t), Some(t)),
           ClaimWord, Put(s, t, WriteGranted, 1, 0, 0, Some(t), Some(t)), DropQueueLock,
           Put(s, t, Writing, 1, 0, 0, Some(t), None));
  }

  /** A contended writer that finds the lock free but others asleep lets a writer go first. */
  lemma WriterYields(s: State, t: ThreadId, x: ThreadId)
    requires t in s.pcs && s.pcs[t] == WriteSlow && s.queueLock == None
    requires s.writer == 0 && s.readers == 0 && s.waiters > 0 && x in s.pcs && s.pcs[x] == WriteBlocked
    ensures Solo(s, t, [TakeQueueLock, Mark, PickWriter(x), GrantWriter, Block]) ==
            Some(Go(Go(s, x, Writing).(writer := 1, ptr := Some(x)), t, WriteBlocked))
  {
    hide Leads, Try, After, Put, Go;
    var n, p := s.waiters, s.ptr;
    var s' := Go(s, x, Writing);
    PutSelf(s, t);
    WordsKept(s, x, Writing);
    TakeWrite(s, t, 0, 0, n, p);
    MarkWriteEdge(s, t, 0, 0, n, p);
    WakeWriterEdges(s, t, ByWriter, x, 0, 0, n + 1, p);
    WakeWriterEdges(s, t, ByWriter, x, 0, 0, n + 1, Some(x));
    BlockEdge(s', t, WriteBlocking, 1, 0, n, Some(x));
    PutGo(s', t, WriteBlocked, 1, 0, n, Some(x), None);
    Along5(Try(t), s, TakeQueueLock, Put(s, t, WriteLocked, 0, 0, n, p, Some(t)), Mark,
           Put(s, t, Waking(ByWriter), 0, 0, n + 1, p, Some(t)), PickWriter(x),
           Put(s, t, Storing(ByWriter, x), 0, 0, n + 1, Some(x), Some(t)), GrantWriter,
           Put(s', t, WriteBlocking, 1, 0, n, Some(x), Some(t)), Block,
           Put(s', t, WriteBlocked, 1, 0, n, Some(x), None));
  }

  /** Likewise for sleeping readers. */
  lemma WriterYieldsToReaders(s: State, t: ThreadId, woken: set<ThreadId>)
    requires t in s.pcs && s.pcs[t] == WriteSlow && s.queueLock == None
    requires s.writer == 0 && s.readers == 0 && s.waiters > 0
    requires woken != {} && forall u :: u in woken ==> u in s.pcs && s.pcs[u] == ReadBlocked
    ensures Solo(s, t, [TakeQueueLock, Mark, WakeReaders(woken), Block]) ==
            Some(Go(s.(readers := |woken|, waiters := s.waiters + 1 - |woken|, pcs := Woken(s.pcs, woken)),
                    t, WriteBlocked))
  {
    hide Leads, Try, After, Woken, Put, Go;
    var n, p, k := s.waiters, s.ptr, |woken|;
    var s' := s.(pcs := Woken(s.pcs, woken));
    PutSelf(s, t);
    TakeWrite(s, t, 0, 0, n, p);
    MarkWriteEdge(s, t, 0, 0, n, p);
    WakeReadersEdge(s, t, ByWriter, woken, 0, 0, n + 1, p);
    BlockEdge(s', t, WriteBlocking, 0, k, n + 1 - k, p);
    PutGo(s', t, WriteBlocked, 0, k, n + 1 - k, p, None);
    Along4(Try(t), s, TakeQueueLock, Put(s, t, WriteLocked, 0, 0, n, p, Some(t)), Mark,
           Put(s, t, Waking(ByWriter), 0, 0, n + 1, p, Some(t)), WakeReaders(woken),
           Put(s', t, WriteBlocking, 0, k, n + 1 - k, p, Some(t)), Block,
           Put(s', t, WriteBlocked, 0, k, n + 1 - k, p, None));
  }

  // ---------- contended upgrades ----------

  /** An upgrade sleeps as a writer if others read. */
  lemma UpgradeSleeps(s: State, t: ThreadId)
    requires t in s.pcs && s.pcs[t] == UpgradeSlow && s.queueLock == None && s.readers > 1
    ensures Solo(s, t, [TakeQueueLock, Mark, Block]) ==
            Some(Go(s.(readers := s.readers - 1, waiters := s.waiters + 1), t, WriteBlocked))
  {
    hide Leads, Try, After, Put, Go;
    var w, r, n, p := s.writer, s.readers, s.waiters, s.ptr;
    PutSelf(s, t);
    TakeUpgrade(s, t, w, r, n, p);
    MarkUpgradeEdge(s, t, w, r, n, p);
    BlockEdge(s, t, UpgradeBlocking, w, r - 1, n + 1, p);
    PutGo(s, t, WriteBlocked, w, r - 1, n + 1, p, None);
    Along3(Try(t), s, TakeQueueLock, Put(s, t, UpgradeLocked, w, r, n, p, Some(t)), Mark,
           Put(s, t, UpgradeBlocking, w, r - 1, n + 1, p, Some(t)), Block,
           Put(s, t, WriteBlocked, w, r - 1, n + 1, p, None));
  }

  /** If it may not sleep it gets its read count back and starts over. */
  lemma UpgradeFailsToSleep(s: State, t: ThreadId)
    requires t in s.pcs && s.pcs[t] == UpgradeSlow && s.queueLock == None && s.readers > 1
    ensures Solo(s, t, [TakeQueueLock, Mark, FailToBlock, DropQueueLock]) == Some(s)
  {
    hide Leads, Try, After, Put, Go;
    var w, r, n, p := s.writer, s.readers, s.waiters, s.ptr;
    PutSelf(s, t);
    TakeUpgrade(s, t, w, r, n, p);
    MarkUpgradeEdge(s, t, w, r, n, p);
    FailUpgradeEdge(s, t, w, r - 1, n + 1, p);
    DropUpgradeUnlock(s, t, w, r, n, p);
    Along4(Try(t), s, TakeQueueLock, Put(s, t, UpgradeLocked, w, r, n, p, Some(t)), Mark,
           Put(s, t, UpgradeBlocking, w, r - 1, n + 1, p, Some(t)), FailToBlock,
           Put(s, t, UpgradeUnlock, w, r, n, p, Some(t)), DropQueueLock, s);
  }

  /** The last reader is upgraded even if others wait. */
  lemma UpgradeGetsIn(s: State, t: ThreadId)
    requires t in s.pcs && s.pcs[t] == UpgradeSlow && s.queueLock == None && s.writer == 0 && s.readers == 1
    ensures Solo(s, t, [TakeQueueLock, Mark, StorePointer, ClaimWord, DropQueueLock]) ==
            Some(Go(s.(writer := 1, readers := 0, ptr := Some(t)), t, Writing))
  {
    hide Leads, Try, After, Put, Go;
    var n, p := s.waiters, s.ptr;
    PutSelf(s, t);
    TakeUpgrade(s, t, 0, 1, n, p);
    MarkUpgradeEdge(s, t, 0, 1, n, p);
    ClaimEdges(s, t, 0, 0, n + 1, p);
    ClaimEdges(s, t, 0, 0, n + 1, Some(t));
    DropWriteGranted(s, t, 1, 0, n, Some(t));
    PutGo(s, t, Writing, 1, 0, n, Some(t), None);
    Along5(Try(t), s, TakeQueueLock, Put(s, t, UpgradeLocked, 0, 1, n, p, Some(t)), Mark,
           Put(s, t, Claim, 0, 0, n + 1, p, Some(t)), StorePointer, Put(s, t, Claimed, 0, 0, n + 1, Some(t), Some(t)),
           ClaimWord, Put(s, t, WriteGranted, 1, 0, n, Some(t), Some(t)), DropQueueLock,
           Put(s, t, Writing, 1, 0, n, Some(t), None));
  }

  // ---------- releases ----------

  /** The last reader out goes on to wake if and only if somebody waits. */
  lemma LastReaderOut(s: State, t: ThreadId)
    requires t in s.pcs && s.pcs[t] == Reading
    ensures Solo(s, t, [ReadRelease]) ==
            Some(Go(s.(readers := s.readers - 1), t, WayOut(s.readers == 1 && s.waiters > 0)))
  {
    hide Leads, Try, After, Put, Go, WayOut;
    var w, r, n, p, l := s.writer, s.readers, s.waiters, s.ptr, s.queueLock;
    var pc := WayOut(r == 1 && n > 0);
    PutSelf(s, t);
    ReadReleaseEdge(s, t, w, r, n, p, l);
    PutGo(s, t, pc, w, r - 1, n, p, l);
    Along1(Try(t), s, ReadRelease, Put(s, t, pc, w, r - 1, n, p, l));
  }

  /** The writer empties the pointer on its way out and goes on to wake if and only if somebody waits. */
  lemma WriterOut(s: State, t: ThreadId)
    requires t in s.pcs && s.pcs[t] == Writing
    ensures Solo(s, t, [ClearPointer, ReleaseWord]) ==
            Some(Go(s.(writer := s.writer - 1, ptr := None), t, WayOut(s.waiters > 0)))
  {
    hide Leads, Try, After, Put, Go, WayOut;
    var w, r, n, p, l := s.writer, s.readers, s.waiters, s.ptr, s.queueLock;
    var pc := WayOut(n > 0);
    PutSelf(s, t);
    ClearEdge(s, t, w, r, n, p, l);
    ReleaseWordEdge(s, t, w, r, n, None, l);
    PutGo(s, t, pc, w - 1, r, n, None, l);
    Along2(Try(t), s, ClearPointer, Put(s, t, WriteReleasing, w, r, n, None, l), ReleaseWord,
           Put(s, t, pc, w - 1, r, n, None, l));
  }

  /** A releaser hands the free lock to sleeping readers, each of whom gets a count. */
  lemma ReleaserWakesReaders(s: State, t: ThreadId, woken: set<ThreadId>)
    requires t in s.pcs && s.pcs[t] == Releasing && s.queueLock == None
    requires s.writer == 0 && s.readers == 0 && s.waiters > 0
    requires woken != {} && forall u :: u in woken ==> u in s.pcs && s.pcs[u] == ReadBlocked
    ensures Solo(s, t, [TakeQueueLock, Mark, WakeReaders(woken), DropQueueLock]) ==
            Some(Go(s.(readers := |woken|, waiters := s.waiters - |woken|, pcs := Woken(s.pcs, woken)), t, Idle))
  {
    hide Leads, Try, After, Woken, Put, Go;
    var n, p, k := s.waiters, s.ptr, |woken|;
    var s' := s.(pcs := Woken(s.pcs, woken));
    PutSelf(s, t);
    TakeRelease(s, t, 0, 0, n, p);
    MarkReleaseEdge(s, t, 0, 0, n, p);
    WakeReadersEdge(s, t, ByReleaser, woken, 0, 0, n, p);
    DropReleaseDone(s', t, 0, k, n - k, p);
    PutGo(s', t, Idle, 0, k, n - k, p, None);
    Along4(Try(t), s, TakeQueueLock, Put(s, t, ReleaseLocked, 0, 0, n, p, Some(t)), Mark,
           Put(s, t, Waking(ByReleaser), 0, 0, n, p, Some(t)), WakeReaders(woken),
           Put(s', t, ReleaseDone, 0, k, n - k, p, Some(t)), DropQueueLock, Put(s', t, Idle, 0, k, n - k, p, None));
  }

  /** A releaser hands the free lock to a sleeping writer, which `writer_` names from then on. */
  lemma ReleaserWakesWriter(s: State, t: ThreadId, x: ThreadId)
    requires t in s.pcs && s.pcs[t] == Releasing && s.queueLock == None
    requires s.writer == 0 && s.readers == 0 && s.waiters > 0 && x in s.pcs && s.pcs[x] == WriteBlocked
    ensures Solo(s, t, [TakeQueueLock, Mark, PickWriter(x), GrantWriter, DropQueueLock]) ==
            Some(Go(Go(s, x, Writing).(writer := 1, waiters := s.waiters - 1, ptr := Some(x)), t, Idle))
  {
    hide Leads, Try, After, Put, Go;
    var n, p := s.waiters, s.ptr;
    var s' := Go(s, x, Writing);
    PutSelf(s, t);
    WordsKept(s, x, Writing);
    TakeRelease(s, t, 0, 0, n, p);
    MarkReleaseEdge(s, t, 0, 0, n, p);
    WakeWriterEdges(s, t, ByReleaser, x, 0, 0, n, p);
    WakeWriterEdges(s, t, ByReleaser, x, 0, 0, n, Some(x));
    DropReleaseDone(s', t, 1, 0, n - 1, Some(x));
    PutGo(s', t, Idle, 1, 0, n - 1, Some(x), None);
    Along5(Try(t), s, TakeQueueLock, Put(s, t, ReleaseLocked, 0, 0, n, p, Some(t)), Mark,
           Put(s, t, Waking(ByReleaser), 0, 0, n, p, Some(t)), PickWriter(x),
           Put(s, t, Storing(ByReleaser, x), 0, 0, n, Some(x), Some(t)), GrantWriter,
           Put(s', t, ReleaseDone, 1, 0, n - 1, Some(x), Some(t)), DropQueueLock,
           Put(s', t, Idle, 1, 0, n - 1, Some(x), None));
  }

  /** A releaser that could lock none of the sleepers starts over; one that is no longer needed leaves. */
  lemma ReleaserLeaves(s: State, t: ThreadId)
    requires t in s.pcs && s.pcs[t] == Releasing && s.queueLock == None
    ensures s.writer == 0 && s.readers == 0 && s.waiters > 0 ==>
              Solo(s, t, [TakeQueueLock, Mark, WakeNobody, DropQueueLock]) == Some(s)
    ensures !(s.writer == 0 && s.readers == 0 && s.waiters > 0) ==>
              Solo(s, t, [TakeQueueLock, Mark, DropQueueLock]) == Some(Go(s, t, Idle))
  {
    hide Leads, Try, After, Put, Go;
    var w, r, n, p := s.writer, s.readers, s.waiters, s.ptr;
    PutSelf(s, t);
    TakeRelease(s, t, w, r, n, p);
    MarkReleaseEdge(s, t, w, r, n, p);
    WakeNobodyEdge(s, t, ByReleaser, w, r, n, p);
    DropReleaseRetry(s, t, w, r, n, p);
    DropReleaseDone(s, t, w, r, n, p);
    var s1 := Put(s, t, ReleaseLocked, w, r, n, p, Some(t));
    if w == 0 && r == 0 && n > 0 {
      Along4(Try(t), s, TakeQueueLock, s1, Mark, Put(s, t, Waking(ByReleaser), w, r, n, p, Some(t)), WakeNobody,
             Put(s, t, ReleaseRetry, w, r, n, p, Some(t)), DropQueueLock, s);
    } else {
      PutGo(s, t, Idle, w, r, n, p, None);
      Along3(Try(t), s, TakeQueueLock, s1, Mark, Put(s, t, ReleaseDone, w, r, n, p, Some(t)), DropQueueLock,
             Put(s, t, Idle, w, r, n, p, None));
    }
  }

  /** A reader that could lock none of the sleepers takes its count back and starts over. */
  lemma ReaderStartsOver(s: State, t: ThreadId)
    requires t in s.pcs && s.pcs[t] == ReadSlow && s.queueLock == None
    requires s.writer == 0 && s.readers == 1 && s.waiters > 0
    ensures Solo(s, t, [TakeQueueLock, Mark, WakeNobody, Restore, DropQueueLock]) == Some(s)
  {
    hide Leads, Try, After, Put, Go;
    var n, p := s.waiters, s.ptr;
    PutSelf(s, t);
    TakeRead(s, t, 0, 1, n, p);
    MarkReadWakes(s, t, n, p);
    WakeNobodyEdge(s, t, ByReader, 0, 0, n + 1, p);
    RestoreEdge(s, t, ReadRetry, 0, 0, n + 1, p, Some(t));
    DropReadUnlock(s, t, 0, 1, n, p);
    Along5(Try(t), s, TakeQueueLock, Put(s, t, ReadLocked, 0, 1, n, p, Some(t)), Mark,
           Put(s, t, Waking(ByReader), 0, 0, n + 1, p, Some(t)), WakeNobody,
           Put(s, t, ReadRetry, 0, 0, n + 1, p, Some(t)), Restore, Put(s, t, ReadUnlock, 0, 1, n, p, Some(t)),
           DropQueueLock, s);
  }

  /** So does a writer. */
  lemma WriterStartsOver(s: State, t: ThreadId)
    requires t in s.pcs && s.pcs[t] == WriteSlow && s.queueLock == None
    requires s.writer == 0 && s.readers == 0 && s.waiters > 0
    ensures Solo(s, t, [TakeQueueLock, Mark, WakeNobody, Restore, DropQueueLock]) == Some(s)
  {
    hide Leads, Try, After, Put, Go;
    var n, p := s.waiters, s.ptr;
    PutSelf(s, t);
    TakeWrite(s, t, 0, 0, n, p);
    MarkWriteEdge(s, t, 0, 0, n, p);
    WakeNobodyEdge(s, t, ByWriter, 0, 0, n + 1, p);
    RestoreEdge(s, t, WriteAbandon, 0, 0, n + 1, p, Some(t));
    DropWriteUnlock(s, t, 0, 0, n, p);
    Along5(Try(t), s, TakeQueueLock, Put(s, t, WriteLocked, 0, 0, n, p, Some(t)), Mark,
           Put(s, t, Waking(ByWriter), 0, 0, n + 1, p, Some(t)), WakeNobody,
           Put(s, t, WriteAbandon, 0, 0, n + 1, p, Some(t)), Restore, Put(s, t, WriteUnlock, 0, 0, n, p, Some(t)),
           DropQueueLock, s);
  }

  // ---------- nobody is ever stuck ----------

  /** Outside the code of the lock, or asleep in its queue. */
  predicate AtRest(pc: Pc) {
    pc.Idle? || InQueue(pc)
  }

  /** A step that a thread at this point can take as soon as the queue lock is free. */
  function NextStep(pc: Pc): Action {
    match pc
    case Reading => ReadRelease
    case Writing => ClearPointer
    case WriteReleasing => ReleaseWord
    case ReadSpin => Spin(true)
    case WriteSpin => Spin(true)
    case ReadLocked => Mark
    case WriteLocked => Mark
    case UpgradeLocked => Mark
    case ReleaseLocked => Mark
    case ReadBlocking => Block
    case WriteBlocking => Block
    case UpgradeBlocking => Block
    case ReadConfirm => Restore
    case ReadUndo => Restore
    case ReadRetry => Restore
    case WriteAbandon => Restore
    case Claim => StorePointer
    case Claimed => ClaimWord
    case Waking(_) => WakeNobody
    case Storing(_, _) => GrantWriter
    case ReadSlow => TakeQueueLock
    case WriteSlow => TakeQueueLock
    case UpgradeSlow => TakeQueueLock
    case Releasing => TakeQueueLock
    case _ => DropQueueLock
  }

  lemma CanStep(s: State, t: ThreadId)
    requires t in s.pcs && (if s.queueLock == None then !AtRest(s.pcs[t]) else HoldsQueueLock(s.pcs[t]))
    ensures Enabled(s, t, NextStep(s.pcs[t]))
  {
  }

  /** In every state of every run, unless all threads are at rest, somebody can take a step. */
  lemma NobodyIsStuck(run: seq<State>, n: nat, t: ThreadId)
    requires IsRun(run) && n < |run| && t in run[n].pcs && !AtRest(run[n].pcs[t])
    ensures exists u :: u in run[n].pcs && Enabled(run[n], u, NextStep(run[n].pcs[u]))
  {
    hide Do, NextStep, Enabled;
    RunInv(run, n);
    var s := run[n];
    if s.queueLock == None {
      CanStep(s, t);
    } else {
      LockHolderKnown(run, n);
      CanStep(s, s.queueLock.value);
    }
  }

  lemma HolderStep(s: State, t: ThreadId, a: Action)
    requires Enabled(s, t, a) && (s.queueLock.Some? ==> s.queueLock.value in s.pcs)
    ensures var s' := Do(s, t, a); s'.queueLock.Some? ==> s'.queueLock.value in s'.pcs
  {
  }

  /** The queue lock is never left behind by a thread that does not exist. */
  lemma {:induction false} LockHolderKnown(run: seq<State>, n: nat)
    requires IsRun(run) && n < |run|
    ensures run[n].queueLock.Some? ==> run[n].queueLock.value in run[n].pcs
  {
    hide Do, Enabled;
    if n > 0 {
      LockHolderKnown(run, n - 1);
      var t, a :| Enabled(run[n - 1], t, a) && run[n] == Do(run[n - 1], t, a);
      HolderStep(run[n - 1], t, a);
    }
  }
}
