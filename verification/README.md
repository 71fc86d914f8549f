# Zircon kernel: scheduling, inheritance, locks, timers and object protocols

A Dafny model of the parts of the kernel whose correctness depends on many steps
fitting together, with proofs that they do.

* **Priority inheritance** (`Profiles`, `PiGraph`, `Inheritance`, `EdgeChanges`,
  `Recompute`, `Propagation`, `Operations`, `OwnedWaitQueue`, `EarlyExit`). Threads
  point at the queue they are blocked in, owned queues point at their owner. Every
  operation on the graph pushes one change down one chain; the proofs show that
  afterwards every node holds the aggregate of everything upstream, as a recomputation
  from scratch would give it, and that no operation ever closes a cycle, not even
  halfway through a requeue.
* **Chain locking** (`ChainLocks`, `RequeueFaults`). Blocking and requeueing lock the
  chains they will touch one node at a time while others go on changing what is not
  locked. The proofs account for every lock on every path, say why an owner was turned
  down, connect the locking decisions to the acyclicity of the graph, and show that a
  requeue writes every node under its lock.
* **Locks as interleaved atomic steps** (`BrwLock`, `Mutex`, `Semaphore`, with
  `Counting`). Each atomic operation on the state word is one step; the theorems hold
  for every state of every run of any number of threads. They include that no wake-up
  is lost. What whole operations do, that they undo each other, and that nobody gets
  stuck is in `BrwLockUse`, `MutexUse` and `SemaphoreUse`, with `Alone`.
* **Scheduler and wait queues** (`RunQueueSearch`, `SchedulerTotals`,
  `WaitQueueCollection`).
* **Timers** (`TimerQueue`), **CPU clustering and search order** (`CpuClusters`,
  `CpuSearchSet`), **clocks** (`Affine`, `Clock`), **channel calls** (`Channel`) and
  **restartable enumeration** (`VmEnumerator`), with `Arithmetic` for products and
  quotients, `Aggregates` for sums over maps and `Basics` for what everybody uses.

Weights and utilizations are whole numbers, because the code modelled here only
adds, subtracts, compares and takes minima of them. Time stamps are bounded 64-bit
numbers with the source's saturation; the state words of the locks are modelled field
by field. Atomic operations are sequentially consistent steps.

Five promises turn out to have an exact condition:

* The inheritance aggregates stay exact throughout every run if and only if every
  deadline profile has a positive utilization or no deadline short of the maximum
  (`Admissible`, `LawHoldsIffAdmissible`). A capacity can be small enough for its
  utilization to round to zero. Such a deadline is lost in two ways: a change without
  weight and utilization is not propagated at all, and a fair thread that inherits a
  deadline without utilization is scheduled as fair, so the queue it blocks in does
  not see the deadline. For profiles that are not admissible, `EarlyExit` says of each
  operation when it is harmless: by one condition on the graph before the call for
  each operation that is not propagated, and by one condition on base profiles and
  edges (`WalkedExactIff`) for all that are.
* When `LockForRequeueOperation` retreats after its third walk, it releases every lock
  once if and only if the requeue target does not keep its owner. The target's owner
  chain is given back a second time where it was never locked on its own
  (`RetreatFaults` is an input). The one caller outside of tests,
  `FutexContext::FutexRequeue`, can get there: the requested owner is the target's
  present one, the wake queue has an owner, and the third walk has to back off.
* A completed requeue releases every lock once if and only if the target does not keep
  an owner that is itself being woken; that owner's chain is unlocked from a start
  point equal to its stop point (`ReleaseFaults` is an input). `FutexRequeue` cannot
  get there, because it refuses an owner that waits on the wake futex
  (kernel/object/futex_context.cc:664-670). The only other caller is a test
  (kernel/tests/owned_wait_queue_topology.cc:238).
* `InitializeFirstThread` writes the CPU's weight total instead of adding to it, which
  is right exactly if that total was zero. Its only caller sets up the first thread of
  a CPU (kernel/kernel/thread.cc:1812), where it is.
* An enumerator that is used again would report every entry exactly if none lay at
  address zero above the depth its last use ended at, because that depth is not reset.
  The repository makes no such use: both callers build a new enumerator and call it
  once, and a new one reports everything.

The comment above the tree search speaks of start times "equal to or later than" the
eligible time; the code selects start times at or before it, and the model follows
the code. The wake-order comment of the wait queue calls a deadline thread eligible if
its finish time is in the future; the code also accepts a finish time equal to now.

Verify everything with `dafny verify dfyconfig.toml`.

## Model

| member | source | states |
|---|---|---|
| `Recompute.IncrementalEqualsRecomputed` | kernel/kernel/owned_wait_queue.cc:282-662 | In every exact, acyclic graph, for any profiles, the stored inherited values of every thread and of every occupied queue equal those computed from scratch by recursion over the graph from base profiles and edges alone, and the stored effective profile is the one these determine; what that profile means is `Recompute.ScheduledWith`. |
| `Recompute.ScheduledWith` | kernel/kernel/scheduler_state.cc:11-39 | What a thread is scheduled with, for any profiles, in terms of its base profile and everything upstream: a deadline profile if and only if it has one or inherits utilization; else its own weight plus all inherited weight; the sum of the utilizations up to the limit; and the least deadline in reach. |
| `Recompute.IncrementalThread` | kernel/kernel/owned_wait_queue.cc:300-379 | Per thread: the incrementally maintained inherited values are the aggregate over everything upstream, by induction on the distance to the end of the graph. |
| `Recompute.IncrementalQueue` | kernel/kernel/owned_wait_queue.cc:381-403 | Per occupied queue: likewise, over its waiters' recomputed transmitted values. |
| `OwnedWaitQueue.Graph.FinishPropagate` | kernel/kernel/owned_wait_queue.cc:472-662 | For any profiles, the loop leaves exactly the state that the recursive walk down the chain defines, with the same early exit, the same alternation of queues and threads and the same end, and it terminates. |
| `OwnedWaitQueue.Graph.constructor` | kernel/include/kernel/scheduler_state.h:302-309 | Threads without edges, with admissible profiles, form a valid graph, from which the operations below start. |
| `Propagation.WalkValid` | kernel/kernel/owned_wait_queue.cc:472-662 | With admissible profiles, carrying one pending change to the end of its chain makes every node of the whole graph exact again. |
| `Propagation.WalkExactIff` | kernel/kernel/owned_wait_queue.cc:472-662 | For any profiles: the walk leaves the whole graph exact if and only if every owned queue on the way can find its least deadline, which base profiles and edges alone decide. |
| `Propagation.PropagateFrame` | kernel/kernel/owned_wait_queue.cc:472-662 | Propagation touches no edge, no base profile and no disowned thread, and every effective profile still follows from base profile and inherited values. |
| `Propagation.PropagateOnlyChanges` | kernel/kernel/owned_wait_queue.cc:472-662 | Propagation writes no node off the chain it follows. |
| `Propagation.WalkAdds` | kernel/kernel/owned_wait_queue.cc:472-662 | Every thread on the chain gains exactly the two deltas of the change, and every other thread exactly nothing. |
| `Operations.EditPending` | kernel/kernel/owned_wait_queue.cc:406-470 | Each of the six operations of the graph leaves exactly one node with exactly one pending change, the one the code propagates, or none at all. |
| `Operations.DoValid` | kernel/kernel/owned_wait_queue.cc:406-470 | Each of the six operations, run to the end of its propagation, leads from a valid graph to a valid graph: every value exact, no cycle. |
| `Operations.DoOnlyChanges` | kernel/kernel/owned_wait_queue.cc:406-470 | An operation writes no node but those it edits and those on the chain it propagates along. |
| `Operations.PressureArrives` | kernel/kernel/owned_wait_queue.cc:406-662 | For each of the six operations: every thread downstream of the edited node gains or loses exactly the weight and the utilization the operation changes, and nobody else gains or loses any. |
| `Operations.JoinRaisesWeight` | kernel/kernel/owned_wait_queue.cc:406-429 | A thread that blocks in an owned queue and brings no utilization raises the effective weight of a fair owner by exactly the weight it transmits. |
| `OwnedWaitQueue.Graph.ApplyIpvDeltaToThread` | kernel/kernel/owned_wait_queue.cc:300-379 | Absorbs one change at a thread: deltas added, minimum rescanned only if the value that goes may have been the minimum, effective profile recomputed. That the recomputed profile is the sum of what is upstream is `Recompute.ScheduledWith`. |
| `OwnedWaitQueue.Graph.ApplyIpvDeltaToOwq` | kernel/kernel/owned_wait_queue.cc:381-403 | Absorbs one change at a queue: deltas added, minimum read off the waiters' effective deadlines. |
| `Propagation.ThreadArrives` | kernel/kernel/owned_wait_queue.cc:300-379 | Where the change is pending, adding the deltas and only sometimes rescanning yields exactly the aggregate over the queues the thread owns. |
| `Propagation.QueueArrives` | kernel/kernel/owned_wait_queue.cc:381-403 | Where the change is pending, adding the deltas and reading the minimum yields exactly the aggregate over the waiters, provided the queue sees its waiters' least deadline. |
| `WaitQueueCollection.MinInheritableRelativeDeadline` | kernel/kernel/wait.cc:164-193 | One look at the root yields the least relative deadline of all waiters, or none if all are fair. |
| `OwnedWaitQueue.Graph.MinInheritableRelativeDeadline` | kernel/kernel/wait.cc:164-193 | The scan yields the least deadline among the waiters' effective profiles; that it is the least one they transmit holds for admissible profiles and is `Propagation.HealthySeen`. |
| `Propagation.HealthySeen` | kernel/kernel/wait.cc:164-193 | With admissible profiles the least deadline the waiters are scheduled with is the least one they transmit. |
| `OwnedWaitQueue.Graph.MinOwnedDeadline` | kernel/kernel/owned_wait_queue.cc:352-365 | The rescan finds the minimum over the occupied queues a thread owns. |
| `Inheritance.StepQueue` | kernel/kernel/owned_wait_queue.cc:381-403 | A queue that absorbs its change leaves exactly its owner with the same change pending, or the whole graph exact. |
| `Inheritance.StepThread` | kernel/kernel/owned_wait_queue.cc:300-379 | A thread that absorbs its change leaves exactly the queue it is blocked in with the same change pending, or the whole graph exact. |
| `Inheritance.InconsequentialChange` | kernel/kernel/owned_wait_queue.cc:488-494 | With admissible profiles, the early exit is taken only when the graph is already exact. |
| `EarlyExit.SkippedJoinExactIff` | kernel/kernel/owned_wait_queue.cc:125-128 | When the early exit swallows a join, the graph stays exact if and only if the joining thread's deadline is no shorter than the queue's present minimum. |
| `EarlyExit.SkippedLeaveExactIff` | kernel/kernel/owned_wait_queue.cc:125-128 | When it swallows a departure from a queue that stays occupied, the graph stays exact if and only if some remaining waiter's deadline is as short. |
| `EarlyExit.SkippedLastLeaveExactIff` | kernel/kernel/owned_wait_queue.cc:488-494 | When it swallows the departure of the last waiter of an owned queue: if and only if another queue of the owner inherits a deadline as short. |
| `EarlyExit.SkippedOwnExactIff` | kernel/kernel/owned_wait_queue.cc:488-494 | When it swallows a new owner: if and only if the owner already inherits a deadline as short as the queue's. |
| `EarlyExit.SkippedDisownExactIff` | kernel/kernel/owned_wait_queue.cc:488-494 | When it swallows the loss of an owner: if and only if another queue of the former owner inherits a deadline as short. |
| `EarlyExit.SkippedRebaseExactIff` | kernel/kernel/owned_wait_queue.cc:488-494 | When it swallows a change of base profile: if and only if the transmitted deadline stays the same, or another waiter's is at most the lesser of old and new. |
| `EarlyExit.WalkedExactIff` | kernel/kernel/owned_wait_queue.cc:496-662 | Any operation that is not swallowed keeps the graph exact if and only if every owned queue on the way can find its least deadline. |
| `EarlyExit.WalkedJoinExactIff` | kernel/kernel/wait.cc:164-193 | A thread that carries weight and joins an unowned queue: if and only if it is scheduled with the deadline it transmits, or the queue already inherits one as short. |
| `EarlyExit.HiddenDeadlineIsMissed` | kernel/kernel/wait.cc:164-193 | Counterexample family: a fair thread that inherits a deadline without utilization hides it from the queue it blocks in, although its change is propagated. |
| `EarlyExit.LawHoldsIffAdmissible` | kernel/kernel/owned_wait_queue.cc:472-662 | Over any set of base profiles: every state of every run of operations is exact if and only if every profile of the set is admissible. |
| `EarlyExit.RunValid` | kernel/kernel/owned_wait_queue.cc:472-662 | With admissible profiles every state of every run is exact and acyclic. |
| `EarlyExit.ZeroUtilizationLosesItsDeadline` | kernel/kernel/owned_wait_queue.cc:488-494 | Counterexample family: a thread with zero utilization and any deadline short of the maximum breaks the aggregate law by blocking in an empty queue. |
| `EarlyExit.AdmissibleNeverLoses` | kernel/kernel/owned_wait_queue.cc:125-128 | A thread with an admissible profile that is inconsequential transmits nothing at all. |
| `Profiles.TransmittedIsPlus` | kernel/kernel/owned_wait_queue.cc:282-298 | What a thread transmits is its base contribution aggregated with what it inherits. |
| `Inheritance.EffectiveDeadline` | kernel/kernel/scheduler_state.cc:11-39 | With admissible profiles, the deadline a thread is scheduled with is the deadline it transmits. The other fields of the effective profile are `Recompute.ScheduledWith`. |
| `Profiles.AggSplit` | kernel/kernel/owned_wait_queue.cc:381-403 | The aggregate of weights, utilizations and minimum deadline does not depend on the order of its contributors. |
| `Profiles.DeltaReplace` | kernel/kernel/owned_wait_queue.cc:300-403 | A change of one contributor changes an aggregate by the same delta, including how its minimum may move. |
| `OwnedWaitQueue.Graph.InsertWaiter` | kernel/kernel/owned_wait_queue.cc:406-429 | A thread that blocks: the join of the operation model, with its propagation; from a valid graph every aggregate is exact and no cycle arises, given that the queue's chain does not lead to the thread. |
| `OwnedWaitQueue.Graph.RemoveWaiterFromQueue` | kernel/kernel/wait.cc:700-721 | A thread that is woken, times out or is requeued: edge gone, every aggregate exact again. |
| `OwnedWaitQueue.Graph.RemoveOwner` | kernel/kernel/owned_wait_queue.cc:432-470 | A queue that loses its owner: edge gone, every aggregate exact again. |
| `OwnedWaitQueue.Graph.AddOwner` | kernel/kernel/owned_wait_queue.cc:432-470 | A queue that gains an owner: new edge, every aggregate exact, no cycle, given that the owner's chain avoids the queue. |
| `OwnedWaitQueue.Graph.AssignOwnerInternal` | kernel/kernel/owned_wait_queue.cc:1757-1777 | Replacing the owner keeps every aggregate exact and the graph acyclic; the owner map changes at this queue only, and nothing off the chains of the queue and the new owner is written. |
| `OwnedWaitQueue.Graph.AssignOwner` | kernel/kernel/owned_wait_queue.cc:1670-1723 | Refused if and only if the new owner's chain leads back to the queue; otherwise the owner is replaced and everything stays exact and acyclic. |
| `OwnedWaitQueue.Graph.ChainMeets` | kernel/kernel/owned_wait_queue.cc:1446-1516 | Following the chain decides reachability. |
| `OwnedWaitQueue.Graph.WakeOne` | kernel/kernel/owned_wait_queue.cc:223-250 | One woken thread leaves and, if others still wait and ownership is to be assigned, becomes the owner; nothing off its old chain is written. |
| `OwnedWaitQueue.Graph.RequeueOne` | kernel/kernel/owned_wait_queue.cc:2076-2096 | One thread passes from its queue to another through valid states; nothing off its old chain and the target's is written. |
| `OwnedWaitQueue.Graph.WakeThreadsLocked` | kernel/kernel/owned_wait_queue.cc:201-263 | Exactly the listed threads leave the queue; the old owner is gone; the single woken thread owns the queue exactly if asked for and somebody still waits; all aggregates exact, no cycle. |
| `ChainLocks.Transaction.RequeueThreads` | kernel/kernel/owned_wait_queue.cc:2072-2096 | Each requeued thread passes from one queue to the other through valid states only, under the locks held at that moment, and its lock is released before the next one moves. |
| `ChainLocks.Transaction.DetachOwners` | kernel/kernel/owned_wait_queue.cc:2040-2070 | The first two steps of a requeue remove the owners that go, each time with the release of exactly the locks taken for that owner's sake, and leave the new owner's chain clear of the target and of the threads to be moved. |
| `ChainLocks.Transaction.MoveWaiters` | kernel/kernel/owned_wait_queue.cc:2040-2133 | The requeue half: threads moved, target owner replaced unless the target would be empty, every intermediate state valid, only the wake queue and the threads to be woken still locked; exactly when its lock assertion fails. |
| `ChainLocks.Transaction.WakeAndRequeueInternal` | kernel/kernel/owned_wait_queue.cc:2034-2142 | Final blocking map and owner map of a wake-and-requeue in terms of the initial ones; aggregates exact and graph acyclic throughout; every node is written under its lock; every lock is released exactly once if and only if not both the target keeps its owner and the owner's walk stopped at the owner itself. |
| `OwnedWaitQueue.Graph.SetThreadBaseProfileAndPropagate` | kernel/kernel/owned_wait_queue.cc:1614-1667 | Only this thread's base profile changes, and every aggregate downstream is exact afterwards. |
| `OwnedWaitQueue.Graph.ResetOwnerIfNoWaiters` | kernel/kernel/owned_wait_queue.cc:1725-1755 | Drops the owner of an empty queue only, with nothing to propagate. |
| `OwnedWaitQueue.Graph.DisownAllQueues` | kernel/kernel/owned_wait_queue.cc:168-198 | An exiting thread loses exactly its queues; all other nodes stay exact. |
| `EdgeChanges.DisownAllExact` | kernel/kernel/owned_wait_queue.cc:168-198 | Dropping all edges into an exiting thread keeps every other node exact. |
| `EdgeChanges.AddWaiterPending` | kernel/kernel/owned_wait_queue.cc:406-429 | A new waiter leaves exactly one node with exactly one pending change. |
| `EdgeChanges.RemoveWaiterPending` | kernel/kernel/owned_wait_queue.cc:406-429 | A departed waiter leaves one pending change, at the queue or, if it was the last one, at the queue's owner, or nothing at all. |
| `EdgeChanges.SetOwnerPending` | kernel/kernel/owned_wait_queue.cc:432-470 | A new owner has exactly the queue's values to absorb. |
| `EdgeChanges.ClearOwnerPending` | kernel/kernel/owned_wait_queue.cc:432-470 | A former owner has exactly the queue's values to give back. |
| `EdgeChanges.SetBasePending` | kernel/kernel/owned_wait_queue.cc:1642-1660 | A base profile change leaves the difference of the two transmitted values pending at the blocking queue. |
| `PiGraph.AddEdgeAcyclic` | kernel/kernel/owned_wait_queue.cc:987-1278 | Adding an edge keeps the graph acyclic when the target's chain avoids the source, and leaves every other chain as it was. |
| `PiGraph.RemoveEdgeAcyclic` | kernel/kernel/owned_wait_queue.cc:2034-2142 | Removing an edge keeps the graph acyclic and only shortens chains. |
| `PiGraph.ChainUnique` | kernel/kernel/owned_wait_queue.cc:1446-1516 | Every node has one chain. |
| `PiGraph.ChainDistinct` | kernel/kernel/owned_wait_queue.cc:1446-1516 | A chain never repeats a node. |
| `PiGraph.PathAvoidsEnd` | kernel/kernel/owned_wait_queue.cc:1446-1516 | A stretch of a chain never meets the node it leads to, so a walk can only stop at a lock taken earlier. |
| `ChainLocks.Transaction.LockPiChainCommon` | kernel/kernel/owned_wait_queue.cc:1446-1516 | Under arbitrary interference with unlocked nodes the walk terminates and either holds exactly the whole chain, or exactly the part before a node locked earlier, or nothing new; a refusal names the locked node it met, and it backs off if and only if a lock was contended. |
| `ChainLocks.Transaction.UnlockPiChainCommon` | kernel/kernel/owned_wait_queue.cc:1519-1612 | Releases exactly the locked path, each lock once; without a stop point it goes on while the next node is locked, and terminates. |
| `ChainLocks.Transaction.LockForOwnerReplacement` | kernel/kernel/owned_wait_queue.cc:987-1278 | A backed-off attempt holds what it held before and has met exactly one contended lock, any other attempt none; a successful one holds the queue, the blocker, the new owner's whole chain and the old owner's chain up to the first common lock, and nothing else. The requested owner is dropped only if it is the blocker, or was seen exiting or with a chain leading to the queue or the blocker. |
| `ChainLocks.Transaction.KeepOwner` | kernel/kernel/owned_wait_queue.cc:1067-1122 | Case 1: an unchanged owner is kept only if its chain ends without meeting the blocker and it may own queues; it is turned down only if at some moment of the attempt it was exiting or its chain led to the blocker; the attempt is to be repeated if and only if a lock was contended. |
| `ChainLocks.Transaction.LockNewOwnerChain` | kernel/kernel/owned_wait_queue.cc:1127-1160 | Case 2: a new owner is accepted only with its whole chain locked, clear of the queue and the blocker; turned down only if at some moment of the attempt it was exiting or its chain led to one of the two; and the attempt is to be repeated if and only if a lock was contended. |
| `ChainLocks.Transaction.LockOldOwnerChain` | kernel/kernel/owned_wait_queue.cc:1165-1277 | The departing owner's chain is locked up to the first lock already held, which is never the queue itself, unless a lock was contended. |
| `ChainLocks.Transaction.FinishReplacement` | kernel/kernel/owned_wait_queue.cc:1165-1277 | If the old owner's chain cannot be locked, which means one contended lock, the new owner's chain is given back completely. |
| `ChainLocks.Transaction.LockForBAAOOperationLocked` | kernel/kernel/owned_wait_queue.cc:934-985 | An attempt that backs off has met exactly one contended lock and holds only the queue lock; any other has met none, and drops the requested owner only for one of the reasons above. |
| `ChainLocks.Transaction.ReleaseOldOwner` | kernel/kernel/owned_wait_queue.cc:1824-1852 | Removing the old owner releases exactly the locks taken for its sake alone, even when it is the blocker or its whole chain is shared. |
| `ChainLocks.Transaction.JoinAndOwn` | kernel/kernel/owned_wait_queue.cc:1854-1935 | The thread joins (or fails to) and the new owner is assigned in either case, without a cycle and with exact aggregates. |
| `ChainLocks.Transaction.BlockAndAssignOwnerLocked` | kernel/kernel/owned_wait_queue.cc:1795-1938 | Ends holding only the current thread's lock, with exactly the requested change of edges, however the three chains intersect. |
| `ChainLocks.Transaction.TryBlockAndAssignOwner` | kernel/kernel/owned_wait_queue.cc:1779-1793 | One whole round of a blocking operation starts and ends without locks and leaves the graph valid; it fails if and only if one lock was contended; the queue ends up with the requested owner unless that was the blocker or was barred at some moment of the round. |
| `ChainLocks.ReadyHoldsChains` | kernel/kernel/owned_wait_queue.cc:987-1278 | After successful locking the whole chain of every locked node is locked, so propagation never touches an unlocked node. |
| `ChainLocks.OwnerChainAvoidsQueue` | kernel/kernel/owned_wait_queue.cc:1237-1277 | A detected stop point is never the queue whose owner is being followed. |
| `ChainLocks.Transaction.LockRequeueOwner` | kernel/kernel/owned_wait_queue.cc:790-855 | The proposed owner of a requeue target is kept only if its walk ended, or stopped at the wake queue or at a thread to be woken; it is turned down only if it is exiting or its walk met any other lock, and then nothing new is held; the attempt is to be repeated if and only if a lock was contended. |
| `ChainLocks.Transaction.LockComing` | kernel/kernel/owned_wait_queue.cc:790-855 | The first walk of a requeue either gives up with one contended lock and no lock held, or settles the owner: dropped only for a reason on record, accepted only if it can be assigned without a cycle. |
| `ChainLocks.AcceptedIsAcceptable` | kernel/kernel/owned_wait_queue.cc:806-838 | That stopping rule is sound: once the wake queue has no owner, the accepted owner's chain meets neither the target nor any thread to be requeued. |
| `ChainLocks.Transaction.LockForRequeueOperation` | kernel/kernel/owned_wait_queue.cc:725-906 | On success exactly both queues, the listed threads and three disjoint walks are locked, every locked node's chain is locked, and the accepted owner, if any, can be assigned without a cycle; a requested owner is dropped only if, at some moment of the attempt, it was exiting or the first lock its chain met was neither the wake queue nor a thread to be woken; a retreat ends without any lock and happens if and only if one lock was contended. |
| `ChainLocks.Transaction.UnlockOwnerChain` | kernel/kernel/owned_wait_queue.cc:777-783 | Releases an owner's walk completely, each lock once; its assertion fails exactly if the owner is not locked. |
| `ChainLocks.Transaction.RetreatFromOld` | kernel/kernel/owned_wait_queue.cc:867-872 | The retreat after the second walk releases every lock exactly once. |
| `ChainLocks.Transaction.RetreatFromWake` | kernel/kernel/owned_wait_queue.cc:888-894 | The retreat after the third walk releases every lock exactly once if and only if the target's owner changes or there is none; otherwise one lock is released twice. |
| `ChainLocks.Transaction.SettleTarget` | kernel/kernel/owned_wait_queue.cc:2098-2133 | The fourth step writes only locked nodes and releases exactly the new owner's walk and the target, unless the target keeps its owner and the walk stopped at the owner itself; then, and only then, the assertion fails. |
| `ChainLocks.Transaction.DropOwner` | kernel/kernel/owned_wait_queue.cc:2040-2070 | An owner goes: only locked nodes are written, then exactly the locks of its walk are released, and what stays locked has its whole chains locked. |
| `ChainLocks.Transaction.RequeueLocked` | kernel/kernel/owned_wait_queue.cc:2076-2096 | One thread moves: only locked nodes are written, its lock alone is released, and what stays locked has its whole chains locked. |
| `ChainLocks.Transaction.WakeListed` | kernel/kernel/owned_wait_queue.cc:2135-2140 | The last step: each wake writes only locked nodes and releases the woken thread; at the end nothing is locked. |
| `ChainLocks.DetachedUnpointed` | kernel/kernel/owned_wait_queue.cc:2040-2070 | Once the owners that go are gone, no locked node leads to a thread about to be requeued, so releasing a moved thread opens no chain. |
| `ChainLocks.ReadyCloses` | kernel/kernel/owned_wait_queue.cc:2034-2142 | The three walks can be given up in reverse order: what remains locked is closed each time but for the queues that just lost their owner. |
| `RequeueFaults.RetreatInput` | kernel/kernel/owned_wait_queue.cc:888-894 | An input for the double release of the retreat: a valid graph, the locks of the first two walks, a target that keeps its owner and a third walk with somewhere to go. |
| `RequeueFaults.RetreatFaults` | kernel/kernel/owned_wait_queue.cc:888-894 | On that input, built by the operations themselves for any two queues, the retreat faults. |
| `RequeueFaults.ReleaseInput` | kernel/kernel/owned_wait_queue.cc:2125-2128 | An input for the failing release: the target keeps an owner that is itself being woken, and everything is locked as the locking phase leaves it. |
| `RequeueFaults.ReleaseFaults` | kernel/kernel/owned_wait_queue.cc:2125-2128 | On that input, built by the operations themselves for any two queues, the completed requeue faults. |
| `ChainLocks.MetItself` | kernel/kernel/owned_wait_queue.cc:806-838 | An accepted owner's walk stops at the owner itself if and only if it is one of the threads to be woken. |
| `ChainLocks.Transaction.TryWakeAndRequeue` | kernel/kernel/owned_wait_queue.cc:2023-2142 | Final places of all listed threads, final owners of both queues, and the reason for a dropped owner; done or to be repeated it ends without any lock, and it is to be repeated if and only if one lock was contended; a completed requeue trips over its own locks if and only if the target keeps an owner that is itself being woken. |
| `BrwLock.StepKeepsInv` | kernel/kernel/brwlock.cc:162-655 | Every atomic step of every thread, in any interleaving, keeps: word fields equal role counts, queue lock held by the thread that thinks so, exclusion, a writer that writer_ names, and a watcher for every sleeper. That writer_ names nobody else is `BrwLockUse.RunNamed`. |
| `BrwLock.Exclusion` | kernel/kernel/brwlock.cc:162-655 | In every state of every run the word's fields count the threads in each role, at most one thread is a writer, and no writer coexists with a thread that was granted read access. |
| `BrwLock.WriterIsNamed` | kernel/kernel/brwlock.cc:518-534 | A thread that holds the lock for writing is the one writer_ names, so the ownership panic of WriteRelease is unreachable. The other direction is `BrwLockUse.RunNamed`. |
| `BrwLock.SleepersAreAttended` | kernel/kernel/brwlock.cc:569-598 | No wake-up is lost: whenever a thread sleeps, another is still on its way to look at the queue; with all others at rest, somebody holds the lock. |
| `BrwLock.MarkReadKeepsInv` | kernel/kernel/brwlock.cc:315-391 | The reader's first look under the queue lock, all four outcomes. |
| `BrwLock.MarkWriteKeepsInv` | kernel/kernel/brwlock.cc:447-516 | The writer's first look under the queue lock, all three outcomes. |
| `BrwLock.MarkUpgradeKeepsInv` | kernel/kernel/brwlock.cc:630-655 | The upgrader trades its read count for a waiter count; only a sole reader may claim the word. |
| `BrwLock.MarkReleaseKeepsInv` | kernel/kernel/brwlock.cc:569-598 | The releaser decides to wake only if nobody holds the lock and somebody may wait. |
| `BrwLock.ConfirmedRead` | kernel/kernel/brwlock.cc:342-377 | A waiter count held under the queue lock may be turned into a granted read. |
| `BrwLock.UncontendedRead` | kernel/include/kernel/brwlock.h:100-116 | With no writer and no waiter in the word an optimistic count is a granted read. |
| `BrwLock.SwapKeepsInv` | kernel/include/kernel/brwlock.h:235-285 | The double-word compare-and-swap of acquire and upgrade succeeds only when nobody else is in the word. |
| `BrwLock.WakeReadersKeepsInv` | kernel/kernel/brwlock.cc:162-259 | Waking any set of sleeping readers hands each of them a read count in one step. |
| `BrwLock.GrantWriterKeepsInv` | kernel/kernel/brwlock.cc:162-259 | Waking a writer hands it the word only after writer_ names it and while no reader holds the lock. |
| `BrwLock.BlockKeepsInv` | kernel/kernel/brwlock.cc:51-104 | Going to sleep never leaves the queue without somebody who will look at it. |
| `BrwLockUse.RunNamed` | kernel/kernel/brwlock.cc:518-567 | In every state of every run writer_ names a thread only while somebody stands at a point of the code that has put it there: the thread claiming the lock or writing, or another handing it over. |
| `BrwLockUse.FreeMeansUnnamed` | kernel/include/kernel/brwlock.h:235-285 | In every such state a word of all zeros goes with an empty writer_, which is what the double-word compare-and-swap expects. |
| `BrwLockUse.FreeLockIsTaken` | kernel/include/kernel/brwlock.h:235-262 | So in every run a write acquire of a free lock succeeds at once. |
| `BrwLockUse.WriteRoundTrip` | kernel/include/kernel/brwlock.h:118-126 | Acquiring a free lock for writing and releasing it restores the whole state. |
| `BrwLockUse.ReadRoundTrip` | kernel/include/kernel/brwlock.h:100-140 | Reading while nobody writes or waits restores the whole state, whoever else reads. |
| `BrwLockUse.UpgradeRoundTrip` | kernel/include/kernel/brwlock.h:142-148 | Reading, upgrading and releasing a free lock restores the whole state. |
| `BrwLockUse.SpinEnds` | kernel/kernel/brwlock.cc:262-430 | Where a spinning reader or writer goes, for every state of the word and with or without a timeout. |
| `BrwLockUse.ReaderSleeps` | kernel/kernel/brwlock.cc:315-391 | A contended reader sleeps if a writer holds the lock, or if others wait and somebody reads, and trades its read count for a waiter count. |
| `BrwLockUse.ReaderGetsIn` | kernel/kernel/brwlock.cc:315-391 | A contended reader that finds neither writer nor waiter gets in with everything else as it was. |
| `BrwLockUse.ReaderWakes` | kernel/kernel/brwlock.cc:342-377 | A contended reader that is the only one counted and finds sleeping readers wakes them, each with a count, and joins them. |
| `BrwLockUse.ReaderYields` | kernel/kernel/brwlock.cc:342-377 | One that hands the lock to a sleeping writer instead gets its own count back and tries again. |
| `BrwLockUse.WriterSleeps` | kernel/kernel/brwlock.cc:447-516 | A contended writer sleeps if anybody holds the lock, with one more waiter in the word and nothing else changed. |
| `BrwLockUse.WriterGetsIn` | kernel/kernel/brwlock.cc:447-516 | A contended writer that finds the lock free and nobody waiting takes it. |
| `BrwLockUse.WriterYields` | kernel/kernel/brwlock.cc:447-516 | One that finds the lock free but a writer asleep lets that writer go first and sleeps. |
| `BrwLockUse.WriterYieldsToReaders` | kernel/kernel/brwlock.cc:447-516 | Likewise for any set of sleeping readers, each of whom gets a count. |
| `BrwLockUse.UpgradeSleeps` | kernel/kernel/brwlock.cc:630-655 | An upgrade sleeps as a writer if others read. |
| `BrwLockUse.UpgradeGetsIn` | kernel/kernel/brwlock.cc:630-655 | The last reader is upgraded even if others wait. |
| `BrwLockUse.LastReaderOut` | kernel/include/kernel/brwlock.h:128-140 | A reader on its way out goes on to wake if and only if it is the last one and somebody waits. |
| `BrwLockUse.WriterOut` | kernel/kernel/brwlock.cc:518-567 | A writer empties writer_ on its way out and goes on to wake if and only if somebody waits. |
| `BrwLockUse.ReleaserWakesReaders` | kernel/kernel/brwlock.cc:569-598 | A releaser hands the free lock to sleeping readers, each of whom gets a count. |
| `BrwLockUse.ReleaserWakesWriter` | kernel/kernel/brwlock.cc:569-598 | A releaser hands the free lock to a sleeping writer, which writer_ names from then on. |
| `BrwLockUse.ReleaserLeaves` | kernel/kernel/brwlock.cc:569-598 | A releaser that could lock none of the sleepers starts over with nothing changed; one that is no longer needed leaves with nothing changed. |
| `BrwLockUse.ReaderFailsToSleep` | kernel/kernel/brwlock.cc:51-104 | A reader that may not sleep gets its read count back and starts over with nothing changed; `WriterFailsToSleep` and `UpgradeFailsToSleep` say the same of the others. |
| `BrwLockUse.ReaderStartsOver` | kernel/kernel/brwlock.cc:342-377 | A reader that could lock none of the sleepers starts over with nothing changed; `WriterStartsOver` says the same of a writer. |
| `BrwLockUse.NobodyIsStuck` | kernel/kernel/brwlock.cc:162-655 | In every state of every run, unless all threads are outside the lock's code or asleep, somebody can take a step. |
| `Mutex.StepKeepsInv` | kernel/kernel/mutex.cc:146-593 | Every atomic step in any interleaving keeps: val_ names exactly the owner, sleepers keep the contested flag up, and every thread's expectations about val_ hold. When the flag comes down is `MutexUse.FlagAfterHandOver`. |
| `Mutex.Exclusion` | kernel/kernel/mutex.cc:146-593 | Never two owners, and val_ names the one there is. |
| `Mutex.SleepersAreAttended` | kernel/kernel/mutex.cc:342-445 | With the queue lock free, a sleeper implies the contested flag and a recorded owner that is awake and cannot leave by the uncontended path. |
| `Mutex.WokenIsOwner` | kernel/kernel/mutex.cc:505-560 | A sleeper is woken only when it already is the recorded owner. |
| `Mutex.NeverPanics` | kernel/kernel/mutex.cc:481-548 | Neither the consistency check nor the final compare-and-swap of a contended release can fail. |
| `Mutex.ReleaseSwapKeepsInv` | kernel/kernel/mutex.cc:511-545 | The swap of a contended release, to a sleeper or to nobody, keeps the invariant. |
| `Mutex.FetchOrKeepsInv` | kernel/kernel/mutex.cc:346-386 | Setting the flag on a free mutex reserves it for the thread that set it; otherwise an owner was seen. |
| `MutexUse.FlagAfterHandOver` | kernel/kernel/mutex.cc:511-545 | In every run, a hand-over leaves the contested flag up if and only if somebody other than the new owner sleeps. |
| `MutexUse.LastSleeperFrees` | kernel/kernel/mutex.cc:481-545 | In every run, if the last sleeper was handed the mutex and nobody has set the flag since, its own release frees the mutex at once by the uncontended path. |
| `MutexUse.HandOver` | kernel/kernel/mutex.cc:481-560 | A contended release in full: the sleeper owns the mutex and is awake, the flag tells whether others sleep, and nothing else has changed. |
| `MutexUse.FlaggedForNothing` | kernel/kernel/mutex.cc:511-545 | A flagged mutex nobody waits for any more is simply freed. |
| `MutexUse.RoundTrip` | kernel/kernel/mutex.cc:146-196 | Taking a free mutex and giving it back restores the whole state. |
| `MutexUse.SlowAcquire` | kernel/kernel/mutex.cc:346-386 | On the slow path a mutex found free is taken, without the flag. |
| `MutexUse.SlowBlock` | kernel/kernel/mutex.cc:342-445 | On the slow path a mutex found owned is flagged and the thread sleeps behind its owner, or backs off with nothing changed. |
| `MutexUse.SpinningWaits` | kernel/kernel/mutex.cc:198-319 | A failed attempt changes nothing but the thread's place; a later one on a free mutex succeeds. |
| `MutexUse.NobodyIsStuck` | kernel/kernel/mutex.cc:146-593 | In every state of every run, unless all threads are outside the mutex's code or asleep, somebody can take a step. |
| `Semaphore.StepKeepsInv` | kernel/kernel/semaphore.cc:24-217 | Every step of post, wait, timeout and wake in any interleaving keeps conservation, the bound on the queue and each thread's expectations. |
| `Semaphore.Conservation` | kernel/kernel/semaphore.cc:24-217 | At every point of every run: initial credit plus posts equals successful waits plus remaining credit, failed waits included. |
| `Semaphore.QueueBounded` | kernel/kernel/semaphore.cc:24-217 | The queue is never longer than the count is negative; a sleeper implies a negative count. |
| `Semaphore.PostNeverPassesSleepers` | kernel/kernel/semaphore.cc:52-82 | A post that looks under the lock while somebody sleeps goes on to wake, never to increment. |
| `SemaphoreUse.EveryOperationEnds` | kernel/kernel/semaphore.cc:24-217 | At every point of every run: every post begun has been counted or is still under way, and every wait begun has succeeded, has failed, or is still under way. |
| `SemaphoreUse.WakingPost` | kernel/kernel/semaphore.cc:84-116 | A post that finds a sleeper wakes it and leaves the count alone while others sleep; waking the last one puts the count back to zero. |
| `SemaphoreUse.ResettingPost` | kernel/kernel/semaphore.cc:70-80 | A post that finds the count negative only because of waits that gave up starts over at one. |
| `SemaphoreUse.FastPost` | kernel/kernel/semaphore.cc:39-49 | A post while the count is not negative adds one to it; `LatePost` says the same of one that learns so only under the lock. |
| `SemaphoreUse.FastWait` | kernel/kernel/semaphore.cc:154-163 | A wait while the count is positive takes one from it; `LateWait` says the same of one that learns so only under the lock. |
| `SemaphoreUse.FailedSwap` | kernel/kernel/semaphore.cc:39-49 | A swap that fails, spuriously or not, looks at the count again, takes the slow path if and only if there is nothing to swap, and changes nothing else. |
| `SemaphoreUse.SlowWait` | kernel/kernel/semaphore.cc:165-217 | A wait that finds no credit goes to sleep, or gives up at once, one below where the count was. |
| `SemaphoreUse.NoHarmDone` | kernel/kernel/semaphore.cc:84-116 | A post that could not lock the sleeper starts over with nothing changed; a sleeper that gives up leaves with nothing changed. |
| `RunQueueSearch.FindEarliestEligibleThread` | kernel/kernel/scheduler.cc:348-427 | Returns a thread of minimum finish time among those whose start time has come, and none exactly when there is no such thread. |
| `RunQueueSearch.Partition` | kernel/kernel/scheduler.cc:375-402 | After the descent every eligible thread is no better than the best on the path or the best recorded left subtree. |
| `RunQueueSearch.MinFinishIsMin` | kernel/include/kernel/scheduler.h:799-820 | The stored minimum is attained in the subtree and bounds it. |
| `SchedulerTotals.Schedulers.Insert` | kernel/kernel/scheduler.cc:2057-2100 | The CPU's totals remain the exact sums; inserting an active thread changes nothing. |
| `SchedulerTotals.Schedulers.RemoveForTransition` | kernel/kernel/scheduler.cc:2102-2146 | Totals remain exact; the thread keeps its CPU but no longer counts. |
| `SchedulerTotals.Schedulers.Remove` | kernel/include/kernel/scheduler.h:729-740 | As above, and the thread leaves its CPU. |
| `SchedulerTotals.Schedulers.FinishTransition` | kernel/kernel/scheduler.cc:2148-2183 | The thread counts on its new CPU with whatever profile it has by now; a stolen thread is left mid-reschedule. |
| `SchedulerTotals.Schedulers.EffectiveProfileChanged` | kernel/kernel/scheduler_pi.cc:192-319 | Totals remain exact whatever state the profile change finds the thread in. |
| `SchedulerTotals.Schedulers.InitializeFirstThread` | kernel/kernel/scheduler.cc:442-472 | Totals remain exact if and only if the CPU had no fair weight before. |
| `SchedulerTotals.Schedulers.RemoveFirstThread` | kernel/kernel/scheduler.cc:490-527 | Totals remain exact when the boot thread stops counting. |
| `SchedulerTotals.Schedulers.MarkRescheduling` | kernel/kernel/scheduler.cc:1450-1495 | Entering or leaving the rescheduling state moves no count. |
| `SchedulerTotals.OverwriteExactIff` | kernel/kernel/scheduler.cc:466-470 | A total that is written instead of adjusted is right exactly if it was zero. |
| `SchedulerTotals.ActiveShift` | kernel/kernel/scheduler.cc:2070-2098 | The recomputed sum moves by exactly one thread's share. |
| `WaitQueueCollection.Peek` | kernel/kernel/wait.cc:195-248 | Returns the first thread of the wake order for every tree and time: the deadline thread with the earliest finish time not before now, else the one with the least relative deadline, else the fair thread with the least key; ties by address. |
| `WaitQueueCollection.UpperBound` | kernel/kernel/wait.cc:232-238 | The search finds the least key at or after now. |
| `WaitQueueCollection.KeysDecide` | kernel/kernel/wait.cc:250-294 | The keys put any two threads in one order, every deadline thread before every fair one. |
| `WaitQueueCollection.BestIsBest` | kernel/include/kernel/thread.h:2063-2098 | The stored pointer names the deadline thread of least relative deadline in the subtree, if there is one. |
| `CpuClusters.DoAutoCluster` | kernel/kernel/cpu_search_set.cc:116-164 | The clusters are exactly the connected components of the relation distance-below-threshold; every CPU is in one cluster at one position, members ascend, and the sizes allocated in advance are exactly filled. |
| `CpuClusters.ClusterMap.FindSet` | kernel/kernel/cpu_search_set.cc:61-71 | Path halving returns the root, moves nobody to another tree, and flattens a node whose predecessors are flat. |
| `CpuClusters.ClusterMap.UnionSets` | kernel/kernel/cpu_search_set.cc:73-86 | Joins exactly the two trees, under the smaller root, and terminates. |
| `CpuClusters.ClusterMap.MemberCount` | kernel/kernel/cpu_search_set.cc:98-106 | Counts the members of a root and leaves every node pointing straight at its root. |
| `CpuClusters.ClusterMap.ClusterCount` | kernel/kernel/cpu_search_set.cc:88-96 | Counts the roots. |
| `CpuClusters.Agglomerate` | kernel/kernel/cpu_search_set.cc:117-127 | After the pass every near pair shares a root and every CPU is connected to its root. |
| `CpuClusters.RootsAreComponents` | kernel/kernel/cpu_search_set.cc:117-127 | Sharing a root is the same as being connected. |
| `CpuClusters.FillCluster` | kernel/kernel/cpu_search_set.cc:150-158 | The direct-parent test lists exactly the members of the tree, in order. |
| `CpuClusters.HalvingKeepsRoot` | kernel/kernel/cpu_search_set.cc:61-71 | Pointing a node at its grandparent changes nobody's root. |
| `CpuClusters.LinkMerges` | kernel/kernel/cpu_search_set.cc:73-86 | Hanging one root under the other merges exactly those two trees. |
| `CpuSearchSet.LessTotal` | kernel/kernel/cpu_search_set.cc:206-237 | The comparator is asymmetric and decides every pair of different CPUs. |
| `CpuSearchSet.LessTransitive` | kernel/kernel/cpu_search_set.cc:206-237 | The comparator is transitive. |
| `CpuSearchSet.SelfFirst` | kernel/kernel/cpu_search_set.cc:202-237 | A CPU heads its own list if and only if no other CPU is strictly preferred or nearer; ties never displace it. |
| `CpuSearchSet.OrderedByDistance` | kernel/kernel/cpu_search_set.cc:191-237 | Without the little-CPU preference the list is in order of distance. |
| `CpuSearchSet.TieOrder` | kernel/kernel/cpu_search_set.cc:225-236 | Among CPUs that policy and distance put level, the search goes back through the clusters from one's own, and back through each cluster from one's own position. |
| `CpuSearchSet.SortedUnique` | kernel/kernel/cpu_search_set.cc:239-240 | The search order is determined by the comparator: any sorted list of the same CPUs is the same list. |
| `CpuSearchSet.DoInitialize` | kernel/kernel/cpu_search_set.cc:180-240 | Produces every CPU once, sorted. |
| `TimerQueue.Queue.Insert` | kernel/kernel/timer.cc:127-228 | Keeps the list sorted and gives the timer a time inside its window: its own if no timer overlaps, else that of the nearest one, ties early, with a later timer exactly at the end of the window ignored if an earlier one overlaps. |
| `TimerQueue.ChooseEarlier` | kernel/kernel/timer.cc:172-222 | When the walk settles on an earlier timer, that is the declared choice. |
| `TimerQueue.ChooseLater` | kernel/kernel/timer.cc:157-167 | When it settles on a timer at or after the deadline, that is the declared choice. |
| `TimerQueue.SaturationIsHarmless` | kernel/kernel/timer.cc:196-204 | Saturating subtraction never changes which neighbour is nearer. |
| `TimerQueue.WindowHoldsDeadline` | kernel/kernel/deadline.cc:16-40 | The window contains the deadline in every slack mode, saturated or not. |
| `TimerQueue.SlackDirection` | kernel/kernel/deadline.cc:16-40 | An early timer is never due after its deadline and a late one never before it. |
| `TimerQueue.WindowWidth` | kernel/kernel/deadline.cc:16-40 | The window reaches exactly as far as the slack on each side the mode allows, unless time itself ends first. |
| `TimerQueue.Queue.Set` | kernel/kernel/timer.cc:237-286 | A timer whose callback has been cancelled changes nothing; any other is placed as above, and the hardware is moved forward to it exactly if it is the first and earlier than what is programmed. |
| `TimerQueue.Queue.Cancel` | kernel/kernel/timer.cc:295-368 | Removes exactly the timer, if it is queued; the hardware is touched only if it was the first, and is never left programmed late. |
| `TimerQueue.Queue.PreemptReset` | kernel/kernel/timer.cc:288-293 | The preemption deadline is the new one and the hardware is programmed for the sooner of it and what it was. |
| `TimerQueue.Queue.Tick` | kernel/kernel/timer.cc:380-400 | Whatever the callbacks set, cancel or reset: nothing due is left and no timer is lost, duplicated or fired early; what is queued, fired and cancelled is exactly what was queued and what the callbacks set; the preemption deadline is used up only if it has come; and the hardware is programmed in time. With callbacks that leave the queue alone exactly the due timers fire, in order, the rest stays as it was, and the hardware is set to exactly what comes next. |
| `TimerQueue.Queue.Fire` | kernel/kernel/timer.cc:402-460 | Each timer fired is due and the first of the list at that moment, and nothing else leaves the list but by a callback's cancellation; the loop ends with nothing due and the books balanced. |
| `TimerQueue.IdleTick` | kernel/kernel/timer.cc:402-460 | By induction over the firings: with callbacks that leave the queue alone, the first so many timers of the list fire, in order, and the others stay. |
| `TimerQueue.Queue.PerformAll` | kernel/kernel/timer.cc:402-460 | A whole callback: what was queued and what it set is what is queued and what it cancelled, and the preemption deadline is the last one it reset. |
| `TimerQueue.Queue.TransitionOffCpu` | kernel/kernel/timer.cc:494-527 | Every timer of both queues survives with its exact time, in sorted order; the hardware is moved forward exactly as far as the first timer demands, and the queue that goes offline is left empty. |
| `Clock.Dispatcher.Read` | kernel/object/clock_dispatcher.cc:135-149 | Never below the backstop, and on a monotonic clock never below any earlier read. |
| `Clock.Dispatcher.Update` | kernel/object/clock_dispatcher.cc:182-387 | An update is accepted exactly if its arguments fit the clock and the rules are kept, and reports a bad state exactly if its arguments are well formed and it would not set a clock that has not started; it never moves a monotonic clock back nor any clock below its backstop, leaves a started continuous clock's present value exactly unchanged, and takes effect exactly at its reference, on the tick scale as on the monotonic one. A new rate is exactly the one asked for, any other update keeps the rate, and a clock that starts runs at the monotonic rate; a rejected one changes nothing. |
| `Clock.Dispatcher.Proposed` | kernel/object/clock_dispatcher.cc:282-326 | The two transformations an update installs: their ratios, and one common value at the reference, whose tick is the monotonic reference converted by the inverse rate, rounded down and saturated. |
| `Clock.Dispatcher.constructor` | kernel/object/clock_dispatcher.cc:58-131 | A new clock starts at or above its backstop: a copy of the monotonic clock if it starts at once, else standing still at its backstop. |
| `Affine.ApplyMonotone` | system/ulib/affine/include/lib/affine/transform.h:57-72 | Applying a transformation preserves order despite saturation and rounding. |
| `Affine.ApplyAtOffset` | system/ulib/affine/include/lib/affine/transform.h:57-72 | A transformation passes exactly through its pair of offsets. |
| `Affine.ScaleUInt64Exact` | system/ulib/affine/ratio.cc:51-104 | The two-step 32-bit long division equals the exact quotient, rounded and capped. |
| `Affine.NoOverflow` | system/ulib/affine/ratio.cc:57-93 | No intermediate word of that division overflows 64 bits. |
| `Affine.ScaleIsFloor` | system/ulib/affine/ratio.cc:199-236 | Scaling a signed value is the saturated floor of the exact product. |
| `Channel.Endpoint.AllocateTxid` | kernel/object/channel_dispatcher.cc:316-329 | The search for a transaction id ends whenever fewer than 2^31 calls wait, with the first id after the last one given out that no waiter uses, and the counter stops there. |
| `Channel.Pigeonhole` | kernel/object/channel_dispatcher.cc:247-250 | Ids generated in a row, up to 2^31 of them, are all different. |
| `Channel.Endpoint.BeginCall` | kernel/object/channel_dispatcher.cc:252-340 | A call that reaches the queue is queued once, at the end, with the first free id; otherwise it reports why, queues nothing and uses up no id. |
| `Channel.Endpoint.TryWriteToMessageWaiter` | kernel/object/channel_dispatcher.cc:392-418 | A reply is delivered if and only if a waiter has its id, to that waiter alone; calls that already have an ending get no second one. |
| `Channel.Endpoint.CancelMessageWaiters` | kernel/object/channel_dispatcher.cc:137-142 | Exactly the queued calls end with the given status; calls that already have an ending keep it. |
| `Channel.Endpoint.EndCall` | kernel/object/channel_dispatcher.cc:352-388 | A queued call has exactly one ending: a timeout if and only if the waiter was still queued, a reply if and only if it brings a message, which then has the call's own id, else a cancellation or a closed peer. |
| `Channel.EndingKeeps` | kernel/object/channel_dispatcher.cc:392-418 | Giving a queued call its ending and taking it off the list keeps the books: one ending for every call off the list, none for the others, replies only with matching ids. |
| `VmEnumerator.Enumerator.Enumerate` | kernel/object/diagnostics.cc:764-796 | It succeeds if and only if every copy that faulted succeeds when repeated outside the walk; then, for every pattern of faults, the buffer, the count and the number of entries are those of a run without faults; else it stops at the first repeated copy that fails, with the entries before it written. The depth left over from an earlier use decides exactly which entries are passed over. |
| `VmEnumerator.Enumerator.DoEntry` | kernel/object/diagnostics.cc:873-903 | Each entry is handled at most once and never again after a restart. |
| `VmEnumerator.Enumerator.EnumerateChildren` | kernel/object/diagnostics.cc:782-790 | A walk breaks off if and only if a copy faults, at the first one that does, and has then handled at least one new entry. |
| `VmEnumerator.ReuseComplete` | kernel/object/diagnostics.cc:764-770 | A new enumerator reports everything; one used again, which the repository never does, would if and only if no entry lies at address zero above its old depth. |

## Left out

- OwnedWaitQueue.Graph.DisownAllQueues: runs as one step, while the source may drop the exiting thread's lock between two queues when a queue lock is contended.
- OwnedWaitQueue.Graph.AssignOwner: takes a new owner that may still own queues, as the source asserts, and does not model the locks it takes and releases.
- ChainLocks.Transaction.LockForRequeueOperation: starts with both queues and the listed threads locked; how these are chosen and locked is not modelled.
- ChainLocks.Transaction.TryWakeAndRequeue: a failed lock assertion ends the operation; what the kernel does after it is not modelled.
- OwnedWaitQueue.Graph.ChainMeets: decides reachability in a graph that stands still; `ChainLocks.Transaction.LockPiChainCommon` models the same walk with its locks.
- OwnedWaitQueue.Graph.WakeThreadsLocked: does not model the locks it releases.
- ChainLocks.Transaction.BlockAndAssignOwnerLocked: changes the graph in one go; interference by others after the first release is not modelled, which is harmless because the operation never returns to a node it has released.
- ChainLocks.Transaction.WakeAndRequeueInternal: interference by others with nodes already released is not modelled, which is harmless because every later write is to a node that is still locked.
- ChainLocks.Transaction.Interfere: other transactions work on a fixed finite set of threads and queues, which is what makes the chain walk end.
- OwnedWaitQueue.Graph.MinInheritableRelativeDeadline: scans the queue's waiters, since the graph model keeps no tree; `WaitQueueCollection.MinInheritableRelativeDeadline` models the look at the tree's root.
- SchedulerTotals.Schedulers.RemoveForTransition: does not model the time slice, the virtual timeline or the total expected runtime.
- CpuSearchSet.DoInitialize: sorts by insertion where the source calls a library sort; `SortedUnique` shows that the result cannot differ.
- Clock.Dispatcher.Update: takes the approximated product of two ratios as an argument, since nothing proved here depends on how good the approximation is; error bounds and update time stamps are not modelled.
- Clock.Dispatcher.Read: takes a consistent pair of transformation and tick count; the retry loop of the sequence lock is not modelled.
- TimerQueue.Queue.Cancel: does not model waiting for a callback that runs on another CPU.
- RunQueueSearch.FindEarliestEligibleThread: searches an immutable tree that satisfies the ordering and the augmentation; insertion, removal and rotations are not part of this model, and neither is the filtering predicate of work stealing.
- WaitQueueCollection.Peek: likewise reads an immutable tree.
- The scheduler state storage that a queue borrows from one of its waiters: the values are modelled, their hosting is not.
- Dynamic scheduling parameters, time slices, lag and fixed-point rounding.
- The choice of a target CPU and the search for work to steal.
- Locking for a wake operation of an owned wait queue and the selection of the threads to wake beyond the single best one.
- Overflow of the counters packed into the reader/writer lock's state word and of the semaphore's 64-bit count.
- The variant of the reader/writer lock without priority inheritance, which takes the same steps without the writer pointer.
- Channel calls that fail with a bad handle before the waiter is queued; reading and writing of ordinary messages.
- Context switches, interrupts, memory ordering weaker than sequential consistency, tracing and counters.
