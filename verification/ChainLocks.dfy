/**
 Locking for a blocking operation.  A transaction locks the queue, the blocking
 thread and the owner chains one node at a time, while other transactions go on
 changing every node it does not hold.
 */
module ChainLocks {
  import opened Basics
  import opened Profiles
  import opened PiGraph
  import opened Inheritance
  import opened OwnedWaitQueue

  datatype LockResult = Ok | Backoff | CycleDetected

  datatype ChainResult = Locked | Stopped(at: Node) | Refused(at: Node) | BackedOff

  /** How an attempt to lock for a requeue ends; Broken if it tripped over its own locks on the way back. */
  datatype RequeueLocking = Granted | Repeat | Broken

  /** How a requeue ends: done, to be tried again, or with a failed lock assertion on the way. */
  datatype RequeueEnd = Done | Again | LockFault | ReleaseFault

  /** What becomes of a proposed owner: taken, turned down, or the attempt is off. */
  datatype Verdict = Accept | Nack | Retry

  /** The graph as it stood when nobody else was at work. */
  datatype Snapshot = Snapshot(edges: Edges, exiting: set<ThreadId>)

  /** p starts at start and its last node points at end. */
  ghost predicate Runs(e: Edges, start: Node, p: seq<Node>, end: Option<Node>) {
    IsPath(e, p, end) && p[0] == start
  }

  /** A block of t in q may not make o the owner: o is exiting, or its chain leads to t or q. */
  ghost predicate Barred(s: Snapshot, q: Queue, t: ThreadId, o: ThreadId) {
    o in s.exiting || exists p, at :: at in {Q(q), T(t)} && Runs(s.edges, T(o), p, Some(at))
  }

  ghost predicate BarredSince(log: seq<Snapshot>, from: nat, q: Queue, t: ThreadId, o: ThreadId) {
    exists i :: from <= i < |log| && Barred(log[i], q, t, o)
  }

  lemma StillBarred(log: seq<Snapshot>, from: nat, log': seq<Snapshot>, from': nat, q: Queue, t: ThreadId, o: ThreadId)
    requires BarredSince(log, from, q, t, o) && log <= log' && from' <= from
    ensures BarredSince(log', from', q, t, o)
  {
    hide Barred;
    var i :| from <= i < |log| && Barred(log[i], q, t, o);
    assert Barred(log'[i], q, t, o);
  }

  /**
   A requeue may not make o the target's owner: o is exiting, or the first of the locked
   nodes that its chain meets is neither the wake queue nor a thread to be woken.
   */
  ghost predicate TurnedDown(s: Snapshot, locks: set<Node>, q: Queue, wake: seq<ThreadId>, o: ThreadId) {
    || o in s.exiting
    || exists p, at ::
         && at in locks && at != Q(q) && !(at.T? && at.thread in wake)
         && Nodes(p) !! locks && RunsInto(s.edges, T(o), p, at)
  }

  ghost predicate TurnedDownSince(log: seq<Snapshot>, from: nat, locks: set<Node>, q: Queue, wake: seq<ThreadId>,
                                  o: ThreadId) {
    exists i :: from <= i < |log| && TurnedDown(log[i], locks, q, wake, o)
  }

  lemma StillTurnedDown(log: seq<Snapshot>, log': seq<Snapshot>, from: nat, locks: set<Node>, q: Queue,
                        wake: seq<ThreadId>, o: ThreadId)
    requires TurnedDownSince(log, from, locks, q, wake, o) && log <= log'
    ensures TurnedDownSince(log', from, locks, q, wake, o)
  {
    hide TurnedDown;
    var i :| from <= i < |log| && TurnedDown(log[i], locks, q, wake, o);
    assert TurnedDown(log'[i], locks, q, wake, o);
  }

  /** What a walk from start holds when it met the held node at: possibly nothing. */
  ghost predicate RunsInto(e: Edges, start: Node, p: seq<Node>, at: Node) {
    if p == [] then at == start else Runs(e, start, p, Some(at))
  }

  lemma RunsStable(e: Edges, e': Edges, start: Node, p: seq<Node>, end: Option<Node>)
    requires Runs(e, start, p, end)
    requires forall n :: n in p ==> Next(e', n) == Next(e, n)
    ensures Runs(e', start, p, end)
  {
  }

  /** A walk survives interference with the nodes it does not hold, and may take one more step. */
  lemma WalkOn(e: Edges, e': Edges, start: Node, p: seq<Node>, cur: Node)
    requires Acyclic(e') && RunsInto(e, start, p, cur)
    requires forall n :: n in p ==> Next(e', n) == Next(e, n)
    ensures RunsInto(e', start, p, cur) && cur !in p
    ensures Runs(e', start, p + [cur], Next(e', cur))
  {
    if p != [] {
      RunsStable(e, e', start, p, Some(cur));
      PathAvoidsEnd(e', p, cur);
    }
  }

  lemma RunsDistinct(e: Edges, start: Node, p: seq<Node>, end: Option<Node>)
    requires Acyclic(e) && Runs(e, start, p, end)
    ensures forall i, j | 0 <= i < j < |p| :: p[i] != p[j]
  {
    match end {
      case None =>
        ChainDistinct(e, start, p);
      case Some(m) =>
        var c := p + ChainOf(e, m);
        PathChain(e, p, m);
        ChainDistinct(e, start, c);
        assert forall i | 0 <= i < |p| :: c[i] == p[i];
    }
  }

  lemma RunChain(e: Edges, start: Node, p: seq<Node>)
    requires Acyclic(e) && Runs(e, start, p, None)
    ensures ChainOf(e, start) == p
  {
    ChainUnique(e, start, ChainOf(e, start), p);
  }

  lemma QueueChain(e: Edges, q: Queue, p: seq<Node>)
    requires Acyclic(e)
    requires q in e.owner ==> Runs(e, T(e.owner[q]), p, None)
    ensures ChainOf(e, Q(q)) == if q in e.owner then [Q(q)] + p else [Q(q)]
  {
    if q in e.owner {
      RunChain(e, T(e.owner[q]), p);
      PathChain(e, [Q(q)], T(e.owner[q]));
    } else {
      LoneChain(e, Q(q));
    }
  }

  /** The chain that starts at a queue's owner never comes back to the queue. */
  lemma OwnerChainAvoidsQueue(e: Edges, q: Queue, p: seq<Node>, at: Node)
    requires Acyclic(e) && q in e.owner && RunsInto(e, T(e.owner[q]), p, at)
    ensures at != Q(q)
  {
    assert IsPath(e, [Q(q)] + p, Some(at));
    PathAvoidsEnd(e, [Q(q)] + p, at);
    assert ([Q(q)] + p)[0] == Q(q);
  }

  /**
   What a successful LockForOwnerReplacement leaves behind: the new owner's whole
   chain, and of the old owner's chain the part before it meets a lock already
   held, are locked, and together with the queue and the blocker nothing else.
   */
  ghost predicate Ready(s: State, held: set<Node>, exiting: set<ThreadId>, q: Queue, t: ThreadId,
                        newOwner: Option<ThreadId>, stop: Option<Node>, newPath: seq<Node>, oldPath: seq<Node>) {
    var first := {Q(q), T(t)} + Nodes(newPath);
    && held == first + Nodes(oldPath)
    && first !! Nodes(oldPath)
    && T(t) !in newPath && Q(q) !in newPath
    && (match newOwner
        case None => newPath == []
        case Some(o) => Runs(s.edges, T(o), newPath, None) && o in s.threads && o !in exiting)
    && (if q !in s.edges.owner || newOwner == Some(s.edges.owner[q]) then oldPath == [] && stop == None
        else match stop
          case None => Runs(s.edges, T(s.edges.owner[q]), oldPath, None)
          case Some(at) => at in first - {Q(q)} && RunsInto(s.edges, T(s.edges.owner[q]), oldPath, at))
  }

  /** A locked node's downstream neighbour is locked too, save for the nodes in open. */
  ghost predicate DownClosed(e: Edges, held: set<Node>, open: set<Node>) {
    forall n :: n in held && n !in open && Next(e, n).Some? ==> Next(e, n).value in held
  }

  lemma {:induction false} ChainHeld(e: Edges, held: set<Node>, n: Node, c: seq<Node>)
    requires DownClosed(e, held, {}) && n in held && IsChain(e, n, c)
    ensures Nodes(c) <= held
    decreases |c|
  {
    if |c| > 1 {
      ChainStep(e, c, 0);
      ChainTail(e, c, 1);
      ChainHeld(e, held, c[1], c[1..]);
      assert c == [n] + c[1..];
    } else {
      assert c == [n];
    }
  }

  /** Everything a blocking operation may touch while propagating is locked. */
  lemma ReadyHoldsChains(s: State, held: set<Node>, exiting: set<ThreadId>, q: Queue, t: ThreadId,
                         newOwner: Option<ThreadId>, stop: Option<Node>, newPath: seq<Node>, oldPath: seq<Node>,
                         n: Node)
    requires Acyclic(s.edges) && t !in s.edges.blockedIn && n in held
    requires Ready(s, held, exiting, q, t, newOwner, stop, newPath, oldPath)
    ensures Nodes(ChainOf(s.edges, n)) <= held
  {
    forall m | m in held && Next(s.edges, m).Some? ensures Next(s.edges, m).value in held {
      if m in oldPath {
        var i :| 0 <= i < |oldPath| && oldPath[i] == m;
        assert i < |oldPath| - 1 ==> oldPath[i + 1] in held;
      } else if m in newPath {
        var i :| 0 <= i < |newPath| && newPath[i] == m;
        assert i < |newPath| - 1 ==> newPath[i + 1] in held;
      } else if m == Q(q) {
        assert oldPath != [] ==> oldPath[0] in held;
        assert newPath != [] ==> newPath[0] in held;
      }
    }
    ChainHeld(s.edges, held, n, ChainOf(s.edges, n));
  }

  /** The locks a requeue starts from: both queues and every listed thread. */
  function RequeueLocks(q: Queue, target: Queue, list: seq<ThreadId>): set<Node> {
    {Q(q), Q(target)} + set t | t in list :: T(t)
  }

  /** The walk from o ended without meeting the target or a thread about to be requeued. */
  ghost predicate Accepted(e: Edges, q: Queue, locks: set<Node>, o: ThreadId, wake: seq<ThreadId>,
                           path: seq<Node>, stop: Option<Node>) {
    && Nodes(path) !! locks
    && match stop
       case None => Runs(e, T(o), path, None)
       case Some(at) => RunsInto(e, T(o), path, at) && (at == Q(q) || (at.T? && at.thread in wake))
  }

  lemma AcceptedIsAcceptable(e: Edges, q: Queue, target: Queue, o: ThreadId, wake: seq<ThreadId>,
                             requeue: seq<ThreadId>, path: seq<Node>, stop: Option<Node>)
    requires q != target && Listed(e.blockedIn, q, wake + requeue)
    requires Accepted(e, q, RequeueLocks(q, target, wake + requeue), o, wake, path, stop)
    ensures AcceptableTarget(e, q, target, o, requeue)
  {
    var e' := WithoutOwner(e, q);
    var c := match stop
      case None => path
      case Some(Q(_)) => path + [Q(q)]
      case Some(T(w)) => path + [T(w), Q(q)];
    assert IsChain(e', T(o), c) by {
      assert forall n | n in path :: n != Q(q) && Next(e', n) == Next(e, n);
      if stop.Some? && stop.value.T? {
        assert stop.value.thread in wake + requeue;
      }
    }
    forall t | t in requeue ensures T(t) !in c && t in wake + requeue {
      ListsApart(e.blockedIn, q, wake, requeue, t);
      assert T(t) in RequeueLocks(q, target, wake + requeue);
    }
    forall d | IsChain(e', T(o), d) ensures d == c {
      ChainUnique(e', T(o), d, c);
    }
  }

  lemma RequeueOutcome(blockedIn: map<ThreadId, Queue>, q: Queue, target: Queue, wake: seq<ThreadId>,
                       requeue: seq<ThreadId>)
    requires Listed(blockedIn, q, wake + requeue)
    ensures var moved := Moved(blockedIn, requeue, target);
            && (forall t :: t in wake ==> t in moved && moved[t] == q)
            && (forall t :: t in requeue ==> t in moved && moved[t] == target && t !in wake)
  {
    forall t | t in requeue ensures t !in wake && t in wake + requeue {
      ListsApart(blockedIn, q, wake, requeue, t);
    }
    assert forall t :: t in wake ==> t in wake + requeue;
  }

  lemma OwnersAfter(owner: map<Queue, ThreadId>, owner': map<Queue, ThreadId>, q: Queue, target: Queue,
                    o: Option<ThreadId>, wakeOwner: Option<ThreadId>)
    requires q != target && owner' == OwnerSet(OwnerSet(owner - {q}, target, o), q, wakeOwner)
    ensures (if q in owner' then Some(owner'[q]) else None) == wakeOwner
    ensures (if target in owner' then Some(owner'[target]) else None) == o
  {
  }

  lemma ListsApart(blockedIn: map<ThreadId, Queue>, q: Queue, wake: seq<ThreadId>, requeue: seq<ThreadId>, t: ThreadId)
    requires Listed(blockedIn, q, wake + requeue) && t in requeue
    ensures t !in wake && t in wake + requeue
  {
    var all := wake + requeue;
    var j :| 0 <= j < |requeue| && requeue[j] == t;
    assert all[|wake| + j] == t;
    forall i | 0 <= i < |wake| ensures wake[i] != t {
      assert all[i] == wake[i] && all[i] != all[|wake| + j];
    }
  }

  lemma ListedApart(blockedIn: map<ThreadId, Queue>, q: Queue, wake: seq<ThreadId>, requeue: seq<ThreadId>)
    requires Listed(blockedIn, q, wake + requeue)
    ensures forall t :: t in requeue ==> t !in wake
    ensures forall i, j | 0 <= i < j < |wake| :: wake[i] != wake[j]
    ensures forall i, j | 0 <= i < j < |requeue| :: requeue[i] != requeue[j]
  {
    forall t | t in requeue ensures t !in wake { ListsApart(blockedIn, q, wake, requeue, t); }
    var all := wake + requeue;
    forall i, j | 0 <= i < j < |wake| ensures wake[i] != wake[j] { assert all[i] != all[j]; }
    forall i, j | 0 <= i < j < |requeue| ensures requeue[i] != requeue[j] {
      assert all[|wake| + i] != all[|wake| + j];
    }
  }

  lemma ListedOnce(blockedIn: map<ThreadId, Queue>, q: Queue, list: seq<ThreadId>)
    requires Listed(blockedIn, q, list)
    ensures forall i, j | 0 <= i < j < |list| :: list[i] != list[j]
  {
  }

  lemma ListedHeld(q: Queue, target: Queue, list: seq<ThreadId>)
    ensures forall t :: t in list ==> T(t) in RequeueLocks(q, target, list)
  {
  }

  /** Every edge ends in a live node. */
  ghost predicate Closed(e: Edges, nodes: set<Node>) {
    forall n: Node :: Next(e, n).Some? ==> Next(e, n).value in nodes
  }

  lemma StillClosed(e: Edges, e': Edges, nodes: set<Node>)
    requires Closed(e, nodes)
    requires forall n: Node :: Next(e', n) == Next(e, n) || Next(e', n) == None || Next(e', n).value in nodes
    ensures Closed(e', nodes)
  {
  }

  lemma NextAlive(e: Edges, nodes: set<Node>, n: Node)
    requires Closed(e, nodes)
    ensures Next(e, n).Some? ==> Next(e, n).value in nodes
  {
  }

  lemma StillListed(e: Edges, e': Edges, q: Queue, list: seq<ThreadId>)
    requires Listed(e.blockedIn, q, list)
    requires forall t :: t in list ==> Next(e', T(t)) == Next(e, T(t))
    ensures Listed(e'.blockedIn, q, list)
  {
    forall t | t in list ensures t in e'.blockedIn && e'.blockedIn[t] == q {
      assert Next(e', T(t)) == Some(Q(q));
    }
  }

  /** The walk along an owner's chain, if there is an owner: it ran out or met a lock held before. */
  ghost predicate OwnerWalk(e: Edges, before: set<Node>, owner: Option<ThreadId>, path: seq<Node>, stop: Option<Node>) {
    match owner
    case None => path == [] && stop == None
    case Some(o) =>
      && Nodes(path) !! before
      && match stop
         case None => Runs(e, T(o), path, None)
         case Some(at) => RunsInto(e, T(o), path, at) && at in before
  }

  function OwnerIn(e: Edges, q: Queue): Option<ThreadId> {
    if q in e.owner then Some(e.owner[q]) else None
  }

  /** The owner that a requeue takes away from its target. */
  function Leaving(e: Edges, target: Queue, newOwner: Option<ThreadId>): Option<ThreadId> {
    if OwnerIn(e, target) == newOwner then None else OwnerIn(e, target)
  }

  lemma StillWalked(e: Edges, e': Edges, before: set<Node>, owner: Option<ThreadId>, path: seq<Node>,
                    stop: Option<Node>)
    requires OwnerWalk(e, before, owner, path, stop)
    requires forall n :: n in path ==> Next(e', n) == Next(e, n)
    ensures OwnerWalk(e', before, owner, path, stop)
  {
    if owner.Some? && path != [] {
      RunsStable(e, e', T(owner.value), path, stop);
    }
  }

  lemma WalkKept(e: Edges, e': Edges, before: set<Node>, owner: Option<ThreadId>, path: seq<Node>, stop: Option<Node>,
                 locks: set<Node>)
    requires OwnerWalk(e, before, owner, path, stop) && locks <= before
    requires forall n :: n !in locks ==> Next(e', n) == Next(e, n)
    ensures OwnerWalk(e', before, owner, path, stop) && Nodes(path) !! before
    ensures Acyclic(e') && owner.Some? && stop != Some(T(owner.value)) ==> T(owner.value) in path
  {
    assert forall n :: n in path ==> n in Nodes(path);
    StillWalked(e, e', before, owner, path, stop);
    if Acyclic(e') && owner.Some? { WalkStart(e', before, owner.value, path, stop); }
  }

  /** Such a walk starts by locking the owner, unless the owner is where it stopped. */
  lemma WalkStart(e: Edges, before: set<Node>, o: ThreadId, path: seq<Node>, stop: Option<Node>)
    requires Acyclic(e) && OwnerWalk(e, before, Some(o), path, stop)
    ensures stop == Some(T(o)) <==> path == []
    ensures stop == Some(T(o)) <==> T(o) in before
    ensures stop != Some(T(o)) ==> T(o) in path && Runs(e, T(o), path, stop)
  {
    if path != [] {
      assert path[0] == T(o);
      if stop.Some? { PathAvoidsEnd(e, path, stop.value); }
    }
  }

  lemma NoWalk(e: Edges, before: set<Node>, path: seq<Node>, stop: Option<Node>)
    ensures OwnerWalk(e, before, None, path, stop) <==> path == [] && stop == None
  {
  }

  lemma NobodyLeaves(e: Edges, before: set<Node>, target: Queue, newOwner: Option<ThreadId>)
    requires OwnerIn(e, target) == newOwner
    ensures OwnerWalk(e, before, Leaving(e, target, newOwner), [], None)
  {
  }

  /** Where the three walks of a requeue stopped: from the new owner, the target's and the wake queue's. */
  datatype Stops = Stops(coming: Option<Node>, leaving: Option<Node>, wake: Option<Node>)

  datatype Paths = Paths(coming: seq<Node>, leaving: seq<Node>, wake: seq<Node>)

  /** The locks of a requeue: both queues, the listed threads, and three walks that share nothing. */
  ghost predicate RequeueReady(e: Edges, held: set<Node>, q: Queue, target: Queue, list: seq<ThreadId>,
                               newOwner: Option<ThreadId>, stops: Stops, paths: Paths) {
    var locks := RequeueLocks(q, target, list);
    var more := locks + Nodes(paths.coming);
    && OwnerWalk(e, locks, newOwner, paths.coming, stops.coming)
    && OwnerWalk(e, more, Leaving(e, target, newOwner), paths.leaving, stops.leaving)
    && OwnerWalk(e, more + Nodes(paths.leaving), OwnerIn(e, q), paths.wake, stops.wake)
    && held == more + Nodes(paths.leaving) + Nodes(paths.wake)
  }

  /** A walk from q's owner closes q. */
  lemma WalkCloses(e: Edges, before: set<Node>, open: set<Node>, q: Queue, path: seq<Node>, stop: Option<Node>)
    requires DownClosed(e, before, open + {Q(q)}) && Q(q) in before
    requires OwnerWalk(e, before, OwnerIn(e, q), path, stop)
    ensures DownClosed(e, before + Nodes(path), open)
  {
    var held := before + Nodes(path);
    forall n | n in held && n !in open && Next(e, n).Some? ensures Next(e, n).value in held {
      if n in path {
        var i :| 0 <= i < |path| && path[i] == n;
        assert i < |path| - 1 ==> path[i + 1] in held;
      } else if n == Q(q) {
        assert path != [] ==> path[0] in held;
      }
    }
  }

  /** The walk from an owner that stays closes the target. */
  lemma TargetCloses(e: Edges, locks: set<Node>, newOwner: Option<ThreadId>, path: seq<Node>, stop: Option<Node>,
                     q: Queue, target: Queue)
    requires DownClosed(e, locks + Nodes(path), {Q(q), Q(target)}) && OwnerIn(e, target) == newOwner
    requires OwnerWalk(e, locks, newOwner, path, stop)
    ensures DownClosed(e, locks + Nodes(path), {Q(q)})
  {
    if newOwner.Some? {
      assert path != [] ==> path[0] in Nodes(path);
      assert Next(e, Q(target)) == Some(T(newOwner.value)) && T(newOwner.value) in locks + Nodes(path);
    }
  }

  lemma StillDownClosed(e: Edges, e': Edges, held: set<Node>, open: set<Node>)
    requires DownClosed(e, held, open) && forall n :: n in held ==> Next(e', n) == Next(e, n)
    ensures DownClosed(e', held, open)
  {
  }

  /** Once the proposed owner's walk is over, only the two queues' own edges may lead out of the locked nodes. */
  lemma OwnerWalkCloses(e: Edges, q: Queue, target: Queue, list: seq<ThreadId>, newOwner: Option<ThreadId>,
                        path: seq<Node>, stop: Option<Node>)
    requires Listed(e.blockedIn, q, list) && OwnerWalk(e, RequeueLocks(q, target, list), newOwner, path, stop)
    ensures DownClosed(e, RequeueLocks(q, target, list) + Nodes(path), {Q(q), Q(target)})
  {
    var held := RequeueLocks(q, target, list) + Nodes(path);
    forall n | n in held && n !in {Q(q), Q(target)} && Next(e, n).Some? ensures Next(e, n).value in held {
      if n in path {
        var i :| 0 <= i < |path| && path[i] == n;
        assert i < |path| - 1 ==> path[i + 1] in held;
      }
    }
  }

  /** The walks of a requeue can be given up one after the other: what remains is closed each time. */
  lemma ReadyCloses(e: Edges, held: set<Node>, q: Queue, target: Queue, list: seq<ThreadId>,
                    newOwner: Option<ThreadId>, stops: Stops, paths: Paths)
    requires Listed(e.blockedIn, q, list) && RequeueReady(e, held, q, target, list, newOwner, stops, paths)
    ensures var more := RequeueLocks(q, target, list) + Nodes(paths.coming);
            && DownClosed(e, more, {Q(q), Q(target)})
            && DownClosed(e, more + Nodes(paths.leaving), {Q(q)})
            && (OwnerIn(e, target) == newOwner ==> DownClosed(e, more, {Q(q)}))
  {
    var locks := RequeueLocks(q, target, list);
    var more := locks + Nodes(paths.coming);
    OwnerWalkCloses(e, q, target, list, newOwner, paths.coming, stops.coming);
    if OwnerIn(e, target) == newOwner {
      TargetCloses(e, locks, newOwner, paths.coming, stops.coming, q, target);
      assert more + Nodes(paths.leaving) == more;
    } else {
      assert {Q(q)} + {Q(target)} == {Q(q), Q(target)};
      WalkCloses(e, more, {Q(q)}, target, paths.leaving, stops.leaving);
    }
  }

  /** No locked node points at one of the listed threads. */
  ghost predicate Unpointed(e: Edges, held: set<Node>, list: seq<ThreadId>) {
    forall n, t :: n in held && t in list ==> Next(e, n) != Some(T(t))
  }

  /** With the owners that go gone, nothing that is still locked leads to a thread about to be requeued. */
  lemma DetachedUnpointed(e: Edges, locks: set<Node>, q: Queue, target: Queue, list: seq<ThreadId>,
                          requeue: seq<ThreadId>, newOwner: Option<ThreadId>, path: seq<Node>, stop: Option<Node>)
    requires Acyclic(e) && q !in e.owner && locks == RequeueLocks(q, target, list)
    requires OwnerWalk(e, locks, newOwner, path, stop)
    requires Avoids(e, Q(target), requeue) && (newOwner.Some? ==> Avoids(e, T(newOwner.value), requeue))
    ensures Unpointed(e, locks + Nodes(path), requeue)
  {
    forall n, t | n in locks + Nodes(path) && t in requeue ensures Next(e, n) != Some(T(t)) {
      if Next(e, n) == Some(T(t)) {
        if n in path {
          WalkOnChain(e, locks, newOwner.value, path, stop, n);
          ReachesOn(e, T(newOwner.value), n, T(t));
        } else {
          assert n == Q(target) && Reaches(e, Q(target), Q(target));
          ReachesOn(e, Q(target), Q(target), T(t));
        }
        assert false;
      }
    }
  }

  lemma StartAvoids(e: Edges, n: Node, list: seq<ThreadId>)
    requires Acyclic(e) && Avoids(e, n, list)
    ensures forall t :: t in list ==> n != T(t)
  {
    assert ChainOf(e, n)[0] == n;
  }

  lemma WalkOnChain(e: Edges, before: set<Node>, o: ThreadId, path: seq<Node>, stop: Option<Node>, n: Node)
    requires Acyclic(e) && OwnerWalk(e, before, Some(o), path, stop) && n in path
    ensures Reaches(e, T(o), n)
  {
    match stop {
      case None => RunChain(e, T(o), path);
      case Some(at) => PathChain(e, path, at);
    }
  }

  lemma WalkFromAccepted(e: Edges, q: Queue, locks: set<Node>, newOwner: Option<ThreadId>, wake: seq<ThreadId>,
                         path: seq<Node>, stop: Option<Node>)
    requires match newOwner
             case None => path == [] && stop == None
             case Some(o) => Accepted(e, q, locks, o, wake, path, stop) && (stop.Some? ==> stop.value in locks)
    ensures OwnerWalk(e, locks, newOwner, path, stop)
  {
  }

  /** The new owner's walk is not affected by the owners that have gone. */
  lemma ComingWalk(e: Edges, e': Edges, held: set<Node>, q: Queue, target: Queue, list: seq<ThreadId>,
                   newOwner: Option<ThreadId>, stops: Stops, paths: Paths)
    requires RequeueReady(e, held, q, target, list, newOwner, stops, paths)
    requires forall n :: n !in {Q(q), Q(target)} ==> Next(e', n) == Next(e, n)
    ensures OwnerWalk(e', RequeueLocks(q, target, list), newOwner, paths.coming, stops.coming)
    ensures Nodes(paths.coming) !! RequeueLocks(q, target, list)
    ensures newOwner.Some? ==> T(newOwner.value) in RequeueLocks(q, target, list) + Nodes(paths.coming)
  {
    assert paths.coming != [] ==> paths.coming[0] in Nodes(paths.coming);
    WalkKept(e, e', RequeueLocks(q, target, list), newOwner, paths.coming, stops.coming, {Q(q), Q(target)});
  }

  /** What was acceptable before the owners went is safe to assign after. */
  lemma DetachedChains(e: Edges, e': Edges, e'': Edges, q: Queue, target: Queue, newOwner: Option<ThreadId>,
                       requeue: seq<ThreadId>)
    requires Acyclic(e') && Acyclic(e'') && e' == WithoutOwner(e, q)
    requires e'' == if OwnerIn(e', target) == newOwner then e' else WithoutOwner(e', target)
    requires newOwner.Some? ==> AcceptableTarget(e, q, target, newOwner.value, requeue)
    ensures Avoids(e'', Q(target), requeue)
    ensures newOwner.Some? ==>
              Avoids(e'', T(newOwner.value), requeue) && !Reaches(e'', T(newOwner.value), Q(target))
  {
    if OwnerIn(e', target) != newOwner {
      RemoveEdgeAcyclic(e', e'', Q(target));
    }
    TargetChain(e'', target, requeue);
  }

  /** Moving the listed threads changes no edge of a node that was not locked to begin with. */
  lemma MovedKeeps(e: Edges, e': Edges, q: Queue, target: Queue, wake: seq<ThreadId>, requeue: seq<ThreadId>)
    requires e' == e.(blockedIn := Moved(e.blockedIn, requeue, target))
    ensures forall n :: n !in RequeueLocks(q, target, wake + requeue) ==> Next(e', n) == Next(e, n)
  {
    forall n | n !in RequeueLocks(q, target, wake + requeue) ensures Next(e', n) == Next(e, n) {
      assert n.T? ==> n.thread !in wake + requeue;
    }
  }

  lemma LocksLeft(q: Queue, target: Queue, wake: seq<ThreadId>, requeue: seq<ThreadId>)
    requires forall t :: t in requeue ==> t !in wake
    ensures RequeueLocks(q, target, wake + requeue) - (set t | t in requeue :: T(t)) ==
            {Q(q), Q(target)} + set t | t in wake :: T(t)
    ensures (set t | t in requeue :: T(t)) <= RequeueLocks(q, target, wake + requeue)
  {
    assert forall t :: t in wake + requeue <==> t in wake || t in requeue;
  }

  /** An accepted owner is met by its own walk exactly if it is about to be woken. */
  lemma MetItself(e: Edges, q: Queue, target: Queue, o: ThreadId, wake: seq<ThreadId>, requeue: seq<ThreadId>,
                  path: seq<Node>, stop: Option<Node>)
    requires Acyclic(e) && Accepted(e, q, RequeueLocks(q, target, wake + requeue), o, wake, path, stop)
    ensures stop == Some(T(o)) <==> o in wake
  {
    assert o in wake ==> o in wake + requeue;
    assert path != [] ==> path[0] in Nodes(path);
    if path != [] && stop.Some? {
      PathAvoidsEnd(e, path, stop.value);
    }
  }

  lemma StillAccepted(e: Edges, e': Edges, q: Queue, locks: set<Node>, o: ThreadId, wake: seq<ThreadId>,
                      path: seq<Node>, stop: Option<Node>)
    requires Accepted(e, q, locks, o, wake, path, stop)
    requires forall n :: n in path ==> Next(e', n) == Next(e, n)
    ensures Accepted(e', q, locks, o, wake, path, stop)
  {
    if path != [] {
      RunsStable(e, e', T(o), path, stop);
    }
  }

  class Transaction {
    const graph: Graph
    /** The threads and queues alive while the transaction runs. */
    ghost const nodes: set<Node>
    /** The running thread on whose behalf the locks are taken. */
    const current: ThreadId
    var held: set<Node>
    /** The graph after each turn of the other transactions. */
    ghost var log: seq<Snapshot>
    /** How often a lock was found contended. */
    ghost var contended: nat

    constructor (graph: Graph, current: ThreadId, ghost nodes: set<Node>)
      ensures this.graph == graph && this.current == current && this.nodes == nodes
      ensures held == {} && log == [] && contended == 0
    {
      this.graph := graph;
      this.current := current;
      this.nodes := nodes;
      held := {};
      log := [];
      contended := 0;
    }

    ghost predicate Inv()
      reads this, graph
    {
      && graph.Inv()
      && Closed(graph.View().edges, nodes)
      && (forall t :: T(t) in nodes <==> t in graph.threads)
    }

    ghost function Now(): Snapshot
      reads this, graph
    {
      Snapshot(graph.View().edges, graph.exiting)
    }

    /** Others have had their turn, and what they left is what there is. */
    twostate predicate Watched()
      reads this, graph
    {
      old(log) < log && log[|log| - 1] == Now()
    }

    /**
     The lock of a node protects its downstream edge, and whether a thread may own
     queues; a running thread is blocked by nobody but itself.
     */
    twostate predicate Undisturbed(h: set<Node>)
      reads this, graph
    {
      && (forall n :: n in h ==> Next(graph.View().edges, n) == Next(old(graph.View().edges), n))
      && (forall t :: T(t) in h ==> (t in graph.exiting) == (t in old(graph.exiting)))
      && (current !in old(graph.blockedIn) ==> current !in graph.blockedIn)
    }

    /** Everybody else may do anything that leaves the locked nodes alone. */
    method Interfere()
      requires Inv()
      modifies graph, this`log
      ensures Inv() && Undisturbed(held) && Watched()
    {
      log := log + [Now()];
    }

    method Acquire(n: Node) returns (r: LockResult)
      requires Inv()
      modifies graph, this`held, this`log, this`contended
      ensures Inv() && Undisturbed(old(held)) && Watched()
      ensures r == CycleDetected <==> n in old(held)
      ensures held == if r == Ok then old(held) + {n} else old(held)
      ensures contended == old(contended) + if r == Backoff then 1 else 0
    {
      Interfere();
      if n in held {
        return CycleDetected;
      }
      var taken := *;
      if taken {
        contended := contended + 1;
        return Backoff;
      }
      held := held + {n};
      r := Ok;
    }

    method Release(n: Node)
      requires n in held
      modifies this`held
      ensures held == old(held) - {n}
    {
      held := held - {n};
    }

    /**
     UnlockPiChainCommon: releases exactly the nodes of path, each once.  Without a stop
     point it goes on for as long as the next node is locked.
     */
    method UnlockPiChainCommon(start: Node, stop: Option<Node>, ghost path: seq<Node>)
      requires Inv() && start in held
      requires stop.Some? ==> Runs(graph.View().edges, start, path, stop) && Nodes(path) <= held
      modifies this`held
      ensures held <= old(held) && start !in held
      ensures Runs(graph.View().edges, start, path, stop) && Nodes(path) <= old(held) ==>
              held == old(held) - Nodes(path)
    {
      hide Exact, Linked, Healthy, Acyclic, Closed;
      ghost var e := graph.View().edges;
      ghost var known := Runs(e, start, path, stop) && Nodes(path) <= held;
      var cur := start;
      ghost var i := 0;
      if known {
        RunsDistinct(e, start, path, stop);
      }
      while true
        invariant held <= old(held) && cur in held && (cur == start || start !in held)
        invariant known ==> i < |path| && cur == path[i] && held == old(held) - Nodes(path[..i])
        decreases |ChainOf(e, cur)|
      {
        assert known ==> path[..i + 1] == path[..i] + [cur];
        var next := Next(Edges(graph.blockedIn, graph.owner), cur);
        assert known && i < |path| - 1 ==> next == Some(path[i + 1]) && path[i + 1] !in path[..i + 1];
        assert known && i == |path| - 1 ==> next == stop && path[..i + 1] == path;
        if stop.Some? && i < |path| - 1 { PathAvoidsEnd(e, path, stop.value); }
        var stopHere := if stop.Some? then next == stop else next.None? || next.value !in held;
        Release(cur);
        i := i + 1;
        if stopHere {
          return;
        }
        PathChain(e, [cur], next.value);
        PathAvoidsEnd(e, [cur], next.value);
        cur := next.value;
      }
    }

    /** LockPiChainCommon. */
    method LockPiChainCommon(start: Node, stopAtCycle: bool) returns (r: ChainResult, ghost path: seq<Node>)
      requires Inv() && start in nodes
      requires !stopAtCycle ==> start !in held
      modifies graph, this`held, this`log, this`contended
      ensures Inv() && Undisturbed(old(held)) && Watched()
      ensures r.Locked? || r.Stopped? ==> held == old(held) + Nodes(path) && old(held) !! Nodes(path)
      ensures r.Locked? ==> Runs(graph.View().edges, start, path, None)
      ensures r.Stopped? ==> stopAtCycle && r.at in old(held) && RunsInto(graph.View().edges, start, path, r.at)
      ensures r.Refused? ==> !stopAtCycle && r.at in held && Runs(graph.View().edges, start, path, Some(r.at))
      ensures r.Refused? || r.BackedOff? ==> held == old(held)
      ensures contended == old(contended) + if r.BackedOff? then 1 else 0
    {
      hide Exact, Linked, Healthy, Acyclic, Closed, IsPath;
      path := [];
      var cur := start;
      while true
        invariant Inv() && Undisturbed(old(held)) && cur in nodes && old(log) <= log
        invariant contended == old(contended)
        invariant held == old(held) + Nodes(path) && old(held) !! Nodes(path)
        invariant RunsInto(graph.View().edges, start, path, cur)
        decreases nodes - held
      {
        ghost var e := graph.View().edges;
        var got := Acquire(cur);
        WalkOn(e, graph.View().edges, start, path, cur);
        if got != Ok {
          if got == CycleDetected && stopAtCycle {
            return Stopped(cur), path;
          }
          if start in held {
            UnlockPiChainCommon(start, Some(cur), path);
          }
          return if got == Backoff then BackedOff else Refused(cur), path;
        }
        path := path + [cur];
        NextAlive(graph.View().edges, nodes, cur);
        match Next(Edges(graph.blockedIn, graph.owner), cur) {
          case None =>
            return Locked, path;
          case Some(n) =>
            cur := n;
        }
      }
    }

    /** Locks the chain of the owner that is going away, as far as it is not locked yet. */
    method LockOldOwnerChain(q: Queue, t: ThreadId) returns (ok: bool, stop: Option<Node>, ghost path: seq<Node>)
      requires Inv() && q in graph.owner && Q(q) in held && T(t) in held
      modifies graph, this`held, this`log, this`contended
      ensures Inv() && Undisturbed(old(held)) && q in graph.owner && old(log) <= log
      ensures !ok ==> held == old(held)
      ensures contended == old(contended) + if ok then 0 else 1
      ensures ok ==> held == old(held) + Nodes(path) && old(held) !! Nodes(path)
      ensures ok ==> match stop
                     case None => Runs(graph.View().edges, T(graph.owner[q]), path, None)
                     case Some(at) =>
                       at in old(held) - {Q(q)} && RunsInto(graph.View().edges, T(graph.owner[q]), path, at)
    {
      hide Exact, Linked, Healthy, Acyclic;
      var o := graph.owner[q];
      if o == t {
        return true, Some(T(t)), [];
      }
      assert Next(graph.View().edges, Q(q)) == Some(T(o));
      var r;
      r, path := LockPiChainCommon(T(o), true);
      assert Next(graph.View().edges, Q(q)) == Some(T(o));
      match r {
        case Stopped(at) =>
          OwnerChainAvoidsQueue(graph.View().edges, q, path, at);
          return true, Some(at), path;
        case Locked =>
          return true, None, path;
        case _ =>
          return false, None, [];
      }
    }

    /** Case 1: the proposed owner is the present one. */
    method KeepOwner(q: Queue, t: ThreadId) returns (r: Verdict, ghost path: seq<Node>)
      requires Inv() && held == {Q(q), T(t)} && q in graph.owner && graph.owner[q] != t
      modifies graph, this`held, this`log, this`contended
      ensures Inv() && Undisturbed(old(held)) && q in graph.owner && graph.owner[q] == old(graph.owner[q])
      ensures old(log) <= log
      ensures !r.Accept? ==> held == old(held)
      ensures contended == old(contended) + if r.Retry? then 1 else 0
      ensures r.Accept? ==>
                && held == {Q(q), T(t)} + Nodes(path) && T(t) !in path && Q(q) !in path
                && Runs(graph.View().edges, T(graph.owner[q]), path, None) && graph.owner[q] !in graph.exiting
      ensures r.Nack? ==> BarredSince(log, |old(log)|, q, t, graph.owner[q])
    {
      hide Exact, Linked, Healthy, Acyclic;
      var o := graph.owner[q];
      assert Next(graph.View().edges, Q(q)) == Some(T(o));
      var c;
      c, path := LockPiChainCommon(T(o), true);
      assert Next(graph.View().edges, Q(q)) == Some(T(o));
      match c {
        case Locked =>
          if o !in graph.exiting {
            return Accept, path;
          }
          UnlockPiChainCommon(T(o), None, path);
          assert Barred(log[|log| - 1], q, t, o);
          return Nack, [];
        case Stopped(at) =>
          OwnerChainAvoidsQueue(graph.View().edges, q, path, at);
          assert at == T(t);
          assert Barred(log[|log| - 1], q, t, o);
          UnlockPiChainCommon(T(o), Some(at), path);
          return Nack, [];
        case _ =>
          return Retry, [];
      }
    }

    /** Case 2, first half: the proposed owner's chain, refused if it meets the queue or the blocker. */
    method LockNewOwnerChain(q: Queue, t: ThreadId, o: ThreadId) returns (r: Verdict, ghost path: seq<Node>)
      requires Inv() && held == {Q(q), T(t)} && o != t && T(o) in nodes
      modifies graph, this`held, this`log, this`contended
      ensures Inv() && Undisturbed(old(held)) && old(log) <= log
      ensures !r.Accept? ==> held == old(held)
      ensures contended == old(contended) + if r.Retry? then 1 else 0
      ensures r.Accept? ==>
                && held == {Q(q), T(t)} + Nodes(path) && T(t) !in path && Q(q) !in path
                && Runs(graph.View().edges, T(o), path, None) && o !in graph.exiting
      ensures r.Nack? ==> BarredSince(log, |old(log)|, q, t, o)
    {
      hide Exact, Linked, Healthy, Acyclic;
      var c;
      c, path := LockPiChainCommon(T(o), false);
      match c {
        case Locked =>
          if o in graph.exiting {
            assert Barred(log[|log| - 1], q, t, o);
            UnlockPiChainCommon(T(o), None, path);
            return Nack, [];
          }
          return Accept, path;
        case Refused(at) =>
          assert Barred(log[|log| - 1], q, t, o);
          return Nack, [];
        case _ =>
          return Retry, [];
      }
    }

    /** LockForOwnerReplacement, as a blocking operation of t uses it. */
    method LockForOwnerReplacement(q: Queue, t: ThreadId, requested: Option<ThreadId>)
      returns (ok: bool, newOwner: Option<ThreadId>, stop: Option<Node>,
               ghost newPath: seq<Node>, ghost oldPath: seq<Node>)
      requires Inv() && held == {Q(q), T(t)}
      requires requested.Some? ==> T(requested.value) in nodes
      modifies graph, this`held, this`log, this`contended
      ensures Inv() && Undisturbed(old(held)) && old(log) <= log
      ensures !ok ==> held == {Q(q), T(t)}
      ensures contended == old(contended) + if ok then 0 else 1
      ensures ok ==> Ready(graph.View(), held, graph.exiting, q, t, newOwner, stop, newPath, oldPath)
      ensures newOwner != requested ==>
                && newOwner == None && requested.Some?
                && (requested == Some(t) || BarredSince(log, |old(log)|, q, t, requested.value))
    {
      hide Exact, Linked, Healthy, Acyclic;
      newOwner, stop, newPath, oldPath := if requested == Some(t) then None else requested, None, [], [];
      assert Next(graph.View().edges, Q(q)) == if q in graph.owner then Some(T(graph.owner[q])) else None;
      if newOwner == graph.OwnerOf(q) {
        if newOwner == None {
          return true, newOwner, stop, newPath, oldPath;
        }
        var r;
        r, newPath := KeepOwner(q, t);
        if !r.Nack? {
          return r.Accept?, newOwner, stop, newPath, oldPath;
        }
        newOwner, newPath := None, [];
      }
      if newOwner.Some? {
        var r;
        r, newPath := LockNewOwnerChain(q, t, newOwner.value);
        if r.Retry? {
          return false, newOwner, stop, newPath, oldPath;
        }
        if r.Nack? {
          newOwner, newPath := None, [];
        }
      }
      if q !in graph.owner {
        return true, newOwner, stop, newPath, oldPath;
      }
      ghost var before := log;
      ok, stop, oldPath := FinishReplacement(q, t, newOwner, newPath);
      if newOwner != requested && requested != Some(t) {
        StillBarred(before, |old(log)|, log, |old(log)|, q, t, requested.value);
      }
    }

    /** The owner is changing: lock the old owner's chain, or give the new owner's back. */
    method FinishReplacement(q: Queue, t: ThreadId, newOwner: Option<ThreadId>, ghost newPath: seq<Node>)
      returns (ok: bool, stop: Option<Node>, ghost oldPath: seq<Node>)
      requires Inv() && q in graph.owner && newOwner != Some(graph.owner[q])
      requires held == {Q(q), T(t)} + Nodes(newPath) && T(t) !in newPath && Q(q) !in newPath
      requires match newOwner
               case None => newPath == []
               case Some(o) => Runs(graph.View().edges, T(o), newPath, None) && o !in graph.exiting && T(o) in nodes
      modifies graph, this`held, this`log, this`contended
      ensures Inv() && Undisturbed({Q(q), T(t)}) && old(log) <= log
      ensures !ok ==> held == {Q(q), T(t)}
      ensures contended == old(contended) + if ok then 0 else 1
      ensures ok ==> Ready(graph.View(), held, graph.exiting, q, t, newOwner, stop, newPath, oldPath)
    {
      hide Exact, Linked, Healthy, Acyclic;
      ghost var e := graph.View().edges;
      assert Next(e, Q(q)) == Some(T(graph.owner[q]));
      ok, stop, oldPath := LockOldOwnerChain(q, t);
      assert Next(graph.View().edges, Q(q)) == Some(T(graph.owner[q]));
      if newOwner.Some? {
        RunsStable(e, graph.View().edges, T(newOwner.value), newPath, None);
        if !ok {
          UnlockPiChainCommon(T(newOwner.value), None, newPath);
        }
      }
    }

    /** LockForBAAOOperationLocked: one attempt, started with the queue locked. */
    method LockForBAAOOperationLocked(q: Queue, t: ThreadId, requested: Option<ThreadId>)
      returns (ok: bool, newOwner: Option<ThreadId>, stop: Option<Node>,
               ghost newPath: seq<Node>, ghost oldPath: seq<Node>)
      requires Inv() && held == {Q(q)} && t == current && t !in graph.blockedIn
      requires requested.Some? ==> T(requested.value) in nodes
      modifies graph, this`held, this`log, this`contended
      ensures Inv() && Undisturbed({Q(q)}) && t !in graph.blockedIn && old(log) <= log
      ensures !ok ==> held == {Q(q)}
      ensures contended == old(contended) + if ok then 0 else 1
      ensures ok ==> Ready(graph.View(), held, graph.exiting, q, t, newOwner, stop, newPath, oldPath)
      ensures ok && newOwner != requested ==>
                && newOwner == None && requested.Some?
                && (requested == Some(t) || BarredSince(log, |old(log)|, q, t, requested.value))
    {
      hide Exact, Linked, Healthy, Acyclic;
      newOwner, stop, newPath, oldPath := None, None, [], [];
      var r := Acquire(T(t));
      if r != Ok {
        return false, newOwner, stop, newPath, oldPath;
      }
      ghost var n := |log|;
      ok, newOwner, stop, newPath, oldPath := LockForOwnerReplacement(q, t, requested);
      if !ok {
        Release(T(t));
      } else if newOwner != requested && requested != Some(t) {
        StillBarred(log, n, log, |old(log)|, q, t, requested.value);
      }
    }

    /** The old owner goes, and with it every lock that was taken only for its sake. */
    method ReleaseOldOwner(q: Queue, t: ThreadId, newOwner: Option<ThreadId>, stop: Option<Node>,
                           ghost newPath: seq<Node>, ghost oldPath: seq<Node>)
      requires Inv() && q.Owned? && q in graph.owner && newOwner != Some(graph.owner[q])
      requires Ready(graph.View(), held, graph.exiting, q, t, newOwner, stop, newPath, oldPath)
      modifies graph`owner, graph`threads, graph`qIpv, this`held
      ensures Inv() && held == {Q(q), T(t)} + Nodes(newPath)
      ensures graph.owner == old(graph.owner) - {q}
      ensures SameProfiles(old(graph.View()), graph.View())
    {
      hide Exact, Linked, Healthy, Acyclic, OnlyChanged, OwnerNodes;
      var o := graph.owner[q];
      ghost var e := graph.View().edges;
      graph.AssignOwnerInternal(q, None);
      StillClosed(e, graph.View().edges, nodes);
      if oldPath != [] {
        RunsStable(e, graph.View().edges, T(o), oldPath, stop);
        assert T(o) in Nodes(oldPath);
      }
      if t != o {
        if stop != Some(T(o)) {
          UnlockPiChainCommon(T(o), stop, oldPath);
        }
      }
    }

    /** The graph half of a block: t may fail to join, the owner is assigned in any case. */
    method JoinAndOwn(q: Queue, t: ThreadId, newOwner: Option<ThreadId>, joins: bool, ghost newPath: seq<Node>)
      requires Inv() && q.Owned? && Q(q) in nodes && t in graph.threads && t !in graph.blockedIn
      requires q in graph.owner ==> newOwner == Some(graph.owner[q])
      requires T(t) !in newPath && Q(q) !in newPath
      requires newOwner.Some? ==>
                 && Runs(graph.View().edges, T(newOwner.value), newPath, None)
                 && newOwner.value in graph.threads && newOwner.value !in graph.exiting
      modifies graph`blockedIn, graph`owner, graph`threads, graph`qIpv
      ensures Inv()
      ensures graph.blockedIn == if joins then old(graph.blockedIn)[t := q] else old(graph.blockedIn)
      ensures graph.owner == OwnerSet(old(graph.owner), q, newOwner)
      ensures newOwner.Some? ==> Runs(graph.View().edges, T(newOwner.value), newPath, None)
      ensures SameProfiles(old(graph.View()), graph.View())
    {
      hide Exact, Linked, Healthy, Acyclic, OnlyChanged, OwnerNodes, SameProfiles;
      ghost var s0 := graph.View();
      SameProfilesRefl(s0);
      if newOwner.Some? {
        RunChain(s0.edges, T(newOwner.value), newPath);
      }
      QueueChain(s0.edges, q, newPath);
      if joins {
        graph.InsertWaiter(t, q);
        if newOwner.Some? {
          RunsStable(s0.edges, graph.View().edges, T(newOwner.value), newPath, None);
          RunChain(graph.View().edges, T(newOwner.value), newPath);
        }
      }
      ghost var s1 := graph.View();
      SameProfilesTrans(s0, s0, s1);
      if newOwner.Some? {
        graph.AssignOwnerInternal(q, newOwner);
        RunsStable(s1.edges, graph.View().edges, T(newOwner.value), newPath, None);
        SameProfilesTrans(s0, s1, graph.View());
      }
      StillClosed(s0.edges, graph.View().edges, nodes);
    }

    /** BlockAndAssignOwnerLocked, up to the point where the thread gives up the processor. */
    method BlockAndAssignOwnerLocked(q: Queue, t: ThreadId, newOwner: Option<ThreadId>, stop: Option<Node>, joins: bool,
                                     ghost newPath: seq<Node>, ghost oldPath: seq<Node>)
      requires Inv() && q.Owned? && Q(q) in nodes && t in graph.threads && t !in graph.blockedIn
      requires Ready(graph.View(), held, graph.exiting, q, t, newOwner, stop, newPath, oldPath)
      modifies graph`blockedIn, graph`owner, graph`threads, graph`qIpv, this`held
      ensures Inv() && held == {T(t)}
      ensures graph.blockedIn == if joins then old(graph.blockedIn)[t := q] else old(graph.blockedIn)
      ensures graph.owner == OwnerSet(old(graph.owner), q, newOwner)
      ensures SameProfiles(old(graph.View()), graph.View())
    {
      hide Exact, Linked, Healthy, Acyclic, OnlyChanged, OwnerNodes, SameProfiles;
      ghost var s0 := graph.View();
      SameProfilesRefl(s0);
      if graph.OwnerOf(q) != newOwner && q in graph.owner {
        ReleaseOldOwner(q, t, newOwner, stop, newPath, oldPath);
        if newOwner.Some? {
          RunsStable(s0.edges, graph.View().edges, T(newOwner.value), newPath, None);
        }
      }
      ghost var s1 := graph.View();
      SameProfilesTrans(s0, s0, s1);
      JoinAndOwn(q, t, newOwner, joins, newPath);
      SameProfilesTrans(s0, s1, graph.View());
      if newOwner.Some? {
        UnlockPiChainCommon(T(newOwner.value), None, newPath);
      }
      Release(Q(q));
    }

    /** The UnlockOwnerChain helper of a requeue; its assertion fails if the owner is not locked. */
    method UnlockOwnerChain(owner: Option<ThreadId>, stop: Option<Node>, ghost before: set<Node>, ghost path: seq<Node>)
      returns (fault: bool)
      requires Inv() && (stop.Some? ==> OwnerWalk(graph.View().edges, before, owner, path, stop) && Nodes(path) <= held)
      modifies this`held
      ensures fault <==> owner.Some? && stop != Some(T(owner.value)) && T(owner.value) !in old(held)
      ensures fault ==> held == old(held)
      ensures held <= old(held) && (!fault && owner.Some? && stop != Some(T(owner.value)) ==> T(owner.value) !in held)
      ensures !fault && OwnerWalk(graph.View().edges, before, owner, path, stop) && Nodes(path) <= old(held) ==>
                held == old(held) - Nodes(path)
    {
      hide Exact, Linked, Healthy, Acyclic, Closed, OwnerWalk;
      fault := false;
      if owner.None? {
        NoWalk(graph.View().edges, before, path, stop);
        return;
      }
      var o := owner.value;
      if OwnerWalk(graph.View().edges, before, owner, path, stop) {
        WalkStart(graph.View().edges, before, o, path, stop);
      }
      if stop == Some(T(o)) {
        return;
      }
      if T(o) !in held {
        return true;
      }
      UnlockPiChainCommon(T(o), stop, path);
    }

    /** Releases the listed threads in order, unless one of them is not locked. */
    method ReleaseThreads(list: seq<ThreadId>) returns (fault: bool)
      requires forall i, j | 0 <= i < j < |list| :: list[i] != list[j]
      modifies this`held
      ensures fault <==> exists t :: t in list && T(t) !in old(held)
      ensures !fault ==> held == old(held) - set t | t in list :: T(t)
    {
      for i := 0 to |list|
        invariant held == old(held) - set t | t in list[..i] :: T(t)
        invariant forall t :: t in list[..i] ==> T(t) in old(held)
      {
        assert list[i] !in list[..i] && list[..i + 1] == list[..i] + [list[i]];
        if T(list[i]) !in held {
          return true;
        }
        Release(T(list[i]));
      }
      assert list[..|list|] == list;
      fault := false;
    }

    /** The end of every retreat of LockForRequeueOperation. */
    method ReleaseStart(q: Queue, target: Queue, list: seq<ThreadId>) returns (fault: bool)
      requires q != target && forall i, j | 0 <= i < j < |list| :: list[i] != list[j]
      requires held <= RequeueLocks(q, target, list)
      modifies this`held
      ensures (exists t :: t in list && T(t) !in old(held)) ==> fault
      ensures old(held) == RequeueLocks(q, target, list) ==> !fault
      ensures !fault ==> held == {}
    {
      fault := ReleaseThreads(list);
      if fault {
        return;
      }
      if Q(q) !in held || Q(target) !in held {
        return true;
      }
      Release(Q(q));
      Release(Q(target));
    }

    /** The retreat after the second walk: the new owner's chain goes back, then everything else. */
    method RetreatFromOld(q: Queue, target: Queue, list: seq<ThreadId>, newOwner: Option<ThreadId>,
                          stop: Option<Node>, ghost path: seq<Node>) returns (fault: bool)
      requires Inv() && q != target && forall i, j | 0 <= i < j < |list| :: list[i] != list[j]
      requires held == RequeueLocks(q, target, list) + Nodes(path)
      requires OwnerWalk(graph.View().edges, RequeueLocks(q, target, list), newOwner, path, stop)
      modifies this`held
      ensures !fault && held == {}
    {
      hide Exact, Linked, Healthy, Acyclic, Closed;
      ghost var locks := RequeueLocks(q, target, list);
      if newOwner.Some? { WalkStart(graph.View().edges, locks, newOwner.value, path, stop); }
      fault := UnlockOwnerChain(newOwner, stop, locks, path);
      assert !fault && held == locks;
      fault := ReleaseStart(q, target, list);
    }

    /**
     The retreat after the third walk.  It gives back the chain of the target's owner as
     if it had always been locked on its own; where the owner stays it was not, and one
     lock is then released twice.
     */
    method RetreatFromWake(q: Queue, target: Queue, list: seq<ThreadId>, newOwner: Option<ThreadId>,
                           stops: Stops, ghost paths: Paths) returns (fault: bool)
      requires Inv() && q != target && forall i, j | 0 <= i < j < |list| :: list[i] != list[j]
      requires var locks := RequeueLocks(q, target, list);
               && held == locks + Nodes(paths.coming) + Nodes(paths.leaving)
               && OwnerWalk(graph.View().edges, locks, newOwner, paths.coming, stops.coming)
               && OwnerWalk(graph.View().edges, locks + Nodes(paths.coming),
                            Leaving(graph.View().edges, target, newOwner), paths.leaving, stops.leaving)
      modifies this`held
      ensures fault <==> newOwner.Some? && graph.OwnerOf(target) == newOwner
      ensures !fault ==> held == {}
    {
      hide Exact, Linked, Healthy, Acyclic, Closed, Runs, RunsInto;
      ghost var locks, e := RequeueLocks(q, target, list), graph.View().edges;
      ghost var more := locks + Nodes(paths.coming);
      var owner := graph.OwnerOf(target);
      assert owner == OwnerIn(e, target);
      if newOwner.Some? { WalkStart(e, locks, newOwner.value, paths.coming, stops.coming); }
      if owner.Some? && owner != newOwner { WalkStart(e, more, owner.value, paths.leaving, stops.leaving); }
      fault := UnlockOwnerChain(owner, stops.leaving, more, paths.leaving);
      assert !fault;
      if owner == newOwner && owner.Some? {
        fault := RetreatTwice(q, target, list, owner.value, stops.coming, locks, paths.coming);
        return;
      }
      assert held == more;
      fault := RetreatFromOld(q, target, list, newOwner, stops.coming, paths.coming);
    }

    /** What is left of the retreat once the owner's lock has been released already: it faults. */
    method RetreatTwice(q: Queue, target: Queue, list: seq<ThreadId>, o: ThreadId, stop: Option<Node>,
                        ghost locks: set<Node>, ghost path: seq<Node>) returns (fault: bool)
      requires Inv() && q != target && forall i, j | 0 <= i < j < |list| :: list[i] != list[j]
      requires locks == RequeueLocks(q, target, list) && T(o) !in held && held <= locks + Nodes(path)
      requires OwnerWalk(graph.View().edges, locks, Some(o), path, stop)
      modifies this`held
      ensures fault
    {
      hide Exact, Linked, Healthy, Acyclic, Closed;
      WalkStart(graph.View().edges, locks, o, path, stop);
      if stop == Some(T(o)) {
        assert o in list && held <= locks;
        fault := ReleaseStart(q, target, list);
      } else {
        return true;
      }
    }

    /** The proposed owner of the requeue target: locked and accepted, or turned down. */
    method LockRequeueOwner(q: Queue, o: ThreadId, wake: seq<ThreadId>)
      returns (r: Verdict, stop: Option<Node>, ghost path: seq<Node>)
      requires Inv() && T(o) in nodes && Q(q) in held
      modifies graph, this`held, this`log, this`contended
      ensures Inv() && Undisturbed(old(held)) && Watched()
      ensures !r.Accept? ==> held == old(held)
      ensures contended == old(contended) + if r.Retry? then 1 else 0
      ensures r.Accept? ==>
                && held == old(held) + Nodes(path) && T(o) in held && o !in graph.exiting
                && Accepted(graph.View().edges, q, old(held), o, wake, path, stop)
                && (stop.Some? ==> stop.value in old(held))
      ensures r.Nack? ==> TurnedDown(Now(), held, q, wake, o)
    {
      hide Exact, Linked, Healthy, Acyclic, Closed;
      var c;
      c, path := LockPiChainCommon(T(o), true);
      stop := None;
      match c {
        case Stopped(at) =>
          stop := Some(at);
          if (at == Q(q) || (at.T? && at.thread in wake)) && o !in graph.exiting {
            return Accept, stop, path;
          }
        case Locked =>
          if o !in graph.exiting {
            return Accept, stop, path;
          }
        case _ =>
          return Retry, None, [];
      }
      if stop != Some(T(o)) {
        assert path[0] == T(o);
        UnlockPiChainCommon(T(o), stop, path);
      }
      r := Nack;
    }

    /** The chain of a queue's present owner, as far as it is not locked yet. */
    method LockOwnerOf(q: Queue, ghost open: set<Node>) returns (ok: bool, stop: Option<Node>, ghost path: seq<Node>)
      requires Inv() && Q(q) in held && DownClosed(graph.View().edges, held, open + {Q(q)})
      modifies graph, this`held, this`log, this`contended
      ensures Inv() && Undisturbed(old(held)) && graph.OwnerOf(q) == old(graph.OwnerOf(q)) && old(log) <= log
      ensures held == if ok then old(held) + Nodes(path) else old(held)
      ensures contended == old(contended) + if ok then 0 else 1
      ensures ok ==> OwnerWalk(graph.View().edges, old(held), graph.OwnerOf(q), path, stop)
      ensures ok ==> DownClosed(graph.View().edges, held, open)
      ensures !ok ==> DownClosed(graph.View().edges, held, open + {Q(q)})
    {
      hide Exact, Linked, Healthy, Acyclic;
      ok, stop, path := true, None, [];
      ghost var e := graph.View().edges;
      if q in graph.owner {
        var o := graph.owner[q];
        assert Next(e, Q(q)) == Some(T(o));
        var r;
        r, path := LockPiChainCommon(T(o), true);
        assert Next(graph.View().edges, Q(q)) == Some(T(o));
        ok := !r.BackedOff?;
        stop := if r.Stopped? then Some(r.at) else None;
        assert ok ==> OwnerWalk(graph.View().edges, old(held), Some(o), path, stop);
      }
      StillDownClosed(e, graph.View().edges, old(held), open + {Q(q)});
      if ok {
        WalkCloses(graph.View().edges, old(held), open, q, path, stop);
      }
    }

    /** LockForRequeueOperation, from the point where both queues and the listed threads are locked. */
    method LockForRequeueOperation(q: Queue, target: Queue, requested: Option<ThreadId>,
                                   wake: seq<ThreadId>, requeue: seq<ThreadId>)
      returns (r: RequeueLocking, newOwner: Option<ThreadId>, stops: Stops, ghost paths: Paths)
      requires Inv() && q != target && Listed(graph.blockedIn, q, wake + requeue)
      requires held == RequeueLocks(q, target, wake + requeue)
      requires requested.Some? ==> T(requested.value) in nodes
      modifies graph, this`held, this`log, this`contended
      ensures Inv() && Undisturbed(old(held)) && Listed(graph.blockedIn, q, wake + requeue)
      ensures old(log) <= log && (newOwner == requested || newOwner == None)
      ensures r == Granted && newOwner != requested ==>
                requested.Some? && TurnedDownSince(log, |old(log)|, old(held), q, wake, requested.value)
      ensures contended == old(contended) + if r == Granted then 0 else 1
      ensures r == Repeat ==> held == {}
      ensures r == Broken ==> requested.Some? && graph.OwnerOf(target) == requested
      ensures r == Granted ==>
                && RequeueReady(graph.View().edges, held, q, target, wake + requeue, newOwner, stops, paths)
                && DownClosed(graph.View().edges, held, {})
      ensures r == Granted && newOwner.Some? ==>
                && newOwner.value in graph.threads && newOwner.value !in graph.exiting
                && AcceptableTarget(graph.View().edges, q, target, newOwner.value, requeue)
                && (stops.coming == Some(T(newOwner.value)) <==> newOwner.value in wake)
      ensures r == Granted && requested.Some? && requested.value in wake && requested.value !in old(graph.exiting) ==>
                newOwner == requested
    {
      hide Exact, Linked, Healthy, Acyclic, Closed, OwnerWalk, RequeueReady, AcceptableTarget, DownClosed, Accepted;
      hide TurnedDownSince, Listed;
      stops, paths := Stops(None, None, None), Paths([], [], []);
      ghost var locks := held;
      var off, stop;
      ghost var path;
      off, newOwner, stop, path := LockComing(q, target, requested, wake, requeue);
      if off {
        return Repeat, None, stops, paths;
      }
      ghost var e, before := graph.View().edges, log;
      OwnerWalkCloses(e, q, target, wake + requeue, newOwner, path, stop);
      ListedOnce(e.blockedIn, q, wake + requeue);
      r, stops, paths := LockOldOwners(q, target, wake + requeue, newOwner, stop, path);
      ListedHeld(q, target, wake + requeue);
      StillListed(e, graph.View().edges, q, wake + requeue);
      if newOwner != requested {
        StillTurnedDown(before, log, |old(log)|, locks, q, wake, requested.value);
      }
      if r == Granted && newOwner.Some? {
        StillAccepted(e, graph.View().edges, q, locks, newOwner.value, wake, path, stop);
        AcceptedIsAcceptable(graph.View().edges, q, target, newOwner.value, wake, requeue, path, stop);
        MetItself(graph.View().edges, q, target, newOwner.value, wake, requeue, path, stop);
      }
    }

    /** The first walk: the requested owner is accepted or dropped, or the attempt is given up. */
    method LockComing(q: Queue, target: Queue, requested: Option<ThreadId>, wake: seq<ThreadId>, requeue: seq<ThreadId>)
      returns (off: bool, newOwner: Option<ThreadId>, stop: Option<Node>, ghost path: seq<Node>)
      requires Inv() && q != target && Listed(graph.blockedIn, q, wake + requeue)
      requires held == RequeueLocks(q, target, wake + requeue)
      requires requested.Some? ==> T(requested.value) in nodes
      modifies graph, this`held, this`log, this`contended
      ensures Inv() && Undisturbed(old(held)) && Listed(graph.blockedIn, q, wake + requeue) && old(log) <= log
      ensures contended == old(contended) + if off then 1 else 0
      ensures off ==> held == {}
      ensures !off ==>
                && held == old(held) + Nodes(path) && (newOwner == requested || newOwner == None)
                && OwnerWalk(graph.View().edges, old(held), newOwner, path, stop)
      ensures !off && newOwner != requested ==>
                requested.Some? && TurnedDownSince(log, |old(log)|, old(held), q, wake, requested.value)
      ensures !off && newOwner.Some? ==>
                && T(newOwner.value) in held && newOwner.value !in graph.exiting
                && Accepted(graph.View().edges, q, old(held), newOwner.value, wake, path, stop)
      ensures !off && requested.Some? && requested.value in wake && requested.value !in old(graph.exiting) ==>
                newOwner == requested
    {
      hide Exact, Linked, Healthy, Acyclic, Closed, OwnerWalk;
      off, newOwner, stop, path := false, None, None, [];
      ghost var locks := held;
      if requested.Some? {
        var v;
        v, stop, path := LockRequeueOwner(q, requested.value, wake);
        StillListed(old(graph.View().edges), graph.View().edges, q, wake + requeue);
        match v {
          case Retry =>
            var fault := ReleaseStart(q, target, wake + requeue);
            assert !fault;
            return true, None, None, [];
          case Nack =>
            if requested.value in wake {
              assert requested.value in wake + requeue;
              assert T(requested.value) in locks;
            }
            assert TurnedDown(log[|log| - 1], locks, q, wake, requested.value);
            stop, path := None, [];
          case Accept =>
            newOwner := requested;
        }
      }
      WalkFromAccepted(graph.View().edges, q, locks, newOwner, wake, path, stop);
    }

    /** The owners that are about to go: the target's, if it changes, and then the wake queue's. */
    method LockOldOwners(q: Queue, target: Queue, list: seq<ThreadId>, newOwner: Option<ThreadId>, stop: Option<Node>,
                         ghost path: seq<Node>)
      returns (r: RequeueLocking, stops: Stops, ghost paths: Paths)
      requires Inv() && q != target && forall i, j | 0 <= i < j < |list| :: list[i] != list[j]
      requires held == RequeueLocks(q, target, list) + Nodes(path)
      requires OwnerWalk(graph.View().edges, RequeueLocks(q, target, list), newOwner, path, stop)
      requires DownClosed(graph.View().edges, held, {Q(q), Q(target)})
      modifies graph, this`held, this`log, this`contended
      ensures Inv() && Undisturbed(old(held)) && stops.coming == stop && paths.coming == path && old(log) <= log
      ensures contended == old(contended) + if r == Granted then 0 else 1
      ensures r == Repeat ==> held == {}
      ensures r == Broken ==> newOwner.Some? && graph.OwnerOf(target) == newOwner
      ensures r == Granted ==>
                && RequeueReady(graph.View().edges, held, q, target, list, newOwner, stops, paths)
                && DownClosed(graph.View().edges, held, {})
    {
      hide Exact, Linked, Healthy, Acyclic, Closed, OwnerWalk;
      ghost var locks, e := RequeueLocks(q, target, list), graph.View().edges;
      ghost var more := held;
      stops, paths := Stops(stop, None, None), Paths(path, [], []);
      assert Next(e, Q(target)) == match graph.OwnerOf(target) case None => None case Some(o) => Some(T(o));
      if graph.OwnerOf(target) != newOwner {
        var ok, old1;
        ghost var path1;
        assert {Q(q)} + {Q(target)} == {Q(q), Q(target)};
        ok, old1, path1 := LockOwnerOf(target, {Q(q)});
        StillWalked(e, graph.View().edges, locks, newOwner, path, stop);
        if !ok {
          var fault := RetreatFromOld(q, target, list, newOwner, stop, path);
          return Repeat, stops, paths;
        }
        stops, paths := Stops(stop, old1, None), Paths(path, path1, []);
      } else {
        NobodyLeaves(graph.View().edges, more, target, newOwner);
        TargetCloses(graph.View().edges, locks, newOwner, path, stop, q, target);
      }
      r, stops, paths := LockWakeOwner(q, target, list, newOwner, stops, paths);
    }

    /** The third walk, with its retreat. */
    method LockWakeOwner(q: Queue, target: Queue, list: seq<ThreadId>, newOwner: Option<ThreadId>, s: Stops,
                         ghost p: Paths)
      returns (r: RequeueLocking, stops: Stops, ghost paths: Paths)
      requires Inv() && q != target && forall i, j | 0 <= i < j < |list| :: list[i] != list[j]
      requires var locks, e := RequeueLocks(q, target, list), graph.View().edges;
               && held == locks + Nodes(p.coming) + Nodes(p.leaving)
               && OwnerWalk(e, locks, newOwner, p.coming, s.coming)
               && OwnerWalk(e, locks + Nodes(p.coming), Leaving(e, target, newOwner), p.leaving, s.leaving)
               && DownClosed(e, held, {Q(q)})
      modifies graph, this`held, this`log, this`contended
      ensures Inv() && Undisturbed(old(held)) && stops.coming == s.coming && paths.coming == p.coming
      ensures old(log) <= log
      ensures contended == old(contended) + if r == Granted then 0 else 1
      ensures r == Repeat ==> held == {}
      ensures r == Broken ==> newOwner.Some? && graph.OwnerOf(target) == newOwner
      ensures r == Granted ==>
                && RequeueReady(graph.View().edges, held, q, target, list, newOwner, stops, paths)
                && DownClosed(graph.View().edges, held, {})
    {
      hide Exact, Linked, Healthy, Acyclic, Closed, OwnerWalk;
      ghost var locks, e := RequeueLocks(q, target, list), graph.View().edges;
      var ok, stop;
      ghost var path;
      assert {} + {Q(q)} == {Q(q)};
      ok, stop, path := LockOwnerOf(q, {});
      ghost var e' := graph.View().edges;
      assert Next(e', Q(target)) == Next(e, Q(target));
      StillWalked(e, e', locks, newOwner, p.coming, s.coming);
      StillWalked(e, e', locks + Nodes(p.coming), Leaving(e, target, newOwner), p.leaving, s.leaving);
      stops, paths := s.(wake := stop), p.(wake := path);
      if ok {
        return Granted, stops, paths;
      }
      var fault := RetreatFromWake(q, target, list, newOwner, s, p);
      r := if fault then Broken else Repeat;
    }

    /** One round of BlockAndAssignOwner's retry loop, from no locks to no locks. */
    method TryBlockAndAssignOwner(q: Queue, t: ThreadId, requested: Option<ThreadId>, joins: bool) returns (done: bool)
      requires Inv() && held == {} && t == current && t in graph.threads && t !in graph.blockedIn
      requires q.Owned? && Q(q) in nodes && (requested.Some? ==> T(requested.value) in nodes)
      modifies graph, this`held, this`log, this`contended
      ensures Inv() && held == {}
      ensures contended == old(contended) + if done then 0 else 1
      ensures !done ==> t !in graph.blockedIn
      ensures done && graph.OwnerOf(q) != requested ==>
                && graph.OwnerOf(q) == None && requested.Some?
                && (requested == Some(t) || BarredSince(log, |old(log)|, q, t, requested.value))
      ensures done ==> if joins then t in graph.blockedIn && graph.blockedIn[t] == q else t !in graph.blockedIn
    {
      hide Exact, Linked, Healthy, Acyclic, Closed, Ready, SameProfiles;
      Interfere();
      held := held + {Q(q)};
      ghost var newPath, oldPath;
      var newOwner, stop;
      ghost var n := |log|;
      done, newOwner, stop, newPath, oldPath := LockForBAAOOperationLocked(q, t, requested);
      if !done {
        Release(Q(q));
        return;
      }
      if newOwner != requested && requested != Some(t) {
        StillBarred(log, n, log, |old(log)|, q, t, requested.value);
      }
      assert t in graph.threads by { StillAlive(t); }
      BlockAndAssignOwnerLocked(q, t, newOwner, stop, joins, newPath, oldPath);
      Release(T(t));
    }

    lemma StillAlive(t: ThreadId)
      requires Inv() && T(t) in nodes
      ensures t in graph.threads
    {
    }

    /** One owner goes, and with it every lock that was taken only for its sake. */
    method DropOwner(q: Queue, stop: Option<Node>, ghost rest: set<Node>, ghost path: seq<Node>)
      requires Inv() && q.Owned? && q in graph.owner && Q(q) in rest && held == rest + Nodes(path)
      requires DownClosed(graph.View().edges, rest, {Q(q)})
      requires OwnerWalk(graph.View().edges, rest, Some(graph.owner[q]), path, stop)
      modifies graph`owner, graph`threads, graph`qIpv, this`held
      ensures Inv() && held == rest && DownClosed(graph.View().edges, rest, {})
      ensures graph.owner == old(graph.owner) - {q}
      ensures SameProfiles(old(graph.View()), graph.View())
      ensures OnlyChanged(old(graph.View()), graph.View(), old(held))
    {
      hide Exact, Linked, Healthy, Acyclic, Closed, OwnerWalk, SameProfiles, OnlyChanged;
      ghost var s := graph.View();
      var o := graph.owner[q];
      assert {} + {Q(q)} == {Q(q)};
      WalkCloses(s.edges, rest, {}, q, path, stop);
      ChainHeld(s.edges, held, Q(q), ChainOf(s.edges, Q(q)));
      graph.AssignOwnerInternal(q, None);
      OnlyChangedMore(s, graph.View(), OwnerNodes(s.edges, q, None), old(held));
      StillClosed(s.edges, graph.View().edges, nodes);
      WalkKept(s.edges, graph.View().edges, rest, Some(o), path, stop, {Q(q)});
      var fault := UnlockOwnerChain(Some(o), stop, rest, path);
      assert !fault;
    }

    /** The first two steps of a requeue: q loses its owner, and target loses an owner that is to change. */
    method DetachOwners(q: Queue, target: Queue, newOwner: Option<ThreadId>, wake: seq<ThreadId>,
                        requeue: seq<ThreadId>, stops: Stops, ghost paths: Paths)
      returns (changed: bool)
      requires Inv() && q.Owned? && target.Owned? && q != target && Listed(graph.blockedIn, q, wake + requeue)
      requires RequeueReady(graph.View().edges, held, q, target, wake + requeue, newOwner, stops, paths)
      requires newOwner.Some? ==> AcceptableTarget(graph.View().edges, q, target, newOwner.value, requeue)
      modifies graph`owner, graph`threads, graph`qIpv, this`held
      ensures Inv() && changed == (old(graph.OwnerOf(target)) != newOwner)
      ensures graph.owner == (if changed then old(graph.owner) - {q} - {target} else old(graph.owner) - {q})
      ensures Avoids(graph.View().edges, Q(target), requeue)
      ensures newOwner.Some? ==>
                && Avoids(graph.View().edges, T(newOwner.value), requeue)
                && !Reaches(graph.View().edges, T(newOwner.value), Q(target))
      ensures SameProfiles(old(graph.View()), graph.View())
      ensures held == RequeueLocks(q, target, wake + requeue) + Nodes(paths.coming) && held <= old(held)
      ensures DownClosed(graph.View().edges, held, {})
      ensures OnlyChanged(old(graph.View()), graph.View(), old(held))
    {
      hide Exact, Linked, Healthy, Acyclic, Closed, OwnerWalk, SameProfiles, OnlyChanged, AcceptableTarget, Listed;
      ghost var s, h := graph.View(), held;
      ghost var more := RequeueLocks(q, target, wake + requeue) + Nodes(paths.coming);
      ReadyCloses(s.edges, held, q, target, wake + requeue, newOwner, stops, paths);
      NoWalk(s.edges, more + Nodes(paths.leaving), paths.wake, stops.wake);
      NoWalk(s.edges, more, paths.leaving, stops.leaving);
      SameProfilesRefl(s);
      OnlyChangedRefl(s, h);
      if q in graph.owner {
        DropOwner(q, stops.wake, more + Nodes(paths.leaving), paths.wake);
      }
      ghost var s1, h1 := graph.View(), held;
      assert s1.edges == WithoutOwner(s.edges, q) && h1 == more + Nodes(paths.leaving) && Next(s1.edges, Q(q)) == None;
      changed := graph.OwnerOf(target) != newOwner;
      OnlyChangedRefl(s1, h1);
      SameProfilesRefl(s1);
      if changed && target in graph.owner {
        assert Leaving(s.edges, target, newOwner) == Some(graph.owner[target]);
        WalkKept(s.edges, s1.edges, more, Some(graph.owner[target]), paths.leaving, stops.leaving, {Q(q)});
        DropOwner(target, stops.leaving, more, paths.leaving);
      }
      OnlyChangedTrans(s, h, s1, h1, graph.View(), h);
      SameProfilesTrans(s, s1, graph.View());
      DetachedChains(s.edges, s1.edges, graph.View().edges, q, target, newOwner, requeue);
    }

    /** One thread passes from its queue to the target, and its lock is released. */
    method RequeueLocked(t: ThreadId, target: Queue, ghost n: Node, ghost list: seq<ThreadId>)
      requires Inv() && t in graph.blockedIn && target.Owned? && Q(target) in nodes && T(t) in held && Q(target) in held
      requires !Reaches(graph.View().edges, Q(target), T(t)) && !Reaches(graph.View().edges, n, T(t))
      requires DownClosed(graph.View().edges, held, {}) && Unpointed(graph.View().edges, held, list) && t in list
      modifies graph`blockedIn, graph`threads, graph`qIpv, this`held
      ensures Inv() && held == old(held) - {T(t)}
      ensures graph.blockedIn == old(graph.blockedIn)[t := target]
      ensures ChainOf(graph.View().edges, n) == ChainOf(old(graph.View().edges), n)
      ensures ChainOf(graph.View().edges, Q(target)) == ChainOf(old(graph.View().edges), Q(target))
      ensures SameProfiles(old(graph.View()), graph.View())
      ensures DownClosed(graph.View().edges, held, {}) && Unpointed(graph.View().edges, held, list)
      ensures OnlyChanged(old(graph.View()), graph.View(), old(held))
    {
      hide Exact, Linked, Healthy, Acyclic, Closed, SameProfiles, OnlyChanged;
      ghost var s := graph.View();
      ChainHeld(s.edges, held, T(t), ChainOf(s.edges, T(t)));
      ChainHeld(s.edges, held, Q(target), ChainOf(s.edges, Q(target)));
      graph.RequeueOne(t, target, n);
      OnlyChangedMore(s, graph.View(), Nodes(ChainOf(s.edges, T(t))) + Nodes(ChainOf(s.edges, Q(target))), held);
      StillClosed(s.edges, graph.View().edges, nodes);
      Release(T(t));
    }

    /** The requeue loop: each listed thread leaves q and joins target; n's chain is not disturbed. */
    method RequeueThreads(q: Queue, target: Queue, list: seq<ThreadId>, ghost n: Node)
      requires Inv() && q != target && target.Owned? && Q(target) in nodes && Listed(graph.blockedIn, q, list)
      requires Avoids(graph.View().edges, Q(target), list) && Avoids(graph.View().edges, n, list)
      requires Q(target) in held && forall t :: t in list ==> T(t) in held
      requires DownClosed(graph.View().edges, held, {}) && Unpointed(graph.View().edges, held, list)
      modifies graph`blockedIn, graph`threads, graph`qIpv, this`held
      ensures Inv() && held == old(held) - set t | t in list :: T(t)
      ensures graph.blockedIn == Moved(old(graph.blockedIn), list, target)
      ensures ChainOf(graph.View().edges, n) == ChainOf(old(graph.View().edges), n)
      ensures SameProfiles(old(graph.View()), graph.View())
      ensures DownClosed(graph.View().edges, held, {})
      ensures OnlyChanged(old(graph.View()), graph.View(), old(held))
    {
      hide Exact, Linked, Healthy, Acyclic, Closed, SameProfiles, OnlyChanged, DownClosed, Unpointed;
      var i := 0;
      ghost var s, h := graph.View(), held;
      SameProfilesRefl(s);
      OnlyChangedRefl(s, h);
      while i < |list|
        invariant 0 <= i <= |list|
        invariant Inv() && held == h - set t | t in list[..i] :: T(t)
        invariant graph.blockedIn == Moved(s.edges.blockedIn, list[..i], target)
        invariant ChainOf(graph.View().edges, n) == ChainOf(s.edges, n)
        invariant ChainOf(graph.View().edges, Q(target)) == ChainOf(s.edges, Q(target))
        invariant SameProfiles(s, graph.View()) && OnlyChanged(s, graph.View(), h)
        invariant DownClosed(graph.View().edges, held, {}) && Unpointed(graph.View().edges, held, list)
      {
        assert list[i] !in list[..i] && list[i] in list;
        ghost var s1, h1 := graph.View(), held;
        RequeueLocked(list[i], target, n, list);
        SameProfilesTrans(s, s1, graph.View());
        OnlyChangedTrans(s, h, s1, h1, graph.View(), h);
        i := i + 1;
        assert list[..i] == list[..i - 1] + [list[i - 1]];
      }
      assert list[..i] == list;
    }

    /**
     The fourth step: a new owner is assigned unless nobody waits, the locks of its walk
     and the target's lock are released.  Where the target's owner stays, its chain is
     unlocked without asking whether the walk stopped at the owner itself; the assertion
     in UnlockPiChainCommon then fails.
     */
    method SettleTarget(q: Queue, target: Queue, newOwner: Option<ThreadId>, changed: bool, stop: Option<Node>,
                        ghost locks: set<Node>, ghost rest: set<Node>, ghost path: seq<Node>)
      returns (fault: bool)
      requires Inv() && target.Owned? && graph.OwnerOf(target) == if changed then None else newOwner
      requires newOwner.Some? ==>
                 && newOwner.value in graph.threads && newOwner.value !in graph.exiting
                 && (changed ==> !Reaches(graph.View().edges, T(newOwner.value), Q(target)))
                 && T(newOwner.value) in held
      requires OwnerWalk(graph.View().edges, locks, newOwner, path, stop)
      requires Q(target) in locks && Q(target) in rest && rest <= locks && held == rest + Nodes(path)
      requires DownClosed(graph.View().edges, held, {})
      modifies graph`owner, graph`threads, graph`qIpv, this`held
      ensures Inv()
      ensures fault <==> newOwner.Some? && !changed && stop == Some(T(newOwner.value))
      ensures held <= old(held) && (!fault ==> held == rest - {Q(target)})
      ensures graph.owner == OwnerSet(old(graph.owner), target,
                if !changed || HasWaiters(graph.blockedIn, target) then newOwner else None)
      ensures SameProfiles(old(graph.View()), graph.View())
      ensures OnlyChanged(old(graph.View()), graph.View(), old(held))
    {
      hide Exact, Linked, Healthy, Acyclic, Closed, OwnerWalk, SameProfiles, OnlyChanged;
      ghost var s := graph.View();
      SameProfilesRefl(s);
      OnlyChangedRefl(s, held);
      if changed && newOwner.Some? && HasWaiters(graph.blockedIn, target) {
        ChainHeld(s.edges, held, Q(target), ChainOf(s.edges, Q(target)));
        ChainHeld(s.edges, held, T(newOwner.value), ChainOf(s.edges, T(newOwner.value)));
        graph.AssignOwnerInternal(target, newOwner);
        OnlyChangedMore(s, graph.View(), OwnerNodes(s.edges, target, newOwner), held);
        StillClosed(s.edges, graph.View().edges, nodes);
      }
      WalkKept(s.edges, graph.View().edges, locks, newOwner, path, stop, {Q(target)});
      if newOwner.Some? && !changed && stop == Some(T(newOwner.value)) {
        return true;
      }
      fault := UnlockOwnerChain(newOwner, stop, locks, path);
      assert !fault && held == rest;
      Release(Q(target));
    }

    /** The first three steps: the owners that go, then the threads that move. */
    method MoveThreads(q: Queue, target: Queue, newOwner: Option<ThreadId>, wake: seq<ThreadId>,
                       requeue: seq<ThreadId>, stops: Stops, ghost paths: Paths)
      returns (changed: bool)
      requires Inv() && q.Owned? && target.Owned? && q != target && Q(target) in nodes
      requires Listed(graph.blockedIn, q, wake + requeue)
      requires RequeueReady(graph.View().edges, held, q, target, wake + requeue, newOwner, stops, paths)
      requires newOwner.Some? ==> AcceptableTarget(graph.View().edges, q, target, newOwner.value, requeue)
      modifies graph`owner, graph`blockedIn, graph`threads, graph`qIpv, this`held
      ensures Inv() && changed == (old(graph.OwnerOf(target)) != newOwner)
      ensures graph.blockedIn == Moved(old(graph.blockedIn), requeue, target)
      ensures graph.owner == (if changed then old(graph.owner) - {q} - {target} else old(graph.owner) - {q})
      ensures held == {Q(q), Q(target)} + (set t | t in wake :: T(t)) + Nodes(paths.coming) && held <= old(held)
      ensures DownClosed(graph.View().edges, held, {})
      ensures OwnerWalk(graph.View().edges, RequeueLocks(q, target, wake + requeue), newOwner,
                        paths.coming, stops.coming)
      ensures newOwner.Some? ==>
                T(newOwner.value) in held && !Reaches(graph.View().edges, T(newOwner.value), Q(target))
      ensures SameProfiles(old(graph.View()), graph.View())
      ensures OnlyChanged(old(graph.View()), graph.View(), old(held))
    {
      hide Exact, Linked, Healthy, Acyclic, Closed, OwnerWalk, Reaches, Avoids, SameProfiles, OnlyChanged, Moved;
      hide AcceptableTarget, DownClosed, Unpointed, RequeueReady;
      ghost var s, h, locks := graph.View(), held, RequeueLocks(q, target, wake + requeue);
      ListedApart(s.edges.blockedIn, q, wake, requeue);
      SplitList(s.edges.blockedIn, q, wake, requeue);
      LocksLeft(q, target, wake, requeue);
      changed := DetachOwners(q, target, newOwner, wake, requeue, stops, paths);
      ghost var s1, h1 := graph.View(), held;
      ComingWalk(s.edges, s1.edges, h, q, target, wake + requeue, newOwner, stops, paths);
      DetachedUnpointed(s1.edges, locks, q, target, wake + requeue, requeue, newOwner, paths.coming, stops.coming);
      ghost var n := if newOwner.Some? then T(newOwner.value) else Q(target);
      StartAvoids(s1.edges, n, requeue);
      RequeueThreads(q, target, requeue, n);
      SameProfilesTrans(s, s1, graph.View());
      OnlyChangedTrans(s, h, s1, h1, graph.View(), h);
      MovedKeeps(s1.edges, graph.View().edges, q, target, wake, requeue);
      WalkKept(s1.edges, graph.View().edges, locks, newOwner, paths.coming, stops.coming, locks);
      if newOwner.Some? {
        SameReach(s1.edges, graph.View().edges, n, Q(target));
      }
    }

    /** The requeue half: every step but the final wake. */
    method MoveWaiters(q: Queue, target: Queue, newOwner: Option<ThreadId>, wake: seq<ThreadId>,
                       requeue: seq<ThreadId>, stops: Stops, ghost paths: Paths)
      returns (fault: bool)
      requires Inv() && q.Owned? && target.Owned? && q != target && Q(target) in nodes
      requires Listed(graph.blockedIn, q, wake + requeue)
      requires RequeueReady(graph.View().edges, held, q, target, wake + requeue, newOwner, stops, paths)
      requires newOwner.Some? ==>
                 && newOwner.value in graph.threads && newOwner.value !in graph.exiting
                 && AcceptableTarget(graph.View().edges, q, target, newOwner.value, requeue)
      modifies graph`owner, graph`blockedIn, graph`threads, graph`qIpv, this`held
      ensures Inv()
      ensures fault <==>
              && newOwner.Some? && old(graph.OwnerOf(target)) == newOwner
              && stops.coming == Some(T(newOwner.value))
      ensures held <= old(held) && (!fault ==> held == {Q(q)} + set t | t in wake :: T(t))
      ensures graph.blockedIn == Moved(old(graph.blockedIn), requeue, target)
      ensures graph.owner == OwnerSet(old(graph.owner) - {q}, target,
                TargetOwner(graph.blockedIn, target, old(graph.OwnerOf(target)), newOwner))
      ensures SameProfiles(old(graph.View()), graph.View())
      ensures OnlyChanged(old(graph.View()), graph.View(), old(held))
    {
      hide Exact, Linked, Healthy, Acyclic, Closed, OwnerWalk, Reaches, SameProfiles, OnlyChanged, Moved;
      hide AcceptableTarget, DownClosed, RequeueReady, Listed;
      ghost var s, h, locks := graph.View(), held, RequeueLocks(q, target, wake + requeue);
      var changed := MoveThreads(q, target, newOwner, wake, requeue, stops, paths);
      ghost var s1, h1 := graph.View(), held;
      assert forall t :: t in wake ==> t in wake + requeue;
      assert newOwner.Some? ==> newOwner.value in graph.threads;
      fault := SettleTarget(q, target, newOwner, changed, stops.coming, locks,
                            {Q(q), Q(target)} + set t | t in wake :: T(t), paths.coming);
      SameProfilesTrans(s, s1, graph.View());
      OnlyChangedTrans(s, h, s1, h1, graph.View(), h);
    }

    /** One thread is woken and its lock is released. */
    method WakeLocked(t: ThreadId, q: Queue, assignOwner: bool)
      requires Inv() && q.Owned? && t in graph.blockedIn && graph.blockedIn[t] == q && q !in graph.owner
      requires assignOwner ==> t !in graph.exiting
      requires T(t) in held && Q(q) in held
      modifies graph`owner, graph`blockedIn, graph`threads, graph`qIpv, this`held
      ensures Inv() && held == old(held) - {T(t)}
      ensures graph.blockedIn == old(graph.blockedIn) - {t}
      ensures graph.owner == if assignOwner && HasWaiters(graph.blockedIn, q) then old(graph.owner)[q := t]
                             else old(graph.owner)
      ensures SameProfiles(old(graph.View()), graph.View())
      ensures OnlyChanged(old(graph.View()), graph.View(), old(held))
    {
      hide Exact, Linked, Healthy, Acyclic, Closed, SameProfiles, OnlyChanged;
      ghost var s := graph.View();
      WaiterLives(s, t);
      PathChain(s.edges, [T(t)], Q(q));
      LoneChain(s.edges, Q(q));
      graph.WakeOne(t, q, assignOwner);
      OnlyChangedMore(s, graph.View(), Nodes(ChainOf(s.edges, T(t))), held);
      StillClosed(s.edges, graph.View().edges, nodes);
      Release(T(t));
    }

    /** The last step of a requeue: WakeThreadsLocked on a queue that has lost its owner already. */
    method WakeListed(q: Queue, list: seq<ThreadId>, assignOwner: bool) returns (wakeOwner: Option<ThreadId>)
      requires Inv() && q.Owned? && Listed(graph.blockedIn, q, list) && q !in graph.owner
      requires assignOwner ==> |list| <= 1 && forall t :: t in list ==> t !in graph.exiting
      requires held == {Q(q)} + set t | t in list :: T(t)
      modifies graph`owner, graph`blockedIn, graph`threads, graph`qIpv, this`held
      ensures Inv() && held == {}
      ensures graph.blockedIn == old(graph.blockedIn) - Members(list)
      ensures wakeOwner == WakeOwner(graph.blockedIn, q, list, assignOwner)
      ensures graph.owner == OwnerSet(old(graph.owner), q, wakeOwner)
      ensures SameProfiles(old(graph.View()), graph.View())
      ensures OnlyChanged(old(graph.View()), graph.View(), old(held))
    {
      hide Exact, Linked, Healthy, Acyclic, Closed, SameProfiles, OnlyChanged;
      ghost var s, h := graph.View(), held;
      SameProfilesRefl(s);
      OnlyChangedRefl(s, h);
      var i := 0;
      while i < |list|
        invariant 0 <= i <= |list|
        invariant Inv() && held == {Q(q)} + set t | t in list[i..] :: T(t)
        invariant graph.blockedIn == s.edges.blockedIn - Members(list[..i])
        invariant graph.owner == OwnerSet(s.edges.owner, q,
                    if assignOwner && i == 1 && HasWaiters(graph.blockedIn, q) then Some(list[0]) else None)
        invariant SameProfiles(s, graph.View()) && OnlyChanged(s, graph.View(), h)
      {
        assert list[i] !in list[..i] && list[i] in list && list[i..] == [list[i]] + list[i + 1..];
        assert list[i] !in list[i + 1..];
        ghost var s1, h1 := graph.View(), held;
        WakeLocked(list[i], q, assignOwner);
        SameProfilesTrans(s, s1, graph.View());
        OnlyChangedTrans(s, h, s1, h1, graph.View(), h);
        i := i + 1;
        assert list[..i] == list[..i - 1] + [list[i - 1]];
      }
      assert list[..i] == list;
      wakeOwner := graph.OwnerOf(q);
      Release(Q(q));
    }

    /**
     WakeAndRequeueInternal: every change to the graph is made under the locks held at
     that moment, and each lock is released as soon as its node is done with.
     */
    method WakeAndRequeueInternal(q: Queue, target: Queue, newOwner: Option<ThreadId>, wake: seq<ThreadId>,
                                  requeue: seq<ThreadId>, assignOwner: bool, stops: Stops, ghost paths: Paths)
      returns (fault: bool, wakeOwner: Option<ThreadId>)
      requires Inv() && q.Owned? && target.Owned? && q != target && Q(q) in nodes && Q(target) in nodes
      requires Listed(graph.blockedIn, q, wake + requeue)
      requires assignOwner ==> |wake| <= 1 && forall t :: t in wake ==> t !in graph.exiting
      requires RequeueReady(graph.View().edges, held, q, target, wake + requeue, newOwner, stops, paths)
      requires newOwner.Some? ==>
                 && newOwner.value in graph.threads && newOwner.value !in graph.exiting
                 && AcceptableTarget(graph.View().edges, q, target, newOwner.value, requeue)
      modifies graph`owner, graph`blockedIn, graph`threads, graph`qIpv, this`held
      ensures Inv()
      ensures fault <==>
              && newOwner.Some? && old(graph.OwnerOf(target)) == newOwner
              && stops.coming == Some(T(newOwner.value))
      ensures !fault ==> held == {}
      ensures graph.blockedIn == Moved(old(graph.blockedIn), requeue, target) - (if fault then {} else Members(wake))
      ensures wakeOwner == if fault then None else WakeOwner(graph.blockedIn, q, wake, assignOwner)
      ensures graph.owner == OwnerSet(OwnerSet(old(graph.owner) - {q}, target,
                TargetOwner(graph.blockedIn, target, old(graph.OwnerOf(target)), newOwner)), q, wakeOwner)
      ensures SameProfiles(old(graph.View()), graph.View())
      ensures OnlyChanged(old(graph.View()), graph.View(), old(held))
    {
      hide Exact, Linked, Healthy, Acyclic, Closed, SameProfiles, OnlyChanged, AcceptableTarget, RequeueReady, Moved;
      ghost var s, h := graph.View(), held;
      SplitList(s.edges.blockedIn, q, wake, requeue);
      wakeOwner := None;
      fault := MoveWaiters(q, target, newOwner, wake, requeue, stops, paths);
      if fault {
        return;
      }
      ghost var s1, h1 := graph.View(), held;
      wakeOwner := WakeListed(q, wake, assignOwner);
      SameProfilesTrans(s, s1, graph.View());
      OnlyChangedTrans(s, h, s1, h1, graph.View(), h);
      OtherQueueKept(s1.edges.blockedIn, wake, q, target);
    }

    /** Locking and requeueing together: what the locks established is what the requeue needs. */
    method TryWakeAndRequeue(q: Queue, target: Queue, requested: Option<ThreadId>,
                             wake: seq<ThreadId>, requeue: seq<ThreadId>, assignOwner: bool)
      returns (r: RequeueEnd, newOwner: Option<ThreadId>)
      requires Inv() && q.Owned? && target.Owned? && q != target && Q(q) in nodes && Q(target) in nodes
      requires Listed(graph.blockedIn, q, wake + requeue) && held == RequeueLocks(q, target, wake + requeue)
      requires assignOwner ==> |wake| <= 1 && forall t :: t in wake ==> t !in graph.exiting
      requires requested.Some? ==> T(requested.value) in nodes
      modifies graph, this`held, this`log, this`contended
      ensures Inv()
      ensures contended == old(contended) + if r == Done || r == ReleaseFault then 0 else 1
      ensures r == Done || r == Again ==> held == {}
      ensures r == LockFault ==> requested.Some? && old(graph.OwnerOf(target)) == requested
      ensures r == Done || r == ReleaseFault ==>
                (r == ReleaseFault <==>
                 && requested.Some? && old(graph.OwnerOf(target)) == requested
                 && requested.value in wake && requested.value !in old(graph.exiting))
      ensures r == Done || r == ReleaseFault ==>
                && (forall t :: t in requeue ==> t in graph.blockedIn && graph.blockedIn[t] == target)
                && (forall t :: t in wake ==>
                      if r == Done then t !in graph.blockedIn else t in graph.blockedIn && graph.blockedIn[t] == q)
      ensures r == Done || r == ReleaseFault ==>
                && graph.OwnerOf(target) ==
                   TargetOwner(graph.blockedIn, target, old(graph.OwnerOf(target)), newOwner)
                && graph.OwnerOf(q) ==
                   (if r == Done then WakeOwner(graph.blockedIn, q, wake, assignOwner) else None)
      ensures (r == Done || r == ReleaseFault) && newOwner != requested ==>
                && newOwner == None && requested.Some?
                && TurnedDownSince(log, |old(log)|, old(held), q, wake, requested.value)
    {
      hide Exact, Linked, Healthy, Acyclic, Closed, SameProfiles, OnlyChanged, AcceptableTarget, DownClosed;
      hide RequeueReady, Moved, TurnedDownSince, TargetOwner, WakeOwner, OwnerSet, Listed;
      assert forall t :: t in wake ==> T(t) in held by { assert forall t :: t in wake ==> t in wake + requeue; }
      assert Next(graph.View().edges, Q(target)) ==
             match graph.OwnerOf(target) case None => None case Some(o) => Some(T(o));
      var locking, stops;
      ghost var paths;
      locking, newOwner, stops, paths := LockForRequeueOperation(q, target, requested, wake, requeue);
      assert Next(graph.View().edges, Q(target)) ==
             match graph.OwnerOf(target) case None => None case Some(o) => Some(T(o));
      match locking {
        case Repeat => return Again, newOwner;
        case Broken => return LockFault, newOwner;
        case Granted =>
      }
      RequeueOutcome(graph.blockedIn, q, target, wake, requeue);
      ghost var owner, was := graph.owner, graph.OwnerOf(target);
      var fault, wakeOwner :=
        WakeAndRequeueInternal(q, target, newOwner, wake, requeue, assignOwner, stops, paths);
      OwnersAfter(owner, graph.owner, q, target, TargetOwner(graph.blockedIn, target, was, newOwner), wakeOwner);
      r := if fault then ReleaseFault else Done;
    }
  }
}
