/**
 The blocked threads of a wait queue: a tree ordered by a precomputed sort key and
 augmented with the least relative deadline of every subtree, and the search for
 the best thread to wake at a given time.
 */
module WaitQueueCollection {
  import opened Basics
  import opened Profiles

  const FAIR_THREAD_SORT_KEY_BIT: nat := 0x8000_0000_0000_0000

  /** addr is the thread's address, the tie-breaker of every order below. */
  datatype Waiter =
    | FairWaiter(addr: nat, virtualFinish: nat)
    | DeadlineWaiter(addr: nat, finish: nat, relativeDeadline: int)

  /** Times are non-negative signed 64-bit numbers and no thread lives at address zero. */
  predicate Sane(w: Waiter) {
    w.addr > 0 && (if w.FairWaiter? then w.virtualFinish else w.finish) < FAIR_THREAD_SORT_KEY_BIT
  }

  /** The key Insert computes: setting the top bit puts every fair thread behind every deadline thread. */
  function SortKey(w: Waiter): nat {
    match w
    case FairWaiter(_, f) => f + FAIR_THREAD_SORT_KEY_BIT
    case DeadlineWaiter(_, f, _) => f
  }

  predicate IsFairThreadSortBitSet(w: Waiter) {
    SortKey(w) >= FAIR_THREAD_SORT_KEY_BIT
  }

  /** Keys are pairs of sort key and address. */
  predicate KeyLess(a: Waiter, b: Waiter) {
    SortKey(a) < SortKey(b) || (SortKey(a) == SortKey(b) && a.addr < b.addr)
  }

  /** The keys put any two threads in one order, and every deadline thread before every fair one. */
  lemma KeysDecide(a: Waiter, b: Waiter)
    requires Sane(a) && Sane(b) && a.addr != b.addr
    ensures KeyLess(a, b) != KeyLess(b, a)
    ensures a.DeadlineWaiter? && b.FairWaiter? ==> KeyLess(a, b)
    ensures a.DeadlineWaiter? && b.DeadlineWaiter? && a.finish < b.finish ==> KeyLess(a, b)
    ensures a.FairWaiter? && b.FairWaiter? && a.virtualFinish < b.virtualFinish ==> KeyLess(a, b)
  {
  }

  /** MinRelativeDeadlineTraits::Compare, on threads that may be missing. */
  predicate ShorterDeadline(a: Option<Waiter>, b: Option<Waiter>) {
    match (a, b)
    case (Some(DeadlineWaiter(p, _, d)), Some(DeadlineWaiter(q, _, e))) => d < e || (d == e && p < q)
    case (Some(DeadlineWaiter(_, _, _)), _) => true
    case _ => false
  }

  function Shorter(a: Option<Waiter>, b: Option<Waiter>): Option<Waiter> {
    if ShorterDeadline(a, b) then a else b
  }

  datatype Tree = Leaf | Node(left: Tree, waiter: Waiter, best: Option<Waiter>, right: Tree)

  predicate In(t: Tree, w: Waiter) {
    t.Node? && (t.waiter == w || In(t.left, w) || In(t.right, w))
  }

  function StoredBest(t: Tree): Option<Waiter> {
    if t.Node? then t.best else None
  }

  /** What the tree observer keeps in subtree_min_rel_deadline_thread_. */
  function SubtreeBest(t: Tree): Option<Waiter>
    requires t.Node?
  {
    var own := if t.waiter.FairWaiter? then None else Some(t.waiter);
    Shorter(StoredBest(t.left), Shorter(StoredBest(t.right), own))
  }

  /** Ordered by key, augmented, and no thread in two places. */
  ghost predicate Valid(t: Tree) {
    t.Node? ==>
      && Valid(t.left) && Valid(t.right) && Sane(t.waiter)
      && (forall w :: In(t.left, w) ==> KeyLess(w, t.waiter) && w.addr != t.waiter.addr)
      && (forall w :: In(t.right, w) ==> KeyLess(t.waiter, w) && w.addr != t.waiter.addr)
      && (forall v, w :: In(t.left, v) && In(t.right, w) ==> v.addr != w.addr)
      && t.best == SubtreeBest(t)
  }

  lemma {:induction false} AllSane(t: Tree, w: Waiter)
    requires Valid(t) && In(t, w)
    ensures Sane(w)
  {
    if In(t.left, w) { AllSane(t.left, w); }
    if In(t.right, w) { AllSane(t.right, w); }
  }

  /** b is the deadline thread of s with the least relative deadline, or missing if there is none. */
  ghost predicate IsBest(b: Option<Waiter>, s: set<Waiter>) {
    match b
    case None => forall w :: w in s ==> w.FairWaiter?
    case Some(v) =>
      && v in s && v.DeadlineWaiter?
      && forall w :: w in s && w.DeadlineWaiter? ==> w == v || ShorterDeadline(b, Some(w))
  }

  lemma ShorterOfTwo(a: Option<Waiter>, s: set<Waiter>, b: Option<Waiter>, s': set<Waiter>)
    requires IsBest(a, s) && IsBest(b, s') && forall v, w :: v in s && w in s' ==> v.addr != w.addr
    ensures IsBest(Shorter(a, b), s + s')
  {
  }

  function Elements(t: Tree): (s: set<Waiter>)
    ensures forall w :: w in s <==> In(t, w)
  {
    if t.Leaf? then {} else Elements(t.left) + (Elements(t.right) + {t.waiter})
  }

  /** The stored best is the deadline thread with the least relative deadline, if there is one. */
  lemma {:induction false} BestIsBest(t: Tree)
    requires Valid(t)
    ensures IsBest(StoredBest(t), Elements(t))
  {
    if t.Node? {
      BestIsBest(t.left);
      BestIsBest(t.right);
      var own := if t.waiter.FairWaiter? then None else Some(t.waiter);
      assert IsBest(own, {t.waiter});
      hide IsBest, Shorter;
      ShorterOfTwo(StoredBest(t.right), Elements(t.right), own, {t.waiter});
      ShorterOfTwo(StoredBest(t.left), Elements(t.left),
                   Shorter(StoredBest(t.right), own), Elements(t.right) + {t.waiter});
    }
  }

  function Front(t: Tree): Waiter
    requires t.Node?
  {
    if t.left.Node? then Front(t.left) else t.waiter
  }

  lemma {:induction false} FrontIsLeast(t: Tree)
    requires Valid(t) && t.Node?
    ensures In(t, Front(t)) && forall w :: In(t, w) ==> w == Front(t) || KeyLess(Front(t), w)
  {
    if t.left.Node? { FrontIsLeast(t.left); }
  }

  /** The tree's upper_bound({now, 0}): the least key above the pair (now, 0). */
  method UpperBound(root: Tree, now: nat) returns (r: Option<Waiter>)
    requires Valid(root)
    ensures r.None? <==> forall w :: In(root, w) ==> SortKey(w) < now
    ensures r.Some? ==> In(root, r.value) && SortKey(r.value) >= now
    ensures r.Some? ==> forall w :: In(root, w) && SortKey(w) >= now ==> w == r.value || KeyLess(r.value, w)
  {
    var node := root;
    r := None;
    while node.Node?
      invariant Valid(node) && forall w :: In(node, w) ==> In(root, w)
      invariant r.Some? ==>
                  In(root, r.value) && SortKey(r.value) >= now && forall w :: In(node, w) ==> KeyLess(w, r.value)
      invariant forall w :: In(root, w) && SortKey(w) >= now ==>
                  In(node, w) || (r.Some? && (w == r.value || KeyLess(r.value, w)))
      decreases node
    {
      var key := SortKey(node.waiter);
      // The key exceeds (now, 0) exactly if its first part is not below now: addresses are never zero.
      if key > now || (key == now && node.waiter.addr > 0) {
        r := Some(node.waiter);
        node := node.left;
      } else {
        node := node.right;
      }
    }
  }

  // ---------- the documented wake order ----------

  /** Deadline threads that can still make it, then expired ones, then fair threads. */
  function Class(w: Waiter, now: nat): nat {
    if w.FairWaiter? then 2 else if w.finish >= now then 0 else 1
  }

  function Rank(w: Waiter, now: nat): int {
    match Class(w, now)
    case 0 => SortKey(w)
    case 1 => if w.DeadlineWaiter? then w.relativeDeadline else 0
    case _ => SortKey(w)
  }

  /** a is to be woken before b: by class, then by the class's own measure, then by address. */
  predicate Before(a: Waiter, b: Waiter, now: nat) {
    || Class(a, now) < Class(b, now)
    || (Class(a, now) == Class(b, now)
        && (Rank(a, now) < Rank(b, now) || (Rank(a, now) == Rank(b, now) && a.addr < b.addr)))
  }

  /** Peek returns the first thread of that order, for every tree and every time. */
  method Peek(root: Tree, now: nat) returns (r: Option<Waiter>)
    requires Valid(root) && now < FAIR_THREAD_SORT_KEY_BIT
    ensures r.None? <==> root.Leaf?
    ensures r.Some? ==> In(root, r.value) && forall w :: In(root, w) ==> w == r.value || Before(r.value, w, now)
  {
    if root.Leaf? {
      return None;
    }
    var front := Front(root);
    FrontIsLeast(root);
    forall w | In(root, w) ensures Sane(w) { AllSane(root, w); }
    if IsFairThreadSortBitSet(front) {
      return Some(front);
    }
    if SortKey(front) > now {
      return Some(front);
    }
    var bound := UpperBound(root, now);
    if bound.Some? && !IsFairThreadSortBitSet(bound.value) {
      return bound;
    }
    BestIsBest(root);
    assert front in Elements(root) && forall w :: In(root, w) ==> w in Elements(root);
    return root.best;
  }

  /** MinInheritableRelativeDeadline: one look at the root finds the least relative deadline of all. */
  method MinInheritableRelativeDeadline(root: Tree) returns (d: int)
    requires Valid(root)
    ensures (forall w :: In(root, w) ==> w.FairWaiter?) ==> d == MAX_DURATION
    ensures forall w :: In(root, w) && w.DeadlineWaiter? ==> d <= w.relativeDeadline
    ensures (exists w :: In(root, w) && w.DeadlineWaiter?) ==>
              exists w :: In(root, w) && w.DeadlineWaiter? && w.relativeDeadline == d
  {
    BestIsBest(root);
    assert forall w :: In(root, w) ==> w in Elements(root);
    if root.Leaf? || root.best.None? {
      return MAX_DURATION;
    }
    assert In(root, root.best.value);
    return root.best.value.relativeDeadline;
  }
}
