/** Channel calls: transaction ids, the list of threads waiting for replies, and the ways a wait ends. */
module Channel {
  import opened Basics
  import opened Arithmetic

  const TWO31: nat := 0x8000_0000
  const TWO32: nat := 0x1_0000_0000

  type WaiterId = nat

  datatype Message = Message(txid: nat, body: nat)

  datatype Status = TimedOut | Replied | Canceled | PeerClosed | BadState

  /** A MessageWaiter: waiting while it is attached to a channel. */
  datatype Call = Call(txid: nat, status: Status, waiting: bool, reply: Option<Message>)

  /** The j-th transaction id generated after the counter stood at c. */
  function Generated(c: nat, j: nat): nat {
    TWO31 + (c + j) % TWO32 % TWO31
  }

  lemma GeneratedDistinct(c: nat, i: nat, j: nat)
    requires i < j < i + TWO31
    ensures Generated(c, i) != Generated(c, j)
  {
    var a, b := (c + i) / TWO31, (c + j) / TWO31;
    WrapTwice(c + i);
    WrapTwice(c + j);
    assert c + i == TWO31 * a + (c + i) % TWO31 && c + j == TWO31 * b + (c + j) % TWO31;
    if (c + i) % TWO31 == (c + j) % TWO31 && a != b {
      Distribute(TWO31, b, a);
      BigMultiple(TWO31, b - a);
    }
  }

  lemma WrapTwice(x: nat)
    ensures x % TWO32 % TWO31 == x % TWO31
  {
    var q := x / TWO32;
    DivModUnique(x, TWO31, 2 * q + x % TWO32 / TWO31, x % TWO32 % TWO31);
  }

  predicate Distinct(l: seq<WaiterId>) {
    forall i, j | 0 <= i < j < |l| :: l[i] != l[j]
  }

  function Without(l: seq<WaiterId>, k: nat): seq<WaiterId>
    requires k < |l|
  {
    l[..k] + l[k + 1..]
  }

  lemma WithoutMembers(l: seq<WaiterId>, k: nat)
    requires k < |l| && Distinct(l)
    ensures Distinct(Without(l, k)) && forall w :: w in Without(l, k) <==> w in l && w != l[k]
  {
    assert l == l[..k] + [l[k]] + l[k + 1..];
  }

  lemma {:induction false} ImageBound(l: seq<WaiterId>, calls: map<WaiterId, Call>, s: set<nat>)
    requires forall w :: w in l ==> w in calls
    requires forall x :: x in s ==> exists w :: w in l && calls[w].txid == x
    ensures |s| <= |l|
    decreases |l|
  {
    if l == [] {
      assert s == {};
    } else {
      var last, rest := l[|l| - 1], l[..|l| - 1];
      assert l == rest + [last] && last in l;
      ImageBound(rest, calls, s - {calls[last].txid});
    }
  }

  /** k ids generated in a row are k different ids. */
  lemma {:induction false} Pigeonhole(c: nat, k: nat, s: set<nat>)
    requires k <= TWO31 && forall j | 1 <= j <= k :: Generated(c, j) in s
    ensures k <= |s|
    decreases k
  {
    if k > 0 {
      forall j | 1 <= j <= k - 1 ensures Generated(c, j) in s - {Generated(c, k)} {
        GeneratedDistinct(c, j, k);
      }
      Pigeonhole(c, k - 1, s - {Generated(c, k)});
    }
  }

  // ---------- the bookkeeping as values ----------

  predicate Listed(c: Call) {
    c.waiting && c.status == TimedOut && c.reply == None && TWO31 <= c.txid < TWO32
  }

  /** The list holds the calls that wait and have no ending yet, under different ids. */
  ghost predicate Queued(l: seq<WaiterId>, calls: map<WaiterId, Call>) {
    && Distinct(l)
    && (forall w :: w in l ==> w in calls && Listed(calls[w]))
    && (forall v, w :: v in l && w in l && v != w ==> calls[v].txid != calls[w].txid)
    && (forall w :: w in calls && calls[w].waiting && calls[w].status == TimedOut ==> w in l)
  }

  /** A call that waits has a reply exactly if it was replied to, and the reply is its own. */
  predicate Truthful(c: Call) {
    && c.status != BadState
    && (c.status == Replied <==> c.reply.Some?)
    && (c.reply.Some? ==> c.reply.value.txid == c.txid)
  }

  /** Every call that waits has had one ending, or none while it is queued. */
  ghost predicate Accounted(l: seq<WaiterId>, calls: map<WaiterId, Call>, endings: map<WaiterId, nat>) {
    forall w :: w in calls && calls[w].waiting ==>
      Truthful(calls[w]) && w in endings && endings[w] == if w in l then 0 else 1
  }

  ghost predicate Orderly(l: seq<WaiterId>, calls: map<WaiterId, Call>, endings: map<WaiterId, nat>) {
    Queued(l, calls) && Accounted(l, calls, endings)
  }

  lemma QueuedCall(l: seq<WaiterId>, calls: map<WaiterId, Call>, endings: map<WaiterId, nat>, w: WaiterId)
    requires Orderly(l, calls, endings)
    ensures w in l ==> w in calls && Listed(calls[w]) && w in endings && endings[w] == 0
    ensures w in calls && calls[w].waiting ==> Truthful(calls[w]) && (calls[w].status == TimedOut <==> w in l)
    ensures w in calls && calls[w].waiting && w !in l ==> w in endings && endings[w] == 1
  {
  }

  lemma QueueGrows(l: seq<WaiterId>, calls: map<WaiterId, Call>, endings: map<WaiterId, nat>, w: WaiterId, txid: nat)
    requires Orderly(l, calls, endings) && !(w in calls && calls[w].waiting) && TWO31 <= txid < TWO32
    requires forall v :: v in l ==> v in calls && calls[v].txid != txid
    ensures Orderly(l + [w], calls[w := Call(txid, TimedOut, true, None)], endings[w := 0])
  {
    assert w !in l;
  }

  /** A queued call gets its ending and leaves the list. */
  lemma EndingKeeps(l: seq<WaiterId>, calls: map<WaiterId, Call>, endings: map<WaiterId, nat>, k: nat, c: Call)
    requires Orderly(l, calls, endings) && k < |l| && l[k] in endings && endings[l[k]] == 0
    requires c.status != TimedOut || !c.waiting
    requires c.waiting ==> Truthful(c)
    ensures Orderly(Without(l, k), calls[l[k] := c], endings[l[k] := 1])
  {
    WithoutMembers(l, k);
    hide Without, Distinct, Truthful;
  }

  lemma ClosedKeeps(l: seq<WaiterId>, calls: map<WaiterId, Call>, endings: map<WaiterId, nat>, w: WaiterId, c: Call)
    requires Orderly(l, calls, endings) && w !in l && !c.waiting
    ensures Orderly(l, calls[w := c], endings)
  {
  }

  /** The id is the first one after the old counter that is not in use, and the counter stops there. */
  ghost predicate FirstFree(before: nat, after: nat, txid: nat, used: set<nat>) {
    exists k: nat :: IsFirstFree(before, after, txid, used, k)
  }

  predicate IsFirstFree(before: nat, after: nat, txid: nat, used: set<nat>, k: nat) {
    && k > 0 && after == Counted(before, k) && txid == Generated(before, k) && txid !in used
    && forall j | 1 <= j < k :: Generated(before, j) in used
  }

  class Endpoint {
    var waiters: seq<WaiterId>
    var calls: map<WaiterId, Call>
    var counter: nat
    /** How many endings each call has had since it was queued. */
    ghost var endings: map<WaiterId, nat>

    ghost predicate Valid()
      reads this
    {
      counter < TWO32 && Orderly(waiters, calls, endings)
    }

    /** The allocation loop of Call: it ends because the waiters cannot use up every id. */
    method AllocateTxid() returns (txid: nat)
      requires Valid() && |waiters| < TWO31
      modifies this`counter
      ensures Valid() && TWO31 <= txid < TWO32
      ensures forall w :: w in waiters ==> w in calls && calls[w].txid != txid
      ensures FirstFree(old(counter), counter, txid, Used())
    {
      ghost var c, used := counter, Used();
      ghost var k := 0;
      UsedCount();
      NextId(c, 0);
      assert forall w :: w in waiters ==> w in calls && calls[w].txid in used;
      assert forall x :: x in used ==> exists w :: w in waiters && calls[w].txid == x;
      hide Orderly, Used, Generated, Counted;
      while true
        invariant counter < TWO32 && 0 <= k <= |used| <= |waiters|
        invariant counter == Counted(c, k)
        invariant forall j | 1 <= j <= k :: Generated(c, j) in used
        decreases |used| - k
      {
        counter := (counter + 1) % TWO32;
        k := k + 1;
        NextId(c, k);
        txid := TWO31 + counter % TWO31;
        if forall w :: w in waiters ==> calls[w].txid != txid {
          assert IsFirstFree(c, counter, txid, used, k);
          return;
        }
        Pigeonhole(c, k, used);
      }
    }

    /** The transaction ids that must not be handed out again yet. */
    ghost function Used(): set<nat>
      requires Valid()
      reads this
    {
      set w | w in waiters :: calls[w].txid
    }

    lemma UsedCount()
      requires Valid()
      ensures |Used()| <= |waiters|
    {
      ImageBound(waiters, calls, Used());
    }

    /** Call, up to the point where the waiter is queued and the message is on its way. */
    method BeginCall(w: WaiterId, peerOpen: bool) returns (r: Option<nat>, error: Status)
      requires Valid() && |waiters| < TWO31
      modifies this
      ensures Valid()
      ensures r.Some? <==> peerOpen && !(w in old(calls) && old(calls)[w].waiting)
      ensures r.Some? ==>
                && waiters == old(waiters) + [w]
                && calls == old(calls)[w := Call(r.value, TimedOut, true, None)]
                && endings == old(endings)[w := 0]
                && FirstFree(old(counter), counter, r.value, old(Used()))
                && forall v :: v in old(waiters) ==> v in old(calls) && old(calls)[v].txid != r.value
      ensures r.None? ==>
                && waiters == old(waiters) && endings == old(endings) && counter == old(counter)
                && calls == if error == BadState then old(calls) else old(calls)[w := Call(0, TimedOut, false, None)]
      ensures r.None? ==> error == if w in old(calls) && old(calls)[w].waiting then BadState else PeerClosed
    {
      hide Orderly;
      if w in calls && calls[w].waiting {
        return None, BadState;
      }
      QueuedCall(waiters, calls, endings, w);
      if !peerOpen {
        ClosedKeeps(waiters, calls, endings, w, Call(0, TimedOut, false, None));
        calls := calls[w := Call(0, TimedOut, false, None)];
        return None, PeerClosed;
      }
      var txid := AllocateTxid();
      QueueGrows(waiters, calls, endings, w, txid);
      calls := calls[w := Call(txid, TimedOut, true, None)];
      waiters := waiters + [w];
      endings := endings[w := 0];
      return Some(txid), BadState;
    }

    /** TryWriteToMessageWaiter: a reply goes to the one waiter with its id, and to nobody else. */
    method TryWriteToMessageWaiter(m: Message) returns (delivered: bool)
      requires Valid()
      modifies this`waiters, this`calls, this`endings
      ensures Valid()
      ensures delivered <==>
              exists w :: w in old(waiters) && w in old(calls) && old(calls)[w].txid == m.txid
      ensures !delivered ==> waiters == old(waiters) && calls == old(calls) && endings == old(endings)
      ensures delivered ==> exists k :: Delivered(old(waiters), old(calls), k, m, waiters, calls)
      ensures forall w :: w in old(endings) && w !in old(waiters) ==> w in endings && endings[w] == old(endings)[w]
    {
      forall w | w in waiters ensures w in calls && Listed(calls[w]) && w in endings && endings[w] == 0 {
        QueuedCall(waiters, calls, endings, w);
      }
      hide Orderly;
      if m.txid < TWO31 {
        return false;
      }
      for k := 0 to |waiters|
        invariant forall i | 0 <= i < k :: waiters[i] in calls && calls[waiters[i]].txid != m.txid
      {
        var w := waiters[k];
        assert w in waiters;
        if calls[w].txid == m.txid {
          EndingKeeps(waiters, calls, endings, k, calls[w].(status := Replied, reply := Some(m)));
          waiters := Without(waiters, k);
          calls := calls[w := calls[w].(status := Replied, reply := Some(m))];
          endings := endings[w := 1];
          assert Delivered(old(waiters), old(calls), k, m, waiters, calls);
          return true;
        }
      }
      return false;
    }

    /** CancelMessageWaitersLocked: every queued waiter, and nobody else, ends with the given status. */
    method CancelMessageWaiters(status: Status)
      requires Valid() && (status == Canceled || status == PeerClosed)
      modifies this`waiters, this`calls, this`endings
      ensures Valid() && waiters == [] && calls.Keys == old(calls.Keys)
      ensures forall w :: w in calls ==>
                calls[w] == if w in old(waiters) then old(calls)[w].(status := status) else old(calls)[w]
      ensures forall w :: w in old(endings) && w !in old(waiters) ==> w in endings && endings[w] == old(endings)[w]
    {
      hide Orderly;
      while waiters != []
        invariant Valid() && calls.Keys == old(calls.Keys)
        invariant forall w :: w in waiters ==> w in old(waiters)
        invariant forall w :: w in calls ==>
                    calls[w] == if w in old(waiters) && w !in waiters then old(calls)[w].(status := status)
                                else old(calls)[w]
        invariant forall w :: w in old(endings) && w !in old(waiters) ==> w in endings && endings[w] == old(endings)[w]
        decreases |waiters|
      {
        var w := waiters[0];
        assert w in waiters;
        QueuedCall(waiters, calls, endings, w);
        EndingKeeps(waiters, calls, endings, 0, calls[w].(status := status));
        FirstGone(waiters, calls, endings);
        waiters := waiters[1..];
        calls := calls[w := calls[w].(status := status)];
        endings := endings[w := 1];
      }
    }

    /**
     The end of ResumeInterruptedCall: a queued call has exactly one ending.  It is a
     timeout if the waiter is still queued, a reply if and only if it brings a message
     with the call's own id, or else a cancellation or a closed peer.
     */
    method EndCall(w: WaiterId) returns (status: Status, reply: Option<Message>)
      requires Valid()
      modifies this`waiters, this`calls, this`endings
      ensures Valid()
      ensures !(w in old(calls) && old(calls)[w].waiting) ==>
                status == BadState && waiters == old(waiters) && calls == old(calls) && endings == old(endings)
      ensures w in old(calls) && old(calls)[w].waiting ==>
                && status == old(calls)[w].status && reply == old(calls)[w].reply
                && status != BadState && (status == TimedOut <==> w in old(waiters))
                && (status == Replied <==> reply.Some?)
                && (reply.Some? ==> reply.value.txid == old(calls)[w].txid)
                && w in endings && endings[w] == 1
                && calls == old(calls)[w := old(calls)[w].(waiting := false, reply := None)]
      ensures forall v :: v in waiters <==> v in old(waiters) && v != w
    {
      QueuedCall(waiters, calls, endings, w);
      assert Distinct(waiters);
      hide Orderly, Distinct;
      if !(w in calls && calls[w].waiting) {
        return BadState, None;
      }
      status, reply := calls[w].status, calls[w].reply;
      var closed := calls[w].(waiting := false, reply := None);
      if status == TimedOut {
        var k :| 0 <= k < |waiters| && waiters[k] == w;
        EndingKeeps(waiters, calls, endings, k, closed);
        WithoutMembers(waiters, k);
        waiters := Without(waiters, k);
        endings := endings[w := 1];
      } else {
        ClosedKeeps(waiters, calls, endings, w, closed);
      }
      calls := calls[w := closed];
    }
  }

  lemma FirstGone(l: seq<WaiterId>, calls: map<WaiterId, Call>, endings: map<WaiterId, nat>)
    requires Orderly(l, calls, endings) && l != []
    ensures l[1..] == Without(l, 0) && l[0] !in l[1..] && forall w :: w in l <==> w == l[0] || w in l[1..]
  {
    WithoutMembers(l, 0);
    assert l[1..] == Without(l, 0);
  }

  /** The k-th waiter left the list with m, and nothing else changed. */
  predicate Delivered(l: seq<WaiterId>, calls: map<WaiterId, Call>, k: int, m: Message,
                      l': seq<WaiterId>, calls': map<WaiterId, Call>) {
    && 0 <= k < |l| && l[k] in calls && calls[l[k]].txid == m.txid
    && l' == Without(l, k)
    && calls' == calls[l[k] := calls[l[k]].(status := Replied, reply := Some(m))]
  }

  /** The counter after k more ids. */
  function Counted(c: nat, k: nat): nat {
    (c + k) % TWO32
  }

  lemma NextId(c: nat, k: nat)
    ensures TWO31 + Counted(c, k) % TWO31 == Generated(c, k)
    ensures k > 0 ==> (Counted(c, k - 1) + 1) % TWO32 == Counted(c, k)
    ensures k == 0 && c < TWO32 ==> Counted(c, k) == c
  {
    if k > 0 { StepWraps(c, k); }
  }

  lemma StepWraps(c: nat, k: nat)
    requires k > 0
    ensures ((c + k - 1) % TWO32 + 1) % TWO32 == (c + k) % TWO32
  {
    var q := (c + k - 1) / TWO32;
    var r := (c + k - 1) % TWO32;
    if r + 1 < TWO32 {
      DivModUnique(c + k, TWO32, q, r + 1);
    } else {
      DivModUnique(c + k, TWO32, q + 1, 0);
    }
  }
}
