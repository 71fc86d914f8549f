/**
 Enumerating an address space into a user buffer whose pages may be missing: a copy
 that faults stops the walk, is repeated outside it, and the walk starts over,
 skipping what it has already handled.
 */
module VmEnumerator {

  datatype Entry = Entry(base: nat, depth: nat, info: nat)

  /** Depth-first order: by base address, and at the same base from the outside in. */
  predicate Before(a: Entry, b: Entry) {
    a.base < b.base || (a.base == b.base && a.depth < b.depth)
  }

  predicate Ordered(items: seq<Entry>) {
    forall i, j | 0 <= i < j < |items| :: Before(items[i], items[j])
  }

  /** How many entries a walk that starts at address zero and the given depth passes over at once. */
  function Leading(items: seq<Entry>, depth: nat): (n: nat)
    ensures n <= |items|
    ensures forall i | 0 <= i < n :: items[i].base == 0 && items[i].depth < depth
    ensures n < |items| ==> !(items[n].base == 0 && items[n].depth < depth)
  {
    if items != [] && items[0].base == 0 && items[0].depth < depth then 1 + Leading(items[1..], depth) else 0
  }

  /** The first writes of a walk that never faults. */
  function Written(items: seq<Entry>, first: nat, max: nat): seq<(nat, Entry)> {
    seq(Room(|items|, first, max), i requires 0 <= i < Room(|items|, first, max) => (first + i, items[i]))
  }

  /** How many of n entries the buffer has room for. */
  function Room(n: nat, first: nat, max: nat): (r: nat)
    ensures r <= n
  {
    if max <= first then 0 else if n <= max - first then n else max - first
  }

  class Enumerator {
    const max: nat
    const first: nat
    var nelem: nat
    var available: nat
    var start: nat
    var startDepth: nat
    var entry: Entry
    /** What reached the user's buffer, and at which index, in order. */
    var written: seq<(nat, Entry)>
    /** How many guarded copies have been tried. */
    var copies: nat

    constructor (max: nat, first: nat)
      ensures this.max == max && this.first == first && startDepth == 0 && written == []
    {
      this.max, this.first := max, first;
      nelem, available, start, startDepth, copies := 0, 0, 0, 0, 0;
      entry, written := Entry(0, 0, 0), [];
    }

    predicate Skips(x: Entry)
      reads this
    {
      x.base < start || (x.base == start && x.depth < startDepth)
    }

    /** Entries below p have been dealt with, and exactly those below the writes' end are in the buffer. */
    predicate Progress(items: seq<Entry>, p: nat, from: nat)
      reads this
    {
      && from <= p <= |items|
      && (forall i | 0 <= i < p :: Skips(items[i]))
      && (forall i | p <= i < |items| :: !Skips(items[i]))
      && available == first + (p - from)
      && nelem == first + Room(p - from, first, max)
      && written == Written(items[from..p], first, max)
    }

    /** DoEntry; faults says whether the guarded copy fails. */
    method DoEntry(items: seq<Entry>, i: nat, faults: bool, ghost p: nat, ghost from: nat)
      returns (goOn: bool, ghost p': nat)
      requires Ordered(items) && i < |items| && p >= i && Progress(items, p, from)
      modifies this
      ensures goOn ==> Progress(items, p', from) && p' == if i < p then p else i + 1
      ensures !goOn ==> p == i && p' == i + 1 && Stopped(items, p', from)
      ensures nelem >= old(nelem) && copies - nelem == old(copies - nelem) + if goOn then 0 else 1
      ensures copies == old(copies) || (copies == old(copies) + 1 && faults == !goOn)
      ensures !goOn ==> copies == old(copies) + 1
    {
      var x := items[i];
      if Skips(x) {
        return true, p;
      }
      assert p == i;
      start, startDepth := x.base, x.depth + 1;
      p' := i + 1;
      forall j | 0 <= j < |items| ensures j < p' <==> Skips(items[j]) {
        if j < i { assert Before(items[j], x); }
        if j > i { assert Before(x, items[j]); }
      }
      available := available + 1;
      assert items[from..p'] == items[from..i] + [x];
      if nelem >= max {
        assert Written(items[from..p'], first, max) == Written(items[from..i], first, max);
        return true, p';
      }
      entry := x;
      copies := copies + 1;
      if faults {
        return false, p';
      }
      written := written + [(nelem, entry)];
      nelem := nelem + 1;
      assert written == Written(items[from..p'], first, max);
      return true, p';
    }

    /** The walk broke off because the copy of the last entry faulted. */
    predicate Stopped(items: seq<Entry>, p: nat, from: nat)
      reads this
    {
      && from < p <= |items|
      && (forall i | 0 <= i < p :: Skips(items[i]))
      && (forall i | p <= i < |items| :: !Skips(items[i]))
      && available == first + (p - from)
      && nelem == first + (p - 1 - from) && nelem < max
      && entry == items[p - 1]
      && written == Written(items[from..p - 1], first, max)
    }

    /** One walk over the address space. */
    method EnumerateChildren(items: seq<Entry>, faults: nat -> bool, ghost p: nat, ghost from: nat)
      returns (canceled: bool, ghost p': nat)
      requires Ordered(items) && Progress(items, p, from)
      modifies this
      ensures !canceled ==> p' == |items| && Progress(items, p', from)
      ensures canceled ==> p < p' && Stopped(items, p', from)
      ensures nelem >= old(nelem) && copies - nelem == old(copies - nelem) + if canceled then 1 else 0
      ensures canceled ==> copies > old(copies) && faults(copies - 1)
      ensures forall n | old(copies) <= n < if canceled then copies - 1 else copies :: !faults(n)
    {
      p' := p;
      for i := 0 to |items|
        invariant p' >= i && p' >= p && Progress(items, p', from)
        invariant nelem >= old(nelem) && copies - nelem == old(copies - nelem) && copies >= old(copies)
        invariant forall n | old(copies) <= n < copies :: !faults(n)
      {
        var goOn;
        goOn, p' := DoEntry(items, i, faults(copies), p', from);
        if !goOn {
          return true, p';
        }
      }
      return false, p';
    }

    method Begin(items: seq<Entry>)
      requires Ordered(items)
      modifies this
      ensures nelem == first && copies == old(copies)
      ensures startDepth == old(startDepth) && Progress(items, Leading(items, startDepth), Leading(items, startDepth))
    {
      nelem, available, start := first, first, 0;
      written := [];
      LeadingExact(items, startDepth);
      ghost var from := Leading(items, startDepth);
      assert items[from..from] == [];
    }

    /** The copy that faulted, repeated outside the walk. */
    method Repeat(items: seq<Entry>, ghost p: nat, ghost from: nat)
      requires Stopped(items, p, from)
      modifies this
      ensures Progress(items, p, from) && nelem == old(nelem) + 1 && copies == old(copies)
    {
      assert items[from..p] == items[from..p - 1] + [entry];
      written := written + [(nelem, entry)];
      nelem := nelem + 1;
      assert written == Written(items[from..p], first, max);
    }

    lemma Report(items: seq<Entry>, p: nat, from: nat)
      requires p == |items| && Progress(items, p, from)
      ensures written == Written(items[from..], first, max)
      ensures available == first + |items[from..]| && nelem == first + Room(|items[from..]|, first, max)
    {
      assert items[from..p] == items[from..];
    }

    /** Of the k copies since the count stood at c, each that faulted succeeded outside the walk. */
    predicate Recovered(faults: nat -> bool, retrySucceeds: nat -> bool, c: nat, k: int) {
      forall n | c <= n < c + k && faults(n) :: retrySucceeds(first + (n - c))
    }

    lemma NoFaults(faults: nat -> bool, retrySucceeds: nat -> bool, c: nat, k: int)
      requires forall n | c <= n < c + k :: !faults(n)
      ensures Recovered(faults, retrySucceeds, c, k)
    {
    }

    lemma RecoveredOne(faults: nat -> bool, retrySucceeds: nat -> bool, c: nat, k: nat)
      requires k > 0 && Recovered(faults, retrySucceeds, c, k - 1) && retrySucceeds(first + (k - 1))
      ensures Recovered(faults, retrySucceeds, c, k)
    {
    }

    lemma RecoveredMore(faults: nat -> bool, retrySucceeds: nat -> bool, c: nat, k: nat, more: int)
      requires Recovered(faults, retrySucceeds, c, k)
      requires forall n | c + k <= n < c + more :: !faults(n)
      ensures Recovered(faults, retrySucceeds, c, more)
    {
    }

    lemma Unrecovered(faults: nat -> bool, retrySucceeds: nat -> bool, c: nat, n: nat, k: int)
      requires n < k && faults(c + n) && !retrySucceeds(first + n)
      ensures !Recovered(faults, retrySucceeds, c, k)
    {
      assert c <= c + n < c + k && first + (c + n - c) == first + n;
    }

    /**
     Enumerate: whatever copies fault, the buffer ends up as if none had, unless a
     repeated copy fails too, and the first such failure is where it stops.  The starting
     depth is not reset, so an enumerator that is used again passes over the entries at
     address zero above its old depth.
     */
    method Enumerate(items: seq<Entry>, faults: nat -> bool, retrySucceeds: nat -> bool) returns (ok: bool)
      requires Ordered(items)
      modifies this
      ensures var seen := items[Leading(items, old(startDepth))..];
        ok <==> Recovered(faults, retrySucceeds, old(copies), Room(|seen|, first, max))
      ensures ok ==>
        var seen := items[Leading(items, old(startDepth))..];
        && written == Written(seen, first, max)
        && available == first + |seen|
        && nelem == first + Room(|seen|, first, max)
      ensures !ok ==>
        var n := nelem - first;
        && 0 <= n < |items| - Leading(items, old(startDepth)) && nelem < max
        && Recovered(faults, retrySucceeds, old(copies), n)
        && faults(old(copies) + n) && !retrySucceeds(nelem)
        && written == Written(items[Leading(items, old(startDepth))..][..n], first, max)
    {
      hide Progress, Stopped, Written, Room, Recovered, Ordered, Leading;
      Begin(items);
      ghost var from := Leading(items, startDepth);
      ghost var before := copies;
      var canceled;
      ghost var p;
      canceled, p := EnumerateChildren(items, faults, from, from);
      NoFaults(faults, retrySucceeds, before, nelem - first);
      while canceled
        invariant from == Leading(items, old(startDepth))
        invariant canceled ==> Stopped(items, p, from)
        invariant !canceled ==> p == |items| && Progress(items, p, from)
        invariant nelem >= first && copies - before == nelem - first + if canceled then 1 else 0
        invariant canceled ==> faults(copies - 1)
        invariant Recovered(faults, retrySucceeds, before, nelem - first)
        decreases |items| - p, canceled
      {
        if !retrySucceeds(nelem) {
          Abandon(items, p, from);
          Unrecovered(faults, retrySucceeds, before, nelem - first, Room(|items[from..]|, first, max));
          return false;
        }
        Repeat(items, p, from);
        ghost var k := copies - before;
        RecoveredOne(faults, retrySucceeds, before, k);
        canceled, p := EnumerateChildren(items, faults, p, from);
        RecoveredMore(faults, retrySucceeds, before, k, nelem - first);
      }
      Report(items, p, from);
      return true;
    }

    lemma Abandon(items: seq<Entry>, p: nat, from: nat)
      requires from <= |items| && Stopped(items, p, from)
      ensures var n := nelem - first;
        && 0 <= n < |items| - from && nelem < max && n < Room(|items[from..]|, first, max)
        && written == Written(items[from..][..n], first, max)
    {
      assert items[from..p - 1] == items[from..][..p - 1 - from];
    }
  }

  /** In an ordered address space the entries passed over are exactly the leading ones. */
  lemma {:induction false} LeadingExact(items: seq<Entry>, depth: nat)
    requires Ordered(items)
    ensures forall i | Leading(items, depth) <= i < |items| :: !(items[i].base == 0 && items[i].depth < depth)
  {
    var n := Leading(items, depth);
    forall i | n <= i < |items| ensures !(items[i].base == 0 && items[i].depth < depth) {
      if i > n { assert Before(items[n], items[i]); }
    }
  }

  /**
   A new enumerator, which is what both callers in the repository make, reports
   everything.  One that has been used before, which nobody makes, would do so exactly
   if nothing lies that high at address zero.
   */
  lemma ReuseComplete(items: seq<Entry>, depth: nat)
    requires Ordered(items)
    ensures Leading(items, depth) == 0 <==> (items == [] || items[0].base != 0 || items[0].depth >= depth)
    ensures depth == 0 ==> Leading(items, depth) == 0
  {
  }
}
