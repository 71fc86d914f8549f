/**
 The priority-inheritance graph: threads point at the wait queue they are blocked
 in, owned wait queues point at their owner.  Every node has at most one
 downstream neighbour, so following the edges from a node yields its chain.
 */
module PiGraph {
  import opened Basics

  /** A plain wait queue can hold blocked threads but never has an owner. */
  datatype Queue = Owned(id: nat) | Plain(id: nat)

  datatype Node = T(thread: ThreadId) | Q(queue: Queue)

  datatype Edges = Edges(blockedIn: map<ThreadId, Queue>, owner: map<Queue, ThreadId>)

  function Next(e: Edges, n: Node): Option<Node> {
    match n
    case T(t) => if t in e.blockedIn then Some(Q(e.blockedIn[t])) else None
    case Q(q) => if q in e.owner then Some(T(e.owner[q])) else None
  }

  /** c follows the edges from n to the end of the graph. */
  ghost predicate IsChain(e: Edges, n: Node, c: seq<Node>) {
    && |c| > 0
    && c[0] == n
    && (forall i | 0 <= i < |c| - 1 :: Next(e, c[i]) == Some(c[i + 1]))
    && Next(e, c[|c| - 1]) == None
  }

  ghost predicate HasChain(e: Edges, n: Node) {
    exists c :: IsChain(e, n, c)
  }

  /** No cycles: from every node the edges run out after finitely many steps. */
  ghost predicate Acyclic(e: Edges) {
    forall n: Node :: HasChain(e, n)
  }

  ghost function ChainOf(e: Edges, n: Node): (c: seq<Node>)
    requires Acyclic(e)
    ensures IsChain(e, n, c)
  {
    assert HasChain(e, n);
    var c :| IsChain(e, n, c);
    c
  }

  function Nodes(p: seq<Node>): set<Node> {
    set n | n in p
  }

  lemma ChainTail(e: Edges, c: seq<Node>, i: nat)
    requires |c| > 0 && IsChain(e, c[0], c) && i < |c|
    ensures IsChain(e, c[i], c[i..])
  {
  }

  lemma ChainStep(e: Edges, c: seq<Node>, i: nat)
    requires |c| > 0 && IsChain(e, c[0], c) && i < |c|
    ensures Next(e, c[i]) == if i < |c| - 1 then Some(c[i + 1]) else None
  {
  }

  lemma {:induction false} ChainUnique(e: Edges, n: Node, c: seq<Node>, d: seq<Node>)
    requires IsChain(e, n, c) && IsChain(e, n, d)
    ensures c == d
    decreases |c|
  {
    if |c| > 1 {
      assert Next(e, c[0]) == Some(c[1]);
      assert |d| > 1 && d[1] == c[1];
      ChainTail(e, c, 1);
      ChainTail(e, d, 1);
      ChainUnique(e, c[1], c[1..], d[1..]);
      assert c == [c[0]] + c[1..] && d == [d[0]] + d[1..];
    } else {
      ChainStep(e, d, 0);
    }
  }

  lemma ChainDistinct(e: Edges, n: Node, c: seq<Node>)
    requires IsChain(e, n, c)
    ensures forall i, j | 0 <= i < j < |c| :: c[i] != c[j]
  {
    forall i, j | 0 <= i < j < |c| ensures c[i] != c[j] {
      if c[i] == c[j] {
        ChainTail(e, c, i);
        ChainTail(e, c, j);
        assert |c[i..]| == |c| - i && |c[j..]| == |c| - j;
        ChainUnique(e, c[i], c[i..], c[j..]);
        assert false;
      }
    }
  }

  ghost predicate SameExcept(e: Edges, e': Edges, a: Node) {
    forall n: Node :: n != a ==> Next(e', n) == Next(e, n)
  }

  /** Reached: m lies on the chain of n. */
  ghost predicate Reaches(e: Edges, n: Node, m: Node)
    requires Acyclic(e)
  {
    m in ChainOf(e, n)
  }

  /** Whoever reaches a node reaches its downstream neighbour. */
  lemma ReachesOn(e: Edges, m: Node, u: Node, x: Node)
    requires Acyclic(e) && Reaches(e, m, u) && Next(e, u) == Some(x)
    ensures Reaches(e, m, x)
  {
    var c := ChainOf(e, m);
    var i :| 0 <= i < |c| && c[i] == u;
    ChainStep(e, c, i);
  }

  /** Adding an edge a -> b keeps the graph acyclic when b's chain avoids a. */
  lemma AddEdgeAcyclic(e: Edges, e': Edges, a: Node, b: Node)
    requires Acyclic(e) && SameExcept(e, e', a)
    requires Next(e, a) == None && Next(e', a) == Some(b)
    requires !Reaches(e, b, a)
    ensures Acyclic(e')
    ensures forall n: Node :: !Reaches(e, n, a) ==> ChainOf(e', n) == ChainOf(e, n)
  {
    var d := ChainOf(e, b);
    assert IsChain(e', b, d);
    forall n: Node ensures HasChain(e', n) {
      var c := ChainOf(e, n);
      if a in c {
        var i :| 0 <= i < |c| && c[i] == a;
        ChainStep(e, c, i);
        assert forall k | 0 <= k < i :: c[k] != a by { ChainDistinct(e, n, c); }
        assert IsChain(e', n, c + d);
      } else {
        assert IsChain(e', n, c);
      }
    }
    forall n: Node | !Reaches(e, n, a) ensures ChainOf(e', n) == ChainOf(e, n) {
      assert IsChain(e', n, ChainOf(e, n));
      ChainUnique(e', n, ChainOf(e', n), ChainOf(e, n));
    }
  }

  /** Removing an edge never creates a cycle and only shortens chains. */
  lemma RemoveEdgeAcyclic(e: Edges, e': Edges, a: Node)
    requires Acyclic(e) && SameExcept(e, e', a) && Next(e', a) == None
    ensures Acyclic(e')
    ensures forall n: Node :: ChainOf(e', n) <= ChainOf(e, n)
    ensures forall n: Node :: !Reaches(e, n, a) ==> ChainOf(e', n) == ChainOf(e, n)
  {
    forall n: Node
      ensures HasChain(e', n)
      ensures exists d :: IsChain(e', n, d) && d <= ChainOf(e, n) && (a !in ChainOf(e, n) ==> d == ChainOf(e, n))
    {
      var c := ChainOf(e, n);
      if a in c {
        var i :| 0 <= i < |c| && c[i] == a;
        ChainDistinct(e, n, c);
        assert IsChain(e', n, c[..i + 1]);
      } else {
        assert IsChain(e', n, c);
      }
    }
    forall n: Node
      ensures ChainOf(e', n) <= ChainOf(e, n)
      ensures !Reaches(e, n, a) ==> ChainOf(e', n) == ChainOf(e, n)
    {
      var d :| IsChain(e', n, d) && d <= ChainOf(e, n) && (a !in ChainOf(e, n) ==> d == ChainOf(e, n));
      ChainUnique(e', n, ChainOf(e', n), d);
    }
  }

  lemma LoneChain(e: Edges, n: Node)
    requires Acyclic(e) && Next(e, n) == None
    ensures ChainOf(e, n) == [n]
  {
    assert IsChain(e, n, [n]);
    ChainUnique(e, n, ChainOf(e, n), [n]);
  }

  /** A stretch of a chain: p is nonempty and its last node points at end. */
  ghost predicate IsPath(e: Edges, p: seq<Node>, end: Option<Node>) {
    && |p| > 0
    && (forall i | 0 <= i < |p| - 1 :: Next(e, p[i]) == Some(p[i + 1]))
    && Next(e, p[|p| - 1]) == end
  }

  lemma PathChain(e: Edges, p: seq<Node>, m: Node)
    requires Acyclic(e) && IsPath(e, p, Some(m))
    ensures ChainOf(e, p[0]) == p + ChainOf(e, m)
  {
    assert IsChain(e, p[0], p + ChainOf(e, m));
    ChainUnique(e, p[0], ChainOf(e, p[0]), p + ChainOf(e, m));
  }

  /** A path never meets the node it leads to. */
  lemma PathAvoidsEnd(e: Edges, p: seq<Node>, m: Node)
    requires Acyclic(e) && IsPath(e, p, Some(m))
    ensures m !in p
  {
    PathChain(e, p, m);
    ChainDistinct(e, p[0], p + ChainOf(e, m));
    assert (p + ChainOf(e, m))[|p|] == m;
    assert forall i | 0 <= i < |p| :: (p + ChainOf(e, m))[i] == p[i];
  }

  lemma {:induction false} SubgraphChain(e: Edges, e': Edges, n: Node, c: seq<Node>)
    requires forall m: Node :: Next(e', m) == None || Next(e', m) == Next(e, m)
    requires IsChain(e, n, c)
    ensures HasChain(e', n)
    decreases |c|
  {
    if Next(e', n) == None {
      assert IsChain(e', n, [n]);
    } else {
      ChainStep(e, c, 0);
      ChainTail(e, c, 1);
      SubgraphChain(e, e', c[1], c[1..]);
      var d :| IsChain(e', c[1], d);
      assert IsChain(e', n, [n] + d);
    }
  }

  /** Dropping any number of edges never creates a cycle. */
  lemma SubgraphAcyclic(e: Edges, e': Edges)
    requires Acyclic(e)
    requires forall m: Node :: Next(e', m) == None || Next(e', m) == Next(e, m)
    ensures Acyclic(e')
  {
    forall n: Node ensures HasChain(e', n) {
      SubgraphChain(e, e', n, ChainOf(e, n));
    }
  }
}
