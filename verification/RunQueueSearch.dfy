/**
 The run queue: a search tree ordered by start time whose nodes also store the
 minimum finish time of their subtree, and the descent that finds the eligible
 thread with the earliest finish time.
 */
module RunQueueSearch {
  import opened Basics

  datatype Task = Task(thread: ThreadId, start: int, finish: int)

  datatype Tree = Leaf | Node(left: Tree, task: Task, minFinish: int, right: Tree)

  predicate In(t: Tree, x: Task) {
    t.Node? && (t.task == x || In(t.left, x) || In(t.right, x))
  }

  function Least(a: int, b: int): int {
    if a <= b then a else b
  }

  /** What the tree observer keeps in min_finish_time_. */
  function Best(t: Tree): int
    requires t.Node?
  {
    var own := t.task.finish;
    var l := if t.left.Node? then Least(own, t.left.minFinish) else own;
    if t.right.Node? then Least(l, t.right.minFinish) else l
  }

  /** Ordered by start time, and augmented. */
  ghost predicate Valid(t: Tree) {
    t.Node? ==>
      && Valid(t.left) && Valid(t.right)
      && (forall x :: In(t.left, x) ==> x.start <= t.task.start)
      && (forall x :: In(t.right, x) ==> x.start >= t.task.start)
      && t.minFinish == Best(t)
  }

  /** The stored minimum is a lower bound that some task of the subtree attains. */
  lemma {:induction false} MinFinishIsMin(t: Tree)
    requires Valid(t) && t.Node?
    ensures forall x :: In(t, x) ==> t.minFinish <= x.finish
    ensures exists x :: In(t, x) && x.finish == t.minFinish
  {
    if t.left.Node? { MinFinishIsMin(t.left); }
    if t.right.Node? { MinFinishIsMin(t.right); }
    if t.minFinish == t.task.finish {
      assert In(t, t.task);
    } else if t.left.Node? && t.minFinish == t.left.minFinish {
      var x :| In(t.left, x) && x.finish == t.minFinish;
      assert In(t, x);
    } else {
      var x :| In(t.right, x) && x.finish == t.minFinish;
      assert In(t, x);
    }
  }

  function Front(t: Tree): Task
    requires t.Node?
  {
    if t.left.Node? then Front(t.left) else t.task
  }

  lemma {:induction false} FrontIsEarliest(t: Tree)
    requires Valid(t) && t.Node?
    ensures In(t, Front(t)) && forall x :: In(t, x) ==> Front(t).start <= x.start
  {
    if t.left.Node? { FrontIsEarliest(t.left); }
  }

  /** x is among the tasks still ahead, or something already seen finishes no later. */
  ghost predicate Covered(node: Tree, path: Option<Task>, subtree: Tree, x: Task) {
    || In(node, x)
    || (path.Some? && path.value.finish <= x.finish)
    || (subtree.Node? && subtree.minFinish <= x.finish)
  }

  /** The descent along the border between eligible and ineligible tasks. */
  method Partition(root: Tree, eligible: int) returns (path: Option<Task>, subtree: Tree)
    requires Valid(root)
    ensures forall x :: In(root, x) && x.start <= eligible ==> Covered(Leaf, path, subtree, x)
    ensures path.Some? ==> In(root, path.value) && path.value.start <= eligible
    ensures Valid(subtree) && forall x :: In(subtree, x) ==> In(root, x) && x.start <= eligible
    ensures subtree.Node? ==> path.Some?
  {
    var node := root;
    path, subtree := None, Leaf;
    while node.Node?
      invariant Valid(node) && forall x :: In(node, x) ==> In(root, x)
      invariant forall x :: In(root, x) && x.start <= eligible ==> Covered(node, path, subtree, x)
      invariant path.Some? ==> In(root, path.value) && path.value.start <= eligible
      invariant Valid(subtree) && forall x :: In(subtree, x) ==> In(root, x) && x.start <= eligible
      invariant subtree.Node? ==> path.Some?
      decreases node
    {
      if node.task.start <= eligible {
        if path.None? || path.value.finish > node.task.finish {
          path := Some(node.task);
        }
        if node.left.Node? { MinFinishIsMin(node.left); }
        if subtree.Leaf? || (node.left.Node? && subtree.minFinish > node.left.minFinish) {
          subtree := node.left;
        }
        node := node.right;
      } else {
        node := node.left;
      }
    }
  }

  /** FindEarliestEligibleThread with the predicate that accepts every thread. */
  method FindEarliestEligibleThread(root: Tree, eligible: int) returns (r: Option<Task>)
    requires Valid(root)
    ensures r.None? <==> forall x :: In(root, x) ==> x.start > eligible
    ensures r.Some? ==> In(root, r.value) && r.value.start <= eligible
    ensures r.Some? ==> forall x :: In(root, x) && x.start <= eligible ==> r.value.finish <= x.finish
  {
    if root.Leaf? {
      return None;
    }
    FrontIsEarliest(root);
    if Front(root).start > eligible {
      return None;
    }
    var path, subtree := Partition(root, eligible);
    assert Covered(Leaf, path, subtree, Front(root));
    if subtree.Leaf? || subtree.minFinish >= path.value.finish {
      return path;
    }
    var node := subtree;
    while true
      invariant node.Node? && Valid(node) && node.minFinish == subtree.minFinish
      invariant forall x :: In(node, x) ==> In(subtree, x)
      decreases node
    {
      if node.task.finish == subtree.minFinish {
        assert In(node, node.task);
        return Some(node.task);
      }
      if node.left.Node? && node.minFinish == node.left.minFinish {
        node := node.left;
      } else {
        node := node.right;
      }
    }
  }
}
