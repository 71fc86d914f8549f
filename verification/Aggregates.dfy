/** Combining the values of a finite map by an operation that does not mind the order. */
module Aggregates {

  ghost function Fold<K, V>(m: map<K, V>, zero: V, plus: (V, V) -> V): V {
    if m == map[] then zero
    else
      var k :| k in m;
      plus(m[k], Fold(m - {k}, zero, plus))
  }

  /** Two values can be combined with a third in either order. */
  ghost predicate Rotates<V(!new)>(plus: (V, V) -> V) {
    forall a, b, c :: plus(a, plus(b, c)) == plus(b, plus(a, c))
  }

  lemma FoldFirst<K, V>(m: map<K, V>, zero: V, plus: (V, V) -> V) returns (j: K)
    requires m != map[]
    ensures j in m && Fold(m, zero, plus) == plus(m[j], Fold(m - {j}, zero, plus))
  {
    j :| j in m && Fold(m, zero, plus) == plus(m[j], Fold(m - {j}, zero, plus));
  }

  /** Any entry can be split off: the order of combination does not matter. */
  lemma {:induction false} FoldSplit<K, V(!new)>(m: map<K, V>, zero: V, plus: (V, V) -> V, k: K)
    requires Rotates(plus) && k in m
    ensures Fold(m, zero, plus) == plus(m[k], Fold(m - {k}, zero, plus))
    decreases |m|
  {
    hide Fold;
    var j := FoldFirst(m, zero, plus);
    if j != k {
      FoldSplit(m - {j}, zero, plus, k);
      FoldSplit(m - {k}, zero, plus, j);
      assert m - {j} - {k} == m - {k} - {j};
    }
  }
}
