/** Counting the entries of a finite map that satisfy a predicate. */
module Counting {

  function Where<K, V>(m: map<K, V>, p: V -> bool): set<K> {
    set k | k in m && p(m[k])
  }

  /** One if true: what a single entry contributes to a count. */
  function One(b: bool): int {
    if b then 1 else 0
  }

  lemma WhereUpdate<K, V>(m: map<K, V>, k: K, v: V, p: V -> bool)
    requires k in m
    ensures |Where(m[k := v], p)| == |Where(m, p)| - One(p(m[k])) + One(p(v))
  {
    var rest := Where(m, p) - {k};
    assert Where(m, p) == if p(m[k]) then rest + {k} else rest;
    assert Where(m[k := v], p) == if p(v) then rest + {k} else rest;
  }

  lemma WhereNonempty<K, V>(m: map<K, V>, k: K, p: V -> bool)
    requires k in m && p(m[k])
    ensures |Where(m, p)| > 0
  {
    assert k in Where(m, p);
  }

  /** A set of entries with the same verdict all change over to another value. */
  lemma WhereUpdateAll<K, V>(m: map<K, V>, m': map<K, V>, some: set<K>, v: V, v': V, p: V -> bool)
    requires some <= m.Keys && (forall k :: k in some ==> m[k] == v)
    requires m'.Keys == m.Keys && forall k :: k in m ==> m'[k] == if k in some then v' else m[k]
    ensures |Where(m', p)| == |Where(m, p)| + (if p(v') then |some| else 0) - (if p(v) then |some| else 0)
  {
    var rest := Where(m, p) - some;
    SplitOff(m, some, v, p, rest);
    SplitOff(m', some, v', p, rest);
  }

  lemma SplitOff<K, V>(m: map<K, V>, some: set<K>, v: V, p: V -> bool, rest: set<K>)
    requires some <= m.Keys && (forall k :: k in some ==> m[k] == v)
    requires forall k :: k in rest <==> k in m && k !in some && p(m[k])
    ensures |Where(m, p)| == |rest| + if p(v) then |some| else 0
  {
    assert Where(m, p) == if p(v) then rest + some else rest;
  }

  lemma WhereOther<K, V>(m: map<K, V>, k: K, p: V -> bool)
    requires k in m && |Where(m, p)| > One(p(m[k]))
    ensures exists j :: j in m && j != k && p(m[j])
  {
    var rest := Where(m, p) - {k};
    assert Where(m, p) == if p(m[k]) then rest + {k} else rest;
    assert rest != {};
    var j :| j in rest;
  }

  lemma WhereAlone<K, V>(m: map<K, V>, k: K, p: V -> bool)
    requires k in m && |Where(m, p)| <= One(p(m[k]))
    ensures forall j :: j in m && j != k ==> !p(m[j])
  {
    var rest := Where(m, p) - {k};
    assert Where(m, p) == if p(m[k]) then rest + {k} else rest;
    assert forall j :: j in m && j != k && p(m[j]) ==> j in rest;
  }
}
