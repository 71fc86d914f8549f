/** Several actions in a row with nobody else in between, for any kind of state. */
module Alone {
  import opened Basics

  /** Where the actions lead, if each can be taken where the one before it led. */
  function After<S, A>(step: (S, A) -> Option<S>, s: S, acts: seq<A>): Option<S>
    decreases |acts|
  {
    if acts == [] then Some(s)
    else
      match step(s, acts[0])
      case None => None
      case Some(s1) => After(step, s1, acts[1..])
  }

  predicate Leads<S(==), A>(step: (S, A) -> Option<S>, s: S, a: A, s': S) {
    step(s, a) == Some(s')
  }

  lemma AfterFirst<S, A>(step: (S, A) -> Option<S>, s: S, a: A, s1: S, more: seq<A>)
    requires Leads(step, s, a, s1)
    ensures After(step, s, [a] + more) == After(step, s1, more)
  {
    assert ([a] + more)[1..] == more;
  }

  lemma Along1<S, A>(step: (S, A) -> Option<S>, s: S, a: A, s': S)
    requires Leads(step, s, a, s')
    ensures After(step, s, [a]) == Some(s')
  {
    AfterFirst(step, s, a, s', []);
    assert [a] + [] == [a];
  }

  lemma Along2<S, A>(step: (S, A) -> Option<S>, s: S, a: A, s1: S, b: A, s': S)
    requires Leads(step, s, a, s1) && Leads(step, s1, b, s')
    ensures After(step, s, [a, b]) == Some(s')
  {
    AfterFirst(step, s, a, s1, [b]);
    Along1(step, s1, b, s');
    assert [a] + [b] == [a, b];
  }

  lemma Along3<S, A>(step: (S, A) -> Option<S>, s: S, a: A, s1: S, b: A, s2: S, c: A, s': S)
    requires Leads(step, s, a, s1) && Leads(step, s1, b, s2) && Leads(step, s2, c, s')
    ensures After(step, s, [a, b, c]) == Some(s')
  {
    AfterFirst(step, s, a, s1, [b, c]);
    Along2(step, s1, b, s2, c, s');
    assert [a] + [b, c] == [a, b, c];
  }

  lemma Along4<S, A>(step: (S, A) -> Option<S>, s: S, a: A, s1: S, b: A, s2: S, c: A, s3: S, d: A, s': S)
    requires Leads(step, s, a, s1) && Leads(step, s1, b, s2) && Leads(step, s2, c, s3) && Leads(step, s3, d, s')
    ensures After(step, s, [a, b, c, d]) == Some(s')
  {
    AfterFirst(step, s, a, s1, [b, c, d]);
    Along3(step, s1, b, s2, c, s3, d, s');
    assert [a] + [b, c, d] == [a, b, c, d];
  }

  lemma Along5<S, A>(step: (S, A) -> Option<S>, s: S, a: A, s1: S, b: A, s2: S, c: A, s3: S, d: A, s4: S, e: A, s': S)
    requires Leads(step, s, a, s1) && Leads(step, s1, b, s2) && Leads(step, s2, c, s3)
    requires Leads(step, s3, d, s4) && Leads(step, s4, e, s')
    ensures After(step, s, [a, b, c, d, e]) == Some(s')
  {
    AfterFirst(step, s, a, s1, [b, c, d, e]);
    Along4(step, s1, b, s2, c, s3, d, s4, e, s');
    assert [a] + [b, c, d, e] == [a, b, c, d, e];
  }
}
