/** Runs of any step system, given as a partial function from a state and a label to the next state. */
module Traces {
  import opened Prelude

  ghost predicate Runs<S(!new), L(!new)>(step: (S, L) -> Option<S>, s: S, labels: seq<L>, s': S)
    decreases |labels|
  {
    if labels == [] then s' == s
    else step(s, labels[0]).Some? && Runs(step, step(s, labels[0]).value, labels[1..], s')
  }

  lemma {:induction false} Append<S(!new), L(!new)>(step: (S, L) -> Option<S>, s: S, a: seq<L>, m: S, b: seq<L>, s': S)
    requires Runs(step, s, a, m) && Runs(step, m, b, s')
    ensures Runs(step, s, a + b, s')
    decreases |a|
  {
    if a == [] {
      assert a + b == b;
    } else {
      assert (a + b)[0] == a[0] && (a + b)[1..] == a[1..] + b;
      Append(step, step(s, a[0]).value, a[1..], m, b, s');
    }
  }

  lemma One<S(!new), L(!new)>(step: (S, L) -> Option<S>, s: S, l: L, s': S)
    requires step(s, l) == Some(s')
    ensures Runs(step, s, [l], s')
  {
    assert [l][1..] == [];
    assert Runs(step, s', [], s');
  }

  lemma Snoc<S(!new), L(!new)>(step: (S, L) -> Option<S>, s: S, a: seq<L>, m: S, l: L, s': S)
    requires Runs(step, s, a, m) && step(m, l) == Some(s')
    ensures Runs(step, s, a + [l], s')
  {
    One(step, m, l, s');
    Append(step, s, a, m, [l], s');
  }
}
