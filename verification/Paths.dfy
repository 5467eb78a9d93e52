/** Runs of a step relation, from one state to another. */
module Paths {

  ghost predicate Chain<S(!new)>(step: (S, S) -> bool, states: seq<S>) {
    states != [] && forall i :: 0 <= i < |states| - 1 ==> step(states[i], states[i + 1])
  }

  ghost predicate ChainBetween<S(!new)>(step: (S, S) -> bool, s: S, s': S, states: seq<S>) {
    Chain(step, states) && states[0] == s && states[|states| - 1] == s'
  }

  /** Some number of steps, or none, leads from `s` to `s'`. */
  ghost predicate Reaches<S(!new)>(step: (S, S) -> bool, s: S, s': S) {
    exists states :: ChainBetween(step, s, s', states)
  }

  lemma ReachesSelf<S(!new)>(step: (S, S) -> bool, s: S)
    ensures Reaches(step, s, s)
  {
    assert ChainBetween(step, s, s, [s]);
  }

  lemma ReachesThen<S(!new)>(step: (S, S) -> bool, s: S, s': S, s'': S)
    requires Reaches(step, s, s') && step(s', s'')
    ensures Reaches(step, s, s'')
  {
    var states :| ChainBetween(step, s, s', states);
    assert ChainBetween(step, s, s'', states + [s'']);
  }

  lemma ReachesOn<S(!new)>(step: (S, S) -> bool, s: S, s1: S, s2: S)
    requires Reaches(step, s, s1) && Reaches(step, s1, s2)
    ensures Reaches(step, s, s2)
  {
    var a :| ChainBetween(step, s, s1, a);
    var b :| ChainBetween(step, s1, s2, b);
    var all := a + b[1..];
    forall i | 0 <= i < |all| - 1 ensures step(all[i], all[i + 1]) {
      if i >= |a| - 1 {
        assert all[i] == b[i - |a| + 1] && all[i + 1] == b[i - |a| + 2];
      }
    }
    assert ChainBetween(step, s, s2, all);
  }
}
