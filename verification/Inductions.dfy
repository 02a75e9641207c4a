/** Induction along a sequence of states, once for all the machines. */
module Inductions {

  /** Step i of the sequence keeps the property. */
  predicate Passes<S>(states: seq<S>, holds: S -> bool, i: nat) {
    i + 1 < |states| && holds(states[i]) ==> holds(states[i + 1])
  }

  lemma {:induction false} Along<S>(states: seq<S>, holds: S -> bool, n: nat)
    requires n < |states| && holds(states[0])
    requires forall i :: 0 <= i < |states| - 1 ==> Passes(states, holds, i)
    ensures holds(states[n])
  {
    if n > 0 {
      Along(states, holds, n - 1);
      assert Passes(states, holds, n - 1);
    }
  }
}
