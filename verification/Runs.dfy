/** Runs of a state machine: what a sequence of actions makes of a state. */
module Runs {
  function RunFrom<S, A>(step: (S, A) -> S, s: S, actions: seq<A>): S {
    if actions == [] then s else step(RunFrom(step, s, actions[..|actions| - 1]), actions[|actions| - 1])
  }

  lemma OneMore<S, A>(step: (S, A) -> S, s: S, actions: seq<A>, a: A)
    ensures RunFrom(step, s, actions + [a]) == step(RunFrom(step, s, actions), a)
  {
    assert (actions + [a])[..|actions|] == actions;
  }

  lemma {:induction false} RunTwice<S, A>(step: (S, A) -> S, s: S, actions: seq<A>, more: seq<A>)
    ensures RunFrom(step, s, actions + more) == RunFrom(step, RunFrom(step, s, actions), more)
  {
    if more == [] {
      assert actions + more == actions;
    } else {
      RunTwice(step, s, actions, more[..|more| - 1]);
      assert (actions + more)[..|actions + more| - 1] == actions + more[..|more| - 1];
    }
  }

  lemma TwoSteps<S, A>(step: (S, A) -> S, s: S, a: A, b: A)
    ensures RunFrom(step, s, [a, b]) == step(step(s, a), b)
  {
    OneMore(step, s, [], a);
    OneMore(step, s, [a], b);
    assert [] + [a] == [a] && [a] + [b] == [a, b];
  }

  lemma ThreeSteps<S, A>(step: (S, A) -> S, s: S, a: A, b: A, c: A)
    ensures RunFrom(step, s, [a, b, c]) == step(step(step(s, a), b), c)
  {
    TwoSteps(step, s, a, b);
    OneMore(step, s, [a, b], c);
    assert [a, b] + [c] == [a, b, c];
  }
}
