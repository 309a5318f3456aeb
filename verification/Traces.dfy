/** Folding a step function over a trace of answers. */
module Traces {
  function Fold<S, C>(step: (S, C) -> S, s: S, trace: seq<C>): S {
    if trace == [] then s else step(Fold(step, s, trace[..|trace| - 1]), trace[|trace| - 1])
  }

  lemma FoldSnoc<S, C>(step: (S, C) -> S, s: S, trace: seq<C>, c: C)
    ensures Fold(step, s, trace + [c]) == step(Fold(step, s, trace), c)
  {
    assert (trace + [c])[..|trace|] == trace;
  }

  lemma {:induction false} FoldConcat<S, C>(step: (S, C) -> S, s: S, first: seq<C>, second: seq<C>)
    ensures Fold(step, s, first + second) == Fold(step, Fold(step, s, first), second)
  {
    if second == [] {
      assert first + second == first;
    } else {
      var n := |second| - 1;
      FoldConcat(step, s, first, second[..n]);
      var all := first + second;
      assert all[..|all| - 1] == first + second[..n] && all[|all| - 1] == second[n];
    }
  }

  lemma FoldOne<S, C>(step: (S, C) -> S, s: S, c: C)
    ensures Fold(step, s, [c]) == step(s, c)
  {
    FoldSnoc(step, s, [], c);
    assert [] + [c] == [c];
  }
}
