/** Runs of a machine: a function of state and step, folded over the steps. */
module Runs {
  function Fold<S, T>(next: (S, T) -> S, s: S, steps: seq<T>): S {
    if steps == [] then s else next(Fold(next, s, steps[..|steps| - 1]), steps[|steps| - 1])
  }

  lemma FoldSnoc<S, T>(next: (S, T) -> S, s: S, steps: seq<T>, step: T)
    ensures Fold(next, s, steps + [step]) == next(Fold(next, s, steps), step)
  {
    assert (steps + [step])[..|steps|] == steps;
  }

  lemma {:induction false} FoldCat<S, T>(next: (S, T) -> S, s: S, a: seq<T>, b: seq<T>)
    ensures Fold(next, s, a + b) == Fold(next, Fold(next, s, a), b)
  {
    if b == [] {
      assert a + b == a;
    } else {
      assert (a + b)[..|a + b| - 1] == a + b[..|b| - 1];
      FoldCat(next, s, a, b[..|b| - 1]);
    }
  }

  lemma FoldOne<S, T>(next: (S, T) -> S, s: S, step: T)
    ensures Fold(next, s, [step]) == next(s, step)
  {
    FoldSnoc(next, s, [], step);
    assert [] + [step] == [step];
  }

  lemma FoldTwo<S, T>(next: (S, T) -> S, s: S, a: T, b: T)
    ensures Fold(next, s, [a, b]) == next(next(s, a), b)
  {
    FoldOne(next, s, a);
    FoldSnoc(next, s, [a], b);
    assert [a] + [b] == [a, b];
  }

  lemma FoldFour<S, T>(next: (S, T) -> S, s: S, a: T, b: T, c: T, d: T)
    ensures Fold(next, s, [a, b, c, d]) == next(next(next(next(s, a), b), c), d)
  {
    FoldTwo(next, s, a, b);
    FoldTwo(next, next(next(s, a), b), c, d);
    FoldCat(next, s, [a, b], [c, d]);
    assert [a, b] + [c, d] == [a, b, c, d];
  }
}
