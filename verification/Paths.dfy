/** Finite executions of a step relation. */
module Paths {

  /** Position `i` is a step (and names the instance of `IsPath` a proof wants). */
  predicate At<T>(steps: seq<T>, i: int) {
    0 <= i < |steps|
  }

  /** `states` are what taking `steps` goes through. */
  ghost predicate IsPath<S, T>(moves: (S, T, S) -> bool, states: seq<S>, steps: seq<T>) {
    && |states| == |steps| + 1
    && forall i {:trigger At(steps, i)} :: At(steps, i) ==> moves(states[i], steps[i], states[i + 1])
  }

  /** From `from` the steps can be taken one after the other, and lead to `to`. */
  ghost predicate Reaches<S(!new), T>(moves: (S, T, S) -> bool, from: S, steps: seq<T>, to: S) {
    exists states :: IsPath(moves, states, steps) && states[0] == from && states[|steps|] == to
  }

  lemma ReachNone<S(!new), T>(moves: (S, T, S) -> bool, s: S)
    ensures Reaches(moves, s, [], s)
  {
    assert IsPath(moves, [s], []);
  }

  lemma ReachOne<S(!new), T>(moves: (S, T, S) -> bool, from: S, step: T, to: S)
    requires moves(from, step, to)
    ensures Reaches(moves, from, [step], to)
  {
    assert IsPath(moves, [from, to], [step]);
  }

  lemma JoinPaths<S, T>(moves: (S, T, S) -> bool, front: seq<S>, a: seq<T>, back: seq<S>, b: seq<T>)
    requires IsPath(moves, front, a) && IsPath(moves, back, b) && front[|a|] == back[0]
    ensures IsPath(moves, front + back[1..], a + b)
  {
    var states := front + back[1..];
    forall i | At(a + b, i)
      ensures moves(states[i], (a + b)[i], states[i + 1])
    {
      if i < |a| {
        assert At(a, i);
      } else {
        assert At(b, i - |a|);
        assert states[i] == back[i - |a|] && states[i + 1] == back[i - |a| + 1];
      }
    }
  }

  lemma ReachConcat<S(!new), T>(moves: (S, T, S) -> bool, from: S, a: seq<T>, mid: S, b: seq<T>, to: S)
    requires Reaches(moves, from, a, mid) && Reaches(moves, mid, b, to)
    ensures Reaches(moves, from, a + b, to)
  {
    var front :| IsPath(moves, front, a) && front[0] == from && front[|a|] == mid;
    var back :| IsPath(moves, back, b) && back[0] == mid && back[|b|] == to;
    JoinPaths(moves, front, a, back, b);
  }

  lemma ReachSnoc<S(!new), T>(moves: (S, T, S) -> bool, from: S, steps: seq<T>, mid: S, step: T, to: S)
    requires Reaches(moves, from, steps, mid) && moves(mid, step, to)
    ensures Reaches(moves, from, steps + [step], to)
  {
    ReachOne(moves, mid, step, to);
    ReachConcat(moves, from, steps, mid, [step], to);
  }
}
