/** Finite paths of a step relation, and what can be reached along them. */
module Paths {
  ghost predicate At<S(!new)>(step: (S, S) -> bool, path: seq<S>, i: nat)
    requires i + 1 < |path|
  {
    step(path[i], path[i + 1])
  }

  ghost predicate IsPath<S(!new)>(step: (S, S) -> bool, path: seq<S>) {
    path != [] && forall i: nat | i + 1 < |path| :: At(step, path, i)
  }

  ghost predicate Joins<S(!new)>(step: (S, S) -> bool, path: seq<S>, s: S, t: S) {
    IsPath(step, path) && path[0] == s && path[|path| - 1] == t
  }

  /** Some path leads from `s` to `t`. */
  ghost predicate Leads<S(!new)>(step: (S, S) -> bool, s: S, t: S) { exists path :: Joins(step, path, s, t) }

  lemma Stays<S(!new)>(step: (S, S) -> bool, s: S)
    ensures Leads(step, s, s)
  {
    assert Joins(step, [s], s, s);
  }

  lemma OneStep<S(!new)>(step: (S, S) -> bool, s: S, t: S)
    requires step(s, t)
    ensures Leads(step, s, t)
  {
    forall i: nat | i + 1 < |[s, t]| ensures At(step, [s, t], i) {}
    assert Joins(step, [s, t], s, t);
  }

  lemma Trans<S(!new)>(step: (S, S) -> bool, s: S, t: S, u: S)
    requires Leads(step, s, t) && Leads(step, t, u)
    ensures Leads(step, s, u)
  {
    var p :| Joins(step, p, s, t);
    var q :| Joins(step, q, t, u);
    var path := p + q[1..];
    forall i: nat | i + 1 < |path| ensures At(step, path, i) {
      if i + 1 < |p| {
        assert At(step, p, i);
      } else {
        assert At(step, q, i + 1 - |p|);
      }
    }
    assert Joins(step, path, s, u);
  }

  /** A path whose every step can be walked in another relation. */
  lemma {:induction false} Walks<S(!new)>(step: (S, S) -> bool, other: (S, S) -> bool, path: seq<S>, s: S, t: S)
    requires Joins(step, path, s, t)
    requires forall u, v | step(u, v) :: Leads(other, u, v)
    ensures Leads(other, s, t)
    decreases |path|
  {
    if |path| == 1 {
      Stays(other, s);
    } else {
      var front := path[..|path| - 1];
      forall i: nat | i + 1 < |front| ensures At(step, front, i) {
        assert At(step, path, i);
      }
      Walks(step, other, front, s, front[|front| - 1]);
      assert At(step, path, |path| - 2);
      Trans(other, s, front[|front| - 1], t);
    }
  }

  /** What every step keeps, every path keeps. */
  lemma {:induction false} Keeps<S(!new)>(step: (S, S) -> bool, inv: S -> bool, path: seq<S>, i: nat)
    requires IsPath(step, path) && i < |path| && inv(path[0])
    requires forall u, v | inv(u) && step(u, v) :: inv(v)
    ensures inv(path[i])
  {
    if i > 0 {
      Keeps(step, inv, path, i - 1);
      assert At(step, path, i - 1);
    }
  }
}
