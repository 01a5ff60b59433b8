/** Runs of a transition system and the induction principle over them. */
module Runs {

  ghost predicate IsRun<S(!new)>(init: S -> bool, next: (S, S) -> bool, run: seq<S>) {
    && |run| > 0
    && init(run[0])
    && forall i: nat | i + 1 < |run| :: next(run[i], run[i + 1])
  }

  /** What holds initially and is kept by every step holds all along a run. */
  lemma {:induction false} Invariant<S(!new)>(init: S -> bool, next: (S, S) -> bool, inv: S -> bool, run: seq<S>)
    requires IsRun(init, next, run)
    requires forall s :: init(s) ==> inv(s)
    requires forall s, t :: inv(s) && next(s, t) ==> inv(t)
    ensures forall i | 0 <= i < |run| :: inv(run[i])
  {
    if |run| > 1 {
      var front := run[..|run| - 1];
      Invariant(init, next, inv, front);
      assert inv(front[|front| - 1]) && front[|front| - 1] == run[|run| - 2];
      assert next(run[|run| - 2], run[|run| - 2 + 1]);
    }
  }

  // ---------------------------------------------------------------- runs with a given end

  ghost predicate IsPath<S(!new)>(next: (S, S) -> bool, path: seq<S>, s: S, t: S) {
    && |path| > 0 && path[0] == s && path[|path| - 1] == t
    && forall i: nat | i + 1 < |path| :: next(path[i], path[i + 1])
  }

  /** Some path leads from s to t. */
  ghost predicate Leads<S(!new)>(next: (S, S) -> bool, s: S, t: S) {
    exists path :: IsPath(next, path, s, t)
  }

  lemma Stay<S(!new)>(next: (S, S) -> bool, s: S)
    ensures Leads(next, s, s)
  {
    assert IsPath(next, [s], s, s);
  }

  lemma Extend<S(!new)>(next: (S, S) -> bool, s: S, t: S, u: S)
    requires Leads(next, s, t) && next(t, u)
    ensures Leads(next, s, u)
  {
    var path :| IsPath(next, path, s, t);
    var longer := path + [u];
    forall i: nat | i + 1 < |longer| ensures next(longer[i], longer[i + 1]) {
      if i + 1 < |path| {
        assert next(path[i], path[i + 1]);
      }
    }
    assert IsPath(next, longer, s, u);
  }

  lemma RunTo<S(!new)>(init: S -> bool, next: (S, S) -> bool, s: S, t: S) returns (run: seq<S>)
    requires init(s) && Leads(next, s, t)
    ensures IsRun(init, next, run) && run[0] == s && run[|run| - 1] == t
  {
    run :| IsPath(next, run, s, t);
  }

  /** A run goes on along a path that begins where it ends. */
  lemma Join<S(!new)>(init: S -> bool, next: (S, S) -> bool, run: seq<S>, path: seq<S>) returns (whole: seq<S>)
    requires IsRun(init, next, run) && |path| > 0 && path[0] == run[|run| - 1]
    requires forall i: nat | i + 1 < |path| :: next(path[i], path[i + 1])
    ensures IsRun(init, next, whole) && whole[0] == run[0] && whole[|whole| - 1] == path[|path| - 1]
  {
    whole := run + path[1..];
    forall i: nat | i + 1 < |whole| ensures next(whole[i], whole[i + 1]) {
      if i + 1 < |run| {
        assert next(run[i], run[i + 1]);
      } else {
        var j := i + 1 - |run|;
        assert whole[i] == path[j] && whole[i + 1] == path[j + 1];
      }
    }
  }
}
