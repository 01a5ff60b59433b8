/** The end of join(): its cleanup is repeated until no task is left, and that happens. */
module PoolJoin {
  import opened Counting
  import opened Pool
  import opened PoolDrain
  import Runs

  /** Steps while thread j is in join(): it begins a cleanup() when all threads of the pool have left, and again
      after one that has found a task. */
  predicate Joins(j: nat, a: Action) {
    Internal(a) || a == Clean(j, Start)
  }

  ghost predicate CanJoin(j: nat, s: State) {
    exists a :: Enabled(s, a) && Joins(j, a)
  }

  /** The path takes, one after the other, the steps that are picked. */
  ghost predicate Along(j: nat, path: seq<State>, pick: State -> Action) {
    && |path| > 0
    && forall i: nat | i + 1 < |path| ::
         Enabled(path[i], pick(path[i])) && Joins(j, pick(path[i])) && path[i + 1] == Step(path[i], pick(path[i]))
  }

  // ---------------------------------------------------------------- live tasks

  function Live(s: State): nat {
    |s.next.Keys|
  }

  /** Nothing is queued, so there are never more live tasks than before; what has run is gone. */
  lemma LiveFalls(s: State, a: Action)
    requires Inv(s) && Enabled(s, a) && !Allocates(a)
    ensures Live(Step(s, a)) <= Live(s) && (Frees(a) ==> Live(Step(s, a)) < Live(s))
    ensures s.next == map[] ==> Step(s, a).next == map[]
  {
    hide Eff, Sum;
    StepFinds(s, a);
    NextFrame(s, a);
    var next := Eff(s, a).next;
    if Frees(a) {
      RunEffect(s, a, Written(s, a).value);
      assert next.Keys == s.next.Keys - {Written(s, a).value};
    } else {
      assert next.Keys == s.next.Keys;
    }
  }

  // ---------------------------------------------------------------- how often join() still cleans up

  /** Without another task, how many cleanups end before join() does. */
  function Tries(b: Base): nat {
    match b
    case Out => 2
    case CleanTake(_, empty) => if empty then 1 else 2
    case CleanNext(_, cursor) => if cursor.Some? then 1 else 2
    case CleanRun(_, _, _) => 1
    case CleanDone(empty) => if empty then 0 else 2
    case _ => 0
  }

  lemma OwnTries(s: State, j: nat, a: Action)
    requires Enabled(s, a) && Joins(j, a) && a.t == j && s.size <= j
    requires ThreadOK(s.threads[j], |s.heads|, s.size, false)
    ensures Frees(a) || Tries(Eff(s, a).th.base) <= Tries(s.threads[j].base)
    ensures a == Clean(j, Start) ==> Tries(Eff(s, a).th.base) < Tries(s.threads[j].base)
  {
    match a
    case Queue(t, q) => QueueOutside(s, t, q);
    case Clean(t, c) => CleanTries(s, t, c);
    case _ =>
  }

  lemma CleanTries(s: State, t: nat, c: CleanAct)
    requires CleanEnabled(s, t, c)
    ensures c.Return? || Tries(CleanStep(s, t, c).th.base) <= Tries(s.threads[t].base)
    ensures c.Start? ==> Tries(CleanStep(s, t, c).th.base) < Tries(s.threads[t].base)
  {
  }

  lemma TriesFall(s: State, j: nat, a: Action)
    requires Shape(s) && Enabled(s, a) && Joins(j, a) && s.size <= j < |s.threads|
    ensures var s' := Step(s, a);
            && |s'.threads| == |s.threads| && s'.size == s.size
            && (Frees(a) || Tries(s'.threads[j].base) <= Tries(s.threads[j].base))
            && (a == Clean(j, Start) ==> Tries(s'.threads[j].base) < Tries(s.threads[j].base))
            && (a.t != j ==> s'.threads[j] == s.threads[j])
  {
    hide Eff, Tries, QueueStep, PollStep, DelayStep, CleanStep;
    assert ThreadOK(s.threads[j], |s.heads|, s.size, j < s.size);
    assert ThreadOK(s.threads[a.t], |s.heads|, s.size, a.t < s.size);
    AwakeWaker(s, a);
    ThreadsFrame(s, a, Eff(s, a).th);
    if a.t == j {
      OwnTries(s, j, a);
    }
  }

  // ---------------------------------------------------------------- join() returns

  /** Nothing is left once the cleanup of j has found nothing. */
  ghost predicate Emptied(j: nat, s: State)
    requires j < |s.threads|
  {
    s.threads[j].base == CleanDone(true) ==> s.next == map[]
  }

  lemma StepEmptied(s: State, j: nat, a: Action)
    requires Inv(s) && Enabled(s, a) && Joins(j, a) && s.size <= j < |s.threads| && Emptied(j, s)
    ensures j < |Step(s, a).threads| && Emptied(j, Step(s, a))
  {
    hide Eff, Tries, Sum, QueueStep, PollStep, DelayStep;
    TriesFall(s, j, a);
    LiveFalls(s, a);
    if s.threads[j].base != CleanDone(true) && Step(s, a).threads[j].base == CleanDone(true) {
      OnlyTakesEnd(s, a);
      LeavesNothing(s, j);
    }
  }

  lemma OnlyTakesEnd(s: State, a: Action)
    requires Shape(s) && Enabled(s, a) && s.size <= a.t
    requires s.threads[a.t].base != CleanDone(true) && Step(s, a).threads[a.t].base == CleanDone(true)
    ensures a == Clean(a.t, TakeChain)
  {
    assert ThreadOK(s.threads[a.t], |s.heads|, s.size, a.t < s.size);
    AwakeWaker(s, a);
    ThreadsFrame(s, a, Eff(s, a).th);
    match a
    case Queue(t, q) => QueueOutside(s, t, q);
    case _ =>
  }

  /** Until join() can return some step is possible. */
  lemma GoesOn(s: State, j: nat)
    requires Inv(s) && s.shared.terminated && s.size <= j < |s.threads|
    requires !Over(s) || s.threads[j].base != CleanDone(true)
    ensures CanJoin(j, s)
  {
    if !Over(s) {
      MovesOn(s);
      var a :| Enabled(s, a) && Internal(a);
      assert Joins(j, a);
    } else {
      assert Idle(s, j);
      forall t | 0 <= t < |s.threads| ensures s.threads[t].op.NoOp? && (t < s.size ==> s.threads[t].base.Exited?) {
        assert Idle(s, t);
      }
      assert !Cleaning(s) by {
        forall t | 0 <= t < |s.threads| ensures !CleanBase(s.threads[t].base) {
          assert Idle(s, t);
        }
      }
      assert Enabled(s, Clean(j, Start)) && Joins(j, Clean(j, Start));
    }
  }

  lemma {:induction false} Empties(s: State, j: nat, pick: State -> Action) returns (path: seq<State>)
    requires Inv(s) && s.shared.terminated && s.size <= j < |s.threads| && Emptied(j, s)
    requires forall s | CanJoin(j, s) :: Enabled(s, pick(s)) && Joins(j, pick(s))
    ensures Along(j, path, pick) && path[0] == s
    ensures var end := path[|path| - 1];
            && Inv(end) && Over(end) && j < |end.threads| && end.threads[j].base == CleanDone(true) && end.next == map[]
    decreases Live(s), Tries(s.threads[j].base), RankOf(s).phase, RankOf(s).links, RankOf(s).stale, RankOf(s).distance
  {
    hide Inv, Over, CanJoin, RankOf, Eff, Step, Live, Tries;
    if CanJoin(j, s) {
      var a := pick(s);
      var s' := Step(s, a);
      assert Next(s, s');
      StepInv(s, s');
      StaysTerminated(s, a);
      ShapeOf(s);
      LiveFalls(s, a);
      TriesFall(s, j, a);
      StepEmptied(s, j, a);
      if Internal(a) {
        StepDrains(s, a);
      }
      var rest := Empties(s', j, pick);
      path := [s] + rest;
    } else {
      path := [s];
      if !Over(s) || s.threads[j].base != CleanDone(true) {
        GoesOn(s, j);
      }
    }
  }

  lemma ShapeOf(s: State)
    requires Inv(s)
    ensures Shape(s)
  {
  }

  /** After terminate(), and with nothing more queued, join() returns on every schedule: all threads of the pool
      leave, and cleanup() is repeated until it finds nothing. No task is left then and nobody waits. */
  lemma JoinReturns(run: seq<State>, j: nat, pick: State -> Action) returns (path: seq<State>)
    requires Runs.IsRun(Init, Next, run) && run[|run| - 1].shared.terminated
    requires var s := run[|run| - 1]; s.size <= j < |s.threads| && s.threads[j].base != CleanDone(true)
    requires forall s | CanJoin(j, s) :: Enabled(s, pick(s)) && Joins(j, pick(s))
    ensures Along(j, path, pick) && path[0] == run[|run| - 1]
    ensures var end := path[|path| - 1];
            && j < |end.threads| && end.threads[j].base == CleanDone(true)
            && (forall t | 0 <= t < |end.threads| :: Idle(end, t))
            && end.next == map[] && (forall i | 0 <= i < |end.heads| :: end.heads[i].None?) && end.shared.waiting == 0
  {
    RunInv(run, |run| - 1);
    path := Empties(run[|run| - 1], j, pick);
    var end := path[|path| - 1];
    SumZero(Waits, end.threads) by {
      forall t | 0 <= t < |end.threads| ensures Waits(end.threads[t]) == 0 {
        assert Idle(end, t);
      }
    }
    forall i | 0 <= i < |end.heads| ensures end.heads[i].None? {
      assert Tied(end.next, end.heads[i], end.chains[i]);
    }
  }
}
