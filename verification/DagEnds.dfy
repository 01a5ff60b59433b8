/** How a flush of the task graph ends: always, if nothing more throws, and with its callback fired, if no
    routine is empty. */
module DagEnds {
  import opened Counting
  import opened Dag
  import Runs

  // ---------------------------------------------------------------- every flush comes to rest

  /** An exception is on its way out and its resurrect() has not been called. */
  function Failing(g: Agent): nat {
    AsNat(g.pc.Undo? || g.pc.Mark? || g.pc.UnLoop? || g.pc.UnMark? || g.pc.Thrown?)
  }

  /** No suspend() call is half-way between its two increments. */
  ghost predicate NoneReserved(s: State) {
    forall x | 0 <= x < |s.agents| :: !s.agents[x].pc.Reserved?
  }

  ghost predicate CanMove(s: State) {
    exists a :: Onward(s, a)
  }

  lemma FailingEffect(s: State, a: Action)
    requires Onward(s, a)
    ensures Failing(StepAgent(s, a)) + AsNat(a.StartRescue?) <= Failing(s.agents[a.x])
    ensures !StepAgent(s, a).pc.Reserved?
  {
  }

  lemma OnwardStrict(s: State, a: Action)
    requires NoneReserved(s) && Onward(s, a)
    ensures Strict(s, a)
  {
    assert !a.Hold?;
  }

  /** No step but a throw adds to the exceptions under way, and a resurrect() answers one of them. */
  lemma StepFailing(s: State, a: Action)
    requires Inv(s) && NoneReserved(s) && Onward(s, a)
    ensures Strict(s, a) && NoneReserved(Step(s, a)) && |Step(s, a).locks| == |s.locks|
    ensures Sum(Failing, Step(s, a).agents) + AsNat(a.StartRescue?) <= Sum(Failing, s.agents)
  {
    hide StepAgent, Sum, Races, ThrowsInside, OnMark, Accounts, RescueOK, InlineOK, Promised, MissedOK, WellFormed, Acyclic,
         StepLocks, StepPending, StepMissed;
    OnwardStrict(s, a);
    LockCount(s, a);
    var g' := StepAgent(s, a);
    FailingEffect(s, a);
    SumUpdate(Failing, s.agents, a.x, g');
    if a.StartRescue? {
      SumAppend(Failing, s.agents[a.x := g'], Agent(Rescuer, Look(0), []));
    } else if Hands(a) {
      TargetAsleep(s, a.x);
      var moved := s.agents[a.x := g'];
      var i := s.agents[a.x].pc.i;
      SumUpdate(Failing, moved, i, moved[i].(pc := Given(a)));
    }
  }

  /** The path takes, one after the other, the steps that are picked. */
  ghost predicate Follows(path: seq<State>, pick: State -> Action) {
    && |path| > 0
    && forall i: nat | i + 1 < |path| ::
         Onward(path[i], pick(path[i])) && path[i + 1] == Step(path[i], pick(path[i]))
  }

  lemma Settles(s: State)
    requires Inv(s) && |s.agents| > 0 && NoneReserved(s) && !CanMove(s)
    ensures Rest(s)
  {
    if !Rest(s) {
      var a := NeverHangs(s);
    }
  }

  lemma Follow(path: seq<State>, s: State, pick: State -> Action)
    requires Follows(path, pick) && Onward(s, pick(s)) && path[0] == Step(s, pick(s))
    ensures Follows([s] + path, pick)
  {
  }

  lemma {:induction false} RunsDry(s: State, pick: State -> Action) returns (path: seq<State>)
    requires Inv(s) && |s.agents| > 0 && NoneReserved(s)
    requires forall s | CanMove(s) :: Onward(s, pick(s))
    ensures Follows(path, pick) && path[0] == s && Rest(path[|path| - 1])
    ensures forall i: nat | i + 1 < |path| :: ProperNext(path[i], path[i + 1])
    ensures path[|path| - 1].graph == s.graph && (Unmissed(s) ==> Unmissed(path[|path| - 1]))
    decreases Sum(Failing, s.agents), Sum(Work(|s.locks|), s.agents)
  {
    hide Inv, Rest, Sum, StepAgents, StepLocks, StepMissed, Unmissed, Races, ThrowsInside, OnMark;
    if CanMove(s) {
      var a := pick(s);
      var s' := Step(s, a);
      StepFailing(s, a);
      assert ProperNext(s, s');
      StepInv(s, s');
      if Unmissed(s) {
        StepUnmissed(s, a);
      }
      if !a.StartRescue? {
        WindsDown(s, a);
      }
      MoreAgents(s, a);
      var rest := RunsDry(s', pick);
      path := [s] + rest;
      Follow(rest, s, pick);
    } else {
      Settles(s);
      path := [s];
    }
  }

  lemma MoreAgents(s: State, a: Action)
    requires Onward(s, a)
    ensures |Step(s, a).agents| >= |s.agents| > 0 && Step(s, a).graph == s.graph
  {
  }

  /** However its threads are scheduled, a flush comes to rest once the user suspends no more, resumes
      what he suspended and answers each exception, one at a time, by a resurrect() that does not throw
      again. Without an empty junction routine its callback has then fired, and every task has been dispatched once and
      has finished exactly if none was missed. None is, if at the start none is and no suspension covers
      a mark. */
  lemma FlushEnds(run: seq<State>, pick: State -> Action) returns (path: seq<State>)
    requires Runs.IsRun(Init, ProperNext, run)
    requires |run[|run| - 1].agents| > 0 && NoneReserved(run[|run| - 1])
    requires forall s | CanMove(s) :: Onward(s, pick(s))
    ensures Follows(path, pick) && path[0] == run[|run| - 1]
    ensures forall i: nat | i + 1 < |path| :: ProperNext(path[i], path[i + 1])
    ensures var end := path[|path| - 1];
            && Rest(end) && end.graph == path[0].graph
            && (NoJunction(end.graph) ==> end.fired)
            && (end.missed == {} ==> (end.fired <==> NoJunction(end.graph)))
            && (end.fired ==> (AllDone(end) <==> end.missed == {}))
            && (Unmissed(path[0]) ==> end.missed == {})
  {
    hide Inv, Step, Enabled, Proper, Rest, AllDone, Covered;
    var k := |run| - 1;
    RunInv(run, k);
    path := RunsDry(run[k], pick);
    var whole := Runs.Join(Init, ProperNext, run, path);
    CompletesIffNoJunction(whole, |whole| - 1);
    if path[|path| - 1].fired {
      CompletionMeansDone(whole, |whole| - 1);
    }
  }

  // ---------------------------------------------------------------- an empty routine keeps the callback from firing

  ghost function Pick(s: State): Action {
    if a :| Onward(s, a) then a else StartFlush
  }

  /** On every graph with an empty routine there is a run that comes to rest with the callback not fired. */
  lemma JunctionHangs(g: Graph) returns (run: seq<State>)
    requires WellFormed(g) && Acyclic(g) && exists i :: 0 <= i < |g.junction| && g.junction[i]
    ensures Runs.IsRun(Init, ProperNext, run) && run[0] == Before(g)
    ensures Rest(run[|run| - 1]) && !run[|run| - 1].fired
  {
    var start := Flushed(g);
    var path := FlushEnds(start, Pick);
    hide Init, ProperNext, Rest, Follows, NoneReserved, CanMove, Enabled, AllDone, Unmissed;
    run := Runs.Join(Init, ProperNext, start, path);
  }

  lemma Flushed(g: Graph) returns (run: seq<State>)
    requires WellFormed(g) && Acyclic(g)
    ensures Runs.IsRun(Init, ProperNext, run) && run[0] == Before(g) && run[|run| - 1].graph == g
    ensures |run[|run| - 1].agents| > 0 && NoneReserved(run[|run| - 1]) && Unmissed(run[|run| - 1])
  {
    var s := Before(g);
    var t := Step(s, StartFlush);
    assert Proper(s, StartFlush) && ProperNext(s, t);
    run := [s, t];
  }
}
