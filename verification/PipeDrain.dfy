/** The coroutine pipe left alone: the awaits and emplaces under way come to an end, whatever the schedule. */
module PipeDrain {
  import opened Counting
  import opened Pipe
  import Runs

  // ---------------------------------------------------------------- a rank that every step under way lowers

  /** How often the thread will still end a claim, or be woken: a successful compare-and-swap and the changes of
      the two counters come at such points only. */
  function Major(th: Thread): nat {
    match th
    case Idle => 0
    case CRelease => 2
    case Suspended => 2
    case CUnlock => 1
    case Ready => 1
    case PPush(_) => 2
    case PLoad(_) => 2
    case PSwap(_, _) => 2
    case PLock => 2
    case PCount => 2
    case PRelease => 1
    case PTake => 1
    case PPop => 1
    case PUnlock(_) => 1
    case PDispatch(_) => 1
    case _ => 3
  }

  /** Its compare-and-swap will fail, as the counter has changed meanwhile. */
  function Stale(prepared: nat, waiting: nat): Thread -> nat {
    (th: Thread) => AsNat((th.CSwap? && th.seen != prepared) || (th.PSwap? && th.seen != waiting))
  }

  /** How many other steps lie before it. */
  function Minor(th: Thread): nat {
    match th
    case CLoad(slow) => if slow then 6 else 9
    case CSwap(slow, _) => if slow then 5 else 8
    case CLock => 7
    case CPush => 4
    case CCount => 3
    case CRelease => 2
    case CUnlock => 2
    case Ready => 1
    case PPush(_) => 9
    case PLoad(slow) => if slow then 5 else 8
    case PSwap(slow, _) => if slow then 4 else 7
    case PLock => 6
    case PCount => 3
    case PRelease => 2
    case PTake => 4
    case PPop => 3
    case PUnlock(_) => 2
    case PDispatch(_) => 1
    case _ => 0
  }

  datatype Rank = Rank(major: nat, stale: nat, minor: nat)

  function RankOf(s: State): Rank {
    Rank(Sum(Major, s.threads), Sum(Stale(s.prepared, s.waiting), s.threads), Sum(Minor, s.threads))
  }

  /** Lexicographic order. */
  predicate Below(p: Rank, q: Rank) {
    || p.major < q.major
    || (p.major == q.major && p.stale < q.stale)
    || (p.major == q.major && p.stale == q.stale && p.minor < q.minor)
  }

  /** What a thread's own step does to its part in the rank; the counters move only as the first part drops. */
  lemma OwnAdvances(s: State, t: nat, th: Thread)
    requires th == PPop ==> s.handles != []
    requires !th.Idle? && !th.Suspended? && !th.PDispatch?
    ensures var (e, th', stale) := (Own(s, t, th), Then(s, th), Stale(s.prepared, s.waiting));
            || Major(th') < Major(th)
            || (&& Major(th') == Major(th) && e.prepared == s.prepared && e.waiting == s.waiting
                && (stale(th') < stale(th) || (stale(th') == stale(th) && Minor(th') < Minor(th))))
  {
  }

  lemma MajorEnds(w: nat)
    ensures Major(Ready) < Major(Suspended) && Major(Idle) < Major(PDispatch(w))
  {
  }

  /** Every step of what is under way lowers the rank. */
  lemma StepDrains(s: State, a: Action)
    requires Inv(s) && Enabled(s, a) && a.c.Go?
    ensures Below(RankOf(Step(s, a)), RankOf(s))
  {
    hide Own, Then, Sum, Major, Minor, Stale;
    var th := s.threads[a.t];
    NotEmpty(s, a.t);
    if Dispatches(s, a) {
      var mid := s.threads[a.t := Idle];
      SumUpdate(Major, s.threads, a.t, Idle);
      SumUpdate(Major, mid, th.waiter, Ready);
      MajorEnds(th.waiter);
    } else {
      OwnAdvances(s, a.t, th);
      SumUpdate(Major, s.threads, a.t, Then(s, th));
      SumUpdate(Stale(s.prepared, s.waiting), s.threads, a.t, Then(s, th));
      SumUpdate(Minor, s.threads, a.t, Then(s, th));
    }
  }

  // ---------------------------------------------------------------- the end

  ghost predicate CanMove(s: State) {
    exists t :: Enabled(s, Action(t, Go))
  }

  /** Nothing is under way but awaits that are suspended. */
  ghost predicate Over(s: State) {
    forall t | 0 <= t < |s.threads| :: s.threads[t] == Idle || s.threads[t] == Suspended
  }

  /** The path takes, one after the other, the steps that are picked. */
  ghost predicate Follows(path: seq<State>, pick: State -> nat) {
    && |path| > 0
    && forall i: nat | i + 1 < |path| ::
         Enabled(path[i], Action(pick(path[i]), Go)) && path[i + 1] == Step(path[i], Action(pick(path[i]), Go))
  }

  lemma {:induction false} RunsDry(s: State, pick: State -> nat) returns (path: seq<State>)
    requires Inv(s) && forall s | CanMove(s) :: Enabled(s, Action(pick(s), Go))
    ensures Follows(path, pick) && path[0] == s
    ensures Inv(path[|path| - 1]) && Over(path[|path| - 1])
    ensures path[|path| - 1].asked == s.asked && path[|path| - 1].offered == s.offered
    ensures |path[|path| - 1].threads| == |s.threads| && s.sent <= path[|path| - 1].sent
    decreases RankOf(s).major, RankOf(s).stale, RankOf(s).minor
  {
    hide Inv, RankOf, Own, Then, Step;
    if CanMove(s) {
      var a := Action(pick(s), Go);
      var s' := Step(s, a);
      assert Next(s, s');
      StepInv(s, s');
      StepDrains(s, a);
      NobodyAsks(s, a);
      var rest := RunsDry(s', pick);
      path := [s] + rest;
    } else {
      path := [s];
      if t :| 0 <= t < |s.threads| && s.threads[t] != Idle && s.threads[t] != Suspended {
        GoesOn(s, t);
      }
    }
  }

  lemma NobodyAsks(s: State, a: Action)
    requires Enabled(s, a) && a.c.Go?
    ensures Step(s, a).asked == s.asked && Step(s, a).offered == s.offered
    ensures |Step(s, a).threads| == |s.threads| && s.sent <= Step(s, a).sent
  {
  }

  /** What is left at the end: elements, or suspended consumers, or nothing. */
  lemma OneSideLeft(s: State)
    requires Inv(s) && Over(s)
    ensures s.elements == [] || forall t | 0 <= t < |s.threads| :: s.threads[t] == Idle
  {
    SumZero(Claims, s.threads);
    SumZero(Uncounted, s.threads);
    if t :| 0 <= t < |s.threads| && s.threads[t] != Idle {
      assert WaiterOk(s, t);
      SumZero(Carries(t), s.threads);
    }
  }

  /** All values that were sent are received, or all awaits are answered. */
  lemma AllServed(s: State)
    requires Inv(s) && Over(s)
    ensures |s.received| == if |s.sent| < |s.asked| then |s.sent| else |s.asked|
  {
    OneSideLeft(s);
    assert |Items(s.received)| == |s.received|;
    if s.elements != [] {
      SumZero(Awaits, s.threads);
    }
  }

  /** From every reachable state, if nobody awaits or emplaces any more, then however the threads are scheduled they
      come to rest after finitely many steps. What was sent by then is what was sent before and, after it, the
      values of the emplaces that were under way: all that was ever offered. As many values have been received as were
      sent, or as were asked for, whichever is less; and a consumer is left suspended exactly if it asked for one more
      than it got. */
  lemma Drains(run: seq<State>, pick: State -> nat) returns (path: seq<State>)
    requires Runs.IsRun(Init, Next, run) && forall s | CanMove(s) :: Enabled(s, Action(pick(s), Go))
    ensures Follows(path, pick) && path[0] == run[|run| - 1] && Over(path[|path| - 1])
    ensures var end := path[|path| - 1];
            && end.asked == path[0].asked && |end.threads| == |path[0].threads| && path[0].sent <= end.sent
            && (forall x: Item ::
                  && Sum(SameAs(x), end.sent) == Sum(SameAs(x), path[0].sent) + Sum(Coming(x), path[0].threads)
                  && Sum(SameAs(x), end.sent) == Sum(SameAs(x), path[0].offered))
            && |end.received| == (if |end.sent| < |end.asked| then |end.sent| else |end.asked|)
            && (forall w | 0 <= w < |end.threads| ::
                  Sum(SameAs(w), end.asked) == Sum(By(w), end.received) + AsNat(end.threads[w] == Suspended))
  {
    RunInv(run, |run| - 1);
    path := RunsDry(run[|run| - 1], pick);
    var end := path[|path| - 1];
    AllServed(end);
    forall x: Item
      ensures Sum(SameAs(x), end.sent) == Sum(SameAs(x), path[0].sent) + Sum(Coming(x), path[0].threads)
      ensures Sum(SameAs(x), end.sent) == Sum(SameAs(x), path[0].offered)
    {
      SumZero(Coming(x), end.threads);
      assert SentOk(end, x) && SentOk(path[0], x);
    }
    forall w | 0 <= w < |end.threads|
      ensures Sum(SameAs(w), end.asked) == Sum(By(w), end.received) + AsNat(end.threads[w] == Suspended)
    {
      assert Served(end, w);
    }
  }
}
