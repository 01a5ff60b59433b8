/** The end of the thread pool: once terminate() has been called all its threads leave, whatever the schedule. */
module PoolDrain {
  import opened Counting
  import opened Pool
  import Runs

  /** Steps that go on with what is under way: no call of the user, no wake-up nobody asked for, and no
      compare-and-exchange that fails although it finds what it expects. */
  predicate Internal(a: Action) {
    match a
    case Queue(_, q) => !q.Begin? && !q.Terminate? && q != LinkNode(true)
    case Poll(_, p) => p != GiveBack(true)
    case Delay(_, d) => !d.Spurious?
    case Clean(_, c) => !c.Start?
    case _ => true
  }

  // ---------------------------------------------------------------- a rank that every such step lowers

  /** How far a thread is from holding all the tasks it will take out of heads. */
  function Phase(n: nat): Thread -> nat {
    (th: Thread) =>
      match th.base
      case Polling => 4
      case PollLoad(_) => 3
      case PollTake(_) => 2
      case PollBack(_, _) => 1
      case CleanTake(i, _) => if i <= n then 2 * (n - i) + 1 else 1
      case CleanNext(i, _) => if i <= n then 2 * (n - i) else 0
      case CleanRun(i, _, _) => if i <= n then 2 * (n - i) else 0
      case _ => 0
  }

  /** How many tasks it will still link to a head, or run while cleaning up. */
  function Links(th: Thread): nat {
    AsNat(th.op.QueueTry? || th.op.QueuePick? || th.op.QueueLoad? || th.op.QueueLink?)
    + match th.base
      case Give(_, _, _) => 1 + |Tail(th.held)|
      case GiveLoad(_, _, _, _) => 1 + |th.held|
      case GiveLink(_, _, _, _, _) => 1 + |th.held|
      case CleanNext(_, _) => |th.held|
      case CleanRun(_, _, _) => |th.held|
      case _ => 0
  }

  function At(heads: seq<Ptr>, i: nat): Ptr {
    if i < |heads| then heads[i] else None
  }

  /** Its compare-and-exchange will fail, as the head has changed meanwhile. */
  function Stale(heads: seq<Ptr>): Thread -> nat {
    (th: Thread) =>
      AsNat(th.op.QueueLink? && th.op.seen != At(heads, th.op.head))
      + AsNat(th.base.GiveLink? && th.base.seen != At(heads, th.base.i))
  }

  /** How many other steps lie before it. */
  function Distance(n: nat): Thread -> nat {
    (th: Thread) =>
      (match th.op
       case QueueTry(_, _, k) => if k < DUPLICATES then 10 - k else 6
       case QueuePick(_, _) => 5
       case QueueLoad(_, _, _, _) => 4
       case QueueLink(_, _, _, _, _) => 3
       case Linked(_) => 2
       case Notify => 1
       case NotifyAll => 1
       case NoOp => 0)
      + match th.base
        case Give(_, _, _) => 7
        case GiveLoad(_, _, _, _) => 6
        case GiveLink(_, _, _, _, _) => 5
        case GiveCheck(_, _) => 4
        case GiveNotify(_) => 3
        case Running(_) => 2
        case Out => 1
        case DelayCheck => 2
        case DelayOut => 2
        case DelayTerm => 3
        case Woken => 3
        case Asleep => 4
        case DelayFetch(j) => if j <= n then n - j + 4 else 4
        case DelayInc => n + 5
        case DelayLock => n + 6
        case CleanRun(_, _, _) => 1
        case _ => 0
  }

  datatype Rank = Rank(phase: nat, links: nat, stale: nat, distance: nat)

  function RankOf(s: State): Rank {
    Rank(Sum(Phase(|s.heads|), s.threads), Sum(Links, s.threads), Sum(Stale(s.heads), s.threads),
         Sum(Distance(|s.heads|), s.threads))
  }

  /** Lexicographic order. */
  predicate Below(p: Rank, q: Rank) {
    || p.phase < q.phase
    || (p.phase == q.phase && p.links < q.links)
    || (p.phase == q.phase && p.links == q.links && p.stale < q.stale)
    || (p.phase == q.phase && p.links == q.links && p.stale == q.stale && p.distance < q.distance)
  }

  /** The step lowers the acting thread's part in the rank. */
  predicate Advances(s: State, a: Action)
    requires Enabled(s, a)
  {
    var (e, th, n) := (Eff(s, a), s.threads[a.t], |s.heads|);
    || Phase(n)(e.th) < Phase(n)(th)
    || (Phase(n)(e.th) == Phase(n)(th) && Links(e.th) < Links(th))
    || (&& Phase(n)(e.th) == Phase(n)(th) && Links(e.th) == Links(th) && e.heads == s.heads
        && (|| Stale(s.heads)(e.th) < Stale(s.heads)(th)
            || (Stale(s.heads)(e.th) == Stale(s.heads)(th) && Distance(n)(e.th) < Distance(n)(th))))
  }

  lemma QueueAdvances(s: State, t: nat, q: QueueAct)
    requires QueueEnabled(s, t, q) && Internal(Queue(t, q)) && |s.heads| == |s.chains|
    requires ThreadOK(s.threads[t], |s.heads|, s.size, t < s.size)
    ensures Advances(s, Queue(t, q))
  {
    hide PollStep, DelayStep, CleanStep;
  }

  lemma PollAdvances(s: State, t: nat, p: PollAct)
    requires PollEnabled(s, t, p) && Internal(Poll(t, p)) && |s.heads| == |s.chains| && s.shared.terminated
    requires ThreadOK(s.threads[t], |s.heads|, s.size, t < s.size) && HeldFits(s.threads[t])
    ensures Advances(s, Poll(t, p))
  {
    hide QueueStep, DelayStep, CleanStep;
  }

  lemma DelayAdvances(s: State, t: nat, d: DelayAct)
    requires DelayEnabled(s, t, d) && Internal(Delay(t, d)) && s.shared.terminated
    requires ThreadOK(s.threads[t], |s.heads|, s.size, t < s.size)
    ensures Advances(s, Delay(t, d))
  {
    hide QueueStep, PollStep, CleanStep;
  }

  lemma CleanAdvances(s: State, t: nat, c: CleanAct)
    requires CleanEnabled(s, t, c) && Internal(Clean(t, c)) && |s.heads| == |s.chains|
    requires ThreadOK(s.threads[t], |s.heads|, s.size, t < s.size) && HeldFits(s.threads[t])
    ensures Advances(s, Clean(t, c))
  {
    hide QueueStep, PollStep, DelayStep;
  }

  lemma StepAdvances(s: State, a: Action)
    requires Shape(s) && Enabled(s, a) && Internal(a) && s.shared.terminated && HeldFits(s.threads[a.t])
    ensures Advances(s, a)
  {
    assert ThreadOK(s.threads[a.t], |s.heads|, s.size, a.t < s.size);
    match a
    case Queue(t, q) => QueueAdvances(s, t, q);
    case Poll(t, p) => PollAdvances(s, t, p);
    case Delay(t, d) => DelayAdvances(s, t, d);
    case Clean(t, c) => CleanAdvances(s, t, c);
    case _ =>
  }

  lemma WakeEffect(th: Thread, heads: seq<Ptr>, n: nat)
    ensures Phase(n)(Wake(th)) == Phase(n)(th) && Links(Wake(th)) == Links(th)
    ensures Stale(heads)(Wake(th)) == Stale(heads)(th) && Distance(n)(Wake(th)) <= Distance(n)(th)
  {
  }

  lemma EachWoken(s: State, a: Action, th: Thread, u: nat)
    requires a.t < |s.threads| && u < |s.threads|
    ensures var (after, moved) := (Threads(s, a, th), s.threads[a.t := th]);
            |after| == |s.threads| && (after[u] == moved[u] || after[u] == Wake(moved[u]))
  {
  }

  /** Waking somebody brings him nearer to the end, too. */
  lemma WakeAdvances(s: State, a: Action, th: Thread, heads: seq<Ptr>, n: nat)
    requires a.t < |s.threads|
    ensures var (after, moved) := (Threads(s, a, th), s.threads[a.t := th]);
            && Sum(Phase(n), after) == Sum(Phase(n), moved) && Sum(Links, after) == Sum(Links, moved)
            && Sum(Stale(heads), after) == Sum(Stale(heads), moved) && Sum(Distance(n), after) <= Sum(Distance(n), moved)
  {
    hide Threads, Phase, Links, Stale, Distance, Wake, Sum;
    var after, moved := Threads(s, a, th), s.threads[a.t := th];
    EachWoken(s, a, th, a.t);
    forall u | 0 <= u < |after|
      ensures Phase(n)(after[u]) == Phase(n)(moved[u]) && Links(after[u]) == Links(moved[u])
      ensures Stale(heads)(after[u]) == Stale(heads)(moved[u]) && Distance(n)(after[u]) <= Distance(n)(moved[u])
    {
      EachWoken(s, a, th, u);
      WakeEffect(moved[u], heads, n);
    }
    SumSame(Phase(n), after, Phase(n), moved);
    SumSame(Links, after, Links, moved);
    SumSame(Stale(heads), after, Stale(heads), moved);
    SumMapped(Distance(n), after, moved);
  }

  lemma {:induction false} SumMapped<T>(w: T -> nat, s: seq<T>, t: seq<T>)
    requires |s| == |t| && forall i | 0 <= i < |s| :: w(s[i]) <= w(t[i])
    ensures Sum(w, s) <= Sum(w, t)
  {
    if s != [] {
      SumMapped(w, s[1..], t[1..]);
    }
  }

  /** Every internal step lowers the rank. */
  lemma StepDrains(s: State, a: Action)
    requires Inv(s) && Enabled(s, a) && Internal(a) && s.shared.terminated
    ensures Below(RankOf(Step(s, a)), RankOf(s))
  {
    hide QueueStep, PollStep, DelayStep, CleanStep, Sum, Phase, Links, Stale, Distance, Tied;
    var (e, n) := (Eff(s, a), |s.heads|);
    assert HeldOK(s.next, s.threads[a.t]) && ThreadOK(s.threads[a.t], |s.heads|, s.size, a.t < s.size);
    HeldOKFits(s.next, s.threads[a.t]);
    StepAdvances(s, a);
    EffShape(s, a);
    WakeAdvances(s, a, e.th, e.heads, n);
    SumUpdate(Phase(n), s.threads, a.t, e.th);
    SumUpdate(Links, s.threads, a.t, e.th);
    SumUpdate(Stale(e.heads), s.threads, a.t, e.th);
    SumUpdate(Distance(n), s.threads, a.t, e.th);
  }

  // ---------------------------------------------------------------- no step is missing

  ghost predicate CanMove(s: State) {
    exists a :: Enabled(s, a) && Internal(a)
  }

  /** All threads of the pool have left their loop, and no other thread is inside a call. */
  ghost predicate Over(s: State) {
    forall t | 0 <= t < |s.threads| :: Idle(s, t)
  }

  /** A thread that need not wait for the mutex can go on. */
  lemma Own(s: State, t: nat) returns (a: Action)
    requires t < |s.threads| && s.shared.terminated && ThreadOK(s.threads[t], |s.heads|, s.size, t < s.size)
    requires !Idle(s, t) && !s.threads[t].base.Asleep? && (s.shared.mutex.None? || HoldsMutex(s.threads[t].base))
    ensures Enabled(s, a) && Internal(a)
  {
    var b := s.threads[t].base;
    match s.threads[t].op
    case QueueTry(_, _, _) => a := Queue(t, TrySlot);
    case QueuePick(_, _) => a := Queue(t, Pick(0));
    case QueueLoad(_, _, _, _) => a := Queue(t, LoadHead);
    case QueueLink(_, _, _, _, _) => a := Queue(t, LinkNode(false));
    case Linked(_) => a := Queue(t, ReadWaiting);
    case Notify => a := Wakes(s, t);
    case NotifyAll => a := WakeAll(t);
    case NoOp =>
      match b
      case Polling => a := Poll(t, FindNone);
      case PollLoad(_) => a := Poll(t, Load);
      case PollTake(_) => a := Poll(t, Take);
      case PollBack(_, _) => a := Poll(t, PutBack);
      case Give(_, _, _) => a := Poll(t, ReadNext);
      case GiveLoad(_, _, _, _) => a := Poll(t, Reload);
      case GiveLink(_, _, _, _, _) => a := Poll(t, GiveBack(false));
      case GiveCheck(_, _) => a := Poll(t, ReadWaitingToo);
      case GiveNotify(_) => a := Wakes(s, t);
      case Running(_) => a := Poll(t, Finish);
      case Out => a := Delay(t, Exit);
      case DelayCheck => a := Delay(t, CheckTerm);
      case DelayLock => a := Delay(t, Lock);
      case DelayInc => a := Delay(t, Increment);
      case DelayFetch(_) => a := Delay(t, FetchOne);
      case DelayTerm => a := Delay(t, Sleep);
      case Woken => a := Delay(t, Relock);
      case DelayOut => a := Delay(t, Leave);
      case CleanTake(_, _) => a := Clean(t, TakeChain);
      case CleanNext(_, _) => a := Clean(t, RunNext);
      case CleanRun(_, _, _) => a := Clean(t, Return);
  }

  lemma Wakes(s: State, t: nat) returns (a: Action)
    requires CanWake(s, t)
    ensures Enabled(s, a) && Internal(a)
  {
    if u :| 0 <= u < |s.threads| && s.threads[u].base.Asleep? {
      a := WakeOne(t, u);
    } else {
      a := WakeNobody(t);
    }
  }

  /** As long as a thread has not left some internal step is possible. */
  lemma MovesOn(s: State)
    requires Inv(s) && s.shared.terminated && !Over(s)
    ensures CanMove(s)
  {
    var t := if s.shared.mutex.Some? then s.shared.mutex.value else Busy(s);
    assert ThreadOK(s.threads[t], |s.heads|, s.size, t < s.size);
    var a := Own(s, t);
  }

  /** With the mutex free there is a busy thread that is awake. */
  ghost function Busy(s: State): (t: nat)
    requires Inv(s) && s.shared.terminated && !Over(s)
    ensures t < |s.threads| && !Idle(s, t) && !s.threads[t].base.Asleep?
  {
    if NobodySleeps(s) then (var t :| 0 <= t < |s.threads| && !Idle(s, t); t)
    else
      var t :| 0 <= t < |s.threads| && s.threads[t].op.NotifyAll?;
      assert ThreadOK(s.threads[t], |s.heads|, s.size, t < s.size);
      t
  }

  /** The path takes, one after the other, the internal steps that are picked. */
  ghost predicate Follows(path: seq<State>, pick: State -> Action) {
    && |path| > 0
    && forall i: nat | i + 1 < |path| ::
         Enabled(path[i], pick(path[i])) && Internal(pick(path[i])) && path[i + 1] == Step(path[i], pick(path[i]))
  }

  lemma StaysTerminated(s: State, a: Action)
    requires Enabled(s, a) && s.shared.terminated
    ensures Step(s, a).shared.terminated
  {
    if !a.Delay? {
      OutsideDelay(s, a);
    }
  }

  lemma {:induction false} RunsDry(s: State, pick: State -> Action) returns (path: seq<State>)
    requires Inv(s) && s.shared.terminated && forall s | CanMove(s) :: Enabled(s, pick(s)) && Internal(pick(s))
    ensures Follows(path, pick) && path[0] == s && Over(path[|path| - 1])
    decreases RankOf(s).phase, RankOf(s).links, RankOf(s).stale, RankOf(s).distance
  {
    hide Inv, Over, CanMove, RankOf, Eff;
    if CanMove(s) {
      var s' := Step(s, pick(s));
      assert Next(s, s');
      StepInv(s, s');
      StaysTerminated(s, pick(s));
      StepDrains(s, pick(s));
      var rest := RunsDry(s', pick);
      path := [s] + rest;
    } else {
      path := [s];
      if !Over(s) {
        MovesOn(s);
      }
    }
  }

  /** After terminate(), if the user calls nothing more, then however the threads are scheduled each
      of them leaves after finitely many steps, sleepers included: join() returns from waiting. */
  lemma AllLeave(run: seq<State>, pick: State -> Action) returns (path: seq<State>)
    requires Runs.IsRun(Init, Next, run) && run[|run| - 1].shared.terminated
    requires forall s | CanMove(s) :: Enabled(s, pick(s)) && Internal(pick(s))
    ensures Follows(path, pick) && path[0] == run[|run| - 1]
    ensures var end := path[|path| - 1];
            forall t | 0 <= t < |end.threads| :: end.threads[t].op.NoOp? && (t < end.size ==> end.threads[t].base.Exited?)
  {
    RunInv(run, |run| - 1);
    path := RunsDry(run[|run| - 1], pick);
    var end := path[|path| - 1];
    forall t | 0 <= t < |end.threads| ensures end.threads[t].op.NoOp? && (t < end.size ==> end.threads[t].base.Exited?) {
      assert Idle(end, t);
    }
  }
}
