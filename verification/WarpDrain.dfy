/** A warp left alone drains: once the user calls nothing more, every way of going on is finite and
    ends with nothing in flight. */
module WarpDrain {
  import opened Counting
  import opened Warp
  import Runs

  /** Steps that end what is under way, rather than calls by which the user adds something. Leaving a
      guard, a task or a parallel task counts as ending it; giving up the warp inside a task does not. */
  predicate Internal(s: State, a: Action)
    requires Enabled(s, a)
  {
    && !a.PostExternal? && !a.Acquire? && !a.Post? && !a.Routine? && !a.Suspend? && !a.Resume? && !a.CallParallel?
    && (a.Release? ==> !s.threads[a.t].base.Body?)
  }

  // ---------------------------------------------------------------- a rank that every such step lowers

  /** What the user has brought in and is not finished with. */
  function Brought(th: Thread): nat {
    (match th.base
     case External(_) => 4
     case Parallel(_) => 3
     case Body(_) => 1
     case Away(_) => 1
     case Guard => 1
     case _ => 0)
    + (match th.op
       case Fork(_) => 5
       case Reset => 1
       case _ => 0)
  }

  function Stored(b: seq<Task>): nat {
    2 * |b|
  }

  /** The thread may yet store pending because it finds the warp suspended. */
  function Defers(suspended: bool): Thread -> nat {
    (th: Thread) => AsNat(th.base.ExecDefer? || (suspended && (th.base.ExecPreempt? || th.base.ExecRecheck?)))
  }

  /** Executions and flushes under way. */
  function Tokens(th: Thread): nat {
    AsNat(th.base.ExecCheck? || th.base.ExecPreempt? || th.base.ExecRecheck? || th.base.ExecDefer? || th.base.ExecMark?
      || th.base.Scan? || th.base.ExecYield?)
    + AsNat(th.op.Swap? || th.op.Flush? || th.op.Submit?)
  }

  function Rest(i: nat, n: nat): nat {
    if i < n then n - i else 0
  }

  /** How far a token is from its end. While the flag says executing, that is the end of its own
      execution; before, it is the point where it makes the flag say so. */
  function Distance(executing: bool, n: nat): Thread -> nat {
    if executing then
      (th: Thread) =>
        (match th.base
         case ExecCheck => n + 18
         case ExecPreempt => n + 17
         case ExecRecheck => n + 16
         case ExecMark => n + 15
         case ExecDefer => n + 15
         case Scan(i) => Rest(i, n) + 2
         case ExecYield => 1
         case _ => 0)
        + (if th.op.Submit? then n + 20 else 0)
    else
      (th: Thread) =>
        (match th.base
         case Scan(i) => Rest(i, n) + 12
         case ExecYield => 11
         case ExecCheck => 6
         case ExecPreempt => 5
         case ExecRecheck => 4
         case ExecMark => 3
         case ExecDefer => 3
         case _ => 0)
        + (match th.op
           case Swap => 10
           case Flush => 9
           case Submit => 8
           case _ => 0)
  }

  function Queued(executing: bool, n: nat): nat {
    if executing then n + 19 else 7
  }

  datatype Rank = Rank(brought: nat, defers: nat, tokens: nat, idle: nat, distance: nat)

  function RankOf(s: State): Rank {
    var x, n := s.atom.queueing.Executing?, |s.store.buffers|;
    Rank(5 * |s.pool.externals| + 4 * |s.pool.forks| + Sum(Stored, s.store.buffers) + Sum(Brought, s.threads),
         Sum(Defers(s.atom.suspend > 0), s.threads),
         s.pool.executes + Sum(Tokens, s.threads),
         AsNat(!x),
         s.pool.executes * Queued(x, n) + Sum(Distance(x, n), s.threads))
  }

  /** Lexicographic order. */
  predicate Below(p: Rank, q: Rank) {
    || p.brought < q.brought
    || (p.brought == q.brought && p.defers < q.defers)
    || (p.brought == q.brought && p.defers == q.defers && p.tokens < q.tokens)
    || (p.brought == q.brought && p.defers == q.defers && p.tokens == q.tokens && p.idle < q.idle)
    || (p.brought == q.brought && p.defers == q.defers && p.tokens == q.tokens && p.idle == q.idle && p.distance < q.distance)
  }

  /** The steps that use up something the user brought in. */
  predicate UsesUp(s: State, a: Action)
    requires Enabled(s, a)
  {
    || a.TakeExternal? || a.TakeFork? || a.ExternalPush? || a.Finish? || a.DoFork? || a.EndParallel? || a.DoReset?
    || (a.Release? && s.threads[a.t].base.Guard?)
    || (a.Look? && StepThread(s, a).base.Body?)
  }

  lemma PoolBrought(s: State, a: Action)
    requires Enabled(s, a) && Internal(s, a)
    ensures var p := StepPool(s, a);
            5 * |p.externals| + 4 * |p.forks| + (if a.TakeExternal? then 5 else 0) + (if a.TakeFork? then 4 else 0)
            == 5 * |s.pool.externals| + 4 * |s.pool.forks| + (if a.DoFork? then 4 else 0)
  {
    if a.TakeExternal? {
      assert multiset{a.task} <= s.pool.externals;
    } else if a.TakeFork? {
      assert multiset{a.task} <= s.pool.forks;
    }
  }

  lemma StoreBrought(s: State, a: Action)
    requires Enabled(s, a) && Internal(s, a)
    ensures |StepStorage(s, a).buffers| == |s.store.buffers|
    ensures Sum(Stored, StepStorage(s, a).buffers) + (if a.Look? && StepThread(s, a).base.Body? then 2 else 0)
            <= Sum(Stored, s.store.buffers) + (if a.ExternalPush? then 2 else 0)
  {
    var b := s.store.buffers;
    if a.ExternalPush? {
      var k := Slot(s, a.t);
      if k < |b| {
        SumUpdate(Stored, b, k, b[k] + [s.threads[a.t].base.task]);
      }
    } else if a.Look? && s.threads[a.t].base.next < |b| && b[s.threads[a.t].base.next] != [] {
      var k := s.threads[a.t].base.next;
      SumUpdate(Stored, b, k, b[k][1..]);
    }
  }

  lemma ThreadBrought(s: State, a: Action)
    requires Enabled(s, a) && Internal(s, a)
    ensures Brought(StepThread(s, a)) + (if a.ExternalPush? then 3 else if a.DoFork? then 5 else if UsesUp(s, a) then 1 else 0)
            <= Brought(s.threads[a.t])
               + (if a.TakeExternal? then 5 else if a.TakeFork? then 4 else if a.Look? && UsesUp(s, a) then 2 else 0)
  {
  }

  /** What was brought in never grows, and shrinks where it is used up. */
  lemma BroughtEffect(s: State, a: Action)
    requires Enabled(s, a) && Internal(s, a)
    ensures RankOf(Step(s, a)).brought + AsNat(UsesUp(s, a)) <= RankOf(s).brought
  {
    PoolBrought(s, a);
    StoreBrought(s, a);
    ThreadBrought(s, a);
    SumUpdate(Brought, s.threads, a.t, StepThread(s, a));
    hide StepPool, StepStorage, StepThread, Sum, Brought;
  }

  /** The step lowers what comes after `brought` in the rank, as far as the acting thread accounts for it. */
  predicate Advances(s: State, a: Action)
    requires Enabled(s, a) && Internal(s, a)
  {
    var (th, th', e, e') := (s.threads[a.t], StepThread(s, a), s.pool.executes, StepPool(s, a).executes);
    var (x, x', n) := (s.atom.queueing.Executing?, StepAtomics(s, a).queueing.Executing?, |s.store.buffers|);
    var d, d' := Defers(s.atom.suspend > 0)(th), Defers(s.atom.suspend > 0)(th');
    var tokens, tokens' := e + Tokens(th), e' + Tokens(th');
    && StepAtomics(s, a).suspend == s.atom.suspend && (e' == e || e' == e + 1 || e' == e - 1)
    && (|| d' < d
        || (d' == d && tokens' < tokens)
        || (d' == d && tokens' == tokens && !x && x')
        || (d' == d && tokens' == tokens && x == x'
            && (e' - e) * Queued(x, n) + Distance(x, n)(th') < Distance(x, n)(th)))
  }

  /** The other steps move one token nearer to its end, or end it, or make the flag say executing. */
  lemma MoveEffect(s: State, a: Action)
    requires Enabled(s, a) && Internal(s, a) && !UsesUp(s, a)
    ensures Advances(s, a)
  {
    hide Advances, StepStorage, StepThread, StepPool, StepAtomics, Brought, Sum;
    if Executes(a) {
      ExecuteAdvances(s, a);
    } else {
      HelperAdvances(s, a);
    }
  }

  /** A step of execute(). */
  predicate Executes(a: Action) {
    a.Check? || a.Preempt? || a.Recheck? || a.Defer? || a.Mark? || a.Look? || a.Release?
  }

  lemma ExecuteAdvances(s: State, a: Action)
    requires Enabled(s, a) && Internal(s, a) && !UsesUp(s, a) && Executes(a)
    ensures Advances(s, a)
  {
    hide StepStorage, Brought, Sum;
  }

  lemma HelperAdvances(s: State, a: Action)
    requires Enabled(s, a) && Internal(s, a) && !UsesUp(s, a) && !Executes(a)
    ensures Advances(s, a)
  {
    hide StepStorage, Brought, Sum;
  }

  lemma Share(e: nat, e': nat, q: nat)
    requires e' == e || e' == e + 1 || e' == e - 1
    ensures e' * q == e * q + (e' - e) * q
  {
  }

  /** Every internal step lowers the rank. */
  lemma StepDrains(s: State, a: Action)
    requires Enabled(s, a) && Internal(s, a)
    ensures Below(RankOf(Step(s, a)), RankOf(s))
  {
    BroughtEffect(s, a);
    if !UsesUp(s, a) {
      StoreBrought(s, a);
      MoveEffect(s, a);
      Combine(s, a);
    }
  }

  lemma Combine(s: State, a: Action)
    requires Enabled(s, a) && Internal(s, a)
    requires |StepStorage(s, a).buffers| == |s.store.buffers| && RankOf(Step(s, a)).brought <= RankOf(s).brought
    requires Advances(s, a)
    ensures Below(RankOf(Step(s, a)), RankOf(s))
  {
    hide StepStorage, StepThread, StepPool, StepAtomics, Sum, Brought, Tokens, Distance, Queued, Defers, Stored;
    var (x, n) := (s.atom.queueing.Executing?, |s.store.buffers|);
    SumUpdate(Defers(s.atom.suspend > 0), s.threads, a.t, StepThread(s, a));
    SumUpdate(Tokens, s.threads, a.t, StepThread(s, a));
    SumUpdate(Distance(x, n), s.threads, a.t, StepThread(s, a));
    Share(s.pool.executes, StepPool(s, a).executes, Queued(x, n));
  }

  // ---------------------------------------------------------------- no step is missing

  ghost predicate CanMove(s: State) {
    exists a :: Enabled(s, a) && Internal(s, a)
  }

  /** Nothing of the warp is in flight, in the threads or in the pool. */
  ghost predicate Over(s: State) {
    Quiet(s) && s.pool.externals == multiset{} && s.pool.forks == multiset{}
  }

  /** As long as something is in flight some internal step is possible. */
  lemma MovesOn(s: State)
    requires 0 < s.workers <= |s.threads| && !Over(s)
    ensures CanMove(s)
  {
    if t :| 0 <= t < |s.threads| && s.threads[t] != Thread(Free, NoOp) {
      var a := Own(s, t);
      assert Enabled(s, a) && Internal(s, a);
    } else {
      var a :=
        if s.pool.executes > 0 then TakeExecute(0)
        else if s.pool.externals != multiset{} then (var task :| task in s.pool.externals; TakeExternal(0, task))
        else (var task :| task in s.pool.forks; TakeFork(0, task));
      assert Enabled(s, a) && Internal(s, a);
    }
  }

  /** The step a busy thread can take. */
  function Own(s: State, t: nat): (a: Action)
    requires t < |s.threads| && s.threads[t] != Thread(Free, NoOp)
    ensures Enabled(s, a) && Internal(s, a)
  {
    match s.threads[t].op
    case Swap => DoSwap(t)
    case Flush => DoFlush(t)
    case Submit => DoSubmit(t)
    case Reset => DoReset(t)
    case Fork(_) => DoFork(t)
    case NoOp =>
      match s.threads[t].base
      case External(_) => ExternalPush(t)
      case ExecCheck => Check(t)
      case ExecPreempt => Preempt(t)
      case ExecRecheck => Recheck(t)
      case ExecDefer => Defer(t)
      case ExecMark => Mark(t)
      case Scan(_) => Look(t)
      case Body(_) => Finish(t)
      case Away(_) => Finish(t)
      case ExecYield => Release(t)
      case Guard => Release(t)
      case Parallel(_) => EndParallel(t)
  }

  /** The path takes, one after the other, the internal steps that are picked. */
  ghost predicate Follows(path: seq<State>, pick: State -> Action) {
    && |path| > 0
    && forall i: nat | i + 1 < |path| ::
         Enabled(path[i], pick(path[i])) && Internal(path[i], pick(path[i])) && path[i + 1] == Step(path[i], pick(path[i]))
  }

  /** Whatever enabled internal step is picked each time, after finitely many none is left. */
  lemma {:induction false} RunsDry(s: State, pick: State -> Action) returns (path: seq<State>)
    requires forall s | CanMove(s) :: Enabled(s, pick(s)) && Internal(s, pick(s))
    ensures Follows(path, pick) && path[0] == s && !CanMove(path[|path| - 1])
    decreases RankOf(s).brought, RankOf(s).defers, RankOf(s).tokens, RankOf(s).idle, RankOf(s).distance
  {
    if CanMove(s) {
      StepDrains(s, pick(s));
      var rest := RunsDry(Step(s, pick(s)), pick);
      path := [s] + rest;
    } else {
      path := [s];
    }
  }

  /** What was pushed later comes behind what was pushed before, in the same buffers. */
  ghost predicate Extends(before: seq<seq<Task>>, after: seq<seq<Task>>) {
    |before| == |after| && forall k | 0 <= k < |before| :: before[k] <= after[k]
  }

  /** Internal steps queue nothing, and push behind what was pushed before. */
  lemma PushesBehind(s: State, a: Action)
    requires Shape(s) && Enabled(s, a) && Internal(s, a)
    ensures Extends(s.store.pushed, Step(s, a).store.pushed)
    ensures Step(s, a).calls == s.calls.(resumed := Step(s, a).calls.resumed)
  {
  }

  /** Internal steps leave the user's own suspensions and the pool's size alone. */
  lemma {:induction false} Untouched(path: seq<State>, pick: State -> Action, k: nat)
    requires Follows(path, pick) && k < |path|
    ensures path[k].calls.suspends == path[0].calls.suspends && path[k].workers == path[0].workers
  {
    if k > 0 {
      Untouched(path, pick, k - 1);
      assert path[k - 1 + 1] == Step(path[k - 1], pick(path[k - 1]));
    }
  }

  lemma {:induction false} ComeIn(path: seq<State>, pick: State -> Action, k: nat)
    requires Follows(path, pick) && k < |path| && Shape(path[0])
    ensures Shape(path[k]) && Extends(path[0].store.pushed, path[k].store.pushed)
    ensures path[k].calls.queued == path[0].calls.queued && path[k].calls.parallel == path[0].calls.parallel
  {
    hide Shape, Step, StepStorage;
    if k > 0 {
      var (s, a) := (path[k - 1], pick(path[k - 1]));
      ComeIn(path, pick, k - 1);
      assert path[k - 1 + 1] == Step(s, a);
      StepShape(s, a);
      PushesBehind(s, a);
    }
  }

  /** No task is ever forgotten: from any reachable state with no suspension of the user's left open,
      if the user adds nothing more, then however the threads are scheduled they come to an end. Every
      task ever queued has then been taken out and run, those that were still to come in included, and every parallel
      one has resumed the warp. */
  lemma Drains(run: seq<State>, pick: State -> Action) returns (path: seq<State>)
    requires Runs.IsRun(Init, Warp.Next, run) && run[|run| - 1].calls.suspends == 0 && run[|run| - 1].workers > 0
    requires forall s | CanMove(s) :: Enabled(s, pick(s)) && Internal(s, pick(s))
    ensures Follows(path, pick) && path[0] == run[|run| - 1]
    ensures var (s, end) := (path[0], path[|path| - 1]);
            && Over(end) && end.atom.suspend == 0 && end.store.popped == end.store.pushed
            && Extends(s.store.pushed, end.store.pushed)
            && forall x: Task :: Count(x, end.store.popped) == s.calls.queued[x] && end.calls.resumed[x] == s.calls.parallel[x]
  {
    path := RunsDry(run[|run| - 1], pick);
    var end := path[|path| - 1];
    Untouched(path, pick, |path| - 1);
    Steps(path, pick);
    hide Init, Warp.Next, Step, Enabled, Internal, Follows, Over, CanMove;
    var whole := Runs.Join(Init, Warp.Next, run, path);
    Ends(whole);
    RunInv(run, |run| - 1);
    ComeIn(path, pick, |path| - 1);
    forall x: Task
      ensures Count(x, end.store.popped) == path[0].calls.queued[x] && end.calls.resumed[x] == path[0].calls.parallel[x]
    {
      CallsKept(whole, |whole| - 1, x);
      SumZero(BringsIn(x), end.threads);
      SumZero(Reads(x), end.threads);
    }
  }

  lemma Steps(path: seq<State>, pick: State -> Action)
    requires Follows(path, pick)
    ensures |path| > 0 && forall i: nat | i + 1 < |path| :: Warp.Next(path[i], path[i + 1])
  {
    forall i: nat | i + 1 < |path| ensures Warp.Next(path[i], path[i + 1]) {
      assert Enabled(path[i], pick(path[i]));
    }
  }

  lemma Ends(run: seq<State>)
    requires Runs.IsRun(Init, Warp.Next, run)
    requires var s := run[|run| - 1]; !CanMove(s) && s.calls.suspends == 0 && s.workers > 0
    ensures var s := run[|run| - 1]; Over(s) && s.atom.suspend == 0 && s.store.popped == s.store.pushed
  {
    var k := |run| - 1;
    RunInv(run, k);
    if !Over(run[k]) {
      MovesOn(run[k]);
    }
    SumZero(ForkWeight, run[k].threads);
    RestMeansDone(run, k);
  }
}
