/** The sleep of the thread pool: when all its threads can be asleep beside a waiting task. */
module PoolSleep {
  import opened Counting
  import opened Pool
  import Runs

  /** No queue() call asks for a priority beyond p. */
  predicate UpTo(a: Action, p: nat) {
    a.Queue? && a.q.Begin? ==> a.q.prio <= p
  }

  ghost function NextUpTo(p: nat): (State, State) -> bool {
    (s: State, s': State) => exists a :: Enabled(s, a) && UpTo(a, p) && s' == Step(s, a)
  }

  /** All threads of the pool sleep although a task waits, and nobody is about to wake them. */
  ghost predicate Deadlock(s: State) {
    && !s.shared.terminated && s.size <= |s.threads|
    && (forall t | 0 <= t < s.size :: s.threads[t].base.Asleep?)
    && (exists i | 0 <= i < |s.heads| :: s.heads[i].Some?)
    && (forall t | 0 <= t < |s.threads| :: !Owes(s.threads[t]))
  }

  // ---------------------------------------------------------------- who attends to a filled head

  /** The thread will look at head i again before it sleeps. */
  predicate Awake(th: Thread, i: nat) {
    && !(th.base.DelayFetch? && th.base.j > i)
    && !th.base.DelayTerm? && !th.base.Asleep? && !th.base.Exited?
  }

  /** The thread still has to decide about a wake-up, or to do it. */
  predicate Owes(th: Thread) {
    th.op.Linked? || th.op.Notify?
  }

  ghost predicate Attended(s: State, i: nat)
    requires s.size <= |s.threads|
  {
    || (exists u | 0 <= u < s.size :: Awake(s.threads[u], i))
    || (exists u | 0 <= u < |s.threads| :: Owes(s.threads[u]))
  }

  ghost predicate SleepOK(s: State)
    requires s.size <= |s.threads|
  {
    !s.shared.terminated ==> forall i | 0 <= i < |s.heads| && s.heads[i].Some? :: Attended(s, i)
  }

  /** A queue() call that may end with a wake-up asks for a priority of at most p. */
  predicate Modest(th: Thread, p: nat) {
    match th.op
    case QueueTry(_, prio, _) => prio <= p
    case QueuePick(_, prio) => prio <= p
    case QueueLoad(_, _, prio, loud) => loud ==> prio <= p
    case QueueLink(_, _, _, prio, loud) => loud ==> prio <= p
    case Linked(prio) => prio <= p
    case _ => true
  }

  ghost predicate Roomy(s: State, p: nat) {
    && Inv(s) && Clamp(s, p) + s.limit < s.size
    && (forall t | 0 <= t < |s.threads| :: Modest(s.threads[t], Clamp(s, p)))
    && SleepOK(s)
  }

  lemma ModestQueue(s: State, t: nat, q: QueueAct, p: nat)
    requires QueueEnabled(s, t, q) && UpTo(Queue(t, q), p) && Modest(s.threads[t], Clamp(s, p))
    ensures Modest(QueueStep(s, t, q).th, Clamp(s, p))
  {
  }

  lemma ModestEffect(s: State, a: Action, p: nat)
    requires Enabled(s, a) && UpTo(a, p) && Modest(s.threads[a.t], Clamp(s, p))
    ensures Modest(Eff(s, a).th, Clamp(s, p))
  {
    match a
    case Queue(t, q) => ModestQueue(s, t, q, p);
    case Poll(t, d) => PollOutside(s, t, d);
    case _ =>
  }

  lemma StepModest(s: State, a: Action, p: nat)
    requires Shape(s) && Enabled(s, a) && UpTo(a, p)
    requires forall t | 0 <= t < |s.threads| :: Modest(s.threads[t], Clamp(s, p))
    ensures forall t | 0 <= t < |Step(s, a).threads| :: Modest(Step(s, a).threads[t], Clamp(s, p))
  {
    ModestEffect(s, a, p);
    Others(s, a);
    forall t | 0 <= t < |Step(s, a).threads| ensures Modest(Step(s, a).threads[t], Clamp(s, p)) {
      assert Modest(s.threads[t], Clamp(s, p));
    }
  }

  /** The threads after a step. */
  lemma Others(s: State, a: Action)
    requires Shape(s) && Enabled(s, a)
    ensures var after := Step(s, a).threads;
            && |after| == |s.threads| && after[a.t] == Eff(s, a).th && |Eff(s, a).heads| == |s.heads|
            && ThreadOK(s.threads[a.t], |s.heads|, s.size, a.t < s.size)
            && forall u | 0 <= u < |after| && u != a.t :: after[u] == s.threads[u] || after[u] == Wake(s.threads[u])
  {
    EffShape(s, a);
    AwakeWaker(s, a);
    ThreadsFrame(s, a, Eff(s, a).th);
  }

  // ---- nobody falls asleep over a task

  /** A thread that is awake to a filled head stays so by its own steps. */
  lemma StaysAwake(s: State, a: Action, i: nat)
    requires Enabled(s, a) && i < |s.heads| && s.heads[i].Some? && !s.shared.terminated && Awake(s.threads[a.t], i)
    ensures Awake(Eff(s, a).th, i)
  {
    if !a.Delay? {
      OutsideDelay(s, a);
    }
  }

  lemma StillOwes(s: State, a: Action)
    requires Enabled(s, a) && Owes(s.threads[a.t])
    ensures Owes(Eff(s, a).th) || a.WakeOne? || a.WakeNobody?
            || (s.threads[a.t].op.Linked? && s.shared.waiting <= s.threads[a.t].op.prio + s.limit)
  {
  }

  /** Whoever fills a head is awake to it, or owes a decision about a wake-up. */
  lemma FillsHead(s: State, a: Action, i: nat)
    requires Enabled(s, a) && ThreadOK(s.threads[a.t], |s.heads|, s.size, a.t < s.size) && Honest(s, s.threads[a.t])
    requires i < |s.heads| && i < |Eff(s, a).heads| && s.heads[i].None? && Eff(s, a).heads[i].Some? && !s.shared.terminated
    ensures Owes(Eff(s, a).th) || (a.t < s.size && Awake(Eff(s, a).th, i))
  {
  }

  /** If fewer threads wait than the pool has, one of them is awake to everything. */
  lemma {:induction false} SomebodyAwake(s: State, n: nat)
    requires Shape(s) && n <= s.size && !s.shared.terminated
    requires forall t | 0 <= t < |s.threads| :: Honest(s, s.threads[t])
    requires Sum(Waits, s.threads[..n]) < n
    ensures exists u :: 0 <= u < s.size && Waits(s.threads[u]) == 0
  {
    if Waits(s.threads[n - 1]) != 0 {
      assert s.threads[..n] == s.threads[..n - 1] + [s.threads[n - 1]];
      SumAppend(Waits, s.threads[..n - 1], s.threads[n - 1]);
      SomebodyAwake(s, n - 1);
    }
  }

  lemma StepSleepOK(s: State, a: Action, p: nat)
    requires Roomy(s, p) && Enabled(s, a)
    ensures s.size <= |Step(s, a).threads| && SleepOK(Step(s, a))
  {
    var s' := Step(s, a);
    Others(s, a);
    HonestEffect(s, a);
    if !s'.shared.terminated {
      forall i | 0 <= i < |s'.heads| && s'.heads[i].Some? ensures Attended(s', i) {
        if s.heads[i].None? {
          FillsHead(s, a, i);
          assert s'.threads[a.t] == Eff(s, a).th;
        } else {
          assert Attended(s, i);
          if u :| 0 <= u < s.size && Awake(s.threads[u], i) {
            if u == a.t {
              StaysAwake(s, a, i);
            }
            assert Awake(s'.threads[u], i);
          } else {
            var u :| 0 <= u < |s.threads| && Owes(s.threads[u]);
            DebtKept(s, a, p, i, u);
          }
        }
      }
    }
  }

  /** A debt is kept, or paid by a wake-up, or void because somebody is awake anyway. */
  lemma DebtKept(s: State, a: Action, p: nat, i: nat, u: nat)
    requires Roomy(s, p) && Enabled(s, a) && !s.shared.terminated && u < |s.threads| && Owes(s.threads[u])
    requires s.size <= |Step(s, a).threads|
    ensures Attended(Step(s, a), i)
  {
    var s' := Step(s, a);
    Others(s, a);
    assert Honest(s, s.threads[u]) && Modest(s.threads[u], Clamp(s, p));
    if u != a.t {
      assert Owes(s'.threads[u]);
    } else {
      StillOwes(s, a);
      if Owes(Eff(s, a).th) {
        assert Owes(s'.threads[u]);
      } else if a.WakeOne? {
        assert ThreadOK(s.threads[a.u], |s.heads|, s.size, a.u < s.size);
        assert Awake(s'.threads[a.u], i);
      } else if a.WakeNobody? {
        assert Honest(s, s.threads[0]) && !HoldsMutex(s.threads[0].base);
        assert Awake(s'.threads[0], i);
      } else {
        EnoughAwake(s);
        var v :| 0 <= v < s.size && Waits(s.threads[v]) == 0;
        assert Honest(s, s.threads[v]);
        assert Awake(s'.threads[v], i);
      }
    }
  }

  lemma EnoughAwake(s: State)
    requires Shape(s) && !s.shared.terminated && s.shared.waiting == Sum(Waits, s.threads) < s.size
    requires forall t | 0 <= t < |s.threads| :: Honest(s, s.threads[t])
    ensures exists u :: 0 <= u < s.size && Waits(s.threads[u]) == 0
  {
    SumPrefix(Waits, s.threads, s.size);
    SomebodyAwake(s, s.size);
  }

  lemma {:induction false} RoomyRun(run: seq<State>, k: nat, p: nat)
    requires Runs.IsRun(Init, NextUpTo(p), run) && k < |run| && Clamp(run[0], p) + run[0].limit < run[0].size
    ensures Roomy(run[k], p)
  {
    hide Roomy, Inv, Init;
    if k == 0 {
      InitRoomy(run[0], p);
    } else {
      var s := run[k - 1];
      assert NextUpTo(p)(s, run[k - 1 + 1]);
      var a :| Enabled(s, a) && UpTo(a, p) && run[k] == Step(s, a);
      RoomyRun(run, k - 1, p);
      StepRoomy(s, a, p);
    }
  }

  lemma InitRoomy(s: State, p: nat)
    requires Init(s) && Clamp(s, p) + s.limit < s.size
    ensures Roomy(s, p)
  {
    InitInv(s);
  }

  lemma StepRoomy(s: State, a: Action, p: nat)
    requires Roomy(s, p) && Enabled(s, a) && UpTo(a, p)
    ensures Roomy(Step(s, a), p)
  {
    StepInv(s, Step(s, a));
    StepModest(s, a, p);
    StepSleepOK(s, a, p);
  }

  lemma NeverDeadlocks(run: seq<State>, k: nat, p: nat)
    requires Runs.IsRun(Init, NextUpTo(p), run) && k < |run| && Clamp(run[0], p) + run[0].limit < run[0].size
    ensures !Deadlock(run[k])
  {
    RoomyRun(run, k, p);
    var s := run[k];
    if !s.shared.terminated {
      forall i | 0 <= i < |s.heads| && s.heads[i].Some? ensures Attended(s, i) {
      }
    }
  }

  // ---------------------------------------------------------------- without threads outside the pool

  /** Only threads of the pool queue, and whoever fills a head looks at it again itself. */
  ghost predicate Lone(s: State) {
    && Inv(s) && |s.threads| == s.size
    && (!s.shared.terminated ==>
          forall i | 0 <= i < |s.heads| && s.heads[i].Some? :: exists u :: 0 <= u < s.size && Awake(s.threads[u], i))
  }

  lemma StepLone(s: State, a: Action)
    requires Lone(s) && Enabled(s, a)
    ensures Lone(Step(s, a))
  {
    hide QueueStep, PollStep, DelayStep, CleanStep;
    var s' := Step(s, a);
    StepInv(s, s');
    Others(s, a);
    HonestEffect(s, a);
    if !s'.shared.terminated {
      forall i | 0 <= i < |s'.heads| && s'.heads[i].Some? ensures exists u :: 0 <= u < s'.size && Awake(s'.threads[u], i) {
        StaysLooking(s, a, i);
      }
    }
  }

  lemma StaysLooking(s: State, a: Action, i: nat)
    requires Lone(s) && Enabled(s, a) && !s.shared.terminated && i < |s.heads|
    requires Shape(Step(s, a)) && |Step(s, a).heads| == |s.heads| && Step(s, a).heads[i].Some?
    ensures exists u :: 0 <= u < s.size && u < |Step(s, a).threads| && Awake(Step(s, a).threads[u], i)
  {
    hide QueueStep, PollStep, DelayStep, CleanStep, ChainsOK, AllPlaced, CleanOK, TerminateOK, MutexOK;
    var s' := Step(s, a);
    Others(s, a);
    if s.heads[i].None? {
      FillsHead(s, a, i);
      assert ThreadOK(s'.threads[a.t], |s'.heads|, s'.size, a.t < s'.size);
      assert Awake(s'.threads[a.t], i);
    } else {
      var u :| 0 <= u < s.size && Awake(s.threads[u], i);
      if u == a.t {
        StaysAwake(s, a, i);
      }
      assert Awake(s'.threads[u], i);
    }
  }

  lemma {:induction false} LoneRun(run: seq<State>, k: nat, p: nat)
    requires Runs.IsRun(Init, NextUpTo(p), run) && k < |run| && |run[0].threads| == run[0].size
    ensures Lone(run[k])
  {
    hide Inv, Init, Lone;
    if k == 0 {
      InitLone(run[0]);
    } else {
      var s := run[k - 1];
      assert NextUpTo(p)(s, run[k - 1 + 1]);
      var a :| Enabled(s, a) && UpTo(a, p) && run[k] == Step(s, a);
      LoneRun(run, k - 1, p);
      StepLone(s, a);
    }
  }

  lemma InitLone(s: State)
    requires Init(s) && |s.threads| == s.size
    ensures Lone(s)
  {
    InitInv(s);
  }

  // ---------------------------------------------------------------- the bound is exact

  /** The first w threads of the pool have gone to sleep, and nothing else has happened. */
  function Dozing(size: nat, limit: nat, n: nat, w: nat): State {
    State(size, limit, map[], seq(DUPLICATES * size, _ => None), Shared(w, false, None),
          seq(n, t => Thread(if t < w then Asleep else Out, NoOp, [])), seq(DUPLICATES * size, _ => []), map[])
  }

  lemma Walk(p: nat, s0: State, s: State, a: Action)
    requires Runs.Leads(NextUpTo(p), s0, s) && Enabled(s, a) && UpTo(a, p)
    ensures Runs.Leads(NextUpTo(p), s0, Step(s, a))
  {
    Runs.Extend(NextUpTo(p), s0, s, Step(s, a));
  }

  /** Thread w steps inside delay(). */
  lemma Nods(p: nat, s0: State, s: State, w: nat, d: DelayAct, b: Base, h: Shared)
    requires Runs.Leads(NextUpTo(p), s0, s) && DelayEnabled(s, w, d)
    requires DelayStep(s, w, d) == Same(s, s.threads[w].(base := b)).(shared := h)
    ensures Runs.Leads(NextUpTo(p), s0, s.(threads := s.threads[w := s.threads[w].(base := b)], shared := h))
  {
    Walk(p, s0, s, Delay(w, d));
  }

  /** Thread w of the pool goes to sleep after those before it. */
  lemma DozesOff(p: nat, s0: State, size: nat, limit: nat, n: nat, w: nat)
    requires Runs.Leads(NextUpTo(p), s0, Dozing(size, limit, n, w)) && w < size <= n
    ensures Runs.Leads(NextUpTo(p), s0, Dozing(size, limit, n, w + 1))
  {
    var s := Dozing(size, limit, n, w);
    LooksOnce(p, s0, s, w);
    var s1 := Nodding(s, w, DelayCheck, s.shared);
    Nods(p, s0, s1, w, CheckTerm, DelayLock, s.shared);
    var s2 := Nodding(s, w, DelayLock, s.shared);
    assert s1.threads[w := s1.threads[w].(base := DelayLock)] == s2.threads;
    Nods(p, s0, s2, w, Lock, DelayInc, Shared(w, false, Some(w)));
    var s3 := Nodding(s, w, DelayInc, Shared(w, false, Some(w)));
    assert s2.threads[w := s2.threads[w].(base := DelayInc)] == s3.threads;
    Nods(p, s0, s3, w, Increment, DelayFetch(0), Shared(w + 1, false, Some(w)));
    assert s3.threads[w := s3.threads[w].(base := DelayFetch(0))] == Nodding(s, w, DelayFetch(0), s.shared).threads;
    LooksAround(p, s0, s, w, DUPLICATES * size);
    var s4 := Nodding(s, w, DelayFetch(DUPLICATES * size), Shared(w + 1, false, Some(w)));
    Nods(p, s0, s4, w, FetchOne, DelayTerm, s4.shared);
    var s5 := Nodding(s, w, DelayTerm, s4.shared);
    assert s4.threads[w := s4.threads[w].(base := DelayTerm)] == s5.threads;
    Nods(p, s0, s5, w, Sleep, Asleep, Shared(w + 1, false, None));
    assert s5.threads[w := s5.threads[w].(base := Asleep)] == Dozing(size, limit, n, w + 1).threads;
  }

  /** Thread w polls, and finds nothing. */
  lemma LooksOnce(p: nat, s0: State, s: State, w: nat)
    requires Runs.Leads(NextUpTo(p), s0, s) && w < s.size && Steady(s, w) && s.threads[w].base.Out? && !s.shared.terminated
    ensures Runs.Leads(NextUpTo(p), s0, Nodding(s, w, DelayCheck, s.shared))
  {
    Walk(p, s0, s, Poll(w, Test));
    var polling := Nodding(s, w, Polling, s.shared);
    assert Step(s, Poll(w, Test)) == polling;
    Walk(p, s0, polling, Poll(w, FindNone));
    assert Step(polling, Poll(w, FindNone)) == Nodding(s, w, DelayCheck, s.shared);
  }

  function Nodding(s: State, w: nat, b: Base, h: Shared): State
    requires w < |s.threads|
  {
    s.(threads := s.threads[w := s.threads[w].(base := b)], shared := h)
  }

  /** Thread w sees j empty heads. */
  lemma {:induction false} LooksAround(p: nat, s0: State, s: State, w: nat, j: nat)
    requires w < |s.threads| && s.threads[w].op.NoOp? && j <= |s.heads| && forall i | 0 <= i < |s.heads| :: s.heads[i].None?
    requires Runs.Leads(NextUpTo(p), s0, Nodding(s, w, DelayFetch(0), Shared(w + 1, false, Some(w))))
    ensures Runs.Leads(NextUpTo(p), s0, Nodding(s, w, DelayFetch(j), Shared(w + 1, false, Some(w))))
  {
    if j > 0 {
      LooksAround(p, s0, s, w, j - 1);
      var before := Nodding(s, w, DelayFetch(j - 1), Shared(w + 1, false, Some(w)));
      Nods(p, s0, before, w, FetchOne, DelayFetch(j), before.shared);
      assert before.threads[w := before.threads[w].(base := DelayFetch(j))]
          == s.threads[w := s.threads[w].(base := DelayFetch(j))];
    }
  }

  lemma {:induction false} AllDoze(p: nat, size: nat, limit: nat, n: nat, w: nat)
    requires w <= size <= n
    ensures Runs.Leads(NextUpTo(p), Dozing(size, limit, n, 0), Dozing(size, limit, n, w))
  {
    if w == 0 {
      Runs.Stay(NextUpTo(p), Dozing(size, limit, n, 0));
    } else {
      AllDoze(p, size, limit, n, w - 1);
      DozesOff(p, Dozing(size, limit, n, 0), size, limit, n, w - 1);
    }
  }

  /** All threads of the pool have gone to sleep, and one outside it has linked a task of priority p. */
  lemma LinksOverSleepers(size: nat, limit: nat, n: nat, p: nat) returns (s: State)
    requires 0 < size < n
    ensures var (s1, i) := (Dozing(size, limit, n, size), if p < size then p else size - 1);
            && Runs.Leads(NextUpTo(p), Dozing(size, limit, n, 0), s)
            && s == s1.(next := s.next, heads := s.heads, chains := s.chains, asked := s.asked,
                        threads := s1.threads[size := Thread(Out, Linked(i), [])])
            && i < |s.heads| && s.heads[i].Some?
  {
    var (s0, s1) := (Dozing(size, limit, n, 0), Dozing(size, limit, n, size));
    AllDoze(p, size, limit, n, size);
    Walk(p, s0, s1, Queue(size, Begin(0, p)));
    var s2 := Step(s1, Queue(size, Begin(0, p)));
    Walk(p, s0, s2, Queue(size, TrySlot));
    s := Step(s2, Queue(size, TrySlot));
  }

  /** It then finds no reason to wake anybody. */
  lemma SleepsOverTask(size: nat, limit: nat, n: nat, p: nat) returns (s: State)
    requires 0 < size < n && size <= (if p < size then p else size - 1) + limit
    ensures Runs.Leads(NextUpTo(p), Dozing(size, limit, n, 0), s) && Deadlock(s)
  {
    var linked := LinksOverSleepers(size, limit, n, p);
    Walk(p, Dozing(size, limit, n, 0), linked, Queue(size, ReadWaiting));
    s := Step(linked, Queue(size, ReadWaiting));
    assert s.heads[if p < size then p else size - 1].Some?;
  }

  /** A pool is free of deadlock in every run exactly if the priorities in use leave room below the
      number of its threads, or nobody outside the pool queues. Priorities beyond the last one count as the last. */
  lemma BoundIsExact(size: nat, limit: nat, n: nat, p: nat)
    requires 0 < size <= n
    ensures (forall run: seq<State>, k: nat | && Runs.IsRun(Init, NextUpTo(p), run) && k < |run|
                                              && run[0].size == size && run[0].limit == limit && |run[0].threads| == n ::
               !Deadlock(run[k]))
            <==> (if p < size then p else size - 1) + limit < size || n == size
  {
    var c := if p < size then p else size - 1;
    if c + limit < size || n == size {
      forall run: seq<State>, k: nat | && Runs.IsRun(Init, NextUpTo(p), run) && k < |run|
                                       && run[0].size == size && run[0].limit == limit && |run[0].threads| == n
        ensures !Deadlock(run[k])
      {
        if c + limit < size {
          NeverDeadlocks(run, k, p);
        } else {
          LoneRun(run, k, p);
        }
      }
    } else {
      var s := SleepsOverTask(size, limit, n, p);
      var s0 := Dozing(size, limit, n, 0);
      assert Init(s0);
      var run := Runs.RunTo(Init, NextUpTo(p), s0, s);
      assert Deadlock(run[|run| - 1]);
    }
  }
}
