/** The warp (grid_warp_t): a serializer without a mutex.

    The state holds the atomics of one warp, the part of the thread pool that concerns it, and
    the program counter of every thread with respect to it. One action is one atomic operation
    of the source. A thread's `base` says where its own control is, its `op` which helper call
    (yield, flush, resume, queue_routine_parallel) is in progress on top of it. */
module Warp {
  import opened Counting
  import Runs

  type Task = nat

  datatype Queueing = Idle | Pending | Executing

  datatype Base =
    | Free                     // outside this warp, or in code of another warp
    | External(task: Task)     // took an external_t from the pool
    | ExecCheck                // execute(): before the first suspend_count load
    | ExecPreempt              // before the CAS on thread_warp
    | ExecRecheck              // owner, before the second suspend_count load
    | ExecDefer                // owner, before storing pending
    | ExecMark                 // owner, before storing executing
    | Scan(next: nat)          // owner, about to look into buffer `next`
    | Body(from: nat)          // owner, inside a task taken from buffer `from`
    | Away(from: nat)          // inside such a task after it yielded the warp
    | ExecYield                // owner, before the final yield
    | Guard                    // owner through a user's preempt_guard_t
    | Parallel(task: Task)     // inside a parallel task

  datatype Op =
    | NoOp
    | Swap                     // yield(): thread_warp released, before the exchange to idle
    | Flush                    // flush(): before the exchange to pending
    | Submit                   // flush(): saw idle, before queueing an execute_t
    | Reset                    // resume(): dropped the last suspension, before storing idle
    | Fork(task: Task)         // queue_routine_parallel(): suspended, before queueing the task

  datatype Thread = Thread(base: Base, op: Op)

  /** The atomics of the warp. */
  datatype Atomics = Atomics(owner: Option<nat>, suspend: nat, queueing: Queueing)

  /** The task buffers, with the history of everything ever put into and taken out of each. */
  datatype Storage = Storage(buffers: seq<seq<Task>>, pushed: seq<seq<Task>>, popped: seq<seq<Task>>)

  /** What the thread pool holds for the warp: execute_t, external_t and suspend_t items. */
  datatype Pool = Pool(executes: nat, externals: multiset<Task>, forks: multiset<Task>)

  /** What the user has called so far: suspend() without resume(), tasks queued and tasks run in parallel, with those
      of the latter that have resumed. */
  datatype Calls = Calls(suspends: nat, queued: multiset<Task>, parallel: multiset<Task>, resumed: multiset<Task>)

  /** `calls` is auxiliary. */
  datatype State = State(
    strand: bool, workers: nat, atom: Atomics, store: Storage, pool: Pool, threads: seq<Thread>, calls: Calls)

  datatype Action =
    | PostExternal(task: Task)
    | TakeExecute(t: nat)
    | TakeExternal(t: nat, task: Task)
    | TakeFork(t: nat, task: Task)
    | ExternalPush(t: nat)
    | Check(t: nat)
    | Preempt(t: nat)
    | Recheck(t: nat)
    | Defer(t: nat)
    | Mark(t: nat)
    | Look(t: nat)
    | Finish(t: nat)
    | Release(t: nat)
    | DoSwap(t: nat)
    | DoFlush(t: nat)
    | DoSubmit(t: nat)
    | DoReset(t: nat)
    | Acquire(t: nat)
    | Post(t: nat, task: Task)
    | Routine(t: nat, task: Task)
    | Suspend(t: nat)
    | Resume(t: nat)
    | CallParallel(t: nat, task: Task)
    | DoFork(t: nat)
    | EndParallel(t: nat)

  function Slots(s: State): nat {
    if s.strand then 1 else s.workers
  }

  predicate CanPush(s: State, t: nat) {
    s.strand || t < s.workers
  }

  function Slot(s: State, t: nat): nat {
    if s.strand then 0 else t
  }

  predicate Owns(b: Base) {
    b.ExecRecheck? || b.ExecDefer? || b.ExecMark? || b.Scan? || b.Body? || b.ExecYield? || b.Guard?
  }

  /** Code of the user runs on the thread: it may call any operation of the warp. */
  predicate UserCode(b: Base) {
    b.Free? || b.Body? || b.Away? || b.Guard? || b.Parallel?
  }

  predicate At(s: State, t: nat, b: Base) {
    t < |s.threads| && s.threads[t] == Thread(b, NoOp)
  }

  predicate InUserCode(s: State, t: nat) {
    t < |s.threads| && s.threads[t].op.NoOp? && UserCode(s.threads[t].base)
  }

  predicate InOp(s: State, t: nat, op: Op) {
    t < |s.threads| && s.threads[t].op == op
  }

  predicate Enabled(s: State, a: Action) {
    match a
    case PostExternal(_) => true
    case TakeExecute(t) => At(s, t, Free) && t < s.workers && s.pool.executes > 0
    case TakeExternal(t, task) => At(s, t, Free) && t < s.workers && task in s.pool.externals
    case TakeFork(t, task) => At(s, t, Free) && t < s.workers && task in s.pool.forks
    case ExternalPush(t) => t < |s.threads| && s.threads[t].op.NoOp? && s.threads[t].base.External?
    case Check(t) => At(s, t, ExecCheck)
    case Preempt(t) => At(s, t, ExecPreempt)
    case Recheck(t) => At(s, t, ExecRecheck)
    case Defer(t) => At(s, t, ExecDefer)
    case Mark(t) => At(s, t, ExecMark)
    case Look(t) => t < |s.threads| && s.threads[t].op.NoOp? && s.threads[t].base.Scan?
    case Finish(t) => t < |s.threads| && s.threads[t].op.NoOp? && (s.threads[t].base.Body? || s.threads[t].base.Away?)
    case Release(t) => t < |s.threads| && s.threads[t].op.NoOp? &&
                       (s.threads[t].base.ExecYield? || s.threads[t].base.Guard? || s.threads[t].base.Body?)
    case DoSwap(t) => InOp(s, t, Swap)
    case DoFlush(t) => InOp(s, t, Flush)
    case DoSubmit(t) => InOp(s, t, Submit)
    case DoReset(t) => InOp(s, t, Reset)
    case Acquire(t) => t < |s.threads| && s.threads[t].op.NoOp? && (s.threads[t].base.Free? || s.threads[t].base.Away?)
    case Post(t, _) => InUserCode(s, t) && CanPush(s, t)
    case Routine(t, _) => InUserCode(s, t) && t < s.workers
    case Suspend(t) => InUserCode(s, t)
    case Resume(t) => InUserCode(s, t) && s.calls.suspends > 0
    case CallParallel(t, _) => InUserCode(s, t) && Owns(s.threads[t].base)
    case DoFork(t) => t < |s.threads| && s.threads[t].op.Fork?
    case EndParallel(t) => t < |s.threads| && s.threads[t].op.NoOp? && s.threads[t].base.Parallel?
  }

  /** push(): append to the caller's buffer. */
  function Append(s: State, t: nat, task: Task): Storage {
    var k := Slot(s, t);
    if k < |s.store.buffers| && k < |s.store.pushed| then
      s.store.(buffers := s.store.buffers[k := s.store.buffers[k] + [task]],
               pushed := s.store.pushed[k := s.store.pushed[k] + [task]])
    else
      s.store
  }

  function TakeFirst(st: Storage, i: nat): Storage
    requires i < |st.buffers| && i < |st.popped| && st.buffers[i] != []
  {
    st.(buffers := st.buffers[i := st.buffers[i][1..]],
        popped := st.popped[i := st.popped[i] + [st.buffers[i][0]]])
  }

  /** queue_routine() calls the function at once: current warp, still its owner, not suspended. */
  predicate RunsInline(s: State, t: nat)
    requires t < |s.threads|
  {
    Owns(s.threads[t].base) && s.atom.owner == Some(t) && s.atom.suspend == 0
  }

  /** What an action does to the atomics of the warp. */
  function StepAtomics(s: State, a: Action): Atomics
    requires Enabled(s, a)
  {
    var m := s.atom;
    match a
    case Preempt(t) => if m.owner.None? then m.(owner := Some(t)) else m
    case Acquire(t) => if m.owner.None? then m.(owner := Some(t)) else m
    case Release(t) => m.(owner := None)
    case Defer(t) => m.(queueing := Pending)
    case Mark(t) => m.(queueing := Executing)
    case DoSwap(t) => m.(queueing := Idle)
    case DoFlush(t) => m.(queueing := Pending)
    case DoReset(t) => m.(queueing := Idle)
    case Suspend(t) => m.(suspend := m.suspend + 1)
    case Resume(t) => if m.suspend > 0 then m.(suspend := m.suspend - 1) else m
    case CallParallel(t, _) => m.(suspend := m.suspend + 1)
    case EndParallel(t) => if m.suspend > 0 then m.(suspend := m.suspend - 1) else m
    case _ => m
  }

  /** What it does to the task buffers. */
  function StepStorage(s: State, a: Action): Storage
    requires Enabled(s, a)
  {
    match a
    case ExternalPush(t) => Append(s, t, s.threads[t].base.task)
    case Post(t, task) => Append(s, t, task)
    case Routine(t, task) => if RunsInline(s, t) then s.store else Append(s, t, task)
    case Look(t) =>
      var i := s.threads[t].base.next;
      if i < |s.store.buffers| && i < |s.store.popped| && s.store.buffers[i] != [] then TakeFirst(s.store, i) else s.store
    case _ => s.store
  }

  /** What it does to the pool. */
  function StepPool(s: State, a: Action): Pool
    requires Enabled(s, a)
  {
    match a
    case PostExternal(task) => s.pool.(externals := s.pool.externals + multiset{task})
    case TakeExecute(t) => s.pool.(executes := s.pool.executes - 1)
    case TakeExternal(t, task) => s.pool.(externals := s.pool.externals - multiset{task})
    case TakeFork(t, task) => s.pool.(forks := s.pool.forks - multiset{task})
    case DoSubmit(t) => s.pool.(executes := s.pool.executes + 1)
    case DoFork(t) => s.pool.(forks := s.pool.forks + multiset{s.threads[t].op.task})
    case _ => s.pool
  }

  /** Where the acting thread goes. */
  function StepThread(s: State, a: Action): Thread
    requires Enabled(s, a) && !a.PostExternal?
    requires a.t < |s.threads|
  {
    var th := s.threads[a.t];
    var m := s.atom;
    match a
    case TakeExecute(t) => th.(base := ExecCheck)
    case TakeExternal(t, task) => th.(base := External(task))
    case TakeFork(t, task) => th.(base := Parallel(task))
    case ExternalPush(t) => Thread(Free, Flush)
    case Check(t) => th.(base := if m.suspend == 0 then ExecPreempt else Free)
    case Preempt(t) => th.(base := if m.owner.None? then ExecRecheck else Free)
    case Recheck(t) => th.(base := if m.suspend == 0 then ExecMark else ExecDefer)
    case Defer(t) => th.(base := ExecYield)
    case Mark(t) => th.(base := Scan(0))
    case Look(t) =>
      var i := th.base.next;
      th.(base := if i >= |s.store.buffers| || i >= |s.store.popped| then ExecYield
                  else if s.store.buffers[i] == [] then Scan(i + 1) else Body(i))
    case Finish(t) =>
      if th.base.Away? then Thread(Free, Flush)
      else th.(base := if m.suspend != 0 then ExecYield else Scan(th.base.from))
    case Release(t) => Thread(if th.base.Body? then Away(th.base.from) else Free, Swap)
    case DoSwap(t) => th.(op := if m.queueing.Pending? then Flush else NoOp)
    case DoFlush(t) => th.(op := if m.queueing.Idle? then Submit else NoOp)
    case DoSubmit(t) => th.(op := NoOp)
    case DoReset(t) => th.(op := Flush)
    case Acquire(t) =>
      if m.owner.None? then th.(base := if th.base.Away? then Body(th.base.from) else Guard) else th
    case Post(t, _) => th.(op := Flush)
    case Routine(t, _) => if RunsInline(s, t) then th else th.(op := Flush)
    case Suspend(t) => th
    case Resume(t) => th.(op := if m.suspend == 1 then Reset else NoOp)
    case CallParallel(t, task) => th.(op := Fork(task))
    case DoFork(t) => th.(op := NoOp)
    case EndParallel(t) => Thread(Free, if m.suspend == 1 then Reset else NoOp)
  }

  /** A routine for a warp that is not the caller's or is suspended, one that is always posted, or one from outside. */
  predicate Adds(s: State, a: Action) {
    || a.PostExternal? || a.Post?
    || (a.Routine? && !(s.atom.owner == Some(a.t) && s.atom.suspend == 0))
  }

  function StepCalls(s: State, a: Action): Calls
    requires Enabled(s, a)
  {
    var c := s.calls;
    match a
    case Suspend(_) => c.(suspends := c.suspends + 1)
    case Resume(_) => c.(suspends := c.suspends - 1)
    case CallParallel(_, task) => c.(parallel := c.parallel + multiset{task})
    case EndParallel(t) => c.(resumed := c.resumed + multiset{s.threads[t].base.task})
    case _ => if Adds(s, a) then c.(queued := c.queued + multiset{a.task}) else c
  }

  function Step(s: State, a: Action): State
    requires Enabled(s, a)
  {
    s.(calls := StepCalls(s, a), atom := StepAtomics(s, a), store := StepStorage(s, a), pool := StepPool(s, a),
       threads := if a.PostExternal? then s.threads else s.threads[a.t := StepThread(s, a)])
  }

  ghost predicate Init(s: State) {
    && s.atom == Atomics(None, 0, Idle) && s.calls == Calls(0, multiset{}, multiset{}, multiset{})
    && s.pool == Pool(0, multiset{}, multiset{})
    && |s.store.buffers| == |s.store.pushed| == |s.store.popped| == Slots(s)
    && (forall k | 0 <= k < Slots(s) :: s.store.buffers[k] == s.store.pushed[k] == s.store.popped[k] == [])
    && s.workers <= |s.threads|
    && (forall t | 0 <= t < |s.threads| :: s.threads[t] == Thread(Free, NoOp))
  }

  ghost predicate Next(s: State, s': State) {
    exists a :: Enabled(s, a) && s' == Step(s, a)
  }

  // ---------------------------------------------------------------- the invariant

  ghost predicate Shape(s: State) {
    && |s.store.buffers| == |s.store.pushed| == |s.store.popped| == Slots(s)
    && s.workers <= |s.threads|
    && (forall t | 0 <= t < |s.threads| ::
          && (s.threads[t].base.Body? || s.threads[t].base.Away? ==> s.threads[t].base.from < |s.store.buffers|)
          && (s.threads[t].base.External? ==> t < s.workers))
  }

  ghost predicate Fifo(s: State)
    requires Shape(s)
  {
    forall k | 0 <= k < |s.store.buffers| :: s.store.pushed[k] == s.store.popped[k] + s.store.buffers[k]
  }

  ghost predicate Exclusive(s: State) {
    && (s.atom.owner.Some? ==> s.atom.owner.value < |s.threads|)
    && forall t | 0 <= t < |s.threads| :: Owns(s.threads[t].base) <==> s.atom.owner == Some(t)
  }

  function ForkWeight(th: Thread): nat {
    AsNat(th.base.Parallel?) + AsNat(th.op.Fork?)
  }

  /** Parallel tasks called and not yet resumed. */
  function Readers(s: State): nat {
    |s.pool.forks| + Sum(ForkWeight, s.threads)
  }

  ghost predicate Suspensions(s: State) {
    s.atom.suspend == s.calls.suspends + Readers(s)
  }

  /** While a parallel task is out, nobody has passed the check that precedes a start. */
  ghost predicate ReadersBlock(s: State) {
    Readers(s) > 0 ==> forall t | 0 <= t < |s.threads| :: !s.threads[t].base.ExecMark? && !s.threads[t].base.Scan?
  }

  /** Thread `th` will still look into buffer k (or flush on its behalf). */
  predicate Covers(th: Thread, k: nat) {
    match th.base
    case ExecMark => true
    case Scan(i) => i <= k
    case Body(i) => i <= k
    case Away(i) => i <= k
    case _ => false
  }

  predicate WillFlush(th: Thread) {
    th.op.Flush? || th.op.Reset?
  }

  /** Thread `th` takes care of a pending mark. */
  predicate Answers(th: Thread) {
    Owns(th.base) || th.base.ExecCheck? || th.base.ExecPreempt? || th.op.Swap? || th.op.Submit? || th.op.Reset?
  }

  predicate Holds(th: Thread) {
    Owns(th.base) || th.op.Swap?
  }

  ghost predicate Noticed(s: State, k: nat) {
    || s.atom.queueing.Pending?
    || exists t | 0 <= t < |s.threads| :: WillFlush(s.threads[t]) || Covers(s.threads[t], k)
  }

  ghost predicate WorkNoticed(s: State) {
    s.atom.suspend == 0 ==> forall k | 0 <= k < |s.store.buffers| :: s.store.buffers[k] != [] ==> Noticed(s, k)
  }

  ghost predicate Answered(s: State) {
    s.pool.executes > 0 || exists t | 0 <= t < |s.threads| :: Answers(s.threads[t])
  }

  ghost predicate PendingAnswered(s: State) {
    s.atom.suspend == 0 && s.atom.queueing.Pending? ==> Answered(s)
  }

  ghost predicate ExecutingHeld(s: State) {
    s.atom.queueing.Executing? ==> exists t | 0 <= t < |s.threads| :: Holds(s.threads[t])
  }

  function Times(x: Task): seq<Task> -> nat {
    (b: seq<Task>) => multiset(b)[x]
  }

  function BringsIn(x: Task): Thread -> nat {
    (th: Thread) => AsNat(th.base == External(x))
  }

  /** The thread has parallel task x: it is about to queue it, or runs it. */
  function Reads(x: Task): Thread -> nat {
    (th: Thread) => AsNat(th.op == Fork(x)) + AsNat(th.base == Parallel(x))
  }

  /** How often task x is in the given buffers. */
  function Count(x: Task, buffers: seq<seq<Task>>): nat {
    Sum(Times(x), buffers)
  }

  /** How often task x was posted from outside and is still to be pushed. */
  function Awaited(s: State, x: Task): nat {
    s.pool.externals[x] + Sum(BringsIn(x), s.threads)
  }

  /** No call gets lost: what was queued was pushed or is on its way in, and what runs in parallel is in the pool, or
      with a thread, or has resumed. */
  ghost predicate Kept(s: State, x: Task) {
    && s.calls.queued[x] == Count(x, s.store.pushed) + Awaited(s, x)
    && s.calls.parallel[x] == s.pool.forks[x] + Sum(Reads(x), s.threads) + s.calls.resumed[x]
  }

  ghost predicate Inv(s: State) {
    && Shape(s) && Fifo(s) && Exclusive(s) && Suspensions(s) && ReadersBlock(s)
    && WorkNoticed(s) && PendingAnswered(s) && ExecutingHeld(s)
    && forall x: Task :: Kept(s, x)
  }

  lemma InitInv(s: State)
    requires Init(s)
    ensures Inv(s)
  {
    SumZero(ForkWeight, s.threads);
    forall x: Task ensures Kept(s, x) {
      SumZero(Times(x), s.store.pushed);
      SumZero(BringsIn(x), s.threads);
      SumZero(Reads(x), s.threads);
    }
  }

  lemma StorageShape(s: State, a: Action)
    requires Shape(s) && Enabled(s, a)
    ensures var (b, b') := (s.store, StepStorage(s, a));
            |b'.buffers| == |b.buffers| && |b'.pushed| == |b.pushed| && |b'.popped| == |b.popped|
  {
  }

  lemma ThreadShape(s: State, a: Action)
    requires Shape(s) && Enabled(s, a) && !a.PostExternal?
    ensures var b := StepThread(s, a).base;
            (b.Body? || b.Away? ==> b.from < |s.store.buffers|) && (b.External? ==> a.t < s.workers)
  {
  }

  lemma StepShape(s: State, a: Action)
    requires Shape(s) && Enabled(s, a)
    ensures Shape(Step(s, a))
  {
    hide StepStorage, StepThread, StepAtomics, StepPool;
    StorageShape(s, a);
    if !a.PostExternal? {
      ThreadShape(s, a);
    }
  }

  lemma StepFifo(s: State, a: Action)
    requires Shape(s) && Fifo(s) && Enabled(s, a) && Shape(Step(s, a))
    ensures Fifo(Step(s, a))
  {
  }

  /** thread_warp changes hands only between nobody and the acting thread. */
  lemma OwnerEffect(s: State, a: Action)
    requires Exclusive(s) && Enabled(s, a)
    ensures a.PostExternal? ==> Step(s, a).atom.owner == s.atom.owner
    ensures !a.PostExternal? ==>
      var (o, o') := (s.atom.owner, StepAtomics(s, a).owner);
      var (w, w') := (Owns(s.threads[a.t].base), Owns(StepThread(s, a).base));
      || (o' == o && w' == w)
      || (o.None? && o' == Some(a.t) && !w && w')
      || (o == Some(a.t) && o'.None? && w && !w')
  {
  }

  lemma StepExclusive(s: State, a: Action)
    requires Exclusive(s) && Enabled(s, a)
    ensures Exclusive(Step(s, a))
  {
    OwnerEffect(s, a);
  }

  lemma ForksEffect(s: State, a: Action)
    requires Enabled(s, a)
    ensures |StepPool(s, a).forks| + AsNat(a.TakeFork?) == |s.pool.forks| + AsNat(a.DoFork?)
  {
    if a.TakeFork? {
      assert multiset{a.task} <= s.pool.forks;
    }
  }

  lemma SuspendEffect(s: State, a: Action)
    requires Enabled(s, a) && !a.PostExternal? && s.atom.suspend >= s.calls.suspends + ForkWeight(s.threads[a.t])
    ensures var (c, c') := (s.calls.suspends, StepCalls(s, a).suspends);
            StepAtomics(s, a).suspend + c + ForkWeight(s.threads[a.t]) + AsNat(a.TakeFork?)
            == s.atom.suspend + c' + ForkWeight(StepThread(s, a)) + AsNat(a.DoFork?)
  {
  }

  lemma StepSuspensions(s: State, a: Action)
    requires Suspensions(s) && Enabled(s, a)
    ensures Suspensions(Step(s, a))
  {
    hide StepStorage, StepThread, StepPool, Sum, ForkWeight;
    ForksEffect(s, a);
    if !a.PostExternal? {
      SumAtLeast(ForkWeight, s.threads, a.t);
      SuspendEffect(s, a);
      SumUpdate(ForkWeight, s.threads, a.t, StepThread(s, a));
    }
  }

  /** Only a thread that saw no suspension comes to a place from which it starts a task. */
  lemma ReadersEffect(s: State, a: Action)
    requires Exclusive(s) && Enabled(s, a) && !a.PostExternal?
    ensures var (b, b') := (s.threads[a.t].base, StepThread(s, a).base);
            b'.ExecMark? || b'.Scan? ==> b.ExecMark? || b.Scan? || s.atom.suspend == 0
    ensures a.CallParallel? ==> s.atom.owner == Some(a.t)
    ensures !a.CallParallel? ==>
              ForkWeight(StepThread(s, a)) + |StepPool(s, a).forks| <= ForkWeight(s.threads[a.t]) + |s.pool.forks|
  {
  }

  lemma StepReadersBlock(s: State, a: Action)
    requires Exclusive(s) && Suspensions(s) && ReadersBlock(s) && Enabled(s, a)
    ensures ReadersBlock(Step(s, a))
  {
    if !a.PostExternal? {
      ReadersEffect(s, a);
      SumUpdate(ForkWeight, s.threads, a.t, StepThread(s, a));
    }
  }

  /** What one action does to the notice that buffer k has work. */
  lemma NoticeEffect(s: State, a: Action, k: nat)
    requires Shape(s) && Enabled(s, a) && !a.PostExternal?
    requires k < |s.store.buffers| && StepStorage(s, a).buffers[k] != [] && StepAtomics(s, a).suspend == 0
    ensures var th' := StepThread(s, a);
            || StepAtomics(s, a).queueing.Pending? || WillFlush(th') || Covers(th', k)
            || (&& s.store.buffers[k] != [] && s.atom.suspend == 0
                && !s.atom.queueing.Pending? && !WillFlush(s.threads[a.t]) && !Covers(s.threads[a.t], k))
  {
  }

  lemma StepWorkNoticed(s: State, a: Action)
    requires Shape(s) && WorkNoticed(s) && Enabled(s, a) && Shape(Step(s, a))
    ensures WorkNoticed(Step(s, a))
  {
    var s' := Step(s, a);
    if s'.atom.suspend == 0 {
      forall k | 0 <= k < |s'.store.buffers| && s'.store.buffers[k] != []
        ensures Noticed(s', k)
      {
        if a.PostExternal? {
          assert Noticed(s, k);
        } else {
          NoticeEffect(s, a, k);
          var th' := StepThread(s, a);
          if s'.atom.queueing.Pending? {
          } else if WillFlush(th') || Covers(th', k) {
            assert s'.threads[a.t] == th';
          } else {
            assert Noticed(s, k);
            var u :| 0 <= u < |s.threads| && (WillFlush(s.threads[u]) || Covers(s.threads[u], k));
            assert s'.threads[u] == s.threads[u];
          }
        }
      }
    }
  }

  /** What one action does to a pending mark and to those who answer it. */
  lemma AnswerEffect(s: State, a: Action)
    requires Exclusive(s) && Enabled(s, a) && !a.PostExternal?
    requires StepAtomics(s, a).queueing.Pending? && StepAtomics(s, a).suspend == 0
    ensures || Answers(StepThread(s, a)) || StepPool(s, a).executes > 0
            || (a.Preempt? && s.atom.owner.Some? && s.atom.owner != Some(a.t))
            || (a.DoFlush? && s.atom.queueing.Executing? && !Holds(s.threads[a.t]))
            || (&& s.atom.queueing.Pending? && s.atom.suspend == 0
                && s.pool.executes == 0 && !Answers(s.threads[a.t]))
  {
  }

  lemma StepPendingAnswered(s: State, a: Action)
    requires Exclusive(s) && PendingAnswered(s) && ExecutingHeld(s) && Enabled(s, a)
    ensures PendingAnswered(Step(s, a))
  {
    var s' := Step(s, a);
    if !a.PostExternal? && s'.atom.suspend == 0 && s'.atom.queueing.Pending? {
      AnswerEffect(s, a);
      if Answers(StepThread(s, a)) {
        assert Answers(s'.threads[a.t]);
      } else if s'.pool.executes > 0 {
      } else if a.Preempt? && s.atom.owner.Some? && s.atom.owner != Some(a.t) {
        assert Answers(s'.threads[s.atom.owner.value]);
      } else if a.DoFlush? && s.atom.queueing.Executing? && !Holds(s.threads[a.t]) {
        var u :| 0 <= u < |s.threads| && Holds(s.threads[u]);
        assert Answers(s'.threads[u]);
      } else {
        var u :| 0 <= u < |s.threads| && Answers(s.threads[u]);
        assert Answers(s'.threads[u]);
      }
    }
  }

  lemma HoldEffect(s: State, a: Action)
    requires Enabled(s, a) && !a.PostExternal? && StepAtomics(s, a).queueing.Executing?
    ensures Holds(StepThread(s, a)) || (s.atom.queueing.Executing? && !Holds(s.threads[a.t]))
  {
  }

  lemma StepExecutingHeld(s: State, a: Action)
    requires ExecutingHeld(s) && Enabled(s, a)
    ensures ExecutingHeld(Step(s, a))
  {
    var s' := Step(s, a);
    if !a.PostExternal? && s'.atom.queueing.Executing? {
      HoldEffect(s, a);
      if Holds(StepThread(s, a)) {
        assert Holds(s'.threads[a.t]);
      } else {
        var u :| 0 <= u < |s.threads| && Holds(s.threads[u]);
        assert Holds(s'.threads[u]);
      }
    }
  }

  lemma PushedEffect(s: State, a: Action, x: Task)
    requires Shape(s) && Exclusive(s) && Enabled(s, a)
    ensures Count(x, StepStorage(s, a).pushed)
            == Count(x, s.store.pushed)
               + AsNat(!a.PostExternal? && Adds(s, a) && a.task == x)
               + AsNat(a.ExternalPush? && s.threads[a.t].base.task == x)
  {
    hide Sum, StepAtomics, StepThread;
    var k := Slot(s, if a.PostExternal? then 0 else a.t);
    if !a.PostExternal? && Adds(s, a) {
      SumUpdate(Times(x), s.store.pushed, k, s.store.pushed[k] + [a.task]);
    } else if a.ExternalPush? {
      SumUpdate(Times(x), s.store.pushed, k, s.store.pushed[k] + [s.threads[a.t].base.task]);
    }
  }

  lemma PoolEffect(s: State, a: Action, x: Task)
    requires Enabled(s, a)
    ensures StepPool(s, a).externals[x] + AsNat(a.TakeExternal? && a.task == x)
            == s.pool.externals[x] + AsNat(a.PostExternal? && a.task == x)
    ensures StepPool(s, a).forks[x] + AsNat(a.TakeFork? && a.task == x)
            == s.pool.forks[x] + AsNat(a.DoFork? && s.threads[a.t].op.task == x)
  {
  }

  lemma CallsEffect(s: State, a: Action, x: Task)
    requires Enabled(s, a)
    ensures StepCalls(s, a).queued[x] == s.calls.queued[x] + AsNat(Adds(s, a) && a.task == x)
    ensures StepCalls(s, a).parallel[x] == s.calls.parallel[x] + AsNat(a.CallParallel? && a.task == x)
    ensures StepCalls(s, a).resumed[x] == s.calls.resumed[x] + AsNat(a.EndParallel? && s.threads[a.t].base.task == x)
  {
  }

  lemma CarriedEffect(s: State, a: Action, x: Task)
    requires Enabled(s, a) && !a.PostExternal?
    ensures BringsIn(x)(StepThread(s, a)) + AsNat(a.ExternalPush? && s.threads[a.t].base.task == x)
            == BringsIn(x)(s.threads[a.t]) + AsNat(a.TakeExternal? && a.task == x)
    ensures Reads(x)(StepThread(s, a)) + AsNat(a.DoFork? && s.threads[a.t].op.task == x)
            + AsNat(a.EndParallel? && s.threads[a.t].base.task == x)
            == Reads(x)(s.threads[a.t]) + AsNat(a.TakeFork? && a.task == x) + AsNat(a.CallParallel? && a.task == x)
  {
  }

  lemma CarriedKept(s: State, a: Action, x: Task)
    requires Enabled(s, a)
    ensures var s' := Step(s, a);
            && Sum(BringsIn(x), s'.threads) + AsNat(a.ExternalPush? && s.threads[a.t].base.task == x)
               == Sum(BringsIn(x), s.threads) + AsNat(a.TakeExternal? && a.task == x)
            && Sum(Reads(x), s'.threads) + AsNat(a.DoFork? && s.threads[a.t].op.task == x)
               + AsNat(a.EndParallel? && s.threads[a.t].base.task == x)
               == Sum(Reads(x), s.threads) + AsNat(a.TakeFork? && a.task == x) + AsNat(a.CallParallel? && a.task == x)
  {
    hide StepStorage, StepThread, StepPool, StepAtomics, StepCalls, Sum, BringsIn, Reads;
    if !a.PostExternal? {
      CarriedEffect(s, a, x);
      SumUpdate(BringsIn(x), s.threads, a.t, StepThread(s, a));
      SumUpdate(Reads(x), s.threads, a.t, StepThread(s, a));
    }
  }

  lemma StepKept(s: State, a: Action, x: Task)
    requires Shape(s) && Exclusive(s) && Kept(s, x) && Enabled(s, a)
    ensures Kept(Step(s, a), x)
  {
    hide StepStorage, StepThread, StepPool, StepAtomics, StepCalls, Count, Sum, BringsIn, Reads;
    PushedEffect(s, a, x);
    PoolEffect(s, a, x);
    CallsEffect(s, a, x);
    CarriedKept(s, a, x);
  }

  lemma StepInv(s: State, s': State)
    requires Inv(s) && Next(s, s')
    ensures Inv(s')
  {
    var a :| Enabled(s, a) && s' == Step(s, a);
    StepShape(s, a);
    StepFifo(s, a);
    StepExclusive(s, a);
    StepSuspensions(s, a);
    StepReadersBlock(s, a);
    StepWorkNoticed(s, a);
    StepPendingAnswered(s, a);
    StepExecutingHeld(s, a);
    forall x: Task ensures Kept(s', x) { StepKept(s, a, x); }
  }

  // ---------------------------------------------------------------- theorems over every run

  lemma RunInv(run: seq<State>, i: nat)
    requires Runs.IsRun(Init, Next, run) && i < |run|
    ensures Inv(run[i])
  {
    forall s | Init(s) ensures Inv(s) { InitInv(s); }
    forall s, s' | Inv(s) && Next(s, s') ensures Inv(s') { StepInv(s, s'); }
    Runs.Invariant(Init, Next, Inv, run);
  }

  /** No two threads are ever inside normal tasks (or guards) of the warp. */
  lemma Exclusion(run: seq<State>, i: nat, t: nat, u: nat)
    requires Runs.IsRun(Init, Next, run) && i < |run|
    requires t < |run[i].threads| && u < |run[i].threads|
    requires Owns(run[i].threads[t].base) && Owns(run[i].threads[u].base)
    ensures t == u
  {
    RunInv(run, i);
  }

  /** Action `a` begins a normal task of the warp: it takes one out of a buffer, or is a call that does not store
      its task. */
  predicate Starts(s: State, a: Action)
    requires Enabled(s, a)
  {
    || Step(s, a).store.popped != s.store.popped
    || (a.Routine? && Step(s, a).store.pushed == s.store.pushed)
  }

  /** Whoever begins a normal task of the warp is inside it, and is its only owner; an inline one begins only while
      the warp is not suspended. */
  lemma StartsInside(run: seq<State>, i: nat, a: Action)
    requires Runs.IsRun(Init, Next, run) && i < |run| && Enabled(run[i], a) && Starts(run[i], a)
    ensures !a.PostExternal? && run[i].atom.owner == Some(a.t)
    ensures a.Routine? ==> run[i].atom.suspend == 0
    ensures forall u | 0 <= u < |run[i].threads| && u != a.t :: !Owns(run[i].threads[u].base)
  {
    RunInv(run, i);
    if a.Routine? && !(run[i].atom.owner == Some(a.t) && run[i].atom.suspend == 0) {
      Stores(run, i, a, a.task);
    }
  }

  /** Every task queued for the warp, by whichever call, was pushed into a buffer as often, or is on its way in from
      outside; every task to be run in parallel is in the pool, or with a thread, or has resumed the warp. */
  lemma CallsKept(run: seq<State>, i: nat, x: Task)
    requires Runs.IsRun(Init, Next, run) && i < |run|
    ensures var s := run[i];
            && s.calls.queued[x] == Count(x, s.store.pushed) + s.pool.externals[x] + Sum(BringsIn(x), s.threads)
            && s.calls.parallel[x] == s.pool.forks[x] + Sum(Reads(x), s.threads) + s.calls.resumed[x]
  {
    RunInv(run, i);
    assert Kept(run[i], x);
  }

  /** suspend() adds one to the count and resume() and the end of a parallel task take one away; exactly the one that
      brings it to 0 goes on to reset the flag and to flush. */
  lemma LastResumes(run: seq<State>, i: nat, a: Action)
    requires Runs.IsRun(Init, Next, run) && i < |run| && Enabled(run[i], a)
    ensures var (m, m') := (run[i].atom, Step(run[i], a).atom);
            && (a.Suspend? || a.CallParallel? ==> m'.suspend == m.suspend + 1)
            && (a.Resume? || a.EndParallel? ==>
                  m'.suspend == m.suspend - 1 && (Step(run[i], a).threads[a.t].op == Reset <==> m'.suspend == 0))
            && (!a.Suspend? && !a.CallParallel? && !a.Resume? && !a.EndParallel? ==> m'.suspend == m.suspend)
  {
    RunInv(run, i);
    if a.EndParallel? {
      SumAtLeast(ForkWeight, run[i].threads, a.t);
    }
  }

  /** An execution that finds the warp suspended starts nothing: it leaves the flag pending and is about to give the
      warp up. */
  lemma Defers(run: seq<State>, i: nat, t: nat)
    requires Runs.IsRun(Init, Next, run) && i < |run| && Enabled(run[i], Recheck(t)) && run[i].atom.suspend > 0
    ensures var (s, s') := (run[i], Step(run[i], Recheck(t)));
            && Enabled(s', Defer(t))
            && Step(s', Defer(t)).atom == Atomics(Some(t), s.atom.suspend, Pending)
            && Step(s', Defer(t)).store == s.store && At(Step(s', Defer(t)), t, ExecYield)
  {
    RunInv(run, i);
  }

  /** The buffer of a thread: its own, or the one that all share. */
  function Buffer(s: State, t: nat): nat {
    if s.strand then 0 else t
  }

  /** The call of a function that queues task x from thread t without running it: a routine for a warp that is not
      the caller's or is suspended, one that is always posted, and one that came in from outside. */
  predicate Queues(s: State, a: Action, x: Task) {
    && Enabled(s, a)
    && match a
       case Routine(t, task) => task == x && (s.atom.owner != Some(t) || s.atom.suspend != 0)
       case Post(_, task) => task == x
       case ExternalPush(t) => s.threads[t].base == External(x)
       case _ => false
  }

  /** It puts the task behind the others in the caller's buffer and is then about to flush; nothing else changes. */
  lemma Stores(run: seq<State>, i: nat, a: Action, x: Task)
    requires Runs.IsRun(Init, Next, run) && i < |run| && Queues(run[i], a, x)
    ensures var (s, s') := (run[i], Step(run[i], a));
            var k := Buffer(s, a.t);
            && k < |s.store.buffers| == |s.store.pushed|
            && s'.store.buffers == s.store.buffers[k := s.store.buffers[k] + [x]]
            && s'.store.pushed == s.store.pushed[k := s.store.pushed[k] + [x]]
            && s'.store.popped == s.store.popped && s'.atom == s.atom && s'.pool == s.pool
            && |s'.threads| == |s.threads| && s'.threads[a.t].op == Flush
            && forall u | 0 <= u < |s.threads| && u != a.t :: s'.threads[u] == s.threads[u]
  {
    RunInv(run, i);
  }

  /** A routine for the caller's own warp, not suspended, is run at once and leaves everything as it is. */
  lemma RunsAtOnce(run: seq<State>, i: nat, t: nat, x: Task)
    requires Runs.IsRun(Init, Next, run) && i < |run| && Enabled(run[i], Routine(t, x))
    requires run[i].atom.owner == Some(t) && run[i].atom.suspend == 0
    ensures Step(run[i], Routine(t, x)) == run[i]
  {
    RunInv(run, i);
    assert run[i].threads[t := run[i].threads[t]] == run[i].threads;
  }

  /** From the call of queue_routine_parallel until the parallel task has resumed, no normal task
      starts, and a resumption never takes suspend_count below zero. */
  lemma ParallelBlocksStarts(run: seq<State>, i: nat, a: Action)
    requires Runs.IsRun(Init, Next, run) && i < |run| && Enabled(run[i], a)
    ensures Readers(run[i]) > 0 ==> !Starts(run[i], a)
    ensures a.EndParallel? || a.Resume? ==> run[i].atom.suspend > 0
  {
    RunInv(run, i);
    if a.EndParallel? {
      SumAtLeast(ForkWeight, run[i].threads, a.t);
    }
  }

  predicate Committed(th: Thread) {
    th.op.Flush? || th.op.Submit? || th.op.Reset? || th.base.ExecCheck? || th.base.ExecPreempt?
  }

  /** A stored task of an unsuspended warp is never forgotten: an execute_t is queued, or a thread
      is on its way to flush or execute, or a thread will still scan that buffer, or the next
      thread to yield will find `queueing` pending. */
  lemma NoLostWork(run: seq<State>, i: nat, k: nat)
    requires Runs.IsRun(Init, Next, run) && i < |run|
    requires k < |run[i].store.buffers| && run[i].store.buffers[k] != [] && run[i].atom.suspend == 0
    ensures var s := run[i];
            || s.pool.executes > 0
            || (exists t :: 0 <= t < |s.threads| && Committed(s.threads[t]))
            || (exists t :: 0 <= t < |s.threads| && Covers(s.threads[t], k))
            || (s.atom.queueing.Pending? && exists t :: 0 <= t < |s.threads| && Holds(s.threads[t]))
  {
    RunInv(run, i);
    var s := run[i];
    assert Noticed(s, k);
    if s.atom.queueing.Pending? {
      if s.pool.executes == 0 {
        var u :| 0 <= u < |s.threads| && Answers(s.threads[u]);
        assert Committed(s.threads[u]) || Holds(s.threads[u]);
      }
    } else {
      var u :| 0 <= u < |s.threads| && (WillFlush(s.threads[u]) || Covers(s.threads[u], k));
      assert Committed(s.threads[u]) || Covers(s.threads[u], k);
    }
  }

  /** Nothing is in flight: no thread is inside the warp and the pool holds nothing for it. */
  ghost predicate Quiet(s: State) {
    && s.pool.executes == 0
    && forall t | 0 <= t < |s.threads| :: s.threads[t] == Thread(Free, NoOp)
  }

  /** When an unsuspended warp comes to rest, every task ever pushed was taken out and run,
      buffer by buffer in the order of the pushes. */
  lemma RestMeansDone(run: seq<State>, i: nat)
    requires Runs.IsRun(Init, Next, run) && i < |run| && Quiet(run[i]) && run[i].atom.suspend == 0
    ensures run[i].store.popped == run[i].store.pushed
    ensures forall k | 0 <= k < |run[i].store.buffers| :: run[i].store.buffers[k] == []
  {
    RunInv(run, i);
    var s := run[i];
    forall k | 0 <= k < |s.store.buffers| ensures s.store.buffers[k] == [] {
      if s.store.buffers[k] != [] {
        NoLostWork(run, i, k);
      }
    }
    assert forall k | 0 <= k < |s.store.buffers| :: s.store.popped[k] == s.store.pushed[k];
  }
}
