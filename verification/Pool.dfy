/** The thread pool (grid_async_worker_t): lock-free task chains and the sleep/wake protocol.

    Task nodes are cells of `next`; a task head points to the first node of a chain. An action is
    one atomic operation, or one operation on memory only the acting thread can reach. The fields
    `chains` and `held` are auxiliary: they record as sequences what the pointers say and are
    never read by the other components of a step. */
module Pool {
  import opened Counting
  import Runs

  type Node = nat
  type Ptr = Option<Node>

  datatype Base =
    | Out                                     // outside the worker, or between two rounds of its loop
    | Polling                                 // has seen no terminate(), is before fetch()
    | PollLoad(i: nat)                        // poll: fetch() saw head i filled, before the second load
    | PollTake(i: nat)                        // before exchanging head i with null
    | PollBack(i: nat, task: Node)            // holds the chain, before exchanging the rest back
    | Give(i: nat, task: Node, org: Node)     // was pushed to meanwhile: gives org's chain back
    | GiveLoad(i: nat, task: Node, org: Node, rest: Ptr)
    | GiveLink(i: nat, task: Node, org: Node, rest: Ptr, seen: Ptr)
    | GiveCheck(i: nat, task: Node)           // before reading waiting_thread_count
    | GiveNotify(task: Node)                  // before wakeup_one
    | Running(task: Node)
    | DelayCheck                              // delay(): before testing `terminated`
    | DelayLock                               // before locking the mutex
    | DelayInc                                // holds the mutex, before ++waiting_thread_count
    | DelayFetch(j: nat)                      // fetch(): before loading head j
    | DelayTerm                               // all heads seen empty, before the second test
    | Asleep                                  // in condition.wait
    | Woken                                   // notified, before locking the mutex again
    | DelayOut                                // holds the mutex, before --waiting_thread_count
    | Exited
    | CleanTake(i: nat, empty: bool)          // cleanup(): before exchanging head i with null
    | CleanNext(i: nat, cursor: Ptr)         // about to run the next task of the taken chain
    | CleanRun(i: nat, cursor: Ptr, task: Node)
    | CleanDone(empty: bool)

  datatype Op =
    | NoOp
    | QueueTry(node: Node, prio: nat, n: nat)                        // before the CAS on slot n
    | QueuePick(node: Node, prio: nat)                               // all slots filled
    | QueueLoad(node: Node, head: nat, prio: nat, loud: bool)
    | QueueLink(node: Node, head: nat, seen: Ptr, prio: nat, loud: bool)
    | Linked(prio: nat)                                              // before reading waiting_thread_count
    | Notify                                                         // before wakeup_one
    | NotifyAll                                                      // terminate(): before wakeup_all

  datatype Thread = Thread(base: Base, op: Op, held: seq<Node>)

  /** The sleep/wake variables. */
  datatype Shared = Shared(waiting: nat, terminated: bool, mutex: Option<nat>)

  datatype State = State(
    size: nat,                    // threads in the pool; they come first in `threads`
    limit: nat,
    next: map<Node, Ptr>,
    heads: seq<Ptr>,
    shared: Shared,
    threads: seq<Thread>,
    chains: seq<seq<Node>>,
    asked: map<Node, Option<nat>> // auxiliary: the priority each node was queued with, None after terminate()
  )

  datatype QueueAct =
    | Begin(node: Node, prio: nat) | TrySlot | Pick(m: nat) | LoadHead | LinkNode(spurious: bool)
    | ReadWaiting | Terminate
  datatype PollAct =
    | Test | PickHead(k: nat) | FindNone | Load | Take | PutBack | ReadNext | Reload | GiveBack(spurious: bool)
    | ReadWaitingToo | Finish
  datatype DelayAct =
    | CheckTerm | Lock | Increment | FetchOne | Sleep | Spurious | Relock | Leave | Exit
  datatype CleanAct = Start | TakeChain | RunNext | Return

  datatype Action =
    | Queue(t: nat, q: QueueAct)
    | Poll(t: nat, p: PollAct)
    | Delay(t: nat, d: DelayAct)
    | Clean(t: nat, c: CleanAct)
    | WakeOne(t: nat, u: nat)      // notify_one wakes u
    | WakeNobody(t: nat)           // notify_one finds nobody asleep
    | WakeAll(t: nat)

  /** What a step leaves behind: the acting thread and the memory. */
  datatype Effect = Effect(th: Thread, next: map<Node, Ptr>, heads: seq<Ptr>, chains: seq<seq<Node>>, shared: Shared)

  const DUPLICATES: nat := 4

  function Slot(s: State, prio: nat, n: nat): nat {
    prio + n * s.size
  }

  /** queue() lowers a priority that is too high to the last one. */
  function Clamp(s: State, prio: nat): nat {
    if prio + 1 > s.size > 0 then s.size - 1 else prio
  }

  predicate Steady(s: State, t: nat) {
    t < |s.threads| && s.threads[t].op.NoOp?
  }

  predicate CleanBase(b: Base) {
    b.CleanTake? || b.CleanNext? || b.CleanRun?
  }

  /** A cleanup() is under way. */
  predicate Cleaning(s: State) {
    exists t | 0 <= t < |s.threads| :: CleanBase(s.threads[t].base)
  }

  /** Code of the user runs: a task, or a thread outside the pool. During cleanup only its own
      tasks may queue. */
  predicate UserCode(s: State, t: nat) {
    && Steady(s, t)
    && (|| s.threads[t].base.Running? || s.threads[t].base.CleanRun?
        || (t >= s.size && s.threads[t].base.Out? && !Cleaning(s)))
  }

  // ---------------------------------------------------------------- memory

  function Head(s: State, i: nat): Ptr {
    if i < |s.heads| then s.heads[i] else None
  }

  function NextOf(s: State, x: Node): Ptr {
    if x in s.next then s.next[x] else None
  }

  function ChainAt(s: State, i: nat): seq<Node> {
    if i < |s.chains| then s.chains[i] else []
  }

  function Tail(c: seq<Node>): seq<Node> {
    if c == [] then [] else c[1..]
  }

  function Same(s: State, th: Thread): Effect {
    Effect(th, s.next, s.heads, s.chains, s.shared)
  }

  /** Head i now points to v, the first node of chain c. */
  function Put(s: State, e: Effect, i: nat, v: Ptr, c: seq<Node>): Effect {
    if i < |s.heads| && i < |s.chains| then e.(heads := s.heads[i := v], chains := s.chains[i := c]) else e
  }

  /** CAS of head i from `seen` to node x, whose next link was set to `seen` just before. */
  function Link(s: State, th: Thread, i: nat, x: Node, seen: Ptr): Effect {
    Put(s, Same(s, th).(next := s.next[x := seen]), i, Some(x), [x] + ChainAt(s, i))
  }

  predicate Swaps(s: State, i: nat, seen: Ptr, spurious: bool) {
    !spurious && i < |s.heads| && s.heads[i] == seen
  }

  // ---------------------------------------------------------------- queue() and terminate()

  predicate QueueEnabled(s: State, t: nat, q: QueueAct) {
    && t < |s.threads|
    && match q
       case Begin(node, prio) => UserCode(s, t) && node !in s.next
       case TrySlot => s.threads[t].op.QueueTry?
       case Pick(m) => s.threads[t].op.QueuePick? && m < DUPLICATES
       case LoadHead => s.threads[t].op.QueueLoad?
       case LinkNode(_) => s.threads[t].op.QueueLink?
       case ReadWaiting => s.threads[t].op.Linked?
       case Terminate => UserCode(s, t)
  }

  function QueueStep(s: State, t: nat, q: QueueAct): Effect
    requires QueueEnabled(s, t, q)
  {
    var th := s.threads[t];
    var op := th.op;
    match q
    case Begin(node, prio) =>
      Same(s, th.(op := if s.shared.terminated then QueueLoad(node, 0, 0, false) else QueueTry(node, Clamp(s, prio), 0)))
        .(next := s.next[node := None])
    case TrySlot =>
      var i := Slot(s, op.prio, op.n);
      if Head(s, i).None? then Put(s, Same(s, th.(op := Linked(op.prio))), i, Some(op.node), [op.node])
      else Same(s, th.(op := if op.n + 1 < DUPLICATES then op.(n := op.n + 1) else QueuePick(op.node, op.prio)))
    case Pick(m) => Same(s, th.(op := QueueLoad(op.node, Slot(s, op.prio, m), op.prio, true)))
    case LoadHead => Same(s, th.(op := QueueLink(op.node, op.head, Head(s, op.head), op.prio, op.loud)))
    case LinkNode(spurious) =>
      if Swaps(s, op.head, op.seen, spurious) then
        Link(s, th.(op := if op.loud then Linked(op.prio) else NoOp), op.head, op.node, op.seen)
      else
        Same(s, th.(op := op.(seen := Head(s, op.head)))).(next := s.next[op.node := op.seen])
    case ReadWaiting => Same(s, th.(op := if s.shared.waiting > op.prio + s.limit then Notify else NoOp))
    case Terminate => Same(s, th.(op := NotifyAll)).(shared := s.shared.(terminated := true))
  }

  // ---------------------------------------------------------------- poll()

  predicate PollEnabled(s: State, t: nat, p: PollAct) {
    && Steady(s, t)
    && var b := s.threads[t].base;
       match p
       case Test => t < s.size && b.Out? && !s.shared.terminated
       case PickHead(k) => b.Polling? && Head(s, k).Some?
       case FindNone => b.Polling?
       case Load => b.PollLoad?
       case Take => b.PollTake?
       case PutBack => b.PollBack?
       case ReadNext => b.Give?
       case Reload => b.GiveLoad?
       case GiveBack(_) => b.GiveLink?
       case ReadWaitingToo => b.GiveCheck?
       case Finish => b.Running?
  }

  /** The priority of a task head. */
  function Prio(s: State, i: nat): nat {
    if s.size == 0 then 0 else i % s.size
  }

  function PollStep(s: State, t: nat, p: PollAct): Effect
    requires PollEnabled(s, t, p)
  {
    var th := s.threads[t];
    var b := th.base;
    match p
    case Test => Same(s, th.(base := Polling))
    case PickHead(k) => Same(s, th.(base := PollLoad(k)))
    case FindNone => Same(s, th.(base := DelayCheck))
    case Load => Same(s, th.(base := if Head(s, b.i).Some? then PollTake(b.i) else Out))
    case Take =>
      if Head(s, b.i).None? then Same(s, th.(base := Out))
      else Put(s, Same(s, th.(base := PollBack(b.i, Head(s, b.i).value), held := Tail(ChainAt(s, b.i)))), b.i, None, [])
    case PutBack =>
      Put(s, Same(s, if Head(s, b.i).None? then th.(base := Running(b.task), held := [])
                     else th.(base := Give(b.i, b.task, Head(s, b.i).value), held := ChainAt(s, b.i))),
          b.i, NextOf(s, b.task), th.held)
    case ReadNext => Same(s, th.(base := GiveLoad(b.i, b.task, b.org, NextOf(s, b.org)), held := Tail(th.held)))
    case Reload => Same(s, th.(base := GiveLink(b.i, b.task, b.org, b.rest, Head(s, b.i))))
    case GiveBack(spurious) =>
      if Swaps(s, b.i, b.seen, spurious) then
        Link(s, th.(base := if b.rest.Some? then Give(b.i, b.task, b.rest.value) else GiveCheck(b.i, b.task)),
             b.i, b.org, b.seen)
      else
        Same(s, th.(base := b.(seen := Head(s, b.i)))).(next := s.next[b.org := b.seen])
    case ReadWaitingToo =>
      Same(s, th.(base := if s.shared.waiting > Prio(s, b.i) + s.limit then GiveNotify(b.task) else Running(b.task)))
    case Finish => Same(s, th.(base := Out)).(next := s.next - {b.task})
  }

  // ---------------------------------------------------------------- delay()

  predicate DelayEnabled(s: State, t: nat, d: DelayAct) {
    && Steady(s, t)
    && var b := s.threads[t].base;
       match d
       case CheckTerm => b.DelayCheck?
       case Lock => b.DelayLock? && s.shared.mutex.None?
       case Increment => b.DelayInc?
       case FetchOne => b.DelayFetch?
       case Sleep => b.DelayTerm?
       case Spurious => b.Asleep?
       case Relock => b.Woken? && s.shared.mutex.None?
       case Leave => b.DelayOut?
       case Exit => b.Out? && t < s.size && s.shared.terminated
  }

  function DelayStep(s: State, t: nat, d: DelayAct): Effect
    requires DelayEnabled(s, t, d)
  {
    var th := s.threads[t];
    var b := th.base;
    var h := s.shared;
    match d
    case CheckTerm => Same(s, th.(base := if h.terminated then Out else DelayLock))
    case Lock => Same(s, th.(base := DelayInc)).(shared := h.(mutex := Some(t)))
    case Increment => Same(s, th.(base := DelayFetch(0))).(shared := h.(waiting := h.waiting + 1))
    case FetchOne =>
      Same(s, th.(base := if b.j >= |s.heads| then DelayTerm else if s.heads[b.j].Some? then DelayOut else DelayFetch(b.j + 1)))
    case Sleep =>
      if h.terminated then Same(s, th.(base := DelayOut))
      else Same(s, th.(base := Asleep)).(shared := h.(mutex := None))
    case Spurious => Same(s, th.(base := Woken))
    case Relock => Same(s, th.(base := DelayOut)).(shared := h.(mutex := Some(t)))
    case Leave =>
      Same(s, th.(base := Out)).(shared := h.(waiting := if h.waiting > 0 then h.waiting - 1 else 0, mutex := None))
    case Exit => Same(s, th.(base := Exited))
  }

  // ---------------------------------------------------------------- join() and cleanup()

  predicate CleanEnabled(s: State, t: nat, c: CleanAct) {
    && Steady(s, t)
    && var b := s.threads[t].base;
       match c
       case Start =>
         && t >= s.size && (b.Out? || b == CleanDone(false)) && s.shared.terminated && !Cleaning(s)
         && (forall u | 0 <= u < s.size && u < |s.threads| :: s.threads[u].base.Exited?)
         && (forall u | 0 <= u < |s.threads| :: s.threads[u].op.NoOp?)
       case TakeChain => b.CleanTake?
       case RunNext => b.CleanNext?
       case Return => b.CleanRun?
  }

  function CleanStep(s: State, t: nat, c: CleanAct): Effect
    requires CleanEnabled(s, t, c)
  {
    var th := s.threads[t];
    var b := th.base;
    match c
    case Start => Same(s, th.(base := CleanTake(0, true)))
    case TakeChain =>
      if b.i >= |s.heads| then Same(s, th.(base := CleanDone(b.empty)))
      else if s.heads[b.i].None? then Same(s, th.(base := CleanTake(b.i + 1, b.empty)))
      else Put(s, Same(s, th.(base := CleanNext(b.i, s.heads[b.i]), held := ChainAt(s, b.i))), b.i, None, [])
    case RunNext =>
      if b.cursor.None? then Same(s, th.(base := CleanTake(b.i + 1, false)))
      else Same(s, th.(base := CleanRun(b.i, NextOf(s, b.cursor.value), b.cursor.value), held := Tail(th.held)))
    case Return => Same(s, th.(base := CleanNext(b.i, b.cursor))).(next := s.next - {b.task})
  }

  // ---------------------------------------------------------------- steps

  predicate CanWake(s: State, t: nat) {
    t < |s.threads| && s.shared.mutex.None? &&
    (s.threads[t].op.Notify? || (s.threads[t].op.NoOp? && s.threads[t].base.GiveNotify?))
  }

  predicate NobodySleeps(s: State) {
    forall u | 0 <= u < |s.threads| :: !s.threads[u].base.Asleep?
  }

  predicate Enabled(s: State, a: Action) {
    match a
    case Queue(t, q) => QueueEnabled(s, t, q)
    case Poll(t, p) => PollEnabled(s, t, p)
    case Delay(t, d) => DelayEnabled(s, t, d)
    case Clean(t, c) => CleanEnabled(s, t, c)
    case WakeOne(t, u) => CanWake(s, t) && u < |s.threads| && s.threads[u].base.Asleep?
    case WakeNobody(t) => CanWake(s, t) && NobodySleeps(s)
    case WakeAll(t) => t < |s.threads| && s.threads[t].op.NotifyAll? && s.shared.mutex.None?
  }

  /** After wakeup_one. */
  function Woke(th: Thread): Thread {
    if th.op.Notify? then th.(op := NoOp)
    else if th.base.GiveNotify? then th.(base := Running(th.base.task))
    else th
  }

  function Eff(s: State, a: Action): Effect
    requires Enabled(s, a)
  {
    match a
    case Queue(t, q) => QueueStep(s, t, q)
    case Poll(t, p) => PollStep(s, t, p)
    case Delay(t, d) => DelayStep(s, t, d)
    case Clean(t, c) => CleanStep(s, t, c)
    case WakeOne(t, u) => Same(s, Woke(s.threads[t]))
    case WakeNobody(t) => Same(s, Woke(s.threads[t]))
    case WakeAll(t) => Same(s, s.threads[t].(op := NoOp))
  }

  function Wake(th: Thread): Thread {
    if th.base.Asleep? then th.(base := Woken) else th
  }

  /** All threads after a step: the acting one, and whoever it wakes. */
  function Threads(s: State, a: Action, th: Thread): seq<Thread>
    requires a.t < |s.threads|
  {
    var moved := s.threads[a.t := th];
    match a
    case WakeOne(t, u) => if u < |moved| then moved[u := Wake(moved[u])] else moved
    case WakeAll(t) => seq(|moved|, u requires 0 <= u < |moved| => Wake(moved[u]))
    case _ => moved
  }

  function Step(s: State, a: Action): State
    requires Enabled(s, a)
  {
    var e := Eff(s, a);
    State(s.size, s.limit, e.next, e.heads, e.shared, Threads(s, a, e.th), e.chains,
          if a.Queue? && a.q.Begin? then s.asked[a.q.node := if s.shared.terminated then None else Some(a.q.prio)] else s.asked)
  }

  ghost predicate Init(s: State) {
    && 0 < s.size <= |s.threads|
    && s.next == map[] && s.asked == map[]
    && |s.heads| == |s.chains| == DUPLICATES * s.size
    && (forall i | 0 <= i < |s.heads| :: s.heads[i].None? && s.chains[i] == [])
    && s.shared == Shared(0, false, None)
    && forall t | 0 <= t < |s.threads| :: s.threads[t] == Thread(Out, NoOp, [])
  }

  ghost predicate Next(s: State, s': State) {
    exists a :: Enabled(s, a) && s' == Step(s, a)
  }

  // ---------------------------------------------------------------- shape

  predicate PollBase(b: Base) {
    b.PollLoad? || b.PollTake? || b.PollBack? || b.Give? || b.GiveLoad? || b.GiveLink? || b.GiveCheck?
  }

  predicate BaseOK(b: Base, heads: nat, worker: bool) {
    && (PollBase(b) ==> b.i < heads)
    && (b.DelayFetch? ==> b.j <= heads)
    && (b.CleanTake? ==> b.i <= heads)
    && (b.CleanNext? || b.CleanRun? ==> b.i < heads)
    && (if worker then !CleanBase(b) && !b.CleanDone? else CleanBase(b) || b.CleanDone? || b.Out?)
  }

  predicate OpOK(op: Op, heads: nat, size: nat) {
    match op
    case QueueTry(_, prio, n) => prio < size && n < DUPLICATES
    case QueuePick(_, prio) => prio < size
    case QueueLoad(_, head, prio, _) => head < heads && prio < size
    case QueueLink(_, head, _, prio, _) => head < heads && prio < size
    case Linked(prio) => prio < size
    case _ => true
  }

  predicate ThreadOK(th: Thread, heads: nat, size: nat, worker: bool) {
    && BaseOK(th.base, heads, worker)
    && OpOK(th.op, heads, size)
    && (!th.op.NoOp? ==> th.base.Running? || th.base.CleanRun? || (th.base.Out? && !worker))
  }

  ghost predicate Shape(s: State) {
    && 0 < s.size <= |s.threads|
    && |s.heads| == |s.chains| == DUPLICATES * s.size
    && forall t | 0 <= t < |s.threads| :: ThreadOK(s.threads[t], |s.heads|, s.size, t < s.size)
  }

  lemma SlotBound(s: State, prio: nat, n: nat)
    requires prio < s.size && n < DUPLICATES
    ensures Slot(s, prio, n) < DUPLICATES * s.size
  {
    assert n == 0 || n == 1 || n == 2 || n == 3;
  }

  lemma QueueShape(s: State, t: nat, q: QueueAct)
    requires QueueEnabled(s, t, q) && 0 < s.size && |s.heads| == |s.chains| == DUPLICATES * s.size
    requires ThreadOK(s.threads[t], |s.heads|, s.size, t < s.size)
    ensures var e := QueueStep(s, t, q);
            |e.heads| == |e.chains| == |s.heads| && ThreadOK(e.th, |s.heads|, s.size, t < s.size)
  {
    if q.Pick? {
      SlotBound(s, s.threads[t].op.prio, q.m);
    }
  }

  lemma EffShape(s: State, a: Action)
    requires Enabled(s, a) && 0 < s.size && |s.heads| == |s.chains| == DUPLICATES * s.size
    requires ThreadOK(s.threads[a.t], |s.heads|, s.size, a.t < s.size)
    ensures var e := Eff(s, a);
            |e.heads| == |e.chains| == |s.heads| && ThreadOK(e.th, |s.heads|, s.size, a.t < s.size)
  {
    if a.Queue? {
      hide QueueStep, PollStep, DelayStep, CleanStep;
      QueueShape(s, a.t, a.q);
    } else if a.Poll? {
      PollShape(s, a.t, a.p);
    } else {
      hide QueueStep, PollStep;
      RestShape(s, a);
    }
  }

  lemma PollShape(s: State, t: nat, p: PollAct)
    requires PollEnabled(s, t, p) && 0 < s.size && |s.heads| == |s.chains| == DUPLICATES * s.size
    requires ThreadOK(s.threads[t], |s.heads|, s.size, t < s.size)
    ensures var e := PollStep(s, t, p);
            |e.heads| == |e.chains| == |s.heads| && ThreadOK(e.th, |s.heads|, s.size, t < s.size)
  {
  }

  lemma RestShape(s: State, a: Action)
    requires Enabled(s, a) && !a.Queue? && !a.Poll? && 0 < s.size && |s.heads| == |s.chains| == DUPLICATES * s.size
    requires ThreadOK(s.threads[a.t], |s.heads|, s.size, a.t < s.size)
    ensures var e := Eff(s, a);
            |e.heads| == |e.chains| == |s.heads| && ThreadOK(e.th, |s.heads|, s.size, a.t < s.size)
  {
    hide QueueStep, PollStep;
  }

  /** A step moves its actor, and otherwise only wakes sleepers. */
  lemma ThreadsFrame(s: State, a: Action, th: Thread)
    requires Enabled(s, a) && (a.WakeOne? || a.WakeAll? ==> !th.base.Asleep?)
    ensures var after := Threads(s, a, th);
            && |after| == |s.threads|
            && after[a.t] == th
            && forall u | 0 <= u < |after| && u != a.t :: after[u] == s.threads[u] || after[u] == Wake(s.threads[u])
  {
  }

  lemma AwakeWaker(s: State, a: Action)
    requires Enabled(s, a) && ThreadOK(s.threads[a.t], |s.heads|, s.size, a.t < s.size)
    ensures a.WakeOne? || a.WakeAll? ==> !Eff(s, a).th.base.Asleep?
  {
  }

  lemma StepShape(s: State, a: Action)
    requires Shape(s) && Enabled(s, a)
    ensures Shape(Step(s, a))
  {
    EffShape(s, a);
    AwakeWaker(s, a);
    ThreadsFrame(s, a, Eff(s, a).th);
    var after := Threads(s, a, Eff(s, a).th);
    forall t | 0 <= t < |after| ensures ThreadOK(after[t], |s.heads|, s.size, t < s.size) {
      assert ThreadOK(s.threads[t], |s.heads|, s.size, t < s.size);
    }
  }

  // ---------------------------------------------------------------- chains

  /** Pointer l leads through exactly the nodes of c. */
  predicate Tied(next: map<Node, Ptr>, l: Ptr, c: seq<Node>)
    decreases c
  {
    if c == [] then l.None? else l == Some(c[0]) && c[0] in next && Tied(next, next[c[0]], c[1..])
  }

  lemma {:induction false} TiedFrame(next: map<Node, Ptr>, l: Ptr, c: seq<Node>, x: Node, v: Ptr)
    requires Tied(next, l, c) && x !in c
    ensures Tied(next[x := v], l, c) && Tied(next - {x}, l, c)
    decreases c
  {
    if c != [] {
      TiedFrame(next, next[c[0]], c[1..], x, v);
    }
  }

  /** What a thread holds privately is a chain, too. */
  predicate HeldOK(next: map<Node, Ptr>, th: Thread) {
    match th.base
    case PollBack(_, task) => task in next && Tied(next, next[task], th.held)
    case Give(_, _, org) => Tied(next, Some(org), th.held)
    case GiveLoad(_, _, _, rest) => Tied(next, rest, th.held)
    case GiveLink(_, _, _, rest, _) => Tied(next, rest, th.held)
    case CleanNext(_, cursor) => Tied(next, cursor, th.held)
    case CleanRun(_, cursor, _) => Tied(next, cursor, th.held)
    case _ => th.held == []
  }

  /** A task that is being queued has a live node, at first with a null link. */
  predicate OpLive(next: map<Node, Ptr>, op: Op) {
    match op
    case QueueTry(node, _, _) => node in next && next[node].None?
    case QueuePick(node, _) => node in next
    case QueueLoad(node, _, _, _) => node in next
    case QueueLink(node, _, _, _, _) => node in next
    case _ => true
  }

  ghost predicate ChainsOK(s: State)
    requires Shape(s)
  {
    && (forall i | 0 <= i < |s.heads| :: Tied(s.next, s.heads[i], s.chains[i]))
    && (forall t | 0 <= t < |s.threads| :: HeldOK(s.next, s.threads[t]) && OpLive(s.next, s.threads[t].op))
  }

  // ---------------------------------------------------------------- every task in one place

  /** How often x is among the unstarted tasks a thread is about to queue. */
  function OpCount(op: Op, x: Node): nat {
    match op
    case QueueTry(node, _, _) => AsNat(node == x)
    case QueuePick(node, _) => AsNat(node == x)
    case QueueLoad(node, _, _, _) => AsNat(node == x)
    case QueueLink(node, _, _, _, _) => AsNat(node == x)
    case _ => 0
  }

  /** How often x is among the unstarted tasks a thread took out of a head. */
  function BaseCount(b: Base, held: seq<Node>, x: Node): nat {
    match b
    case PollBack(_, task) => AsNat(task == x) + multiset(held)[x]
    case Give(_, task, _) => AsNat(task == x) + multiset(held)[x]
    case GiveLoad(_, task, org, _) => AsNat(task == x) + AsNat(org == x) + multiset(held)[x]
    case GiveLink(_, task, org, _, _) => AsNat(task == x) + AsNat(org == x) + multiset(held)[x]
    case GiveCheck(_, task) => AsNat(task == x)
    case GiveNotify(task) => AsNat(task == x)
    case CleanNext(_, _) => multiset(held)[x]
    case CleanRun(_, _, _) => multiset(held)[x]
    case _ => 0
  }

  function RunCount(b: Base, x: Node): nat {
    AsNat((b.Running? || b.CleanRun?) && b.task == x)
  }

  function InChain(x: Node): seq<Node> -> nat {
    c => multiset(c)[x]
  }

  /** How often a thread has x: about to queue it, in hand, or running it. */
  function Carried(th: Thread, x: Node): nat {
    OpCount(th.op, x) + BaseCount(th.base, th.held, x) + RunCount(th.base, x)
  }

  function InThread(x: Node): Thread -> nat {
    (th: Thread) => Carried(th, x)
  }

  /** A live task node sits in exactly one chain, or with exactly one thread. */
  ghost predicate Placed(s: State, x: Node) {
    Sum(InChain(x), s.chains) + Sum(InThread(x), s.threads) == AsNat(x in s.next)
  }

  ghost predicate AllPlaced(s: State) {
    forall x: Node :: Placed(s, x)
  }

  lemma TailCount(c: seq<Node>, x: Node)
    ensures multiset(Tail(c))[x] + AsNat(c != [] && c[0] == x) == multiset(c)[x]
  {
    if c != [] {
      assert c == [c[0]] + Tail(c);
    }
  }

  lemma ConsCount(y: Node, c: seq<Node>, x: Node)
    ensures multiset([y] + c)[x] == AsNat(y == x) + multiset(c)[x]
  {
  }

  /** The head a step may change. */
  function Touched(s: State, a: Action): nat
    requires Enabled(s, a)
  {
    var th := s.threads[a.t];
    match a
    case Queue(_, q) =>
      if q.TrySlot? then Slot(s, th.op.prio, th.op.n) else if q.LinkNode? then th.op.head else 0
    case Poll(_, p) => if p.Take? || p.PutBack? || p.GiveBack? then th.base.i else 0
    case Clean(_, c) => if c.TakeChain? && th.base.i < |s.heads| then th.base.i else 0
    case _ => 0
  }

  /** The cell a step may write. */
  function Written(s: State, a: Action): Option<Node>
    requires Enabled(s, a)
  {
    var th := s.threads[a.t];
    match a
    case Queue(_, q) => if q.Begin? then Some(q.node) else if q.LinkNode? then Some(th.op.node) else None
    case Poll(_, p) => if p.GiveBack? then Some(th.base.org) else if p.Finish? then Some(th.base.task) else None
    case Clean(_, c) => if c.Return? then Some(th.base.task) else None
    case _ => None
  }

  /** A step leaves all chains but the touched one alone. */
  lemma ChainsFrame(s: State, a: Action)
    requires Enabled(s, a) && Touched(s, a) < |s.heads| == |s.chains|
    ensures var e := Eff(s, a);
            var k := Touched(s, a);
            && |e.chains| == |s.chains| && e.chains == s.chains[k := e.chains[k]]
            && |e.heads| == |s.heads| && e.heads == s.heads[k := e.heads[k]]
  {
  }

  /** Which nodes a step brings to life and frees. */
  lemma NextFrame(s: State, a: Action)
    requires Enabled(s, a) && (Written(s, a).Some? && !Allocates(a) ==> Written(s, a).value in s.next)
    ensures var e := Eff(s, a);
            || e.next == s.next
            || (Written(s, a).Some? && Written(s, a).value in e.next && !Frees(a)
                && e.next == s.next[Written(s, a).value := e.next[Written(s, a).value]])
            || (Written(s, a).Some? && e.next == s.next - {Written(s, a).value} && Frees(a))
  {
  }

  predicate Allocates(a: Action) {
    a.Queue? && a.q.Begin?
  }

  predicate Frees(a: Action) {
    (a.Poll? && a.p.Finish?) || (a.Clean? && a.c.Return?)
  }

  /** Task x as a step sees it: in the touched chain or with the actor. */
  function Before(s: State, a: Action, x: Node): nat
    requires Enabled(s, a) && Touched(s, a) < |s.chains|
  {
    multiset(s.chains[Touched(s, a)])[x] + Carried(s.threads[a.t], x)
  }

  function After(s: State, a: Action, x: Node): nat
    requires Enabled(s, a) && Touched(s, a) < |Eff(s, a).chains|
  {
    multiset(Eff(s, a).chains[Touched(s, a)])[x] + Carried(Eff(s, a).th, x)
  }

  /** Pointer l agrees with the first node of c. */
  predicate Fits(l: Ptr, c: seq<Node>) {
    if c == [] then l.None? else l == Some(c[0])
  }

  /** The actor's own pointers agree with what it holds. */
  predicate HeldFits(th: Thread) {
    match th.base
    case Give(_, _, org) => Fits(Some(org), th.held)
    case GiveLoad(_, _, _, rest) => Fits(rest, th.held)
    case GiveLink(_, _, _, rest, _) => Fits(rest, th.held)
    case CleanNext(_, cursor) => Fits(cursor, th.held)
    case _ => true
  }

  ghost predicate Ready(s: State, a: Action)
    requires Enabled(s, a)
  {
    var k := Touched(s, a);
    k < |s.heads| == |s.chains| && Fits(s.heads[k], s.chains[k]) && HeldFits(s.threads[a.t])
  }

  lemma LinkMoves(s: State, t: nat, q: QueueAct, x: Node)
    requires q.LinkNode? && QueueEnabled(s, t, q) && Ready(s, Queue(t, q))
    ensures |Eff(s, Queue(t, q)).chains| == |s.chains|
    ensures After(s, Queue(t, q), x) == Before(s, Queue(t, q), x)
  {
    hide PollStep, DelayStep, CleanStep, Sum;
    ConsCount(s.threads[t].op.node, s.chains[s.threads[t].op.head], x);
  }

  lemma TryMoves(s: State, t: nat, q: QueueAct, x: Node)
    requires q.TrySlot? && QueueEnabled(s, t, q) && Ready(s, Queue(t, q))
    ensures |Eff(s, Queue(t, q)).chains| == |s.chains|
    ensures After(s, Queue(t, q), x) == Before(s, Queue(t, q), x)
  {
    hide PollStep, DelayStep, CleanStep, Sum;
    assert multiset([s.threads[t].op.node])[x] == AsNat(s.threads[t].op.node == x);
  }

  lemma QueueMoves(s: State, t: nat, q: QueueAct, x: Node)
    requires QueueEnabled(s, t, q) && Ready(s, Queue(t, q))
    ensures |Eff(s, Queue(t, q)).chains| == |s.chains|
    ensures After(s, Queue(t, q), x) == Before(s, Queue(t, q), x) + AsNat(q.Begin? && q.node == x)
  {
    if q.LinkNode? {
      LinkMoves(s, t, q, x);
    } else if q.TrySlot? {
      TryMoves(s, t, q, x);
    }
  }

  lemma TakeMoves(s: State, t: nat, x: Node)
    requires PollEnabled(s, t, Take) && Ready(s, Poll(t, Take))
    ensures |Eff(s, Poll(t, Take)).chains| == |s.chains|
    ensures After(s, Poll(t, Take), x) == Before(s, Poll(t, Take), x)
  {
    TailCount(s.chains[s.threads[t].base.i], x);
  }

  lemma PutBackMoves(s: State, t: nat, x: Node)
    requires PollEnabled(s, t, PutBack) && Ready(s, Poll(t, PutBack))
    ensures |Eff(s, Poll(t, PutBack)).chains| == |s.chains|
    ensures After(s, Poll(t, PutBack), x) == Before(s, Poll(t, PutBack), x)
  {
  }

  lemma GiveMoves(s: State, t: nat, spurious: bool, x: Node)
    requires PollEnabled(s, t, GiveBack(spurious)) && Ready(s, Poll(t, GiveBack(spurious)))
    ensures |Eff(s, Poll(t, GiveBack(spurious))).chains| == |s.chains|
    ensures After(s, Poll(t, GiveBack(spurious)), x) == Before(s, Poll(t, GiveBack(spurious)), x)
  {
    var b := s.threads[t].base;
    var e := Eff(s, Poll(t, GiveBack(spurious)));
    if Swaps(s, b.i, b.seen, spurious) {
      ConsCount(b.org, s.chains[b.i], x);
      assert e.chains[b.i] == [b.org] + s.chains[b.i];
    } else {
      assert e.chains == s.chains;
    }
  }

  lemma PollMoves(s: State, t: nat, p: PollAct, x: Node)
    requires PollEnabled(s, t, p) && Ready(s, Poll(t, p)) && !p.Take? && !p.PutBack? && !p.GiveBack?
    ensures |Eff(s, Poll(t, p)).chains| == |s.chains|
    ensures After(s, Poll(t, p), x) + AsNat(p.Finish? && s.threads[t].base.task == x) == Before(s, Poll(t, p), x)
  {
    if p.ReadNext? {
      ReadNextMoves(s, t, x);
    }
  }

  lemma ReadNextMoves(s: State, t: nat, x: Node)
    requires PollEnabled(s, t, ReadNext) && Ready(s, Poll(t, ReadNext))
    ensures |Eff(s, Poll(t, ReadNext)).chains| == |s.chains|
    ensures After(s, Poll(t, ReadNext), x) == Before(s, Poll(t, ReadNext), x)
  {
    hide QueueStep, DelayStep, CleanStep, Sum;
    TailCount(s.threads[t].held, x);
  }

  lemma CleanTakeMoves(s: State, t: nat, x: Node)
    requires CleanEnabled(s, t, TakeChain) && Ready(s, Clean(t, TakeChain))
    ensures |Eff(s, Clean(t, TakeChain)).chains| == |s.chains|
    ensures After(s, Clean(t, TakeChain), x) == Before(s, Clean(t, TakeChain), x)
  {
  }

  lemma CleanMoves(s: State, t: nat, c: CleanAct, x: Node)
    requires CleanEnabled(s, t, c) && Ready(s, Clean(t, c)) && !c.TakeChain?
    ensures |Eff(s, Clean(t, c)).chains| == |s.chains|
    ensures After(s, Clean(t, c), x) + AsNat(c.Return? && s.threads[t].base.task == x) == Before(s, Clean(t, c), x)
  {
    TailCount(s.threads[t].held, x);
    assert Eff(s, Clean(t, c)).chains == s.chains;
  }

  lemma StepCount(s: State, a: Action, x: Node)
    requires Enabled(s, a) && Ready(s, a)
    requires Written(s, a).Some? && !Allocates(a) ==> Written(s, a).value in s.next
    ensures |Eff(s, a).chains| == |s.chains|
    ensures After(s, a, x) + AsNat(x in s.next) == Before(s, a, x) + AsNat(x in Eff(s, a).next)
  {
    NextFrame(s, a);
    match a
    case Queue(t, q) => QueueMoves(s, t, q, x);
    case Poll(t, p) =>
      if p.Take? {
        TakeMoves(s, t, x);
      } else if p.PutBack? {
        PutBackMoves(s, t, x);
      } else if p.GiveBack? {
        GiveMoves(s, t, p.spurious, x);
      } else {
        PollMoves(s, t, p, x);
      }
    case Delay(t, d) => DelayMoves(s, t, d, x);
    case Clean(t, c) =>
      if c.TakeChain? {
        CleanTakeMoves(s, t, x);
      } else {
        CleanMoves(s, t, c, x);
      }
    case _ =>
  }

  lemma DelayMoves(s: State, t: nat, d: DelayAct, x: Node)
    requires DelayEnabled(s, t, d) && Ready(s, Delay(t, d))
    ensures |Eff(s, Delay(t, d)).chains| == |s.chains|
    ensures After(s, Delay(t, d), x) == Before(s, Delay(t, d), x)
  {
  }

  /** Waking a thread does not change what it has. */
  lemma WakeKeepsTasks(s: State, a: Action, th: Thread, x: Node)
    requires a.t < |s.threads| && (a.WakeOne? || a.WakeAll? ==> !th.base.Asleep?)
    ensures Sum(InThread(x), Threads(s, a, th)) == Sum(InThread(x), s.threads[a.t := th])
  {
    SumSame(InThread(x), Threads(s, a, th), InThread(x), s.threads[a.t := th]);
  }

  lemma StepPlaced(s: State, a: Action, x: Node)
    requires Shape(s) && Enabled(s, a) && Ready(s, a) && Placed(s, x)
    requires Written(s, a).Some? && !Allocates(a) ==> Written(s, a).value in s.next
    ensures Placed(Step(s, a), x)
  {
    var e := Eff(s, a);
    var k := Touched(s, a);
    StepCount(s, a, x);
    ChainsFrame(s, a);
    AwakeWaker(s, a);
    SumUpdate(InChain(x), s.chains, k, e.chains[k]);
    SumUpdate(InThread(x), s.threads, a.t, e.th);
    WakeKeepsTasks(s, a, e.th, x);
  }

  // ---- the chains stay what the pointers say

  /** Nothing else leads to the cell a step writes. */
  ghost predicate Private(s: State, a: Action)
    requires Enabled(s, a)
  {
    Written(s, a).Some? ==>
      var w := Written(s, a).value;
      && (forall i | 0 <= i < |s.chains| :: w !in s.chains[i])
      && (forall u | 0 <= u < |s.threads| :: w !in s.threads[u].held)
      && (forall u | 0 <= u < |s.threads| && (u != a.t || Allocates(a)) :: Carried(s.threads[u], w) == 0)
      && (!Allocates(a) ==> w in s.next)
  }

  lemma IsPrivate(s: State, a: Action)
    requires Shape(s) && ChainsOK(s) && Enabled(s, a)
    requires Written(s, a).Some? ==> Placed(s, Written(s, a).value)
    ensures Private(s, a)
  {
    if Written(s, a).Some? {
      var w := Written(s, a).value;
      WrittenCarried(s, a);
      SumAtLeast(InThread(w), s.threads, a.t);
      SumAllZero(InChain(w), s.chains);
      forall u | 0 <= u < |s.threads|
        ensures w !in s.threads[u].held && (u != a.t || Allocates(a) ==> Carried(s.threads[u], w) == 0)
      {
        SumAtLeast(InThread(w), s.threads, u);
        if u < a.t {
          SumPair(InThread(w), s.threads, u, a.t);
        } else if a.t < u {
          SumPair(InThread(w), s.threads, a.t, u);
        }
        assert HeldOK(s.next, s.threads[u]);
        HeldCounted(s.next, s.threads[u], w);
        assert w in s.threads[u].held <==> multiset(s.threads[u].held)[w] > 0;
      }
      forall i | 0 <= i < |s.chains| ensures w !in s.chains[i] {
        assert InChain(w)(s.chains[i]) == 0;
      }
    }
  }

  /** The actor has the node whose cell it writes, besides anything it holds as a chain. */
  lemma WrittenCarried(s: State, a: Action)
    requires Enabled(s, a) && Written(s, a).Some?
    ensures var th, w := s.threads[a.t], Written(s, a).value;
            Allocates(a) || Carried(th, w) > multiset(th.held)[w] * AsNat(Holding(th.base))
  {
  }

  predicate Holding(b: Base) {
    b.PollBack? || b.Give? || b.GiveLoad? || b.GiveLink? || b.CleanNext? || b.CleanRun?
  }

  lemma HeldCounted(next: map<Node, Ptr>, th: Thread, x: Node)
    requires HeldOK(next, th)
    ensures Carried(th, x) >= multiset(th.held)[x] && (!Holding(th.base) ==> th.held == [])
  {
  }

  /** Chains and hands that avoid the written cell stay as they are. */
  lemma Untouched(s: State, a: Action, l: Ptr, c: seq<Node>)
    requires Enabled(s, a) && Tied(s.next, l, c)
    requires Written(s, a).Some? ==> Written(s, a).value !in c && (!Allocates(a) ==> Written(s, a).value in s.next)
    ensures Tied(Eff(s, a).next, l, c)
  {
    var e := Eff(s, a);
    NextFrame(s, a);
    if Written(s, a).Some? {
      var w := Written(s, a).value;
      TiedFrame(s.next, l, c, w, if w in e.next then e.next[w] else None);
    }
  }

  lemma UntouchedThread(s: State, a: Action, th: Thread)
    requires Enabled(s, a) && HeldOK(s.next, th) && OpLive(s.next, th.op)
    requires Written(s, a).Some? ==>
               && Written(s, a).value !in th.held && (!Allocates(a) ==> Written(s, a).value in s.next)
               && Carried(th, Written(s, a).value) == 0
    ensures HeldOK(Eff(s, a).next, th) && OpLive(Eff(s, a).next, th.op)
  {
    NextFrame(s, a);
    match th.base
    case PollBack(_, task) => Untouched(s, a, s.next[task], th.held);
    case Give(_, _, org) => Untouched(s, a, Some(org), th.held);
    case GiveLoad(_, _, _, rest) => Untouched(s, a, rest, th.held);
    case GiveLink(_, _, _, rest, _) => Untouched(s, a, rest, th.held);
    case CleanNext(_, cursor) => Untouched(s, a, cursor, th.held);
    case CleanRun(_, cursor, _) => Untouched(s, a, cursor, th.held);
    case _ =>
  }

  /** The touched chain and the actor after a step. */
  ghost predicate Left(s: State, a: Action)
    requires Enabled(s, a)
  {
    var e := Eff(s, a);
    var k := Touched(s, a);
    && k < |e.heads| == |e.chains| && Tied(e.next, e.heads[k], e.chains[k])
    && HeldOK(e.next, e.th) && OpLive(e.next, e.th.op)
  }

  ghost predicate Found(s: State, a: Action)
    requires Enabled(s, a)
  {
    var k := Touched(s, a);
    var th := s.threads[a.t];
    && k < |s.heads| == |s.chains| && Tied(s.next, s.heads[k], s.chains[k])
    && HeldOK(s.next, th) && OpLive(s.next, th.op)
    && (Written(s, a).Some? ==>
          && Written(s, a).value !in s.chains[k] && Written(s, a).value !in th.held
          && (Allocates(a) ==> Carried(th, Written(s, a).value) == 0)
          && (!Allocates(a) ==> Written(s, a).value in s.next))
  }

  lemma QueueLeft(s: State, t: nat, q: QueueAct)
    requires QueueEnabled(s, t, q) && Found(s, Queue(t, q)) && ThreadOK(s.threads[t], |s.heads|, s.size, t < s.size)
    ensures Left(s, Queue(t, q))
  {
    var a := Queue(t, q);
    var k := Touched(s, a);
    var th := s.threads[t];
    Untouched(s, a, s.heads[k], s.chains[k]);
    if th.base.CleanRun? {
      Untouched(s, a, th.base.cursor, th.held);
    }
  }

  lemma PollLeft(s: State, t: nat, p: PollAct)
    requires PollEnabled(s, t, p) && Found(s, Poll(t, p)) && !p.GiveBack?
    ensures Left(s, Poll(t, p))
  {
    var a := Poll(t, p);
    var k := Touched(s, a);
    Untouched(s, a, s.heads[k], s.chains[k]);
  }

  lemma GiveLeft(s: State, t: nat, spurious: bool)
    requires PollEnabled(s, t, GiveBack(spurious)) && Found(s, Poll(t, GiveBack(spurious)))
    ensures Left(s, Poll(t, GiveBack(spurious)))
  {
    var a := Poll(t, GiveBack(spurious));
    var th := s.threads[t];
    Untouched(s, a, s.heads[th.base.i], s.chains[th.base.i]);
    Untouched(s, a, th.base.rest, th.held);
  }

  lemma CleanLeft(s: State, t: nat, c: CleanAct)
    requires CleanEnabled(s, t, c) && Found(s, Clean(t, c))
    ensures Left(s, Clean(t, c))
  {
    hide QueueStep, PollStep, DelayStep, Sum;
    var a := Clean(t, c);
    var k := Touched(s, a);
    var th := s.threads[t];
    Untouched(s, a, s.heads[k], s.chains[k]);
    if th.base.CleanRun? {
      Untouched(s, a, th.base.cursor, th.held);
    }
  }

  lemma StepLeft(s: State, a: Action)
    requires Enabled(s, a) && Found(s, a) && ThreadOK(s.threads[a.t], |s.heads|, s.size, a.t < s.size)
    ensures Left(s, a)
  {
    hide QueueStep, PollStep, CleanStep;
    match a
    case Queue(t, q) => QueueLeft(s, t, q);
    case Poll(t, p) =>
      if p.GiveBack? {
        GiveLeft(s, t, p.spurious);
      } else {
        PollLeft(s, t, p);
      }
    case Clean(t, c) => CleanLeft(s, t, c);
    case _ =>
  }

  lemma TouchedBound(s: State, a: Action)
    requires Shape(s) && Enabled(s, a)
    ensures Touched(s, a) < |s.heads| == |s.chains|
  {
    assert ThreadOK(s.threads[a.t], |s.heads|, s.size, a.t < s.size);
    if a.Queue? && a.q.TrySlot? {
      SlotBound(s, s.threads[a.t].op.prio, s.threads[a.t].op.n);
    }
  }

  lemma TiedFits(next: map<Node, Ptr>, l: Ptr, c: seq<Node>)
    requires Tied(next, l, c)
    ensures Fits(l, c)
  {
  }

  lemma HeldOKFits(next: map<Node, Ptr>, th: Thread)
    requires HeldOK(next, th)
    ensures HeldFits(th)
  {
  }

  /** In a good state every step finds what it needs. */
  lemma StepFinds(s: State, a: Action)
    requires Shape(s) && ChainsOK(s) && AllPlaced(s) && Enabled(s, a)
    ensures Ready(s, a) && Found(s, a) && Private(s, a)
  {
    TouchedBound(s, a);
    var k := Touched(s, a);
    assert Tied(s.next, s.heads[k], s.chains[k]) && HeldOK(s.next, s.threads[a.t]);
    TiedFits(s.next, s.heads[k], s.chains[k]);
    HeldOKFits(s.next, s.threads[a.t]);
    if Written(s, a).Some? {
      assert Placed(s, Written(s, a).value);
    }
    IsPrivate(s, a);
  }

  lemma StepAllPlaced(s: State, a: Action)
    requires Shape(s) && ChainsOK(s) && AllPlaced(s) && Enabled(s, a)
    ensures AllPlaced(Step(s, a))
  {
    StepFinds(s, a);
    forall x: Node ensures Placed(Step(s, a), x) {
      assert Placed(s, x);
      StepPlaced(s, a, x);
    }
  }

  lemma StepChainsOK(s: State, a: Action)
    requires Shape(s) && ChainsOK(s) && AllPlaced(s) && Enabled(s, a) && Shape(Step(s, a))
    ensures ChainsOK(Step(s, a))
  {
    var s' := Step(s, a);
    var e := Eff(s, a);
    StepFinds(s, a);
    StepLeft(s, a);
    ChainsFrame(s, a);
    forall i | 0 <= i < |s'.heads| ensures Tied(s'.next, s'.heads[i], s'.chains[i]) {
      if i != Touched(s, a) {
        Untouched(s, a, s.heads[i], s.chains[i]);
      }
    }
    AwakeWaker(s, a);
    ThreadsFrame(s, a, e.th);
    forall u | 0 <= u < |s'.threads| ensures HeldOK(s'.next, s'.threads[u]) && OpLive(s'.next, s'.threads[u].op) {
      if u != a.t {
        assert HeldOK(s.next, s.threads[u]);
        UntouchedThread(s, a, s.threads[u]);
      }
    }
  }

  // ---------------------------------------------------------------- sleeping and waking

  predicate HoldsMutex(b: Base) {
    b.DelayInc? || b.DelayFetch? || b.DelayTerm? || b.DelayOut?
  }

  ghost predicate MutexOK(s: State) {
    && (s.shared.mutex.Some? ==> s.shared.mutex.value < |s.threads|)
    && forall t | 0 <= t < |s.threads| :: HoldsMutex(s.threads[t].base) <==> s.shared.mutex == Some(t)
  }

  function Waits(th: Thread): nat {
    AsNat(th.base.DelayFetch? || th.base.DelayTerm? || th.base.Asleep? || th.base.Woken? || th.base.DelayOut?)
  }

  /** A thread that has gone, or queues quietly, saw `terminated`. */
  predicate Honest(s: State, th: Thread) {
    && (th.base.Exited? || CleanBase(th.base) || th.base.CleanDone? ==> s.shared.terminated)
    && match th.op
       case QueueLoad(_, _, _, loud) => !loud ==> s.shared.terminated
       case QueueLink(_, _, _, _, loud) => !loud ==> s.shared.terminated
       case _ => true
  }

  ghost predicate TerminateOK(s: State) {
    s.shared.terminated && !NobodySleeps(s) ==> exists u | 0 <= u < |s.threads| :: s.threads[u].op.NotifyAll?
  }

  /** While thread t cleans up, nobody else can do anything, and the heads it has passed without
      finding a task are empty. */
  ghost predicate CleanOK(s: State) {
    forall t | 0 <= t < |s.threads| && CleanBase(s.threads[t].base) ::
      && (forall u | 0 <= u < |s.threads| && u != t :: Idle(s, u))
      && (s.threads[t].base.CleanTake? && s.threads[t].base.empty ==>
            s.threads[t].op.NoOp? && forall j | 0 <= j < s.threads[t].base.i && j < |s.heads| :: s.heads[j].None?)
  }

  predicate Idle(s: State, u: nat)
    requires u < |s.threads|
  {
    var b := s.threads[u].base;
    s.threads[u].op.NoOp? && (if u < s.size then b.Exited? else b.Out? || b.CleanDone?)
  }

  ghost predicate Inv(s: State) {
    && Shape(s) && ChainsOK(s) && AllPlaced(s)
    && MutexOK(s) && s.shared.waiting == Sum(Waits, s.threads)
    && (forall t | 0 <= t < |s.threads| :: Honest(s, s.threads[t]))
    && TerminateOK(s) && CleanOK(s)
  }

  /** Deep in delay(), or gone. */
  predicate Deep(b: Base) {
    b.DelayInc? || b.DelayFetch? || b.DelayTerm? || b.Asleep? || b.Woken? || b.DelayOut? || b.Exited?
  }

  /** Only steps of delay() enter or leave its inner phases, or touch the mutex and the count. */
  lemma OutsideDelay(s: State, a: Action)
    requires Enabled(s, a) && !a.Delay?
    ensures var (e, th) := (Eff(s, a), s.threads[a.t]);
            && (Deep(th.base) || Deep(e.th.base) ==> e.th.base == th.base)
            && e.shared.waiting == s.shared.waiting && e.shared.mutex == s.shared.mutex
            && (s.shared.terminated ==> e.shared.terminated)
  {
    match a
    case Queue(t, q) => QueueOutside(s, t, q);
    case Poll(t, p) => PollOutside(s, t, p);
    case _ =>
  }

  lemma QueueOutside(s: State, t: nat, q: QueueAct)
    requires QueueEnabled(s, t, q)
    ensures var (e, th) := (QueueStep(s, t, q), s.threads[t]);
            && e.th.base == th.base && e.th.held == th.held
            && e.shared == s.shared.(terminated := s.shared.terminated || q.Terminate?)
  {
  }

  lemma PollOutside(s: State, t: nat, p: PollAct)
    requires PollEnabled(s, t, p)
    ensures var (e, th) := (PollStep(s, t, p), s.threads[t]);
            !Deep(e.th.base) && !Deep(th.base) && e.shared == s.shared && e.th.op == th.op
  {
  }

  /** The mutex and the waiting count follow the actor's own phase. */
  lemma DelayEffect(s: State, a: Action)
    requires Enabled(s, a) && ThreadOK(s.threads[a.t], |s.heads|, s.size, a.t < s.size)
    requires HoldsMutex(s.threads[a.t].base) <==> s.shared.mutex == Some(a.t)
    requires Waits(s.threads[a.t]) <= s.shared.waiting
    ensures var (e, th) := (Eff(s, a), s.threads[a.t]);
            && e.shared.waiting + Waits(th) == s.shared.waiting + Waits(e.th)
            && (|| (e.shared.mutex == s.shared.mutex && (HoldsMutex(e.th.base) <==> HoldsMutex(th.base)))
                || (s.shared.mutex.None? && e.shared.mutex == Some(a.t) && HoldsMutex(e.th.base))
                || (s.shared.mutex == Some(a.t) && e.shared.mutex.None? && !HoldsMutex(e.th.base)))
  {
    if !a.Delay? {
      OutsideDelay(s, a);
    }
  }

  lemma WaitsAfter(s: State, a: Action, th: Thread)
    requires a.t < |s.threads| && (a.WakeOne? || a.WakeAll? ==> !th.base.Asleep?)
    ensures Sum(Waits, Threads(s, a, th)) + Waits(s.threads[a.t]) == Sum(Waits, s.threads) + Waits(th)
  {
    SumUpdate(Waits, s.threads, a.t, th);
    SumSame(Waits, Threads(s, a, th), Waits, s.threads[a.t := th]);
  }

  lemma StepMutex(s: State, a: Action)
    requires Shape(s) && MutexOK(s) && s.shared.waiting == Sum(Waits, s.threads) && Enabled(s, a)
    ensures MutexOK(Step(s, a)) && Step(s, a).shared.waiting == Sum(Waits, Step(s, a).threads)
  {
    hide QueueStep, PollStep, DelayStep, CleanStep, Sum;
    var e := Eff(s, a);
    assert ThreadOK(s.threads[a.t], |s.heads|, s.size, a.t < s.size);
    SumAtLeast(Waits, s.threads, a.t);
    DelayEffect(s, a);
    AwakeWaker(s, a);
    ThreadsFrame(s, a, e.th);
    WaitsAfter(s, a, e.th);
  }

  lemma HonestEffect(s: State, a: Action)
    requires Enabled(s, a) && Honest(s, s.threads[a.t])
    ensures var e := Eff(s, a); Honest(Step(s, a), e.th) && (s.shared.terminated ==> e.shared.terminated)
  {
    var th := s.threads[a.t];
    match a
    case Queue(t, q) =>
      QueueOutside(s, t, q);
      HonestQueue(s, t, q);
    case Poll(t, p) =>
      PollOutside(s, t, p);
      HonestPoll(s, t, p);
    case _ =>
  }

  lemma HonestQueue(s: State, t: nat, q: QueueAct)
    requires QueueEnabled(s, t, q) && Honest(s, s.threads[t])
    ensures Honest(s.(shared := QueueStep(s, t, q).shared), QueueStep(s, t, q).th)
  {
  }

  lemma HonestPoll(s: State, t: nat, p: PollAct)
    requires PollEnabled(s, t, p)
    ensures var b := PollStep(s, t, p).th.base; !b.Exited? && !CleanBase(b) && !b.CleanDone?
  {
  }

  lemma StepHonest(s: State, a: Action)
    requires Shape(s) && Enabled(s, a)
    requires forall t | 0 <= t < |s.threads| :: Honest(s, s.threads[t])
    ensures var s' := Step(s, a); forall t | 0 <= t < |s'.threads| :: Honest(s', s'.threads[t])
  {
    var s' := Step(s, a);
    HonestEffect(s, a);
    assert ThreadOK(s.threads[a.t], |s.heads|, s.size, a.t < s.size);
    AwakeWaker(s, a);
    ThreadsFrame(s, a, Eff(s, a).th);
    forall t | 0 <= t < |s'.threads| ensures Honest(s', s'.threads[t]) {
      assert Honest(s, s.threads[t]);
    }
  }

  lemma FallsAsleep(s: State, a: Action)
    requires Enabled(s, a) && Eff(s, a).th.base.Asleep? && !s.threads[a.t].base.Asleep?
    ensures !Eff(s, a).shared.terminated
  {
    if !a.Delay? {
      OutsideDelay(s, a);
    }
  }

  lemma OwesAll(s: State, a: Action)
    requires Enabled(s, a) && s.threads[a.t].op.NotifyAll?
    ensures a.WakeAll? || Eff(s, a).th.op.NotifyAll?
  {
  }

  /** After a step, a sleeper slept before, or has just gone to sleep unterminated. */
  lemma SleptBefore(s: State, a: Action, v: nat)
    requires Enabled(s, a) && ThreadOK(s.threads[a.t], |s.heads|, s.size, a.t < s.size)
    requires v < |Step(s, a).threads| && Step(s, a).threads[v].base.Asleep? && Step(s, a).shared.terminated
    ensures v < |s.threads| && s.threads[v].base.Asleep? && !a.WakeAll?
  {
    AwakeWaker(s, a);
    ThreadsFrame(s, a, Eff(s, a).th);
    if v == a.t && !s.threads[v].base.Asleep? && !a.WakeAll? {
      FallsAsleep(s, a);
    }
  }

  lemma JustTerminated(s: State, a: Action)
    requires Enabled(s, a) && !s.shared.terminated && Eff(s, a).shared.terminated
    ensures Eff(s, a).th.op.NotifyAll? && a.Queue?
  {
    match a
    case Queue(t, q) => QueueOutside(s, t, q);
    case Poll(t, p) => PollOutside(s, t, p);
    case _ =>
  }

  lemma StepTerminateOK(s: State, a: Action)
    requires Inv(s) && Enabled(s, a)
    ensures TerminateOK(Step(s, a))
  {
    var s' := Step(s, a);
    assert ThreadOK(s.threads[a.t], |s.heads|, s.size, a.t < s.size);
    AwakeWaker(s, a);
    ThreadsFrame(s, a, Eff(s, a).th);
    if s'.shared.terminated && !NobodySleeps(s') {
      var v :| 0 <= v < |s'.threads| && s'.threads[v].base.Asleep?;
      SleptBefore(s, a, v);
      if !s.shared.terminated {
        JustTerminated(s, a);
        assert s'.threads[a.t].op.NotifyAll?;
      } else {
        var u :| 0 <= u < |s.threads| && s.threads[u].op.NotifyAll?;
        if u == a.t {
          OwesAll(s, a);
        }
        assert s'.threads[u].op.NotifyAll?;
      }
    }
  }

  lemma InitInv(s: State)
    requires Init(s)
    ensures Inv(s)
  {
    SumZero(Waits, s.threads);
    forall x: Node ensures Placed(s, x) {
      SumZero(InChain(x), s.chains);
      SumZero(InThread(x), s.threads);
    }
  }

  lemma StepInv(s: State, s': State)
    requires Inv(s) && Next(s, s')
    ensures Inv(s')
  {
    var a :| Enabled(s, a) && s' == Step(s, a);
    StepShape(s, a);
    StepChainsOK(s, a);
    StepAllPlaced(s, a);
    StepMutex(s, a);
    StepHonest(s, a);
    StepTerminateOK(s, a);
    StepCleanOK(s, a);
  }

  // ---- cleanup()

  lemma OnlyTheCleaner(s: State, a: Action, t: nat)
    requires Shape(s) && CleanOK(s) && Enabled(s, a) && t < |s.threads| && CleanBase(s.threads[t].base)
    ensures a.t == t && !(a.Clean? && a.c.Start?) && !a.WakeOne?
  {
    assert a.t == t || Idle(s, a.t);
    NobodyAsleep(s, t);
  }

  lemma NobodyAsleep(s: State, t: nat)
    requires CleanOK(s) && t < |s.threads| && CleanBase(s.threads[t].base)
    ensures forall u | 0 <= u < |s.threads| :: !s.threads[u].base.Asleep?
  {
    forall u | 0 <= u < |s.threads| ensures !s.threads[u].base.Asleep? {
      assert u == t || Idle(s, u);
    }
  }

  lemma CleanEffect(s: State, a: Action)
    requires Enabled(s, a) && CleanBase(Eff(s, a).th.base) && CleanBase(s.threads[a.t].base)
    requires ThreadOK(s.threads[a.t], |s.heads|, s.size, a.t < s.size)
    ensures var (b, b') := (s.threads[a.t].base, Eff(s, a).th.base);
            b'.CleanTake? && b'.empty ==>
              || (b' == b && s.threads[a.t].op == Eff(s, a).th.op && Eff(s, a).heads == s.heads)
              || (b == CleanTake(b'.i - 1, true) && Eff(s, a).heads == s.heads && Head(s, b'.i - 1).None?
                  && s.threads[a.t].op.NoOp? && Eff(s, a).th.op.NoOp?)
              || !s.threads[a.t].op.NoOp?
  {
  }

  lemma KeepsCleaning(s: State, a: Action, t: nat)
    requires Shape(s) && CleanOK(s) && Enabled(s, a) && t < |s.threads| && CleanBase(s.threads[t].base)
    requires t < |Step(s, a).threads| && CleanBase(Step(s, a).threads[t].base)
    ensures a.t == t && !a.WakeOne? && Step(s, a).threads[t] == Eff(s, a).th
    ensures var th := Eff(s, a).th;
            th.base.CleanTake? && th.base.empty ==>
              th.op.NoOp? && forall j | 0 <= j < th.base.i && j < |Eff(s, a).heads| :: Eff(s, a).heads[j].None?
  {
    OnlyTheCleaner(s, a, t);
    assert ThreadOK(s.threads[t], |s.heads|, s.size, t < s.size);
    AwakeWaker(s, a);
    ThreadsFrame(s, a, Eff(s, a).th);
    CleanEffect(s, a);
  }

  lemma StepCleanOK(s: State, a: Action)
    requires Shape(s) && CleanOK(s) && Enabled(s, a)
    ensures CleanOK(Step(s, a))
  {
    var s' := Step(s, a);
    assert ThreadOK(s.threads[a.t], |s.heads|, s.size, a.t < s.size);
    AwakeWaker(s, a);
    ThreadsFrame(s, a, Eff(s, a).th);
    forall t | 0 <= t < |s'.threads| && CleanBase(s'.threads[t].base)
      ensures forall u | 0 <= u < |s'.threads| && u != t :: Idle(s', u)
      ensures s'.threads[t].base.CleanTake? && s'.threads[t].base.empty ==>
                s'.threads[t].op.NoOp? && forall j | 0 <= j < s'.threads[t].base.i && j < |s'.heads| :: s'.heads[j].None?
    {
      if CleanBase(s.threads[t].base) {
        KeepsCleaning(s, a, t);
      } else {
        BeginsClean(s, a, t);
      }
      forall u | 0 <= u < |s'.threads| && u != t ensures Idle(s', u) {
        assert Idle(s, u);
      }
    }
  }

  lemma OnlyStartCleans(s: State, a: Action)
    requires Enabled(s, a) && !CleanBase(s.threads[a.t].base) && CleanBase(Eff(s, a).th.base)
    ensures a == Clean(a.t, Start) && s.threads[a.t].op.NoOp? && Eff(s, a).th == s.threads[a.t].(base := CleanTake(0, true))
  {
    match a
    case Queue(t, q) => QueueOutside(s, t, q);
    case Poll(t, p) => HonestPoll(s, t, p);
    case _ =>
  }

  lemma BeginsClean(s: State, a: Action, t: nat)
    requires Shape(s) && Enabled(s, a) && t < |s.threads| && t < |Step(s, a).threads|
    requires !CleanBase(s.threads[t].base) && CleanBase(Step(s, a).threads[t].base)
    ensures a == Clean(t, Start) && s.threads[t].op.NoOp?
    ensures Step(s, a).threads[t] == s.threads[t].(base := CleanTake(0, true))
    ensures forall u | 0 <= u < |s.threads| && u != t :: Idle(s, u)
  {
    assert ThreadOK(s.threads[a.t], |s.heads|, s.size, a.t < s.size);
    AwakeWaker(s, a);
    ThreadsFrame(s, a, Eff(s, a).th);
    assert t == a.t;
    OnlyStartCleans(s, a);
    forall u | 0 <= u < |s.threads| && u != t ensures Idle(s, u) {
      assert ThreadOK(s.threads[u], |s.heads|, s.size, u < s.size);
    }
  }

  // ---------------------------------------------------------------- theorems over every run

  lemma RunInv(run: seq<State>, k: nat)
    requires Runs.IsRun(Init, Next, run) && k < |run|
    ensures Inv(run[k])
  {
    forall s | Init(s) ensures Inv(s) { InitInv(s); }
    forall s, s' | Inv(s) && Next(s, s') ensures Inv(s') { StepInv(s, s'); }
    Runs.Invariant(Init, Next, Inv, run);
  }

  /** Every live task is in exactly one place, and each head leads through exactly its chain. */
  lemma OnePlace(run: seq<State>, k: nat, x: Node)
    requires Runs.IsRun(Init, Next, run) && k < |run|
    ensures Sum(InChain(x), run[k].chains) + Sum(InThread(x), run[k].threads) == AsNat(x in run[k].next)
    ensures |run[k].chains| == |run[k].heads|
    ensures forall i | 0 <= i < |run[k].heads| :: Tied(run[k].next, run[k].heads[i], run[k].chains[i])
  {
    RunInv(run, k);
    assert Placed(run[k], x);
  }

  /** A step starts task x. */
  predicate Starts(s: State, a: Action, x: Node)
    requires Enabled(s, a)
  {
    RunCount(Eff(s, a).th.base, x) > RunCount(s.threads[a.t].base, x)
  }

  /** Whoever starts a task had it in hand, alone: no other thread holds or runs it, and no chain
      leads to it. */
  lemma StartsAlone(run: seq<State>, k: nat, a: Action, x: Node)
    requires Runs.IsRun(Init, Next, run) && k < |run| && Enabled(run[k], a) && Starts(run[k], a, x)
    ensures var s := run[k];
            && x in s.next
            && (forall i | 0 <= i < |s.chains| :: x !in s.chains[i])
            && (forall u | 0 <= u < |s.threads| && u != a.t :: Carried(s.threads[u], x) == 0)
            && Carried(s.threads[a.t], x) == 1 && RunCount(s.threads[a.t].base, x) == 0
  {
    RunInv(run, k);
    StartAlone(run[k], a, x);
  }

  lemma StartAlone(s: State, a: Action, x: Node)
    requires Inv(s) && Enabled(s, a) && Starts(s, a, x)
    ensures x in s.next && (forall i | 0 <= i < |s.chains| :: x !in s.chains[i])
    ensures forall u | 0 <= u < |s.threads| && u != a.t :: Carried(s.threads[u], x) == 0
    ensures Carried(s.threads[a.t], x) == 1 && RunCount(s.threads[a.t].base, x) == 0
  {
    assert Placed(s, x);
    StartsFromHand(s, a, x);
    SumAtLeast(InThread(x), s.threads, a.t);
    SumAllZero(InChain(x), s.chains);
    forall i | 0 <= i < |s.chains| ensures x !in s.chains[i] {
      assert InChain(x)(s.chains[i]) == 0;
    }
    forall u | 0 <= u < |s.threads| && u != a.t ensures Carried(s.threads[u], x) == 0 {
      if u < a.t {
        SumPair(InThread(x), s.threads, u, a.t);
      } else {
        SumPair(InThread(x), s.threads, a.t, u);
      }
    }
  }

  lemma StartsFromHand(s: State, a: Action, x: Node)
    requires Inv(s) && Enabled(s, a) && Starts(s, a, x)
    ensures Carried(s.threads[a.t], x) > 0 && RunCount(s.threads[a.t].base, x) == 0
  {
    hide QueueStep, PollStep, DelayStep, CleanStep, Sum, AllPlaced, MutexOK, TerminateOK, CleanOK, Tied;
    assert HeldOK(s.next, s.threads[a.t]);
    HeldOKFits(s.next, s.threads[a.t]);
    match a
    case Queue(t, q) => QueueOutside(s, t, q);
    case Poll(t, p) => PollStarts(s, t, p, x);
    case Delay(t, d) => DelayStarts(s, t, d, x);
    case Clean(t, c) => CleanStarts(s, t, c, x);
    case _ =>
  }

  lemma DelayStarts(s: State, t: nat, d: DelayAct, x: Node)
    requires DelayEnabled(s, t, d)
    ensures RunCount(DelayStep(s, t, d).th.base, x) == 0
  {
  }

  lemma CleanStarts(s: State, t: nat, c: CleanAct, x: Node)
    requires CleanEnabled(s, t, c) && HeldFits(s.threads[t])
    requires RunCount(CleanStep(s, t, c).th.base, x) > RunCount(s.threads[t].base, x)
    ensures Carried(s.threads[t], x) > 0 && RunCount(s.threads[t].base, x) == 0
  {
  }

  lemma PollStarts(s: State, t: nat, p: PollAct, x: Node)
    requires PollEnabled(s, t, p) && RunCount(PollStep(s, t, p).th.base, x) > RunCount(s.threads[t].base, x)
    ensures Carried(s.threads[t], x) > 0 && RunCount(s.threads[t].base, x) == 0
  {
  }

  function Runner(x: Node): Thread -> nat {
    (th: Thread) => RunCount(th.base, x)
  }

  /** How many threads run task x. */
  function Runners(s: State, x: Node): nat {
    Sum(Runner(x), s.threads)
  }

  /** How often task x was started in the first n steps. */
  ghost function StartCount(run: seq<State>, x: Node, n: nat): nat
    requires n < |run|
  {
    if n == 0 then 0 else StartCount(run, x, n - 1) + AsNat(Runners(run[n], x) > Runners(run[n - 1], x))
  }

  /** How often task x was freed in the first n steps. */
  ghost function FreeCount(run: seq<State>, x: Node, n: nat): nat
    requires n < |run|
  {
    if n == 0 then 0 else FreeCount(run, x, n - 1) + AsNat(x in run[n - 1].next && x !in run[n].next)
  }

  /** A thread stops running a task only by freeing it, and nothing else frees it. */
  lemma RunEffect(s: State, a: Action, x: Node)
    requires Enabled(s, a)
    ensures var (r, r', e) := (RunCount(s.threads[a.t].base, x), RunCount(Eff(s, a).th.base, x), Eff(s, a));
            && (r' < r ==> Written(s, a) == Some(x) && Frees(a))
            && (Written(s, a) == Some(x) && Frees(a) ==> r == 1 && r' == 0 && x !in e.next)
  {
    match a
    case Queue(t, q) => QueueOutside(s, t, q);
    case _ =>
  }

  lemma RunnersAfter(s: State, a: Action, x: Node)
    requires Enabled(s, a) && ThreadOK(s.threads[a.t], |s.heads|, s.size, a.t < s.size)
    ensures Runners(Step(s, a), x) + RunCount(s.threads[a.t].base, x) == Runners(s, x) + RunCount(Eff(s, a).th.base, x)
  {
    var th := Eff(s, a).th;
    AwakeWaker(s, a);
    SumUpdate(Runner(x), s.threads, a.t, th);
    SumSame(Runner(x), Threads(s, a, th), Runner(x), s.threads[a.t := th]);
  }

  /** A live task is run by at most one thread, and only a live one. */
  lemma OneRunner(s: State, x: Node)
    requires Inv(s)
    ensures Runners(s, x) <= AsNat(x in s.next)
  {
    assert Placed(s, x);
    SumBelow(Runner(x), InThread(x), s.threads);
  }

  /** A step changes the number of its runners as it starts or frees task x. */
  lemma RunnersMove(s: State, a: Action, x: Node)
    requires Inv(s) && Enabled(s, a)
    ensures var s' := Step(s, a);
            Runners(s', x) + AsNat(x in s.next && x !in s'.next) == Runners(s, x) + AsNat(Runners(s', x) > Runners(s, x))
  {
    hide QueueStep, PollStep, DelayStep, CleanStep, Sum, RunCount, Runners, ChainsOK, AllPlaced, CleanOK, TerminateOK;
    assert ThreadOK(s.threads[a.t], |s.heads|, s.size, a.t < s.size);
    StepFinds(s, a);
    OneRunner(s, x);
    StepInv(s, Step(s, a));
    OneRunner(Step(s, a), x);
    RunnersAfter(s, a, x);
    RunEffect(s, a, x);
    NextFrame(s, a);
  }

  /** Each task is started exactly once: between being queued and being freed. In every run the
      starts of a task are as many as the times it was freed, and one more while it is running. */
  lemma {:induction false} StartsOnce(run: seq<State>, x: Node, n: nat)
    requires Runs.IsRun(Init, Next, run) && n < |run|
    ensures StartCount(run, x, n) == FreeCount(run, x, n) + Runners(run[n], x)
    ensures Runners(run[n], x) <= AsNat(x in run[n].next)
  {
    hide Next, Inv, Runners;
    RunInv(run, n);
    OneRunner(run[n], x);
    if n == 0 {
      InitRunners(run[0], x);
    } else {
      StartsOnce(run, x, n - 1);
      RunInv(run, n - 1);
      NextRunners(run[n - 1], run[n - 1 + 1], x);
    }
  }

  lemma InitRunners(s: State, x: Node)
    requires Init(s)
    ensures Runners(s, x) == 0
  {
    SumZero(Runner(x), s.threads);
  }

  lemma NextRunners(s: State, s': State, x: Node)
    requires Inv(s) && Next(s, s')
    ensures Runners(s', x) + AsNat(x in s.next && x !in s'.next) == Runners(s, x) + AsNat(Runners(s', x) > Runners(s, x))
  {
    var a :| Enabled(s, a) && s' == Step(s, a);
    RunnersMove(s, a, x);
  }

  /** After terminate() nobody stays asleep unless the wake-up of all is still to come. */
  lemma TerminationReachesSleepers(run: seq<State>, k: nat, u: nat)
    requires Runs.IsRun(Init, Next, run) && k < |run| && run[k].shared.terminated
    requires u < |run[k].threads| && run[k].threads[u].base.Asleep?
    ensures exists t :: 0 <= t < |run[k].threads| && run[k].threads[t].op.NotifyAll?
  {
    RunInv(run, k);
  }

  /** When cleanup() returns true no head holds a task and no task is left anywhere. */
  lemma CleanupLeavesNothing(run: seq<State>, k: nat, t: nat)
    requires Runs.IsRun(Init, Next, run) && k < |run| && Enabled(run[k], Clean(t, TakeChain))
    requires Step(run[k], Clean(t, TakeChain)).threads[t].base == CleanDone(true)
    ensures forall i | 0 <= i < |run[k].heads| :: run[k].heads[i].None?
    ensures run[k].next == map[]
  {
    RunInv(run, k);
    LeavesNothing(run[k], t);
  }

  lemma LeavesNothing(s: State, t: nat)
    requires Inv(s) && Enabled(s, Clean(t, TakeChain)) && Step(s, Clean(t, TakeChain)).threads[t].base == CleanDone(true)
    ensures forall i | 0 <= i < |s.heads| :: s.heads[i].None?
    ensures s.next == map[]
  {
    assert HeldOK(s.next, s.threads[t]);
    forall x: Node ensures x !in s.next {
      assert Placed(s, x);
      forall u | 0 <= u < |s.threads| ensures InThread(x)(s.threads[u]) == 0 {
        assert u == t || Idle(s, u);
      }
      SumZero(InThread(x), s.threads);
      SumZero(InChain(x), s.chains);
    }
  }
}
