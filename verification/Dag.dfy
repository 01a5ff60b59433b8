/** The task graph dispatcher (grid_dispatcher_t).

    Finishing a task, the guard loop of flush() and resume() all do the same: decrement a list of
    lock counts one by one, dispatch what reached zero, finalize. Each of them is an agent here,
    and an action is one atomic operation of one agent. The value -1 of a lock count stands for
    ~size_t(0), the mark left by a failed dispatch. The theorems are about the runs of ProperNext; DagFaults
    shows what happens in others. */
module Dag {
  import opened Counting
  import Runs

  type Id = nat

  /** The static graph: successors, the lock totals counted by order(), and which routines are
      empty junction routines (queued without the wrapper that calls complete()). */
  datatype Graph = Graph(next: seq<seq<Id>>, total: seq<nat>, junction: seq<bool>)

  datatype Kind = Task(id: Id) | Flusher | Suspension(id: Id) | Rescuer

  datatype Pc =
    | Asleep              // task not dispatched yet
    | Queued | Running
    | Stuck               // junction routine has returned; nothing follows
    | Loop                // about to decrement the first lock of `todo`, or to finalize
    | Add(i: Id)          // lock i reached zero: about to increment pending_count in dispatch(i)
    | Hand(i: Id)         // about to queue routine i, or to run it inline
    | Inside(i: Id)       // dispatch(i) is running routine i inline, on the warp the thread is on
    | Undo(i: Id)         // dispatch(i) threw: about to decrement pending_count again
    | Mark(i: Id)         // about to store ~0 into lock i
    | UnLoop              // unfinish_complete(): about to decrement the first lock of `todo`
    | UnMark(i: Id)       // unfinish_complete(): about to store ~0 into lock i
    | Thrown              // the exception left complete() or resurrect()
    | Reserved            // suspend(): pending_count incremented, lock not yet
    | Held                // suspension in force
    | Look(i: nat)        // resurrect(): about to load lock i
    | Clear(i: Id)        // resurrect(): about to store 0 into lock i
    | Done

  datatype Agent = Agent(kind: Kind, pc: Pc, todo: seq<Id>)

  datatype State = State(
    graph: Graph,
    locks: seq<int>,
    pending: int,
    agents: seq<Agent>,      // the tasks by id, the flusher, then suspensions and rescuers
    fired: bool,             // the completion callback has run for the current flush
    dispatched: seq<nat>,    // history: how often each task was queued or run inline since the flush
    missed: set<Id>          // history: the marked tasks a resurrect() has passed over and none found since
  )

  datatype Action =
    | StartFlush
    | Run(x: nat) | Return(x: nat)
    | Decrement(x: nat) | AddPending(x: nat) | HandOver(x: nat) | Finalize(x: nat)
    | HandInline(x: nat)     // the routine runs inside dispatch(); for an empty one that is HandOver and Run at once
    | InlineReturn(x: nat)
    | Throw(x: nat) | UndoPending(x: nat) | StoreMark(x: nat)
    | ThrowLate(x: nat)      // the routine was stored, and then dispatch() throws
    | Propagate(x: nat)      // the exception that left a routine run inline leaves dispatch() as well
    | UnDecrement(x: nat) | StoreUnMark(x: nat) | LeaveThrown(x: nat)
    | Suspend(id: Id) | Hold(x: nat) | Resume(x: nat)
    | StartRescue(x: nat) | RescueLook(x: nat) | StoreClear(x: nat)

  // ---------------------------------------------------------------- graphs

  function EdgesInto(i: Id): seq<Id> -> nat {
    next => multiset(next)[i]
  }

  ghost predicate WellFormed(g: Graph) {
    && |g.next| == |g.total| == |g.junction|
    && (forall m, k | 0 <= m < |g.next| && 0 <= k < |g.next[m]| :: g.next[m][k] < |g.next|)
    && forall i | 0 <= i < |g.next| :: g.total[i] == Sum(EdgesInto(i), g.next)
  }

  /** An order in which every edge goes upwards. */
  ghost predicate Ranks(g: Graph, rank: seq<nat>) {
    && |rank| == |g.next|
    && forall m, k | 0 <= m < |g.next| && 0 <= k < |g.next[m]| && g.next[m][k] < |rank| :: rank[m] < rank[g.next[m][k]]
  }

  ghost predicate Acyclic(g: Graph) {
    exists rank :: Ranks(g, rank)
  }

  /** queue_routine() and order() before the first flush. */
  class Builder {
    var next: seq<seq<Id>>
    var total: seq<nat>
    var junction: seq<bool>

    ghost function Built(): Graph
      reads this
    {
      Graph(next, total, junction)
    }

    constructor ()
      ensures WellFormed(Built()) && next == []
    {
      next, total, junction := [], [], [];
    }

    method QueueRoutine(empty: bool) returns (id: Id)
      requires WellFormed(Built())
      modifies this
      ensures WellFormed(Built())
      ensures id == |old(next)| && next == old(next) + [[]] && junction == old(junction) + [empty]
    {
      id := |next|;
      forall i | 0 <= i <= |next| ensures Sum(EdgesInto(i), next + [[]]) == Sum(EdgesInto(i), next) {
        SumAppend(EdgesInto(i), next, []);
      }
      SumZero(EdgesInto(id), next) by {
        forall m | 0 <= m < |next| ensures EdgesInto(id)(next[m]) == 0 {
          assert id !in next[m];
        }
      }
      next, total, junction := next + [[]], total + [0], junction + [empty];
    }

    method Order(from: Id, to: Id)
      requires WellFormed(Built()) && from < |next| && to < |next|
      modifies this
      ensures WellFormed(Built())
      ensures next == old(next)[from := old(next)[from] + [to]] && junction == old(junction)
    {
      forall i | 0 <= i < |next|
        ensures Sum(EdgesInto(i), next[from := next[from] + [to]]) == total[i] + AsNat(i == to)
      {
        SumUpdate(EdgesInto(i), next, from, next[from] + [to]);
      }
      next := next[from := next[from] + [to]];
      total := total[to := total[to] + 1];
    }
  }

  // ---------------------------------------------------------------- steps

  function Iota(n: nat): (r: seq<Id>)
    ensures |r| == n && forall k | 0 <= k < n :: r[k] == k
  {
    seq(n, k => k)
  }

  predicate AtPc(s: State, x: nat, pc: Pc) {
    x < |s.agents| && s.agents[x].pc == pc
  }

  predicate CanHand(s: State, x: nat) {
    x < |s.agents| && s.agents[x].pc.Hand?
  }

  /** The routine that agent x runs inline has come to the given end. */
  predicate Ran(s: State, x: nat, end: Pc) {
    x < |s.agents| && s.agents[x].pc.Inside? && AtPc(s, s.agents[x].pc.i, end)
  }

  /** Exceptions of dispatch() are followed inside complete() and resurrect(). */
  predicate Throws(k: Kind) {
    k.Task? || k.Rescuer?
  }

  /** Task x is being run inline by a dispatch(). */
  predicate Inlined(s: State, x: nat) {
    exists y | 0 <= y < |s.agents| :: s.agents[y].pc == Inside(x)
  }

  predicate Enabled(s: State, a: Action) {
    match a
    case StartFlush => s.pending == 0
    case Run(x) => AtPc(s, x, Queued)
    case Return(x) => AtPc(s, x, Running)
    case Decrement(x) => AtPc(s, x, Loop) && s.agents[x].todo != []
    case AddPending(x) => x < |s.agents| && s.agents[x].pc.Add?
    case HandOver(x) => CanHand(s, x)
    case HandInline(x) => CanHand(s, x) && s.agents[x].pc.i < |s.graph.junction| && !s.graph.junction[s.agents[x].pc.i]
    case InlineReturn(x) => Ran(s, x, Done)
    case Finalize(x) => x < |s.agents| &&
                        if s.agents[x].kind.Rescuer? then s.agents[x].pc == Look(|s.locks|)
                        else s.agents[x].pc.Loop? && s.agents[x].todo == []
    case Throw(x) => CanHand(s, x) && Throws(s.agents[x].kind)
    case ThrowLate(x) => CanHand(s, x) && Throws(s.agents[x].kind)
    case Propagate(x) => Ran(s, x, Thrown) && Throws(s.agents[x].kind)
    case UndoPending(x) => x < |s.agents| && s.agents[x].pc.Undo?
    case StoreMark(x) => x < |s.agents| && s.agents[x].pc.Mark?
    case UnDecrement(x) => AtPc(s, x, UnLoop) && s.agents[x].todo != []
    case StoreUnMark(x) => x < |s.agents| && s.agents[x].pc.UnMark?
    case LeaveThrown(x) => AtPc(s, x, UnLoop) && s.agents[x].todo == []
    case Suspend(id) => id < |s.locks| && s.pending != 0
    case Hold(x) => AtPc(s, x, Reserved) && s.agents[x].kind.Suspension? && s.agents[x].kind.id < |s.locks|
                    && s.locks[s.agents[x].kind.id] != 0
    case Resume(x) => AtPc(s, x, Held)
    case StartRescue(x) => AtPc(s, x, Thrown) && !Inlined(s, x)
    case RescueLook(x) => x < |s.agents| && s.agents[x].pc.Look? && s.agents[x].pc.i < |s.locks|
    case StoreClear(x) => x < |s.agents| && s.agents[x].pc.Clear?
  }

  /** A resurrect() call is under way. */
  predicate Rescuing(s: State) {
    exists x | 0 <= x < |s.agents| :: s.agents[x].kind.Rescuer? && !s.agents[x].pc.Done? && !s.agents[x].pc.Thrown?
  }

  /** The agents of a fresh flush. */
  function FreshAgents(g: Graph): seq<Agent> {
    seq(|g.next|, i requires 0 <= i < |g.next| => Agent(Task(i), Asleep, g.next[i])) + [Agent(Flusher, Loop, Iota(|g.next|))]
  }

  function StepAgent(s: State, a: Action): Agent
    requires Enabled(s, a) && !a.StartFlush? && !a.Suspend?
  {
    var g := s.agents[a.x];
    match a
    case Run(x) => g.(pc := Running)
    case Return(x) =>
      g.(pc := if g.kind.Task? && g.kind.id < |s.graph.junction| && s.graph.junction[g.kind.id] then Stuck else Loop)
    case Decrement(x) =>
      var i := g.todo[0];
      Agent(g.kind, if i < |s.locks| && s.locks[i] == 1 then Add(i) else Loop, g.todo[1..])
    case AddPending(x) => g.(pc := Hand(g.pc.i))
    case HandOver(x) => g.(pc := if g.kind.Rescuer? then Clear(g.pc.i) else Loop)
    case HandInline(x) => g.(pc := Inside(g.pc.i))
    case InlineReturn(x) => g.(pc := if g.kind.Rescuer? then Clear(g.pc.i) else Loop)
    case Finalize(x) => g.(pc := Done)
    case Throw(x) => g.(pc := Undo(g.pc.i))
    case ThrowLate(x) => g.(pc := Undo(g.pc.i))
    case Propagate(x) => g.(pc := Undo(g.pc.i))
    case UndoPending(x) => g.(pc := if g.kind.Rescuer? then Thrown else Mark(g.pc.i))
    case StoreMark(x) => g.(pc := UnLoop)
    case UnDecrement(x) =>
      var i := g.todo[0];
      Agent(g.kind, if i < |s.locks| && s.locks[i] == 1 then UnMark(i) else UnLoop, g.todo[1..])
    case StoreUnMark(x) => g.(pc := UnLoop)
    case LeaveThrown(x) => g.(pc := Thrown)
    case Hold(x) => Agent(g.kind, Held, [g.kind.id])
    case Resume(x) => g.(pc := Loop)
    case StartRescue(x) => g.(pc := Done)
    case RescueLook(x) => g.(pc := if s.locks[g.pc.i] == -1 then Add(g.pc.i) else Look(g.pc.i + 1))
    case StoreClear(x) => g.(pc := Look(g.pc.i + 1))
  }

  function SetLock(locks: seq<int>, i: Id, v: int): seq<int> {
    if i < |locks| then locks[i := v] else locks
  }

  function AddLock(locks: seq<int>, i: Id, d: int): seq<int> {
    if i < |locks| then locks[i := locks[i] + d] else locks
  }

  function StepLocks(s: State, a: Action): seq<int>
    requires Enabled(s, a)
  {
    match a
    case StartFlush => seq(|s.graph.total|, i requires 0 <= i < |s.graph.total| => s.graph.total[i] + 1)
    case Decrement(x) => AddLock(s.locks, s.agents[x].todo[0], -1)
    case UnDecrement(x) => AddLock(s.locks, s.agents[x].todo[0], -1)
    case StoreMark(x) => SetLock(s.locks, s.agents[x].pc.i, -1)
    case StoreUnMark(x) => SetLock(s.locks, s.agents[x].pc.i, -1)
    case Hold(x) => AddLock(s.locks, s.agents[x].kind.id, 1)
    case StoreClear(x) => SetLock(s.locks, s.agents[x].pc.i, 0)
    case _ => s.locks
  }

  function StepPending(s: State, a: Action): int {
    match a
    case StartFlush => s.pending + 1
    case AddPending(_) => s.pending + 1
    case UndoPending(_) => s.pending - 1
    case Finalize(_) => s.pending - 1
    case Suspend(_) => s.pending + 1
    case _ => s.pending
  }

  function StepAgents(s: State, a: Action): seq<Agent>
    requires Enabled(s, a)
  {
    match a
    case StartFlush => FreshAgents(s.graph)
    case Suspend(id) => s.agents + [Agent(Suspension(id), Reserved, [])]
    case StartRescue(x) => s.agents[x := StepAgent(s, a)] + [Agent(Rescuer, Look(0), [])]
    case HandOver(x) => Turned(s.agents[x := StepAgent(s, a)], s.agents[x].pc.i, Queued)
    case HandInline(x) => Turned(s.agents[x := StepAgent(s, a)], s.agents[x].pc.i, Running)
    case ThrowLate(x) => Turned(s.agents[x := StepAgent(s, a)], s.agents[x].pc.i, Queued)
    case Propagate(x) => Turned(s.agents[x := StepAgent(s, a)], s.agents[x].pc.i, Done)
    case _ => s.agents[a.x := StepAgent(s, a)]
  }

  /** Task i is somewhere else now. */
  function Turned(agents: seq<Agent>, i: Id, pc: Pc): seq<Agent> {
    if i < |agents| then agents[i := agents[i].(pc := pc)] else agents
  }

  /** Task i is marked, but a suspension is in force on top of the mark, so that its lock count reads 0. */
  predicate Covered(s: State, i: Id) {
    i < |s.locks| && s.locks[i] == 0 && Sum(TodoOf(i), s.agents) > 0
  }

  function StepMissed(s: State, a: Action): set<Id>
    requires Enabled(s, a)
  {
    match a
    case StartFlush => {}
    case RescueLook(x) =>
      var i := s.agents[x].pc.i;
      if s.locks[i] == -1 then s.missed - {i} else if Covered(s, i) then s.missed + {i} else s.missed
    case _ => s.missed
  }

  function Step(s: State, a: Action): State
    requires Enabled(s, a)
  {
    State(s.graph, StepLocks(s, a), StepPending(s, a), StepAgents(s, a),
          if a.StartFlush? then false else if a.Finalize? && s.pending == 1 then true else s.fired,
          if a.StartFlush? then seq(|s.graph.next|, i => 0)
          else if (Hands(a) || a.ThrowLate?) && s.agents[a.x].pc.i < |s.dispatched| then
            s.dispatched[s.agents[a.x].pc.i := s.dispatched[s.agents[a.x].pc.i] + 1]
          else s.dispatched,
          StepMissed(s, a))
  }

  /** dispatch() gives the task away, to a queue or to its own thread. */
  predicate Hands(a: Action) {
    a.HandOver? || a.HandInline?
  }

  /** Before the first flush. */
  ghost predicate Init(s: State) {
    && WellFormed(s.graph) && Acyclic(s.graph)
    && s.locks == [] && s.pending == 0 && s.agents == [] && s.fired && s.dispatched == [] && s.missed == {}
  }

  function Before(g: Graph): State {
    State(g, [], 0, [], true, [], {})
  }

  /** suspend() adds to the mark of a failed dispatch instead of a count. */
  predicate OnMark(s: State, a: Action) {
    Enabled(s, a) && a.Hold? && s.locks[s.agents[a.x].kind.id] == -1
  }

  /** Agent g is the resurrect() that dispatches task i again. */
  predicate Revives(g: Agent, i: Id) {
    g.kind.Rescuer? && (g.pc == Add(i) || g.pc == Hand(i) || g.pc == Inside(i) || g.pc == Undo(i) || g.pc == Clear(i))
  }

  /** suspend() adds to a mark while a resurrect() dispatches the task. */
  predicate Races(s: State, a: Action) {
    OnMark(s, a) && exists y | 0 <= y < |s.agents| :: Revives(s.agents[y], s.agents[a.x].kind.id)
  }

  /** A dispatch throws in a routine that is itself run inline by a dispatch, and the exception leaves both. */
  predicate ThrowsInside(s: State, a: Action) {
    a.Propagate? || (a.Throw? && Inlined(s, a.x))
  }

  /** An exception is answered by a resurrect() while that of another one is under way. */
  predicate Overlaps(s: State, a: Action) {
    a.StartRescue? && Rescuing(s)
  }

  /** Every exception leaves dispatch() before the routine has been handed over, no suspend() meets a
      resurrect() at work on its task, and one resurrect() runs at a time. */
  predicate Proper(s: State, a: Action) {
    Enabled(s, a) && !Races(s, a) && !ThrowsInside(s, a) && !a.ThrowLate? && !Overlaps(s, a)
  }

  ghost predicate Next(s: State, s': State) {
    exists a :: Enabled(s, a) && s' == Step(s, a)
  }

  ghost predicate ProperNext(s: State, s': State) {
    exists a :: Proper(s, a) && s' == Step(s, a)
  }

  // ---------------------------------------------------------------- the invariant

  function TodoOf(i: Id): Agent -> nat {
    (g: Agent) => multiset(g.todo)[i]
  }

  /** The task an agent is dispatching, or marking after the dispatch failed. */
  function Target(pc: Pc): Option<Id> {
    match pc
    case Add(i) => Some(i)
    case Hand(i) => Some(i)
    case Undo(i) => Some(i)
    case Mark(i) => Some(i)
    case UnMark(i) => Some(i)
    case _ => None
  }

  /** Agent g is dispatching task i for the first time. */
  function EmitOf(i: Id): Agent -> nat {
    (g: Agent) => AsNat(!g.kind.Rescuer? && Target(g.pc) == Some(i))
  }

  /** The resurrect() g has handed task i over and still has to clear its mark. */
  function ClearOf(i: Id): Agent -> nat {
    (g: Agent) => AsNat(g.pc == Clear(i) || (g.kind.Rescuer? && g.pc == Inside(i)))
  }

  /** The share of pending_count an agent holds. */
  function Unit(g: Agent): nat {
    AsNat(!g.pc.Asleep? && !g.pc.Done?) + AsNat(g.pc.Hand? || g.pc.Undo?)
  }

  function Rescue(g: Agent): nat {
    AsNat(g.kind.Rescuer? && !g.pc.Done? && !g.pc.Thrown?)
  }

  predicate Early(pc: Pc) {
    pc.Asleep? || pc.Queued? || pc.Running? || pc.Stuck?
  }

  predicate TaskOK(g: Graph, a: Agent)
    requires a.kind.Task?
  {
    && a.kind.id < |g.next| && a.kind.id < |g.junction|
    && (Early(a.pc) ==> a.todo == g.next[a.kind.id])
    && (forall k | 0 <= k < |a.todo| :: a.todo[k] in g.next[a.kind.id])
    && (a.pc.Add? || a.pc.Hand? || a.pc.Inside? ==> a.pc.i in g.next[a.kind.id])
    && (a.pc.Stuck? ==> g.junction[a.kind.id])
    && (!Early(a.pc) ==> !g.junction[a.kind.id])
    && !a.pc.Reserved? && !a.pc.Held? && !a.pc.Look? && !a.pc.Clear?
    && (a.pc.Thrown? ==> a.todo == [])
  }

  predicate HelperOK(a: Agent) {
    match a.kind
    case Task(_) => false
    case Flusher => a.pc.Loop? || a.pc.Add? || a.pc.Hand? || a.pc.Inside? || a.pc.Done?
    case Suspension(id) =>
      && (a.pc.Reserved? || a.pc.Held? || a.pc.Loop? || a.pc.Add? || a.pc.Hand? || a.pc.Inside? || a.pc.Done?)
      && (a.pc.Reserved? ==> a.todo == [])
      && (a.pc.Held? ==> a.todo == [id])
    case Rescuer =>
      && (a.pc.Look? || a.pc.Add? || a.pc.Hand? || a.pc.Inside? || a.pc.Undo? || a.pc.Thrown? || a.pc.Clear? || a.pc.Done?)
      && a.todo == []
  }

  predicate TargetsOK(a: Agent, n: nat) {
    && (forall k | 0 <= k < |a.todo| :: a.todo[k] < n)
    && (a.kind.Suspension? ==> a.kind.id < n)
    && (a.pc.Done? ==> a.todo == [])
    && match a.pc
       case Add(i) => i < n
       case Hand(i) => i < n
       case Inside(i) => i < n
       case Undo(i) => i < n
       case Mark(i) => i < n
       case UnMark(i) => i < n
       case Clear(i) => i < n
       case Look(i) => i <= n
       case _ => true
  }

  predicate AgentOK(g: Graph, a: Agent, x: nat) {
    && TargetsOK(a, |g.next|)
    && (if x < |g.next| then a.kind == Task(x) && TaskOK(g, a)
        else HelperOK(a) && (a.kind.Flusher? <==> x == |g.next|))
  }

  ghost predicate Shape(s: State) {
    && WellFormed(s.graph) && Acyclic(s.graph)
    && (|s.agents| == 0 ==> |s.locks| == |s.dispatched| == 0 && s.fired)
    && (|s.agents| > 0 ==> |s.locks| == |s.dispatched| == |s.graph.next| < |s.agents|)
    && forall x | 0 <= x < |s.agents| :: AgentOK(s.graph, s.agents[x], x)
  }

  /** m is 1 if the task is marked: its lock count is then one less than what is owed to it. */
  predicate Balanced(lock: int, owed: nat, emits: nat, clears: nat, asleep: bool, dispatched: nat) {
    var m := owed - lock;
    && (m == 0 || (m == 1 && owed <= 1))
    && clears <= AsNat(lock == -1 && !asleep)
    && AsNat(m == 0 && owed > 0) + emits + (m - clears) + AsNat(!asleep) == 1
    && dispatched == AsNat(!asleep)
  }

  /** The lock count of task i is the number of decrements still owed to it, less one if it is marked.
      Exactly one of these holds: decrements are owed, someone dispatches it, it is marked, it is
      dispatched. */
  ghost predicate Account(s: State, i: nat)
    requires i < |s.locks| && i < |s.agents| && i < |s.dispatched|
  {
    Balanced(s.locks[i], Sum(TodoOf(i), s.agents), Sum(EmitOf(i), s.agents), Sum(ClearOf(i), s.agents),
             s.agents[i].pc.Asleep?, s.dispatched[i])
  }

  ghost predicate Accounts(s: State)
    requires Shape(s)
  {
    forall i | 0 <= i < |s.locks| :: Account(s, i)
  }

  /** A resurrect() about to dispatch a task. */
  predicate Redispatching(g: Agent) {
    g.kind.Rescuer? && (g.pc.Add? || g.pc.Hand? || g.pc.Undo?)
  }

  /** At most one resurrect() runs, and what it dispatches is marked. */
  ghost predicate RescueOK(s: State)
    requires Shape(s)
  {
    && Sum(Rescue, s.agents) <= 1
    && forall x | 0 <= x < |s.agents| && Redispatching(s.agents[x]) ::
         var i := s.agents[x].pc.i; s.locks[i] == -1 && s.agents[i].pc.Asleep? && i !in s.missed
  }

  /** What is run inline is under way, or finished. */
  ghost predicate InlineOK(s: State)
    requires Shape(s)
  {
    forall x | 0 <= x < |s.agents| && s.agents[x].pc.Inside? ::
      var i := s.agents[x].pc.i; UnderWay(s.agents[i].pc) && !s.graph.junction[i]
  }

  predicate UnderWay(pc: Pc) {
    pc.Running? || pc.Loop? || pc.Add? || pc.Hand? || pc.Inside? || pc.Done?
  }

  ghost predicate Settled(s: State) {
    s.pending == Sum(Unit, s.agents) && (s.fired <==> s.pending == 0)
  }

  ghost predicate Marked(s: State, i: nat)
    requires i < |s.locks|
  {
    Sum(TodoOf(i), s.agents) > s.locks[i] && Sum(ClearOf(i), s.agents) == 0
  }

  /** Agent g will see to it that mark i is found by a resurrect(). */
  predicate Promises(g: Agent, i: nat) {
    if g.kind.Rescuer? then
      g.pc.Thrown? || (g.pc.Look? && g.pc.i <= i) || ((g.pc.Add? || g.pc.Hand? || g.pc.Undo?) && g.pc.i <= i)
      || ((g.pc.Clear? || g.pc.Inside?) && g.pc.i < i)
    else
      g.pc.Thrown? || g.pc.UnLoop? || g.pc.UnMark?
  }

  ghost predicate Promised(s: State) {
    forall i | 0 <= i < |s.locks| && i !in s.missed && Marked(s, i) ::
      exists x :: 0 <= x < |s.agents| && Promises(s.agents[x], i)
  }

  /** What was missed is still marked, and nobody is at work on it. */
  ghost predicate MissedOK(s: State) {
    forall i | i in s.missed :: i < |s.locks| && i < |s.agents| && Marked(s, i) && s.agents[i].pc.Asleep?
  }

  ghost predicate Inv(s: State) {
    Shape(s) && Accounts(s) && RescueOK(s) && InlineOK(s) && Settled(s) && Promised(s) && MissedOK(s)
  }

  lemma InitInv(s: State)
    requires Init(s)
    ensures Inv(s)
  {
  }

  predicate Local(a: Action) {
    !a.StartFlush? && !a.Suspend? && !a.StartRescue? && !Hands(a) && !a.ThrowLate? && !a.Propagate?
  }

  lemma LocalShape(s: State, a: Action)
    requires Shape(s) && Proper(s, a) && Local(a)
    ensures AgentOK(s.graph, StepAgent(s, a), a.x)
  {
    assert AgentOK(s.graph, s.agents[a.x], a.x);
    AgentShape(s, a);
  }

  lemma AgentShape(s: State, a: Action)
    requires Enabled(s, a) && Local(a) && AgentOK(s.graph, s.agents[a.x], a.x)
    requires |s.locks| == |s.graph.next|
    ensures AgentOK(s.graph, StepAgent(s, a), a.x)
  {
    TargetsShape(s, a);
    if s.agents[a.x].kind.Task? {
      TaskShape(s, a);
    } else {
      HelperShape(s, a);
    }
    hide TargetsOK, TaskOK, HelperOK, Enabled, StepAgent;
  }

  lemma TargetsShape(s: State, a: Action)
    requires Enabled(s, a) && Local(a) && TargetsOK(s.agents[a.x], |s.graph.next|) && |s.locks| == |s.graph.next|
    requires s.agents[a.x].kind.Rescuer? ==> s.agents[a.x].todo == []
    ensures TargetsOK(StepAgent(s, a), |s.graph.next|) && StepAgent(s, a).kind == s.agents[a.x].kind
  {
  }

  lemma TaskShape(s: State, a: Action)
    requires Enabled(s, a) && Local(a) && s.agents[a.x].kind.Task? && TaskOK(s.graph, s.agents[a.x])
    ensures StepAgent(s, a).kind.Task? && TaskOK(s.graph, StepAgent(s, a))
  {
  }

  lemma HelperShape(s: State, a: Action)
    requires Enabled(s, a) && Local(a) && HelperOK(s.agents[a.x])
    ensures HelperOK(StepAgent(s, a))
  {
  }

  /** Whoever is about to queue a task finds it never queued before. */
  lemma TargetAsleep(s: State, x: nat)
    requires Shape(s) && Accounts(s) && RescueOK(s)
    requires x < |s.agents| && (s.agents[x].pc.Hand? || s.agents[x].pc.Add?)
    ensures s.agents[x].pc.i < |s.graph.next| && s.agents[s.agents[x].pc.i].pc.Asleep?
    ensures !s.agents[x].kind.Rescuer? ==> s.locks[s.agents[x].pc.i] == 0
  {
    var i := s.agents[x].pc.i;
    SumAtLeast(EmitOf(i), s.agents, x);
    assert Account(s, i);
  }

  lemma HandOverShape(s: State, a: Action)
    requires Shape(s) && Proper(s, a) && Hands(a)
    requires s.agents[a.x].pc.i < |s.graph.next| && s.agents[s.agents[a.x].pc.i].pc.Asleep?
    ensures Shape(Step(s, a))
  {
    LocksStay(s, a);
    hide AgentOK, StepAgent, StepLocks, StepPending, StepMissed, Sum, WellFormed, Acyclic, Races, ThrowsInside;
    var s' := Step(s, a);
    forall y | 0 <= y < |s'.agents| ensures AgentOK(s'.graph, s'.agents[y], y) {
      assert AgentOK(s.graph, s.agents[y], y);
      HandOverAgent(s, a, y);
    }
  }

  lemma HandOverAgent(s: State, a: Action, y: nat)
    requires Enabled(s, a) && Hands(a) && y < |s.agents| && AgentOK(s.graph, s.agents[y], y)
    requires s.agents[a.x].pc.i < |s.agents| && s.agents[s.agents[a.x].pc.i].pc.Asleep?
    requires s.agents[a.x].pc.i < |s.graph.next|
    ensures y < |StepAgents(s, a)| && AgentOK(s.graph, StepAgents(s, a)[y], y)
  {
  }

  /** The sums after one agent has changed. */
  lemma UpdateSums(agents: seq<Agent>, x: nat, g: Agent, i: Id)
    requires x < |agents|
    ensures Sum(TodoOf(i), agents[x := g]) + TodoOf(i)(agents[x]) == Sum(TodoOf(i), agents) + TodoOf(i)(g)
    ensures Sum(EmitOf(i), agents[x := g]) + EmitOf(i)(agents[x]) == Sum(EmitOf(i), agents) + EmitOf(i)(g)
    ensures Sum(ClearOf(i), agents[x := g]) + ClearOf(i)(agents[x]) == Sum(ClearOf(i), agents) + ClearOf(i)(g)
  {
    SumUpdate(TodoOf(i), agents, x, g);
    SumUpdate(EmitOf(i), agents, x, g);
    SumUpdate(ClearOf(i), agents, x, g);
  }

  lemma AppendSums(agents: seq<Agent>, g: Agent, i: Id)
    ensures Sum(TodoOf(i), agents + [g]) == Sum(TodoOf(i), agents) + TodoOf(i)(g)
    ensures Sum(EmitOf(i), agents + [g]) == Sum(EmitOf(i), agents) + EmitOf(i)(g)
    ensures Sum(ClearOf(i), agents + [g]) == Sum(ClearOf(i), agents) + ClearOf(i)(g)
  {
    SumAppend(TodoOf(i), agents, g);
    SumAppend(EmitOf(i), agents, g);
    SumAppend(ClearOf(i), agents, g);
  }

  lemma HeadCount(todo: seq<Id>, i: Id)
    requires todo != []
    ensures multiset(todo)[i] == multiset(todo[1..])[i] + AsNat(todo[0] == i)
  {
    assert todo == [todo[0]] + todo[1..];
  }

  /** The entries one local action can make in the books of a task: lock count, decrements owed,
      first dispatches and clearings in progress. */
  predicate Entry(l: int, l': int, t: nat, t': nat, e: nat, e': nat, c: nat, c': nat) {
    || (t' == t && e' == e && c' == c && l' == l)
    || (t' + 1 == t && e' == e && c' == c && l' == l - 1 && l != 1)
    || (t' + 1 == t && e' == e + 1 && c' == c && l' == 0 && l == 1)
    || (t' == t && e == 1 && e' == 0 && c' == c && l' == -1)
    || (t' == t + 1 && e' == e && c' == c && l' == l + 1 && l != 0)
    || (t' == t && e' == e && c == 1 && c' == 0 && l' == 0)
  }

  ghost predicate Booked(s: State, a: Action, i: nat)
    requires Enabled(s, a) && Local(a) && i < |s.locks| && a.x < |s.agents|
  {
    var g := s.agents[a.x];
    var g' := StepAgent(s, a);
    && (g.pc.Asleep? <==> g'.pc.Asleep?)
    && i < |StepLocks(s, a)|
    && Entry(s.locks[i], StepLocks(s, a)[i], TodoOf(i)(g), TodoOf(i)(g'), EmitOf(i)(g), EmitOf(i)(g'),
             ClearOf(i)(g), ClearOf(i)(g'))
  }

  predicate Decrements(a: Action) {
    a.Decrement? || a.UnDecrement?
  }

  predicate Stores(a: Action) {
    a.StoreMark? || a.StoreUnMark? || a.StoreClear? || a.Hold?
  }

  lemma DecrementEffect(s: State, a: Action, i: nat)
    requires Proper(s, a) && Decrements(a) && i < |s.locks| && AgentOK(s.graph, s.agents[a.x], a.x)
    ensures Booked(s, a, i)
  {
    HeadCount(s.agents[a.x].todo, i);
  }

  lemma StoreEffect(s: State, a: Action, i: nat)
    requires Proper(s, a) && Stores(a) && i < |s.locks| && AgentOK(s.graph, s.agents[a.x], a.x)
    ensures Booked(s, a, i)
  {
    if a.Hold? {
      HoldEffect(s, a, i);
    }
  }

  lemma HoldEffect(s: State, a: Action, i: nat)
    requires Proper(s, a) && a.Hold? && i < |s.locks| && AgentOK(s.graph, s.agents[a.x], a.x)
    ensures Booked(s, a, i)
  {
  }

  lemma MoveEffect(s: State, a: Action, i: nat)
    requires Proper(s, a) && Local(a) && !Decrements(a) && !Stores(a) && i < |s.locks|
    requires AgentOK(s.graph, s.agents[a.x], a.x)
    ensures Booked(s, a, i)
  {
    MovesOnly(s, a, i);
    hide StepAgent, Target;
  }

  /** What is neither a decrement nor a store leaves the books alone. */
  lemma MovesOnly(s: State, a: Action, i: nat)
    requires Proper(s, a) && Local(a) && !Decrements(a) && !Stores(a) && AgentOK(s.graph, s.agents[a.x], a.x)
    ensures var g := s.agents[a.x];
            var g' := StepAgent(s, a);
            && g'.todo == g.todo && (g.pc.Asleep? <==> g'.pc.Asleep?)
            && EmitOf(i)(g) == EmitOf(i)(g') && ClearOf(i)(g) == ClearOf(i)(g')
  {
  }

  /** Every entry keeps the books of a task balanced. */
  lemma Rebalance(l: int, l': int, t: nat, t': nat, e: nat, e': nat, c: nat, c': nat,
                  owed: nat, owed': nat, emits: nat, emits': nat, clears: nat, clears': nat, asleep: bool, d: nat)
    requires Balanced(l, owed, emits, clears, asleep, d) && Entry(l, l', t, t', e, e', c, c')
    requires t <= owed && e <= emits && c <= clears
    requires owed' + t == owed + t' && emits' + e == emits + e' && clears' + c == clears + c'
    requires t' == t + 1 && l == -1 ==> clears == 0
    ensures Balanced(l', owed', emits', clears', asleep, d)
  {
  }

  lemma LocalEffect(s: State, a: Action, i: nat)
    requires Proper(s, a) && Local(a) && i < |s.locks| && AgentOK(s.graph, s.agents[a.x], a.x)
    ensures Booked(s, a, i)
  {
    if Decrements(a) {
      DecrementEffect(s, a, i);
    } else if Stores(a) {
      StoreEffect(s, a, i);
    } else {
      MoveEffect(s, a, i);
    }
  }

  lemma SleepsOrActs(s: State, a: Action, i: nat)
    requires Proper(s, a) && Local(a) && i < |s.agents|
    ensures s.agents[a.x := StepAgent(s, a)][i].pc.Asleep? == s.agents[i].pc.Asleep?
  {
  }

  lemma LocalBalanced(s: State, a: Action, i: nat)
    requires Shape(s) && Proper(s, a) && Local(a) && AgentOK(s.graph, s.agents[a.x], a.x)
    requires i < |s.locks| && i < |s.agents| && i < |s.dispatched| && Account(s, i)
    ensures var after := s.agents[a.x := StepAgent(s, a)];
            && |StepLocks(s, a)| == |s.locks| && after[i].pc.Asleep? == s.agents[i].pc.Asleep?
            && Balanced(StepLocks(s, a)[i], Sum(TodoOf(i), after), Sum(EmitOf(i), after), Sum(ClearOf(i), after),
                        s.agents[i].pc.Asleep?, s.dispatched[i])
  {
    hide Step, StepAgent, StepLocks, Sum, TodoOf, EmitOf, ClearOf, WellFormed, Acyclic, Races, ThrowsInside, Entry, Balanced;
    SleepsOrActs(s, a, i);
    var g := s.agents[a.x];
    var g' := StepAgent(s, a);
    var after := s.agents[a.x := g'];
    LocalEffect(s, a, i);
    UpdateSums(s.agents, a.x, g', i);
    SumAtLeast(TodoOf(i), s.agents, a.x);
    SumAtLeast(EmitOf(i), s.agents, a.x);
    SumAtLeast(ClearOf(i), s.agents, a.x);
    NotRevived(s, a, i);
    Rebalance(s.locks[i], StepLocks(s, a)[i], TodoOf(i)(g), TodoOf(i)(g'), EmitOf(i)(g), EmitOf(i)(g'),
              ClearOf(i)(g), ClearOf(i)(g'), Sum(TodoOf(i), s.agents), Sum(TodoOf(i), after),
              Sum(EmitOf(i), s.agents), Sum(EmitOf(i), after), Sum(ClearOf(i), s.agents), Sum(ClearOf(i), after),
              s.agents[i].pc.Asleep?, s.dispatched[i]);
    LocalFrame(s, a);
  }

  lemma LocalAccount(s: State, a: Action, i: nat)
    requires Shape(s) && Proper(s, a) && Local(a) && AgentOK(s.graph, s.agents[a.x], a.x)
    requires i < |s.locks| && i < |s.agents| && i < |s.dispatched| && Account(s, i)
    ensures var s' := Step(s, a); i < |s'.locks| && i < |s'.agents| && i < |s'.dispatched| && Account(s', i)
  {
    LocalBalanced(s, a, i);
    LocalFrame(s, a);
    hide Step, StepAgent, StepLocks, Sum, TodoOf, EmitOf, ClearOf, WellFormed, Acyclic, Races, ThrowsInside, Balanced;
  }

  /** What a proper suspend() adds to is no mark that a resurrect() is about to clear. */
  lemma NotRevived(s: State, a: Action, i: nat)
    requires Shape(s) && Proper(s, a) && Local(a) && i < |s.locks| && AgentOK(s.graph, s.agents[a.x], a.x)
    ensures TodoOf(i)(StepAgent(s, a)) == TodoOf(i)(s.agents[a.x]) + 1 && s.locks[i] == -1 ==> Sum(ClearOf(i), s.agents) == 0
  {
    hide WellFormed, Acyclic, Sum;
    if a.Hold? && s.agents[a.x].kind.id == i {
      if s.locks[i] == -1 {
        forall y | 0 <= y < |s.agents| ensures ClearOf(i)(s.agents[y]) == 0 {
          assert AgentOK(s.graph, s.agents[y], y) && !Revives(s.agents[y], i);
        }
        SumZero(ClearOf(i), s.agents);
      }
    } else {
      OnlyHoldOwes(s, a, i);
    }
  }

  lemma OnlyHoldOwes(s: State, a: Action, i: nat)
    requires Proper(s, a) && Local(a) && AgentOK(s.graph, s.agents[a.x], a.x) && !(a.Hold? && s.agents[a.x].kind.id == i)
    ensures TodoOf(i)(StepAgent(s, a)) <= TodoOf(i)(s.agents[a.x])
  {
    if Decrements(a) {
      HeadCount(s.agents[a.x].todo, i);
    }
  }

  lemma LocalFrame(s: State, a: Action)
    requires Proper(s, a) && Local(a)
    ensures var s' := Step(s, a);
            && s'.agents == s.agents[a.x := StepAgent(s, a)] && s'.locks == StepLocks(s, a)
            && s'.dispatched == s.dispatched && s'.graph == s.graph && |s'.locks| == |s.locks|
  {
  }

  /** Where the task handed over is then. */
  function Given(a: Action): Pc {
    if a.HandInline? then Running else Queued
  }

  /** Handing over task i turns its dispatch (or its mark) into a dispatched task; other books stay. */
  lemma HandOverSums(s: State, a: Action, j: nat)
    requires Enabled(s, a) && Hands(a) && TargetsOK(s.agents[a.x], |s.agents|)
    requires s.agents[s.agents[a.x].pc.i].pc.Asleep?
    ensures var i := s.agents[a.x].pc.i;
            var rescue := s.agents[a.x].kind.Rescuer?;
            var after := StepAgents(s, a);
            && Sum(TodoOf(j), after) == Sum(TodoOf(j), s.agents)
            && Sum(EmitOf(j), after) + AsNat(j == i && !rescue) == Sum(EmitOf(j), s.agents)
            && Sum(ClearOf(j), after) == Sum(ClearOf(j), s.agents) + AsNat(j == i && rescue)
  {
    hide Sum;
    var i := s.agents[a.x].pc.i;
    var g' := StepAgent(s, a);
    var moved := s.agents[a.x := g'];
    UpdateSums(s.agents, a.x, g', j);
    UpdateSums(moved, i, moved[i].(pc := Given(a)), j);
  }

  lemma HandOverAccount(s: State, a: Action, j: nat)
    requires Shape(s) && Accounts(s) && RescueOK(s) && Proper(s, a) && Hands(a) && j < |s.locks|
    ensures var s' := Step(s, a); |s'.agents| == |s.agents| && |s'.dispatched| == |s.dispatched| && Account(s', j)
  {
    hide Sum, TodoOf, EmitOf, ClearOf;
    TargetAsleep(s, a.x);
    HandOverSums(s, a, j);
    var i := s.agents[a.x].pc.i;
    var after := StepAgents(s, a);
    assert Account(s, j);
    assert after[j].pc.Asleep? == (s.agents[j].pc.Asleep? && j != i);
  }

  lemma AppendAccount(s: State, agents: seq<Agent>, g: Agent, i: nat)
    requires |s.agents| == |agents| && i < |s.locks| && i < |s.agents| && i < |s.dispatched| && Account(s, i)
    requires g.todo == [] && (g.pc.Reserved? || g.pc.Look?)
    requires agents[i].pc.Asleep? <==> s.agents[i].pc.Asleep?
    requires Sum(TodoOf(i), agents) == Sum(TodoOf(i), s.agents) && Sum(EmitOf(i), agents) == Sum(EmitOf(i), s.agents)
             && Sum(ClearOf(i), agents) == Sum(ClearOf(i), s.agents)
    ensures Account(s.(agents := agents + [g]), i)
  {
    AppendSums(agents, g, i);
  }

  lemma {:induction false} IotaOnce(n: nat, i: Id)
    ensures multiset(Iota(n))[i] == AsNat(i < n)
  {
    if n > 0 {
      assert Iota(n) == Iota(n - 1) + [n - 1];
      IotaOnce(n - 1, i);
    }
  }

  /** A fresh flush owes each task one decrement per incoming edge and one for the guard. */
  lemma FreshAccount(s: State, i: nat)
    requires Shape(s) && Enabled(s, StartFlush) && i < |s.graph.next|
    ensures var s' := Step(s, StartFlush);
            i < |s'.locks| && i < |s'.agents| && i < |s'.dispatched| && Account(s', i)
  {
    var agents := FreshAgents(s.graph);
    var n := |s.graph.next|;
    var tasks := agents[..n];
    assert agents == tasks + [agents[n]];
    AppendSums(tasks, agents[n], i);
    SumSame(TodoOf(i), tasks, EdgesInto(i), s.graph.next);
    SumZero(EmitOf(i), tasks);
    SumZero(ClearOf(i), tasks);
    IotaOnce(n, i);
  }

  lemma SuspendAccount(s: State, a: Action, i: nat)
    requires Shape(s) && Proper(s, a) && a.Suspend? && i < |s.locks| && Account(s, i)
    ensures var s' := Step(s, a); i < |s'.locks| && i < |s'.agents| && i < |s'.dispatched| && Account(s', i)
  {
    AppendAccount(s, s.agents, Agent(Suspension(a.id), Reserved, []), i);
  }

  lemma RescueAccount(s: State, a: Action, i: nat)
    requires Shape(s) && Proper(s, a) && a.StartRescue? && i < |s.locks| && Account(s, i)
    ensures var s' := Step(s, a); i < |s'.locks| && i < |s'.agents| && i < |s'.dispatched| && Account(s', i)
  {
    hide Sum;
    UpdateSums(s.agents, a.x, StepAgent(s, a), i);
    AppendAccount(s, s.agents[a.x := StepAgent(s, a)], Agent(Rescuer, Look(0), []), i);
  }

  lemma StepAccounts(s: State, a: Action)
    requires Shape(s) && Accounts(s) && RescueOK(s) && Proper(s, a) && Shape(Step(s, a))
    ensures Accounts(Step(s, a))
  {
    var s' := Step(s, a);
    forall i | 0 <= i < |s'.locks| ensures Account(s', i) {
      if a.StartFlush? {
        FreshAccount(s, i);
      } else {
        LockCount(s, a);
        assert Account(s, i);
        if Local(a) {
          LocalAccount(s, a, i);
        } else if Hands(a) {
          HandOverAccount(s, a, i);
        } else if a.Suspend? {
          SuspendAccount(s, a, i);
        } else {
          RescueAccount(s, a, i);
        }
      }
    }
  }

  lemma LockCount(s: State, a: Action)
    requires Proper(s, a) && !a.StartFlush?
    ensures |Step(s, a).locks| == |s.locks| && |Step(s, a).agents| >= |s.agents|
  {
  }

  // ---- pending_count

  /** pending_count moves with the acting agent's share. */
  lemma LocalUnit(s: State, a: Action)
    requires Proper(s, a) && Local(a) && AgentOK(s.graph, s.agents[a.x], a.x)
    ensures StepPending(s, a) - s.pending == Unit(StepAgent(s, a)) - Unit(s.agents[a.x])
    ensures Unit(s.agents[a.x]) > 0
    ensures a.UndoPending? ==> Unit(s.agents[a.x]) == 2
  {
  }

  lemma LocalSettled(s: State, a: Action)
    requires Settled(s) && Proper(s, a) && Local(a) && AgentOK(s.graph, s.agents[a.x], a.x)
    ensures Settled(Step(s, a))
  {
    LocalUnit(s, a);
    LocalFrame(s, a);
    SumUpdate(Unit, s.agents, a.x, StepAgent(s, a));
    SumAtLeast(Unit, s.agents, a.x);
  }

  lemma HandOverSettled(s: State, a: Action)
    requires Settled(s) && Enabled(s, a) && Hands(a)
    requires s.agents[a.x].pc.i < |s.agents| && s.agents[s.agents[a.x].pc.i].pc.Asleep?
    ensures Settled(Step(s, a))
  {
    hide Sum;
    var g' := StepAgent(s, a);
    var moved := s.agents[a.x := g'];
    var i := s.agents[a.x].pc.i;
    SumUpdate(Unit, s.agents, a.x, g');
    SumUpdate(Unit, moved, i, moved[i].(pc := Given(a)));
    SumAtLeast(Unit, s.agents, a.x);
  }

  lemma StepSettled(s: State, a: Action)
    requires Shape(s) && Accounts(s) && RescueOK(s) && Settled(s) && Proper(s, a)
    ensures Settled(Step(s, a))
  {
    hide StepLocks, StepMissed, Accounts, RescueOK, Sum, WellFormed, Acyclic, Races;
    if a.StartFlush? {
      FreshUnits(s.graph);
    } else if a.Suspend? {
      SumAppend(Unit, s.agents, Agent(Suspension(a.id), Reserved, []));
    } else {
      assert AgentOK(s.graph, s.agents[a.x], a.x);
      if Hands(a) {
        TargetAsleep(s, a.x);
        HandOverSettled(s, a);
      } else if a.StartRescue? {
        SumUpdate(Unit, s.agents, a.x, StepAgent(s, a));
        SumAtLeast(Unit, s.agents, a.x);
        SumAppend(Unit, s.agents[a.x := StepAgent(s, a)], Agent(Rescuer, Look(0), []));
      } else {
        LocalSettled(s, a);
      }
    }
  }

  lemma FreshUnits(g: Graph)
    ensures Sum(Unit, FreshAgents(g)) == 1
  {
    var n := |g.next|;
    var agents := FreshAgents(g);
    assert agents == agents[..n] + [agents[n]];
    SumAppend(Unit, agents[..n], agents[n]);
    SumZero(Unit, agents[..n]);
  }

  // ---- resurrect()

  lemma OneRescuer(s: State, x: nat, y: nat)
    requires Sum(Rescue, s.agents) <= 1 && x < |s.agents| && y < |s.agents|
    requires Rescue(s.agents[x]) == 1 && Rescue(s.agents[y]) == 1
    ensures x == y
  {
    if x < y {
      SumPair(Rescue, s.agents, x, y);
    } else if y < x {
      SumPair(Rescue, s.agents, y, x);
    }
  }

  /** Only a resurrect() itself removes a mark, or wakes the task that carries it. */
  lemma MarkStays(s: State, a: Action, i: nat)
    requires Shape(s) && Accounts(s) && RescueOK(s) && Proper(s, a) && !a.StartFlush?
    requires i < |s.locks| && s.locks[i] == -1 && s.agents[i].pc.Asleep?
    requires Hands(a) && s.agents[a.x].kind.Rescuer? ==> s.agents[a.x].pc.i != i
    requires !(a.Hold? && s.agents[a.x].kind.id == i)
    ensures var s' := Step(s, a); i < |s'.locks| && i < |s'.agents| && s'.locks[i] == -1 && s'.agents[i].pc.Asleep?
  {
    LocksStay(s, a);
    hide StepAgent, StepLocks, StepMissed, StepPending, Sum, WellFormed, Acyclic, RescueOK, Races, ThrowsInside;
    assert Account(s, i);
    if Local(a) {
      MarkStaysLocal(s, a, i);
    } else if Hands(a) {
      OtherTarget(s, a, i);
    }
  }

  lemma MarkStaysLocal(s: State, a: Action, i: nat)
    requires Shape(s) && Proper(s, a) && Local(a) && !(a.Hold? && s.agents[a.x].kind.id == i)
    requires i < |s.locks| && s.locks[i] == -1 && s.agents[i].pc.Asleep? && Account(s, i)
    ensures var s' := Step(s, a); i < |s'.locks| && i < |s'.agents| && s'.locks[i] == -1 && s'.agents[i].pc.Asleep?
  {
    hide Step, StepAgent, StepLocks, Sum, TodoOf, EmitOf, ClearOf, WellFormed, Acyclic, Races, ThrowsInside;
    assert AgentOK(s.graph, s.agents[a.x], a.x);
    LocalEffect(s, a, i);
    LocalFrame(s, a);
    SumAtLeast(TodoOf(i), s.agents, a.x);
    SumAtLeast(EmitOf(i), s.agents, a.x);
    SumAtLeast(ClearOf(i), s.agents, a.x);
    SleepsOn(s, a, i);
    OnlyHoldOwes(s, a, i);
  }

  /** A sleeping agent does not act. */
  lemma SleepsOn(s: State, a: Action, i: nat)
    requires Proper(s, a) && Local(a) && i < |s.agents| && s.agents[i].pc.Asleep?
    ensures a.x != i
  {
  }

  lemma StepRescuers(s: State, a: Action)
    requires Shape(s) && Accounts(s) && RescueOK(s) && Proper(s, a)
    ensures Sum(Rescue, StepAgents(s, a)) <= 1
  {
    if a.StartFlush? {
      SumZero(Rescue, FreshAgents(s.graph));
    } else if a.Suspend? {
      SumAppend(Rescue, s.agents, Agent(Suspension(a.id), Reserved, []));
    } else {
      ActorRescuers(s, a);
    }
  }

  lemma ActorRescuers(s: State, a: Action)
    requires Shape(s) && Accounts(s) && RescueOK(s) && Proper(s, a) && !a.StartFlush? && !a.Suspend?
    ensures Sum(Rescue, StepAgents(s, a)) <= 1
  {
    hide Sum;
    var g' := StepAgent(s, a);
    SumUpdate(Rescue, s.agents, a.x, g');
    if a.StartRescue? {
      SumZero(Rescue, s.agents);
      SumAppend(Rescue, s.agents[a.x := g'], Agent(Rescuer, Look(0), []));
    } else if Hands(a) {
      TargetAsleep(s, a.x);
      var moved := s.agents[a.x := g'];
      var i := s.agents[a.x].pc.i;
      SumUpdate(Rescue, moved, i, moved[i].(pc := Given(a)));
    }
  }

  lemma StepRescueOK(s: State, a: Action)
    requires Shape(s) && Accounts(s) && RescueOK(s) && Proper(s, a) && Shape(Step(s, a))
    ensures RescueOK(Step(s, a))
  {
    var s' := Step(s, a);
    StepRescuers(s, a);
    forall y | 0 <= y < |s'.agents| && Redispatching(s'.agents[y])
      ensures var i := s'.agents[y].pc.i; s'.locks[i] == -1 && s'.agents[i].pc.Asleep? && i !in s'.missed
    {
      if !a.StartFlush? {
        RedispatchKept(s, a, y);
      }
    }
  }

  lemma RedispatchKept(s: State, a: Action, y: nat)
    requires Shape(s) && Accounts(s) && RescueOK(s) && Proper(s, a) && Shape(Step(s, a)) && !a.StartFlush?
    requires y < |Step(s, a).agents| && Redispatching(Step(s, a).agents[y])
    ensures var s' := Step(s, a);
            var i := s'.agents[y].pc.i; s'.locks[i] == -1 && s'.agents[i].pc.Asleep? && i !in s'.missed
  {
    Redispatched(s, a, y);
    hide StepLocks, StepPending, StepAgents, StepAgent, StepMissed, Sum, Accounts, WellFormed, Acyclic, Races;
    MarkStays(s, a, Step(s, a).agents[y].pc.i);
  }

  /** What a resurrect() dispatches after a step was marked before it, and is not handed over by it. */
  lemma Redispatched(s: State, a: Action, y: nat)
    requires Shape(s) && Accounts(s) && RescueOK(s) && Proper(s, a) && !a.StartFlush?
    requires y < |Step(s, a).agents| && Redispatching(Step(s, a).agents[y])
    ensures var i := Step(s, a).agents[y].pc.i;
            && i < |s.locks| && i < |s.agents| && s.locks[i] == -1 && s.agents[i].pc.Asleep? && i !in StepMissed(s, a)
            && (Hands(a) && s.agents[a.x].kind.Rescuer? ==> s.agents[a.x].pc.i != i)
            && !(a.Hold? && s.agents[a.x].kind.id == i)
  {
    hide StepAgents, StepAgent, StepLocks, StepPending, StepMissed, Sum, Accounts, WellFormed, Acyclic, Races;
    if !a.Suspend? && a.x == y {
      ActorRedispatches(s, a);
      RedispatchMoved(s, a);
    } else {
      SameRedispatcher(s, a, y);
      NotMet(s, a, y);
      if (Hands(a) || a.RescueLook?) && s.agents[a.x].kind.Rescuer? {
        OneRescuer(s, a.x, y);
      }
      LooksAlone(s, a);
    }
  }

  /** No proper suspend() adds to the mark that a resurrect() is at work on. */
  lemma NotMet(s: State, a: Action, y: nat)
    requires Proper(s, a) && y < |s.agents| && Redispatching(s.agents[y]) && s.agents[y].pc.i < |s.locks|
    requires s.locks[s.agents[y].pc.i] == -1
    ensures !(a.Hold? && s.agents[a.x].kind.id == s.agents[y].pc.i)
  {
    assert Revives(s.agents[y], s.agents[y].pc.i);
  }

  /** Only resurrect() looks at marks. */
  lemma LooksAlone(s: State, a: Action)
    requires Shape(s) && Proper(s, a)
    ensures a.RescueLook? ==> s.agents[a.x].kind.Rescuer?
    ensures !a.RescueLook? && !a.StartFlush? ==> StepMissed(s, a) == s.missed
  {
    if a.RescueLook? {
      assert AgentOK(s.graph, s.agents[a.x], a.x);
    }
  }

  lemma ActorRedispatches(s: State, a: Action)
    requires Proper(s, a) && !a.StartFlush? && !a.Suspend?
    requires a.x < |StepAgents(s, a)| && Redispatching(StepAgents(s, a)[a.x])
    ensures StepAgents(s, a)[a.x] == StepAgent(s, a)
  {
  }

  lemma SameRedispatcher(s: State, a: Action, y: nat)
    requires Proper(s, a) && !a.StartFlush? && y < |Step(s, a).agents| && Redispatching(Step(s, a).agents[y])
    requires a.Suspend? || a.x != y
    ensures y < |s.agents| && Step(s, a).agents[y] == s.agents[y]
  {
  }

  lemma RedispatchMoved(s: State, a: Action)
    requires Shape(s) && Accounts(s) && RescueOK(s) && Proper(s, a) && !a.StartFlush? && !a.Suspend?
    requires Redispatching(StepAgent(s, a))
    ensures var i := StepAgent(s, a).pc.i;
            && i < |s.locks| && i < |s.agents| && s.locks[i] == -1 && s.agents[i].pc.Asleep? && i !in StepMissed(s, a)
            && !Hands(a) && !a.Hold?
  {
    hide StepAgents, StepPending, Sum, WellFormed, Acyclic, Races;
    var i := StepAgent(s, a).pc.i;
    assert AgentOK(s.graph, s.agents[a.x], a.x);
    if a.RescueLook? {
      NotClearing(s, a.x, i);
      assert Account(s, i);
    }
  }

  /** While the one resurrect() looks around it is not clearing anything. */
  lemma NotClearing(s: State, y: nat, i: nat)
    requires Shape(s) && RescueOK(s) && y < |s.agents| && s.agents[y].pc.Look?
    ensures Sum(ClearOf(i), s.agents) == 0
  {
    forall x | 0 <= x < |s.agents| ensures ClearOf(i)(s.agents[x]) == 0 {
      if ClearOf(i)(s.agents[x]) != 0 {
        assert AgentOK(s.graph, s.agents[x], x) && AgentOK(s.graph, s.agents[y], y);
        OneRescuer(s, x, y);
      }
    }
    SumZero(ClearOf(i), s.agents);
  }

  /** Whether a task is marked, as the books have it. */
  lemma MarkedLocal(s: State, a: Action, i: nat)
    requires Shape(s) && Accounts(s) && Proper(s, a) && Local(a) && i < |s.locks|
    requires var s' := Step(s, a); i < |s'.locks| && Marked(s', i)
    ensures Marked(s, i) || ((a.StoreMark? || a.StoreUnMark?) && s.agents[a.x].pc.i == i)
    ensures a.StoreClear? ==> s.agents[a.x].pc.i != i
  {
    hide Step, StepAgent, StepLocks, Sum, TodoOf, EmitOf, ClearOf, WellFormed, Acyclic;
    assert AgentOK(s.graph, s.agents[a.x], a.x) && Account(s, i);
    LocalEffect(s, a, i);
    LocalFrame(s, a);
    UpdateSums(s.agents, a.x, StepAgent(s, a), i);
    SumAtLeast(TodoOf(i), s.agents, a.x);
    SumAtLeast(EmitOf(i), s.agents, a.x);
    SumAtLeast(ClearOf(i), s.agents, a.x);
    StoresMark(s, a, i);
  }

  lemma StoresMark(s: State, a: Action, i: nat)
    requires Proper(s, a) && Local(a) && i < |s.locks| && AgentOK(s.graph, s.agents[a.x], a.x)
    ensures EmitOf(i)(s.agents[a.x]) > EmitOf(i)(StepAgent(s, a)) ==>
              (a.StoreMark? || a.StoreUnMark?) && s.agents[a.x].pc.i == i
    ensures a.StoreClear? && s.agents[a.x].pc.i == i ==>
              && ClearOf(i)(s.agents[a.x]) == 1 && ClearOf(i)(StepAgent(s, a)) == 0
              && i < |StepLocks(s, a)| && StepLocks(s, a)[i] == 0
    ensures !(a.StoreClear? && s.agents[a.x].pc.i == i) ==> ClearOf(i)(s.agents[a.x]) == ClearOf(i)(StepAgent(s, a))
  {
  }

  /** A task that is marked after a step was so before, unless the step stores the mark. */
  lemma MarkedBefore(s: State, a: Action, i: nat)
    requires Shape(s) && Accounts(s) && RescueOK(s) && Proper(s, a) && !a.StartFlush? && i < |s.locks|
    requires var s' := Step(s, a); i < |s'.locks| && Marked(s', i)
    ensures Marked(s, i) || ((a.StoreMark? || a.StoreUnMark?) && s.agents[a.x].pc.i == i)
    ensures a.StoreClear? ==> s.agents[a.x].pc.i != i
    ensures Hands(a) && s.agents[a.x].kind.Rescuer? ==> s.agents[a.x].pc.i != i
  {
    LocksStay(s, a);
    hide StepAgent, StepLocks, StepMissed, StepPending, Sum, WellFormed, Acyclic, Accounts, RescueOK, Races, ThrowsInside;
    if Local(a) {
      MarkedLocal(s, a, i);
    } else if a.Suspend? {
      AppendSums(s.agents, Agent(Suspension(a.id), Reserved, []), i);
    } else if a.StartRescue? {
      RescueSums(s, a, i);
    } else {
      MarkedOther(s, a, i);
    }
  }

  lemma MarkedOther(s: State, a: Action, i: nat)
    requires Shape(s) && Accounts(s) && RescueOK(s) && Enabled(s, a) && Hands(a) && i < |s.locks|
    requires var s' := Step(s, a); i < |s'.locks| && Marked(s', i)
    ensures Marked(s, i) && (s.agents[a.x].kind.Rescuer? ==> s.agents[a.x].pc.i != i)
  {
    LocksStay(s, a);
    hide StepAgent, StepLocks, StepMissed, StepPending, Sum, WellFormed, Acyclic, Accounts, RescueOK;
    TargetAsleep(s, a.x);
    assert AgentOK(s.graph, s.agents[a.x], a.x);
    HandOverSums(s, a, i);
  }

  lemma LocksStay(s: State, a: Action)
    requires Enabled(s, a)
    ensures Hands(a) || a.Suspend? || a.StartRescue? ==> StepLocks(s, a) == s.locks
  {
  }

  lemma RescueSums(s: State, a: Action, i: nat)
    requires Enabled(s, a) && a.StartRescue?
    ensures Sum(TodoOf(i), StepAgents(s, a)) == Sum(TodoOf(i), s.agents)
    ensures Sum(ClearOf(i), StepAgents(s, a)) == Sum(ClearOf(i), s.agents)
  {
    hide Sum;
    UpdateSums(s.agents, a.x, StepAgent(s, a), i);
    AppendSums(s.agents[a.x := StepAgent(s, a)], Agent(Rescuer, Look(0), []), i);
  }

  lemma LocalPromise(s: State, a: Action, i: nat)
    requires Shape(s) && Accounts(s) && Proper(s, a) && Local(a) && i < |s.locks|
    requires i !in StepMissed(s, a) && !(a.StoreClear? && s.agents[a.x].pc.i == i)
    requires (Marked(s, i) && Promises(s.agents[a.x], i)) || ((a.StoreMark? || a.StoreUnMark?) && s.agents[a.x].pc.i == i)
    ensures Promises(StepAgent(s, a), i)
  {
    hide Sum, WellFormed, Acyclic;
    assert AgentOK(s.graph, s.agents[a.x], a.x) && Account(s, i);
    hide Accounts, StepAgent;
    AgentPromise(s, a, i);
  }

  /** Whoever sees to it that a mark is found goes on to do so. */
  lemma AgentPromise(s: State, a: Action, i: nat)
    requires Enabled(s, a) && Local(a) && i < |s.locks| && AgentOK(s.graph, s.agents[a.x], a.x)
    requires i !in StepMissed(s, a) && !(a.StoreClear? && s.agents[a.x].pc.i == i)
    requires || (Promises(s.agents[a.x], i) && (s.locks[i] == -1 || Covered(s, i)))
             || ((a.StoreMark? || a.StoreUnMark?) && s.agents[a.x].pc.i == i)
    ensures Promises(StepAgent(s, a), i)
  {
    hide Sum;
  }

  lemma StepPromised(s: State, a: Action)
    requires Shape(s) && Accounts(s) && RescueOK(s) && Promised(s) && MissedOK(s) && Proper(s, a) && Shape(Step(s, a))
    ensures Promised(Step(s, a))
  {
    var s' := Step(s, a);
    forall i | 0 <= i < |s'.locks| && i !in s'.missed && Marked(s', i)
      ensures exists x :: 0 <= x < |s'.agents| && Promises(s'.agents[x], i)
    {
      if a.StartFlush? {
        FreshUnmarked(s, i);
      } else {
        PromiseStep(s, a, i);
      }
    }
  }

  lemma FreshUnmarked(s: State, i: nat)
    requires Shape(s) && Enabled(s, StartFlush) && i < |s.graph.next|
    ensures var s' := Step(s, StartFlush); i < |s'.locks| && !Marked(s', i)
  {
    hide Sum;
    FreshAccount(s, i);
    assert Step(s, StartFlush).locks[i] == s.graph.total[i] + 1;
  }

  lemma PromiseStep(s: State, a: Action, i: nat)
    requires Shape(s) && Accounts(s) && RescueOK(s) && Promised(s) && MissedOK(s) && Proper(s, a) && !a.StartFlush?
    requires var s' := Step(s, a); i < |s'.locks| && i !in s'.missed && Marked(s', i)
    ensures var s' := Step(s, a); exists x :: 0 <= x < |s'.agents| && Promises(s'.agents[x], i)
  {
    hide Sum, StepAgent, StepLocks, StepAgents, StepPending, Accounts, RescueOK, WellFormed, Acyclic, StepMissed;
    LockCount(s, a);
    MarkedBefore(s, a, i);
    var x: nat;
    if Marked(s, i) && i !in s.missed {
      x :| 0 <= x < |s.agents| && Promises(s.agents[x], i);
      PromiseKept(s, a, i, x);
    } else if Marked(s, i) {
      FoundAgain(s, a, i);
      assert Promises(Step(s, a).agents[a.x], i);
    } else {
      LocalPromise(s, a, i);
      LocalFrame(s, a);
      assert Promises(Step(s, a).agents[a.x], i);
    }
  }

  /** A task is missed no longer because the resurrect() finds it. */
  lemma FoundAgain(s: State, a: Action, i: nat)
    requires Shape(s) && Proper(s, a) && !a.StartFlush? && i in s.missed && i !in StepMissed(s, a)
    ensures a.RescueLook? && a.x < |Step(s, a).agents| && Promises(Step(s, a).agents[a.x], i)
  {
    assert a.RescueLook?;
    assert AgentOK(s.graph, s.agents[a.x], a.x);
  }

  lemma PromiseKept(s: State, a: Action, i: nat, x: nat)
    requires Shape(s) && Accounts(s) && RescueOK(s) && Proper(s, a) && !a.StartFlush?
    requires i < |s.locks| && Marked(s, i) && i !in StepMissed(s, a) && !(a.StoreClear? && s.agents[a.x].pc.i == i)
    requires Hands(a) && s.agents[a.x].kind.Rescuer? ==> s.agents[a.x].pc.i != i
    requires x < |s.agents| && Promises(s.agents[x], i)
    ensures var s' := Step(s, a); exists y :: 0 <= y < |s'.agents| && Promises(s'.agents[y], i)
  {
    hide Accounts, RescueOK, Sum, WellFormed, Acyclic, StepPending, StepLocks, StepMissed, Races, Marked;
    var s' := Step(s, a);
    if a.StartRescue? {
      assert Promises(s'.agents[|s.agents|], i);
    } else if Hands(a) {
      TargetAsleep(s, a.x);
      HandOverPromise(s, a, i, x);
    } else if a.Suspend? || a.x != x {
      assert s'.agents[x] == s.agents[x];
    } else {
      LocalPromise(s, a, i);
      assert Promises(s'.agents[x], i);
    }
  }

  /** A rescuer that hands over a task before i still looks at i. */
  lemma HandOverPromise(s: State, a: Action, i: nat, x: nat)
    requires Enabled(s, a) && Hands(a) && x < |s.agents| && Promises(s.agents[x], i)
    requires s.agents[a.x].pc.i < |s.agents| && s.agents[s.agents[a.x].pc.i].pc.Asleep?
    requires s.agents[a.x].kind.Rescuer? ==> s.agents[a.x].pc.i != i
    ensures x < |StepAgents(s, a)| && Promises(StepAgents(s, a)[x], i)
  {
  }

  // ---- tasks missed by a resurrect()

  /** A marked task stays marked and asleep until a resurrect() hands it over. */
  lemma StaysMarked(s: State, a: Action, i: nat)
    requires Shape(s) && Accounts(s) && RescueOK(s) && Proper(s, a) && !a.StartFlush?
    requires i < |s.locks| && Marked(s, i) && s.agents[i].pc.Asleep?
    requires Hands(a) && s.agents[a.x].kind.Rescuer? ==> s.agents[a.x].pc.i != i
    ensures var s' := Step(s, a); i < |s'.locks| && i < |s'.agents| && Marked(s', i) && s'.agents[i].pc.Asleep?
  {
    LocksStay(s, a);
    hide StepAgents, StepAgent, StepLocks, StepMissed, StepPending, Sum, WellFormed, Acyclic, RescueOK, Races, Account;
    if Local(a) {
      assert Account(s, i);
      StaysMarkedLocal(s, a, i);
    } else if Hands(a) {
      OtherTarget(s, a, i);
    } else {
      SpawnSums(s, a, i);
    }
  }

  lemma SpawnSums(s: State, a: Action, i: nat)
    requires Enabled(s, a) && (a.Suspend? || a.StartRescue?) && i < |s.agents| && s.agents[i].pc.Asleep?
    ensures var after := StepAgents(s, a);
            && i < |after| && after[i].pc.Asleep?
            && Sum(TodoOf(i), after) == Sum(TodoOf(i), s.agents) && Sum(ClearOf(i), after) == Sum(ClearOf(i), s.agents)
  {
    hide Sum;
    if a.Suspend? {
      AppendSums(s.agents, Agent(Suspension(a.id), Reserved, []), i);
    } else {
      RescueSums(s, a, i);
    }
  }

  /** What is handed over is not marked, unless by the resurrect() that found it. */
  lemma OtherTarget(s: State, a: Action, i: nat)
    requires Shape(s) && Accounts(s) && RescueOK(s) && Proper(s, a) && Hands(a)
    requires i < |s.locks| && Marked(s, i) && s.agents[i].pc.Asleep?
    requires s.agents[a.x].kind.Rescuer? ==> s.agents[a.x].pc.i != i
    ensures var after := StepAgents(s, a);
            && i < |after| && after[i].pc.Asleep?
            && Sum(TodoOf(i), after) == Sum(TodoOf(i), s.agents) && Sum(ClearOf(i), after) == Sum(ClearOf(i), s.agents)
  {
    hide StepAgent, Sum, WellFormed, Acyclic, RescueOK;
    assert Account(s, i) && AgentOK(s.graph, s.agents[a.x], a.x);
    TargetAsleep(s, a.x);
    HandOverSums(s, a, i);
    SumAtLeast(EmitOf(i), s.agents, a.x);
  }

  lemma StaysMarkedLocal(s: State, a: Action, i: nat)
    requires Shape(s) && Proper(s, a) && Local(a) && i < |s.locks| && Account(s, i) && Marked(s, i) && s.agents[i].pc.Asleep?
    ensures var s' := Step(s, a); i < |s'.locks| && i < |s'.agents| && Marked(s', i) && s'.agents[i].pc.Asleep?
  {
    hide Step, StepAgent, StepLocks, Sum, TodoOf, EmitOf, ClearOf, WellFormed, Acyclic;
    assert AgentOK(s.graph, s.agents[a.x], a.x);
    LocalEffect(s, a, i);
    LocalFrame(s, a);
    UpdateSums(s.agents, a.x, StepAgent(s, a), i);
    SumAtLeast(TodoOf(i), s.agents, a.x);
    SumAtLeast(EmitOf(i), s.agents, a.x);
    SumAtLeast(ClearOf(i), s.agents, a.x);
    SleepsOn(s, a, i);
  }

  /** What a resurrect() passes over although it is marked is asleep. */
  lemma CoveredMarked(s: State, i: nat)
    requires Shape(s) && Accounts(s) && Covered(s, i)
    ensures Marked(s, i) && s.agents[i].pc.Asleep?
  {
    assert Account(s, i);
  }

  lemma StepMissedOK(s: State, a: Action)
    requires Shape(s) && Accounts(s) && RescueOK(s) && MissedOK(s) && Proper(s, a)
    ensures MissedOK(Step(s, a))
  {
    hide StepAgent, StepLocks, StepAgents, StepPending, Sum, Accounts, WellFormed, Acyclic, Marked;
    forall i | i in StepMissed(s, a)
      ensures var s' := Step(s, a); i < |s'.locks| && i < |s'.agents| && Marked(s', i) && s'.agents[i].pc.Asleep?
    {
      if i !in s.missed {
        CoveredMarked(s, i);
      }
      HandsElse(s, a, i);
      StaysMarked(s, a, i);
    }
  }

  /** No resurrect() is handing over what is missed. */
  lemma HandsElse(s: State, a: Action, i: nat)
    requires Shape(s) && RescueOK(s) && Proper(s, a) && i in StepMissed(s, a)
    ensures !a.StartFlush?
    ensures Hands(a) && s.agents[a.x].kind.Rescuer? ==> s.agents[a.x].pc.i != i
  {
    assert Hands(a) && s.agents[a.x].kind.Rescuer? ==> Redispatching(s.agents[a.x]);
  }

  // ---- routines run inline

  lemma LocalUnderWay(s: State, a: Action)
    requires Enabled(s, a) && Local(a) && !a.Throw? && UnderWay(s.agents[a.x].pc) && s.agents[a.x].kind.Task?
    requires AgentOK(s.graph, s.agents[a.x], a.x) && !s.graph.junction[s.agents[a.x].kind.id]
    ensures UnderWay(StepAgent(s, a).pc)
  {
  }

  /** A step keeps what is run inline under way. */
  lemma StepInlineOK(s: State, a: Action)
    requires Shape(s) && Accounts(s) && RescueOK(s) && InlineOK(s) && Proper(s, a) && Shape(Step(s, a))
    ensures InlineOK(Step(s, a))
  {
    var s' := Step(s, a);
    forall x | 0 <= x < |s'.agents| && s'.agents[x].pc.Inside?
      ensures var i := s'.agents[x].pc.i; UnderWay(s'.agents[i].pc) && !s'.graph.junction[i]
    {
      if !a.StartFlush? {
        InlineKept(s, a, x);
      }
    }
  }

  lemma InlineKept(s: State, a: Action, x: nat)
    requires Shape(s) && Accounts(s) && RescueOK(s) && InlineOK(s) && Proper(s, a) && Shape(Step(s, a)) && !a.StartFlush?
    requires x < |Step(s, a).agents| && Step(s, a).agents[x].pc.Inside?
    ensures var s' := Step(s, a); var i := s'.agents[x].pc.i; UnderWay(s'.agents[i].pc) && !s'.graph.junction[i]
  {
    hide Sum, Accounts, RescueOK, WellFormed, Acyclic, StepAgents, StepAgent, StepLocks, StepPending, StepMissed, Races;
    var i := Step(s, a).agents[x].pc.i;
    assert AgentOK(s.graph, Step(s, a).agents[x], x);
    if Hands(a) {
      TargetAsleep(s, a.x);
    }
    if a.HandInline? && a.x == x {
      RunsNow(s, a);
    } else {
      SameInside(s, a, x);
      assert s.agents[x].pc == Inside(i);
      assert a.Throw? && a.x == i ==> Inlined(s, i);
      StaysUnderWay(s, a, i);
    }
  }

  lemma RunsNow(s: State, a: Action)
    requires Enabled(s, a) && a.HandInline? && s.agents[a.x].pc.i < |s.agents| && s.agents[s.agents[a.x].pc.i].pc.Asleep?
    ensures var after := StepAgents(s, a);
            var i := s.agents[a.x].pc.i;
            && i < |after| == |s.agents| && after[i].pc.Running? && after[a.x].pc == Inside(i)
            && i < |s.graph.junction| && !s.graph.junction[i]
  {
  }

  /** A task under way stays so, unless its dispatch of another one throws. */
  lemma StaysUnderWay(s: State, a: Action, i: nat)
    requires Proper(s, a) && !a.StartFlush? && i < |s.agents| && UnderWay(s.agents[i].pc) && AgentOK(s.graph, s.agents[i], i)
    requires i < |s.graph.next| && i < |s.graph.junction| && !s.graph.junction[i]
    requires Hands(a) ==> s.agents[a.x].pc.i < |s.agents| && s.agents[s.agents[a.x].pc.i].pc.Asleep?
    requires a.Throw? ==> a.x != i
    ensures i < |StepAgents(s, a)| && UnderWay(StepAgents(s, a)[i].pc)
  {
    if Local(a) && a.x == i {
      LocalUnderWay(s, a);
    }
  }

  lemma SameInside(s: State, a: Action, x: nat)
    requires Enabled(s, a) && !a.StartFlush? && !a.ThrowLate? && !a.Propagate? && !(a.HandInline? && a.x == x)
    requires x < |Step(s, a).agents| && Step(s, a).agents[x].pc.Inside?
    ensures x < |s.agents| && s.agents[x].pc == Step(s, a).agents[x].pc
  {
  }

  lemma SpawnShape(s: State, a: Action)
    requires Shape(s) && Proper(s, a) && (a.Suspend? || a.StartRescue?)
    ensures Shape(Step(s, a))
  {
    hide StepPending, Sum;
    var s' := Step(s, a);
    forall y | 0 <= y < |s'.agents| ensures AgentOK(s'.graph, s'.agents[y], y) {
      if y < |s.agents| {
        assert AgentOK(s.graph, s.agents[y], y);
      }
    }
  }

  lemma FreshShape(s: State)
    requires Shape(s) && Enabled(s, StartFlush)
    ensures Shape(Step(s, StartFlush))
  {
    var s' := Step(s, StartFlush);
    forall y | 0 <= y < |s'.agents| ensures AgentOK(s'.graph, s'.agents[y], y) {
      assert |s'.agents| == |s.graph.next| + 1;
    }
  }

  lemma StepShape(s: State, a: Action)
    requires Shape(s) && Accounts(s) && RescueOK(s) && Proper(s, a)
    ensures Shape(Step(s, a))
  {
    hide StepAgent, StepLocks, Accounts, RescueOK, Sum, WellFormed, Acyclic, AgentOK;
    if a.StartFlush? {
      FreshShape(s);
    } else if Hands(a) {
      TargetAsleep(s, a.x);
      HandOverShape(s, a);
    } else if Local(a) {
      LocalShape(s, a);
      LocalFrame(s, a);
    } else {
      SpawnShape(s, a);
    }
  }

  lemma StepInv(s: State, s': State)
    requires Inv(s) && ProperNext(s, s')
    ensures Inv(s')
  {
    var a :| Proper(s, a) && s' == Step(s, a);
    StepShape(s, a);
    StepAccounts(s, a);
    StepRescueOK(s, a);
    StepSettled(s, a);
    StepInlineOK(s, a);
    StepPromised(s, a);
    StepMissedOK(s, a);
  }

  // ---- steps without a suspend() that meets a mark

  predicate Strict(s: State, a: Action) {
    Proper(s, a) && !OnMark(s, a)
  }

  /** No mark is covered by a suspension, and none was missed. */
  ghost predicate Unmissed(s: State) {
    s.missed == {} && forall i | 0 <= i < |s.locks| :: !Covered(s, i)
  }

  lemma Uncover(l: int, l': int, t: nat, t': nat, e: nat, e': nat, c: nat, c': nat,
                owed: nat, owed': nat, emits: nat, clears: nat, asleep: bool, d: nat)
    requires Balanced(l, owed, emits, clears, asleep, d) && Entry(l, l', t, t', e, e', c, c')
    requires t <= owed && e <= emits && c <= clears && owed' + t == owed + t'
    requires t' == t + 1 ==> l != -1
    requires l == 0 ==> owed == 0
    ensures l' == 0 ==> owed' == 0
  {
  }

  lemma OnlyHoldAdds(s: State, a: Action, i: nat)
    requires Strict(s, a) && Local(a) && i < |s.locks| && AgentOK(s.graph, s.agents[a.x], a.x)
    ensures TodoOf(i)(StepAgent(s, a)) == TodoOf(i)(s.agents[a.x]) + 1 ==> s.locks[i] != -1
  {
    hide Races, ThrowsInside;
    if !(a.Hold? && s.agents[a.x].kind.id == i) {
      OnlyHoldOwes(s, a, i);
    }
  }

  lemma LocalUncovered(s: State, a: Action, i: nat)
    requires Shape(s) && Strict(s, a) && Local(a) && i < |s.locks| && Account(s, i) && !Covered(s, i)
    ensures !Covered(Step(s, a), i)
  {
    hide Step, StepAgent, StepLocks, Sum, TodoOf, EmitOf, ClearOf, WellFormed, Acyclic;
    assert AgentOK(s.graph, s.agents[a.x], a.x);
    var g := s.agents[a.x];
    var g' := StepAgent(s, a);
    LocalEffect(s, a, i);
    LocalFrame(s, a);
    UpdateSums(s.agents, a.x, g', i);
    SumAtLeast(TodoOf(i), s.agents, a.x);
    SumAtLeast(EmitOf(i), s.agents, a.x);
    SumAtLeast(ClearOf(i), s.agents, a.x);
    OnlyHoldAdds(s, a, i);
    Uncover(s.locks[i], StepLocks(s, a)[i], TodoOf(i)(g), TodoOf(i)(g'), EmitOf(i)(g), EmitOf(i)(g'),
            ClearOf(i)(g), ClearOf(i)(g'), Sum(TodoOf(i), s.agents), Sum(TodoOf(i), s.agents[a.x := g']),
            Sum(EmitOf(i), s.agents), Sum(ClearOf(i), s.agents), s.agents[i].pc.Asleep?, s.dispatched[i]);
  }

  lemma StepUncovered(s: State, a: Action, i: nat)
    requires Shape(s) && Accounts(s) && RescueOK(s) && Strict(s, a) && !a.StartFlush? && i < |s.locks| && !Covered(s, i)
    ensures !Covered(Step(s, a), i)
  {
    LocksStay(s, a);
    hide StepAgent, StepLocks, StepMissed, Sum, WellFormed, Acyclic, RescueOK;
    assert Account(s, i);
    if Local(a) {
      LocalUncovered(s, a, i);
    } else if a.Suspend? {
      AppendSums(s.agents, Agent(Suspension(a.id), Reserved, []), i);
    } else if a.StartRescue? {
      RescueSums(s, a, i);
    } else {
      TargetAsleep(s, a.x);
      assert AgentOK(s.graph, s.agents[a.x], a.x);
      HandOverSums(s, a, i);
    }
  }

  lemma StepUnmissed(s: State, a: Action)
    requires Inv(s) && Unmissed(s) && Strict(s, a)
    ensures Unmissed(Step(s, a))
  {
    hide Sum, StepAgent, StepAgents, StepLocks, StepPending, Covered, Accounts, RescueOK, InlineOK, Promised, MissedOK,
         WellFormed, Acyclic, AgentOK;
    var s' := Step(s, a);
    forall i | 0 <= i < |s'.locks| ensures !Covered(s', i) {
      if a.StartFlush? {
        FreshUncovered(s, i);
      } else {
        LockCount(s, a);
        StepUncovered(s, a, i);
      }
    }
  }

  lemma FreshUncovered(s: State, i: nat)
    requires Enabled(s, StartFlush)
    ensures !Covered(Step(s, StartFlush), i)
  {
    hide Sum;
  }

  // ---------------------------------------------------------------- theorems over every run

  lemma RunInv(run: seq<State>, k: nat)
    requires Runs.IsRun(Init, ProperNext, run) && k < |run|
    ensures Inv(run[k])
  {
    forall s | Init(s) ensures Inv(s) { InitInv(s); }
    forall s, s' | Inv(s) && ProperNext(s, s') ensures Inv(s') { StepInv(s, s'); }
    Runs.Invariant(Init, ProperNext, Inv, run);
  }

  /** A task is handed over at most once per flush, and only after the callback of every predecessor has
      returned. */
  lemma OnceAndInOrder(run: seq<State>, k: nat, a: Action)
    requires Runs.IsRun(Init, ProperNext, run) && k < |run| && Enabled(run[k], a) && Hands(a)
    ensures var s := run[k];
            var i := s.agents[a.x].pc.i;
            && i < |s.graph.next| && i < |s.dispatched| && s.dispatched[i] == 0
            && forall m | 0 <= m < |s.graph.next| && i in s.graph.next[m] :: m < |s.agents| && !Early(s.agents[m].pc)
    ensures forall i | 0 <= i < |run[k].dispatched| :: run[k].dispatched[i] <= 1
  {
    RunInv(run, k);
    var s := run[k];
    TargetAsleep(s, a.x);
    var i := s.agents[a.x].pc.i;
    assert Account(s, i);
    forall m | 0 <= m < |s.graph.next| && i in s.graph.next[m] ensures !Early(s.agents[m].pc) {
      EarlyOwes(s, m, i);
      SumAtLeast(EmitOf(i), s.agents, a.x);
    }
    DispatchedOnce(s);
  }

  /** A task whose callback has not returned owes a decrement to each successor, so none is marked or dispatched. */
  lemma EarlyOwes(s: State, m: nat, i: nat)
    requires Inv(s) && m < |s.graph.next| && m < |s.agents| && i in s.graph.next[m]
    ensures Early(s.agents[m].pc) ==> Sum(TodoOf(i), s.agents) > 0
  {
    SumAtLeast(TodoOf(i), s.agents, m);
    assert AgentOK(s.graph, s.agents[m], m);
  }

  lemma DispatchedOnce(s: State)
    requires Inv(s)
    ensures forall i | 0 <= i < |s.dispatched| :: s.dispatched[i] <= 1
  {
    forall j | 0 <= j < |s.dispatched| ensures s.dispatched[j] <= 1 {
      assert Account(s, j);
    }
  }

  /** A task under suspension has not been dispatched. */
  lemma SuspensionHolds(run: seq<State>, k: nat, x: nat)
    requires Runs.IsRun(Init, ProperNext, run) && k < |run| && x < |run[k].agents|
    requires run[k].agents[x].kind.Suspension? && run[k].agents[x].pc.Held?
    ensures run[k].agents[x].kind.id < |run[k].dispatched| && run[k].dispatched[run[k].agents[x].kind.id] == 0
  {
    RunInv(run, k);
    var s := run[k];
    var i := s.agents[x].kind.id;
    assert AgentOK(s.graph, s.agents[x], x);
    assert Account(s, i);
    SumAtLeast(TodoOf(i), s.agents, x);
  }

  /** With pending_count at zero nobody is about to wake a task or to deal with a mark. */
  lemma Quiet(s: State, i: nat)
    requires Inv(s) && s.pending == 0 && i < |s.locks|
    ensures Sum(EmitOf(i), s.agents) == 0 && Sum(ClearOf(i), s.agents) == 0
    ensures forall m | 0 <= m < |s.agents| :: Unit(s.agents[m]) == 0 && !Promises(s.agents[m], i)
  {
    SumAllZero(Unit, s.agents);
    forall m | 0 <= m < |s.agents|
      ensures EmitOf(i)(s.agents[m]) == 0 && ClearOf(i)(s.agents[m]) == 0 && !Promises(s.agents[m], i)
    {
      assert AgentOK(s.graph, s.agents[m], m) && Unit(s.agents[m]) == 0;
    }
    SumZero(EmitOf(i), s.agents);
    SumZero(ClearOf(i), s.agents);
  }

  /** A task asleep then was missed by a resurrect(), or waits for another one asleep. */
  lemma WaitsFor(s: State, rank: seq<nat>, i: nat) returns (m: nat)
    requires Inv(s) && s.pending == 0 && Ranks(s.graph, rank) && i < |s.locks| && s.agents[i].pc.Asleep?
    ensures i !in s.missed ==> m < |s.locks| && s.agents[m].pc.Asleep? && i in s.graph.next[m] && rank[m] < rank[i]
  {
    Quiet(s, i);
    assert Account(s, i);
    m := 0;
    if i !in s.missed {
      m := SumWitness(TodoOf(i), s.agents);
      assert AgentOK(s.graph, s.agents[m], m) && i in s.agents[m].todo;
    }
  }

  lemma {:induction false} NotAsleep(s: State, rank: seq<nat>, i: nat)
    requires Inv(s) && s.pending == 0 && s.missed == {} && Ranks(s.graph, rank) && i < |s.locks|
    ensures !s.agents[i].pc.Asleep?
    decreases rank[i]
  {
    if s.agents[i].pc.Asleep? {
      var m := WaitsFor(s, rank, i);
      NotAsleep(s, rank, m);
    }
  }

  /** With pending_count at zero and nothing missed no task can be left asleep: it would wait for a task asleep. */
  lemma NoneAsleep(s: State, rank: seq<nat>, i: nat)
    requires Inv(s) && s.pending == 0 && s.missed == {} && Ranks(s.graph, rank) && i < |s.locks|
    ensures s.agents[i].pc.Done? && s.locks[i] == 0 && s.dispatched[i] == 1
  {
    NotAsleep(s, rank, i);
    Quiet(s, i);
    assert Account(s, i) && AgentOK(s.graph, s.agents[i], i);
    NothingOwed(s, rank, i);
  }

  /** All tasks being done, no decrement is owed. */
  lemma NothingOwed(s: State, rank: seq<nat>, i: nat)
    requires Inv(s) && s.pending == 0 && s.missed == {} && Ranks(s.graph, rank) && i < |s.locks|
    ensures Sum(TodoOf(i), s.agents) == 0
  {
    SumAllZero(Unit, s.agents);
    forall m | 0 <= m < |s.agents| ensures TodoOf(i)(s.agents[m]) == 0 {
      assert AgentOK(s.graph, s.agents[m], m) && Unit(s.agents[m]) == 0;
      if m < |s.locks| {
        NotAsleep(s, rank, m);
      }
    }
    SumZero(TodoOf(i), s.agents);
  }

  /** Every task has been dispatched exactly once and has finished, and its lock count is back at 0. */
  ghost predicate AllDone(s: State) {
    forall i | 0 <= i < |s.locks| :: i < |s.agents| && i < |s.dispatched| &&
      s.agents[i].pc.Done? && s.locks[i] == 0 && s.dispatched[i] == 1
  }

  /** The task waits for one that was missed, or is one. */
  ghost predicate Behind(s: State, i: nat)
    requires i < |s.agents|
  {
    s.agents[i].pc.Asleep? && (i in s.missed || exists m | 0 <= m < |s.graph.next| && m < |s.agents| ::
      i in s.graph.next[m] && s.agents[m].pc.Asleep?)
  }

  /** When the callback of a flush has fired, every task was dispatched exactly once and has finished, with
      every lock back at zero, if and only if no marked task was passed over by a resurrect() while a suspension
      covered the mark, and found by none since. What has not run is such a task, or waits for another that has
      not run. No suspension is open, and nothing can happen but another flush: the callback fires once. */
  lemma CompletionMeansDone(run: seq<State>, k: nat)
    requires Runs.IsRun(Init, ProperNext, run) && k < |run| && run[k].fired
    ensures var s := run[k];
            && (AllDone(s) <==> s.missed == {})
            && (forall i | 0 <= i < |s.locks| :: i < |s.agents| && (s.agents[i].pc.Done? || Behind(s, i)))
            && (forall x | |s.locks| <= x < |s.agents| :: s.agents[x].pc.Done?)
            && (forall a | Enabled(s, a) :: a.StartFlush?)
  {
    hide Enabled;
    RunInv(run, k);
    var s := run[k];
    SumAllZero(Unit, s.agents);
    var rank :| Ranks(s.graph, rank);
    if s.missed == {} {
      forall i | 0 <= i < |s.locks| ensures s.agents[i].pc.Done? && s.locks[i] == 0 && s.dispatched[i] == 1 {
        NoneAsleep(s, rank, i);
      }
    } else {
      var i :| i in s.missed;
      assert s.agents[i].pc.Asleep?;
    }
    forall x | 0 <= x < |s.agents| ensures s.agents[x].pc.Done? || (x < |s.locks| && s.agents[x].pc.Asleep?) {
      assert AgentOK(s.graph, s.agents[x], x) && Unit(s.agents[x]) == 0;
    }
    forall i | 0 <= i < |s.locks| && s.agents[i].pc.Asleep? ensures Behind(s, i) {
      var m := WaitsFor(s, rank, i);
    }
    OnlyFlush(s);
  }

  lemma OnlyFlush(s: State)
    requires s.pending == 0 && forall x | 0 <= x < |s.agents| :: s.agents[x].pc.Done? || s.agents[x].pc.Asleep?
    ensures forall a | Enabled(s, a) :: a.StartFlush?
  {
  }

  /** Nothing is running: no flush, suspension, exception or resurrect() is open. */
  ghost predicate Rest(s: State) {
    |s.agents| > 0 && forall x | 0 <= x < |s.agents| :: s.agents[x].pc.Asleep? || s.agents[x].pc.Done? || s.agents[x].pc.Stuck?
  }

  predicate NoJunction(g: Graph) {
    forall i | 0 <= i < |g.junction| :: !g.junction[i]
  }

  /** A flush that has come to rest with no task missed has fired its callback exactly when the graph holds
      no empty junction routine: such a routine never calls complete(). */
  lemma CompletesIffNoJunction(run: seq<State>, k: nat)
    requires Runs.IsRun(Init, ProperNext, run) && k < |run| && Rest(run[k])
    ensures run[k].missed == {} ==> (run[k].fired <==> NoJunction(run[k].graph))
    ensures NoJunction(run[k].graph) ==> run[k].fired
  {
    RunInv(run, k);
    var s := run[k];
    if s.fired {
      CompletionMeansDone(run, k);
      if s.missed == {} {
        forall i | 0 <= i < |s.graph.junction| ensures !s.graph.junction[i] {
          assert AgentOK(s.graph, s.agents[i], i);
        }
      }
    } else if NoJunction(s.graph) {
      forall x | 0 <= x < |s.agents| ensures Unit(s.agents[x]) == 0 {
        assert AgentOK(s.graph, s.agents[x], x);
      }
      SumZero(Unit, s.agents);
    }
  }

  // ---- every flush winds down

  function Left(n: nat, i: nat): nat {
    if i < n then 10 * (n - i) else 0
  }

  /** A bound on the atomic operations an agent still has before it. */
  function WorkLeft(g: Agent, n: nat): nat {
    if g.kind.Rescuer? then
      match g.pc
      case Look(i) => Left(n, i) + 9
      case Add(i) => Left(n, i) + 8
      case Hand(i) => Left(n, i) + 7
      case Inside(i) => Left(n, i) + 6
      case Clear(i) => Left(n, i) + 5
      case Undo(i) => Left(n, i) + 4
      case Thrown => 1
      case _ => 0
    else
      10 * |g.todo| + match g.pc
                      case Reserved => 20
                      case Asleep => 10
                      case Queued => 9
                      case Held => 8
                      case Running => 8
                      case Add(_) => 7
                      case Hand(_) => 6
                      case Inside(_) => 5
                      case Loop => 4
                      case Undo(_) => 4
                      case Mark(_) => 3
                      case UnMark(_) => 3
                      case UnLoop => 2
                      case Thrown => 1
                      case _ => 0
  }

  function Work(n: nat): Agent -> nat {
    (g: Agent) => WorkLeft(g, n)
  }

  /** The calls of the user that add work. */
  predicate AddsWork(a: Action) {
    a.StartFlush? || a.Suspend? || a.StartRescue?
  }

  lemma AgentWinds(s: State, a: Action)
    requires Proper(s, a) && !AddsWork(a) && AgentOK(s.graph, s.agents[a.x], a.x) && |s.locks| == |s.graph.next|
    ensures WorkLeft(StepAgent(s, a), |s.locks|) < WorkLeft(s.agents[a.x], |s.locks|)
  {
  }

  /** Every other action strictly lowers the work left, so no flush runs forever. */
  lemma WindsDown(s: State, a: Action)
    requires Inv(s) && Proper(s, a) && !AddsWork(a)
    ensures Sum(Work(|s.locks|), Step(s, a).agents) < Sum(Work(|s.locks|), s.agents)
  {
    hide StepAgent, StepLocks, StepMissed, Sum, Accounts, RescueOK, InlineOK, Promised, MissedOK, WellFormed, Acyclic;
    var w := Work(|s.locks|);
    var g' := StepAgent(s, a);
    assert AgentOK(s.graph, s.agents[a.x], a.x);
    AgentWinds(s, a);
    SumUpdate(w, s.agents, a.x, g');
    if Hands(a) {
      TargetAsleep(s, a.x);
      var moved := s.agents[a.x := g'];
      var i := s.agents[a.x].pc.i;
      SumUpdate(w, moved, i, moved[i].(pc := Given(a)));
    }
  }

  /** The user keeps the rule of suspend(): the target has not started, and is not just being resurrected. */
  ghost predicate SuspendsEarly(s: State) {
    forall x | 0 <= x < |s.agents| && s.agents[x].kind.Suspension? && s.agents[x].pc.Reserved? :: Proper(s, Hold(x))
  }

  /** Steps that go on with what is under way: no flush, no further suspend(), no exception, and one
      resurrect() at a time. */
  predicate Onward(s: State, a: Action) {
    Enabled(s, a) && !a.StartFlush? && !a.Suspend? && !a.Throw? && !a.ThrowLate? && !a.Propagate? && !Overlaps(s, a)
  }

  /** Not at rest. */
  predicate Busy(g: Agent) {
    !g.pc.Asleep? && !g.pc.Done? && !g.pc.Stuck?
  }

  /** Until a flush has come to rest somebody can move: it cannot hang. */
  lemma NeverHangs(s: State) returns (a: Action)
    requires Inv(s) && |s.agents| > 0 && !Rest(s) && SuspendsEarly(s)
    ensures Proper(s, a) && Onward(s, a)
  {
    hide Accounts, RescueOK, Settled, Promised, MissedOK, Sum, Proper, Enabled, SuspendsEarly;
    var x :| 0 <= x < |s.agents| && Busy(s.agents[x]);
    if s.agents[x].pc.Thrown? && Rescuing(s) {
      x :| 0 <= x < |s.agents| && s.agents[x].kind.Rescuer? && !s.agents[x].pc.Done? && !s.agents[x].pc.Thrown?;
    }
    var rank :| Ranks(s.graph, rank);
    x := Innermost(s, rank, x);
    a := MovesOn(s, x);
    OnwardProper(s, a);
  }

  lemma OnwardProper(s: State, a: Action)
    requires Onward(s, a) && SuspendsEarly(s)
    ensures Proper(s, a)
  {
    if a.Hold? {
      assert Proper(s, Hold(a.x));
    }
  }

  function Top(rank: seq<nat>): (m: nat)
    ensures forall i | 0 <= i < |rank| :: rank[i] <= m
  {
    if rank == [] then 0 else var m := Top(rank[1..]); if rank[0] > m then rank[0] else m
  }

  /** Who is inside a routine that runs inline waits for the one that is inside none. */
  lemma {:induction false} Innermost(s: State, rank: seq<nat>, x: nat) returns (y: nat)
    requires Shape(s) && InlineOK(s) && Ranks(s.graph, rank) && x < |s.agents| && Busy(s.agents[x])
    requires s.agents[x].pc.Thrown? ==> !Rescuing(s)
    ensures y < |s.agents| && Busy(s.agents[y]) && (s.agents[y].pc.Thrown? ==> !Rescuing(s))
    ensures s.agents[y].pc.Inside? ==> AtPc(s, s.agents[y].pc.i, Done)
    decreases if x < |rank| then Top(rank) - rank[x] else Top(rank) + 1
  {
    assert AgentOK(s.graph, s.agents[x], x);
    y := x;
    if s.agents[x].pc.Inside? {
      var i := s.agents[x].pc.i;
      assert UnderWay(s.agents[i].pc);
      if !s.agents[i].pc.Done? {
        y := Innermost(s, rank, i);
      }
    }
  }

  /** What an agent that is not at rest can do. */
  lemma Moves(s: State, x: nat) returns (a: Action)
    requires x < |s.agents| && Busy(s.agents[x]) && AgentOK(s.graph, s.agents[x], x) && |s.locks| == |s.graph.next|
    requires s.agents[x].pc.Thrown? ==> Enabled(s, StartRescue(x)) && !Rescuing(s)
    requires s.agents[x].pc.Inside? ==> Enabled(s, InlineReturn(x))
    requires s.agents[x].pc.Reserved? ==> Enabled(s, Hold(x))
    ensures Onward(s, a)
  {
    hide Inlined, Rescuing;
    var todo := s.agents[x].todo != [];
    match s.agents[x].pc
    case Queued => a := Run(x);
    case Running => a := Return(x);
    case Loop => a := if todo then Decrement(x) else Finalize(x);
    case Add(_) => a := AddPending(x);
    case Hand(_) => a := HandOver(x);
    case Inside(_) => a := InlineReturn(x);
    case Undo(_) => a := UndoPending(x);
    case Mark(_) => a := StoreMark(x);
    case UnLoop => a := if todo then UnDecrement(x) else LeaveThrown(x);
    case UnMark(_) => a := StoreUnMark(x);
    case Thrown => a := StartRescue(x);
    case Reserved => a := Hold(x);
    case Held => a := Resume(x);
    case Look(i) => a := if i < |s.locks| then RescueLook(x) else Finalize(x);
    case Clear(_) => a := StoreClear(x);
  }

  lemma MovesOn(s: State, x: nat) returns (a: Action)
    requires Shape(s) && InlineOK(s) && SuspendsEarly(s) && x < |s.agents| && Busy(s.agents[x])
    requires s.agents[x].pc.Thrown? ==> !Rescuing(s)
    requires s.agents[x].pc.Inside? ==> AtPc(s, s.agents[x].pc.i, Done)
    ensures Onward(s, a)
  {
    hide Sum, WellFormed, Acyclic, Rescuing, Inlined;
    assert AgentOK(s.graph, s.agents[x], x);
    if s.agents[x].pc.Thrown? {
      ThrownOutside(s, x);
    } else if s.agents[x].pc.Reserved? {
      assert Proper(s, Hold(x));
    }
    a := Moves(s, x);
  }

  /** An exception has left every dispatch() before it can be answered. */
  lemma ThrownOutside(s: State, x: nat)
    requires Shape(s) && InlineOK(s) && x < |s.agents| && s.agents[x].pc.Thrown?
    ensures !Inlined(s, x)
  {
  }
}
