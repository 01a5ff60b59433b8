/** What goes wrong in the task graph around exceptions and suspensions, and that nothing else does: a
    mark covered by a suspension, a suspension that meets a resurrect(), an exception that leaves
    dispatch() after the task was handed over, and two resurrect() calls at once. */
module DagFaults {
  import opened Counting
  import opened Dag
  import Runs

  /** The faults that steps may commit. */
  datatype Faults = Faults(covers: bool, races: bool, inside: bool, late: bool, overlaps: bool)

  predicate Allowed(f: Faults, s: State, a: Action) {
    && (OnMark(s, a) ==> if Races(s, a) then f.races else f.covers)
    && (ThrowsInside(s, a) ==> f.inside)
    && (a.ThrowLate? ==> f.late)
    && (Overlaps(s, a) ==> f.overlaps)
  }

  ghost function NextIf(f: Faults): (State, State) -> bool {
    (s: State, t: State) => exists a :: Enabled(s, a) && Allowed(f, s, a) && t == Step(s, a)
  }

  /** What the dispatcher promises: no task is handed over twice, none while it is suspended, and the callback
      fires only after all tasks have finished. */
  ghost predicate Sound(s: State) {
    && (forall i | 0 <= i < |s.dispatched| :: s.dispatched[i] <= 1)
    && (forall x | 0 <= x < |s.agents| && s.agents[x].kind.Suspension? && s.agents[x].pc.Held? ::
          s.agents[x].kind.id < |s.dispatched| && s.dispatched[s.agents[x].kind.id] == 0)
    && (s.fired ==> AllDone(s))
  }

  ghost predicate Reached(f: Faults, s: State) {
    Runs.Leads(NextIf(f), Before(s.graph), s)
  }

  lemma Walk(f: Faults, s: State, a: Action, t: State)
    requires Reached(f, s) && Enabled(s, a) && Allowed(f, s, a) && t.locks == StepLocks(s, a) && t.agents == StepAgents(s, a)
    requires t.dispatched == Step(s, a).dispatched && t.missed == StepMissed(s, a)
    requires t == Step(s, a).(locks := t.locks, agents := t.agents, dispatched := t.dispatched, missed := t.missed)
    ensures Reached(f, t)
  {
    Runs.Extend(NextIf(f), Before(s.graph), s, t);
  }

  /** The step of one agent alone, neither a fault nor an end. */
  lemma Goes(f: Faults, s: State, a: Action, t: State)
    requires Reached(f, s) && Enabled(s, a) && Local(a) && !a.Hold? && !a.Throw? && !a.RescueLook? && StepPending(s, a) > 0
    requires t == s.(pending := StepPending(s, a), locks := t.locks, agents := t.agents)
    requires t.locks == StepLocks(s, a) && t.agents == s.agents[a.x := StepAgent(s, a)]
    ensures Reached(f, t)
  {
    Walk(f, s, a, t);
  }

  /** A resurrect() looks at a task to which nothing is owed. */
  lemma LooksAt(f: Faults, s: State, x: nat, t: State)
    requires Reached(f, s) && Enabled(s, RescueLook(x))
    requires forall y | 0 <= y < |s.agents| :: s.agents[x].pc.i !in s.agents[y].todo
    requires t == s.(agents := t.agents) && t.agents == s.agents[x := StepAgent(s, RescueLook(x))]
    requires s.missed == {}
    ensures Reached(f, t)
  {
    SumZero(TodoOf(s.agents[x].pc.i), s.agents);
    Walk(f, s, RescueLook(x), t);
  }

  /** resurrect() is called. */
  lemma Calls(f: Faults, s: State, x: nat, t: State)
    requires Reached(f, s) && AtPc(s, x, Thrown)
    requires forall y | 0 <= y < |s.agents| :: !s.agents[y].kind.Rescuer? && !s.agents[y].pc.Inside?
    requires t == s.(agents := s.agents[x := s.agents[x].(pc := Done)] + [Agent(Rescuer, Look(0), [])])
    ensures Reached(f, t)
  {
    Walk(f, s, StartRescue(x), t);
  }

  /** The dispatch of task i by task x throws before the hand-over, and i is marked. */
  lemma Fails(f: Faults, s: State, x: nat, i: Id, t: State)
    requires Reached(f, s) && AtPc(s, x, Hand(i)) && s.agents[x].kind.Task? && s.agents[x].todo == []
    requires i < |s.locks| && s.pending > 1 && forall y | 0 <= y < |s.agents| :: !s.agents[y].pc.Inside?
    requires t == s.(pending := s.pending - 1, locks := t.locks, agents := t.agents)
    requires t.locks == s.locks[i := -1] && t.agents == s.agents[x := s.agents[x].(pc := Thrown)]
    ensures Reached(f, t)
  {
    var s1 := s.(agents := s.agents[x := s.agents[x].(pc := Undo(i))]);
    Walk(f, s, Throw(x), s1);
    var s2 := s1.(pending := s.pending - 1, agents := s.agents[x := s.agents[x].(pc := Mark(i))]);
    Goes(f, s1, UndoPending(x), s2);
    var s3 := s2.(locks := t.locks, agents := s.agents[x := s.agents[x].(pc := UnLoop)]);
    Goes(f, s2, StoreMark(x), s3);
    Goes(f, s3, LeaveThrown(x), t);
  }

  function Flush(pc: Pc, todo: seq<Id>): Agent {
    Agent(Flusher, pc, todo)
  }

  function Ended(): seq<Agent> {
    [Flush(Done, [])]
  }

  // ---------------------------------------------------------------- a task and its successor

  /** Task 0 before task 1. */
  function Pair(): Graph {
    Graph([[1], []], [0, 1], [false, false])
  }

  /** A state of a flush of the two tasks, task 1 asleep; the flusher is the first of the others. */
  function Flushing(locks: seq<int>, pending: int, dispatched: nat, pc: Pc, todo: seq<Id>, others: seq<Agent>): State {
    State(Pair(), locks, pending, [Agent(Task(0), pc, todo), Agent(Task(1), Asleep, [])] + others, false, [dispatched, 0], {})
  }

  lemma Started(f: Faults)
    ensures Reached(f, Flushing([1, 2], 1, 0, Asleep, [1], [Flush(Loop, [0, 1])]))
  {
    Runs.Stay(NextIf(f), Before(Pair()));
    assert Iota(2) == [0, 1];
    Walk(f, Before(Pair()), StartFlush, Flushing([1, 2], 1, 0, Asleep, [1], [Flush(Loop, [0, 1])]));
  }

  /** The flush hands over task 0. */
  lemma FirstHandedOver(f: Faults)
    ensures Reached(f, Flushing([0, 2], 2, 1, Queued, [1], [Flush(Loop, [1])]))
  {
    Started(f);
    var s1 := Flushing([0, 2], 1, 0, Asleep, [1], [Flush(Add(0), [1])]);
    Goes(f, Flushing([1, 2], 1, 0, Asleep, [1], [Flush(Loop, [0, 1])]), Decrement(2), s1);
    var s2 := Flushing([0, 2], 2, 0, Asleep, [1], [Flush(Hand(0), [1])]);
    Goes(f, s1, AddPending(2), s2);
    Walk(f, s2, HandOver(2), Flushing([0, 2], 2, 1, Queued, [1], [Flush(Loop, [1])]));
  }

  /** The flush ends; task 1 waits for task 0. */
  lemma FlushEnds(f: Faults)
    ensures Reached(f, Flushing([0, 1], 1, 1, Queued, [1], Ended()))
  {
    FirstHandedOver(f);
    var s3 := Flushing([0, 2], 2, 1, Queued, [1], [Flush(Loop, [1])]);
    assert [1][1..] == [];
    var s4 := Flushing([0, 1], 2, 1, Queued, [1], [Flush(Loop, [])]);
    Goes(f, s3, Decrement(2), s4);
    Goes(f, s4, Finalize(2), Flushing([0, 1], 1, 1, Queued, [1], Ended()));
  }

  /** Task 0 has run. */
  lemma FirstRuns(f: Faults)
    ensures Reached(f, Flushing([0, 1], 1, 1, Loop, [1], Ended()))
  {
    FlushEnds(f);
    var others := Ended();
    Goes(f, Flushing([0, 1], 1, 1, Queued, [1], others), Run(0), Flushing([0, 1], 1, 1, Running, [1], others));
    Goes(f, Flushing([0, 1], 1, 1, Running, [1], others), Return(0), Flushing([0, 1], 1, 1, Loop, [1], others));
  }

  /** It is about to hand over task 1. */
  lemma FirstDispatches(f: Faults)
    ensures Reached(f, Flushing([0, 0], 2, 1, Hand(1), [], Ended()))
  {
    FirstRuns(f);
    var others := Ended();
    assert [1][1..] == [];
    Goes(f, Flushing([0, 1], 1, 1, Loop, [1], others), Decrement(0), Flushing([0, 0], 1, 1, Add(1), [], others));
    Goes(f, Flushing([0, 0], 1, 1, Add(1), [], others), AddPending(0), Flushing([0, 0], 2, 1, Hand(1), [], others));
  }

  /** The dispatch throws, as it may, and task 1 is marked. */
  lemma DispatchThrows(f: Faults)
    ensures Reached(f, Flushing([0, -1], 1, 1, Thrown, [], Ended()))
  {
    FirstDispatches(f);
    var others := Ended();
    Fails(f, Flushing([0, 0], 2, 1, Hand(1), [], others), 0, 1, Flushing([0, -1], 1, 1, Thrown, [], others));
  }

  // ---------------------------------------------------------------- a suspension covers the mark

  /** The other agents once task 1 is suspended and the one resurrect() is under way. */
  function Helpers(pc: Pc, todo: seq<Id>, rescue: Pc): seq<Agent> {
    [Flush(Done, []), Agent(Suspension(1), pc, todo), Agent(Rescuer, rescue, [])]
  }

  /** Task 1 is suspended although it is marked. */
  lemma MarkSuspended(f: Faults)
    requires f.covers
    ensures Reached(f, Flushing([0, 0], 2, 1, Thrown, [], Ended() + [Agent(Suspension(1), Held, [1])]))
  {
    DispatchThrows(f);
    var s := Flushing([0, -1], 2, 1, Thrown, [], Ended() + [Agent(Suspension(1), Reserved, [])]);
    Walk(f, Flushing([0, -1], 1, 1, Thrown, [], Ended()), Suspend(1), s);
    Unraced(s);
    Walk(f, s, Hold(3), Flushing([0, 0], 2, 1, Thrown, [], Ended() + [Agent(Suspension(1), Held, [1])]));
  }

  lemma Unraced(s: State)
    requires forall y | 0 <= y < |s.agents| :: !s.agents[y].kind.Rescuer?
    ensures forall a :: !Races(s, a)
  {
  }

  /** resurrect() looks at task 0. */
  lemma MarkCovered(f: Faults)
    requires f.covers
    ensures Reached(f, Flushing([0, 0], 2, 1, Done, [], Helpers(Held, [1], Look(1))))
  {
    MarkSuspended(f);
    var others := Ended() + [Agent(Suspension(1), Held, [1])];
    Rescued(f, [0, 0], 2, others);
    assert others + [Agent(Rescuer, Look(0), [])] == Helpers(Held, [1], Look(0));
    var s := Flushing([0, 0], 2, 1, Done, [], Helpers(Held, [1], Look(0)));
    LooksAt(f, s, 4, Flushing([0, 0], 2, 1, Done, [], Helpers(Held, [1], Look(1))));
  }

  lemma Rescued(f: Faults, locks: seq<int>, pending: int, others: seq<Agent>)
    requires Reached(f, Flushing(locks, pending, 1, Thrown, [], others))
    requires forall y | 0 <= y < |others| :: !others[y].kind.Rescuer? && !others[y].pc.Inside?
    ensures Reached(f, Flushing(locks, pending, 1, Done, [], others + [Agent(Rescuer, Look(0), [])]))
  {
    var s := Flushing(locks, pending, 1, Thrown, [], others);
    var t := Flushing(locks, pending, 1, Done, [], others + [Agent(Rescuer, Look(0), [])]);
    assert t.agents == s.agents[0 := s.agents[0].(pc := Done)] + [Agent(Rescuer, Look(0), [])];
    Calls(f, s, 0, t);
  }

  /** A resurrect() looks at a marked task while a suspension is in force. */
  lemma Passes(f: Faults, s: State, x: nat, t: State)
    requires Reached(f, s) && Enabled(s, RescueLook(x))
    requires s.locks[s.agents[x].pc.i] == 0 && exists y :: 0 <= y < |s.agents| && s.agents[y].todo == [s.agents[x].pc.i]
    requires t == s.(agents := t.agents, missed := s.missed + {s.agents[x].pc.i})
    requires t.agents == s.agents[x := StepAgent(s, RescueLook(x))]
    ensures Reached(f, t)
  {
    var y :| 0 <= y < |s.agents| && s.agents[y].todo == [s.agents[x].pc.i];
    SumAtLeast(TodoOf(s.agents[x].pc.i), s.agents, y);
    Walk(f, s, RescueLook(x), t);
  }

  /** It passes over the suspended task 1. */
  lemma PassedOver(f: Faults)
    requires f.covers
    ensures Reached(f, Flushing([0, 0], 1, 1, Done, [], Helpers(Held, [1], Done)).(missed := {1}))
  {
    MarkCovered(f);
    var s1 := Flushing([0, 0], 2, 1, Done, [], Helpers(Held, [1], Look(1)));
    var s2 := Flushing([0, 0], 2, 1, Done, [], Helpers(Held, [1], Look(2))).(missed := {1});
    assert s1.agents[3].todo == [1];
    Passes(f, s1, 4, s2);
    Goes(f, s2, Finalize(4), Flushing([0, 0], 1, 1, Done, [], Helpers(Held, [1], Done)).(missed := {1}));
  }

  /** resume() puts the mark back, and the callback fires although task 1 has never run. */
  lemma FiresEarly(f: Faults) returns (s: State)
    requires f.covers
    ensures Reached(f, s) && s.graph == Pair() && s.fired && |s.locks| == |s.agents| - 3 == 2
    ensures s.agents[1].pc.Asleep? && s.missed == {1}
  {
    PassedOver(f);
    var s0 := Flushing([0, 0], 1, 1, Done, [], Helpers(Held, [1], Done)).(missed := {1});
    var s1 := Flushing([0, 0], 1, 1, Done, [], Helpers(Loop, [1], Done)).(missed := {1});
    Goes(f, s0, Resume(3), s1);
    assert [1][1..] == [];
    var s2 := Flushing([0, -1], 1, 1, Done, [], Helpers(Loop, [], Done)).(missed := {1});
    Goes(f, s1, Decrement(3), s2);
    s := Flushing([0, -1], 0, 1, Done, [], Helpers(Done, [], Done)).(fired := true, missed := {1});
    Walk(f, s2, Finalize(3), s);
  }

  // ---------------------------------------------------------------- a suspension meets resurrect()

  /** resurrect() is about to hand over task 1 again. */
  lemma Resurrecting(f: Faults)
    ensures Reached(f, Flushing([0, -1], 2, 1, Done, [], Ended() + [Agent(Rescuer, Hand(1), [])]))
  {
    DispatchThrows(f);
    Rescued(f, [0, -1], 1, Ended());
    var s0 := Flushing([0, -1], 1, 1, Done, [], Ended() + [Agent(Rescuer, Look(0), [])]);
    var s1 := Flushing([0, -1], 1, 1, Done, [], Ended() + [Agent(Rescuer, Look(1), [])]);
    LooksAt(f, s0, 3, s1);
    var s2 := Flushing([0, -1], 1, 1, Done, [], Ended() + [Agent(Rescuer, Add(1), [])]);
    LooksAt(f, s1, 3, s2);
    Goes(f, s2, AddPending(3), Flushing([0, -1], 2, 1, Done, [], Ended() + [Agent(Rescuer, Hand(1), [])]));
  }

  function Meeting(rescue: Pc, pc: Pc, todo: seq<Id>): seq<Agent> {
    [Flush(Done, []), Agent(Rescuer, rescue, []), Agent(Suspension(1), pc, todo)]
  }

  lemma Enters(f: Faults)
    ensures Reached(f, Flushing([0, -1], 3, 1, Done, [], Meeting(Hand(1), Reserved, [])))
  {
    Resurrecting(f);
    var s := Flushing([0, -1], 2, 1, Done, [], Ended() + [Agent(Rescuer, Hand(1), [])]);
    Walk(f, s, Suspend(1), Flushing([0, -1], 3, 1, Done, [], Meeting(Hand(1), Reserved, [])));
  }

  /** Task 1 is suspended in between. */
  lemma Meets(f: Faults)
    requires f.races
    ensures Reached(f, Flushing([0, 0], 3, 1, Done, [], Meeting(Hand(1), Held, [1])))
  {
    Enters(f);
    var s := Flushing([0, -1], 3, 1, Done, [], Meeting(Hand(1), Reserved, []));
    assert Revives(s.agents[3], 1) && Races(s, Hold(4)) && Allowed(f, s, Hold(4));
    Walk(f, s, Hold(4), Flushing([0, 0], 3, 1, Done, [], Meeting(Hand(1), Held, [1])));
  }

  /** It is handed over nevertheless. */
  lemma StartsSuspended(f: Faults) returns (s: State)
    requires f.races
    ensures Reached(f, s) && s.graph == Pair() && s.dispatched == [1, 1] && |s.agents| == 5
    ensures s.agents[4] == Agent(Suspension(1), Held, [1])
  {
    Meets(f);
    var s2 := Flushing([0, 0], 3, 1, Done, [], Meeting(Hand(1), Held, [1]));
    s := s2.(agents := [Agent(Task(0), Done, []), Agent(Task(1), Queued, []), Flush(Done, []),
                        Agent(Rescuer, Clear(1), []), Agent(Suspension(1), Held, [1])], dispatched := [1, 1]);
    Walk(f, s2, HandOver(3), s);
  }

  // ---------------------------------------------------------------- dispatch() throws after the routine was stored

  /** A state of a flush of the two tasks, task 1 queued although its dispatch has thrown. */
  function Stored(lock: int, pending: int, pc: Pc, others: seq<Agent>): State {
    var tasks := [Agent(Task(0), pc, []), Agent(Task(1), Queued, [])];
    State(Pair(), [0, lock], pending, tasks + Ended() + others, false, [1, 1], {})
  }

  lemma ThrowsLate(f: Faults)
    requires f.late
    ensures Reached(f, Stored(-1, 1, Thrown, []))
  {
    FirstDispatches(f);
    Walk(f, Flushing([0, 0], 2, 1, Hand(1), [], Ended()), ThrowLate(0), Stored(0, 2, Undo(1), []));
    Goes(f, Stored(0, 2, Undo(1), []), UndoPending(0), Stored(0, 1, Mark(1), []));
    Goes(f, Stored(0, 1, Mark(1), []), StoreMark(0), Stored(-1, 1, UnLoop, []));
    Goes(f, Stored(-1, 1, UnLoop, []), LeaveThrown(0), Stored(-1, 1, Thrown, []));
  }

  lemma StoredRescued(f: Faults)
    requires f.late
    ensures Reached(f, Stored(-1, 1, Done, [Agent(Rescuer, Look(1), [])]))
  {
    ThrowsLate(f);
    Calls(f, Stored(-1, 1, Thrown, []), 0, Stored(-1, 1, Done, [Agent(Rescuer, Look(0), [])]));
    LooksAt(f, Stored(-1, 1, Done, [Agent(Rescuer, Look(0), [])]), 3, Stored(-1, 1, Done, [Agent(Rescuer, Look(1), [])]));
  }

  /** resurrect() queues the queued task 1 again. */
  lemma QueuedTwice(f: Faults) returns (s: State)
    requires f.late
    ensures Reached(f, s) && s.graph == Pair() && s.dispatched == [1, 2]
  {
    StoredRescued(f);
    LooksAt(f, Stored(-1, 1, Done, [Agent(Rescuer, Look(1), [])]), 3, Stored(-1, 1, Done, [Agent(Rescuer, Add(1), [])]));
    Goes(f, Stored(-1, 1, Done, [Agent(Rescuer, Add(1), [])]), AddPending(3),
         Stored(-1, 2, Done, [Agent(Rescuer, Hand(1), [])]));
    s := Stored(-1, 2, Done, [Agent(Rescuer, Clear(1), [])]).(dispatched := [1, 2]);
    Walk(f, Stored(-1, 2, Done, [Agent(Rescuer, Hand(1), [])]), HandOver(3), s);
  }

  // ---------------------------------------------------------------- dispatch() throws in a routine run inline

  /** Task 0 before task 1 before task 2. */
  function Chain(): Graph {
    Graph([[1], [2], []], [0, 1, 1], [false, false, false])
  }

  /** A state of a flush of the three tasks, task 2 asleep. */
  function Three(locks: seq<int>, pending: int, dispatched: seq<nat>, a0: Agent, a1: Agent, others: seq<Agent>): State {
    State(Chain(), locks, pending, [a0, a1, Agent(Task(2), Asleep, [])] + others, false, dispatched, {})
  }

  function First(pc: Pc, todo: seq<Id>): Agent {
    Agent(Task(0), pc, todo)
  }

  function Second(pc: Pc, todo: seq<Id>): Agent {
    Agent(Task(1), pc, todo)
  }

  lemma ChainStarted(f: Faults)
    ensures Reached(f, Three([1, 2, 2], 1, [0, 0, 0], First(Asleep, [1]), Second(Asleep, [2]), [Flush(Loop, [0, 1, 2])]))
  {
    Runs.Stay(NextIf(f), Before(Chain()));
    assert Iota(3) == [0, 1, 2];
    var s := Three([1, 2, 2], 1, [0, 0, 0], First(Asleep, [1]), Second(Asleep, [2]), [Flush(Loop, [0, 1, 2])]);
    Walk(f, Before(Chain()), StartFlush, s);
  }

  lemma ChainHandedOver(f: Faults)
    ensures Reached(f, Three([0, 2, 2], 2, [1, 0, 0], First(Queued, [1]), Second(Asleep, [2]), [Flush(Loop, [1, 2])]))
  {
    ChainStarted(f);
    var first, second := First(Asleep, [1]), Second(Asleep, [2]);
    var s0 := Three([1, 2, 2], 1, [0, 0, 0], first, second, [Flush(Loop, [0, 1, 2])]);
    var s1 := Three([0, 2, 2], 1, [0, 0, 0], first, second, [Flush(Add(0), [1, 2])]);
    Goes(f, s0, Decrement(3), s1);
    var s2 := Three([0, 2, 2], 2, [0, 0, 0], first, second, [Flush(Hand(0), [1, 2])]);
    Goes(f, s1, AddPending(3), s2);
    Walk(f, s2, HandOver(3), Three([0, 2, 2], 2, [1, 0, 0], First(Queued, [1]), second, [Flush(Loop, [1, 2])]));
  }

  lemma ChainFlushEnds(f: Faults)
    ensures Reached(f, Three([0, 1, 1], 1, [1, 0, 0], First(Queued, [1]), Second(Asleep, [2]), Ended()))
  {
    ChainHandedOver(f);
    var first, second := First(Queued, [1]), Second(Asleep, [2]);
    assert [1, 2][1..] == [2] && [2][1..] == [];
    var s0 := Three([0, 2, 2], 2, [1, 0, 0], first, second, [Flush(Loop, [1, 2])]);
    var s1 := Three([0, 1, 2], 2, [1, 0, 0], first, second, [Flush(Loop, [2])]);
    Goes(f, s0, Decrement(3), s1);
    var s2 := Three([0, 1, 1], 2, [1, 0, 0], first, second, [Flush(Loop, [])]);
    Goes(f, s1, Decrement(3), s2);
    Goes(f, s2, Finalize(3), Three([0, 1, 1], 1, [1, 0, 0], first, second, Ended()));
  }

  lemma ChainFirstRuns(f: Faults)
    ensures Reached(f, Three([0, 1, 1], 1, [1, 0, 0], First(Loop, [1]), Second(Asleep, [2]), Ended()))
  {
    ChainFlushEnds(f);
    var second, others := Second(Asleep, [2]), Ended();
    var s0 := Three([0, 1, 1], 1, [1, 0, 0], First(Queued, [1]), second, others);
    var s1 := Three([0, 1, 1], 1, [1, 0, 0], First(Running, [1]), second, others);
    Goes(f, s0, Run(0), s1);
    var s2 := Three([0, 1, 1], 1, [1, 0, 0], First(Loop, [1]), second, others);
    Goes(f, s1, Return(0), s2);
  }

  lemma ChainDispatches(f: Faults)
    ensures Reached(f, Three([0, 0, 1], 2, [1, 0, 0], First(Hand(1), []), Second(Asleep, [2]), Ended()))
  {
    ChainFirstRuns(f);
    var second, others := Second(Asleep, [2]), Ended();
    assert [1][1..] == [];
    var s2 := Three([0, 1, 1], 1, [1, 0, 0], First(Loop, [1]), second, others);
    var s3 := Three([0, 0, 1], 1, [1, 0, 0], First(Add(1), []), second, others);
    Goes(f, s2, Decrement(0), s3);
    var s4 := Three([0, 0, 1], 2, [1, 0, 0], First(Hand(1), []), second, others);
    Goes(f, s3, AddPending(0), s4);
  }

  /** Task 0 has run and runs task 1 inline. */
  lemma RunsInline(f: Faults)
    ensures Reached(f, Three([0, 0, 1], 2, [1, 1, 0], First(Inside(1), []), Second(Running, [2]), Ended()))
  {
    ChainDispatches(f);
    var s := Three([0, 0, 1], 2, [1, 0, 0], First(Hand(1), []), Second(Asleep, [2]), Ended());
    Walk(f, s, HandInline(0), Three([0, 0, 1], 2, [1, 1, 0], First(Inside(1), []), Second(Running, [2]), Ended()));
  }

  /** Task 1 has run too. */
  lemma DispatchesWithin(f: Faults)
    ensures Reached(f, Three([0, 0, 0], 3, [1, 1, 0], First(Inside(1), []), Second(Hand(2), []), Ended()))
  {
    RunsInline(f);
    var first, others := First(Inside(1), []), Ended();
    assert [2][1..] == [];
    var s0 := Three([0, 0, 1], 2, [1, 1, 0], first, Second(Running, [2]), others);
    var s1 := Three([0, 0, 1], 2, [1, 1, 0], first, Second(Loop, [2]), others);
    Goes(f, s0, Return(1), s1);
    var s2 := Three([0, 0, 0], 2, [1, 1, 0], first, Second(Add(2), []), others);
    Goes(f, s1, Decrement(1), s2);
    var s3 := Three([0, 0, 0], 3, [1, 1, 0], first, Second(Hand(2), []), others);
    Goes(f, s2, AddPending(1), s3);
  }

  /** Its dispatch of task 2 throws. */
  lemma ThrowsWithin(f: Faults)
    requires f.inside
    ensures Reached(f, Three([0, 0, 0], 3, [1, 1, 0], First(Inside(1), []), Second(Undo(2), []), Ended()))
  {
    DispatchesWithin(f);
    var first, others := First(Inside(1), []), Ended();
    var s3 := Three([0, 0, 0], 3, [1, 1, 0], first, Second(Hand(2), []), others);
    Walk(f, s3, Throw(1), Three([0, 0, 0], 3, [1, 1, 0], first, Second(Undo(2), []), others));
  }

  /** The exception leaves complete() of task 1. */
  lemma ThrowsOut(f: Faults)
    requires f.inside
    ensures Reached(f, Three([0, 0, -1], 2, [1, 1, 0], First(Inside(1), []), Second(Thrown, []), Ended()))
  {
    ThrowsWithin(f);
    var first, others := First(Inside(1), []), Ended();
    var s0 := Three([0, 0, 0], 3, [1, 1, 0], first, Second(Undo(2), []), others);
    var s1 := Three([0, 0, 0], 2, [1, 1, 0], first, Second(Mark(2), []), others);
    Goes(f, s0, UndoPending(1), s1);
    var s2 := Three([0, 0, -1], 2, [1, 1, 0], first, Second(UnLoop, []), others);
    Goes(f, s1, StoreMark(1), s2);
    var s3 := Three([0, 0, -1], 2, [1, 1, 0], first, Second(Thrown, []), others);
    Goes(f, s2, LeaveThrown(1), s3);
  }

  /** The exception leaves dispatch() of task 1, too. */
  lemma ThrowsThrough(f: Faults)
    requires f.inside
    ensures Reached(f, Three([0, 0, -1], 1, [1, 1, 0], First(Mark(1), []), Second(Done, []), Ended()))
  {
    ThrowsOut(f);
    var second, others := Second(Done, []), Ended();
    var s0 := Three([0, 0, -1], 2, [1, 1, 0], First(Inside(1), []), Second(Thrown, []), others);
    var s1 := Three([0, 0, -1], 2, [1, 1, 0], First(Undo(1), []), second, others);
    Walk(f, s0, Propagate(0), s1);
    Goes(f, s1, UndoPending(0), Three([0, 0, -1], 1, [1, 1, 0], First(Mark(1), []), second, others));
  }

  /** Task 1 is marked although it has run. */
  lemma MarksBoth(f: Faults)
    requires f.inside
    ensures Reached(f, Three([0, -1, -1], 1, [1, 1, 0], First(Thrown, []), Second(Done, []), Ended()))
  {
    ThrowsThrough(f);
    var second, others := Second(Done, []), Ended();
    var s0 := Three([0, 0, -1], 1, [1, 1, 0], First(Mark(1), []), second, others);
    var s1 := Three([0, -1, -1], 1, [1, 1, 0], First(UnLoop, []), second, others);
    Goes(f, s0, StoreMark(0), s1);
    Goes(f, s1, LeaveThrown(0), Three([0, -1, -1], 1, [1, 1, 0], First(Thrown, []), second, others));
  }

  lemma ChainRescued(f: Faults)
    requires f.inside
    ensures Reached(f, Three([0, -1, -1], 1, [1, 1, 0], First(Done, []), Second(Done, []),
                             Ended() + [Agent(Rescuer, Look(1), [])]))
  {
    MarksBoth(f);
    var first, second := First(Done, []), Second(Done, []);
    var s0 := Three([0, -1, -1], 1, [1, 1, 0], First(Thrown, []), second, Ended());
    var s1 := Three([0, -1, -1], 1, [1, 1, 0], first, second, Ended() + [Agent(Rescuer, Look(0), [])]);
    Calls(f, s0, 0, s1);
    var s2 := Three([0, -1, -1], 1, [1, 1, 0], first, second, Ended() + [Agent(Rescuer, Look(1), [])]);
    LooksAt(f, s1, 4, s2);
  }

  /** resurrect() hands task 1 over a second time. */
  lemma RunsTwice(f: Faults) returns (s: State)
    requires f.inside
    ensures Reached(f, s) && s.graph == Chain() && s.dispatched == [1, 2, 0]
  {
    ChainRescued(f);
    var first, second := First(Done, []), Second(Done, []);
    var s2 := Three([0, -1, -1], 1, [1, 1, 0], first, second, Ended() + [Agent(Rescuer, Look(1), [])]);
    var s3 := Three([0, -1, -1], 1, [1, 1, 0], first, second, Ended() + [Agent(Rescuer, Add(1), [])]);
    LooksAt(f, s2, 4, s3);
    var s4 := Three([0, -1, -1], 2, [1, 1, 0], first, second, Ended() + [Agent(Rescuer, Hand(1), [])]);
    Goes(f, s3, AddPending(4), s4);
    s := Three([0, -1, -1], 2, [1, 2, 0], first, Second(Queued, []), Ended() + [Agent(Rescuer, Clear(1), [])]);
    Walk(f, s4, HandOver(4), s);
  }

  // ---------------------------------------------------------------- two resurrect() calls at once

  function Answer(pc: Pc): Agent {
    Agent(Rescuer, pc, [])
  }

  /** The dispatch of task 1 throws, as it may. */
  lemma ChainThrows(f: Faults)
    ensures Reached(f, Three([0, -1, 1], 1, [1, 0, 0], First(Thrown, []), Second(Asleep, [2]), Ended()))
  {
    ChainDispatches(f);
    var second, others := Second(Asleep, [2]), Ended();
    Fails(f, Three([0, 0, 1], 2, [1, 0, 0], First(Hand(1), []), second, others), 0, 1,
          Three([0, -1, 1], 1, [1, 0, 0], First(Thrown, []), second, others));
  }

  lemma ChainAnswers(f: Faults)
    ensures Reached(f, Three([0, -1, 1], 1, [1, 0, 0], First(Done, []), Second(Asleep, [2]), Ended() + [Answer(Add(1))]))
  {
    ChainThrows(f);
    var first, second := First(Done, []), Second(Asleep, [2]);
    var s0 := Three([0, -1, 1], 1, [1, 0, 0], First(Thrown, []), second, Ended());
    var s1 := Three([0, -1, 1], 1, [1, 0, 0], first, second, Ended() + [Answer(Look(0))]);
    Calls(f, s0, 0, s1);
    var s2 := Three([0, -1, 1], 1, [1, 0, 0], first, second, Ended() + [Answer(Look(1))]);
    LooksAt(f, s1, 4, s2);
    LooksAt(f, s2, 4, Three([0, -1, 1], 1, [1, 0, 0], first, second, Ended() + [Answer(Add(1))]));
  }

  /** resurrect() hands over task 1. */
  lemma ChainRevives(f: Faults)
    ensures Reached(f, Three([0, -1, 1], 2, [1, 1, 0], First(Done, []), Second(Queued, [2]), Ended() + [Answer(Clear(1))]))
  {
    ChainAnswers(f);
    var first, second := First(Done, []), Second(Asleep, [2]);
    var s0 := Three([0, -1, 1], 1, [1, 0, 0], first, second, Ended() + [Answer(Add(1))]);
    var s1 := Three([0, -1, 1], 2, [1, 0, 0], first, second, Ended() + [Answer(Hand(1))]);
    Goes(f, s0, AddPending(4), s1);
    Walk(f, s1, HandOver(4), Three([0, -1, 1], 2, [1, 1, 0], first, Second(Queued, [2]), Ended() + [Answer(Clear(1))]));
  }

  /** It goes on to task 2. Before it looks at it, task 1 runs. */
  lemma ChainSecondStarts(f: Faults)
    ensures Reached(f, Three([0, 0, 1], 2, [1, 1, 0], First(Done, []), Second(Running, [2]), Ended() + [Answer(Look(2))]))
  {
    ChainRevives(f);
    var first, others := First(Done, []), Ended() + [Answer(Look(2))];
    var s := Three([0, -1, 1], 2, [1, 1, 0], first, Second(Queued, [2]), Ended() + [Answer(Clear(1))]);
    var s0 := Three([0, 0, 1], 2, [1, 1, 0], first, Second(Queued, [2]), others);
    Goes(f, s, StoreClear(4), s0);
    Goes(f, s0, Run(1), Three([0, 0, 1], 2, [1, 1, 0], first, Second(Running, [2]), others));
  }

  /** Task 1 is about to hand over task 2. */
  lemma ChainSecondRuns(f: Faults)
    ensures Reached(f, Three([0, 0, 0], 3, [1, 1, 0], First(Done, []), Second(Hand(2), []), Ended() + [Answer(Look(2))]))
  {
    ChainSecondStarts(f);
    var first, others := First(Done, []), Ended() + [Answer(Look(2))];
    assert [2][1..] == [];
    var s1 := Three([0, 0, 1], 2, [1, 1, 0], first, Second(Running, [2]), others);
    var s2 := Three([0, 0, 1], 2, [1, 1, 0], first, Second(Loop, [2]), others);
    Goes(f, s1, Return(1), s2);
    var s3 := Three([0, 0, 0], 2, [1, 1, 0], first, Second(Add(2), []), others);
    Goes(f, s2, Decrement(1), s3);
    Goes(f, s3, AddPending(1), Three([0, 0, 0], 3, [1, 1, 0], first, Second(Hand(2), []), others));
  }

  /** This dispatch throws, too. */
  lemma ChainThrowsAgain(f: Faults)
    ensures Reached(f, Three([0, 0, -1], 2, [1, 1, 0], First(Done, []), Second(Thrown, []), Ended() + [Answer(Look(2))]))
  {
    ChainSecondRuns(f);
    var first, others := First(Done, []), Ended() + [Answer(Look(2))];
    Fails(f, Three([0, 0, 0], 3, [1, 1, 0], first, Second(Hand(2), []), others), 1, 2,
          Three([0, 0, -1], 2, [1, 1, 0], first, Second(Thrown, []), others));
  }

  /** A second resurrect() answers it. */
  lemma BothAnswer(f: Faults)
    requires f.overlaps
    ensures Reached(f, Three([0, 0, -1], 2, [1, 1, 0], First(Done, []), Second(Done, []),
                             Ended() + [Answer(Look(2)), Answer(Look(0))]))
  {
    ChainThrowsAgain(f);
    var s := Three([0, 0, -1], 2, [1, 1, 0], First(Done, []), Second(Thrown, []), Ended() + [Answer(Look(2))]);
    Walk(f, s, StartRescue(1), Three([0, 0, -1], 2, [1, 1, 0], First(Done, []), Second(Done, []),
                                     Ended() + [Answer(Look(2)), Answer(Look(0))]));
  }

  /** Both find the mark of task 2. */
  lemma BothFind(f: Faults)
    requires f.overlaps
    ensures Reached(f, Three([0, 0, -1], 2, [1, 1, 0], First(Done, []), Second(Done, []),
                             Ended() + [Answer(Add(2)), Answer(Add(2))]))
  {
    BothAnswer(f);
    var first, second := First(Done, []), Second(Done, []);
    var s0 := Three([0, 0, -1], 2, [1, 1, 0], first, second, Ended() + [Answer(Look(2)), Answer(Look(0))]);
    var s1 := Three([0, 0, -1], 2, [1, 1, 0], first, second, Ended() + [Answer(Look(2)), Answer(Look(1))]);
    LooksAt(f, s0, 5, s1);
    var s2 := Three([0, 0, -1], 2, [1, 1, 0], first, second, Ended() + [Answer(Look(2)), Answer(Look(2))]);
    LooksAt(f, s1, 5, s2);
    var s3 := Three([0, 0, -1], 2, [1, 1, 0], first, second, Ended() + [Answer(Add(2)), Answer(Look(2))]);
    LooksAt(f, s2, 4, s3);
    LooksAt(f, s3, 5, Three([0, 0, -1], 2, [1, 1, 0], first, second, Ended() + [Answer(Add(2)), Answer(Add(2))]));
  }

  /** A state in which both dispatch task 2. */
  function Twice(pending: int, dispatched: nat, third: Pc, a: Pc, b: Pc): State {
    var tasks := [First(Done, []), Second(Done, []), Agent(Task(2), third, [])];
    State(Chain(), [0, 0, -1], pending, tasks + Ended() + [Answer(a), Answer(b)], false, [1, 1, dispatched], {})
  }

  /** Both hand it over. */
  lemma AnsweredTwice(f: Faults) returns (s: State)
    requires f.overlaps
    ensures Reached(f, s) && s.graph == Chain() && s.dispatched == [1, 1, 2]
  {
    BothFind(f);
    assert Twice(2, 0, Asleep, Add(2), Add(2)).agents
        == Three([0, 0, -1], 2, [1, 1, 0], First(Done, []), Second(Done, []),
                 Ended() + [Answer(Add(2)), Answer(Add(2))]).agents;
    Goes(f, Twice(2, 0, Asleep, Add(2), Add(2)), AddPending(4), Twice(3, 0, Asleep, Hand(2), Add(2)));
    Goes(f, Twice(3, 0, Asleep, Hand(2), Add(2)), AddPending(5), Twice(4, 0, Asleep, Hand(2), Hand(2)));
    Walk(f, Twice(4, 0, Asleep, Hand(2), Hand(2)), HandOver(4), Twice(4, 1, Queued, Clear(2), Hand(2)));
    s := Twice(4, 2, Queued, Clear(2), Clear(2));
    Walk(f, Twice(4, 1, Queued, Clear(2), Hand(2)), HandOver(5), s);
  }

  // ---------------------------------------------------------------- nothing else goes wrong

  lemma InitPair()
    ensures Init(Before(Pair()))
  {
    hide WellFormed;
    assert Ranks(Pair(), [0, 1]);
    GraphOK(Pair());
  }

  lemma InitChain()
    ensures Init(Before(Chain()))
  {
    hide WellFormed;
    assert Ranks(Chain(), [0, 1, 2]);
    GraphOK(Chain());
  }

  lemma GraphOK(g: Graph)
    requires g == Pair() || g == Chain()
    ensures WellFormed(g)
  {
    hide Sum, EdgesInto;
    forall i: nat | i < |g.next| ensures g.total[i] == Sum(EdgesInto(i), g.next) {
      TotalOf(g, i);
    }
  }

  lemma TotalOf(g: Graph, i: nat)
    requires g == Pair() || g == Chain()
    ensures Sum(EdgesInto(i), g.next) == AsNat(1 <= i < |g.next|)
  {
    var next: seq<seq<Id>> := g.next;
    if g == Chain() {
      assert next[1..][1..] == [[]] && next[1..] == [[2], []];
    }
    var none: seq<seq<Id>> := [[]];
    assert none[1..] == [] && EdgesInto(i)([]) == 0;
  }

  /** A run that commits a fault and ends badly. */
  lemma BadRun(f: Faults) returns (run: seq<State>)
    requires f != Faults(false, false, false, false, false)
    ensures Runs.IsRun(Init, NextIf(f), run) && !Sound(run[|run| - 1])
  {
    InitPair();
    InitChain();
    var s: State;
    if f.covers {
      s := FiresEarly(f);
      assert !s.agents[1].pc.Done?;
    } else if f.races {
      s := StartsSuspended(f);
      assert s.agents[4].pc.Held? && s.dispatched[1] == 1;
    } else if f.late {
      s := QueuedTwice(f);
      assert s.dispatched[1] == 2;
    } else if f.inside {
      s := RunsTwice(f);
      assert s.dispatched[1] == 2;
    } else {
      s := AnsweredTwice(f);
      assert s.dispatched[2] == 2;
    }
    run := Runs.RunTo(Init, NextIf(f), Before(s.graph), s);
  }

  ghost predicate StrictNext(s: State, t: State) {
    exists a :: Strict(s, a) && t == Step(s, a)
  }

  /** Without a fault nothing is missed. */
  lemma NothingMissed(run: seq<State>)
    requires Runs.IsRun(Init, StrictNext, run)
    ensures Runs.IsRun(Init, ProperNext, run)
    ensures forall k | 0 <= k < |run| :: run[k].missed == {}
  {
    var inv := (s: State) => Inv(s) && Unmissed(s);
    forall s | Init(s) ensures inv(s) { InitInv(s); }
    forall s, t | inv(s) && StrictNext(s, t) ensures inv(t) {
      var a :| Strict(s, a) && t == Step(s, a);
      assert ProperNext(s, t);
      StepInv(s, t);
      StepUnmissed(s, a);
    }
    Runs.Invariant(Init, StrictNext, inv, run);
    forall i: nat | i + 1 < |run| ensures ProperNext(run[i], run[i + 1]) {
      assert StrictNext(run[i], run[i + 1]);
    }
  }

  lemma NoFault(f: Faults, s: State, t: State)
    requires f == Faults(false, false, false, false, false) && NextIf(f)(s, t)
    ensures StrictNext(s, t)
  {
    var a :| Enabled(s, a) && Allowed(f, s, a) && t == Step(s, a);
    assert !OnMark(s, a) && !ThrowsInside(s, a) && !a.ThrowLate? && !Overlaps(s, a);
    assert Strict(s, a);
  }

  lemma GoodRun(run: seq<State>, k: nat)
    requires Runs.IsRun(Init, StrictNext, run) && k < |run|
    ensures Sound(run[k])
  {
    NothingMissed(run);
    RunInv(run, k);
    DispatchedOnce(run[k]);
    forall x | 0 <= x < |run[k].agents| && run[k].agents[x].kind.Suspension? && run[k].agents[x].pc.Held?
      ensures run[k].agents[x].kind.id < |run[k].dispatched| && run[k].dispatched[run[k].agents[x].kind.id] == 0
    {
      SuspensionHolds(run, k, x);
    }
    if run[k].fired {
      CompletionMeansDone(run, k);
    }
  }

  /** The dispatcher keeps its promises in every run exactly if no suspend() adds to the mark of a failed
      dispatch, no exception leaves dispatch() after the task was handed over, and no exception is answered by a
      resurrect() while another one is under way: whichever of the five faults is possible, some run breaks a
      promise. */
  lemma FaultsAreExact(f: Faults)
    ensures (forall run: seq<State>, k: nat | Runs.IsRun(Init, NextIf(f), run) && k < |run| :: Sound(run[k]))
            <==> f == Faults(false, false, false, false, false)
  {
    if f == Faults(false, false, false, false, false) {
      forall run: seq<State>, k: nat | Runs.IsRun(Init, NextIf(f), run) && k < |run| ensures Sound(run[k]) {
        forall i: nat | i + 1 < |run| ensures StrictNext(run[i], run[i + 1]) {
          assert NextIf(f)(run[i], run[i + 1]);
          NoFault(f, run[i], run[i + 1]);
        }
        GoodRun(run, k);
      }
    } else {
      var run := BadRun(f);
    }
  }
}
