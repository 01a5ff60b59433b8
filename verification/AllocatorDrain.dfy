/** Calls of the allocator end: with no new ones, whatever the schedule, those under way return. */
module AllocatorDrain {
  import opened Allocator
  import opened Counting
  import Runs

  // ---------------------------------------------------------------- a rank that every step lowers

  /** The thread has a block to itself that holds no item: the search in it will not fail. */
  predicate Sure(m: Mem, th: Thread, usable: nat) {
    && ((th.Search? && th.n == 0) || (th.SetBit? && th.n == 0 && th.bit == 0))
    && Get(m, th.p).ref == 1 && forall i: nat | i < usable :: i !in Get(m, th.p).bits
  }

  /** How many blocks the thread may still put into the store, and how often it may still take one out for nothing
      else: 3 as long as it may have to try again. */
  function Major(m: Mem, usable: nat): Thread -> nat {
    (th: Thread) =>
      match th
      case Idle => 0
      case SlotTake(_) => 3
      case ListTake => 3
      case RootTake => 3
      case ListBack(_, rest) => 3 + |rest|
      case ListGive(_, rest) => 3 + |rest|
      case Uncount(_) => 3
      case Unmanage(_) => 3
      case Search(_, _) => if Sure(m, th, usable) then 2 else 3
      case SetBit(_, _, _) => if Sure(m, th, usable) then 2 else 3
      case AddRef(_, _) => 2
      case Return(_, _) => 1
      case ClearBit(_, _) => 1
      case Drop(_, k) => Later(k)
      case Free(_, k) => Later(k)
      case SeeManaged(_, k) => 1 + Later(k)
      case SeeCount(_, k) => 1 + Later(k)
      case Manage(_, k) => 1 + Later(k)
      case SlotPut(_, _, k) => 1 + Later(k)
      case Recount(_, k) => 1 + Later(k)
      case ListPut(_, k) => 1 + Later(k)
  }

  function Later(k: Then): nat {
    match k
    case Done => 0
    case Retry => 3
    case Got(_) => 1
  }

  function Rest(n: nat, all: nat): nat {
    if n <= all then all - n else 0
  }

  /** How far the thread is from the next change of the store, or from its end. */
  function Minor(slots: nat, words: nat): Thread -> nat {
    (th: Thread) =>
      match th
      case Idle => 0
      case Return(_, _) => 1
      case RootTake => slots + 2 * words + 60
      case ListTake => slots + 2 * words + 61
      case SlotTake(n) => Rest(n, slots) + slots + 2 * words + 62
      case Free(_, k) => if k.Retry? then 2 * slots + 2 * words + 70 else 2
      case Drop(_, k) => if k.Retry? then 2 * slots + 2 * words + 71 else 3
      case ListPut(_, _) => 4
      case Recount(_, _) => 5
      case SlotPut(_, n, _) => Rest(n, slots) + 6
      case Manage(_, _) => slots + 7
      case SeeCount(_, _) => slots + 8
      case SeeManaged(_, _) => slots + 9
      case AddRef(_, _) => slots + 10
      case ClearBit(_, _) => slots + 10
      case SetBit(_, n, _) => 2 * Rest(n, words) + 2 * slots + 2 * words + 79
      case Search(_, n) => 2 * Rest(n, words) + 2 * slots + 2 * words + 80
      case Unmanage(_) => 4 * words + 2 * slots + 81
      case Uncount(_) => 4 * words + 2 * slots + 82
      case ListGive(_, rest) => |rest| + 4 * words + 2 * slots + 83
      case ListBack(_, rest) => |rest| + 4 * words + 2 * slots + 84
  }

  function Filled(o: Option<Id>): nat {
    AsNat(o.Some?)
  }

  /** The blocks in the store. */
  function Store(m: Mem): nat {
    Sum(Filled, m.slots) + |m.list|
  }

  datatype Rank = Rank(major: nat, minor: nat)

  function RankOf(s: State): Rank {
    Rank(Store(s.mem) + Sum(Major(s.mem, s.usable), s.threads), Sum(Minor(|s.mem.slots|, s.words), s.threads))
  }

  /** Lexicographic order. */
  predicate Below(p: Rank, q: Rank) {
    p.major < q.major || (p.major == q.major && p.minor < q.minor)
  }

  /** Bits are set in words that there are, and a block in which the search has failed is not recycled. */
  predicate Phased(s: State, th: Thread) {
    && (th.SetBit? ==> th.n < s.words)
    && (th.SeeManaged? || th.SeeCount? || th.Manage? || th.SlotPut? || th.Recount? || th.ListPut? ==> !th.k.Retry?)
  }

  /** What one step does to the store and to the part of the acting thread. */
  predicate Advances(s: State, th: Thread, id: Id, spurious: bool)
    requires th != Idle
  {
    var (m', th') := Advance(s, s.mem, th, id, spurious);
    var (a, b) := (Store(s.mem) + Major(s.mem, s.usable)(th), Store(m') + Major(m', s.usable)(th'));
    && |m'.slots| == |s.mem.slots|
    && (b < a || (b == a && Minor(|s.mem.slots|, s.words)(th') < Minor(|s.mem.slots|, s.words)(th)))
  }

  lemma SlotAdvances(s: State, th: Thread, id: Id, spurious: bool)
    requires (th.SlotTake? || th.SlotPut?) && Phased(s, th)
    ensures Advances(s, th, id, spurious)
  {
    hide FirstFree, Sum, Sure;
    if th.n < |s.mem.slots| {
      SumUpdate(Filled, s.mem.slots, th.n, if th.SlotTake? then None else Some(th.p));
    }
  }

  lemma ListAdvances(s: State, th: Thread, id: Id, spurious: bool)
    requires (th.ListTake? || th.ListBack? || th.ListGive? || th.ListPut? || th.Uncount? || th.Recount?) && Phased(s, th)
    ensures Advances(s, th, id, spurious)
  {
    hide FirstFree, Sum, Sure;
  }

  lemma SearchAdvances(s: State, th: Thread, id: Id, spurious: bool)
    requires 0 < s.words && 0 < s.usable && (th.Search? || th.SetBit? || th.Unmanage? || th.RootTake?)
    requires Phased(s, th)
    ensures Advances(s, th, id, spurious)
  {
    hide Sum;
  }

  lemma RestAdvances(s: State, th: Thread, id: Id, spurious: bool)
    requires th.AddRef? || th.Return? || th.ClearBit? || th.SeeManaged? || th.SeeCount? || th.Manage? || th.Drop? || th.Free?
    ensures Advances(s, th, id, spurious)
  {
    hide FirstFree, Sum, Sure;
  }

  lemma ActorAdvances(s: State, th: Thread, id: Id, spurious: bool)
    requires 0 < s.words && 0 < s.usable && th != Idle && Phased(s, th)
    ensures Advances(s, th, id, spurious)
  {
    hide Advances;
    if th.SlotTake? || th.SlotPut? {
      SlotAdvances(s, th, id, spurious);
    } else if th.Search? || th.SetBit? || th.Unmanage? || th.RootTake? {
      SearchAdvances(s, th, id, spurious);
    } else if th.ListTake? || th.ListBack? || th.ListGive? || th.ListPut? || th.Uncount? || th.Recount? {
      ListAdvances(s, th, id, spurious);
    } else {
      RestAdvances(s, th, id, spurious);
    }
  }

  // ---------------------------------------------------------------- the other threads

  /** A step changes no block but the one its thread refers to, or a new one. */
  lemma OtherBlocks(s: State, th: Thread, id: Id, spurious: bool, q: Id)
    requires th != Idle && id !in s.mem.blocks && q in s.mem.blocks && (HasBlock(th) ==> th.p != q)
    ensures Get(Advance(s, s.mem, th, id, spurious).0, q) == Get(s.mem, q)
  {
    hide FirstFree, Sum;
  }

  /** Whoever has a block to himself keeps it so. */
  lemma StaysSure(s: State, a: Action, u: nat)
    requires Inv(s) && Enabled(s, a) && a.c.Proceed? && u < |s.threads| && u != a.t && Sure(s.mem, s.threads[u], s.usable)
    ensures Sure(Step(s, a).mem, s.threads[u], s.usable)
  {
    hide Act, Sum;
    var (th, q) := (s.threads[a.t], s.threads[u].p);
    assert RefExact(s, q);
    if HasBlock(th) && th.p == q {
      SaneNow(s, a.t);
      SumAtLeast(RefsOf(q), s.threads, u);
      if u < a.t {
        SumPair(RefsOf(q), s.threads, u, a.t);
      } else {
        SumPair(RefsOf(q), s.threads, a.t, u);
      }
    } else {
      ActProceeds(s, a);
      OtherBlocks(s, th, a.c.id, a.c.spurious, q);
    }
  }

  lemma ActProceeds(s: State, a: Action)
    requires Enabled(s, a) && a.c.Proceed?
    ensures Step(s, a).mem == Advance(s, s.mem, s.threads[a.t], a.c.id, a.c.spurious).0
    ensures Step(s, a).threads == s.threads[a.t := Advance(s, s.mem, s.threads[a.t], a.c.id, a.c.spurious).1]
  {
  }

  lemma OtherMajor(s: State, a: Action, u: nat)
    requires Inv(s) && Enabled(s, a) && a.c.Proceed? && u < |s.threads| && u != a.t
    ensures Major(Step(s, a).mem, s.usable)(s.threads[u]) <= Major(s.mem, s.usable)(s.threads[u])
  {
    hide Act, Sum, Sure, Inv;
    if Sure(s.mem, s.threads[u], s.usable) {
      StaysSure(s, a, u);
    }
  }

  ghost predicate InPhase(s: State) {
    forall t | 0 <= t < |s.threads| :: Phased(s, s.threads[t])
  }

  lemma StepInPhase(s: State, a: Action)
    requires InPhase(s) && Enabled(s, a)
    ensures InPhase(Step(s, a))
  {
    hide FirstFree, Sum;
  }

  /** Every step of a call under way lowers the rank. */
  lemma StepDrains(s: State, a: Action)
    requires Inv(s) && InPhase(s) && 0 < s.words && 0 < s.usable && Enabled(s, a) && a.c.Proceed?
    ensures Below(RankOf(Step(s, a)), RankOf(s))
  {
    hide Act, Advance, Sum, Major, Minor, Store, Inv;
    var (th, m', n) := (s.threads[a.t], Step(s, a).mem, |s.mem.slots|);
    var th' := Advance(s, s.mem, th, a.c.id, a.c.spurious).1;
    ActProceeds(s, a);
    ActorAdvances(s, th, a.c.id, a.c.spurious);
    var (v, w) := (Major(m', s.usable), Major(s.mem, s.usable));
    var rest := s.threads[a.t := Idle];
    forall u | 0 <= u < |rest| ensures v(rest[u]) <= w(rest[u]) {
      if u != a.t {
        OtherMajor(s, a, u);
      } else {
        IdleMajor(m', s.mem, s.usable);
      }
    }
    SumBelow(v, w, rest);
    IdleMajor(m', s.mem, s.usable);
    SumUpdate(v, rest, a.t, th');
    SumUpdate(w, rest, a.t, th);
    assert rest[a.t := th'] == s.threads[a.t := th'] && rest[a.t := th] == s.threads;
    SumUpdate(Minor(n, s.words), s.threads, a.t, th');
  }

  lemma IdleMajor(m: Mem, m': Mem, usable: nat)
    ensures Major(m, usable)(Idle) == 0 && Major(m', usable)(Idle) == 0
  {
  }

  // ---------------------------------------------------------------- the end

  ghost predicate CanMove(s: State) {
    exists a :: Enabled(s, a) && a.c.Proceed?
  }

  ghost predicate Over(s: State) {
    forall t | 0 <= t < |s.threads| :: s.threads[t] == Idle
  }

  /** The path takes, one after the other, the steps that are picked. */
  ghost predicate Follows(path: seq<State>, pick: State -> Action) {
    && |path| > 0
    && forall i: nat | i + 1 < |path| ::
         Enabled(path[i], pick(path[i])) && pick(path[i]).c.Proceed? && path[i + 1] == Step(path[i], pick(path[i]))
  }

  lemma {:induction false} Unused(used: set<Id>) returns (id: Id)
    ensures id !in used && forall x | x in used :: x < id
  {
    if used == {} {
      id := 0;
    } else {
      var x :| x in used;
      var y := Unused(used - {x});
      assert forall z | z in used :: z == x || z in used - {x};
      id := if x < y then y else x + 1;
    }
  }

  lemma MovesOn(s: State)
    requires !Over(s)
    ensures CanMove(s)
  {
    var t :| 0 <= t < |s.threads| && s.threads[t] != Idle;
    var id := Unused(s.mem.blocks.Keys);
    assert Enabled(s, Action(t, Proceed(id, false)));
  }

  lemma Sizes(s: State, a: Action)
    requires Enabled(s, a)
    ensures Step(s, a).words == s.words && Step(s, a).usable == s.usable
  {
  }

  lemma {:induction false} RunsDry(s: State, pick: State -> Action) returns (path: seq<State>)
    requires Inv(s) && InPhase(s) && 0 < s.words && 0 < s.usable
    requires forall s | CanMove(s) :: Enabled(s, pick(s)) && pick(s).c.Proceed?
    ensures Follows(path, pick) && path[0] == s && Over(path[|path| - 1])
    ensures forall i: nat | i + 1 < |path| :: Next(path[i], path[i + 1])
    decreases RankOf(s).major, RankOf(s).minor
  {
    hide Inv, Over, RankOf, Step, CanMove;
    if CanMove(s) {
      var a := pick(s);
      assert Next(s, Step(s, a));
      StepInv(s, Step(s, a));
      StepInPhase(s, a);
      StepDrains(s, a);
      Sizes(s, a);
      var rest := RunsDry(Step(s, a), pick);
      path := [s] + rest;
    } else {
      path := [s];
      if !Over(s) {
        MovesOn(s);
      }
    }
  }

  lemma RunInPhase(run: seq<State>, k: nat)
    requires Runs.IsRun(Init, Next, run) && k < |run|
    ensures InPhase(run[k])
  {
    forall s, s' | InPhase(s) && Next(s, s') ensures InPhase(s') {
      var a :| Enabled(s, a) && s' == Step(s, a);
      StepInPhase(s, a);
    }
    Runs.Invariant(Init, Next, InPhase, run);
  }

  /** From every reachable state of an allocator whose blocks hold items, with no new calls, every schedule ends after
      finitely many steps with all calls returned; then no block is leaked and all counts are exact. */
  lemma Drains(run: seq<State>, pick: State -> Action) returns (path: seq<State>)
    requires Runs.IsRun(Init, Next, run) && 0 < run[|run| - 1].words && 0 < run[|run| - 1].usable
    requires forall s | CanMove(s) :: Enabled(s, pick(s)) && pick(s).c.Proceed?
    ensures Follows(path, pick) && path[0] == run[|run| - 1] && Over(path[|path| - 1])
    ensures var end := path[|path| - 1];
            forall p | p in end.mem.blocks ::
              var b := end.mem.blocks[p];
              b.ref == |b.live| + Stored(end.mem, p) >= 1 && AsNat(b.managed) == Stored(end.mem, p)
  {
    hide Init, Next, Step, Enabled, Stored, CanMove, Inv;
    RunInv(run, |run| - 1);
    RunInPhase(run, |run| - 1);
    path := RunsDry(run[|run| - 1], pick);
    var whole := Runs.Join(Init, Next, run, path);
    AtRest(whole, |whole| - 1);
  }
}
