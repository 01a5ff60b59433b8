/** Which item an allocate() returns that nobody disturbs: the lowest free one of a stored block, and a new block
    is made only if all stored blocks are full. */
module AllocatorSearch {
  import opened Allocator
  import opened Counting
  import Runs

  /** Every item of the block is taken. */
  ghost predicate Full(s: State, p: Id) {
    forall i: nat | i < s.usable :: i in Get(s.mem, p).bits
  }

  ghost predicate AllFull(s: State) {
    forall q: Id | Stored(s.mem, q) > 0 :: Full(s, q)
  }

  /** What a call that began in state s may return. */
  ghost predicate Gives(s: State, p: Id, bit: nat) {
    && bit < s.usable
    && if p in s.mem.blocks then
         Stored(s.mem, p) > 0 && bit !in s.mem.blocks[p].bits && forall i: nat | i < bit :: i in s.mem.blocks[p].bits
       else bit == 0 && AllFull(s)
  }

  /** The blocks the thread has taken out of the store and not yet looked through. */
  function Held(th: Thread, p: Id): nat {
    match th
    case ListBack(q, rest) => AsNat(q == p) + Sum(SameAs(p), rest)
    case ListGive(q, rest) => AsNat(q == p) + Sum(SameAs(p), rest)
    case Uncount(q) => AsNat(q == p)
    case Unmanage(q) => AsNat(q == p)
    case Search(q, _) => AsNat(q == p)
    case SetBit(q, _, _) => AsNat(q == p)
    case _ => 0
  }

  /** The thread has not found an item yet. */
  predicate Seeks(th: Thread) {
    || th.SlotTake? || th.ListTake? || th.ListBack? || th.ListGive? || th.Uncount? || th.Unmanage? || th.RootTake?
    || th.Search? || th.SetBit? || (th.Drop? && th.k.Retry?) || (th.Free? && th.k.Retry?)
  }

  /** The items below n are taken. */
  ghost predicate TakenBelow(s: State, p: Id, n: nat) {
    forall i: nat | i < n && i < s.usable :: i in Get(s.mem, p).bits
  }

  /** How far the search is. */
  ghost predicate Place(s0: State, s: State, th: Thread) {
    && (th.SlotTake? ==> forall j | 0 <= j < th.n && j < |s.mem.slots| :: s.mem.slots[j].None?)
    && (th.ListTake? || th.RootTake? ==> forall j | 0 <= j < |s.mem.slots| :: s.mem.slots[j].None?)
    && (th.RootTake? ==> s.mem.list == [])
    && (th.Search? ==> TakenBelow(s, th.p, 64 * th.n) && (th.p !in s0.mem.blocks ==> th.n == 0 && Get(s.mem, th.p).bits == {}))
    && (th.SetBit? ==>
          && th.n < s.words && th.bit < 64 * th.n + 64 && TakenBelow(s, th.p, th.bit)
          && th.bit !in Get(s.mem, th.p).bits && (th.p !in s0.mem.blocks ==> th.bit == 0))
    && (th.Drop? ==> th.p in s0.mem.blocks && Full(s, th.p))
    && !th.Free?
  }

  /** A stored block is still there, or was full; what is there or in hand was stored, or is new because all are full. */
  ghost predicate Sought(s0: State, s: State, th: Thread, q: Id) {
    && (Stored(s0.mem, q) > 0 ==> Stored(s.mem, q) + Held(th, q) > 0 || Full(s0, q))
    && (Stored(s.mem, q) > 0 ==> Stored(s0.mem, q) > 0)
    && (Held(th, q) > 0 ==>
          Stored(s0.mem, q) > 0 || (q !in s0.mem.blocks && AllFull(s0) && (th.Search? || th.SetBit?)))
    && (q in s0.mem.blocks ==>
          && q in s.mem.blocks
          && forall i: nat | i < s.usable :: i in Get(s.mem, q).bits <==> i in s0.mem.blocks[q].bits)
  }

  /** The item a thread has found. */
  function Found(th: Thread): Option<(Id, nat)> {
    match th
    case AddRef(p, bit) => Some((p, bit))
    case Return(p, bit) => Some((p, bit))
    case SeeManaged(p, k) => FoundBy(p, k)
    case SeeCount(p, k) => FoundBy(p, k)
    case Manage(p, k) => FoundBy(p, k)
    case SlotPut(p, _, k) => FoundBy(p, k)
    case Recount(p, k) => FoundBy(p, k)
    case ListPut(p, k) => FoundBy(p, k)
    case Drop(p, k) => FoundBy(p, k)
    case Free(p, k) => FoundBy(p, k)
    case _ => None
  }

  function FoundBy(p: Id, k: Then): Option<(Id, nat)> {
    match k
    case Got(bit) => Some((p, bit))
    case _ => None
  }

  /** A call of thread t that began in state s0, with nobody else in a call, has come to state s. */
  ghost predicate Under(s0: State, s: State, t: nat) {
    && t < |s.threads| && s.usable == s0.usable && s.words == s0.words
    && (forall u | 0 <= u < |s.threads| && u != t :: s.threads[u] == Idle)
    && (forall q: Id :: Get(s.mem, q).live == Get(s0.mem, q).live)
    && var th := s.threads[t];
       if Seeks(th) then Place(s0, s, th) && forall q: Id :: Sought(s0, s, th, q)
       else Found(th).Some? && Gives(s0, Found(th).value.0, Found(th).value.1)
  }

  /** It has returned item `bit` of block p; the user holds no other item more or less. */
  ghost predicate Returned(s0: State, s: State, t: nat, p: Id, bit: nat) {
    && t < |s.threads| && s.threads[t] == Idle && Gives(s0, p, bit)
    && forall q: Id :: Get(s.mem, q).live == Get(s0.mem, q).live + (if q == p then {bit} else {})
  }

  lemma Begins(s0: State, t: nat)
    requires Inv(s0) && Enabled(s0, Action(t, Allocate)) && forall u | 0 <= u < |s0.threads| :: s0.threads[u] == Idle
    ensures Under(s0, Step(s0, Action(t, Allocate)), t)
  {
    var s := Step(s0, Action(t, Allocate));
    forall q: Id ensures Sought(s0, s, s.threads[t], q) {
    }
  }

  // ---------------------------------------------------------------- one step

  /** What a seeking thread finds when it acts. */
  ghost predicate Ready(s0: State, s: State, th: Thread, id: Id) {
    && Seeks(th) && id !in s.mem.blocks && s.usable == s0.usable && s.words == s0.words && 0 < s.usable <= 64 * s.words
    && Sane(s.mem, th, s.usable) && Place(s0, s, th) && (th.Drop? ==> Get(s.mem, th.p).ref > 1)
    && (forall q: Id :: Sought(s0, s, th, q)) && forall q: Id | Stored(s0.mem, q) > 0 :: q in s0.mem.blocks
  }

  /** The blocks in hand: what comes out of the store or from the root goes there, and what goes back, or has no
      free item, or has been found, leaves it. */
  lemma HeldEffect(s0: State, s: State, th: Thread, id: Id, spurious: bool, q: Id)
    requires Ready(s0, s, th, id)
    ensures var th' := Advance(s, s.mem, th, id, spurious).1;
            Held(th', q) + PutsIn(s.mem, th, Proceed(id, spurious), q) + AsNat(!HasHeld(th') && HasHeld(th) && th.p == q)
            == Held(th, q) + TakesOut(s.mem, th, q) + AsNat(th.RootTake? && id == q)
  {
    hide FirstFree, Placed, Owns, Moving, Sought, Place, Full, TakenBelow;
    ChainEffect(s.mem, th, q);
  }

  predicate HasHeld(th: Thread) {
    th.ListBack? || th.ListGive? || th.Uncount? || th.Unmanage? || th.Search? || th.SetBit?
  }

  lemma BlocksEffect(s0: State, s: State, th: Thread, id: Id, spurious: bool, q: Id)
    requires Ready(s0, s, th, id)
    ensures var (m', th') := Advance(s, s.mem, th, id, spurious);
            && Get(m', q).live == Get(s.mem, q).live && (q in s.mem.blocks ==> q in m'.blocks)
            && (Seeks(th') ==> forall i: nat | i < s.usable :: i in Get(m', q).bits <==> i in Get(s.mem, q).bits)
  {
    hide FirstFree, Owns, Moving, Sought, Full, Sum;
  }

  /** A block that is given up is full. */
  lemma GivesUp(s0: State, s: State, th: Thread, id: Id)
    requires Ready(s0, s, th, id) && th.Search? && th.n >= s.words
    ensures th.p in s0.mem.blocks && Full(s, th.p) && Full(s0, th.p)
  {
    assert Sought(s0, s, th, th.p);
  }

  /** A new block is made only when all stored ones are full. */
  lemma RootFull(s0: State, s: State, th: Thread, id: Id)
    requires Ready(s0, s, th, id) && th.RootTake?
    ensures AllFull(s0)
  {
    forall q: Id | Stored(s0.mem, q) > 0 ensures Full(s0, q) {
      assert Sought(s0, s, th, q);
      SumZero(IsIn(q), s.mem.slots);
    }
  }

  /** What is taken from the store was there when the call began. */
  lemma HeldOld(s0: State, s: State, th: Thread, id: Id)
    requires Ready(s0, s, th, id) && HasHeld(th) && !th.Search? && !th.SetBit?
    ensures th.p in s0.mem.blocks
  {
    assert Sought(s0, s, th, th.p);
  }

  /** Where the search goes on. */
  lemma PlaceStep(s0: State, s: State, t: nat, th: Thread, id: Id, spurious: bool)
    requires Ready(s0, s, th, id) && t < |s.threads|
    ensures var (m', th') := Advance(s, s.mem, th, id, spurious);
            Seeks(th') ==> Place(s0, s.(mem := m', threads := s.threads[t := th']), th')
  {
    hide Owns, Moving, Sum, Placed, Sought, Full;
    if th.Search? {
      SearchStep(s0, s, t, th, id, spurious);
    } else if th.SetBit? {
      SetStep(s0, s, t, th, id, spurious);
    } else if th.Unmanage? {
      HeldOld(s0, s, th, id);
    }
  }

  lemma SearchStep(s0: State, s: State, t: nat, th: Thread, id: Id, spurious: bool)
    requires Ready(s0, s, th, id) && t < |s.threads| && th.Search?
    ensures var (m', th') := Advance(s, s.mem, th, id, spurious);
            Place(s0, s.(mem := m', threads := s.threads[t := th']), th')
  {
    hide Owns, Moving, Sum, Placed, Sought;
    if th.n >= s.words {
      GivesUp(s0, s, th, id);
    }
  }

  lemma SetStep(s0: State, s: State, t: nat, th: Thread, id: Id, spurious: bool)
    requires Ready(s0, s, th, id) && t < |s.threads| && th.SetBit?
    ensures var (m', th') := Advance(s, s.mem, th, id, spurious);
            Seeks(th') ==> Place(s0, s.(mem := m', threads := s.threads[t := th']), th')
  {
    hide Owns, Moving, Sum, Placed, Sought, FirstFree;
  }

  lemma SoughtStep(s0: State, s: State, t: nat, th: Thread, id: Id, spurious: bool, q: Id)
    requires Ready(s0, s, th, id) && t < |s.threads|
    ensures var (m', th') := Advance(s, s.mem, th, id, spurious);
            Seeks(th') ==> Sought(s0, s.(mem := m', threads := s.threads[t := th']), th', q)
  {
    hide FirstFree, Placed, Owns, Moving, Stored, Sum, TakenBelow, Full, AllFull;
    var (m', th') := Advance(s, s.mem, th, id, spurious);
    assert Sought(s0, s, th, q);
    StoredEffect(s, s.mem, th, Proceed(id, spurious), q);
    HeldEffect(s0, s, th, id, spurious, q);
    BlocksEffect(s0, s, th, id, spurious, q);
    if th.RootTake? {
      RootFull(s0, s, th, id);
    } else if th.Search? && th.n >= s.words {
      GivesUp(s0, s, th, id);
    }
  }

  /** What is found may be given. */
  lemma FoundStep(s0: State, s: State, th: Thread, id: Id, spurious: bool)
    requires Ready(s0, s, th, id) && !Seeks(Advance(s, s.mem, th, id, spurious).1)
    ensures th.SetBit? && Advance(s, s.mem, th, id, spurious).1 == AddRef(th.p, th.bit) && Gives(s0, th.p, th.bit)
  {
    hide FirstFree, Owns, Moving, Sum, Placed;
    if HasBlock(th) {
      assert Sought(s0, s, th, th.p);
    }
  }

  /** A found item stays found until it is returned. */
  lemma CarriesOn(s: State, th: Thread, id: Id, spurious: bool)
    requires Found(th).Some? && !Seeks(th) && Sane(s.mem, th, s.usable)
    ensures var th' := Advance(s, s.mem, th, id, spurious).1;
            if th.Return? then th' == Idle else !Seeks(th') && Found(th') == Found(th)
    ensures forall q: Id :: Get(Advance(s, s.mem, th, id, spurious).0, q).live
                            == Get(s.mem, q).live + (if th.Return? && q == th.p then {th.bit} else {})
  {
    hide FirstFree, Owns, Moving, Sum, Placed;
  }

  /** Nobody frees a block that is given up: its items are taken. */
  lemma NotLast(s: State, t: nat)
    requires Inv(s) && t < |s.threads| && 0 < s.usable && forall u | 0 <= u < |s.threads| && u != t :: s.threads[u] == Idle
    requires s.threads[t].Drop? && s.threads[t].k.Retry? && Full(s, s.threads[t].p)
    ensures Get(s.mem, s.threads[t].p).ref > 1
  {
    var p := s.threads[t].p;
    assert BitOwned(s, p, 0) && RefExact(s, p);
    SumAtLeast(RefsOf(p), s.threads, t);
    SumZero(OwnsOf(p, 0), s.threads);
    assert 0 in Get(s.mem, p).live;
  }

  lemma StoredExists(s: State, q: Id)
    requires Inv(s) && Stored(s.mem, q) > 0
    ensures q in s.mem.blocks
  {
    assert RefExact(s, q);
  }

  /** A step of the call, nobody else being in one. */
  lemma StepUnder(s0: State, s: State, t: nat, id: Id, spurious: bool)
    requires Inv(s0) && Inv(s) && Under(s0, s, t) && Enabled(s, Action(t, Proceed(id, spurious)))
    requires 0 < s.usable <= 64 * s.words
    ensures var s' := Step(s, Action(t, Proceed(id, spurious)));
            Under(s0, s', t) || exists p, bit :: Returned(s0, s', t, p, bit)
  {
    hide Act, Advance, Sum, Stored, Sought, Place, Gives;
    var (s', th) := (Step(s, Action(t, Proceed(id, spurious))), s.threads[t]);
    var (m', th') := Advance(s, s.mem, th, id, spurious);
    StepIs(s, t, id, spurious);
    SaneNow(s, t);
    if Seeks(th) {
      IsReady(s0, s, t, id);
      forall q: Id ensures Get(m', q).live == Get(s0.mem, q).live && (Seeks(th') ==> Sought(s0, s', th', q)) {
        BlocksEffect(s0, s, th, id, spurious, q);
        SoughtStep(s0, s, t, th, id, spurious, q);
      }
      PlaceStep(s0, s, t, th, id, spurious);
      if !Seeks(th') {
        FoundStep(s0, s, th, id, spurious);
      }
    } else {
      CarriesOn(s, th, id, spurious);
      if th.Return? {
        assert Returned(s0, s', t, th.p, th.bit);
      }
    }
  }

  lemma StepIs(s: State, t: nat, id: Id, spurious: bool)
    requires Enabled(s, Action(t, Proceed(id, spurious)))
    ensures var (m', th') := Advance(s, s.mem, s.threads[t], id, spurious);
            Step(s, Action(t, Proceed(id, spurious))) == s.(mem := m', threads := s.threads[t := th'])
  {
  }

  lemma IsReady(s0: State, s: State, t: nat, id: Id)
    requires Inv(s0) && Inv(s) && Under(s0, s, t) && Seeks(s.threads[t]) && id !in s.mem.blocks && 0 < s.usable <= 64 * s.words
    ensures Ready(s0, s, s.threads[t], id)
  {
    hide Sum, Stored, Sought, Inv;
    SaneNow(s, t);
    if s.threads[t].Drop? {
      NotLast(s, t);
    }
    forall q: Id | Stored(s0.mem, q) > 0 ensures q in s0.mem.blocks {
      StoredExists(s0, q);
    }
  }

  // ---------------------------------------------------------------- a whole call

  /** Thread t goes on with its call. */
  ghost predicate GoesOn(s: State, s': State, t: nat) {
    exists a :: Enabled(s, a) && a.t == t && a.c.Proceed? && s' == Step(s, a)
  }

  /** Thread t makes a call of allocate() and nobody else does anything. */
  ghost predicate Alone(path: seq<State>, t: nat) {
    && |path| > 1 && Enabled(path[0], Action(t, Allocate)) && path[1] == Step(path[0], Action(t, Allocate))
    && forall i: nat | 0 < i && i + 1 < |path| :: GoesOn(path[i], path[i + 1], t)
  }

  lemma {:induction false} AlonePath(run: seq<State>, path: seq<State>, t: nat, k: nat)
    requires Runs.IsRun(Init, Next, run) && Alone(path, t) && path[0] == run[|run| - 1] && 0 < k < |path|
    requires forall u | 0 <= u < |path[0].threads| :: path[0].threads[u] == Idle
    requires 0 < path[0].usable <= 64 * path[0].words
    ensures Inv(path[0]) && Inv(path[k]) && path[k].usable == path[0].usable && path[k].words == path[0].words
    ensures Under(path[0], path[k], t) || exists p, bit :: Returned(path[0], path[k], t, p, bit)
  {
    hide Inv, Act, Under, Gives;
    RunInv(run, |run| - 1);
    if k == 1 {
      assert Next(path[0], path[1]);
      StepInv(path[0], path[1]);
      Begins(path[0], t);
    } else {
      AlonePath(run, path, t, k - 1);
      var i: nat := k - 1;
      assert GoesOn(path[i], path[i + 1], t);
      var a :| Enabled(path[i], a) && a.t == t && a.c.Proceed? && path[k] == Step(path[i], a);
      assert Next(path[i], path[k]);
      StepInv(path[i], path[k]);
      StepUnder(path[0], path[i], t, a.c.id, a.c.spurious);
    }
  }

  /** Called in any reachable state in which no other call is under way, and not disturbed, allocate() returns the lowest
      free item of a block that was stored; a new block, and its first item, only if every stored block was full. No
      other item changes hands. */
  lemma AllocatesLowest(run: seq<State>, path: seq<State>, t: nat) returns (p: Id, bit: nat)
    requires Runs.IsRun(Init, Next, run) && Alone(path, t) && path[0] == run[|run| - 1]
    requires forall u | 0 <= u < |path[0].threads| :: path[0].threads[u] == Idle
    requires 0 < path[0].usable <= 64 * path[0].words
    requires var end := path[|path| - 1]; t < |end.threads| && end.threads[t] == Idle
    ensures Returned(path[0], path[|path| - 1], t, p, bit)
  {
    AlonePath(run, path, t, |path| - 1);
    p, bit :| Returned(path[0], path[|path| - 1], t, p, bit);
  }
}
