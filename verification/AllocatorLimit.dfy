/** What the allocator's limit r does at 0: it is documented as no limit, and stops all recycling. */
module AllocatorLimit {
  import opened Counting
  import opened Allocator
  import Runs

  /** Nothing is stored or about to be. */
  ghost predicate Bare(s: State) {
    && s.mem.list == [] && s.mem.count >= 0
    && (forall n | 0 <= n < |s.mem.slots| :: s.mem.slots[n] == None)
    && forall t | 0 <= t < |s.threads| :: !Storing(s.threads[t])
  }

  predicate Storing(th: Thread) {
    th.ListBack? || th.ListGive? || th.Uncount? || th.Unmanage? || th.Manage? || th.SlotPut? || th.Recount? || th.ListPut?
  }

  lemma BareKept(s: State, s': State)
    requires Next(s, s') && (s.limit == 0 ==> Bare(s))
    ensures s'.limit == 0 ==> Bare(s')
  {
    hide FirstFree, Get, Sum, Refs, Moving, Owns;
    var a :| Enabled(s, a) && s' == Step(s, a);
  }

  /** With r = 0 no block is ever recycled, although 0 is documented as no limit. */
  lemma ZeroLimitStoresNothing(run: seq<State>, k: nat)
    requires Runs.IsRun(Init, Next, run) && k < |run| && run[k].limit == 0
    ensures run[k].mem.list == [] && forall n | 0 <= n < |run[k].mem.slots| :: run[k].mem.slots[n] == None
  {
    forall s: State, s': State | (s.limit == 0 ==> Bare(s)) && Next(s, s') ensures s'.limit == 0 ==> Bare(s') {
      BareKept(s, s');
    }
    Runs.Invariant(Init, Next, (s: State) => s.limit == 0 ==> Bare(s), run);
  }

  /** One thread, one slot, one bitmap word. */
  function Small(limit: nat, m: Mem, th: Thread): State {
    State(limit, 1, 1, m, [th])
  }

  function Start(limit: nat): State {
    Small(limit, Mem([None], [], 0, map[]), Idle)
  }

  ghost predicate Reached(s: State) {
    Runs.Leads(Next, Start(s.limit), s)
  }

  lemma Proceeds(limit: nat, m: Mem, th: Thread, c: Choice, m': Mem, th': Thread)
    requires Reached(Small(limit, m, th)) && Able(m, th, c)
    requires var r := Act(Small(limit, m, th), m, th, c);
             r == (m'.(slots := r.0.slots, blocks := r.0.blocks), th') && r.0.slots == m'.slots && r.0.blocks == m'.blocks
    ensures Reached(Small(limit, m', th'))
  {
    var s := Small(limit, m, th);
    var a := Action(0, c);
    assert Step(s, a).threads == [th'];
    Runs.Extend(Next, Start(limit), s, Step(s, a));
  }

  /** Memory with one block that has the given count, flag and bits. */
  function One(slot: Option<Id>, ref: nat, managed: bool, bits: set<nat>): Mem {
    Mem([slot], [], 0, map[0 := Block(ref, managed, bits, {})])
  }

  /** The first allocation takes a new block. */
  lemma FirstBlock(limit: nat)
    ensures Reached(Small(limit, One(None, 1, false, {}), Search(0, 0)))
  {
    var empty := Start(limit).mem;
    Runs.Stay(Next, Start(limit));
    Proceeds(limit, empty, Idle, Allocate, empty, SlotTake(0));
    Proceeds(limit, empty, SlotTake(0), Proceed(0, false), empty, SlotTake(1));
    Proceeds(limit, empty, SlotTake(1), Proceed(0, false), empty, ListTake);
    Proceeds(limit, empty, ListTake, Proceed(0, false), empty, RootTake);
    Proceeds(limit, empty, RootTake, Proceed(0, false), One(None, 1, false, {}), Search(0, 0));
  }

  /** It takes the first item of the block. */
  lemma FirstItem(limit: nat)
    ensures Reached(Small(limit, One(None, 2, false, {0}), SeeManaged(0, Got(0))))
  {
    FirstBlock(limit);
    assert FirstFree({}, 0, 64) == 0;
    Proceeds(limit, One(None, 1, false, {}), Search(0, 0), Proceed(1, false), One(None, 1, false, {}), SetBit(0, 0, 0));
    var none: set<nat> := {};
    assert none + {0} == {0};
    Proceeds(limit, One(None, 1, false, {}), SetBit(0, 0, 0), Proceed(1, false), One(None, 1, false, {0}), AddRef(0, 0));
    Proceeds(limit, One(None, 1, false, {0}), AddRef(0, 0), Proceed(1, false), One(None, 2, false, {0}), SeeManaged(0, Got(0)));
  }

  /** With a limit the block then goes into the slot. */
  lemma FirstStored(limit: nat)
    requires limit > 0
    ensures Reached(Small(limit, One(Some(0), 2, true, {0}), Return(0, 0)))
  {
    FirstItem(limit);
    var m, managed := One(None, 2, false, {0}), One(None, 2, true, {0});
    Proceeds(limit, m, SeeManaged(0, Got(0)), Proceed(1, false), m, SeeCount(0, Got(0)));
    Proceeds(limit, m, SeeCount(0, Got(0)), Proceed(1, false), m, Manage(0, Got(0)));
    Proceeds(limit, m, Manage(0, Got(0)), Proceed(1, false), managed, SlotPut(0, 0, Got(0)));
    Proceeds(limit, managed, SlotPut(0, 0, Got(0)), Proceed(1, false), One(Some(0), 2, true, {0}), Return(0, 0));
  }

  ghost predicate HoldsBlocks(s: State) {
    s.mem.list != [] || exists n :: 0 <= n < |s.mem.slots| && s.mem.slots[n].Some?
  }

  /** Some run recycles a block if and only if the limit is not 0. */
  lemma RecyclesIffLimited(limit: nat)
    ensures (exists run: seq<State>, k: nat ::
               Runs.IsRun(Init, Next, run) && k < |run| && run[k].limit == limit && HoldsBlocks(run[k]))
            <==> limit > 0
  {
    if limit == 0 {
      forall run: seq<State>, k: nat | Runs.IsRun(Init, Next, run) && k < |run| && run[k].limit == 0
        ensures !HoldsBlocks(run[k])
      {
        ZeroLimitStoresNothing(run, k);
      }
    } else {
      FirstStored(limit);
      var s := Small(limit, One(Some(0), 2, true, {0}), Return(0, 0));
      assert Start(limit).mem.slots == seq(1, _ => None);
      var run := Runs.RunTo(Init, Next, Start(limit), s);
      assert s.mem.slots[0].Some? && HoldsBlocks(run[|run| - 1]);
    }
  }
}
