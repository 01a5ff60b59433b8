/** The ref-counted block allocator (grid_allocator_t), used by any number of threads at once.

    A step is one atomic operation. A compare-and-swap that fails and is tried again changes nothing
    and is no step. The chain of recycled blocks is a sequence: the operation that links a block in
    front of the head it compared with puts the block in front of the sequence (AllocatorChain follows
    the pointers). */
module Allocator {
  import opened Counting
  import Runs

  type Id = nat // a block

  /** `live` is auxiliary: the items that the user holds. */
  datatype Block = Block(ref: nat, managed: bool, bits: set<nat>, live: set<nat>)

  /** What happens after recycle() or try_free(). */
  datatype Then = Done | Retry | Got(bit: nat)

  datatype Thread =
    | Idle
    | SlotTake(n: nat)                     // before exchanging slot n with null
    | ListTake                             // before exchanging the recycled list with null
    | ListBack(p: Id, rest: seq<Id>)       // before swapping the rest back into an empty list
    | ListGive(p: Id, rest: seq<Id>)       // giving the rest back one by one
    | Uncount(p: Id)                       // before --recycle_count
    | Unmanage(p: Id)                      // before managed = 0
    | RootTake                             // before allocating from the root allocator
    | Search(p: Id, n: nat)                // before loading bitmap word n
    | SetBit(p: Id, n: nat, bit: nat)      // before fetch_or
    | AddRef(p: Id, bit: nat)              // the bit is ours, before ++ref_count
    | Return(p: Id, bit: nat)
    | ClearBit(p: Id, bit: nat)            // deallocate: before fetch_and
    | SeeManaged(p: Id, k: Then)           // recycle: before loading managed
    | SeeCount(p: Id, k: Then)
    | Manage(p: Id, k: Then)               // before exchanging managed with 1
    | SlotPut(p: Id, n: nat, k: Then)      // before swapping p into slot n
    | Recount(p: Id, k: Then)              // before ++recycle_count
    | ListPut(p: Id, k: Then)              // before linking p in front of the list
    | Drop(p: Id, k: Then)                 // try_free: before --ref_count
    | Free(p: Id, k: Then)                 // the count was 1: before giving p to the root allocator

  datatype Mem = Mem(slots: seq<Option<Id>>, list: seq<Id>, count: int, blocks: map<Id, Block>)

  /** `limit` is r, `words` the number of bitmap words, `usable` the number of items behind the header. */
  datatype State = State(limit: nat, words: nat, usable: nat, mem: Mem, threads: seq<Thread>)

  /** The choice that a step leaves open: which item to free, what the root allocator gives,
      whether a weak compare-and-swap fails for no reason. */
  datatype Choice = Allocate | Deallocate(p: Id, bit: nat) | Proceed(id: Id, spurious: bool)

  datatype Action = Action(t: nat, c: Choice)

  ghost predicate Init(s: State) {
    && s.mem == Mem(seq(|s.mem.slots|, _ => None), [], 0, map[])
    && forall t | 0 <= t < |s.threads| :: s.threads[t] == Idle
  }

  predicate Enabled(s: State, a: Action) {
    && a.t < |s.threads|
    && match a.c
       case Allocate => s.threads[a.t] == Idle
       case Deallocate(p, bit) => s.threads[a.t] == Idle && p in s.mem.blocks && bit in s.mem.blocks[p].live
       case Proceed(id, _) => s.threads[a.t] != Idle && id !in s.mem.blocks
  }

  function Step(s: State, a: Action): State
    requires Enabled(s, a)
  {
    var (m, th) := Act(s, s.mem, s.threads[a.t], a.c);
    s.(mem := m, threads := s.threads[a.t := th])
  }

  function Put(m: Mem, p: Id, b: Block): Mem {
    m.(blocks := m.blocks[p := b])
  }

  function Get(m: Mem, p: Id): Block {
    if p in m.blocks then m.blocks[p] else Block(0, false, {}, {})
  }

  /** The first bit from lo on that is not set, or hi. */
  function FirstFree(bits: set<nat>, lo: nat, hi: nat): (r: nat)
    requires lo <= hi
    ensures lo <= r <= hi && (r < hi ==> r !in bits) && forall i | lo <= i < r :: i in bits
    decreases hi - lo
  {
    if lo >= hi || lo !in bits then lo else FirstFree(bits, lo + 1, hi)
  }

  function After(p: Id, k: Then): Thread {
    match k
    case Done => Idle
    case Retry => SlotTake(0)
    case Got(bit) => Return(p, bit)
  }

  function Act(s: State, m: Mem, th: Thread, c: Choice): (Mem, Thread) {
    match c
    case Allocate => (m, SlotTake(0))
    case Deallocate(p, bit) =>
      var b := Get(m, p);
      (Put(m, p, b.(live := b.live - {bit})), ClearBit(p, bit))
    case Proceed(id, spurious) => Advance(s, m, th, id, spurious)
  }

  function Advance(s: State, m: Mem, th: Thread, id: Id, spurious: bool): (Mem, Thread) {
    match th
    case Idle => (m, th)
    case SlotTake(n) =>
      if n >= |m.slots| then (m, ListTake)
      else (m.(slots := m.slots[n := None]), if m.slots[n].Some? then Unmanage(m.slots[n].value) else SlotTake(n + 1))
    case ListTake =>
      (m.(list := []), if m.list == [] then RootTake else ListBack(m.list[0], m.list[1..]))
    case ListBack(p, rest) =>
      if m.list == [] then (m.(list := rest), Uncount(p)) else (m, ListGive(p, rest))
    case ListGive(p, rest) =>
      if rest == [] then (m, Uncount(p)) else (m.(list := [rest[0]] + m.list), ListGive(p, rest[1..]))
    case Uncount(p) => (m.(count := m.count - 1), Unmanage(p))
    case Unmanage(p) => (Put(m, p, Get(m, p).(managed := false)), Search(p, 0))
    case RootTake => (Put(m, id, Block(1, false, {}, {})), Search(id, 0))
    case Search(p, n) =>
      if n >= s.words then (m, Drop(p, Retry))
      else
        var bit := FirstFree(Get(m, p).bits, 64 * n, 64 * n + 64);
        (m, if bit < 64 * n + 64 then SetBit(p, n, bit) else Search(p, n + 1))
    case SetBit(p, n, bit) =>
      var b := Get(m, p);
      (Put(m, p, b.(bits := b.bits + {bit})),
       if bit !in b.bits && bit < s.usable then AddRef(p, bit) else Search(p, n + 1))
    case AddRef(p, bit) => (Put(m, p, Get(m, p).(ref := Get(m, p).ref + 1)), SeeManaged(p, Got(bit)))
    case Return(p, bit) => (Put(m, p, Get(m, p).(live := Get(m, p).live + {bit})), Idle)
    case ClearBit(p, bit) => (Put(m, p, Get(m, p).(bits := Get(m, p).bits - {bit})), SeeManaged(p, Done))
    case SeeManaged(p, k) => (m, if Get(m, p).managed then Drop(p, k) else SeeCount(p, k))
    case SeeCount(p, k) => (m, if m.count < s.limit then Manage(p, k) else Drop(p, k))
    case Manage(p, k) =>
      (Put(m, p, Get(m, p).(managed := true)), if Get(m, p).managed then Drop(p, k) else SlotPut(p, 0, k))
    case SlotPut(p, n, k) =>
      if n >= |m.slots| then (m, Recount(p, k))
      else if m.slots[n].None? && !spurious then (m.(slots := m.slots[n := Some(p)]), After(p, k))
      else (m, SlotPut(p, n + 1, k))
    case Recount(p, k) => (m.(count := m.count + 1), ListPut(p, k))
    case ListPut(p, k) => (m.(list := [p] + m.list), After(p, k))
    case Drop(p, k) =>
      var b := Get(m, p);
      (Put(m, p, b.(ref := if b.ref > 0 then b.ref - 1 else 0)), if b.ref == 1 then Free(p, k) else After(p, k))
    case Free(p, k) => (m.(blocks := m.blocks - {p}), After(p, k))
  }

  ghost predicate Next(s: State, s': State) {
    exists a :: Enabled(s, a) && s' == Step(s, a)
  }

  // ---------------------------------------------------------------- who refers to a block

  function SameAs(p: Id): Id -> nat {
    q => AsNat(q == p)
  }

  function IsIn(p: Id): Option<Id> -> nat {
    o => AsNat(o == Some(p))
  }

  /** How often p is stored. */
  function Stored(m: Mem, p: Id): nat {
    Sum(IsIn(p), m.slots) + Sum(SameAs(p), m.list)
  }

  /** The references to p that a thread accounts for: the block it holds, the chain it took, and the
      item it is about to return or to free. */
  function Refs(th: Thread, p: Id): nat {
    match th
    case Idle => 0
    case SlotTake(_) => 0
    case ListTake => 0
    case RootTake => 0
    case ListBack(q, rest) => AsNat(q == p) + Sum(SameAs(p), rest)
    case ListGive(q, rest) => AsNat(q == p) + Sum(SameAs(p), rest)
    case Free(q, k) => AsNat(q == p && k.Got?)
    case SeeManaged(q, k) => AsNat(q == p) + AsNat(q == p && k.Got?)
    case SeeCount(q, k) => AsNat(q == p) + AsNat(q == p && k.Got?)
    case Manage(q, k) => AsNat(q == p) + AsNat(q == p && k.Got?)
    case SlotPut(q, _, k) => AsNat(q == p) + AsNat(q == p && k.Got?)
    case Recount(q, k) => AsNat(q == p) + AsNat(q == p && k.Got?)
    case ListPut(q, k) => AsNat(q == p) + AsNat(q == p && k.Got?)
    case Drop(q, k) => AsNat(q == p) + AsNat(q == p && k.Got?)
    case _ => AsNat(th.p == p)
  }

  /** p is on its way into the store or out of it. */
  function Moving(th: Thread, p: Id): nat {
    match th
    case ListBack(q, rest) => AsNat(q == p) + Sum(SameAs(p), rest)
    case ListGive(q, rest) => AsNat(q == p) + Sum(SameAs(p), rest)
    case Uncount(q) => AsNat(q == p)
    case Unmanage(q) => AsNat(q == p)
    case SlotPut(q, _, _) => AsNat(q == p)
    case Recount(q, _) => AsNat(q == p)
    case ListPut(q, _) => AsNat(q == p)
    case _ => 0
  }

  /** The thread owns bit i of p: it has set it and not yet returned the item, or will clear it. */
  function Owns(th: Thread, p: Id, i: nat): nat {
    match th
    case AddRef(q, bit) => AsNat(q == p && bit == i)
    case Return(q, bit) => AsNat(q == p && bit == i)
    case ClearBit(q, bit) => AsNat(q == p && bit == i)
    case SeeManaged(q, k) => AsNat(q == p && k == Got(i))
    case SeeCount(q, k) => AsNat(q == p && k == Got(i))
    case Manage(q, k) => AsNat(q == p && k == Got(i))
    case SlotPut(q, _, k) => AsNat(q == p && k == Got(i))
    case Recount(q, k) => AsNat(q == p && k == Got(i))
    case ListPut(q, k) => AsNat(q == p && k == Got(i))
    case Drop(q, k) => AsNat(q == p && k == Got(i))
    case Free(q, k) => AsNat(q == p && k == Got(i))
    case _ => 0
  }

  function Frees(th: Thread, p: Id): nat {
    AsNat(th.Free? && th.p == p)
  }

  /** Blocks counted in recycle_count that are with this thread. */
  function Counted(th: Thread): nat {
    match th
    case ListBack(_, rest) => 1 + |rest|
    case ListGive(_, rest) => 1 + |rest|
    case Uncount(_) => 1
    case ListPut(_, _) => 1
    case _ => 0
  }

  function RefsOf(p: Id): Thread -> nat {
    th => Refs(th, p)
  }

  function MovingOf(p: Id): Thread -> nat {
    th => Moving(th, p)
  }

  function OwnsOf(p: Id, i: nat): Thread -> nat {
    th => Owns(th, p, i)
  }

  function FreesOf(p: Id): Thread -> nat {
    th => Frees(th, p)
  }

  // ---------------------------------------------------------------- the invariant

  /** ref_count is exact; a block that does not exist counts as 0 and nothing refers to it. */
  ghost predicate RefExact(s: State, p: Id) {
    Get(s.mem, p).ref == |Get(s.mem, p).live| + Stored(s.mem, p) + Sum(RefsOf(p), s.threads)
  }

  /** managed says whether p is stored or on its way, once. */
  ghost predicate ManagedExact(s: State, p: Id) {
    AsNat(Get(s.mem, p).managed) == Stored(s.mem, p) + Sum(MovingOf(p), s.threads)
  }

  /** A bit that stands for an item has exactly one owner while it is set, and none otherwise; the bits behind
      the last item have none. */
  ghost predicate BitOwned(s: State, p: Id, i: nat) {
    AsNat(i in Get(s.mem, p).live) + Sum(OwnsOf(p, i), s.threads) == AsNat(i in Get(s.mem, p).bits && i < s.usable)
  }

  /** A block with count 0 is just being freed, by one thread. */
  ghost predicate FreeExact(s: State, p: Id) {
    AsNat(p in s.mem.blocks && s.mem.blocks[p].ref == 0) == Sum(FreesOf(p), s.threads)
  }

  /** recycle_count is exact. */
  ghost predicate CountExact(s: State) {
    s.mem.count == |s.mem.list| + Sum(Counted, s.threads)
  }

  ghost predicate Inv(s: State) {
    && (forall p :: RefExact(s, p))
    && (forall p :: ManagedExact(s, p))
    && (forall p, i :: BitOwned(s, p, i))
    && (forall p :: FreeExact(s, p))
    && CountExact(s)
  }

  // ---------------------------------------------------------------- what one step changes

  /** In recycle() or try_free(). */
  predicate Recycling(th: Thread) {
    th.SeeManaged? || th.SeeCount? || th.Manage? || th.SlotPut? || th.Recount? || th.ListPut? || th.Drop? || th.Free?
  }

  predicate HasBlock(th: Thread) {
    !th.Idle? && !th.SlotTake? && !th.ListTake? && !th.RootTake?
  }

  /** The bits of its block that the acting thread owns. */
  ghost predicate Placed(b: Block, th: Thread, usable: nat)
    requires HasBlock(th)
  {
    && (forall i: nat | Owns(th, th.p, i) > 0 :: i in b.bits && i !in b.live && i < usable)
    && (th.Free? ==> forall i: nat | i < usable :: i !in b.bits)
  }

  /** What the invariant says to the thread that acts. */
  ghost predicate Sane(m: Mem, th: Thread, usable: nat) {
    HasBlock(th) ==>
      var q := th.p;
      && q in m.blocks
      && (th.Free? ==> m.blocks[q].ref == 0 && m.blocks[q].live == {} && !m.blocks[q].managed && !th.k.Got?)
      && (!th.Free? ==> Refs(th, q) <= m.blocks[q].ref)
      && Placed(m.blocks[q], th, usable)
      && (Moving(th, q) > 0 ==> m.blocks[q].managed)
  }

  ghost predicate Able(m: Mem, th: Thread, c: Choice) {
    match c
    case Allocate => th == Idle
    case Deallocate(p, bit) => th == Idle && p in m.blocks && bit in m.blocks[p].live
    case Proceed(id, _) => th != Idle && id !in m.blocks
  }

  lemma SumOnto<T>(w: T -> nat, x: T, s: seq<T>)
    ensures Sum(w, [x] + s) == w(x) + Sum(w, s)
  {
    assert ([x] + s)[1..] == s;
  }

  /** What comes out of the store and what goes in, as the acting thread sees it. */
  function TakesOut(m: Mem, th: Thread, p: Id): nat {
    match th
    case SlotTake(n) => if n < |m.slots| then IsIn(p)(m.slots[n]) else 0
    case ListTake => Sum(SameAs(p), m.list)
    case _ => 0
  }

  function PutsIn(m: Mem, th: Thread, c: Choice, p: Id): nat {
    match th
    case ListBack(_, rest) => if m.list == [] then Sum(SameAs(p), rest) else 0
    case ListGive(_, rest) => if rest != [] then AsNat(rest[0] == p) else 0
    case SlotPut(q, n, _) => if n < |m.slots| && m.slots[n].None? && !(c.Proceed? && c.spurious) then AsNat(q == p) else 0
    case ListPut(q, _) => AsNat(q == p)
    case _ => 0
  }

  lemma SlotsEffect(s: State, m: Mem, th: Thread, c: Choice, p: Id)
    requires Able(m, th, c) && (th.SlotTake? || th.SlotPut?)
    ensures Stored(Act(s, m, th, c).0, p) + TakesOut(m, th, p) == Stored(m, p) + PutsIn(m, th, c, p)
  {
    hide FirstFree, Refs, Owns, Moving, Sum;
    if th.n < |m.slots| {
      SumUpdate(IsIn(p), m.slots, th.n, if th.SlotTake? then None else Some(th.p));
    }
  }

  lemma ListEffect(s: State, m: Mem, th: Thread, c: Choice, p: Id)
    requires Able(m, th, c) && !th.SlotTake? && !th.SlotPut?
    ensures Stored(Act(s, m, th, c).0, p) + TakesOut(m, th, p) == Stored(m, p) + PutsIn(m, th, c, p)
  {
    hide FirstFree, Refs, Owns, Moving;
    match th
    case ListGive(_, rest) => if rest != [] { SumOnto(SameAs(p), rest[0], m.list); }
    case ListPut(q, _) => SumOnto(SameAs(p), q, m.list);
    case _ =>
  }

  /** How the store changes. */
  lemma StoredEffect(s: State, m: Mem, th: Thread, c: Choice, p: Id)
    requires Able(m, th, c)
    ensures Stored(Act(s, m, th, c).0, p) + TakesOut(m, th, p) == Stored(m, p) + PutsIn(m, th, c, p)
  {
    hide FirstFree, Refs, Owns, Moving;
    if th.SlotTake? || th.SlotPut? {
      SlotsEffect(s, m, th, c, p);
    } else {
      ListEffect(s, m, th, c, p);
    }
  }

  lemma ChainEffect(m: Mem, th: Thread, p: Id)
    ensures m.list != [] ==> Sum(SameAs(p), m.list) == AsNat(m.list[0] == p) + Sum(SameAs(p), m.list[1..])
    ensures m.list == [] ==> Sum(SameAs(p), m.list) == 0
    ensures (th.ListGive? || th.ListBack?) && th.rest != [] ==>
              Sum(SameAs(p), th.rest) == AsNat(th.rest[0] == p) + Sum(SameAs(p), th.rest[1..])
    ensures (th.ListGive? || th.ListBack?) && th.rest == [] ==> Sum(SameAs(p), th.rest) == 0
  {
  }

  lemma LiveEffect(s: State, m: Mem, th: Thread, c: Choice, p: Id)
    requires Able(m, th, c) && Sane(m, th, s.usable)
    ensures |Get(Act(s, m, th, c).0, p).live| + (if c.Deallocate? then AsNat(c.p == p) else 0)
            == |Get(m, p).live| + (if th.Return? then AsNat(th.p == p) else 0)
  {
    if th.Return? {
      assert Owns(th, th.p, th.bit) > 0;
    }
    hide Placed, Owns, Refs, Moving, Sum;
  }

  lemma FieldEffect(s: State, m: Mem, th: Thread, c: Choice, p: Id)
    requires Able(m, th, c) && Sane(m, th, s.usable)
    ensures Get(Act(s, m, th, c).0, p).ref + (if th.Drop? then AsNat(th.p == p) else 0)
            == Get(m, p).ref + (if th.AddRef? then AsNat(th.p == p) else 0) + (if th.RootTake? then AsNat(c.id == p) else 0)
  {
    hide Placed, Owns, Moving;
  }

  lemma RefsEffectHolding(s: State, m: Mem, th: Thread, c: Choice, p: Id)
    requires Able(m, th, c) && Sane(m, th, s.usable) && !Recycling(th)
    ensures Refs(Act(s, m, th, c).1, p) + PutsIn(m, th, c, p)
            + (if th.Drop? || th.Return? then AsNat(th.p == p) else 0)
            == Refs(th, p) + TakesOut(m, th, p)
            + (if th.AddRef? then AsNat(th.p == p) else 0) + (if th.RootTake? then AsNat(c.id == p) else 0)
            + (if c.Deallocate? then AsNat(c.p == p) else 0)
  {
    hide Sum, Put, Get, FirstFree, Moving, Owns, Placed;
    ChainEffect(m, th, p);
  }

  lemma RefsEffectRecycling(s: State, m: Mem, th: Thread, c: Choice, p: Id)
    requires Able(m, th, c) && Sane(m, th, s.usable) && Recycling(th)
    ensures Refs(Act(s, m, th, c).1, p) + PutsIn(m, th, c, p)
            + (if th.Drop? || th.Return? then AsNat(th.p == p) else 0)
            == Refs(th, p) + TakesOut(m, th, p)
            + (if th.AddRef? then AsNat(th.p == p) else 0) + (if th.RootTake? then AsNat(c.id == p) else 0)
            + (if c.Deallocate? then AsNat(c.p == p) else 0)
  {
    hide Sum, Put, Get, FirstFree, Moving, Owns, Placed;
  }

  lemma RefsEffect(s: State, m: Mem, th: Thread, c: Choice, p: Id)
    requires Able(m, th, c) && Sane(m, th, s.usable)
    ensures Refs(Act(s, m, th, c).1, p) + PutsIn(m, th, c, p)
            + (if th.Drop? || th.Return? then AsNat(th.p == p) else 0)
            == Refs(th, p) + TakesOut(m, th, p)
            + (if th.AddRef? then AsNat(th.p == p) else 0) + (if th.RootTake? then AsNat(c.id == p) else 0)
            + (if c.Deallocate? then AsNat(c.p == p) else 0)
  {
    if Recycling(th) {
      RefsEffectRecycling(s, m, th, c, p);
    } else {
      RefsEffectHolding(s, m, th, c, p);
    }
  }

  lemma RefEffect(s: State, m: Mem, th: Thread, c: Choice, p: Id)
    requires Able(m, th, c) && Sane(m, th, s.usable)
    ensures var (m', th') := Act(s, m, th, c);
            Get(m', p).ref + |Get(m, p).live| + Stored(m, p) + Refs(th, p)
            == Get(m, p).ref + |Get(m', p).live| + Stored(m', p) + Refs(th', p)
  {
    hide Act, Stored, Refs, PutsIn, TakesOut;
    StoredEffect(s, m, th, c, p);
    LiveEffect(s, m, th, c, p);
    FieldEffect(s, m, th, c, p);
    RefsEffect(s, m, th, c, p);
  }

  lemma FlagEffect(s: State, m: Mem, th: Thread, c: Choice, p: Id)
    requires Able(m, th, c) && Sane(m, th, s.usable)
    ensures AsNat(Get(Act(s, m, th, c).0, p).managed) + (if th.Unmanage? then AsNat(th.p == p) else 0)
            == AsNat(Get(m, p).managed) + (if th.Manage? && !Get(m, th.p).managed then AsNat(th.p == p) else 0)
  {
    hide Sum, FirstFree, Placed, Owns;
  }

  lemma MovingEffectHolding(s: State, m: Mem, th: Thread, c: Choice, p: Id)
    requires Able(m, th, c) && Sane(m, th, s.usable) && !Recycling(th)
    ensures Moving(Act(s, m, th, c).1, p) + PutsIn(m, th, c, p) + (if th.Unmanage? then AsNat(th.p == p) else 0)
            == Moving(th, p) + TakesOut(m, th, p)
  {
    hide Sum, FirstFree, Put, Placed, Owns;
    ChainEffect(m, th, p);
  }

  lemma MovingEffectRecycling(s: State, m: Mem, th: Thread, c: Choice, p: Id)
    requires Able(m, th, c) && Sane(m, th, s.usable) && Recycling(th)
    ensures Moving(Act(s, m, th, c).1, p) + PutsIn(m, th, c, p)
            == Moving(th, p) + TakesOut(m, th, p) + (if th.Manage? && !Get(m, th.p).managed then AsNat(th.p == p) else 0)
  {
    hide Sum, FirstFree, Put, Placed, Owns;
  }

  lemma MovingEffect(s: State, m: Mem, th: Thread, c: Choice, p: Id)
    requires Able(m, th, c) && Sane(m, th, s.usable)
    ensures Moving(Act(s, m, th, c).1, p) + PutsIn(m, th, c, p) + (if th.Unmanage? then AsNat(th.p == p) else 0)
            == Moving(th, p) + TakesOut(m, th, p) + (if th.Manage? && !Get(m, th.p).managed then AsNat(th.p == p) else 0)
  {
    if Recycling(th) {
      MovingEffectRecycling(s, m, th, c, p);
    } else {
      MovingEffectHolding(s, m, th, c, p);
    }
  }

  lemma ManagedEffect(s: State, m: Mem, th: Thread, c: Choice, p: Id)
    requires Able(m, th, c) && Sane(m, th, s.usable)
    ensures var (m', th') := Act(s, m, th, c);
            AsNat(Get(m', p).managed) + Stored(m, p) + Moving(th, p)
            == AsNat(Get(m, p).managed) + Stored(m', p) + Moving(th', p)
  {
    hide Act, Stored, Moving, PutsIn, TakesOut;
    StoredEffect(s, m, th, c, p);
    FlagEffect(s, m, th, c, p);
    MovingEffect(s, m, th, c, p);
  }

  lemma BitEffectHolding(s: State, m: Mem, th: Thread, c: Choice, p: Id, i: nat)
    requires Able(m, th, c) && Sane(m, th, s.usable) && !Recycling(th)
    ensures var (m', th') := Act(s, m, th, c);
            AsNat(i in Get(m', p).live) + Owns(th', p, i) + AsNat(i in Get(m, p).bits && i < s.usable)
            == AsNat(i in Get(m, p).live) + Owns(th, p, i) + AsNat(i in Get(m', p).bits && i < s.usable)
  {
    hide Sum, Refs, Moving, FirstFree;
  }

  lemma BitEffectRecycling(s: State, m: Mem, th: Thread, c: Choice, p: Id, i: nat)
    requires Able(m, th, c) && Sane(m, th, s.usable) && Recycling(th) && !(th.Free? && th.p == p)
    ensures var (m', th') := Act(s, m, th, c);
            AsNat(i in Get(m', p).live) + Owns(th', p, i) + AsNat(i in Get(m, p).bits && i < s.usable)
            == AsNat(i in Get(m, p).live) + Owns(th, p, i) + AsNat(i in Get(m', p).bits && i < s.usable)
  {
    hide Sum, Refs, Moving, FirstFree, Placed;
  }

  lemma BitEffect(s: State, m: Mem, th: Thread, c: Choice, p: Id, i: nat)
    requires Able(m, th, c) && Sane(m, th, s.usable) && !(th.Free? && th.p == p)
    ensures var (m', th') := Act(s, m, th, c);
            AsNat(i in Get(m', p).live) + Owns(th', p, i) + AsNat(i in Get(m, p).bits && i < s.usable)
            == AsNat(i in Get(m, p).live) + Owns(th, p, i) + AsNat(i in Get(m', p).bits && i < s.usable)
  {
    if Recycling(th) {
      BitEffectRecycling(s, m, th, c, p, i);
    } else {
      BitEffectHolding(s, m, th, c, p, i);
    }
  }

  lemma FreeEffect(s: State, m: Mem, th: Thread, c: Choice, p: Id)
    requires Able(m, th, c) && Sane(m, th, s.usable)
    ensures var (m', th') := Act(s, m, th, c);
            AsNat(p in m'.blocks && m'.blocks[p].ref == 0) + Frees(th, p)
            == AsNat(p in m.blocks && m.blocks[p].ref == 0) + Frees(th', p)
  {
    hide Placed, Owns, Moving, Sum;
  }

  lemma CountEffect(s: State, m: Mem, th: Thread, c: Choice)
    requires Able(m, th, c)
    ensures var (m', th') := Act(s, m, th, c); m'.count + |m.list| + Counted(th) == m.count + |m'.list| + Counted(th')
  {
  }

  // ---------------------------------------------------------------- every step keeps the invariant

  /** Nothing moves or owns what nothing refers to. */
  lemma Unreferred(s: State, p: Id)
    requires RefExact(s, p) && Get(s.mem, p).ref == 0
    ensures Get(s.mem, p).live == {} && Stored(s.mem, p) == Sum(RefsOf(p), s.threads) == Sum(MovingOf(p), s.threads) == 0
    ensures forall i :: Sum(OwnsOf(p, i), s.threads) == 0
  {
    SumBelow(MovingOf(p), RefsOf(p), s.threads);
    forall i ensures Sum(OwnsOf(p, i), s.threads) == 0 {
      SumBelow(OwnsOf(p, i), RefsOf(p), s.threads);
    }
  }

  lemma SaneNow(s: State, t: nat)
    requires Inv(s) && t < |s.threads|
    ensures Sane(s.mem, s.threads[t], s.usable)
  {
    var m, th := s.mem, s.threads[t];
    if HasBlock(th) {
      var q := th.p;
      assert RefExact(s, q) && FreeExact(s, q) && ManagedExact(s, q);
      SumAtLeast(RefsOf(q), s.threads, t);
      SumAtLeast(FreesOf(q), s.threads, t);
      SumAtLeast(MovingOf(q), s.threads, t);
      if th.Free? {
        Unreferred(s, q);
      }
      forall i: nat | Owns(th, q, i) > 0 ensures i in Get(m, q).bits && i !in Get(m, q).live && i < s.usable {
        assert BitOwned(s, q, i);
        SumAtLeast(OwnsOf(q, i), s.threads, t);
      }
      if th.Free? {
        forall i: nat | i < s.usable ensures i !in m.blocks[q].bits {
          assert BitOwned(s, q, i);
        }
      }
    }
  }

  lemma StepRef(s: State, a: Action, p: Id)
    requires Inv(s) && Enabled(s, a)
    ensures RefExact(Step(s, a), p)
  {
    var th' := Act(s, s.mem, s.threads[a.t], a.c).1;
    SaneNow(s, a.t);
    RefEffect(s, s.mem, s.threads[a.t], a.c, p);
    SumUpdate(RefsOf(p), s.threads, a.t, th');
    assert RefExact(s, p);
    hide Act, Stored, Sum, Refs;
  }

  lemma StepManaged(s: State, a: Action, p: Id)
    requires Inv(s) && Enabled(s, a)
    ensures ManagedExact(Step(s, a), p)
  {
    var th' := Act(s, s.mem, s.threads[a.t], a.c).1;
    SaneNow(s, a.t);
    ManagedEffect(s, s.mem, s.threads[a.t], a.c, p);
    SumUpdate(MovingOf(p), s.threads, a.t, th');
    assert ManagedExact(s, p);
    hide Act, Stored, Sum, Moving;
  }

  lemma StepBit(s: State, a: Action, p: Id, i: nat)
    requires Inv(s) && Enabled(s, a)
    ensures BitOwned(Step(s, a), p, i)
  {
    var th' := Act(s, s.mem, s.threads[a.t], a.c).1;
    SaneNow(s, a.t);
    var th := s.threads[a.t];
    if th.Free? && th.p == p {
      assert RefExact(s, p);
      Unreferred(s, p);
    } else {
      BitEffect(s, s.mem, th, a.c, p, i);
    }
    SumUpdate(OwnsOf(p, i), s.threads, a.t, th');
    assert BitOwned(s, p, i);
    hide Act, Sum, Owns;
  }

  lemma StepFree(s: State, a: Action, p: Id)
    requires Inv(s) && Enabled(s, a)
    ensures FreeExact(Step(s, a), p)
  {
    var th' := Act(s, s.mem, s.threads[a.t], a.c).1;
    SaneNow(s, a.t);
    FreeEffect(s, s.mem, s.threads[a.t], a.c, p);
    SumUpdate(FreesOf(p), s.threads, a.t, th');
    assert FreeExact(s, p);
    hide Act, Sum, Frees;
  }

  lemma StepInv(s: State, s': State)
    requires Inv(s) && Next(s, s')
    ensures Inv(s')
  {
    var a :| Enabled(s, a) && s' == Step(s, a);
    forall p ensures RefExact(s', p) && ManagedExact(s', p) && FreeExact(s', p) {
      StepRef(s, a, p);
      StepManaged(s, a, p);
      StepFree(s, a, p);
    }
    forall p, i ensures BitOwned(s', p, i) {
      StepBit(s, a, p, i);
    }
    CountEffect(s, s.mem, s.threads[a.t], a.c);
    SumUpdate(Counted, s.threads, a.t, s'.threads[a.t]);
  }

  lemma InitInv(s: State)
    requires Init(s)
    ensures Inv(s)
  {
    forall p ensures RefExact(s, p) && ManagedExact(s, p) && FreeExact(s, p) {
      SumZero(IsIn(p), s.mem.slots);
      SumZero(RefsOf(p), s.threads);
      SumZero(MovingOf(p), s.threads);
      SumZero(FreesOf(p), s.threads);
    }
    forall p, i ensures BitOwned(s, p, i) {
      SumZero(OwnsOf(p, i), s.threads);
    }
    SumZero(Counted, s.threads);
  }

  // ---------------------------------------------------------------- theorems over every run

  lemma RunInv(run: seq<State>, k: nat)
    requires Runs.IsRun(Init, Next, run) && k < |run|
    ensures Inv(run[k])
  {
    forall s | Init(s) ensures Inv(s) { InitInv(s); }
    forall s, s' | Inv(s) && Next(s, s') ensures Inv(s') { StepInv(s, s'); }
    Runs.Invariant(Init, Next, Inv, run);
  }

  /** Every reference is counted: live items, the store, and what the threads hold. */
  lemma CountsReferences(run: seq<State>, k: nat, p: Id)
    requires Runs.IsRun(Init, Next, run) && k < |run|
    ensures var s := run[k];
            && (p in s.mem.blocks ==>
                  s.mem.blocks[p].ref == |s.mem.blocks[p].live| + Stored(s.mem, p) + Sum(RefsOf(p), s.threads))
            && (p !in s.mem.blocks ==> Stored(s.mem, p) + Sum(RefsOf(p), s.threads) == 0)
  {
    RunInv(run, k);
    assert RefExact(run[k], p);
  }

  /** A block is stored at most once, and managed exactly while it is stored or on its way. */
  lemma StoredOnce(run: seq<State>, k: nat, p: Id)
    requires Runs.IsRun(Init, Next, run) && k < |run|
    ensures var s := run[k];
            && Stored(s.mem, p) + Sum(MovingOf(p), s.threads) <= 1
            && (p in s.mem.blocks ==> AsNat(s.mem.blocks[p].managed) == Stored(s.mem, p) + Sum(MovingOf(p), s.threads))
  {
    RunInv(run, k);
    assert ManagedExact(run[k], p);
  }

  /** A block goes back to the root allocator only once nothing refers to it any more, and once. */
  lemma FreedUnreferred(run: seq<State>, k: nat, t: nat)
    requires Runs.IsRun(Init, Next, run) && k < |run| && t < |run[k].threads| && run[k].threads[t].Free?
    ensures var s, p := run[k], run[k].threads[t].p;
            && p in s.mem.blocks && s.mem.blocks[p].live == {} && Stored(s.mem, p) == 0 && !s.mem.blocks[p].managed
            && forall u | 0 <= u < |s.threads| && u != t ::
                 Refs(s.threads[u], p) == 0 && !(s.threads[u].Free? && s.threads[u].p == p)
  {
    RunInv(run, k);
    var s, p := run[k], run[k].threads[t].p;
    SaneNow(s, t);
    assert RefExact(s, p) && FreeExact(s, p);
    Unreferred(s, p);
    SumAllZero(RefsOf(p), s.threads);
    forall u | 0 <= u < |s.threads| && u != t ensures RefsOf(p)(s.threads[u]) == 0 && FreesOf(p)(s.threads[u]) == 0 {
      if u < t {
        SumPair(FreesOf(p), s.threads, u, t);
      } else {
        SumPair(FreesOf(p), s.threads, t, u);
      }
    }
  }

  /** The item about to be handed out is nobody else's: the user does not hold it, and no other
      thread is handing it out or taking it back. */
  lemma NoSharedBit(run: seq<State>, k: nat, t: nat)
    requires Runs.IsRun(Init, Next, run) && k < |run| && t < |run[k].threads| && run[k].threads[t].Return?
    ensures var s, p, i := run[k], run[k].threads[t].p, run[k].threads[t].bit;
            && p in s.mem.blocks && i !in s.mem.blocks[p].live && i in s.mem.blocks[p].bits && i < s.usable
            && forall u | 0 <= u < |s.threads| && u != t :: Owns(s.threads[u], p, i) == 0
  {
    RunInv(run, k);
    var s, p, i := run[k], run[k].threads[t].p, run[k].threads[t].bit;
    SaneNow(s, t);
    assert Owns(s.threads[t], p, i) > 0;
    assert BitOwned(s, p, i);
    forall u | 0 <= u < |s.threads| && u != t ensures OwnsOf(p, i)(s.threads[u]) == 0 {
      if u < t {
        SumPair(OwnsOf(p, i), s.threads, u, t);
      } else {
        SumPair(OwnsOf(p, i), s.threads, t, u);
      }
    }
  }

  /** Only bits that stand for an item behind the header are handed out, held and taken back; and such a bit is set
      exactly while somebody has its item. */
  lemma WithinBlock(run: seq<State>, k: nat, p: Id, i: nat)
    requires Runs.IsRun(Init, Next, run) && k < |run| && p in run[k].mem.blocks
    ensures var (s, b) := (run[k], run[k].mem.blocks[p]);
            && (i in b.live ==> i < s.usable)
            && (forall t | 0 <= t < |s.threads| && Owns(s.threads[t], p, i) > 0 :: i < s.usable)
            && (i < s.usable ==>
                  (i in b.bits <==> i in b.live || exists t :: 0 <= t < |s.threads| && Owns(s.threads[t], p, i) > 0))
  {
    RunInv(run, k);
    var s := run[k];
    assert BitOwned(s, p, i);
    forall t | 0 <= t < |s.threads| ensures Owns(s.threads[t], p, i) <= Sum(OwnsOf(p, i), s.threads) {
      SumAtLeast(OwnsOf(p, i), s.threads, t);
    }
    if Sum(OwnsOf(p, i), s.threads) > 0 {
      var t := SumWitness(OwnsOf(p, i), s.threads);
      assert Owns(s.threads[t], p, i) > 0;
    }
  }

  /** What the program asserts about the block it works on, and that recycle_count does not wrap below 0. */
  lemma AssertionsHold(run: seq<State>, k: nat, t: nat)
    requires Runs.IsRun(Init, Next, run) && k < |run| && t < |run[k].threads|
    ensures var s, th := run[k], run[k].threads[t];
            && (th.Uncount? ==>
                  th.p in s.mem.blocks && s.mem.blocks[th.p].ref >= 1 && s.mem.blocks[th.p].managed && s.mem.count >= 1)
            && (th.Unmanage? ==> th.p in s.mem.blocks && s.mem.blocks[th.p].ref >= 1 && s.mem.blocks[th.p].managed)
            && (th.SeeManaged? || th.Drop? ==> th.p in s.mem.blocks && s.mem.blocks[th.p].ref != 0)
            && (th.Free? ==> forall n | 0 <= n < |s.mem.slots| :: s.mem.slots[n] != Some(th.p))
            && s.mem.count >= 0
  {
    RunInv(run, k);
    var s, th := run[k], run[k].threads[t];
    SaneNow(s, t);
    SumAtLeast(Counted, s.threads, t);
    if th.Free? {
      FreedUnreferred(run, k, t);
      SumAllZero(IsIn(th.p), s.mem.slots);
      forall n | 0 <= n < |s.mem.slots| ensures s.mem.slots[n] != Some(th.p) {
        assert IsIn(th.p)(s.mem.slots[n]) == 0;
      }
    }
  }

  /** With no call under way, a block holds live items or is stored, its counts are exact, the set bits that stand
      for items are those of the live items, and the list is as long as recycle_count says. */
  lemma AtRest(run: seq<State>, k: nat)
    requires Runs.IsRun(Init, Next, run) && k < |run| && forall t | 0 <= t < |run[k].threads| :: run[k].threads[t] == Idle
    ensures var s := run[k];
            && s.mem.count == |s.mem.list|
            && forall p | p in s.mem.blocks ::
                 var b := s.mem.blocks[p];
                 b.ref == |b.live| + Stored(s.mem, p) >= 1 && AsNat(b.managed) == Stored(s.mem, p)
                 && forall i: nat :: i in b.live <==> i in b.bits && i < s.usable
  {
    RunInv(run, k);
    var s := run[k];
    SumZero(Counted, s.threads);
    forall p | p in s.mem.blocks
      ensures var b := s.mem.blocks[p];
              b.ref == |b.live| + Stored(s.mem, p) >= 1 && AsNat(b.managed) == Stored(s.mem, p)
              && forall i: nat :: i in b.live <==> i in b.bits && i < s.usable
    {
      SumZero(RefsOf(p), s.threads);
      SumZero(MovingOf(p), s.threads);
      SumZero(FreesOf(p), s.threads);
      assert RefExact(s, p) && ManagedExact(s, p) && FreeExact(s, p);
      forall i: nat ensures i in s.mem.blocks[p].live <==> i in s.mem.blocks[p].bits && i < s.usable {
        assert BitOwned(s, p, i);
        SumZero(OwnsOf(p, i), s.threads);
      }
    }
  }
}
