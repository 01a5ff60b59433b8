/** The `next` pointers behind the allocator's list of recycled blocks: the sequences of the model are
    what the pointers lead through, and a block that is in no chain has a null pointer. */
module AllocatorChain {
  import opened Counting
  import opened Allocator
  import Runs

  type Links = map<Id, Option<Id>>

  datatype Linked = Linked(core: State, next: Links)

  function Link(next: Links, x: Id): Option<Id> {
    if x in next then next[x] else None
  }

  function First(c: seq<Id>): Option<Id> {
    if c == [] then None else Some(c[0])
  }

  /** The block whose pointer a step sets. */
  function Target(th: Thread, c: Choice): Option<Id> {
    match th
    case RootTake => if c.Proceed? then Some(c.id) else None
    case Uncount(p) => Some(p)
    case ListGive(_, rest) => First(rest)
    case ListPut(p, _) => Some(p)
    case _ => None
  }

  /** A block given back or recycled leads to the head it was compared with; a new block and one that
      allocate() has taken off the list for itself lead nowhere. */
  function Writes(m: Mem, next: Links, th: Thread, c: Choice): Links {
    match Target(th, c)
    case None => next
    case Some(x) => next[x := if th.ListGive? || th.ListPut? then First(m.list) else None]
  }

  ghost predicate LinkedInit(l: Linked) {
    Init(l.core) && l.next == map[]
  }

  ghost predicate LinkedNext(l: Linked, l': Linked) {
    exists a :: Enabled(l.core, a) && l' == LinkedStep(l, a)
  }

  function LinkedStep(l: Linked, a: Action): Linked
    requires Enabled(l.core, a)
  {
    Linked(Step(l.core, a), Writes(l.core.mem, l.next, l.core.threads[a.t], a.c))
  }

  // ---------------------------------------------------------------- chains

  /** Pointer x leads through exactly the blocks of c. */
  predicate LeadsThrough(next: Links, x: Option<Id>, c: seq<Id>)
    decreases c
  {
    if c == [] then x.None? else x == Some(c[0]) && LeadsThrough(next, Link(next, c[0]), c[1..])
  }

  lemma {:induction false} LeadsFrame(next: Links, x: Option<Id>, c: seq<Id>, y: Id, v: Option<Id>)
    requires LeadsThrough(next, x, c) && y !in c
    ensures LeadsThrough(next[y := v], x, c)
    decreases c
  {
    if c != [] {
      LeadsFrame(next, Link(next, c[0]), c[1..], y, v);
    }
  }

  lemma {:induction false} NotIn(c: seq<Id>, y: Id)
    requires Sum(SameAs(y), c) == 0
    ensures y !in c
  {
    if c != [] {
      NotIn(c[1..], y);
      assert SameAs(y)(c[0]) == AsNat(c[0] == y) && c == [c[0]] + c[1..];
    }
  }

  /** The chain a thread has taken off the list. */
  predicate HoldsChain(next: Links, th: Thread) {
    match th
    case ListBack(p, rest) => LeadsThrough(next, Link(next, p), rest)
    case ListGive(_, rest) => LeadsThrough(next, First(rest), rest)
    case _ => true
  }

  /** How often q is in such a chain. */
  function Chained(th: Thread, q: Id): nat {
    match th
    case ListBack(p, rest) => AsNat(p == q) + Sum(SameAs(q), rest)
    case ListGive(p, rest) => AsNat(p == q) + Sum(SameAs(q), rest)
    case Uncount(p) => AsNat(p == q)
    case _ => 0
  }

  function ChainedOf(q: Id): Thread -> nat {
    (th: Thread) => Chained(th, q)
  }

  /** A block in use that no chain leads to. */
  ghost predicate Loose(l: Linked, q: Id) {
    q in l.core.mem.blocks && Sum(SameAs(q), l.core.mem.list) + Sum(ChainedOf(q), l.core.threads) == 0
  }

  ghost predicate LinkedInv(l: Linked) {
    && Inv(l.core)
    && LeadsThrough(l.next, First(l.core.mem.list), l.core.mem.list)
    && (forall t | 0 <= t < |l.core.threads| :: HoldsChain(l.next, l.core.threads[t]))
    && (forall q | Loose(l, q) :: q in l.next && l.next[q].None?)
  }

  /** Nothing but the acting thread leads to the block whose pointer a step sets. */
  lemma TargetPrivate(s: State, a: Action, y: Id)
    requires Inv(s) && Enabled(s, a) && Target(s.threads[a.t], a.c) == Some(y)
    ensures Sum(SameAs(y), s.mem.list) == 0 && Moving(s.threads[a.t], y) <= 1
    ensures forall u | 0 <= u < |s.threads| && u != a.t :: Moving(s.threads[u], y) == 0
  {
    assert ManagedExact(s, y);
    SumAtLeast(MovingOf(y), s.threads, a.t);
    TargetMoves(s.threads[a.t], a.c, y);
    forall u | 0 <= u < |s.threads| && u != a.t ensures MovingOf(y)(s.threads[u]) == 0 {
      SumAtLeast(MovingOf(y), s.threads, u);
      if u < a.t {
        SumPair(MovingOf(y), s.threads, u, a.t);
      } else {
        SumPair(MovingOf(y), s.threads, a.t, u);
      }
    }
  }

  lemma TargetMoves(th: Thread, c: Choice, y: Id)
    requires Target(th, c) == Some(y)
    ensures Moving(th, y) >= AsNat(!th.RootTake?)
  {
  }

  /** A chain that does not hold the block keeps leading as it did. */
  lemma HoldsOn(next: Links, th: Thread, y: Id, v: Option<Id>)
    requires HoldsChain(next, th) && Moving(th, y) == 0
    ensures HoldsChain(next[y := v], th)
  {
    match th
    case ListBack(p, rest) =>
      NotIn(rest, y);
      LeadsFrame(next, Link(next, p), rest, y, v);
    case ListGive(_, rest) =>
      NotIn(rest, y);
      LeadsFrame(next, First(rest), rest, y, v);
    case _ =>
  }

  /** The acting thread and the list after a step. */
  lemma ActorHolds(s: State, m: Mem, next: Links, th: Thread, c: Choice)
    requires Able(m, th, c) && HoldsChain(next, th) && LeadsThrough(next, First(m.list), m.list)
    requires Target(th, c).Some? ==> Sum(SameAs(Target(th, c).value), m.list) == 0 && Moving(th, Target(th, c).value) <= 1
    ensures var (m', th') := Act(s, m, th, c);
            var next' := Writes(m, next, th, c);
            HoldsChain(next', th') && LeadsThrough(next', First(m'.list), m'.list)
  {
    hide FirstFree, Refs, Owns;
    if Target(th, c).Some? {
      var y := Target(th, c).value;
      NotIn(m.list, y);
      LeadsFrame(next, First(m.list), m.list, y, if th.ListGive? || th.ListPut? then First(m.list) else None);
      if th.ListGive? {
        ChainEffect(m, th, y);
        NotIn(th.rest[1..], y);
        LeadsFrame(next, Link(next, y), th.rest[1..], y, First(m.list));
      }
    }
  }

  /** What leaves all chains is the block that allocate() keeps for itself. */
  lemma ChainedEffect(s: State, m: Mem, th: Thread, c: Choice, q: Id)
    requires Able(m, th, c)
    ensures var (m', th') := Act(s, m, th, c);
            Sum(SameAs(q), m.list) + Chained(th, q)
            <= Sum(SameAs(q), m'.list) + Chained(th', q) + AsNat(th.Uncount? && th.p == q)
    ensures Target(th, c) == Some(q) && (th.ListGive? || th.ListPut?) ==> Sum(SameAs(q), Act(s, m, th, c).0.list) > 0
  {
    ChainEffect(m, th, q);
    if th.ListGive? && th.rest != [] {
      assert SameAs(q)(th.rest[0]) == AsNat(th.rest[0] == q);
      SumOnto(SameAs(q), th.rest[0], m.list);
    } else if th.ListPut? {
      assert SameAs(q)(th.p) == AsNat(th.p == q);
      SumOnto(SameAs(q), th.p, m.list);
    } else {
      OtherChained(s, m, th, c, q);
    }
  }

  lemma OtherChained(s: State, m: Mem, th: Thread, c: Choice, q: Id)
    requires Able(m, th, c) && !(th.ListGive? && th.rest != []) && !th.ListPut?
    ensures var (m', th') := Act(s, m, th, c);
            Sum(SameAs(q), m.list) + Chained(th, q)
            <= Sum(SameAs(q), m'.list) + Chained(th', q) + AsNat(th.Uncount? && th.p == q)
  {
    hide FirstFree, Refs, Owns, Moving, Get, Sum;
    ChainEffect(m, th, q);
  }

  /** Only the root allocator brings a block. */
  lemma NoNewBlock(s: State, m: Mem, th: Thread, c: Choice, q: Id)
    requires Able(m, th, c) && Sane(m, th, s.usable) && q in Act(s, m, th, c).0.blocks
    ensures q in m.blocks || (th.RootTake? && Target(th, c) == Some(q))
  {
    hide FirstFree, Refs, Moving, Placed, Sum;
  }

  lemma LooseStays(l: Linked, a: Action, q: Id)
    requires LinkedInv(l) && Enabled(l.core, a) && Loose(LinkedStep(l, a), q)
    ensures var next := LinkedStep(l, a).next; q in next && next[q].None?
  {
    hide Act, Sum, Inv;
    SaneNow(l.core, a.t);
    NoNewBlock(l.core, l.core.mem, l.core.threads[a.t], a.c, q);
    var s, th := l.core, l.core.threads[a.t];
    var (m', th') := Act(s, s.mem, th, a.c);
    ChainedEffect(s, s.mem, th, a.c, q);
    SumUpdate(ChainedOf(q), s.threads, a.t, th');
    if Target(th, a.c) != Some(q) {
      assert Loose(l, q);
    }
  }

  lemma StepLinked(l: Linked, l': Linked)
    requires LinkedInv(l) && LinkedNext(l, l')
    ensures LinkedInv(l')
  {
    var a :| Enabled(l.core, a) && l' == LinkedStep(l, a);
    var s, th := l.core, l.core.threads[a.t];
    StepInv(s, l'.core);
    if Target(th, a.c).Some? {
      TargetPrivate(s, a, Target(th, a.c).value);
    }
    ActorHolds(s, s.mem, l.next, th, a.c);
    forall t | 0 <= t < |l'.core.threads| ensures HoldsChain(l'.next, l'.core.threads[t]) {
      if t != a.t && Target(th, a.c).Some? {
        HoldsOn(l.next, s.threads[t], Target(th, a.c).value, if th.ListGive? || th.ListPut? then First(s.mem.list) else None);
      }
    }
    forall q | Loose(l', q) ensures q in l'.next && l'.next[q].None? {
      LooseStays(l, a, q);
    }
  }

  lemma RunLinked(run: seq<Linked>, k: nat)
    requires Runs.IsRun(LinkedInit, LinkedNext, run) && k < |run|
    ensures LinkedInv(run[k])
  {
    forall l | LinkedInit(l) ensures LinkedInv(l) { InitInv(l.core); }
    forall l, l' | LinkedInv(l) && LinkedNext(l, l') ensures LinkedInv(l') { StepLinked(l, l'); }
    Runs.Invariant(LinkedInit, LinkedNext, LinkedInv, run);
  }

  /** From recycled_head the pointers lead through exactly the recycled blocks, and through exactly the
      blocks a thread has yet to give back. */
  lemma PointersLead(run: seq<Linked>, k: nat)
    requires Runs.IsRun(LinkedInit, LinkedNext, run) && k < |run|
    ensures var (s, next) := (run[k].core, run[k].next);
            && LeadsThrough(next, First(s.mem.list), s.mem.list)
            && forall t | 0 <= t < |s.threads| && s.threads[t].ListGive? ::
                 LeadsThrough(next, First(s.threads[t].rest), s.threads[t].rest)
  {
    RunLinked(run, k);
    var (s, next) := (run[k].core, run[k].next);
    forall t | 0 <= t < |s.threads| && s.threads[t].ListGive?
      ensures LeadsThrough(next, First(s.threads[t].rest), s.threads[t].rest)
    {
      assert HoldsChain(next, s.threads[t]);
    }
  }

  /** A block about to be linked into the list of recycled blocks has a null pointer, as recycle() asserts. */
  lemma RecycledUnlinked(run: seq<Linked>, k: nat, t: nat)
    requires Runs.IsRun(LinkedInit, LinkedNext, run) && k < |run|
    requires t < |run[k].core.threads| && run[k].core.threads[t].ListPut?
    ensures var (next, p) := (run[k].next, run[k].core.threads[t].p); p in next && next[p].None?
  {
    RunLinked(run, k);
    var (s, q) := (run[k].core, run[k].core.threads[t].p);
    assert ManagedExact(s, q);
    SumAtLeast(MovingOf(q), s.threads, t);
    forall u | 0 <= u < |s.threads| ensures ChainedOf(q)(s.threads[u]) == 0 {
      if u < t {
        SumPair(MovingOf(q), s.threads, u, t);
      } else if t < u {
        SumPair(MovingOf(q), s.threads, t, u);
      }
    }
    SumZero(ChainedOf(q), s.threads);
    assert Loose(run[k], q);
  }
}
