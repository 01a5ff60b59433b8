/** The ring queue between one producing and one consuming thread: every access to a counter or to a
    slot is a step of its own, and the steps of the two threads interleave. */
module RingProtocol {
  import opened Counter
  import opened Counting
  import opened Ring
  import Runs

  type Item = nat // what the items are does not matter

  datatype Producer =
    | PIdle
    | PCheck(items: seq<Item>, range: bool)  // before full() loads pop_count
    | PRead(items: seq<Item>)                // range push: before loading pop_count again
    | PFill(items: seq<Item>, n: nat, windex: nat, rindex: nat, upper: bool)
    | PPut(item: Item)                       // single push: before constructing
    | PPublish(made: seq<Item>)              // before storing push_count

  datatype Consumer =
    | CIdle
    | CCheck(most: nat, range: bool)         // before empty() loads push_count
    | CRead(most: nat)                       // range pop: before loading push_count again
    | CDrain(most: nat, n: nat, windex: nat, rindex: nat, upper: bool)
    | CTake                                  // single pop: before moving the item out
    | CPublish(n: nat)                       // before storing pop_count

  /** What a call was given, and |sent| and popped when it began. */
  datatype Call = PushCall(items: seq<Item>, range: bool, sent: nat, popped: nat)
                | PopCall(most: nat, range: bool, sent: nat, popped: nat)

  /** sent, received and popped (how often pop_count has moved) are auxiliary, as are the values of
      popped and |sent| when the other side's counter was last loaded for a range, and the last call of
      either side. */
  datatype State = State(
    e: nat, start: nat,
    slots: seq<Option<Item>>, push: nat, pop: nat,
    prod: Producer, cons: Consumer,
    sent: seq<Item>, received: seq<Item>, popped: nat, seenPop: nat, seenPush: nat, pushing: Call, popping: Call)

  datatype Action =
    | Push(item: Item) | PushRange(items: seq<Item>) | ProducerStep
    | Pop | PopRange(most: nat) | ConsumerStep

  ghost predicate Init(s: State) {
    && Count(s.e) && s.start < Modulus(s.e) && s.slots == seq(s.e, _ => None) && s.push == s.pop == s.start
    && s.prod == PIdle && s.cons == CIdle && s.sent == s.received == [] && s.popped == 0
    && s.pushing == PushCall([], true, 0, 0) && s.popping == PopCall(0, true, 0, 0)
  }

  predicate Enabled(s: State, a: Action) {
    match a
    case Push(_) => s.prod.PIdle?
    case PushRange(_) => s.prod.PIdle?
    case ProducerStep => !s.prod.PIdle?
    case Pop => s.cons.CIdle?
    case PopRange(_) => s.cons.CIdle?
    case ConsumerStep => !s.cons.CIdle?
  }

  function Step(s: State, a: Action): State
    requires Count(s.e)
  {
    match a
    case Push(item) => s.(prod := PCheck([item], false), pushing := PushCall([item], false, |s.sent|, s.popped))
    case PushRange(items) => s.(prod := PCheck(items, true), pushing := PushCall(items, true, |s.sent|, s.popped))
    case ProducerStep => Produce(s)
    case Pop => s.(cons := CCheck(1, false), popping := PopCall(1, false, |s.sent|, s.popped))
    case PopRange(most) => s.(cons := CCheck(most, true), popping := PopCall(most, true, |s.sent|, s.popped))
    case ConsumerStep => Consume(s)
  }

  function Write(s: State, w: nat, o: Option<Item>): seq<Option<Item>> {
    if w < |s.slots| then s.slots[w := o] else s.slots
  }

  function Produce(s: State): State
    requires Count(s.e)
  {
    match s.prod
    case PIdle => s
    case PCheck(items, range) =>
      if StepCounter(s.e, s.pop, s.e) == s.push then s.(prod := PIdle)
      else s.(prod := if range || items == [] then PRead(items) else PPut(items[0]))
    case PRead(items) =>
      var windex, rindex := s.push % s.e, s.pop % s.e;
      s.(prod := PFill(items, 0, windex, rindex, rindex <= windex), seenPop := s.popped)
    case PFill(items, n, windex, rindex, upper) =>
      if n < |items| && windex < (if upper then s.e else rindex) then
        s.(slots := Write(s, windex, Some(items[n])), prod := PFill(items, n + 1, windex + 1, rindex, upper))
      else if upper then s.(prod := PFill(items, n, 0, rindex, false))
      else s.(prod := PPublish(if n <= |items| then items[..n] else items))
    case PPut(item) => s.(slots := Write(s, s.push % s.e, Some(item)), prod := PPublish([item]))
    case PPublish(made) =>
      s.(push := StepCounter(s.e, s.push, |made|), sent := s.sent + made, prod := PIdle)
  }

  /** What a slot gives when its item is moved out. */
  function Moved(s: State, r: nat): seq<Item> {
    if r < |s.slots| && s.slots[r].Some? then [s.slots[r].value] else []
  }

  function Consume(s: State): State
    requires Count(s.e)
  {
    match s.cons
    case CIdle => s
    case CCheck(most, range) =>
      if s.pop == s.push then s.(cons := CIdle)
      else s.(cons := if range then CRead(most) else CTake)
    case CRead(most) =>
      var windex, rindex := s.push % s.e, s.pop % s.e;
      s.(cons := CDrain(most, 0, windex, rindex, windex <= rindex), seenPush := |s.sent|)
    case CDrain(most, n, windex, rindex, upper) =>
      if n < most && rindex < (if upper then s.e else windex) then
        s.(received := s.received + Moved(s, rindex), slots := Write(s, rindex, None),
           cons := CDrain(most, n + 1, windex, rindex + 1, upper))
      else if upper then s.(cons := CDrain(most, n, windex, 0, false))
      else s.(cons := CPublish(n))
    case CTake =>
      s.(received := s.received + Moved(s, s.pop % s.e), slots := Write(s, s.pop % s.e, None), cons := CPublish(1))
    case CPublish(n) =>
      s.(pop := StepCounter(s.e, s.pop, n), popped := s.popped + n, cons := CIdle)
  }

  ghost predicate Next(s: State, s': State) {
    exists a :: Count(s.e) && Enabled(s, a) && s' == Step(s, a)
  }

  // ---------------------------------------------------------------- the counters

  /** The counter after n items. */
  function At(e: nat, start: nat, n: nat): nat
    requires Count(e)
  {
    ModulusFacts(e);
    (start + n) % Modulus(e)
  }

  /** The slot of the n-th item. */
  function Place(e: nat, start: nat, n: nat): (r: nat)
    requires Count(e)
    ensures r < e
  {
    At(e, start, n) % e
  }

  lemma AtStep(e: nat, start: nat, n: nat, d: nat)
    requires Count(e) && d <= e
    ensures At(e, start, n) < Modulus(e)
    ensures StepCounter(e, At(e, start, n), d) == At(e, start, n + d)
    ensures Place(e, start, n + d) == Slot(e, Place(e, start, n), d)
  {
    hide StepCounter, Modulus, Slot, PowTwo, Limit;
    ModulusFacts(e);
    var c, m := At(e, start, n), Modulus(e);
    StepCounts(e, c, d);
    SlotCounts(e, c, d);
    ModShift(start + n, d, m);
    assert start + (n + d) == start + n + d;
  }

  lemma AtTells(e: nat, start: nat, n: nat, a: nat, b: nat)
    requires Count(e) && a <= e && b <= e
    ensures At(e, start, n + a) == At(e, start, n + b) <==> a == b
  {
    AtStep(e, start, n, a);
    AtStep(e, start, n, b);
    StepTells(e, At(e, start, n), a, b);
  }

  // ---------------------------------------------------------------- the invariant

  /** Constructed, but not yet counted. */
  function Made(p: Producer): seq<Item> {
    match p
    case PFill(items, n, _, _, _) => if n <= |items| then items[..n] else items
    case PPublish(made) => made
    case _ => []
  }

  /** Moved out, but not yet counted. */
  function Taken(c: Consumer): nat {
    match c
    case CDrain(_, n, _, _, _) => n
    case CPublish(n) => n
    case _ => 0
  }

  ghost predicate CountersOk(s: State) {
    && Count(s.e) && s.push == At(s.e, s.start, |s.sent|) && s.pop == At(s.e, s.start, s.popped)
    && s.popped <= |s.sent|
  }

  /** Exactly the items constructed and not yet moved out are in the ring. */
  ghost predicate RingOk(s: State)
    requires Count(s.e)
  {
    var all, lo := s.sent + Made(s.prod), s.popped + Taken(s.cons);
    && lo <= |s.sent| && |all| <= s.popped + s.e
    && s.received == all[..lo] && s.slots == Layout(s.e, Place(s.e, s.start, lo), all[lo..])
  }

  ghost predicate ProducerOk(s: State)
    requires Count(s.e)
  {
    match s.prod
    case PCheck(items, range) => !range ==> |items| == 1
    case PRead(_) => |s.sent| < s.popped + s.e
    case PPut(_) => |s.sent| < s.popped + s.e
    case PFill(items, n, windex, rindex, upper) =>
      && n <= |items| && s.seenPop <= s.popped && |s.sent| < s.seenPop + s.e && |s.sent| + n <= s.seenPop + s.e
      && rindex == Place(s.e, s.start, s.seenPop)
      && var d := |s.sent| + n - s.seenPop;
         if upper then windex == rindex + d <= s.e else n == |items| || windex + s.e == rindex + d
    case _ => true
  }

  ghost predicate ConsumerOk(s: State)
    requires Count(s.e)
  {
    match s.cons
    case CRead(_) => s.popped < |s.sent|
    case CTake => s.popped < |s.sent|
    case CDrain(most, n, windex, rindex, upper) =>
      var k, r := s.seenPush - s.popped, Place(s.e, s.start, s.popped);
      && 0 < k <= s.e && s.seenPush <= |s.sent| && n <= k && n <= most && windex < s.e
      && if upper then rindex == r + n <= s.e <= r + k && windex == r + k - s.e
         else n < most ==> rindex == Slot(s.e, r, n) && windex == rindex + (k - n)
    case _ => true
  }

  ghost predicate Inv(s: State) {
    CountersOk(s) && RingOk(s) && ProducerOk(s) && ConsumerOk(s)
  }

  lemma InitInv(s: State)
    requires Init(s)
    ensures Inv(s)
  {
    ModulusFacts(s.e);
    ModTurn(s.start, Modulus(s.e));
  }

  /** Constructing the next item: its slot was dead. */
  lemma Constructs(s: State, w: nat, item: Item)
    requires CountersOk(s) && RingOk(s)
    requires var all := s.sent + Made(s.prod); |all| < s.popped + s.e && w == Place(s.e, s.start, |all|)
    ensures w < |s.slots| && s.slots[w] == None
    ensures var all, lo := s.sent + Made(s.prod) + [item], s.popped + Taken(s.cons);
            s.slots[w := Some(item)] == Layout(s.e, Place(s.e, s.start, lo), all[lo..]) && s.received == all[..lo]
  {
    var all, lo := s.sent + Made(s.prod), s.popped + Taken(s.cons);
    AtStep(s.e, s.start, lo, |all| - lo);
    LayoutPush(s.e, Place(s.e, s.start, lo), all[lo..], item);
    assert all[lo..] + [item] == (all + [item])[lo..];
  }

  /** Moving out the next item: it is in its slot, and it is the one sent first. */
  lemma MovesOut(s: State, r: nat)
    requires CountersOk(s) && RingOk(s)
    requires var lo := s.popped + Taken(s.cons); lo < |s.sent| && r == Place(s.e, s.start, lo)
    ensures r < |s.slots| && s.slots[r] == Some(s.sent[s.popped + Taken(s.cons)])
    ensures var all, lo := s.sent + Made(s.prod), s.popped + Taken(s.cons);
            && s.slots[r := None] == Layout(s.e, Place(s.e, s.start, lo + 1), all[lo + 1..])
            && s.received + Moved(s, r) == all[..lo + 1]
  {
    var all, lo := s.sent + Made(s.prod), s.popped + Taken(s.cons);
    AtStep(s.e, s.start, lo, 1);
    LayoutPop(s.e, Place(s.e, s.start, lo), all[lo..]);
    assert all[lo..][1..] == all[lo + 1..];
  }

  lemma ProduceInv(s: State)
    requires Inv(s) && !s.prod.PIdle?
    ensures Inv(Produce(s))
  {
    match s.prod
    case PCheck(_, _) => ChecksFull(s);
    case PRead(_) => ReadsPop(s);
    case PFill(_, _, _, _, _) => Fills(s);
    case PPut(_) => Puts(s);
    case PPublish(_) => PublishesPush(s);
  }

  lemma ChecksFull(s: State)
    requires Inv(s) && s.prod.PCheck?
    ensures Inv(Produce(s))
  {
    hide StepCounter, At, Place, Layout;
    AtStep(s.e, s.start, s.popped, s.e);
    AtTells(s.e, s.start, s.popped, s.e, |s.sent| - s.popped);
  }

  lemma ReadsPop(s: State)
    requires Inv(s) && s.prod.PRead?
    ensures Inv(Produce(s))
  {
    hide StepCounter, Layout;
    AtStep(s.e, s.start, s.popped, |s.sent| - s.popped);
    assert s.prod.items[..0] == [];
  }

  lemma Fills(s: State)
    requires Inv(s) && s.prod.PFill?
    ensures Inv(Produce(s))
  {
    hide Inv, Produce;
    var PFill(items, n, windex, rindex, upper) := s.prod;
    if n < |items| && windex < (if upper then s.e else rindex) {
      FillsOne(s);
    } else {
      FillsTurn(s);
    }
  }

  lemma FillsOne(s: State)
    requires Inv(s) && s.prod.PFill?
    requires s.prod.n < |s.prod.items| && s.prod.windex < (if s.prod.upper then s.e else s.prod.rindex)
    ensures Inv(Produce(s))
  {
    hide StepCounter, At, Place, Layout;
    var PFill(items, n, windex, rindex, upper) := s.prod;
    AtStep(s.e, s.start, s.seenPop, |s.sent| + n - s.seenPop);
    Constructs(s, windex, items[n]);
    assert s.sent + items[..n + 1] == s.sent + items[..n] + [items[n]];
  }

  /** At the end of the ring the fill goes on at its start, or ends. */
  lemma FillsTurn(s: State)
    requires Inv(s) && s.prod.PFill?
    requires !(s.prod.n < |s.prod.items| && s.prod.windex < (if s.prod.upper then s.e else s.prod.rindex))
    ensures Inv(Produce(s))
  {
    hide StepCounter, At, Place, Layout;
    AtStep(s.e, s.start, s.seenPop, |s.sent| + s.prod.n - s.seenPop);
  }

  lemma Puts(s: State)
    requires Inv(s) && s.prod.PPut?
    ensures Inv(Produce(s))
  {
    hide StepCounter, At, Layout;
    Constructs(s, s.push % s.e, s.prod.item);
    assert s.sent + [] + [s.prod.item] == s.sent + [s.prod.item];
  }

  lemma PublishesPush(s: State)
    requires Inv(s) && s.prod.PPublish?
    ensures Inv(Produce(s))
  {
    hide StepCounter, At, Place, Layout;
    AtStep(s.e, s.start, |s.sent|, |s.prod.made|);
    assert s.sent + s.prod.made + [] == s.sent + s.prod.made;
  }

  lemma ConsumeInv(s: State)
    requires Inv(s) && !s.cons.CIdle?
    ensures Inv(Consume(s))
  {
    match s.cons
    case CCheck(_, _) => ChecksEmpty(s);
    case CRead(_) => ReadsPush(s);
    case CDrain(_, _, _, _, _) => Drains(s);
    case CTake => Takes(s);
    case CPublish(_) => PublishesPop(s);
  }

  lemma ChecksEmpty(s: State)
    requires Inv(s) && s.cons.CCheck?
    ensures Inv(Consume(s))
  {
    hide StepCounter, At, Place, Layout;
    AtTells(s.e, s.start, s.popped, 0, |s.sent| - s.popped);
  }

  lemma ReadsPush(s: State)
    requires Inv(s) && s.cons.CRead?
    ensures Inv(Consume(s))
  {
    hide StepCounter, Layout;
    AtStep(s.e, s.start, s.popped, |s.sent| - s.popped);
  }

  lemma Drains(s: State)
    requires Inv(s) && s.cons.CDrain?
    ensures Inv(Consume(s))
  {
    hide Inv, Consume;
    var CDrain(most, n, windex, rindex, upper) := s.cons;
    if n < most && rindex < (if upper then s.e else windex) {
      DrainsOne(s);
    } else {
      DrainsTurn(s);
    }
  }

  lemma DrainsOne(s: State)
    requires Inv(s) && s.cons.CDrain?
    requires s.cons.n < s.cons.most && s.cons.rindex < (if s.cons.upper then s.e else s.cons.windex)
    ensures Inv(Consume(s))
  {
    hide StepCounter, At, Place, Layout;
    AtStep(s.e, s.start, s.popped, s.cons.n);
    MovesOut(s, s.cons.rindex);
  }

  lemma DrainsTurn(s: State)
    requires Inv(s) && s.cons.CDrain?
    requires !(s.cons.n < s.cons.most && s.cons.rindex < (if s.cons.upper then s.e else s.cons.windex))
    ensures Inv(Consume(s))
  {
    hide StepCounter, At, Place, Layout;
    AtStep(s.e, s.start, s.popped, s.cons.n);
  }

  lemma Takes(s: State)
    requires Inv(s) && s.cons.CTake?
    ensures Inv(Consume(s))
  {
    hide StepCounter, At, Layout;
    MovesOut(s, s.pop % s.e);
  }

  lemma PublishesPop(s: State)
    requires Inv(s) && s.cons.CPublish?
    ensures Inv(Consume(s))
  {
    hide StepCounter, At, Place, Layout;
    AtStep(s.e, s.start, s.popped, s.cons.n);
  }

  lemma StepInv(s: State, s': State)
    requires Inv(s) && Next(s, s')
    ensures Inv(s')
  {
    var a :| Count(s.e) && Enabled(s, a) && s' == Step(s, a);
    match a
    case ProducerStep => ProduceInv(s);
    case ConsumerStep => ConsumeInv(s);
    case _ => BeginInv(s, a);
  }

  lemma BeginInv(s: State, a: Action)
    requires Inv(s) && Enabled(s, a) && !a.ProducerStep? && !a.ConsumerStep?
    ensures Inv(Step(s, a))
  {
    hide StepCounter, At, Place, Layout, Produce, Consume;
  }

  // ---------------------------------------------------------------- theorems over every run

  lemma RunInv(run: seq<State>, k: nat)
    requires Runs.IsRun(Init, Next, run) && k < |run|
    ensures Inv(run[k])
  {
    forall s | Init(s) ensures Inv(s) { InitInv(s); }
    forall s, s' | Inv(s) && Next(s, s') ensures Inv(s') { StepInv(s, s'); }
    Runs.Invariant(Init, Next, Inv, run);
  }

  /** What was received is what was sent first, in the order it was sent. */
  lemma Fifo(run: seq<State>, k: nat)
    requires Runs.IsRun(Init, Next, run) && k < |run|
    ensures run[k].received <= run[k].sent && |run[k].sent| <= |run[k].received| + run[k].e
  {
    RunInv(run, k);
    var s := run[k];
    var lo := s.popped + Taken(s.cons);
    assert (s.sent + Made(s.prod))[..lo] == s.sent[..lo];
  }

  /** The slot that a step of the producer constructs an item in, if it is such a step. */
  function WriteSlot(s: State): Option<nat>
    requires Count(s.e)
  {
    match s.prod
    case PPut(_) => Some(s.push % s.e)
    case PFill(items, n, windex, rindex, upper) =>
      if n < |items| && windex < (if upper then s.e else rindex) then Some(windex) else None
    case _ => None
  }

  function ReadSlot(s: State): Option<nat>
    requires Count(s.e)
  {
    match s.cons
    case CTake => Some(s.pop % s.e)
    case CDrain(most, n, windex, rindex, upper) =>
      if n < most && rindex < (if upper then s.e else windex) then Some(rindex) else None
    case _ => None
  }

  /** No live slot is written, no dead slot is read, and the two threads never touch the same slot. */
  lemma NoOverwrite(run: seq<State>, k: nat)
    requires Runs.IsRun(Init, Next, run) && k < |run|
    ensures var s := run[k];
            && Count(s.e)
            && (WriteSlot(s).Some? ==> WriteSlot(s).value < |s.slots| && s.slots[WriteSlot(s).value] == None)
            && (ReadSlot(s).Some? ==> ReadSlot(s).value < |s.slots| && s.slots[ReadSlot(s).value].Some?)
            && (WriteSlot(s).Some? && ReadSlot(s).Some? ==> WriteSlot(s).value != ReadSlot(s).value)
  {
    RunInv(run, k);
    if WriteSlot(run[k]).Some? {
      WritesDead(run[k]);
    }
    if ReadSlot(run[k]).Some? {
      ReadsLive(run[k]);
    }
  }

  lemma WritesDead(s: State)
    requires Inv(s) && WriteSlot(s).Some?
    ensures WriteSlot(s).value < |s.slots| && s.slots[WriteSlot(s).value] == None
  {
    match s.prod
    case PFill(items, n, windex, rindex, upper) =>
      AtStep(s.e, s.start, s.seenPop, |s.sent| + n - s.seenPop);
      Constructs(s, windex, items[n]);
    case PPut(item) =>
      Constructs(s, s.push % s.e, item);
  }

  lemma ReadsLive(s: State)
    requires Inv(s) && ReadSlot(s).Some?
    ensures ReadSlot(s).value < |s.slots| && s.slots[ReadSlot(s).value].Some?
  {
    match s.cons
    case CDrain(most, n, windex, rindex, upper) =>
      AtStep(s.e, s.start, s.popped, n);
      MovesOut(s, rindex);
    case CTake =>
      MovesOut(s, s.pop % s.e);
  }
}
