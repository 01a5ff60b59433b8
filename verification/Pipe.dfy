/** The coroutine pipe (grid_pipe_t): consumers suspend until an element is theirs, producers wake one
    consumer for each element, and two counters decide which side gives way.

    A step is one atomic operation or one operation under a mutex that no one else holds. */
module Pipe {
  import opened Counting
  import Runs

  type Item = nat // what the elements are does not matter

  datatype Thread =
    | Idle
    // await_suspend; `slow` when handle_lock is held
    | CLoad(slow: bool)               // flush_prepared: before loading prepared_count
    | CSwap(slow: bool, seen: nat)    // before the compare-and-swap
    | CLock
    | CPush                           // before appending the handle
    | CCount                          // before ++waiting_count
    | CRelease                        // before the mutex is released, suspended from then on
    | CUnlock                         // has claimed an element under the mutex
    | Suspended
    | Ready                           // dispatched; await_resume will take an element
    // emplace
    | PPush(item: Item)
    | PLoad(slow: bool)               // flush_waiting: before loading waiting_count
    | PSwap(slow: bool, seen: nat)
    | PLock
    | PCount                          // before ++prepared_count
    | PRelease
    | PTake                           // has claimed a waiter, before locking the mutex
    | PPop                            // has claimed a waiter and holds the mutex
    | PUnlock(waiter: nat)
    | PDispatch(waiter: nat)

  datatype Receipt = Receipt(who: nat, item: Item)

  /** sent and received are auxiliary: the elements in the order they went in, and in the order they came out with
      who got them; asked and offered: who awaited, and what emplace() was called with, in order; lined and called:
      whose handles were appended to the queue and taken from it, in order. */
  datatype State = State(
    prepared: nat, waiting: nat, mutex: Option<nat>, elements: seq<Item>, handles: seq<nat>,
    threads: seq<Thread>, sent: seq<Item>, received: seq<Receipt>, asked: seq<nat>, offered: seq<Item>,
    lined: seq<nat>, called: seq<nat>)

  datatype Choice = Await | Emplace(item: Item) | Go

  datatype Action = Action(t: nat, c: Choice)

  ghost predicate Init(s: State) {
    && s.prepared == s.waiting == 0 && s.mutex == None && s.elements == [] && s.handles == []
    && s.sent == [] && s.received == [] && s.asked == [] && s.offered == [] && s.lined == s.called == []
    && forall t | 0 <= t < |s.threads| :: s.threads[t] == Idle
  }

  predicate WantsMutex(th: Thread) {
    th.CLock? || th.PLock? || th.PTake?
  }

  predicate Enabled(s: State, a: Action) {
    && a.t < |s.threads|
    && match a.c
       case Await => s.threads[a.t] == Idle
       case Emplace(_) => s.threads[a.t] == Idle
       case Go =>
         var th := s.threads[a.t];
         th != Idle && th != Suspended && (WantsMutex(th) ==> s.mutex == None)
  }

  function Step(s: State, a: Action): State
    requires Enabled(s, a)
  {
    match a.c
    case Await => s.(threads := s.threads[a.t := CLoad(false)], asked := s.asked + [a.t])
    case Emplace(item) => s.(threads := s.threads[a.t := PPush(item)], offered := s.offered + [item])
    case Go =>
      var th := s.threads[a.t];
      if th.PDispatch? && th.waiter < |s.threads| then s.(threads := s.threads[a.t := Idle][th.waiter := Ready])
      else Own(s, a.t, th).(threads := s.threads[a.t := Then(s, th)])
  }

  /** What a step does to everything but the threads. */
  function Own(s: State, t: nat, th: Thread): State {
    match th
    case CSwap(_, seen) => if s.prepared == seen && seen > 0 then s.(prepared := seen - 1) else s
    case CLock => s.(mutex := Some(t))
    case CPush => s.(handles := s.handles + [t], lined := s.lined + [t])
    case CCount => s.(waiting := s.waiting + 1)
    case CRelease => s.(mutex := None)
    case CUnlock => s.(mutex := None)
    case Ready =>
      if s.elements == [] then s
      else s.(elements := s.elements[1..], received := s.received + [Receipt(t, s.elements[0])])
    case PPush(item) => s.(elements := s.elements + [item], sent := s.sent + [item])
    case PSwap(_, seen) => if s.waiting == seen && seen > 0 then s.(waiting := seen - 1) else s
    case PLock => s.(mutex := Some(t))
    case PCount => s.(prepared := s.prepared + 1)
    case PRelease => s.(mutex := None)
    case PTake => s.(mutex := Some(t))
    case PPop => if s.handles == [] then s else s.(handles := s.handles[1..], called := s.called + [s.handles[0]])
    case PUnlock(_) => s.(mutex := None)
    case _ => s
  }

  function Then(s: State, th: Thread): Thread {
    match th
    case CLoad(slow) => if s.prepared != 0 then CSwap(slow, s.prepared) else if slow then CPush else CLock
    case CSwap(slow, seen) =>
      if s.prepared == seen then if slow then CUnlock else Ready
      else if s.prepared != 0 then CSwap(slow, s.prepared)
      else if slow then CPush else CLock
    case CLock => CLoad(true)
    case CPush => CCount
    case CCount => CRelease
    case CRelease => Suspended
    case CUnlock => Ready
    case PPush(_) => PLoad(false)
    case PLoad(slow) => if s.waiting != 0 then PSwap(slow, s.waiting) else if slow then PCount else PLock
    case PSwap(slow, seen) =>
      if s.waiting == seen then if slow then PPop else PTake
      else if s.waiting != 0 then PSwap(slow, s.waiting)
      else if slow then PCount else PLock
    case PLock => PLoad(true)
    case PCount => PRelease
    case PTake => PPop
    case PPop => if s.handles == [] then PPop else PUnlock(s.handles[0])
    case PUnlock(w) => PDispatch(w)
    case _ => Idle
  }

  ghost predicate Next(s: State, s': State) {
    exists a :: Enabled(s, a) && s' == Step(s, a)
  }

  // ---------------------------------------------------------------- the invariant

  predicate Locked(th: Thread) {
    match th
    case CLoad(slow) => slow
    case CSwap(slow, _) => slow
    case PLoad(slow) => slow
    case PSwap(slow, _) => slow
    case _ => th.CPush? || th.CCount? || th.CRelease? || th.CUnlock? || th.PCount? || th.PRelease? || th.PPop? || th.PUnlock?
  }

  /** An element is spoken for by this thread: a consumer that will take it, or a producer that has
      pushed it and neither counted it as prepared nor passed it to a waiter yet. */
  function Claims(th: Thread): nat {
    AsNat(th.CUnlock? || th.Ready? || th.PLoad? || th.PSwap? || th.PLock? || th.PCount? || th.PTake? || th.PPop?
      || th.PUnlock? || th.PDispatch?)
  }

  /** A handle not counted in waiting_count. */
  function Uncounted(th: Thread): nat {
    AsNat(th.CCount? || th.PTake? || th.PPop?)
  }

  /** The thread's handle is in the queue or with a producer. */
  predicate Waits(th: Thread) {
    th.CCount? || th.CRelease? || th.Suspended?
  }

  function Carries(w: nat): Thread -> nat {
    (th: Thread) => AsNat((th.PUnlock? || th.PDispatch?) && th.waiter == w)
  }

  /** The thread is inside an await: it will get a value. */
  function Awaits(th: Thread): nat {
    AsNat(th.CLoad? || th.CSwap? || th.CLock? || th.CPush? || th.CCount? || th.CRelease? || th.CUnlock?
      || th.Suspended? || th.Ready?)
  }

  /** The thread is about to send x. */
  function Coming(x: Item): Thread -> nat {
    (th: Thread) => AsNat(th.PPush? && th.item == x)
  }

  function By(w: nat): Receipt -> nat {
    (r: Receipt) => AsNat(r.who == w)
  }

  function Items(receipts: seq<Receipt>): seq<Item> {
    seq(|receipts|, i requires 0 <= i < |receipts| => receipts[i].item)
  }

  function SameAs(w: nat): nat -> nat {
    (v: nat) => AsNat(v == w)
  }

  ghost predicate MutexOk(s: State) {
    && (s.mutex.Some? ==> s.mutex.value < |s.threads|)
    && forall t | 0 <= t < |s.threads| :: Locked(s.threads[t]) <==> s.mutex == Some(t)
  }

  ghost predicate ElementsOk(s: State) {
    |s.elements| == s.prepared + Sum(Claims, s.threads) && s.sent == Items(s.received) + s.elements
  }

  ghost predicate HandlesOk(s: State) {
    |s.handles| == s.waiting + Sum(Uncounted, s.threads) && s.lined == s.called + s.handles
  }

  /** A waiting consumer's handle is in exactly one place. */
  ghost predicate WaiterOk(s: State, w: nat) {
    Sum(SameAs(w), s.handles) + Sum(Carries(w), s.threads) == AsNat(w < |s.threads| && Waits(s.threads[w]))
  }

  /** Every await has ended with one value, or is under way. */
  ghost predicate ServedOk(s: State) {
    && |s.asked| == |s.received| + Sum(Awaits, s.threads)
    && forall w :: Served(s, w)
  }

  /** What was offered was sent, each value as often, or is just being sent. */
  ghost predicate SentOk(s: State, x: Item) {
    Sum(SameAs(x), s.offered) == Sum(SameAs(x), s.sent) + Sum(Coming(x), s.threads)
  }

  ghost predicate Served(s: State, w: nat) {
    Sum(By(w), s.received) + (if w < |s.threads| then Awaits(s.threads[w]) else 0) == Sum(SameAs(w), s.asked)
  }

  /** Under the mutex, a side that found the other's counter 0 can rely on it. */
  ghost predicate CountersOk(s: State) {
    && (s.prepared == 0 || s.waiting == 0)
    && forall t | 0 <= t < |s.threads| ::
         && (s.threads[t].PCount? ==> s.waiting == 0)
         && (s.threads[t].CPush? || s.threads[t].CCount? ==> s.prepared == 0)
         && (s.threads[t].CSwap? || s.threads[t].PSwap? ==> s.threads[t].seen > 0)
  }

  /** A waiter on its way to be dispatched is suspended. */
  ghost predicate CarriedOk(s: State) {
    forall t | 0 <= t < |s.threads| && (s.threads[t].PUnlock? || s.threads[t].PDispatch?) ::
      s.threads[t].waiter < |s.threads| && s.threads[s.threads[t].waiter] == Suspended
  }

  ghost predicate Inv(s: State) {
    MutexOk(s) && ElementsOk(s) && HandlesOk(s) && (forall w :: WaiterOk(s, w)) && CountersOk(s) && CarriedOk(s) && ServedOk(s)
    && forall x: Item :: SentOk(s, x)
  }

  // ---------------------------------------------------------------- what one step changes

  predicate Dispatches(s: State, a: Action)
    requires Enabled(s, a)
  {
    a.c.Go? && s.threads[a.t].PDispatch?
  }

  lemma MutexEffect(s: State, t: nat, th: Thread)
    requires (Locked(th) <==> s.mutex == Some(t)) && (WantsMutex(th) ==> s.mutex == None) && !th.PDispatch?
    ensures var m := Own(s, t, th).mutex;
            && (Locked(Then(s, th)) <==> m == Some(t))
            && (m == s.mutex || (s.mutex == None && m == Some(t)) || (s.mutex == Some(t) && m == None))
  {
  }

  lemma CounterEffect(s: State, t: nat, th: Thread)
    requires (th.PCount? ==> s.waiting == 0) && (th.CPush? || th.CCount? ==> s.prepared == 0)
    requires (th.CSwap? || th.PSwap? ==> th.seen > 0) && (s.prepared == 0 || s.waiting == 0)
    ensures var p, w, th' := Own(s, t, th).prepared, Own(s, t, th).waiting, Then(s, th);
            && (p <= s.prepared || th.PCount?) && (w <= s.waiting || th.CCount?) && (p == 0 || w == 0)
            && (th'.PCount? ==> w == 0) && (th'.CPush? || th'.CCount? ==> p == 0) && (th'.CSwap? || th'.PSwap? ==> th'.seen > 0)
  {
  }

  lemma CarryEffect(s: State, th: Thread)
    ensures var th' := Then(s, th);
            (th'.PUnlock? ==> th == PPop && s.handles != [] && th'.waiter == s.handles[0])
            && (th'.PDispatch? ==> th == PUnlock(th'.waiter))
  {
  }

  lemma ClaimEffect(s: State, t: nat, th: Thread)
    requires th == Ready ==> s.elements != []
    requires th.CSwap? ==> th.seen > 0
    requires !th.PDispatch? && !th.Suspended?
    ensures |Own(s, t, th).elements| + s.prepared + Claims(th) == |s.elements| + Own(s, t, th).prepared + Claims(Then(s, th))
    ensures s.sent == Items(s.received) + s.elements ==>
              Own(s, t, th).sent == Items(Own(s, t, th).received) + Own(s, t, th).elements
  {
    if th.Ready? {
      assert Items(s.received + [Receipt(t, s.elements[0])]) == Items(s.received) + [s.elements[0]];
    }
  }

  /** Whoever resumes gets the one value that ends its await. */
  lemma ServeEffect(s: State, t: nat, th: Thread, w: nat)
    requires th == Ready ==> s.elements != []
    requires !th.PDispatch? && !th.Suspended?
    ensures Own(s, t, th).asked == s.asked
    ensures |Own(s, t, th).received| + Awaits(Then(s, th)) == |s.received| + Awaits(th)
    ensures Sum(By(w), Own(s, t, th).received) + (if t == w then Awaits(Then(s, th)) else 0)
         == Sum(By(w), s.received) + (if t == w then Awaits(th) else 0)
  {
    if th.Ready? {
      SumAppend(By(w), s.received, Receipt(t, s.elements[0]));
    }
  }

  lemma HandleEffect(s: State, t: nat, th: Thread)
    requires th == PPop ==> s.handles != []
    requires th.PSwap? ==> th.seen > 0
    requires !th.PDispatch?
    ensures |Own(s, t, th).handles| + s.waiting + Uncounted(th) == |s.handles| + Own(s, t, th).waiting + Uncounted(Then(s, th))
    ensures s.lined == s.called + s.handles ==> Own(s, t, th).lined == Own(s, t, th).called + Own(s, t, th).handles
  {
  }

  lemma WaiterEffect(s: State, t: nat, th: Thread, w: nat)
    requires th == PPop ==> s.handles != []
    requires !th.PDispatch? && !th.Suspended?
    ensures Sum(SameAs(w), Own(s, t, th).handles) + Carries(w)(Then(s, th)) + AsNat(t == w && Waits(th))
            == Sum(SameAs(w), s.handles) + Carries(w)(th) + AsNat(t == w && Waits(Then(s, th)))
  {
    hide Sum;
    if th.CPush? {
      SumAppend(SameAs(w), s.handles, t);
    } else if th.PPop? {
      FirstHandle(s.handles, w);
    }
  }

  lemma FirstHandle(handles: seq<nat>, w: nat)
    requires handles != []
    ensures Sum(SameAs(w), handles) == SameAs(w)(handles[0]) + Sum(SameAs(w), handles[1..])
  {
  }

  // ---------------------------------------------------------------- every step keeps the invariant

  /** No queue is empty when something is taken from it. */
  lemma NotEmpty(s: State, t: nat)
    requires Inv(s) && t < |s.threads|
    ensures s.threads[t] == Ready ==> s.elements != []
    ensures s.threads[t] == PPop ==> s.handles != []
  {
    SumAtLeast(Claims, s.threads, t);
    SumAtLeast(Uncounted, s.threads, t);
  }

  lemma StepMutex(s: State, a: Action)
    requires Inv(s) && Enabled(s, a)
    ensures MutexOk(Step(s, a))
  {
    hide Own, Then;
    if a.c.Go? && !Dispatches(s, a) {
      MutexEffect(s, a.t, s.threads[a.t]);
    }
  }

  lemma StepElements(s: State, a: Action)
    requires Inv(s) && Enabled(s, a)
    ensures ElementsOk(Step(s, a))
  {
    hide Sum;
    hide Own, Then;
    var th := s.threads[a.t];
    NotEmpty(s, a.t);
    if Dispatches(s, a) {
      var mid := s.threads[a.t := Idle];
      SumUpdate(Claims, s.threads, a.t, Idle);
      SumUpdate(Claims, mid, th.waiter, Ready);
    } else {
      SumUpdate(Claims, s.threads, a.t, Step(s, a).threads[a.t]);
      if a.c.Go? {
        ClaimEffect(s, a.t, th);
      }
    }
  }

  lemma StepServed(s: State, a: Action)
    requires Inv(s) && Enabled(s, a)
    ensures ServedOk(Step(s, a))
  {
    hide Own, Then, Sum;
    var s' := Step(s, a);
    var th := s.threads[a.t];
    NotEmpty(s, a.t);
    if Dispatches(s, a) {
      SumUpdate(Awaits, s.threads, a.t, Idle);
      SumUpdate(Awaits, s.threads[a.t := Idle], th.waiter, Ready);
    } else {
      SumUpdate(Awaits, s.threads, a.t, s'.threads[a.t]);
      if a.c.Go? {
        ServeEffect(s, a.t, th, 0);
      }
    }
    forall w ensures Served(s', w) {
      assert Served(s, w);
      if a.c.Await? {
        SumAppend(SameAs(w), s.asked, a.t);
      } else if a.c.Go? && !Dispatches(s, a) {
        ServeEffect(s, a.t, th, w);
      }
    }
  }

  lemma SendEffect(s: State, t: nat, th: Thread, x: Item)
    requires !th.Idle? && !th.Suspended? && !th.PDispatch?
    ensures Sum(SameAs(x), Own(s, t, th).sent) + Coming(x)(Then(s, th)) == Sum(SameAs(x), s.sent) + Coming(x)(th)
    ensures Own(s, t, th).offered == s.offered
  {
    if th.PPush? {
      SumAppend(SameAs(x), s.sent, th.item);
    }
  }

  lemma StepSent(s: State, a: Action, x: Item)
    requires Inv(s) && Enabled(s, a)
    ensures SentOk(Step(s, a), x)
  {
    hide Own, Then, Sum;
    assert SentOk(s, x);
    var th := s.threads[a.t];
    if Dispatches(s, a) {
      SumUpdate(Coming(x), s.threads, a.t, Idle);
      SumUpdate(Coming(x), s.threads[a.t := Idle], th.waiter, Ready);
    } else {
      SumUpdate(Coming(x), s.threads, a.t, Step(s, a).threads[a.t]);
      if a.c.Go? {
        SendEffect(s, a.t, th, x);
      } else if a.c.Emplace? {
        SumAppend(SameAs(x), s.offered, a.c.item);
      }
    }
  }

  lemma StepHandles(s: State, a: Action)
    requires Inv(s) && Enabled(s, a)
    ensures HandlesOk(Step(s, a))
  {
    hide Own, Then;
    var th := s.threads[a.t];
    NotEmpty(s, a.t);
    if Dispatches(s, a) {
      var mid := s.threads[a.t := Idle];
      SumUpdate(Uncounted, s.threads, a.t, Idle);
      SumUpdate(Uncounted, mid, th.waiter, Ready);
    } else {
      SumUpdate(Uncounted, s.threads, a.t, Step(s, a).threads[a.t]);
      if a.c.Go? {
        HandleEffect(s, a.t, th);
      }
    }
  }

  lemma StepWaiter(s: State, a: Action, w: nat)
    requires Inv(s) && Enabled(s, a)
    ensures WaiterOk(Step(s, a), w)
  {
    assert WaiterOk(s, w);
    if Dispatches(s, a) {
      DispatchWaiter(s, a, w);
    } else if a.c.Go? {
      OwnWaiter(s, a.t, w);
    } else {
      hide Sum;
      SumUpdate(Carries(w), s.threads, a.t, Step(s, a).threads[a.t]);
    }
  }

  lemma OwnWaiter(s: State, t: nat, w: nat)
    requires Inv(s) && WaiterOk(s, w) && Enabled(s, Action(t, Go)) && !s.threads[t].PDispatch?
    ensures WaiterOk(Step(s, Action(t, Go)), w)
  {
    hide Own, Then, Sum;
    var th := s.threads[t];
    NotEmpty(s, t);
    SumUpdate(Carries(w), s.threads, t, Then(s, th));
    WaiterEffect(s, t, th, w);
  }

  lemma DispatchWaiter(s: State, a: Action, w: nat)
    requires Inv(s) && Enabled(s, a) && Dispatches(s, a) && WaiterOk(s, w)
    ensures WaiterOk(Step(s, a), w)
  {
    hide Own, Then, Sum, Carries, SameAs, Waits, ElementsOk, HandlesOk, CountersOk, ServedOk, MutexOk;
    WaiterGone(s.threads, a.t, s.threads[a.t].waiter, w);
  }

  /** A dispatched waiter is no longer carried, and no longer waits. */
  lemma WaiterGone(threads: seq<Thread>, t: nat, v: nat, w: nat)
    requires t < |threads| && threads[t] == PDispatch(v) && v < |threads| && threads[v] == Suspended
    ensures var after := threads[t := Idle][v := Ready];
            && Sum(Carries(w), after) + AsNat(w == v) == Sum(Carries(w), threads)
            && AsNat(w < |after| && Waits(after[w])) + AsNat(w == v) == AsNat(w < |threads| && Waits(threads[w]))
  {
    hide Sum;
    SumUpdate(Carries(w), threads, t, Idle);
    SumUpdate(Carries(w), threads[t := Idle], v, Ready);
  }

  lemma StepCounters(s: State, a: Action)
    requires Inv(s) && Enabled(s, a)
    ensures CountersOk(Step(s, a))
  {
    hide Own, Then;
    if a.c.Go? && !Dispatches(s, a) {
      CounterEffect(s, a.t, s.threads[a.t]);
    }
  }

  lemma StepCarried(s: State, a: Action)
    requires Inv(s) && Enabled(s, a)
    ensures CarriedOk(Step(s, a))
  {
    hide Own, Then;
    if a.c.Go? && !Dispatches(s, a) {
      CarryEffect(s, s.threads[a.t]);
    }
    NotEmpty(s, a.t);
    if Dispatches(s, a) {
      OneCarrier(s, a.t);
    } else if s.threads[a.t] == PPop {
      HeadSuspended(s, a.t);
    }
  }

  /** The handle a producer pops belongs to a suspended consumer: its owner would hold the mutex otherwise. */
  lemma HeadSuspended(s: State, t: nat)
    requires Inv(s) && t < |s.threads| && s.threads[t] == PPop && s.handles != []
    ensures s.handles[0] < |s.threads| && s.threads[s.handles[0]] == Suspended
  {
    var w := s.handles[0];
    assert WaiterOk(s, w);
    SumAtLeast(SameAs(w), s.handles, 0);
    assert SameAs(w)(w) == AsNat(w == w);
    assert Locked(s.threads[t]);
  }

  lemma OneCarrier(s: State, t: nat)
    requires Inv(s) && t < |s.threads| && s.threads[t].PDispatch?
    ensures forall u | 0 <= u < |s.threads| && u != t && (s.threads[u].PUnlock? || s.threads[u].PDispatch?) ::
              s.threads[u].waiter != s.threads[t].waiter
  {
    var w := s.threads[t].waiter;
    assert WaiterOk(s, w);
    forall u | 0 <= u < |s.threads| && u != t ensures Carries(w)(s.threads[u]) == 0 {
      if u < t {
        SumPair(Carries(w), s.threads, u, t);
      } else {
        SumPair(Carries(w), s.threads, t, u);
      }
    }
  }

  lemma StepInv(s: State, s': State)
    requires Inv(s) && Next(s, s')
    ensures Inv(s')
  {
    var a :| Enabled(s, a) && s' == Step(s, a);
    StepMutex(s, a);
    StepElements(s, a);
    StepHandles(s, a);
    forall w ensures WaiterOk(s', w) { StepWaiter(s, a, w); }
    StepCounters(s, a);
    StepCarried(s, a);
    StepServed(s, a);
    forall x: Item ensures SentOk(s', x) { StepSent(s, a, x); }
  }

  lemma InitInv(s: State)
    requires Init(s)
    ensures Inv(s)
  {
    SumZero(Claims, s.threads);
    SumZero(Uncounted, s.threads);
    SumZero(Awaits, s.threads);
    forall w ensures WaiterOk(s, w) {
      SumZero(Carries(w), s.threads);
    }
    forall x: Item ensures SentOk(s, x) {
      SumZero(Coming(x), s.threads);
    }
  }

  // ---------------------------------------------------------------- theorems over every run

  lemma RunInv(run: seq<State>, k: nat)
    requires Runs.IsRun(Init, Next, run) && k < |run|
    ensures Inv(run[k])
  {
    forall s | Init(s) ensures Inv(s) { InitInv(s); }
    forall s, s' | Inv(s) && Next(s, s') ensures Inv(s') { StepInv(s, s'); }
    Runs.Invariant(Init, Next, Inv, run);
  }

  /** Never are elements left over and consumers counted as waiting at once. */
  lemma NeverBoth(run: seq<State>, k: nat)
    requires Runs.IsRun(Init, Next, run) && k < |run|
    ensures run[k].prepared == 0 || run[k].waiting == 0
  {
    RunInv(run, k);
  }

  /** The elements are those prepared, those of dispatched consumers, and those of emplaces under
      way; so a consumer that resumes, or a producer that pops a handle, finds one. */
  lemma Accounted(run: seq<State>, k: nat, t: nat)
    requires Runs.IsRun(Init, Next, run) && k < |run| && t < |run[k].threads|
    ensures var s := run[k];
            && |s.elements| == s.prepared + Sum(Claims, s.threads)
            && |s.handles| == s.waiting + Sum(Uncounted, s.threads)
            && (s.threads[t] == Ready ==> s.elements != []) && (s.threads[t] == PPop ==> s.handles != [])
  {
    RunInv(run, k);
    NotEmpty(run[k], t);
  }

  /** The i-th element that comes out is the i-th that went in, so each goes to one consumer; and each consumer has
      got as many as it has awaited, but for the await it is in. */
  lemma OneReceiver(run: seq<State>, k: nat, w: nat)
    requires Runs.IsRun(Init, Next, run) && k < |run| && w < |run[k].threads|
    ensures var s := run[k];
            && |s.sent| == |s.received| + |s.elements|
            && (forall i | 0 <= i < |s.received| :: s.received[i].item == s.sent[i])
            && Sum(SameAs(w), s.asked) == Sum(By(w), s.received) + Awaits(s.threads[w])
  {
    RunInv(run, k);
    var s := run[k];
    assert Served(s, w);
    forall i | 0 <= i < |s.received| ensures s.received[i].item == s.sent[i] {
      assert s.sent[i] == Items(s.received)[i];
    }
  }

  /** A suspended consumer is in the queue of handles once, or with one producer; and only suspended
      consumers are dispatched. */
  lemma WokenOnce(run: seq<State>, k: nat, w: nat)
    requires Runs.IsRun(Init, Next, run) && k < |run| && w < |run[k].threads|
    ensures var s := run[k];
            && (s.threads[w] == Suspended ==> Sum(SameAs(w), s.handles) + Sum(Carries(w), s.threads) == 1)
            && forall t | 0 <= t < |s.threads| && s.threads[t] == PDispatch(w) :: s.threads[w] == Suspended
  {
    RunInv(run, k);
    assert WaiterOk(run[k], w);
  }

  /** Every value that emplace() was called with was sent once, or is still to be. */
  lemma OfferedSent(run: seq<State>, k: nat, x: Item)
    requires Runs.IsRun(Init, Next, run) && k < |run|
    ensures Sum(SameAs(x), run[k].offered) == Sum(SameAs(x), run[k].sent) + Sum(Coming(x), run[k].threads)
  {
    RunInv(run, k);
    assert SentOk(run[k], x);
  }

  /** Consumers are called in the order in which they lined up: the i-th handle taken from the queue is the i-th that
      was put into it. Who lines up is the thread that is about to suspend, and who is called is the one that the
      calling thread then dispatches. */
  lemma FirstComeFirstServed(run: seq<State>, k: nat, a: Action)
    requires Runs.IsRun(Init, Next, run) && k < |run| && Enabled(run[k], a)
    ensures run[k].lined == run[k].called + run[k].handles
    ensures var (s, s') := (run[k], Step(run[k], a));
            && s'.lined == (if a.c.Go? && s.threads[a.t] == CPush then s.lined + [a.t] else s.lined)
            && (s'.called != s.called ==>
                  s'.threads[a.t].PUnlock? && s'.called == s.called + [s'.threads[a.t].waiter])
            && (a.c.Go? && s.threads[a.t] == PPop ==> s'.called != s.called)
  {
    RunInv(run, k);
    NotEmpty(run[k], a.t);
  }

  predicate AtRest(s: State) {
    forall t | 0 <= t < |s.threads| :: s.threads[t] == Idle || s.threads[t] == Suspended || s.threads[t] == Ready
  }

  /** When no call is under way, no consumer is left suspended beside an element that is not spoken for. */
  lemma RestIsFair(run: seq<State>, k: nat, w: nat)
    requires Runs.IsRun(Init, Next, run) && k < |run| && AtRest(run[k])
    requires w < |run[k].threads| && run[k].threads[w] == Suspended
    ensures run[k].prepared == 0 && |run[k].elements| == Sum(Claims, run[k].threads)
  {
    RunInv(run, k);
    var s := run[k];
    assert WaiterOk(s, w);
    SumZero(Carries(w), s.threads);
    SumZero(Uncounted, s.threads);
  }

  /** As long as a call is under way some step is possible: the mutex never blocks everyone. */
  lemma NeverStuck(run: seq<State>, k: nat, t: nat)
    requires Runs.IsRun(Init, Next, run) && k < |run| && t < |run[k].threads|
    requires run[k].threads[t] != Idle && run[k].threads[t] != Suspended
    ensures exists u :: Enabled(run[k], Action(u, Go))
  {
    RunInv(run, k);
    GoesOn(run[k], t);
  }

  lemma GoesOn(s: State, t: nat)
    requires Inv(s) && t < |s.threads| && s.threads[t] != Idle && s.threads[t] != Suspended
    ensures exists u :: Enabled(s, Action(u, Go))
  {
    if s.mutex.Some? {
      assert Locked(s.threads[s.mutex.value]);
      assert Enabled(s, Action(s.mutex.value, Go));
    } else {
      assert Enabled(s, Action(t, Go));
    }
  }
}
