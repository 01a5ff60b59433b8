/** What a call of the ring queue has done when it returns, and that it returns, whatever the other thread does
    meanwhile. */
module RingCalls {
  import opened Counter
  import opened Ring
  import opened RingProtocol
  import Runs

  function Least(a: int, b: int): int {
    if a <= b then a else b
  }

  /** How far the call of the producer has come. */
  ghost predicate PushOK(s: State) {
    && s.pushing.PushCall?
    && var c := s.pushing;
       && c.popped <= s.popped && c.popped <= c.sent <= |s.sent| && c.sent <= c.popped + s.e
       && (!s.prod.PIdle? ==> |s.sent| == c.sent)
       && match s.prod
          case PIdle => Pushed(c, s.e, s.sent[c.sent..])
          case PCheck(items, range) => items == c.items && range == c.range && (!range ==> |items| == 1)
          case PRead(items) => items == c.items && c.range
          case PFill(items, n, _, _, _) => items == c.items && c.range && n <= |items| && c.popped <= s.seenPop
          case PPut(item) => c.items == [item] && !c.range
          case PPublish(made) => Pushed(c, s.e, made)
  }

  /** The first items of the call, at least as many as there was room for when it began. */
  predicate Pushed(c: Call, e: nat, made: seq<Item>)
    requires c.PushCall?
  {
    made <= c.items && Least(|c.items|, c.popped + e - c.sent) <= |made|
  }

  ghost predicate PopOK(s: State) {
    && s.popping.PopCall?
    && var c := s.popping;
       && c.sent <= |s.sent| && c.popped <= s.popped && c.popped <= c.sent
       && (!s.cons.CIdle? ==> s.popped == c.popped)
       && match s.cons
          case CIdle => Popped(c, s.popped - c.popped)
          case CCheck(most, range) => most == c.most && range == c.range && (!range ==> most == 1)
          case CRead(most) => most == c.most && c.range
          case CDrain(most, n, _, _, _) => most == c.most && c.range && n <= most && c.sent <= s.seenPush
          case CTake => c.most == 1 && !c.range
          case CPublish(n) => Popped(c, n)
  }

  /** As many as wanted, or at least as many as were there when the call began. */
  predicate Popped(c: Call, n: int)
    requires c.PopCall?
  {
    Least(c.most, c.sent - c.popped) <= n <= c.most
  }

  // ---------------------------------------------------------------- the steps of a call

  /** A push is refused exactly when the ring is full, a pop when it is empty. */
  lemma Refused(s: State)
    requires Inv(s)
    ensures s.prod.PCheck? ==> (Produce(s).prod == PIdle <==> |s.sent| == s.popped + s.e)
    ensures s.cons.CCheck? ==> (Consume(s).cons == CIdle <==> s.popped == |s.sent|)
  {
    hide StepCounter, At, Place, Layout;
    AtStep(s.e, s.start, s.popped, s.e);
    AtTells(s.e, s.start, s.popped, s.e, |s.sent| - s.popped);
    AtTells(s.e, s.start, s.popped, 0, |s.sent| - s.popped);
  }

  /** A range push ends its loop with all items, or with the room it saw used up; a range pop with all that were
      wanted, or that it saw. */
  lemma EndsLoop(s: State)
    requires Inv(s)
    ensures s.prod.PFill? && Produce(s).prod.PPublish? ==>
              Produce(s).prod.made == s.prod.items[..s.prod.n]
              && s.prod.n == Least(|s.prod.items|, s.seenPop + s.e - |s.sent|)
    ensures s.cons.CDrain? && Consume(s).cons.CPublish? ==>
              Consume(s).cons.n == s.cons.n == Least(s.cons.most, s.seenPush - s.popped)
  {
    hide StepCounter, At, Place, Layout;
  }

  lemma ProducePushes(s: State)
    requires Inv(s) && PushOK(s) && !s.prod.PIdle?
    ensures PushOK(Produce(s))
  {
    hide StepCounter, At, Place, Layout, CountersOk, ProducerOk, ConsumerOk;
    Refused(s);
    EndsLoop(s);
    ProduceInv(s);
    if s.prod.PPublish? {
      assert (s.sent + s.prod.made)[s.pushing.sent..] == s.prod.made;
    }
  }

  lemma ConsumePops(s: State)
    requires Inv(s) && PopOK(s) && !s.cons.CIdle?
    ensures PopOK(Consume(s))
  {
    hide StepCounter, At, Place, Layout, CountersOk, ProducerOk, ConsumerOk, RingOk;
    Refused(s);
    EndsLoop(s);
  }

  /** What the other thread does leaves a call alone. */
  lemma Beside(s: State)
    requires Inv(s)
    ensures PushOK(s) ==> PushOK(Consume(s)) && Consume(s).prod == s.prod
    ensures PopOK(s) ==> PopOK(Produce(s)) && Produce(s).cons == s.cons
  {
    hide StepCounter, At, Place, Layout;
    if s.prod.PPublish? && PopOK(s) {
      assert |(s.sent + s.prod.made)| >= |s.sent|;
    }
  }

  lemma StepCalls(s: State, a: Action)
    requires Inv(s) && PushOK(s) && PopOK(s) && Enabled(s, a)
    ensures PushOK(RingProtocol.Step(s, a)) && PopOK(RingProtocol.Step(s, a))
  {
    Beside(s);
    hide StepCounter, At, Place, Layout, Produce, Consume;
    match a
    case ProducerStep => ProducePushes(s);
    case ConsumerStep => ConsumePops(s);
    case _ =>
  }

  lemma RunCalls(run: seq<State>, k: nat)
    requires Runs.IsRun(Init, Next, run) && k < |run|
    ensures Inv(run[k]) && PushOK(run[k]) && PopOK(run[k])
  {
    var good := (s: State) => Inv(s) && PushOK(s) && PopOK(s);
    forall s | Init(s) ensures good(s) { InitInv(s); }
    forall s, s' | good(s) && Next(s, s') ensures good(s') {
      var a :| Enabled(s, a) && s' == RingProtocol.Step(s, a);
      StepInv(s, s');
      StepCalls(s, a);
    }
    Runs.Invariant(Init, Next, good, run);
  }

  // ---------------------------------------------------------------- theorems over every run

  /** A push that has returned has sent the first of its items, in order: at least as many as there was room for when
      it began, and all of them unless the ring was too full. */
  lemma PushDone(run: seq<State>, k: nat)
    requires Runs.IsRun(Init, Next, run) && k < |run| && run[k].prod == PIdle
    ensures var (s, c) := (run[k], run[k].pushing);
            && c.PushCall? && c.sent <= |s.sent| && s.sent[c.sent..] <= c.items
            && Least(|c.items|, c.popped + s.e - c.sent) <= |s.sent| - c.sent
  {
    RunCalls(run, k);
  }

  /** A pop that has returned has taken out the oldest items: at most as many as wanted, and at least as many of them as
      were there when it began. */
  lemma PopDone(run: seq<State>, k: nat)
    requires Runs.IsRun(Init, Next, run) && k < |run| && run[k].cons == CIdle
    ensures var (s, c) := (run[k], run[k].popping);
            && c.PopCall? && s.popped <= |s.sent| && s.received == s.sent[..s.popped]
            && Least(c.most, c.sent - c.popped) <= s.popped - c.popped <= c.most
  {
    RunCalls(run, k);
    var s := run[k];
    assert (s.sent + Made(s.prod))[..s.popped] == s.sent[..s.popped];
  }

  /** How many steps a call has before it at most. */
  function PushSteps(p: Producer): nat {
    match p
    case PIdle => 0
    case PCheck(items, _) => |items| + 6
    case PRead(items) => |items| + 5
    case PFill(items, n, _, _, upper) => (if n <= |items| then |items| - n else 0) + if upper then 4 else 3
    case PPut(_) => 3
    case PPublish(_) => 1
  }

  function PopSteps(c: Consumer): nat {
    match c
    case CIdle => 0
    case CCheck(most, _) => most + 6
    case CRead(most) => most + 5
    case CDrain(most, n, _, _, upper) => (if n <= most then most - n else 0) + if upper then 4 else 3
    case CTake => 3
    case CPublish(_) => 1
  }

  /** Calls are wait-free: each step of a call brings it nearer to its end, and the other thread's steps leave it where
      it is. */
  lemma WaitFree(s: State)
    requires Inv(s)
    ensures !s.prod.PIdle? ==> PushSteps(Produce(s).prod) < PushSteps(s.prod)
    ensures !s.cons.CIdle? ==> PopSteps(Consume(s).cons) < PopSteps(s.cons)
    ensures Consume(s).prod == s.prod && Produce(s).cons == s.cons
  {
    hide StepCounter, At, Place, Layout;
  }
}
