/** The task heads of the pool and the priorities of the tasks in them. */
module PoolPriority {
  import Counter
  import opened Counting
  import opened Pool
  import Runs

  /** Priority prio as far as there are threads. */
  function Lowest(prio: nat, size: nat): nat
    requires size > 0
  {
    if prio < size then prio else size - 1
  }

  /** Task x belongs into head i: it was queued with the priority of that head, or after terminate(), when all tasks
      go to head 0. */
  predicate Filed(s: State, i: nat, x: Node) {
    x in s.asked && if s.asked[x].Some? then s.size > 0 && i % s.size == Lowest(s.asked[x].value, s.size) else i == 0
  }

  predicate AllFiled(s: State, i: nat, c: seq<Node>) {
    forall k | 0 <= k < |c| :: Filed(s, i, c[k])
  }

  /** What a thread took out of a head, or is about to put into one, belongs there. */
  predicate ThreadFiled(s: State, th: Thread) {
    && (match th.base
        case PollBack(i, task) => Filed(s, i, task) && AllFiled(s, i, th.held)
        case Give(i, task, _) => Filed(s, i, task) && AllFiled(s, i, th.held)
        case GiveLoad(i, task, org, _) => Filed(s, i, task) && Filed(s, i, org) && AllFiled(s, i, th.held)
        case GiveLink(i, task, org, _, _) => Filed(s, i, task) && Filed(s, i, org) && AllFiled(s, i, th.held)
        case GiveCheck(i, task) => Filed(s, i, task)
        case _ => true)
    && match th.op
       case QueueTry(node, prio, _) =>
         node in s.asked && s.asked[node].Some? && s.size > 0 && prio == Lowest(s.asked[node].value, s.size)
       case QueuePick(node, prio) =>
         node in s.asked && s.asked[node].Some? && s.size > 0 && prio == Lowest(s.asked[node].value, s.size)
       case QueueLoad(node, head, _, loud) => Filed(s, head, node) && (loud <==> s.asked[node].Some?)
       case QueueLink(node, head, _, _, loud) => Filed(s, head, node) && (loud <==> s.asked[node].Some?)
       case _ => true
  }

  ghost predicate FiledOK(s: State) {
    && (forall i | 0 <= i < |s.chains| :: AllFiled(s, i, s.chains[i]))
    && forall t | 0 <= t < |s.threads| :: ThreadFiled(s, s.threads[t])
  }

  lemma SlotPriority(s: State, prio: nat, n: nat)
    requires prio < s.size && n < DUPLICATES
    ensures Slot(s, prio, n) % s.size == prio
  {
    Counter.ModUnique(Slot(s, prio, n), s.size, n, prio);
  }

  lemma QueueFiled(s: State, t: nat, q: QueueAct)
    requires QueueEnabled(s, t, q) && !q.Begin? && 0 < s.size && Touched(s, Queue(t, q)) < |s.heads| == |s.chains|
    requires ThreadOK(s.threads[t], |s.heads|, s.size, t < s.size) && ThreadFiled(s, s.threads[t])
    requires AllFiled(s, Touched(s, Queue(t, q)), s.chains[Touched(s, Queue(t, q))])
    ensures var (e, k) := (QueueStep(s, t, q), Touched(s, Queue(t, q)));
            k < |e.chains| && AllFiled(s, k, e.chains[k]) && ThreadFiled(s, e.th)
  {
    var op := s.threads[t].op;
    if q.TrySlot? {
      SlotPriority(s, op.prio, op.n);
    } else if q.Pick? {
      SlotPriority(s, op.prio, q.m);
    }
  }

  lemma PollFiled(s: State, t: nat, p: PollAct)
    requires PollEnabled(s, t, p) && Ready(s, Poll(t, p)) && ThreadFiled(s, s.threads[t])
    requires ThreadOK(s.threads[t], |s.heads|, s.size, t < s.size)
    requires AllFiled(s, Touched(s, Poll(t, p)), s.chains[Touched(s, Poll(t, p))])
    ensures var (e, k) := (PollStep(s, t, p), Touched(s, Poll(t, p)));
            k < |e.chains| && AllFiled(s, k, e.chains[k]) && ThreadFiled(s, e.th)
  {
  }

  lemma RestFiled(s: State, a: Action)
    requires Enabled(s, a) && !a.Queue? && !a.Poll? && Ready(s, a) && ThreadFiled(s, s.threads[a.t])
    requires ThreadOK(s.threads[a.t], |s.heads|, s.size, a.t < s.size)
    requires AllFiled(s, Touched(s, a), s.chains[Touched(s, a)])
    ensures var (e, k) := (Eff(s, a), Touched(s, a));
            k < |e.chains| && AllFiled(s, k, e.chains[k]) && ThreadFiled(s, e.th)
  {
    hide QueueStep, PollStep;
  }

  /** The touched chain and the actor after a step other than the beginning of queue(). */
  lemma ActorFiled(s: State, a: Action)
    requires Enabled(s, a) && !Allocates(a) && 0 < s.size && Ready(s, a) && ThreadFiled(s, s.threads[a.t])
    requires ThreadOK(s.threads[a.t], |s.heads|, s.size, a.t < s.size)
    requires AllFiled(s, Touched(s, a), s.chains[Touched(s, a)])
    ensures var (e, k) := (Eff(s, a), Touched(s, a));
            k < |e.chains| && AllFiled(s, k, e.chains[k]) && ThreadFiled(s, e.th)
  {
    hide QueueStep, PollStep, DelayStep, CleanStep, AllFiled, ThreadFiled;
    match a
    case Queue(t, q) => QueueFiled(s, t, q);
    case Poll(t, p) => PollFiled(s, t, p);
    case _ => RestFiled(s, a);
  }

  /** A node that comes to life changes nothing for the others. */
  lemma OthersFiled(s: State, s': State, w: Node, th: Thread)
    requires ThreadFiled(s, th) && s'.size == s.size && w in s'.asked && s'.asked == s.asked[w := s'.asked[w]]
    requires Carried(th, w) == 0 && w !in th.held
    ensures ThreadFiled(s', th)
  {
  }

  lemma BeginFiled(s: State, a: Action)
    requires Inv(s) && FiledOK(s) && Enabled(s, a) && Allocates(a)
    ensures FiledOK(Step(s, a))
  {
    hide Sum, DelayStep, CleanStep, PollStep, Carried, ThreadFiled;
    StepFinds(s, a);
    var (s', w) := (Step(s, a), a.q.node);
    forall u | 0 <= u < |s'.threads| ensures ThreadFiled(s', s'.threads[u]) {
      OthersFiled(s, s', w, s.threads[u]);
      if u == a.t {
        Begun(s, a);
      }
    }
  }

  lemma Begun(s: State, a: Action)
    requires 0 < s.size && Enabled(s, a) && Allocates(a) && ThreadFiled(Step(s, a), s.threads[a.t])
    ensures ThreadFiled(Step(s, a), Step(s, a).threads[a.t])
  {
  }

  lemma StepFiled(s: State, a: Action)
    requires Inv(s) && FiledOK(s) && Enabled(s, a)
    ensures FiledOK(Step(s, a))
  {
    if Allocates(a) {
      BeginFiled(s, a);
    } else {
      hide Eff, Sum, ThreadFiled, AllFiled, Filed;
      var s' := Step(s, a);
      StepFinds(s, a);
      assert ThreadOK(s.threads[a.t], |s.heads|, s.size, a.t < s.size);
      ActorFiled(s, a);
      ChainsFrame(s, a);
      AwakeWaker(s, a);
      ThreadsFrame(s, a, Eff(s, a).th);
      forall i | 0 <= i < |s'.chains| ensures AllFiled(s', i, s'.chains[i]) {
        SameFiled(s, s', i, s'.chains[i]);
      }
      forall u | 0 <= u < |s'.threads| ensures ThreadFiled(s', s'.threads[u]) {
        WokenFiled(s, s', if u == a.t then Eff(s, a).th else s.threads[u]);
      }
    }
  }

  lemma SameFiled(s: State, s': State, i: nat, c: seq<Node>)
    requires AllFiled(s, i, c) && s'.size == s.size && s'.asked == s.asked
    ensures AllFiled(s', i, c)
  {
  }

  lemma WokenFiled(s: State, s': State, th: Thread)
    requires ThreadFiled(s, th) && s'.size == s.size && s'.asked == s.asked
    ensures ThreadFiled(s', th) && ThreadFiled(s', Wake(th))
  {
  }

  lemma RunFiled(run: seq<State>, k: nat)
    requires Runs.IsRun(Init, Next, run) && k < |run|
    ensures Inv(run[k]) && FiledOK(run[k])
  {
    var good := (s: State) => Inv(s) && FiledOK(s);
    forall s | Init(s) ensures good(s) { InitInv(s); }
    forall s, s' | good(s) && Next(s, s') ensures good(s') {
      var a :| Enabled(s, a) && s' == Step(s, a);
      StepInv(s, s');
      StepFiled(s, a);
    }
    Runs.Invariant(Init, Next, good, run);
  }

  /** A task in head i, or in the hands of a thread that polls head i, was queued with priority i modulo the number of
      threads, too high a priority counting as the last, or after terminate(), and then i is 0. */
  lemma HeadsKeepPriorities(run: seq<State>, k: nat, i: nat, x: Node)
    requires Runs.IsRun(Init, Next, run) && k < |run|
    requires || x in ChainAt(run[k], i)
             || exists t :: 0 <= t < |run[k].threads| && PollBase(run[k].threads[t].base) && run[k].threads[t].base.i == i
                            && BaseCount(run[k].threads[t].base, run[k].threads[t].held, x) > 0
    ensures Filed(run[k], i, x)
  {
    RunFiled(run, k);
    var s := run[k];
    if t :| 0 <= t < |s.threads| && PollBase(s.threads[t].base) && s.threads[t].base.i == i
            && BaseCount(s.threads[t].base, s.threads[t].held, x) > 0 {
      assert ThreadFiled(s, s.threads[t]) && HeldOK(s.next, s.threads[t]);
      assert x in s.threads[t].held <==> multiset(s.threads[t].held)[x] > 0;
    } else {
      assert AllFiled(s, i, s.chains[i]);
    }
  }

  /** The history: the priority given to queue(), unless terminate() came first. */
  lemma AskedAtBegin(s: State, a: Action)
    requires Enabled(s, a)
    ensures Allocates(a) ==> Step(s, a).asked == s.asked[a.q.node := if s.shared.terminated then None else Some(a.q.prio)]
    ensures !Allocates(a) ==> Step(s, a).asked == s.asked
  {
  }
}
