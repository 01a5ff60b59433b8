/** What queue() and poll() do when nobody disturbs them, and when they wake another thread. */
module PoolCalls {
  import opened Counting
  import opened Pool
  import opened PoolPriority
  import Runs

  // ---------------------------------------------------------------- queue()

  /** Thread t tries the heads of its priority one after the other. */
  function Tried(s: State, t: nat): State
    requires t < |s.threads|
    decreases if s.threads[t].op.QueueTry? && s.threads[t].op.n < DUPLICATES then DUPLICATES - s.threads[t].op.n else 0
  {
    var op := s.threads[t].op;
    if op.QueueTry? && op.n < DUPLICATES then
      var s' := Step(s, Queue(t, TrySlot));
      if s'.threads[t].op.QueueTry? && s'.threads[t].op.n == op.n + 1 then Tried(s', t) else s'
    else s
  }

  /** The m-th head of that priority. */
  function HeadOf(s: State, prio: nat, m: nat): nat {
    m * s.size + prio
  }

  lemma HeadBound(s: State, prio: nat, m: nat)
    requires prio < s.size && m < DUPLICATES
    ensures HeadOf(s, prio, m) < DUPLICATES * s.size
  {
    assert m == 0 || m == 1 || m == 2 || m == 3;
  }

  lemma TryOnce(s: State, t: nat, node: Node, prio: nat, n: nat)
    requires t < |s.threads| && s.threads[t].op == QueueTry(node, prio, n) && n < DUPLICATES && prio < s.size
    requires |s.heads| == |s.chains| == DUPLICATES * s.size
    ensures var (i, th) := (HeadOf(s, prio, n), s.threads[t]);
            && i < |s.heads|
            && Step(s, Queue(t, TrySlot))
               == if s.heads[i].None? then
                    s.(heads := s.heads[i := Some(node)], chains := s.chains[i := [node]],
                       threads := s.threads[t := th.(op := Linked(prio))])
                  else if n + 1 < DUPLICATES then s.(threads := s.threads[t := th.(op := QueueTry(node, prio, n + 1))])
                  else s.(threads := s.threads[t := th.(op := QueuePick(node, prio))])
  {
    HeadBound(s, prio, n);
    assert Slot(s, prio, n) == HeadOf(s, prio, n);
  }

  /** The task goes into the first head of its priority that is empty, as its only task; if all are filled one of
      them is to be picked. */
  lemma {:induction false} TriesAll(s: State, t: nat, node: Node, prio: nat, n: nat) returns (m: nat)
    requires t < |s.threads| && s.threads[t].op == QueueTry(node, prio, n) && n < DUPLICATES && prio < s.size
    requires |s.heads| == |s.chains| == DUPLICATES * s.size
    ensures n <= m <= DUPLICATES && forall j | n <= j < m :: Head(s, HeadOf(s, prio, j)).Some?
    ensures var (i, th) := (HeadOf(s, prio, m), s.threads[t]);
            if m < DUPLICATES then
              && i < |s.heads| && s.heads[i].None?
              && Tried(s, t) == s.(heads := s.heads[i := Some(node)], chains := s.chains[i := [node]],
                                   threads := s.threads[t := th.(op := Linked(prio))])
            else Tried(s, t) == s.(threads := s.threads[t := th.(op := QueuePick(node, prio))])
    decreases DUPLICATES - n
  {
    hide Step;
    TryOnce(s, t, node, prio, n);
    var (s', th) := (Step(s, Queue(t, TrySlot)), s.threads[t]);
    m := n;
    if s.heads[HeadOf(s, prio, n)].Some? {
      if n + 1 < DUPLICATES {
        m := TriesAll(s', t, node, prio, n + 1);
        forall o: Op ensures s'.threads[t := s'.threads[t].(op := o)] == s.threads[t := th.(op := o)] {
        }
        forall j | n <= j < m ensures Head(s, HeadOf(s, prio, j)).Some? {
          assert Head(s', HeadOf(s', prio, j)) == Head(s, HeadOf(s, prio, j));
        }
      } else {
        m := DUPLICATES;
      }
    }
  }

  /** In a filled head the task becomes the first. */
  lemma LinksFirst(s: State, t: nat)
    requires Inv(s) && t < |s.threads| && s.threads[t].op.QueueLoad?
    ensures var (op, s1) := (s.threads[t].op, Step(s, Queue(t, LoadHead)));
            && Enabled(s1, Queue(t, LinkNode(false)))
            && var s2 := Step(s1, Queue(t, LinkNode(false)));
               && op.head < |s.chains| && s2.chains == s.chains[op.head := [op.node] + s.chains[op.head]]
               && s2.threads == s.threads[t := s.threads[t].(op := if op.loud then Linked(op.prio) else NoOp)]
  {
    assert ThreadOK(s.threads[t], |s.heads|, s.size, t < s.size);
  }

  // ---------------------------------------------------------------- poll()

  /** Thread t polls head k. */
  function Polled(s: State, t: nat, k: nat): State
    requires t < |s.threads| && s.threads[t] == Thread(Polling, NoOp, []) && Head(s, k).Some? && k < |s.heads|
  {
    var s1 := Step(s, Poll(t, PickHead(k)));
    var s2 := Step(s1, Poll(t, Load));
    if Enabled(s2, Poll(t, Take)) then
      var s3 := Step(s2, Poll(t, Take));
      if Enabled(s3, Poll(t, PutBack)) then Step(s3, Poll(t, PutBack)) else s3
    else s2
  }

  /** The exchange takes the whole chain. */
  lemma Takes(s: State, t: nat, k: nat)
    requires Inv(s) && t < |s.threads| && s.threads[t] == Thread(Polling, NoOp, []) && Head(s, k).Some? && k < |s.heads|
    ensures k < |s.chains| && s.chains[k] != []
    ensures var s2 := Step(Step(s, Poll(t, PickHead(k))), Poll(t, Load));
            && Enabled(s2, Poll(t, Take))
            && Step(s2, Poll(t, Take))
               == s.(heads := s.heads[k := None], chains := s.chains[k := []],
                     threads := s.threads[t := Thread(PollBack(k, s.chains[k][0]), NoOp, s.chains[k][1..])])
  {
    assert Tied(s.next, s.heads[k], s.chains[k]);
    var s1 := Step(s, Poll(t, PickHead(k)));
    assert s1 == s.(threads := s.threads[t := Thread(PollLoad(k), NoOp, [])]);
    var s2 := Step(s1, Poll(t, Load));
    assert s2 == s.(threads := s.threads[t := Thread(PollTake(k), NoOp, [])]);
    assert Step(s2, Poll(t, Take)).threads == s.threads[t := Thread(PollBack(k, s.chains[k][0]), NoOp, s.chains[k][1..])];
  }

  /** A poll of a filled head runs its first task and leaves the others there. */
  lemma PollsFirst(s: State, t: nat, k: nat)
    requires Inv(s) && t < |s.threads| && s.threads[t] == Thread(Polling, NoOp, []) && Head(s, k).Some? && k < |s.heads|
    ensures k < |s.chains| && s.chains[k] != []
    ensures var e := Polled(s, t, k);
            && e.threads == s.threads[t := Thread(Running(s.chains[k][0]), NoOp, [])]
            && e.chains == s.chains[k := s.chains[k][1..]] && e.next == s.next && e.shared == s.shared
  {
    hide Inv;
    Takes(s, t, k);
  }

  // ---------------------------------------------------------------- waking

  /** Whoever has linked a task, or given tasks back, wakes another thread exactly if more threads wait than the
      priority of the head and the limit say. */
  lemma WakesExactly(run: seq<State>, k: nat, t: nat)
    requires Runs.IsRun(Init, Next, run) && k < |run| && t < |run[k].threads|
    ensures var s := run[k];
            && (forall prio: nat | s.threads[t].op == Linked(prio) && Enabled(s, Queue(t, ReadWaiting)) ::
                  Step(s, Queue(t, ReadWaiting)).threads[t].op
                  == if Sum(Waits, s.threads) > prio + s.limit then Notify else NoOp)
            && (s.threads[t].base.GiveCheck? && Enabled(s, Poll(t, ReadWaitingToo)) ==>
                  s.size > 0
                  && Step(s, Poll(t, ReadWaitingToo)).threads[t].base
                     == if Sum(Waits, s.threads) > s.threads[t].base.i % s.size + s.limit
                        then GiveNotify(s.threads[t].base.task) else Running(s.threads[t].base.task))
  {
    RunInv(run, k);
  }
}
