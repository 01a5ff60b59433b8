/** The record ring with a reader that keeps up: nothing is skipped, and nothing is left over. */
module RecordReads {
  import opened Counting
  import opened RecordRing
  import Runs

  predicate InSlot(s: State, u: nat) {
    |s.slots| == LENGTH && s.slots[u % LENGTH].Some? && s.slots[u % LENGTH].value.ticket == u
  }

  /** Every record the reader has yet to reach is on its way or in its slot. */
  ghost predicate Stored(s: State) {
    forall u | s.cursor <= u < s.taken && u !in s.pending :: InSlot(s, u)
  }

  /** Every ticket from `start` up to the cursor has been delivered, in this order. */
  ghost predicate AllRead(s: State, start: nat) {
    && s.cursor == start + |s.log|
    && forall i | 0 <= i < |s.log| :: s.log[i] == Delivery(start + i, start + i)
  }

  ghost predicate Good(s: State, start: nat) {
    s.lag <= LENGTH && Inv(s) && Faithful(s) && Stored(s) && AllRead(s, start)
  }

  /** The records still to be read lie in different slots. */
  lemma StoreStored(s: State, u: nat)
    requires Inv(s) && s.lag <= LENGTH && Stored(s) && u in s.pending
    ensures Stored(Step(s, Store(u)))
  {
    hide SlotsOk, LogOk;
    var t := Step(s, Store(u));
    WordSlot(u);
    forall v | t.cursor <= v < t.taken && v !in t.pending ensures InSlot(t, v) {
      if v < u {
        Apart(v, u);
      } else if u < v {
        Apart(u, v);
      }
      assert v != u ==> InSlot(s, v);
    }
  }

  lemma ReadGood(s: State, start: nat)
    requires Good(s, start)
    ensures Good(ReadStep(s), start)
    ensures var t := ReadStep(s);
            && t.taken == s.taken && t.pending == s.pending
            && (s.reader.Load? ==> t.reader.Copy? && t.cursor == s.cursor)
            && (s.reader.Copy? ==> t.reader.Load?
                                   && t.cursor == if InSlot(s, s.cursor) then s.cursor + 1 else s.cursor)
  {
    hide SlotsOk, LogOk;
    ReadMoves(s);
    ReadInv(s);
    forall u | ReadStep(s).cursor <= u < s.taken && u !in s.pending ensures InSlot(ReadStep(s), u) {
      assert InSlot(s, u);
    }
  }

  lemma StepGood(s: State, s': State, start: nat)
    requires Good(s, start) && Next(s, s')
    ensures Good(s', start)
  {
    hide Inv, ReadStep;
    StepInv(s, s');
    var a :| Enabled(s, a) && s' == Step(s, a);
    match a
    case Take =>
    case Store(u) => StoreStored(s, u);
    case Read => ReadGood(s, start);
  }

  /** A reader that never falls behind by more than the ring holds delivers every ticket since the start, once each and
      in order; and what it has yet to read is on its way or in the ring. */
  lemma NothingSkipped(run: seq<State>, k: nat)
    requires Runs.IsRun(Init, Next, run) && k < |run| && run[0].lag <= LENGTH
    ensures Good(run[k], run[0].cursor)
    decreases k
  {
    if k > 0 {
      NothingSkipped(run, k - 1);
      assert Next(run[k - 1], run[k - 1 + 1]);
      StepGood(run[k - 1], run[k], run[0].cursor);
    }
  }

  /** The reader alone, for n steps. */
  function Reads(s: State, n: nat): State
    requires |s.slots| == LENGTH
    decreases n
  {
    if n == 0 then s else Reads(ReadStep(s), n - 1)
  }

  /** Steps to the end of what is there. */
  function Left(s: State): int {
    2 * (s.taken - s.cursor) - AsNat(s.reader.Copy?)
  }

  lemma {:induction false} ReadsOn(s: State, start: nat, n: nat)
    requires Good(s, start) && s.pending == {} && |s.slots| == LENGTH && n >= Left(s)
    ensures Good(Reads(s, n), start) && Reads(s, n).taken == s.taken == Reads(s, n).cursor
    decreases n
  {
    if n > 0 {
      ReadGood(s, start);
      ReadsOn(ReadStep(s), start, n - 1);
    }
  }

  /** Once all posts are stored and no more are made, it reads to the end: every record posted since the start has then
      been delivered exactly once. */
  lemma ReadsAll(run: seq<State>, n: nat)
    requires Runs.IsRun(Init, Next, run) && run[0].lag <= LENGTH
    requires var s := run[|run| - 1]; s.pending == {} && |s.slots| == LENGTH && n >= 2 * (s.taken - s.cursor)
    ensures var (log, end) := (Reads(run[|run| - 1], n).log, run[|run| - 1].taken);
            && run[0].cursor + |log| == end
            && forall i | 0 <= i < |log| :: log[i] == Delivery(run[0].cursor + i, run[0].cursor + i)
  {
    NothingSkipped(run, |run| - 1);
    ReadsOn(run[|run| - 1], run[0].cursor, n);
  }
}
