/** The ring queue (grid_queue_t) used by one thread at a time. */
module Ring {
  import opened Counter
  import opened Counting

  /** The slot i places after slot r in a ring of e slots. */
  function Slot(e: nat, r: nat, i: nat): nat
    requires r < e && i <= e
  {
    if r + i < e then r + i else r + i - e
  }

  /** How far slot j comes after slot r. */
  function Back(e: nat, r: nat, j: nat): nat
    requires r < e && j < e
  {
    if r <= j then j - r else j + e - r
  }

  /** The ring that holds exactly the items, in order from slot r; every other slot is dead. */
  function Layout<T>(e: nat, r: nat, items: seq<T>): (b: seq<Option<T>>)
    requires r < e
    ensures |b| == e
  {
    seq(e, j requires 0 <= j < e => if Back(e, r, j) < |items| then Some(items[Back(e, r, j)]) else None)
  }

  /** The slot for the next item is dead, and filling it appends the item. */
  lemma LayoutPush<T>(e: nat, r: nat, items: seq<T>, t: T)
    requires r < e && |items| < e
    ensures var b, w := Layout(e, r, items), Slot(e, r, |items|);
            b[w] == None && b[w := Some(t)] == Layout(e, r, items + [t])
  {
  }

  /** The slot r holds the first item, and clearing it takes the item away. */
  lemma LayoutPop<T>(e: nat, r: nat, items: seq<T>)
    requires r < e && 0 < |items| <= e
    ensures var b := Layout(e, r, items); b[r] == Some(items[0]) && b[r := None] == Layout(e, Slot(e, r, 1), items[1..])
  {
  }

  /** The same for the m-th of several items taken from slot r on. */
  lemma LayoutTake<T>(e: nat, r: nat, items: seq<T>, m: nat)
    requires r < e && m < |items| <= e
    ensures var b, w := Layout(e, Slot(e, r, m), items[m..]), Slot(e, r, m);
            b[w] == Some(items[m]) && b[w := None] == Layout(e, Slot(e, r, m + 1), items[m + 1..])
  {
    LayoutPop(e, Slot(e, r, m), items[m..]);
    assert items[m..][1..] == items[m + 1..];
    assert Slot(e, Slot(e, r, m), 1) == Slot(e, r, m + 1);
  }

  lemma SlotCounts(e: nat, count: nat, n: nat)
    requires Count(e) && count < Modulus(e) && n <= e
    ensures StepCounter(e, count, n) % e == Slot(e, count % e, n) && StepCounter(e, count, n) < Modulus(e)
  {
    ModulusFacts(e);
    StepCounts(e, count, n);
    ModTurn(count % e + n, e);
  }

  lemma StepTwice(e: nat, count: nat, a: nat, b: nat)
    requires Count(e) && count < Modulus(e) && a + b <= e
    ensures StepCounter(e, StepCounter(e, count, a), b) == StepCounter(e, count, a + b)
  {
    var m, c := Modulus(e), StepCounter(e, count, a);
    ModulusFacts(e);
    StepCounts(e, count, a);
    StepCounts(e, c, b);
    StepCounts(e, count, a + b);
    ModShift(count + a, b, m);
    assert count + (a + b) == count + a + b;
  }

  /** Counters tell apart all fillings of the ring. */
  lemma StepTells(e: nat, count: nat, a: nat, b: nat)
    requires Count(e) && count < Modulus(e) && a <= e && b <= e
    ensures StepCounter(e, count, a) == StepCounter(e, count, b) <==> a == b
    ensures StepCounter(e, count, a) == count <==> a == 0
  {
    DiffUndoesStep(e, count, a);
    DiffUndoesStep(e, count, b);
    DiffUndoesStep(e, count, 0);
    ModulusFacts(e);
    StepCounts(e, count, 0);
    ModTurn(count, Modulus(e));
  }

  /** One ring; `next` chains it into a list of rings. */
  class Queue<T> {
    const e: nat
    const buffer: array<Option<T>>
    var pushCount: nat
    var popCount: nat
    var next: Queue?<T>
    ghost var items: seq<T>

    ghost predicate Valid()
      reads this, buffer
    {
      && Count(e) && buffer.Length == e && popCount < Modulus(e) && |items| <= e
      && pushCount == StepCounter(e, popCount, |items|)
      && buffer[..] == Layout(e, popCount % e, items)
    }

    lemma Bounded()
      requires Valid()
      ensures Count(e) && |items| <= e
    {
    }

    constructor (elementCount: nat, initCount: nat)
      requires Count(elementCount) && initCount < Modulus(elementCount)
      ensures Valid() && items == [] && e == elementCount && next == null && fresh(buffer)
    {
      e := elementCount;
      buffer := new Option<T>[elementCount](_ => None);
      pushCount, popCount := initCount, initCount;
      next := null;
      items := [];
      new;
      StepTells(e, initCount, 0, 0);
    }

    /** Chains another ring behind this one. */
    method Chain(p: Queue<T>)
      requires Valid()
      modifies this
      ensures Valid() && items == old(items) && next == p
    {
      next := p;
    }

    predicate Full()
      requires Valid()
      reads this, buffer
      ensures Full() <==> |items| == e
    {
      StepTells(e, popCount, e, |items|);
      StepCounter(e, popCount, e) == pushCount
    }

    predicate Empty()
      requires Valid()
      reads this, buffer
      ensures Empty() <==> items == []
    {
      StepTells(e, popCount, |items|, 0);
      popCount == pushCount
    }

    function Size(): (n: int)
      requires Valid()
      reads this, buffer
      ensures n == |items|
    {
      DiffUndoesStep(e, popCount, |items|);
      DiffCounter(e, pushCount, popCount)
    }

    function Top(): (t: T)
      requires Valid() && items != []
      reads this, buffer
      ensures t == items[0]
    {
      LayoutPop(e, popCount % e, items);
      buffer[popCount % e].value
    }

    method Push(t: T) returns (ok: bool)
      requires Valid()
      modifies this, buffer
      ensures Valid() && next == old(next) && ok == (|old(items)| < e)
      ensures items == if ok then old(items) + [t] else old(items)
    {
      if Full() {
        return false;
      }
      SlotCounts(e, popCount, |items|);
      StepTwice(e, popCount, |items|, 1);
      LayoutPush(e, popCount % e, items, t);
      buffer[pushCount % e] := Some(t);
      pushCount := StepCounter(e, pushCount, 1);
      items := items + [t];
      ok := true;
    }

    method Pop()
      requires Valid() && items != []
      modifies this, buffer
      ensures Valid() && next == old(next) && items == old(items)[1..]
    {
      SlotCounts(e, popCount, 1);
      StepTwice(e, popCount, 1, |items| - 1);
      LayoutPop(e, popCount % e, items);
      buffer[popCount % e] := None;
      popCount := StepCounter(e, popCount, 1);
      items := items[1..];
    }

    /** The loop of the range push: constructs items in the slots from w up to `bound`, from item n on. */
    method Fill(from: seq<T>, n: nat, w: nat, bound: nat, ghost r: nat, ghost held: seq<T>) returns (done: nat)
      requires n <= |from| && r < buffer.Length && buffer[..] == Layout(buffer.Length, r, held)
      requires n < |from| && w < bound ==>
                 && |held| + bound <= w + buffer.Length
                 && if w >= r then w == r + |held| && bound <= buffer.Length else w + buffer.Length == r + |held| && bound <= r
      modifies buffer
      ensures n <= done <= |from| && buffer[..] == Layout(buffer.Length, r, held + from[n..done])
      ensures done < |from| ==> w + (done - n) >= bound
      ensures done > n ==> w + (done - n) <= bound
    {
      var windex := w;
      done := n;
      assert held + from[n..n] == held;
      while done < |from| && windex < bound
        invariant n <= done <= |from| && windex == w + (done - n) && (done > n ==> windex <= bound)
        invariant buffer[..] == Layout(buffer.Length, r, held + from[n..done])
      {
        LayoutPush(buffer.Length, r, held + from[n..done], from[done]);
        assert held + from[n..done] + [from[done]] == held + from[n..done + 1];
        buffer[windex] := Some(from[done]);
        windex, done := windex + 1, done + 1;
      }
    }

    /** Both loops of the range push: from the write slot up to the end, then from slot 0 up to the read slot. */
    method FillBoth(from: seq<T>, write: nat, read: nat, ghost held: seq<T>) returns (n: nat)
      requires read < buffer.Length && |held| < buffer.Length && write == Slot(buffer.Length, read, |held|)
      requires buffer[..] == Layout(buffer.Length, read, held)
      modifies buffer
      ensures n == (if |from| <= buffer.Length - |held| then |from| else buffer.Length - |held|)
      ensures buffer[..] == Layout(buffer.Length, read, held + from[..n])
    {
      n := 0;
      var windex := write;
      assert held + from[..0] == held;
      if read <= windex {
        n := Fill(from, 0, windex, buffer.Length, read, held);
        windex := 0;
      }
      ghost var m := n;
      n := Fill(from, n, windex, read, read, held + from[..n]);
      assert held + from[..m] + from[m..n] == held + from[..n];
    }

    /** Pushes as much of `from` as fits; n is how much that was. */
    method PushRange(from: seq<T>) returns (n: nat)
      requires Valid()
      modifies this, buffer
      ensures Valid() && next == old(next) && n == (if |from| <= e - |old(items)| then |from| else e - |old(items)|)
      ensures items == old(items) + from[..n]
    {
      if Full() {
        return 0;
      }
      SlotCounts(e, popCount, |items|);
      n := FillBoth(from, pushCount % e, popCount % e, items);
      StepTwice(e, popCount, |items|, n);
      pushCount := StepCounter(e, pushCount, n);
      items := items + from[..n];
    }

    /** The loop of the range pop: moves items out of the slots from `at` up to `bound`. */
    method Drain(most: nat, prior: seq<T>, at: nat, bound: nat, ghost read: nat, ghost held: seq<T>) returns (out: seq<T>)
      requires read < buffer.Length && |prior| <= |held| <= buffer.Length && prior == held[..|prior|]
      requires buffer[..] == Layout(buffer.Length, Slot(buffer.Length, read, |prior|), held[|prior|..])
      requires |prior| <= most && bound <= buffer.Length
      requires |prior| < most && at < bound ==>
                 at == Slot(buffer.Length, read, |prior|) && |prior| + (bound - at) <= |held|
      modifies buffer
      ensures |prior| <= |out| <= most && |out| <= |held| && out == held[..|out|]
      ensures buffer[..] == Layout(buffer.Length, Slot(buffer.Length, read, |out|), held[|out|..])
      ensures |out| < most ==> at + (|out| - |prior|) >= bound
      ensures |out| > |prior| ==> at + (|out| - |prior|) <= bound
    {
      var rindex := at;
      out := prior;
      while |out| < most && rindex < bound
        invariant |prior| <= |out| <= most && rindex == at + (|out| - |prior|)
        invariant (|out| > |prior| ==> rindex <= bound) && |out| <= |held| && out == held[..|out|]
        invariant buffer[..] == Layout(buffer.Length, Slot(buffer.Length, read, |out|), held[|out|..])
      {
        ghost var b, m := buffer[..], |out|;
        LayoutTake(buffer.Length, read, held, m);
        out := out + [buffer[rindex].value];
        buffer[rindex] := None;
        assert buffer[..] == b[Slot(buffer.Length, read, m) := None];
        rindex := rindex + 1;
      }
    }

    /** Both loops of the range pop. */
    method DrainBoth(most: nat, write: nat, read: nat, ghost held: seq<T>) returns (out: seq<T>)
      requires read < buffer.Length && 0 < |held| <= buffer.Length && write == Slot(buffer.Length, read, |held|)
      requires buffer[..] == Layout(buffer.Length, read, held)
      modifies buffer
      ensures |out| == (if most <= |held| then most else |held|) && out == held[..|out|]
      ensures buffer[..] == Layout(buffer.Length, Slot(buffer.Length, read, |out|), held[|out|..])
    {
      out := [];
      var rindex := read;
      assert held[0..] == held;
      if write <= rindex {
        out := Drain(most, [], rindex, buffer.Length, read, held);
        rindex := 0;
      }
      out := Drain(most, out, rindex, write, read, held);
    }

    /** Moves up to `most` items out. */
    method PopRange(most: nat) returns (out: seq<T>)
      requires Valid()
      modifies this, buffer
      ensures Valid() && next == old(next)
      ensures |out| == (if most <= |old(items)| then most else |old(items)|) && old(items) == out + items
    {
      if Empty() {
        return [];
      }
      SlotCounts(e, popCount, |items|);
      out := DrainBoth(most, pushCount % e, popCount % e, items);
      SlotCounts(e, popCount, |out|);
      StepTwice(e, popCount, |out|, |items| - |out|);
      popCount := StepCounter(e, popCount, |out|);
      items := items[|out|..];
    }

    /** pop(n): destroys up to n items in place; left is how many of the n there were not. */
    method PopN(n: nat) returns (left: nat)
      requires Valid()
      modifies this, buffer
      ensures Valid() && next == old(next)
      ensures var m := if n <= |old(items)| then n else |old(items)|; left == n - m && items == old(items)[m..]
    {
      var size := Size();
      var m := if n <= size then n else size;
      SlotCounts(e, popCount, m);
      DestroyFrom(popCount % e, m, items);
      StepTwice(e, popCount, m, |items| - m);
      popCount := StepCounter(e, popCount, m);
      items := items[m..];
      left := n - m;
    }

    /** Both loops of pop(n): up to the end of the ring, then on from slot 0. */
    method DestroyFrom(read: nat, m: nat, ghost held: seq<T>)
      requires read < buffer.Length && m <= |held| <= buffer.Length && buffer[..] == Layout(buffer.Length, read, held)
      modifies buffer
      ensures buffer[..] == Layout(buffer.Length, Slot(buffer.Length, read, m), held[m..])
    {
      assert held[0..] == held;
      var k := DestroyRun(read, m, read, 0, held);
      if k != 0 {
        k := DestroyRun(0, k, read, m - k, held);
      }
    }

    /** Destroys items from slot `at` on, the first of them item `done`, at most k and not beyond the last slot. */
    method DestroyRun(at: nat, k: nat, ghost read: nat, ghost done: nat, ghost held: seq<T>) returns (left: nat)
      requires read < buffer.Length && done + k <= |held| <= buffer.Length && at == Slot(buffer.Length, read, done)
      requires buffer[..] == Layout(buffer.Length, at, held[done..])
      modifies buffer
      ensures left <= k && (left == 0 || at + (k - left) == buffer.Length)
      ensures var m := done + (k - left); buffer[..] == Layout(buffer.Length, Slot(buffer.Length, read, m), held[m..])
    {
      var rindex := at;
      left := k;
      ghost var m := done;
      while rindex < buffer.Length && left != 0
        invariant left <= k && m == done + (k - left) && rindex == at + (k - left) <= buffer.Length
        invariant buffer[..] == Layout(buffer.Length, Slot(buffer.Length, read, m), held[m..])
      {
        ghost var b := buffer[..];
        LayoutTake(buffer.Length, read, held, m);
        buffer[rindex] := None;
        assert buffer[..] == b[Slot(buffer.Length, read, m) := None];
        rindex, left, m := rindex + 1, left - 1, m + 1;
      }
    }
  }
}
