/** The unbounded queue (grid_queue_list_t): a chain of rings, filled at its end and emptied at its start. */
module QueueList {
  import opened Counter
  import opened Ring

  ghost function Flat<T>(parts: seq<seq<T>>): seq<T> {
    if parts == [] then [] else parts[0] + Flat(parts[1..])
  }

  lemma {:induction false} FlatAppend<T>(parts: seq<seq<T>>, p: seq<T>)
    ensures Flat(parts + [p]) == Flat(parts) + p
  {
    if parts == [] {
      assert parts + [p] == [p] && [p][1..] == [];
    } else {
      assert (parts + [p])[1..] == parts[1..] + [p];
      FlatAppend(parts[1..], p);
    }
  }

  lemma FlatLast<T>(parts: seq<seq<T>>, more: seq<T>)
    requires parts != []
    ensures var k := |parts| - 1; Flat(parts[k := parts[k] + more]) == Flat(parts) + more
  {
    var k := |parts| - 1;
    var front := parts[..k];
    FlatAppend(front, parts[k]);
    FlatAppend(front, parts[k] + more);
    assert front + [parts[k]] == parts && front + [parts[k] + more] == parts[k := parts[k] + more];
  }

  lemma FlatFirst<T>(parts: seq<seq<T>>, k: nat)
    requires parts != [] && k <= |parts[0]|
    ensures Flat(parts)[..k] == parts[0][..k] && Flat(parts[0 := parts[0][k..]]) == Flat(parts)[k..]
    ensures |parts[0]| <= |Flat(parts)|
  {
    assert parts[0 := parts[0][k..]][1..] == parts[1..];
  }

  lemma FlatEmpty<T>(parts: seq<seq<T>>)
    requires |parts| == 1 && parts[0] == []
    ensures Flat(parts) == []
  {
  }

  lemma DropMore<T>(s: seq<T>, a: nat, b: nat)
    requires a + b <= |s|
    ensures s[a..][b..] == s[a + b..]
  {
  }

  lemma JoinMore<T>(a: seq<T>, b: seq<T>, c: seq<T>)
    ensures a + (b + c) == (a + b) + c
  {
  }

  /** How many items the first j parts hold. */
  ghost function Held<T>(parts: seq<seq<T>>, j: nat): nat
    requires j <= |parts|
  {
    |Flat(parts[..j])|
  }

  lemma HeldNext<T>(parts: seq<seq<T>>, j: nat)
    requires j < |parts|
    ensures Held(parts, j + 1) == Held(parts, j) + |parts[j]|
  {
    assert parts[..j + 1] == parts[..j] + [parts[j]];
    FlatAppend(parts[..j], parts[j]);
  }

  lemma {:induction false} HeldGrows<T>(parts: seq<seq<T>>, i: nat, j: nat)
    requires i <= j <= |parts|
    ensures Held(parts, i) <= Held(parts, j)
  {
    if i < j {
      HeldGrows(parts, i, j - 1);
      HeldNext(parts, j - 1);
    }
  }

  lemma HeldEnds<T>(parts: seq<seq<T>>)
    ensures Held(parts, 0) == 0 && Held(parts, |parts|) == |Flat(parts)|
  {
    assert parts[..|parts|] == parts;
  }

  /** If as many whole parts were taken as n allows, all but the last, then what they hold is what
      could be taken at all exactly if that ends with a part. */
  lemma WholeParts<T>(parts: seq<seq<T>>, n: nat, d: nat)
    requires d < |parts| && Held(parts, d) <= n && (d == |parts| - 1 || Held(parts, d + 1) > n)
    ensures var m := if n <= |Flat(parts)| then n else |Flat(parts)|;
            Held(parts, d) == m <==> exists j: nat :: j < |parts| && Held(parts, j) == m
  {
    HeldEnds(parts);
    HeldGrows(parts, d, |parts|);
    if d == |parts| - 1 {
      HeldNext(parts, d);
    }
    forall j: nat | j < |parts| ensures Held(parts, j) <= n ==> Held(parts, j) <= Held(parts, d) {
      if j > d {
        HeldGrows(parts, d + 1, j);
      } else {
        HeldGrows(parts, j, d);
      }
    }
  }

  /** Whole parts were taken, `left` of the n items are still to be taken, and contents c in parts p remain. */
  ghost predicate Taken<T>(whole: seq<T>, parts: seq<seq<T>>, n: nat, left: nat, c: seq<T>, p: seq<seq<T>>) {
    && left <= n && n - left <= |whole| && c == whole[n - left..] && whole == Flat(parts)
    && 0 < |p| <= |parts| && p == parts[|parts| - |p|..] && n - left == Held(parts, |parts| - |p|)
  }

  /** Everything was taken that could be, `left` being returned. */
  ghost predicate Popped<T>(whole: seq<T>, parts: seq<seq<T>>, n: nat, left: nat, c: seq<T>) {
    var m := if n <= |whole| then n else |whole|;
    && c == whole[m..] && n - m <= left <= n
    && (left == n - m <==> exists j: nat :: j < |parts| && Held(parts, j) == m)
  }

  /** What remains to be taken once m items of the first part are out, and what was taken if that was the last round. */
  lemma TakesOn<T>(whole: seq<T>, parts: seq<seq<T>>, n: nat, left: nat, m: nat, c: seq<T>, p: seq<seq<T>>)
    requires Taken(whole, parts, n, left, c, p) && p != [] && m <= |c| && m == if left <= |p[0]| then left else |p[0]|
    ensures m == |p[0]| && |p| > 1 ==> Taken(whole, parts, n, left - m, c[m..], p[1..])
    ensures (m == left || c[m..] == []) && (|p| == 1 || |p[0]| > left) ==> Popped(whole, parts, n, left, c[m..])
  {
    var d := |parts| - |p|;
    DropMore(whole, n - left, m);
    DropMore(parts, d, 1);
    HeldNext(parts, d);
    if |p| == 1 || |p[0]| > left {
      WholeParts(parts, n, d);
    }
  }

  lemma NoneTaken<T>(whole: seq<T>, parts: seq<seq<T>>, n: nat)
    requires whole == Flat(parts) && parts != []
    ensures Taken(whole, parts, n, n, whole, parts)
  {
    HeldEnds(parts);
  }

  lemma TakenAll<T>(whole: seq<T>, parts: seq<seq<T>>, n: nat, c: seq<T>, p: seq<seq<T>>)
    requires Taken(whole, parts, n, 0, c, p)
    ensures Popped(whole, parts, n, 0, c)
  {
  }

  ghost function After<T>(nodes: seq<Queue<T>>, i: int): Queue?<T> {
    if 0 <= i + 1 < |nodes| then nodes[i + 1] else null
  }

  /** No two rings are the same or share a buffer. */
  ghost predicate Apart<T>(nodes: seq<Queue<T>>) {
    forall i, j | 0 <= i < j < |nodes| :: nodes[i] != nodes[j] && nodes[i].buffer != nodes[j].buffer
  }

  lemma ApartAppend<T>(nodes: seq<Queue<T>>, p: Queue<T>)
    requires Apart(nodes) && forall q | q in nodes :: q != p && q.buffer != p.buffer
    ensures Apart(nodes + [p])
  {
    assert forall i | 0 <= i < |nodes| :: nodes[i] in nodes;
  }

  class List<T> {
    const e: nat
    var pushHead: Queue<T>
    var popHead: Queue<T>
    var iteratorCounter: nat
    ghost var nodes: seq<Queue<T>>

    /** Every ring is an old one or a new one. */
    twostate predicate Grown()
      reads this
    {
      forall q | q in nodes :: q in old(nodes) || (fresh(q) && fresh(q.buffer))
    }

    /** The rings are chained from popHead to pushHead, and only the first and the last can be empty. */
    ghost predicate Chained()
      reads this, nodes, set q | q in nodes :: q.buffer
    {
      && Count(e) && iteratorCounter < Modulus(e)
      && nodes != [] && popHead == nodes[0] && pushHead == nodes[|nodes| - 1]
      && (forall i | 0 <= i < |nodes| :: nodes[i].e == e && nodes[i].Valid())
      && (forall i | 0 <= i < |nodes| :: nodes[i].next == After(nodes, i))
      && Apart(nodes)
      && (forall i | 0 < i < |nodes| - 1 :: nodes[i].items != [])
    }

    /** Every ring before pushHead holds something. */
    ghost predicate Valid()
      reads this, nodes, set q | q in nodes :: q.buffer
    {
      Chained() && (|nodes| > 1 ==> nodes[0].items != [])
    }

    ghost function Parts(): seq<seq<T>>
      reads this, nodes
    {
      seq(|nodes|, i requires 0 <= i < |nodes| reads this, nodes => nodes[i].items)
    }

    ghost function Contents(): seq<T>
      reads this, nodes
    {
      Flat(Parts())
    }

    lemma Ends()
      requires Valid()
      ensures pushHead in nodes && pushHead.Valid() && popHead in nodes && popHead.Valid()
    {
      assert pushHead == nodes[|nodes| - 1] && popHead == nodes[0];
    }

    /** Only the content of node k, the first or the last one, has changed. */
    twostate lemma OneChanged(k: nat)
      requires old(Chained()) && unchanged(this) && (k == 0 || k == |nodes| - 1)
      requires nodes[k].Valid() && nodes[k].next == old(nodes[k].next)
      requires forall i | 0 <= i < |nodes| && i != k :: unchanged(nodes[i]) && unchanged(nodes[i].buffer)
      ensures Chained() && Parts() == old(Parts())[k := nodes[k].items]
    {
      hide Queue.Valid;
      forall i | 0 <= i < |nodes|
        ensures nodes[i].Valid() && nodes[i].next == After(nodes, i)
      {
        assert old(nodes[i].Valid() && nodes[i].next == After(nodes, i));
      }
    }

    /** The first m items of the first ring are out, and nothing else has changed. */
    twostate lemma FirstTaken(m: nat)
      requires old(Chained()) && unchanged(this) && m <= |old(nodes[0].items)|
      requires nodes[0].Valid() && nodes[0].next == old(nodes[0].next) && nodes[0].items == old(nodes[0].items)[m..]
      requires forall i | 0 < i < |nodes| :: unchanged(nodes[i]) && unchanged(nodes[i].buffer)
      ensures Chained() && Parts() == old(Parts())[0 := old(Parts())[0][m..]]
      ensures m <= |old(Contents())| && old(Contents()) == old(nodes[0].items)[..m] + Contents()
    {
      hide Queue.Valid;
      OneChanged(0);
      FlatFirst(old(Parts()), m);
    }

    lemma FirstApart()
      requires Chained() || Valid()
      ensures Chained() && |nodes| >= 1 && popHead == nodes[0] && nodes[0].Valid()
      ensures forall i | 0 < i < |nodes| :: nodes[i] != nodes[0] && nodes[i].buffer != nodes[0].buffer
    {
    }

    /** The empty ring p is chained behind the last one, which is not empty. */
    twostate lemma OneAdded(new p: Queue<T>)
      requires old(Chained()) && nodes == old(nodes) + [p] && popHead == old(popHead) && pushHead == p
      requires iteratorCounter < Modulus(e) && p.Valid() && p.items == [] && p.next == null && p.e == e
      requires fresh(p) && fresh(p.buffer)
      requires var q := old(pushHead); q.Valid() && q.next == p && q.items == old(q.items) && q.items != []
      requires forall i | 0 <= i < |old(nodes)| - 1 :: unchanged(old(nodes)[i])
      requires forall i | 0 <= i < |old(nodes)| :: unchanged(old(nodes)[i].buffer)
      ensures Chained() && Parts() == old(Parts()) + [[]]
    {
      ApartAppend(old(nodes), p);
      hide Queue.Valid, Modulus, Count, Flat, Apart;
      forall i | 0 <= i < |nodes|
        ensures nodes[i].Valid() && nodes[i].e == e && nodes[i].next == After(nodes, i)
      {
        if i < |old(nodes)| {
          assert nodes[i] == old(nodes)[i] && old(nodes[i].Valid() && nodes[i].e == e && nodes[i].next == After(nodes, i));
        }
      }
      assert Parts() == old(Parts()) + [[]];
    }

    constructor (elementCount: nat)
      requires Count(elementCount)
      ensures Valid() && Contents() == [] && e == elementCount && forall q | q in nodes :: fresh(q) && fresh(q.buffer)
    {
      ModulusFacts(elementCount);
      SlotCounts(elementCount, 0, elementCount);
      var p := new Queue<T>(elementCount, 0);
      e := elementCount;
      pushHead, popHead := p, p;
      iteratorCounter := StepCounter(elementCount, 0, elementCount);
      nodes := [p];
      new;
      FlatEmpty(Parts());
    }

    predicate Empty()
      requires Valid()
      reads this, nodes, set q | q in nodes :: q.buffer
      ensures Empty() <==> Contents() == []
    {
      FlatFirst(Parts(), 0);
      popHead.Empty()
    }

    function Top(): (t: T)
      requires Valid() && Contents() != []
      reads this, nodes, set q | q in nodes :: q.buffer
      ensures t == Contents()[0]
    {
      FlatFirst(Parts(), 0);
      popHead.Top()
    }

    /** Makes room for at least one more item. */
    method Preserve()
      requires Chained()
      modifies this, pushHead
      ensures Chained() && Contents() == old(Contents()) && !pushHead.Full() && Grown()
      ensures old(Valid()) ==> Valid()
      ensures pushHead == old(pushHead) || (fresh(pushHead) && fresh(pushHead.buffer))
    {
      hide Queue.Valid;
      if pushHead.Full() {
        FlatAppend(Parts(), []);
        var p := new Queue<T>(e, iteratorCounter);
        SlotCounts(e, iteratorCounter, e);
        iteratorCounter := StepCounter(e, iteratorCounter, e);
        pushHead.Chain(p);
        pushHead := p;
        nodes := nodes + [p];
        OneAdded(p);
      }
    }

    method Push(t: T)
      requires Valid()
      modifies this, nodes, set q | q in nodes :: q.buffer
      ensures Valid() && Contents() == old(Contents()) + [t] && Grown()
    {
      hide Queue.Valid;
      assert pushHead == nodes[|nodes| - 1];
      Preserve();
      PushLast(t);
    }

    /** emplace() */
    method PushLast(t: T)
      requires Valid() && !pushHead.Full()
      modifies pushHead, pushHead.buffer
      ensures Valid() && Contents() == old(Contents()) + [t]
    {
      hide Queue.Valid;
      FlatLast(Parts(), [t]);
      var ok := pushHead.Push(t);
      OneChanged(|nodes| - 1);
    }

    /** Pushes all of `from`, or nothing if the last ring is full on entry; n is how much that was. */
    method PushRange(from: seq<T>) returns (n: nat)
      requires Valid()
      modifies this, nodes, set q | q in nodes :: q.buffer
      ensures n == if old(pushHead.Full()) then 0 else |from|
      ensures Valid() && Contents() == old(Contents()) + from[..n] && Grown()
    {
      hide Queue.Valid, Queue.Full, List.Chained, List.Valid, List.Parts, List.Contents, Flat;
      n := 0;
      assert Contents() + from[..0] == Contents();
      Ends();
      while true
        invariant n <= |from| && Valid() && pushHead.Valid() && Contents() == old(Contents()) + from[..n]
        invariant Grown() && (pushHead in old(nodes) || (fresh(pushHead) && fresh(pushHead.buffer)))
        invariant if n == 0 then pushHead.Full() == old(pushHead.Full()) else !pushHead.Full() && !old(pushHead.Full())
        decreases |from| - n
      {
        var m := RoundPush(from[n..]);
        if m == 0 {
          return;
        }
        assert from[..n] + from[n..][..m] == from[..n + m];
        n := n + m;
      }
    }

    /** One round of the range push: as much as fits into the last ring, and a new ring once it is full. */
    method RoundPush(from: seq<T>) returns (m: nat)
      requires Valid()
      modifies this, pushHead, pushHead.buffer
      ensures Valid() && pushHead.Valid() && m <= |from| && Contents() == old(Contents()) + from[..m] && Grown()
      ensures m == 0 <==> from == [] || old(pushHead.Full())
      ensures pushHead.Full() == (m == 0 && old(pushHead.Full()))
      ensures pushHead == old(pushHead) || (fresh(pushHead) && fresh(pushHead.buffer))
    {
      hide Queue.Valid, Queue.Full;
      m := FillLast(from);
      if m != 0 {
        Preserve();
      }
    }

    /** Constructs as much as fits into the last ring. */
    method FillLast(from: seq<T>) returns (m: nat)
      requires Valid()
      modifies pushHead, pushHead.buffer
      ensures Valid() && m <= |from| && Contents() == old(Contents()) + from[..m]
      ensures m == 0 <==> from == [] || old(pushHead.Full())
      ensures m == 0 ==> pushHead.Full() == old(pushHead.Full())
    {
      hide Queue.Valid;
      assert pushHead == nodes[|nodes| - 1];
      pushHead.Bounded();
      m := pushHead.PushRange(from);
      OneChanged(|nodes| - 1);
      FlatLast(old(Parts()), from[..m]);
    }

    /** Takes the first ring off the chain if it is empty and not the last one. */
    method DropEmpty() returns (dropped: bool)
      requires Chained()
      modifies this
      ensures Valid() && Contents() == old(Contents()) && pushHead == old(pushHead)
      ensures Parts() == if dropped then old(Parts())[1..] else old(Parts())
      ensures dropped == old(nodes[0].items == [] && |nodes| > 1)
      ensures nodes == if dropped then old(nodes)[1..] else old(nodes)
    {
      hide Queue.Valid;
      assert popHead == nodes[0] && pushHead == nodes[|nodes| - 1];
      dropped := popHead.Empty() && popHead != pushHead;
      if dropped {
        assert popHead.next == After(nodes, 0);
        popHead := popHead.next;
        nodes := nodes[1..];
        OneDropped();
      }
    }

    /** The first ring, empty and not the last one, is off the chain. */
    twostate lemma OneDropped()
      requires old(Chained() && |nodes| > 1 && nodes[0].items == [])
      requires nodes == old(nodes)[1..] && popHead == nodes[0] && pushHead == old(pushHead)
      requires iteratorCounter == old(iteratorCounter)
      requires forall i | 0 <= i < |nodes| :: unchanged(nodes[i]) && unchanged(nodes[i].buffer)
      ensures Valid() && Contents() == old(Contents()) && Parts() == old(Parts())[1..]
    {
      hide Queue.Valid;
      forall i | 0 <= i < |nodes|
        ensures nodes[i].Valid() && nodes[i].e == e && nodes[i].next == After(nodes, i) && nodes[i].items == old(Parts())[i + 1]
        ensures i + 1 < |nodes| ==> nodes[i].items != []
      {
        assert nodes[i] == old(nodes)[i + 1] && old(nodes[i + 1].Valid() && nodes[i + 1].next == After(nodes, i + 1));
        assert old(nodes[i + 1].e == e);
        assert i + 1 < |nodes| ==> old(nodes[i + 1].items != []);
      }
      assert Parts() == old(Parts())[1..];
    }

    method Pop()
      requires Valid() && Contents() != []
      modifies this, nodes, set q | q in nodes :: q.buffer
      ensures Valid() && Contents() == old(Contents())[1..]
    {
      hide Queue.Valid;
      FlatFirst(Parts(), 0);
      assert nodes[0].items != [];
      FlatFirst(Parts(), 1);
      popHead.Pop();
      OneChanged(0);
      var _ := DropEmpty();
    }

    /** pop(n): takes out the first n items, or all if there are fewer. What it returns leaves out the
        items taken from a ring that stays: it is the number of items missing exactly if the items
        taken end where a ring but the last one ended, or where the first one begins. */
    method PopN(n: nat) returns (left: nat)
      requires Valid()
      modifies this, nodes, set q | q in nodes :: q.buffer
      ensures Valid()
      ensures var m := if n <= |old(Contents())| then n else |old(Contents())|;
              && Contents() == old(Contents())[m..]
              && n - m <= left <= n
              && (left == n - m <==> exists j: nat :: j < |old(nodes)| && Held(old(Parts()), j) == m)
    {
      PartsHold();
      NoneTaken(Contents(), Parts(), n);
      left := PopRounds(n, Contents(), Parts());
    }

    ghost predicate Going(whole: seq<T>, parts: seq<seq<T>>, n: nat, left: nat)
      reads this, nodes, set q | q in nodes :: q.buffer
    {
      Valid() && Taken(whole, parts, n, left, Contents(), Parts())
    }

    ghost predicate Gone(whole: seq<T>, parts: seq<seq<T>>, n: nat, left: nat)
      reads this, nodes, set q | q in nodes :: q.buffer
    {
      Valid() && Popped(whole, parts, n, left, Contents())
    }

    /** The loop of pop(n). */
    method PopRounds(n: nat, ghost whole: seq<T>, ghost parts: seq<seq<T>>) returns (left: nat)
      requires Going(whole, parts, n, n)
      modifies this, nodes, set q | q in nodes :: q.buffer
      ensures Gone(whole, parts, n, left)
    {
      hide Queue.Valid, List.Going, List.Gone;
      left := n;
      while left != 0
        invariant Going(whole, parts, n, left)
        invariant |nodes| <= |old(nodes)| && nodes == old(nodes)[|old(nodes)| - |nodes|..]
        decreases left
      {
        FirstGoing(whole, parts, n, left);
        var m, dropped := PopRound(n, left, whole, parts);
        if !dropped {
          return;
        }
        left := left - m;
      }
      AllGone(whole, parts, n);
    }

    lemma FirstGoing(whole: seq<T>, parts: seq<seq<T>>, n: nat, left: nat)
      requires Going(whole, parts, n, left)
      ensures |nodes| >= 1 && popHead == nodes[0]
    {
      hide Taken;
    }

    lemma AllGone(whole: seq<T>, parts: seq<seq<T>>, n: nat)
      requires Going(whole, parts, n, 0)
      ensures Gone(whole, parts, n, 0)
    {
      hide Taken, Popped, List.Valid;
      TakenAll(whole, parts, n, Contents(), Parts());
    }

    /** One round of it. */
    method PopRound(n: nat, left: nat, ghost whole: seq<T>, ghost parts: seq<seq<T>>) returns (m: nat, dropped: bool)
      requires Going(whole, parts, n, left) && left > 0
      modifies this, popHead, popHead.buffer
      ensures m <= left && (dropped ==> m > 0)
      ensures dropped ==> Going(whole, parts, n, left - m)
      ensures !dropped ==> Gone(whole, parts, n, left)
      ensures |nodes| >= 1 && |old(nodes)| >= 1 && nodes == if dropped then old(nodes)[1..] else old(nodes)
    {
      hide Queue.Valid, List.Chained, List.Valid, List.Contents, List.Parts, Flat, Apart, Held, Taken, Popped;
      ghost var c, p := Contents(), Parts();
      m, dropped := PopFirst(left);
      TakesOn(whole, parts, n, left, m, c, p);
    }

    lemma PartsHold()
      requires Chained() || Valid()
      ensures |Parts()| == |nodes| >= 1 && Contents() == Flat(Parts()) && (Valid() && |nodes| > 1 ==> Parts()[0] != [])
    {
    }

    /** One round of pop(n): as much as the first ring has, and that ring itself if it is then empty. */
    method PopFirst(k: nat) returns (m: nat, dropped: bool)
      requires Valid() && k != 0
      modifies this, popHead, popHead.buffer
      ensures Valid() && m <= k && m <= |old(Contents())| && Contents() == old(Contents())[m..]
      ensures |old(Parts())| > 0 && m == if k <= |old(Parts())[0]| then k else |old(Parts())[0]|
      ensures dropped ==> m > 0 && m == |old(Parts())[0]| && |old(Parts())| > 1 && Parts() == old(Parts())[1..]
      ensures !dropped ==> m == k || Contents() == []
      ensures !dropped ==> |old(Parts())| == 1 || |old(Parts())[0]| > k
      ensures |nodes| >= 1 && |old(nodes)| >= 1 && nodes == if dropped then old(nodes)[1..] else old(nodes)
    {
      hide Queue.Valid;
      assert popHead == nodes[0];
      m := DestroyFirst(k);
      LastEmpty();
      dropped := DropEmpty();
    }

    lemma LastEmpty()
      requires Chained()
      ensures |nodes| == 1 && nodes[0].items == [] ==> Contents() == []
    {
      if |nodes| == 1 && nodes[0].items == [] {
        FlatEmpty(Parts());
      }
    }

    method DestroyFirst(k: nat) returns (m: nat)
      requires Valid()
      modifies popHead, popHead.buffer
      ensures Chained() && m <= k && m <= |old(Contents())| && Contents() == old(Contents())[m..]
      ensures nodes[0].items == [] || m == k
      ensures m == if k <= |old(Parts())[0]| then k else |old(Parts())[0]|
      ensures Parts() == old(Parts())[0 := old(Parts())[0][m..]]
      ensures m == 0 ==> k == 0 || old(nodes[0].items) == []
    {
      FirstApart();
      hide Queue.Valid, List.Chained, List.Contents, Flat, Apart;
      var size := popHead.Size();
      m := if k <= size then k else size;
      var left := popHead.PopN(m);
      FirstTaken(m);
    }

    /** Moves the first `most` items out, from as many rings as needed. */
    method PopRange(most: nat) returns (out: seq<T>)
      requires Valid() && most <= |Contents()|
      modifies this, nodes, set q | q in nodes :: q.buffer
      ensures Valid() && |out| == most && out + Contents() == old(Contents())
    {
      hide Queue.Valid, List.Chained, List.Valid, List.Contents, List.Parts, Flat, Apart;
      FirstApart();
      out := [];
      while true
        invariant Chained() && |out| <= most && out + Contents() == old(Contents())
        invariant |nodes| <= |old(nodes)| && nodes == old(nodes)[|old(nodes)| - |nodes|..]
        decreases most - |out|, |nodes|
      {
        FirstApart();
        ghost var before := out;
        var got, finished := RoundPop(most - |out|);
        out := out + got;
        if finished {
          return;
        }
        JoinMore(before, got, Contents());
      }
    }

    /** The loop of the range pop, looked at after so many rounds: it ends if and only if enough items are present,
        and then within as many rounds as it moves items and meets rings. */
    method RangeRounds(most: nat, rounds: nat) returns (out: seq<T>, finished: bool)
      requires Valid()
      modifies this, nodes, set q | q in nodes :: q.buffer
      ensures Chained() && |out| <= most && out + Contents() == old(Contents())
      ensures finished ==> Valid() && |out| == most
      ensures most > |old(Contents())| ==> !finished
      ensures most <= |old(Contents())| && rounds >= most + |old(nodes)| ==> finished
    {
      hide Queue.Valid, List.Chained, List.Valid, List.Contents, List.Parts, Flat, Apart;
      FirstApart();
      out, finished := [], false;
      var n := 0;
      while n < rounds && !finished
        invariant Chained() && |out| <= most && out + Contents() == old(Contents())
        invariant 1 <= |nodes| <= |old(nodes)| && nodes == old(nodes)[|old(nodes)| - |nodes|..]
        invariant finished ==> Valid() && |out| == most
        invariant n <= rounds
        invariant !finished && most <= |old(Contents())| ==> n <= |out| + |old(nodes)| - |nodes|
      {
        FirstApart();
        ghost var before := out;
        var got: seq<T>;
        got, finished := RoundPop(most - |out|);
        out, n := out + got, n + 1;
        JoinMore(before, got, Contents());
      }
    }

    /** One round of the range pop: items of the first ring, or that ring itself if there were none.
        On an empty queue of one ring it changes nothing and is not finished: asked for more items
        than there are, the loop would go round forever. */
    method RoundPop(most: nat) returns (got: seq<T>, finished: bool)
      requires Chained()
      modifies this, popHead, popHead.buffer
      ensures Chained() && |got| <= most && old(Contents()) == got + Contents()
      ensures finished <==> got == [] && most == 0
      ensures finished ==> Valid()
      ensures got == [] && most > 0 && old(Contents()) != [] ==> |nodes| < |old(nodes)|
      ensures |old(nodes)| == 1 ==> nodes == old(nodes)
      ensures nodes == old(nodes) || nodes == old(nodes)[1..]
    {
      hide Queue.Valid;
      got := DrainFirst(most);
      finished := got == [] && most == 0;
      if got == [] {
        LastEmpty();
        var _ := DropEmpty();
      }
    }

    /** Moves out what the first ring has. */
    method DrainFirst(most: nat) returns (out: seq<T>)
      requires Chained()
      modifies popHead, popHead.buffer
      ensures Chained() && |out| <= most && old(Contents()) == out + Contents()
      ensures out == [] && most > 0 ==> nodes[0].items == []
    {
      FirstApart();
      hide Queue.Valid, List.Chained, List.Contents, Flat, Apart;
      out := popHead.PopRange(most);
      FirstTaken(|out|);
    }

    /** The rings' sizes add up to the number of items. */
    method Size() returns (n: nat)
      requires Valid()
      ensures n == |Contents()|
    {
      hide Queue.Valid, Flat, Held, Apart, List.Contents;
      PartsHold();
      HeldEnds(Parts());
      n := 0;
      ghost var i := 0;
      var p: Queue?<T> := popHead;
      while p != null
        invariant i <= |nodes| && p == After(nodes, i - 1) && n == Held(Parts(), i)
        decreases |nodes| - i
      {
        assert p == nodes[i] && p.next == After(nodes, i);
        HeldNext(Parts(), i);
        n := n + p.Size();
        p, i := p.next, i + 1;
      }
    }
  }
}
