/** Queries on kd-trees as values: which nodes are put to the queryer, in which order, and when it stops. */
module KdQuery {
  import opened KdTree

  // ---------------------------------------------------------------- asking

  /** The answer of a queryer to the last node of its log; it may depend on all earlier calls. */
  type Queryer<!N> = seq<N> -> bool

  /** Putting the nodes of todo to the queryer until it says no. */
  function Ask<N>(answer: Queryer<N>, log: seq<N>, todo: seq<N>): (bool, seq<N>)
    decreases |todo|
  {
    if todo == [] then (true, log)
    else if answer(log + [todo[0]]) then Ask(answer, log + [todo[0]], todo[1..])
    else (false, log + [todo[0]])
  }

  lemma {:induction false} AskAppend<N>(answer: Queryer<N>, log: seq<N>, a: seq<N>, b: seq<N>)
    ensures var r := Ask(answer, log, a); Ask(answer, log, a + b) == if r.0 then Ask(answer, r.1, b) else r
    decreases |a|
  {
    if a == [] {
      assert a + b == b;
    } else {
      assert (a + b)[0] == a[0] && (a + b)[1..] == a[1..] + b;
      AskAppend(answer, log + [a[0]], a[1..], b);
    }
  }

  /** The calls made are the first of those planned. The result is no exactly when a call said no,
      and that call is the last one. */
  lemma {:induction false} AskStopsAtNo<N>(answer: Queryer<N>, log: seq<N>, todo: seq<N>)
    ensures var r := Ask(answer, log, todo);
            && |log| <= |r.1| <= |log| + |todo| && r.1 == log + todo[..|r.1| - |log|]
            && (forall i | |log| < i < |r.1| :: answer(r.1[..i]))
            && (r.0 ==> r.1 == log + todo && (|log| < |r.1| ==> answer(r.1)))
            && (!r.0 ==> |log| < |r.1| && !answer(r.1))
    decreases |todo|
  {
    if todo == [] {
      assert log + todo == log;
    } else {
      var next := log + [todo[0]];
      var r := Ask(answer, log, todo);
      if answer(next) {
        AskStopsAtNo(answer, next, todo[1..]);
        assert next + todo[1..] == log + todo;
        var n := |r.1| - |next|;
        assert next + todo[1..][..n] == log + todo[..n + 1];
        forall i | |log| < i < |r.1| ensures answer(r.1[..i]) {
          if i == |next| {
            assert r.1[..i] == next;
          }
        }
      } else {
        assert next == log + todo[..1];
      }
    }
  }

  // ---------------------------------------------------------------- the pruned query

  /** grid_overlap_t::overlap_left; d is half the number of coordinates. */
  predicate OverlapLeft(key: Box, target: Box, index: nat, d: nat) {
    index < d || !(Get(key, index) < Get(target, index - d))
  }

  predicate OverlapRight(key: Box, target: Box, index: nat, d: nat) {
    index >= d || !(Get(target, index + d) < Get(key, index))
  }

  /** The two boxes meet in every dimension. */
  ghost predicate Overlaps(key: Box, target: Box, d: nat) {
    forall i: nat | i < d :: Get(key, i) <= Get(target, i + d) && Get(target, i) <= Get(key, i + d)
  }

  /** The nodes a query asks about, in order, as long as the queryer says yes. */
  ghost function Plan<N>(t: Tree<N>, target: Box, skew: bool, d: nat): seq<N> {
    match t
    case Leaf => []
    case Branch(id, key, index, l, r) =>
      var ls := if OverlapLeft(key, target, index, d) then Plan(l, target, skew, d) else [];
      var rs := if OverlapRight(key, target, index, d) then Plan(r, target, skew, d) else [];
      if skew then [id] + ls + rs else [id] + rs + ls
  }

  /** Some box that meets the target could lie in that half: its coordinate is on that side of the node's. */
  ghost predicate CanMeet(left: bool, key: Box, target: Box, index: nat, d: nat) {
    exists k: Box :: |k| == 2 * d && (forall i: nat | i < d :: Get(k, i) <= Get(k, i + d)) && Overlaps(k, target, d)
      && if left then Get(k, index) <= Get(key, index) else Get(key, index) <= Get(k, index)
  }

  /** The coordinates of a box that meets the target, at least on the side given. */
  function Low(left: bool, c: int, target: Box, index: nat, d: nat, i: nat): int {
    if !left && i == index then c else if Get(target, i + d) <= c then Get(target, i + d) else c
  }

  function High(left: bool, c: int, target: Box, index: nat, d: nat, i: nat): int {
    if left && i + d == index then c else if Get(target, i) <= c then c else Get(target, i)
  }

  lemma Meets(left: bool, key: Box, target: Box, index: nat, d: nat)
    requires index < 2 * d
    requires if left then OverlapLeft(key, target, index, d) else OverlapRight(key, target, index, d)
    ensures CanMeet(left, key, target, index, d)
  {
    var c := Get(key, index);
    var k := seq(2 * d, i requires 0 <= i < 2 * d =>
                   if i < d then Low(left, c, target, index, d, i) else High(left, c, target, index, d, i - d));
    forall i: nat | i < d
      ensures Get(k, i) <= Get(k, i + d) && Get(k, i) <= Get(target, i + d) && Get(target, i) <= Get(k, i + d)
    {
      assert Get(k, i) == Low(left, c, target, index, d, i) && Get(k, i + d) == High(left, c, target, index, d, i);
    }
    if index < d {
      assert Get(k, index) == Low(left, c, target, index, d, index);
    } else {
      assert Get(k, index) == High(left, c, target, index, d, index - d);
    }
    assert Overlaps(k, target, d);
  }

  lemma MeetsOnly(left: bool, key: Box, target: Box, index: nat, d: nat, k: Box)
    requires index < 2 * d && Overlaps(k, target, d)
    requires if left then Get(k, index) <= Get(key, index) else Get(key, index) <= Get(k, index)
    ensures if left then OverlapLeft(key, target, index, d) else OverlapRight(key, target, index, d)
  {
    if index < d {
      assert Get(k, index) <= Get(target, index + d);
    } else {
      assert Get(target, index - d) <= Get(k, index - d + d);
    }
  }

  /** A half is searched exactly if some box in it could overlap the target: the query prunes all it can by the one
      coordinate it looks at. */
  lemma PrunesExactly(key: Box, target: Box, index: nat, d: nat)
    requires index < 2 * d
    ensures OverlapLeft(key, target, index, d) <==> CanMeet(true, key, target, index, d)
    ensures OverlapRight(key, target, index, d) <==> CanMeet(false, key, target, index, d)
  {
    if OverlapLeft(key, target, index, d) {
      Meets(true, key, target, index, d);
    } else {
      forall k: Box | Overlaps(k, target, d) ensures !(Get(k, index) <= Get(key, index)) {
        if Get(k, index) <= Get(key, index) {
          MeetsOnly(true, key, target, index, d, k);
        }
      }
    }
    if OverlapRight(key, target, index, d) {
      Meets(false, key, target, index, d);
    } else {
      forall k: Box | Overlaps(k, target, d) ensures !(Get(key, index) <= Get(k, index)) {
        if Get(key, index) <= Get(k, index) {
          MeetsOnly(false, key, target, index, d, k);
        }
      }
    }
  }

  /** The plan: the node itself, and each half that could hold a box meeting the target. */
  lemma PlanHalves<N>(t: Tree<N>, target: Box, skew: bool, d: nat)
    requires t.Branch? && Indexed(t, d)
    ensures var ls := if CanMeet(true, t.key, target, t.index, d) then Plan(t.left, target, skew, d) else [];
            var rs := if CanMeet(false, t.key, target, t.index, d) then Plan(t.right, target, skew, d) else [];
            Plan(t, target, skew, d) == [t.id] + (if skew then ls + rs else rs + ls)
  {
    hide OverlapLeft, OverlapRight, CanMeet;
    PrunesExactly(t.key, target, t.index, d);
  }

  ghost predicate NoRepeats<N>(s: seq<N>) {
    forall i, j | 0 <= i < j < |s| :: s[i] != s[j]
  }

  lemma NoRepeatsJoin<N>(a: seq<N>, b: seq<N>)
    requires NoRepeats(a) && NoRepeats(b) && forall y | y in a :: y !in b
    ensures NoRepeats(a + b)
  {
    forall i, j | 0 <= i < j < |a + b| ensures (a + b)[i] != (a + b)[j] {
      if i < |a| <= j {
        assert a[i] in a && b[j - |a|] in b;
      }
    }
  }

  /** No node is asked about twice. */
  lemma {:induction false} PlanOnce<N>(t: Tree<N>, target: Box, skew: bool, d: nat)
    requires Distinct(t)
    ensures NoRepeats(Plan(t, target, skew, d)) && forall x | x in Plan(t, target, skew, d) :: x in Ids(t)
  {
    if t.Branch? {
      PlanOnce(t.left, target, skew, d);
      PlanOnce(t.right, target, skew, d);
      var ls := if OverlapLeft(t.key, target, t.index, d) then Plan(t.left, target, skew, d) else [];
      var rs := if OverlapRight(t.key, target, t.index, d) then Plan(t.right, target, skew, d) else [];
      NoRepeatsJoin([t.id], if skew then ls else rs);
      NoRepeatsJoin([t.id] + if skew then ls else rs, if skew then rs else ls);
    }
  }

  /** No overlapping node is pruned away. */
  lemma {:induction false} PlanComplete<N>(t: Tree<N>, target: Box, skew: bool, d: nat, x: N, k: Box)
    requires Kd(t) && Indexed(t, d) && (x, k) in Items(t) && Overlaps(k, target, d)
    ensures x in Plan(t, target, skew, d)
  {
    if (x, k) in Items(t.left) {
      PlanComplete(t.left, target, skew, d, x, k);
      if t.index >= d {
        assert Get(target, t.index - d) <= Get(k, t.index - d + d);
      }
    } else if (x, k) in Items(t.right) {
      PlanComplete(t.right, target, skew, d, x, k);
      if t.index < d {
        assert Get(k, t.index) <= Get(target, t.index + d);
      }
    }
  }

  lemma SameNodes<N>(x: N, a: seq<N>, b: seq<N>, a': seq<N>, b': seq<N>)
    requires multiset(a) == multiset(a') && multiset(b) == multiset(b')
    ensures multiset([x] + a + b) == multiset([x] + b' + a')
  {
  }

  /** Left first or right first, the same nodes are asked about, each as often. */
  lemma {:induction false} PlanSkew<N>(t: Tree<N>, target: Box, d: nat)
    ensures multiset(Plan(t, target, true, d)) == multiset(Plan(t, target, false, d))
  {
    if t.Branch? {
      PlanSkew(t.left, target, d);
      PlanSkew(t.right, target, d);
      var inLeft, inRight := OverlapLeft(t.key, target, t.index, d), OverlapRight(t.key, target, t.index, d);
      SameNodes(t.id,
                if inLeft then Plan(t.left, target, true, d) else [], if inRight then Plan(t.right, target, true, d) else [],
                if inLeft then Plan(t.left, target, false, d) else [], if inRight then Plan(t.right, target, false, d) else []);
    }
  }

  /** Among the planned nodes those that overlap the target are the ones a scan of all nodes finds,
      each once; whichever side is searched first. */
  lemma QueryIsScan<N>(t: Tree<N>, target: Box, skew: bool, d: nat)
    requires Kd(t) && Distinct(t) && Indexed(t, d)
    ensures var plan := Plan(t, target, skew, d);
            && NoRepeats(plan)
            && (forall x, k | (x, k) in Items(t) && Overlaps(k, target, d) :: x in plan)
            && (forall x | x in plan :: exists k :: (x, k) in Items(t))
            && multiset(plan) == multiset(Plan(t, target, !skew, d))
  {
    PlanOnce(t, target, skew, d);
    PlanSkew(t, target, d);
    ItemsIds(t);
    forall x, k | (x, k) in Items(t) && Overlaps(k, target, d) ensures x in Plan(t, target, skew, d) {
      PlanComplete(t, target, skew, d, x, k);
    }
  }

  /** A queryer that says no on the nodes it looks for. */
  function Until<N>(found: N -> bool): Queryer<N> {
    (log: seq<N>) => log == [] || !found(log[|log| - 1])
  }

  /** Asking goes on over exactly the plans without a node that is looked for. */
  lemma {:induction false} AskUntil<N>(log: seq<N>, todo: seq<N>, found: N -> bool)
    ensures Ask(Until(found), log, todo).0 <==> forall x | x in todo :: !found(x)
    decreases |todo|
  {
    if todo != [] {
      assert todo == [todo[0]] + todo[1..];
      assert Until(found)(log + [todo[0]]) <==> !found(todo[0]);
      AskUntil(log + [todo[0]], todo[1..], found);
    }
  }

  /** A search for nodes that overlap the target finds one exactly when a scan of all nodes would. */
  lemma SearchIsScan<N(!new)>(t: Tree<N>, target: Box, skew: bool, d: nat, log: seq<N>, found: N -> bool)
    requires Kd(t) && Distinct(t) && Indexed(t, d)
    requires forall x, k | (x, k) in Items(t) && found(x) :: Overlaps(k, target, d)
    ensures !Ask(Until(found), log, Plan(t, target, skew, d)).0 <==> exists x :: x in Ids(t) && found(x)
  {
    var plan := Plan(t, target, skew, d);
    AskUntil(log, plan, found);
    PlanOnce(t, target, skew, d);
    ItemsIds(t);
    forall x | x in Ids(t) && found(x) ensures x in plan {
      var k :| (x, k) in Items(t);
      PlanComplete(t, target, skew, d, x, k);
    }
  }

  /** A search gives the same result on every ordered tree with the same nodes and boxes. */
  lemma SearchIgnoresShape<N(!new)>(t: Tree<N>, u: Tree<N>, target: Box, skew: bool, skew': bool, d: nat, found: N -> bool)
    requires Kd(t) && Indexed(t, d) && Distinct(t) && Kd(u) && Indexed(u, d) && Distinct(u) && Items(t) == Items(u)
    requires forall x, k | (x, k) in Items(t) && found(x) :: Overlaps(k, target, d)
    ensures Ask(Until(found), [], Plan(t, target, skew, d)).0 == Ask(Until(found), [], Plan(u, target, skew', d)).0
  {
    SearchIsScan(t, target, skew, d, [], found);
    SearchIsScan(u, target, skew', d, [], found);
    ItemsIds(t);
    ItemsIds(u);
  }

  // ---------------------------------------------------------------- the culling query

  /** split_push: the box in force on the side that is searched by recursion. */
  function Narrow(box: Box, key: Box, index: nat, skew: bool, d: nat): (r: Box)
    ensures |r| == |box|
  {
    if (index < d) != skew && index < |box| then box[index := Get(key, index)] else box
  }

  datatype Culled<N> = Culled(ok: bool, log: seq<N>, box: Box)

  /** The culling query: the side not skewed to is searched with the narrowed box, which is widened
      again only if that search comes back with yes. */
  ghost function Cull<N>(t: Tree<N>, box: Box, skew: bool, d: nat, culler: Box -> bool, answer: Queryer<N>, log: seq<N>)
    : Culled<N>
    decreases t
  {
    if t.Leaf? || !culler(box) then Culled(true, log, box)
    else if culler(t.key) && !answer(log + [t.id]) then Culled(false, log + [t.id], box)
    else
      var log1 := if culler(t.key) then log + [t.id] else log;
      var side := Cull(if skew then t.left else t.right, Narrow(box, t.key, t.index, skew, d), skew, d, culler, answer, log1);
      if !side.ok then side
      else
        var back := if t.index < |side.box| then side.box[t.index := Get(box, t.index)] else side.box;
        Cull(if skew then t.right else t.left, back, skew, d, culler, answer, side.log)
  }

  /** The nodes the culling query asks about, as long as the queryer says yes. */
  ghost function CullPlan<N>(t: Tree<N>, box: Box, skew: bool, d: nat, culler: Box -> bool): seq<N>
    decreases t
  {
    if t.Leaf? || !culler(box) then []
    else
      (if culler(t.key) then [t.id] else [])
      + CullPlan(if skew then t.left else t.right, Narrow(box, t.key, t.index, skew, d), skew, d, culler)
      + CullPlan(if skew then t.right else t.left, box, skew, d, culler)
  }

  /** The box in force when node x is asked about. */
  ghost function InForce<N>(t: Tree<N>, box: Box, skew: bool, d: nat, x: N): Box
    decreases t
  {
    if t.Leaf? || t.id == x then box
    else if x in Ids(if skew then t.left else t.right) then
      InForce(if skew then t.left else t.right, Narrow(box, t.key, t.index, skew, d), skew, d, x)
    else InForce(if skew then t.right else t.left, box, skew, d, x)
  }

  /** When the query says yes, the target box is back to what it was. */
  lemma {:induction false} CullRestores<N>(t: Tree<N>, box: Box, skew: bool, d: nat, culler: Box -> bool,
                                           answer: Queryer<N>, log: seq<N>)
    requires Indexed(t, d) && |box| == 2 * d
    ensures var r := Cull(t, box, skew, d, culler, answer, log); r.ok ==> r.box == box
    decreases t
  {
    if t.Branch? && culler(box) && !(culler(t.key) && !answer(log + [t.id])) {
      var side, next := if skew then t.left else t.right, if skew then t.right else t.left;
      var narrow := Narrow(box, t.key, t.index, skew, d);
      var log1 := if culler(t.key) then log + [t.id] else log;
      CullRestores(side, narrow, skew, d, culler, answer, log1);
      var r := Cull(side, narrow, skew, d, culler, answer, log1);
      if r.ok {
        assert narrow[t.index := Get(box, t.index)] == box;
        CullRestores(next, box, skew, d, culler, answer, r.log);
      }
    }
  }

  lemma InForceBelow<N>(t: Tree<N>, box: Box, skew: bool, d: nat, x: N)
    requires t.Branch? && Distinct(t)
    ensures InForce(t, box, skew, d, t.id) == box && t.id in Ids(t)
    ensures var side, next := if skew then t.left else t.right, if skew then t.right else t.left;
            && (x in Ids(side) ==>
                  x in Ids(t) && InForce(t, box, skew, d, x) == InForce(side, Narrow(box, t.key, t.index, skew, d), skew, d, x))
            && (x in Ids(next) ==> x in Ids(t) && InForce(t, box, skew, d, x) == InForce(next, box, skew, d, x))
  {
  }

  /** One round of the culling query, with the target widened again when the search of the one side said yes. */
  lemma CullRound<N>(t: Tree<N>, box: Box, skew: bool, d: nat, culler: Box -> bool, answer: Queryer<N>, log: seq<N>)
    requires Indexed(t, d) && |box| == 2 * d && t.Branch? && culler(box) && !(culler(t.key) && !answer(log + [t.id]))
    ensures var side, next := if skew then t.left else t.right, if skew then t.right else t.left;
            var log1 := if culler(t.key) then log + [t.id] else log;
            var r := Cull(side, Narrow(box, t.key, t.index, skew, d), skew, d, culler, answer, log1);
            Cull(t, box, skew, d, culler, answer, log) == if r.ok then Cull(next, box, skew, d, culler, answer, r.log) else r
  {
    var side := if skew then t.left else t.right;
    var narrow := Narrow(box, t.key, t.index, skew, d);
    var log1 := if culler(t.key) then log + [t.id] else log;
    CullRestores(side, narrow, skew, d, culler, answer, log1);
    assert narrow[t.index := Get(box, t.index)] == box;
  }

  lemma CullRefused<N>(t: Tree<N>, box: Box, skew: bool, d: nat, culler: Box -> bool, answer: Queryer<N>, log: seq<N>)
    ensures !Cull(t, box, skew, d, culler, answer, log).ok ==> t.Branch? && culler(box)
    ensures t.Branch? && culler(box) && culler(t.key) && !answer(log + [t.id]) ==>
              Cull(t, box, skew, d, culler, answer, log) == Culled(false, log + [t.id], box)
  {
  }

  /** When the query says no, the target box stays as it was when the last node was asked about. */
  lemma {:induction false} CullStuck<N>(t: Tree<N>, box: Box, skew: bool, d: nat, culler: Box -> bool,
                                        answer: Queryer<N>, log: seq<N>)
    requires Distinct(t) && Indexed(t, d) && |box| == 2 * d && !Cull(t, box, skew, d, culler, answer, log).ok
    ensures var r := Cull(t, box, skew, d, culler, answer, log);
            |r.log| > 0 && r.log[|r.log| - 1] in Ids(t) && r.box == InForce(t, box, skew, d, r.log[|r.log| - 1])
    decreases t
  {
    CullRefused(t, box, skew, d, culler, answer, log);
    hide CullPlan, Plan, Items, Kd, Ask, InForce, Ids, Cull;
    if culler(t.key) && !answer(log + [t.id]) {
      InForceBelow(t, box, skew, d, t.id);
      assert (log + [t.id])[|log|] == t.id;
    } else {
      var side, next := if skew then t.left else t.right, if skew then t.right else t.left;
      var narrow := Narrow(box, t.key, t.index, skew, d);
      var log1 := if culler(t.key) then log + [t.id] else log;
      var r := Cull(side, narrow, skew, d, culler, answer, log1);
      CullRound(t, box, skew, d, culler, answer, log);
      hide Narrow;
      if r.ok {
        CullStuck(next, box, skew, d, culler, answer, r.log);
        var last := Cull(next, box, skew, d, culler, answer, r.log).log;
        InForceBelow(t, box, skew, d, last[|last| - 1]);
      } else {
        CullStuck(side, narrow, skew, d, culler, answer, log1);
        InForceBelow(t, box, skew, d, r.log[|r.log| - 1]);
      }
    }
  }

  /** The query asks along the plan. */
  lemma {:induction false} CullAsks<N>(t: Tree<N>, box: Box, skew: bool, d: nat, culler: Box -> bool,
                                       answer: Queryer<N>, log: seq<N>)
    requires Indexed(t, d) && |box| == 2 * d
    ensures var r := Cull(t, box, skew, d, culler, answer, log);
            (r.ok, r.log) == Ask(answer, log, CullPlan(t, box, skew, d, culler))
    decreases t
  {
    if t.Branch? && culler(box) {
      var side, next := if skew then t.left else t.right, if skew then t.right else t.left;
      var narrow := Narrow(box, t.key, t.index, skew, d);
      var own := if culler(t.key) then [t.id] else [];
      var sides, nexts := CullPlan(side, narrow, skew, d, culler), CullPlan(next, box, skew, d, culler);
      AskAppend(answer, log, own, sides);
      AskAppend(answer, log, own + sides, nexts);
      AskOne(answer, log, t.id);
      if !(culler(t.key) && !answer(log + [t.id])) {
        var log1 := if culler(t.key) then log + [t.id] else log;
        CullAsks(side, narrow, skew, d, culler, answer, log1);
        CullRestores(side, narrow, skew, d, culler, answer, log1);
        var r := Cull(side, narrow, skew, d, culler, answer, log1);
        if r.ok {
          assert narrow[t.index := Get(box, t.index)] == box;
          CullAsks(next, box, skew, d, culler, answer, r.log);
        }
      }
    }
  }

  lemma AskOne<N>(answer: Queryer<N>, log: seq<N>, x: N)
    ensures Ask(answer, log, [x]) == (answer(log + [x]), log + [x])
  {
    assert [x][1..] == [];
  }

  /** The n-th planned node is the first one the queryer says no to. */
  ghost predicate FirstNo<N>(answer: Queryer<N>, log: seq<N>, plan: seq<N>, n: nat) {
    n < |plan| && !answer(log + plan[..n + 1]) && forall i: nat | 0 < i <= n :: answer(log + plan[..i])
  }

  lemma AskFirstNo<N>(answer: Queryer<N>, log: seq<N>, plan: seq<N>, n: nat)
    ensures var r := Ask(answer, log, plan); FirstNo(answer, log, plan, n) <==> !r.0 && |r.1| == |log| + n + 1
  {
    AskStopsAtNo(answer, log, plan);
    var r := Ask(answer, log, plan);
    var m := |r.1| - |log|;
    forall i: nat | 0 < i <= m ensures answer(log + plan[..i]) <==> i < m || r.0 {
      assert r.1[..|log| + i] == log + plan[..i];
      assert r.1[..|r.1|] == r.1;
    }
  }

  /** The target comes back as it was exactly if no planned node is refused, or the whole target is
      in force at the first one that is. */
  lemma CullRestoresIff<N>(t: Tree<N>, box: Box, skew: bool, d: nat, culler: Box -> bool, answer: Queryer<N>, log: seq<N>)
    requires Distinct(t) && Indexed(t, d) && |box| == 2 * d
    ensures var plan := CullPlan(t, box, skew, d, culler);
            Cull(t, box, skew, d, culler, answer, log).box == box
            <==> forall n: nat | FirstNo(answer, log, plan, n) :: InForce(t, box, skew, d, plan[n]) == box
  {
    hide Cull, CullPlan, InForce, Ask, FirstNo, Distinct, Indexed;
    var (r, plan) := (Cull(t, box, skew, d, culler, answer, log), CullPlan(t, box, skew, d, culler));
    CullAsks(t, box, skew, d, culler, answer, log);
    AskStopsAtNo(answer, log, plan);
    forall n: nat ensures FirstNo(answer, log, plan, n) <==> !r.ok && |r.log| == |log| + n + 1 {
      AskFirstNo(answer, log, plan, n);
    }
    if r.ok {
      CullRestores(t, box, skew, d, culler, answer, log);
    } else {
      CullStuck(t, box, skew, d, culler, answer, log);
      var n := |r.log| - |log| - 1;
      assert FirstNo(answer, log, plan, n) && r.log[|r.log| - 1] == plan[n];
    }
  }

  /** Box a lies inside box b. */
  ghost predicate Inside(a: Box, b: Box, d: nat) {
    && (forall i | 0 <= i < d :: Get(b, i) <= Get(a, i))
    && (forall i | d <= i < 2 * d :: Get(a, i) <= Get(b, i))
  }

  ghost predicate AllInside<N>(t: Tree<N>, box: Box, d: nat) {
    forall e | e in Items(t) :: Inside(e.1, box, d)
  }

  /** A culler rejects every box inside one it rejects. */
  ghost predicate Hereditary(culler: Box -> bool, d: nat) {
    forall a, b | Inside(a, b, d) && culler(a) :: culler(b)
  }

  /** The narrowed box still holds the whole side it is narrowed for. */
  lemma NarrowKeeps<N>(t: Tree<N>, box: Box, skew: bool, d: nat)
    requires t.Branch? && Kd(t) && t.index < 2 * d && |box| == 2 * d && AllInside(t, box, d)
    ensures AllInside(if skew then t.left else t.right, Narrow(box, t.key, t.index, skew, d), d)
    ensures AllInside(if skew then t.right else t.left, box, d)
  {
    var side, next := if skew then t.left else t.right, if skew then t.right else t.left;
    forall e | e in Items(next) ensures Inside(e.1, box, d) {
      assert e in Items(t);
    }
    forall e | e in Items(side) ensures Inside(e.1, Narrow(box, t.key, t.index, skew, d), d) {
      assert e in Items(t);
      NarrowInside(e.1, box, t.key, t.index, skew, d);
    }
  }

  lemma NarrowInside(k: Box, box: Box, key: Box, index: nat, skew: bool, d: nat)
    requires Inside(k, box, d) && index < 2 * d && |box| == 2 * d
    requires if skew then Get(k, index) <= Get(key, index) else Get(key, index) <= Get(k, index)
    ensures Inside(k, Narrow(box, key, index, skew, d), d)
  {
  }

  lemma Outermost(a: Box, b: Box, c: Box, d: nat)
    requires Inside(a, b, d) && Inside(b, c, d)
    ensures Inside(a, c, d)
  {
  }

  lemma {:induction false} InForceInside<N>(t: Tree<N>, box: Box, skew: bool, d: nat, x: N)
    requires Kd(t) && Indexed(t, d) && |box| == 2 * d && AllInside(t, box, d)
    ensures var r := InForce(t, box, skew, d, x); |r| == 2 * d && Inside(r, box, d)
    decreases t
  {
    if t.Branch? && t.id != x {
      var side, next := if skew then t.left else t.right, if skew then t.right else t.left;
      NarrowKeeps(t, box, skew, d);
      assert (t.id, t.key) in Items(t);
      if x in Ids(side) {
        var narrow := Narrow(box, t.key, t.index, skew, d);
        InForceInside(side, narrow, skew, d, x);
        Outermost(InForce(side, narrow, skew, d, x), narrow, box, d);
      } else {
        InForceInside(next, box, skew, d, x);
      }
    }
  }

  /** No node above x that searches x's side by recursion has, on a bound that is narrowed there,
      a coordinate of its own different from the target's. */
  ghost predicate NeverNarrowed<N>(t: Tree<N>, box: Box, skew: bool, d: nat, x: N)
    decreases t
  {
    t.Leaf? || t.id == x ||
    if x in Ids(if skew then t.left else t.right) then
      && ((t.index < d) != skew ==> Get(t.key, t.index) == Get(box, t.index))
      && NeverNarrowed(if skew then t.left else t.right, box, skew, d, x)
    else NeverNarrowed(if skew then t.right else t.left, box, skew, d, x)
  }

  /** Once narrowed, a bound is never widened further down. */
  lemma {:induction false} InForceIff<N>(t: Tree<N>, box: Box, skew: bool, d: nat, x: N)
    requires Kd(t) && Indexed(t, d) && |box| == 2 * d && AllInside(t, box, d)
    ensures InForce(t, box, skew, d, x) == box <==> NeverNarrowed(t, box, skew, d, x)
    decreases t
  {
    if t.Branch? && t.id != x {
      var side, next := if skew then t.left else t.right, if skew then t.right else t.left;
      NarrowKeeps(t, box, skew, d);
      assert (t.id, t.key) in Items(t);
      if x !in Ids(side) {
        InForceIff(next, box, skew, d, x);
      } else if Narrow(box, t.key, t.index, skew, d) == box {
        InForceIff(side, box, skew, d, x);
      } else {
        InForceInside(side, Narrow(box, t.key, t.index, skew, d), skew, d, x);
      }
    }
  }

  /** For an ordered tree inside the target: it comes back as it was exactly if no planned node is
      refused, or nothing narrows the target on the way to the first one that is. */
  lemma CullRestoresInside<N>(t: Tree<N>, box: Box, skew: bool, d: nat, culler: Box -> bool, answer: Queryer<N>, log: seq<N>)
    requires Kd(t) && Distinct(t) && Indexed(t, d) && |box| == 2 * d && AllInside(t, box, d)
    ensures var plan := CullPlan(t, box, skew, d, culler);
            Cull(t, box, skew, d, culler, answer, log).box == box
            <==> forall n: nat | FirstNo(answer, log, plan, n) :: NeverNarrowed(t, box, skew, d, plan[n])
  {
    var plan := CullPlan(t, box, skew, d, culler);
    CullRestoresIff(t, box, skew, d, culler, answer, log);
    forall n: nat | FirstNo(answer, log, plan, n)
      ensures InForce(t, box, skew, d, plan[n]) == box <==> NeverNarrowed(t, box, skew, d, plan[n])
    {
      InForceIff(t, box, skew, d, plan[n]);
    }
  }

  /** No node is asked about twice, and the culler accepts every node asked about. */
  lemma {:induction false} CullOnce<N>(t: Tree<N>, box: Box, skew: bool, d: nat, culler: Box -> bool)
    requires Distinct(t)
    ensures NoRepeats(CullPlan(t, box, skew, d, culler))
    ensures forall x | x in CullPlan(t, box, skew, d, culler) ::
              x in Ids(t) && Focus(t, x).Branch? && culler(Focus(t, x).key)
    decreases t
  {
    if t.Branch? && culler(box) {
      var side, next := if skew then t.left else t.right, if skew then t.right else t.left;
      var narrow := Narrow(box, t.key, t.index, skew, d);
      CullOnce(side, narrow, skew, d, culler);
      CullOnce(next, box, skew, d, culler);
      var own := if culler(t.key) then [t.id] else [];
      NoRepeatsJoin(own, CullPlan(side, narrow, skew, d, culler));
      NoRepeatsJoin(own + CullPlan(side, narrow, skew, d, culler), CullPlan(next, box, skew, d, culler));
    }
  }

  /** No accepted node is culled away. */
  lemma {:induction false} CullComplete<N>(t: Tree<N>, box: Box, skew: bool, d: nat, culler: Box -> bool, x: N, k: Box)
    requires Kd(t) && Indexed(t, d) && |box| == 2 * d && AllInside(t, box, d) && Hereditary(culler, d)
    requires (x, k) in Items(t) && culler(k)
    ensures x in CullPlan(t, box, skew, d, culler)
    decreases t
  {
    assert Inside(k, box, d);
    NarrowKeeps(t, box, skew, d);
    var side, next := if skew then t.left else t.right, if skew then t.right else t.left;
    if (x, k) in Items(side) {
      CullComplete(side, Narrow(box, t.key, t.index, skew, d), skew, d, culler, x, k);
    } else if (x, k) in Items(next) {
      CullComplete(next, box, skew, d, culler, x, k);
    }
  }

  /** A queryer that always says yes is called on exactly the accepted nodes, each once, and the
      target box comes back unchanged. */
  lemma CullExact<N>(t: Tree<N>, box: Box, skew: bool, d: nat, culler: Box -> bool, answer: Queryer<N>)
    requires Kd(t) && Distinct(t) && Indexed(t, d) && |box| == 2 * d && AllInside(t, box, d) && Hereditary(culler, d)
    requires forall log :: answer(log)
    ensures var r := Cull(t, box, skew, d, culler, answer, []);
            && r.ok && r.box == box && NoRepeats(r.log)
            && (forall x | x in r.log :: x in Ids(t) && Focus(t, x).Branch? && culler(Focus(t, x).key))
            && (forall e | e in Items(t) && culler(e.1) :: e.0 in r.log)
  {
    var plan := CullPlan(t, box, skew, d, culler);
    CullRestores(t, box, skew, d, culler, answer, []);
    CullAsks(t, box, skew, d, culler, answer, []);
    AskStopsAtNo(answer, [], plan);
    assert [] + plan == plan;
    CullOnce(t, box, skew, d, culler);
    forall e | e in Items(t) && culler(e.1) ensures e.0 in plan {
      CullComplete(t, box, skew, d, culler, e.0, e.1);
    }
  }

  /** A no below a narrowed box leaves the target changed. */
  lemma CullLeavesTarget()
    ensures var t := Branch(0, [5, 5], 0, Leaf, Branch(1, [7, 7], 1, Leaf, Leaf));
            var r := Cull(t, [0, 9], false, 1, _ => true, log => |log| < 2, []);
            Kd(t) && !r.ok && r.log == [0, 1] && r.box == [5, 9]
  {
    var inner := Branch(1, [7, 7], 1, Leaf, Leaf);
    var t := Branch(0, [5, 5], 0, Leaf, inner);
    var culler: Box -> bool := _ => true;
    var answer: Queryer<int> := log => |log| < 2;
    assert Narrow([0, 9], t.key, 0, false, 1) == [5, 9];
    assert Cull(inner, [5, 9], false, 1, culler, answer, [0]) == Culled(false, [0] + [1], [5, 9]);
  }
}
