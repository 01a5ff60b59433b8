/** kd-trees as values: what grid_tree_t's pointer operations are proved against.

    A branch carries the identity of its node, the node's box and its comparing dimension. A box
    lists the lower bounds of all dimensions, then the upper bounds. */
module KdTree {

  type Box = seq<int>

  datatype Tree<N> = Leaf | Branch(id: N, key: Box, index: nat, left: Tree<N>, right: Tree<N>)

  /** Coordinate i of a box; a missing one reads as 0. */
  function Get(k: Box, i: nat): int {
    if i < |k| then k[i] else 0
  }

  /** meta::compare: rhs lies strictly before lhs. */
  predicate Compare(lhs: Box, rhs: Box, index: nat) {
    Get(rhs, index) < Get(lhs, index)
  }

  ghost function Ids<N>(t: Tree<N>): set<N> {
    match t
    case Leaf => {}
    case Branch(id, _, _, l, r) => {id} + Ids(l) + Ids(r)
  }

  ghost function Items<N>(t: Tree<N>): set<(N, Box)> {
    match t
    case Leaf => {}
    case Branch(id, key, _, l, r) => {(id, key)} + Items(l) + Items(r)
  }

  ghost function Size<N>(t: Tree<N>): nat {
    match t
    case Leaf => 0
    case Branch(_, _, _, l, r) => 1 + Size(l) + Size(r)
  }

  /** No node occurs twice. */
  ghost predicate Distinct<N>(t: Tree<N>) {
    match t
    case Leaf => true
    case Branch(id, _, _, l, r) => id !in Ids(l) && id !in Ids(r) && Ids(l) !! Ids(r) && Distinct(l) && Distinct(r)
  }

  ghost predicate Below<N>(t: Tree<N>, i: nat, v: int) {
    forall e | e in Items(t) :: Get(e.1, i) <= v
  }

  ghost predicate Above<N>(t: Tree<N>, i: nat, v: int) {
    forall e | e in Items(t) :: v <= Get(e.1, i)
  }

  /** left <= node <= right, on every node's own dimension. */
  ghost predicate Kd<N>(t: Tree<N>) {
    match t
    case Leaf => true
    case Branch(_, key, index, l, r) =>
      Below(l, index, Get(key, index)) && Above(r, index, Get(key, index)) && Kd(l) && Kd(r)
  }

  /** Every node compares on a coordinate that boxes have. */
  ghost predicate Indexed<N>(t: Tree<N>, d: nat) {
    t.Branch? ==> t.index < 2 * d && Indexed(t.left, d) && Indexed(t.right, d)
  }

  lemma {:induction false} ItemsIds<N>(t: Tree<N>)
    ensures forall e | e in Items(t) :: e.0 in Ids(t)
    ensures forall x | x in Ids(t) :: exists k :: (x, k) in Items(t)
  {
    if t.Branch? {
      ItemsIds(t.left);
      ItemsIds(t.right);
      assert (t.id, t.key) in Items(t);
      forall x | x in Ids(t) ensures exists k :: (x, k) in Items(t) {
        if x in Ids(t.left) {
          var k :| (x, k) in Items(t.left);
          assert (x, k) in Items(t);
        } else if x in Ids(t.right) {
          var k :| (x, k) in Items(t.right);
          assert (x, k) in Items(t);
        }
      }
    }
  }

  // ---------------------------------------------------------------- attaching

  /** merge(): descend to a free place. */
  ghost function Insert<N>(t: Tree<N>, id: N, key: Box, index: nat): (r: Tree<N>)
    requires t.Branch?
    ensures Items(r) == Items(t) + {(id, key)} && Ids(r) == Ids(t) + {id}
    ensures r.Branch? && r.id == t.id
    ensures Distinct(t) && id !in Ids(t) ==> Distinct(r)
    ensures Kd(t) ==> Kd(r)
  {
    var leaf := Branch(id, key, index, Leaf, Leaf);
    if Compare(t.key, key, t.index) then
      t.(left := if t.left.Leaf? then leaf else Insert(t.left, id, key, index))
    else
      t.(right := if t.right.Leaf? then leaf else Insert(t.right, id, key, index))
  }

  /** Which node compares on which coordinate. */
  ghost function Dims<N>(t: Tree<N>): set<(N, nat)> {
    match t
    case Leaf => {}
    case Branch(id, _, index, l, r) => {(id, index)} + Dims(l) + Dims(r)
  }

  /** The other nodes keep their dimensions. */
  lemma {:induction false} InsertDims<N>(t: Tree<N>, id: N, key: Box, index: nat)
    requires t.Branch?
    ensures Dims(Insert(t, id, key, index)) == Dims(t) + {(id, index)}
  {
    var leaf := Branch(id, key, index, Leaf, Leaf);
    assert Dims(leaf) == {(id, index)};
    if Compare(t.key, key, t.index) {
      if t.left.Branch? {
        InsertDims(t.left, id, key, index);
      }
    } else if t.right.Branch? {
      InsertDims(t.right, id, key, index);
    }
  }

  // ---------------------------------------------------------------- subtrees

  /** The subtree whose root is node x. */
  ghost function Focus<N>(t: Tree<N>, x: N): Tree<N> {
    match t
    case Leaf => Leaf
    case Branch(id, _, _, l, r) => if id == x then t else if x in Ids(l) then Focus(l, x) else Focus(r, x)
  }

  /** The tree with the subtree at x replaced by s. */
  ghost function Subst<N>(t: Tree<N>, x: N, s: Tree<N>): Tree<N> {
    match t
    case Leaf => Leaf
    case Branch(id, _, _, l, r) =>
      if id == x then s
      else if x in Ids(l) then t.(left := Subst(l, x, s))
      else t.(right := Subst(r, x, s))
  }

  lemma {:induction false} FocusFacts<N>(t: Tree<N>, x: N)
    requires x in Ids(t)
    ensures var f := Focus(t, x);
            && f.Branch? && f.id == x && Ids(f) <= Ids(t) && Items(f) <= Items(t) && Size(f) <= Size(t)
            && (Distinct(t) ==> Distinct(f)) && (Kd(t) ==> Kd(f))
  {
    if t.id != x {
      if x in Ids(t.left) {
        FocusFacts(t.left, x);
      } else {
        FocusFacts(t.right, x);
      }
    }
  }

  lemma {:induction false} SubstIds<N>(t: Tree<N>, x: N, s: Tree<N>)
    requires x in Ids(t) && Distinct(t) && Ids(s) <= Ids(Focus(t, x))
    ensures Ids(Subst(t, x, s)) == Ids(t) - (Ids(Focus(t, x)) - Ids(s))
    ensures Distinct(s) ==> Distinct(Subst(t, x, s))
  {
    FocusFacts(t, x);
    if t.id != x {
      if x in Ids(t.left) {
        FocusFacts(t.left, x);
        SubstIds(t.left, x, s);
      } else {
        FocusFacts(t.right, x);
        SubstIds(t.right, x, s);
      }
    }
  }

  lemma {:induction false} SubstItems<N>(t: Tree<N>, x: N, s: Tree<N>)
    requires x in Ids(t) && Distinct(t) && Items(s) <= Items(Focus(t, x))
    ensures Items(Subst(t, x, s)) == Items(t) - (Items(Focus(t, x)) - Items(s))
  {
    FocusFacts(t, x);
    ItemsIds(t.left);
    ItemsIds(t.right);
    if t.id != x {
      if x in Ids(t.left) {
        FocusFacts(t.left, x);
        SubstItems(t.left, x, s);
      } else {
        FocusFacts(t.right, x);
        SubstItems(t.right, x, s);
      }
    }
  }

  lemma {:induction false} SubstKd<N>(t: Tree<N>, x: N, s: Tree<N>)
    requires x in Ids(t) && Distinct(t) && Items(s) <= Items(Focus(t, x)) && Kd(t) && Kd(s)
    ensures Kd(Subst(t, x, s))
  {
    if t.id != x {
      if x in Ids(t.left) {
        SubstItems(t.left, x, s);
        SubstKd(t.left, x, s);
      } else {
        SubstItems(t.right, x, s);
        SubstKd(t.right, x, s);
      }
    }
  }

  /** A replacement further down is swallowed by one above it. */
  lemma {:induction false} SubstUnder<N>(t: Tree<N>, x: N, y: N, s: Tree<N>, u: Tree<N>)
    requires Distinct(t) && x in Ids(t) && y in Ids(Focus(t, x)) && y != x
    requires Ids(s) <= Ids(Focus(t, y))
    ensures Subst(Subst(t, y, s), x, u) == Subst(t, x, u)
    ensures Focus(Subst(t, y, s), x) == Subst(Focus(t, x), y, s)
    ensures Focus(t, y) == Focus(Focus(t, x), y)
  {
    FocusFacts(t, x);
    if t.id == x {
    } else if x in Ids(t.left) {
      FocusFacts(t.left, x);
      FocusFacts(t.left, y);
      SubstUnder(t.left, x, y, s, u);
      SubstIds(t.left, y, s);
      SubstKeeps(t.left, y, s, x);
    } else {
      FocusFacts(t.right, x);
      FocusFacts(t.right, y);
      SubstUnder(t.right, x, y, s, u);
      SubstIds(t.right, y, s);
      SubstKeeps(t.right, y, s, x);
    }
  }

  /** A node above the replaced subtree stays. */
  lemma {:induction false} SubstKeeps<N>(t: Tree<N>, y: N, s: Tree<N>, x: N)
    requires Distinct(t) && x in Ids(t) && y in Ids(Focus(t, x)) && y != x
    ensures x in Ids(Subst(t, y, s)) && y in Ids(t)
  {
    FocusFacts(t, x);
    if t.id == x {
    } else if x in Ids(t.left) {
      FocusFacts(t.left, x);
      SubstKeeps(t.left, y, s, x);
    } else {
      FocusFacts(t.right, x);
      SubstKeeps(t.right, y, s, x);
    }
  }

  // ---------------------------------------------------------------- detaching

  /** The tree at x once its root gives way to p, which was taken out of it, leaving u behind. */
  ghost function Promote<N>(f: Tree<N>, p: N, k: Box, u: Tree<N>): Tree<N>
    requires f.Branch?
  {
    var rest := Subst(f, p, u);
    if rest.Leaf? then Leaf else Branch(p, k, f.index, rest.left, rest.right)
  }

  /** Taking p out of the tree is a matter of the subtree at x alone. */
  lemma PromoteWithin<N>(t: Tree<N>, x: N, p: N, k: Box, u: Tree<N>)
    requires Distinct(t) && x in Ids(t) && x != p
    requires Focus(t, x).Branch? && p in Ids(Focus(t, x)) && p in Ids(t)
    requires Distinct(u) && Ids(u) == Ids(Focus(t, p)) - {p}
    ensures var rest, s := Subst(t, p, u), Promote(Focus(t, x), p, k, u);
            && Distinct(rest) && x in Ids(rest) && p !in Ids(rest)
            && Focus(rest, x) == Subst(Focus(t, x), p, u) && Subst(rest, x, s) == Subst(t, x, s)
  {
    FocusFacts(t, p);
    SubstIds(t, p, u);
    SubstKeeps(t, p, u, x);
    SubstUnder(t, x, p, u, Promote(Focus(t, x), p, k, u));
  }

  /** s holds the nodes of f except its root, with their keys, in order. */
  ghost predicate WithoutRoot<N>(f: Tree<N>, s: Tree<N>)
    requires f.Branch?
  {
    && Distinct(s) && Kd(s) && Ids(s) == Ids(f) - {f.id} && Items(s) == Items(f) - {(f.id, f.key)}
    && forall d | Indexed(f, d) :: Indexed(s, d)
  }

  lemma {:induction false} FocusIndexed<N>(t: Tree<N>, x: N, d: nat)
    requires Indexed(t, d)
    ensures Indexed(Focus(t, x), d)
  {
    if t.Branch? && t.id != x {
      FocusIndexed(if x in Ids(t.left) then t.left else t.right, x, d);
    }
  }

  lemma {:induction false} SubstIndexed<N>(t: Tree<N>, x: N, s: Tree<N>, d: nat)
    requires Indexed(t, d) && Indexed(s, d)
    ensures Indexed(Subst(t, x, s), d)
  {
    if t.Branch? && t.id != x {
      SubstIndexed(if x in Ids(t.left) then t.left else t.right, x, s, d);
    }
  }

  /** Replacing the subtree at x by its other nodes, in order, takes exactly x out of the tree. */
  lemma Removed<N>(t: Tree<N>, x: N, s: Tree<N>)
    requires Distinct(t) && Kd(t) && x in Ids(t)
    requires Focus(t, x).Branch? && Focus(t, x).id == x && WithoutRoot(Focus(t, x), s)
    ensures var t', k := Subst(t, x, s), Focus(t, x).key;
            && Distinct(t') && Kd(t') && Ids(t') == Ids(t) - {x} && Items(t') == Items(t) - {(x, k)}
            && forall d | Indexed(t, d) :: Indexed(t', d)
  {
    FocusFacts(t, x);
    SubstIds(t, x, s);
    SubstItems(t, x, s);
    SubstKd(t, x, s);
    forall d | Indexed(t, d) ensures Indexed(Subst(t, x, s), d) {
      FocusIndexed(t, x, d);
      SubstIndexed(t, x, s, d);
    }
  }

  /** p lies furthest towards f's root in its own half of f. */
  ghost predicate Extreme<N>(f: Tree<N>, p: N, k: Box)
    requires f.Branch?
  {
    && p in Ids(f.left) + Ids(f.right)
    && (p in Ids(f.left) ==> (p, k) in Items(f.left) && Below(f.left, f.index, Get(k, f.index)))
    && (p in Ids(f.right) ==> (p, k) in Items(f.right) && Above(f.right, f.index, Get(k, f.index)))
  }

  /** With an extreme node of one side as its root, the tree holds the same nodes in order. */
  lemma PromoteKeeps<N>(f: Tree<N>, p: N, k: Box, u: Tree<N>)
    requires f.Branch? && Distinct(f) && Kd(f) && Extreme(f, p, k)
    requires Focus(f, p).Branch? && Focus(f, p).id == p && Focus(f, p).key == k && WithoutRoot(Focus(f, p), u)
    ensures WithoutRoot(f, Promote(f, p, k, u))
  {
    PromoteIds(f, p, k, u);
    PromoteItems(f, p, k, u);
    var s := Promote(f, p, k, u);
    var side := if p in Ids(f.left) then f.left else f.right;
    SubstItems(side, p, u);
    SubstKd(side, p, u);
    assert Items(s.left) <= Items(f.left) && Items(s.right) <= Items(f.right);
    PromoteIndexed(f, p, k, u);
  }

  lemma PromoteIndexed<N>(f: Tree<N>, p: N, k: Box, u: Tree<N>)
    requires f.Branch? && p != f.id && forall d | Indexed(Focus(f, p), d) :: Indexed(u, d)
    ensures forall d | Indexed(f, d) :: Indexed(Promote(f, p, k, u), d)
  {
    forall d | Indexed(f, d) ensures Indexed(Promote(f, p, k, u), d) {
      FocusIndexed(f, p, d);
      SubstIndexed(f, p, u, d);
    }
  }

  lemma PromoteIds<N>(f: Tree<N>, p: N, k: Box, u: Tree<N>)
    requires f.Branch? && Distinct(f) && p in Ids(f.left) + Ids(f.right)
    requires Distinct(u) && Ids(u) == Ids(Focus(f, p)) - {p}
    ensures var s := Promote(f, p, k, u); Distinct(s) && Ids(s) == Ids(f) - {f.id}
  {
    var side := if p in Ids(f.left) then f.left else f.right;
    FocusFacts(side, p);
    SubstIds(side, p, u);
  }

  lemma MoveOut<I>(root: I, e: I, side: set<I>, rest: set<I>, other: set<I>)
    requires e in side && rest == side - {e} && root !in side && root !in other
    ensures {e} + rest + other == {root} + side + other - {root}
    ensures {e} + other + rest == {root} + other + side - {root}
  {
  }

  lemma PromoteItems<N>(f: Tree<N>, p: N, k: Box, u: Tree<N>)
    requires f.Branch? && Distinct(f) && p in Ids(f.left) + Ids(f.right)
    requires Items(u) == Items(Focus(f, p)) - {(p, k)} && (p, k) in Items(Focus(f, p))
    ensures Items(Promote(f, p, k, u)) == Items(f) - {(f.id, f.key)}
  {
    var side, other := if p in Ids(f.left) then f.left else f.right, if p in Ids(f.left) then f.right else f.left;
    FocusFacts(side, p);
    SubstItems(side, p, u);
    ItemsIds(f.left);
    ItemsIds(f.right);
    MoveOut((f.id, f.key), (p, k), Items(side), Items(Subst(side, p, u)), Items(other));
  }

  /** Both at once: what taking out p and putting it in the place of x does to the whole tree. */
  lemma Promotion<N>(t: Tree<N>, x: N, p: N, k: Box, u: Tree<N>)
    requires Distinct(t) && Kd(t) && x in Ids(t) && x != p && p in Ids(t)
    requires var f := Focus(t, x);
             && f.Branch? && f.id == x && Distinct(f) && Kd(f) && Extreme(f, p, k) && Focus(t, p) == Focus(f, p)
    requires var g := Focus(t, p); g.Branch? && g.id == p && g.key == k && WithoutRoot(g, u)
    ensures var f, rest := Focus(t, x), Subst(t, p, u);
            var s := Promote(f, p, k, u);
            && Distinct(rest) && x in Ids(rest) && p !in Ids(rest) && Subst(rest, x, s) == Subst(t, x, s)
            && WithoutRoot(f, s) && Focus(rest, x).Branch? && Ids(Focus(rest, x)) <= Ids(f)
            && s == Branch(p, k, f.index, Focus(rest, x).left, Focus(rest, x).right)
  {
    PromoteWithin(t, x, p, k, u);
    PromoteKeeps(Focus(t, x), p, k, u);
    SubstIds(Focus(t, x), p, u);
  }
}
