/** grid_tree_t itself: nodes linked by pointers and rearranged in place.

    Every method takes the set S of all nodes at hand. The heap of these nodes is read off as a
    map, so that what a pointer structure represents is a statement about values. */
module KdNode {
  import opened KdTree
  import Counter
  import opened KdForest
  import opened KdQuery

  type Shape = Tree<Node>

  /** The fields of one node. */
  datatype Cell = Cell(key: Box, index: nat, parent: Node?, left: Node?, right: Node?)

  type Heap = map<Node, Cell>

  ghost function Snap(S: set<Node>): (h: Heap)
    reads S
    ensures h.Keys == S
  {
    map x | x in S :: Cell(x.key, x.index, x.parent, x.left, x.right)
  }

  ghost predicate SameSelf(c: Cell, c': Cell) {
    c'.key == c.key && c'.index == c.index && c'.parent == c.parent
  }

  /** In heap h, node n has parent par and is the root of exactly the tree t. */
  ghost predicate Rep(h: Heap, n: Node?, par: Node?, t: Shape)
    decreases t
  {
    match t
    case Leaf => n == null
    case Branch(id, key, index, l, r) =>
      && n == id && id in h
      && h[id].key == key && h[id].index == index && h[id].parent == par
      && Rep(h, h[id].left, id, l) && Rep(h, h[id].right, id, r)
  }

  /** The heaps agree except on the nodes of X. */
  ghost predicate SameBut(h: Heap, h': Heap, X: set<Node>) {
    h.Keys == h'.Keys && forall x | x in h && x !in X :: h'[x] == h[x]
  }

  lemma {:induction false} RepFrame(h: Heap, h': Heap, X: set<Node>, n: Node?, par: Node?, t: Shape)
    requires Rep(h, n, par, t) && SameBut(h, h', X) && X !! Ids(t)
    ensures Rep(h', n, par, t)
    decreases t
  {
    if t.Branch? {
      RepFrame(h, h', X, h[t.id].left, t.id, t.left);
      RepFrame(h, h', X, h[t.id].right, t.id, t.right);
    }
  }

  lemma {:induction false} RepIn(h: Heap, n: Node?, par: Node?, t: Shape)
    requires Rep(h, n, par, t)
    ensures Ids(t) <= h.Keys
    decreases t
  {
    if t.Branch? {
      RepIn(h, h[t.id].left, t.id, t.left);
      RepIn(h, h[t.id].right, t.id, t.right);
    }
  }

  /** What the heap says at a node inside the tree. */
  lemma {:induction false} RepAt(h: Heap, n: Node?, par: Node?, t: Shape, x: Node)
    requires Rep(h, n, par, t) && Distinct(t) && x in Ids(t)
    ensures x in h && Rep(h, x, h[x].parent, Focus(t, x)) && Focus(t, x).Branch?
    ensures x == n ==> h[x].parent == par
    ensures x != n ==>
              var q := h[x].parent;
              && q != null && q in Ids(t) && q !in Ids(Focus(t, x)) && q in h
              && (h[q].left == x || h[q].right == x)
    decreases t
  {
    if x != n {
      if x in Ids(t.left) {
        RepAt(h, h[n].left, n, t.left, x);
        FocusFacts(t.left, x);
      } else {
        RepAt(h, h[n].right, n, t.right, x);
        FocusFacts(t.right, x);
      }
    }
  }

  /** The heap once the link of q to x leads to c. */
  ghost function Relink(h: Heap, q: Node?, x: Node, c: Node?): Heap {
    if q == null || q !in h then h
    else if h[q].left == x then h[q := h[q].(left := c)]
    else h[q := h[q].(right := c)]
  }

  /** The heap once q is the parent of c. */
  ghost function Adopt(h: Heap, c: Node?, q: Node?): Heap {
    if c == null || c !in h then h else h[c := h[c].(parent := q)]
  }

  ghost function Single(q: Node?): set<Node> {
    if q == null then {} else {q}
  }

  /** The heap once x and p have exchanged their dimensions and links. */
  ghost function Swap(h: Heap, x: Node, p: Node): Heap
    requires x in h && p in h
  {
    h[x := h[p].(key := h[x].key)][p := h[x].(key := h[p].key)]
  }

  /** Replacing the subtree at x by the tree s with root c, through the parent's link alone; nodes
      outside the tree may change as well. */
  lemma {:induction false} Graft(h: Heap, h': Heap, E: set<Node>, n: Node?, par: Node?, t: Shape, x: Node, c: Node?,
                                 s: Shape)
    requires Rep(h, n, par, t) && Distinct(t) && x in Ids(t) && x in h
    requires par != null ==> par !in Ids(t)
    requires SameBut(h, h', Ids(Focus(t, x)) + Single(h[x].parent) + E)
    requires h[x].parent != null && h[x].parent in h ==> h'[h[x].parent] == Relink(h, h[x].parent, x, c)[h[x].parent]
    requires Rep(h', c, h[x].parent, s) && E !! Ids(t)
    ensures Rep(h', if x == n then c else n, par, Subst(t, x, s))
    decreases t
  {
    if x != n {
      RepAt(h, n, par, t, x);
      var changed := Ids(Focus(t, x)) + Single(h[x].parent) + E;
      if x in Ids(t.left) {
        FocusFacts(t.left, x);
        RepAt(h, h[n].left, n, t.left, x);
        Graft(h, h', E, h[n].left, n, t.left, x, c, s);
        RepFrame(h, h', changed, h[n].right, n, t.right);
      } else {
        FocusFacts(t.right, x);
        RepAt(h, h[n].right, n, t.right, x);
        Graft(h, h', E, h[n].right, n, t.right, x, c, s);
        RepFrame(h, h', changed, h[n].left, n, t.left);
      }
    }
  }

  /** A subtree moves under another parent. */
  lemma Reparent(h: Heap, h': Heap, X: set<Node>, c: Node?, par: Node?, par': Node?, t: Shape)
    requires Rep(h, c, par, t) && Distinct(t) && SameBut(h, h', X) && X * Ids(t) <= Single(c)
    requires c != null && c in h ==> h'[c] == h[c].(parent := par')
    ensures Rep(h', c, par', t)
  {
    if t.Branch? {
      RepFrame(h, h', X, h[c].left, c, t.left);
      RepFrame(h, h', X, h[c].right, c, t.right);
    }
  }

  /** What is left of a tree with at most one subtree once its root is gone. */
  ghost function Rest(t: Shape): Shape {
    if t.Leaf? then Leaf else if t.left.Leaf? then t.right else t.left
  }

  /** The nodes linked to x are nodes of the tree; none is x, and no child is the parent. */
  lemma Neighbours(h: Heap, root: Node, t: Shape, x: Node)
    requires Rep(h, root, null, t) && Distinct(t) && x in Ids(t)
    ensures x in h && forall y | y in {h[x].parent, h[x].left, h[x].right} && y != null :: y in h && y != x && y in Ids(t)
    ensures h[x].parent == null <==> x == root
    ensures h[x].parent != null ==> h[x].parent != h[x].left && h[x].parent != h[x].right
  {
    RepAt(h, root, null, t, x);
    RepIn(h, root, null, t);
    FocusFacts(t, x);
    RepIn(h, x, h[x].parent, Focus(t, x));
  }

  /** x is out of the tree and alone; the tree s has taken its place, under the new root r if x was
      the root. Only nodes of its subtree and its parent's link to it have changed. */
  ghost predicate Detached(h: Heap, h': Heap, root: Node, t: Shape, x: Node, r: Node?, s: Shape)
    requires x in h
  {
    var q := h[x].parent;
    && Rep(h', if x == root then r else root, null, Subst(t, x, s)) && (x != root ==> r == null)
    && x in h' && h'[x] == Cell(h[x].key, h'[x].index, null, null, null)
    && SameBut(h, h', Ids(Focus(t, x)) + Single(q)) && (q != null ==> q in h && SameSelf(h[q], h'[q]))
  }

  /** The only child c of x takes the place of x. */
  lemma Bypass(h: Heap, h': Heap, root: Node, t: Shape, x: Node, c: Node?)
    requires Rep(h, root, null, t) && Distinct(t) && x in Ids(t) && x in h
    requires c == if h[x].left == null then h[x].right else h[x].left
    requires h[x].left == null || h[x].right == null
    requires h' == Unhooked(h, x, c)
    ensures Detached(h, h', root, t, x, if x == root then c else null, Rest(Focus(t, x)))
  {
    var f, q := Focus(t, x), h[x].parent;
    RepAt(h, root, null, t, x);
    RepIn(h, x, q, f);
    FocusFacts(t, x);
    BypassCells(h, h', root, t, x, c);
    Reparent(h, h', {x} + Single(q) + Single(c), c, x, q, Rest(f));
    Graft(h, h', {}, root, null, t, x, c, Rest(f));
  }

  ghost function Unhooked(h: Heap, x: Node, c: Node?): Heap
    requires x in h
  {
    var q := h[x].parent;
    Adopt(Relink(Adopt(h, c, q)[x := Cell(h[x].key, h[x].index, q, null, null)], q, x, c), x, null)
  }

  lemma BypassCells(h: Heap, h': Heap, root: Node, t: Shape, x: Node, c: Node?)
    requires Rep(h, root, null, t) && Distinct(t) && x in Ids(t) && x in h
    requires c == if h[x].left == null then h[x].right else h[x].left
    requires h' == Unhooked(h, x, c)
    ensures SameBut(h, h', {x} + Single(h[x].parent) + Single(c))
    ensures h'[x] == Cell(h[x].key, h[x].index, null, null, null)
    ensures c != null ==> c in h && h'[c] == h[c].(parent := h[x].parent)
    ensures var q := h[x].parent;
            q != null ==> q in h && h'[q] == Relink(h, q, x, c)[q] && SameSelf(h[q], h'[q])
  {
    hide Rep, Ids, Distinct;
    Neighbours(h, root, t, x);
  }

  /** The outside node p has taken the place of x, which is now alone. */
  ghost predicate Replaced(h: Heap, h': Heap, root: Node, t: Shape, x: Node, p: Node, r: Node?)
    requires x in h && p in h
  {
    var f, q := Focus(t, x), h[x].parent;
    && f.Branch?
    && Rep(h', if x == root then r else root, null, Subst(t, x, Branch(p, h[p].key, h[x].index, f.left, f.right)))
    && (x != root ==> r == null)
    && x in h' && h'[x] == Cell(h[x].key, h'[x].index, null, null, null)
    && SameBut(h, h', Ids(f) + Single(q) + {p}) && (q != null ==> q in h && SameSelf(h[q], h'[q]))
  }

  /** An outside node p takes the place, the links and the dimension of x. */
  lemma TakeOver(h: Heap, h': Heap, root: Node, t: Shape, x: Node, p: Node)
    requires Rep(h, root, null, t) && Distinct(t) && x in Ids(t) && x in h && p in h && p !in Ids(t)
    requires h' == Swap(Adopt(Adopt(Relink(h, h[x].parent, x, p), h[x].left, p), h[x].right, p), x, p)
    requires h[p] == Cell(h[p].key, h[p].index, null, null, null)
    ensures Replaced(h, h', root, t, x, p, if x == root then p else null)
  {
    hide Swap, Adopt;
    var f, q := Focus(t, x), h[x].parent;
    RepAt(h, root, null, t, x);
    RepIn(h, x, q, f);
    FocusFacts(t, x);
    TakeOverCells(h, h', root, t, x, p);
    var X := {x, p} + Single(q) + Single(h[x].left) + Single(h[x].right);
    Reparent(h, h', X, h[x].left, x, p, f.left);
    Reparent(h, h', X, h[x].right, x, p, f.right);
    Graft(h, h', {p}, root, null, t, x, p, Branch(p, h[p].key, h[x].index, f.left, f.right));
  }

  lemma TakeOverOwn(h: Heap, h': Heap, root: Node, t: Shape, x: Node, p: Node)
    requires Rep(h, root, null, t) && Distinct(t) && x in Ids(t) && x in h && p in h && p !in Ids(t)
    requires h' == Swap(Adopt(Adopt(Relink(h, h[x].parent, x, p), h[x].left, p), h[x].right, p), x, p)
    ensures SameBut(h, h', {x, p} + Single(h[x].parent) + Single(h[x].left) + Single(h[x].right))
    ensures h'[x] == Cell(h[x].key, h[p].index, h[p].parent, h[p].left, h[p].right)
    ensures h'[p] == Cell(h[p].key, h[x].index, h[x].parent, h[x].left, h[x].right)
  {
    Neighbours(h, root, t, x);
    hide Rep, Ids, Distinct;
  }

  lemma TakeOverOthers(h: Heap, h': Heap, root: Node, t: Shape, x: Node, p: Node)
    requires Rep(h, root, null, t) && Distinct(t) && x in Ids(t) && x in h && p in h && p !in Ids(t)
    requires h' == Swap(Adopt(Adopt(Relink(h, h[x].parent, x, p), h[x].left, p), h[x].right, p), x, p)
    ensures forall c | c in {h[x].left, h[x].right} && c != null :: c in h && h'[c] == h[c].(parent := p)
    ensures var q := h[x].parent;
            q != null ==> q in h && h'[q] == Relink(h, q, x, p)[q] && SameSelf(h[q], h'[q])
  {
    Neighbours(h, root, t, x);
    hide Rep, Ids, Distinct;
  }

  lemma TakeOverCells(h: Heap, h': Heap, root: Node, t: Shape, x: Node, p: Node)
    requires Rep(h, root, null, t) && Distinct(t) && x in Ids(t) && x in h && p in h && p !in Ids(t)
    requires h' == Swap(Adopt(Adopt(Relink(h, h[x].parent, x, p), h[x].left, p), h[x].right, p), x, p)
    ensures SameBut(h, h', {x, p} + Single(h[x].parent) + Single(h[x].left) + Single(h[x].right))
    ensures h'[x] == Cell(h[x].key, h[p].index, h[p].parent, h[p].left, h[p].right)
    ensures h'[p] == Cell(h[p].key, h[x].index, h[x].parent, h[x].left, h[x].right)
    ensures forall c | c in {h[x].left, h[x].right} && c != null :: c in h && h'[c] == h[c].(parent := p)
    ensures var q := h[x].parent;
            q != null ==> q in h && h'[q] == Relink(h, q, x, p)[q] && SameSelf(h[q], h'[q])
  {
    hide Rep, Ids, Distinct, Swap, Adopt, Relink;
    TakeOverOwn(h, h', root, t, x, p);
    TakeOverOthers(h, h', root, t, x, p);
  }

  /** A node p below x hangs below x or a node below x, and its own subtree is smaller. */
  lemma Inner(h: Heap, root: Node, t: Shape, x: Node, p: Node)
    requires Rep(h, root, null, t) && Distinct(t) && x in Ids(t)
    requires var f := Focus(t, x); f.Branch? && p in Ids(f.left) + Ids(f.right)
    ensures p in h && p in Ids(t) && p != x && p != root
    ensures Focus(t, p) == Focus(Focus(t, x), p) && Focus(t, p).Branch? && Focus(t, p).id == p && Focus(t, p).key == h[p].key
    ensures Size(Focus(t, p)) < Size(Focus(t, x)) && Ids(Focus(t, p)) <= Ids(Focus(t, x))
    ensures h[p].parent != null && h[p].parent in Ids(Focus(t, x)) && x !in Ids(Focus(t, p))
  {
    var f := Focus(t, x);
    FocusFacts(t, x);
    RepAt(h, root, null, t, x);
    RepAt(h, root, null, t, p);
    RepAt(h, x, h[x].parent, f, p);
    SubstUnder(t, x, p, Leaf, Leaf);
    FocusFacts(if p in Ids(f.left) then f.left else f.right, p);
  }

  lemma RestKeeps(f: Shape)
    requires f.Branch? && (f.left.Leaf? || f.right.Leaf?) && Distinct(f) && Kd(f)
    ensures WithoutRoot(f, Rest(f))
  {
    ItemsIds(f.left);
    ItemsIds(f.right);
  }

  lemma SameButTrans(h: Heap, h1: Heap, h2: Heap, X: set<Node>, Y: set<Node>, Z: set<Node>)
    requires SameBut(h, h1, X) && SameBut(h1, h2, Y) && X + Y <= Z
    ensures SameBut(h, h2, Z)
  {
  }

  /** Once p is out of the subtree of x, the cell of x is unchanged but for its links to children. */
  lemma OutOfBelow(h: Heap, h1: Heap, root: Node, t: Shape, x: Node, p: Node, u: Shape)
    requires Rep(h, root, null, t) && Distinct(t) && x in Ids(t)
    requires var f := Focus(t, x); f.Branch? && p in Ids(f.left) + Ids(f.right)
    requires p in h && Detached(h, h1, root, t, p, null, u)
    ensures x in h && x in h1 && SameSelf(h[x], h1[x])
    ensures h[x].parent != null ==> h[x].parent in h && h1[h[x].parent] == h[h[x].parent]
  {
    Inner(h, root, t, x, p);
    RepAt(h, root, null, t, x);
  }

  lemma DetachTwo(h: Heap, h1: Heap, h2: Heap, root: Node, t: Shape, x: Node, p: Node, r: Node?, u: Shape)
    requires Rep(h, root, null, t) && Distinct(t) && Kd(t) && x in Ids(t)
    requires var f := Focus(t, x); f.Branch? && f.id == x && Distinct(f) && Kd(f) && p in h && Extreme(f, p, h[p].key)
    requires var g := Focus(t, p); g.Branch? && g.id == p && g.key == h[p].key && WithoutRoot(g, u)
    requires Detached(h, h1, root, t, p, null, u) && x in h1 && p in h1 && Replaced(h1, h2, root, Subst(t, p, u), x, p, r)
    ensures x in h && Detached(h, h2, root, t, x, r, Promote(Focus(t, x), p, h[p].key, u))
    ensures WithoutRoot(Focus(t, x), Promote(Focus(t, x), p, h[p].key, u))
  {
    var rest, f := Subst(t, p, u), Focus(t, x);
    RepAt(h, root, null, t, x);
    Inner(h, root, t, x, p);
    OutOfBelow(h, h1, root, t, x, p, u);
    Promotion(t, x, p, h[p].key, u);
    SameButTrans(h, h1, h2, Ids(Focus(t, p)) + Single(h[p].parent), Ids(Focus(rest, x)) + Single(h[x].parent) + {p},
                 Ids(f) + Single(h[x].parent));
  }

  // ---------------------------------------------------------------- rebuilding

  /** The heap once the nodes of X have lost all links. */
  ghost function Scattered(h: Heap, X: set<Node>): Heap {
    map x | x in h :: if x in X then Cell(h[x].key, h[x].index, null, null, null) else h[x]
  }

  /** The nodes are the roots of these trees, whatever their parents. */
  ghost predicate Rooted(h: Heap, xs: seq<Node>, ts: seq<Shape>) {
    && |xs| == |ts|
    && (ts != [] ==> xs[0] in h && ts[0].Branch? && Rep(h, xs[0], h[xs[0]].parent, ts[0]) && Rooted(h, xs[1..], ts[1..]))
  }

  lemma {:induction false} RootedAppend(h: Heap, xs: seq<Node>, ts: seq<Shape>, x: Node, t: Shape)
    requires Rooted(h, xs, ts) && x in h && t.Branch? && Rep(h, x, h[x].parent, t)
    ensures Rooted(h, xs + [x], ts + [t])
  {
    if ts != [] {
      assert (xs + [x])[1..] == xs[1..] + [x] && (ts + [t])[1..] == ts[1..] + [t];
      RootedAppend(h, xs[1..], ts[1..], x, t);
    }
  }

  lemma {:induction false} RootedFrame(h: Heap, h': Heap, X: set<Node>, xs: seq<Node>, ts: seq<Shape>)
    requires Rooted(h, xs, ts) && SameBut(h, h', X) && X !! AllIds(ts)
    ensures Rooted(h', xs, ts)
  {
    if ts != [] {
      RepFrame(h, h', X, xs[0], h[xs[0]].parent, ts[0]);
      RootedFrame(h, h', X, xs[1..], ts[1..]);
    }
  }

  ghost function Children(c: Cell): seq<Node> {
    (if c.left == null then [] else [c.left]) + (if c.right == null then [] else [c.right])
  }

  /** Cutting off the first node leaves its children as roots at the end of the list. */
  lemma RootedStep(h: Heap, h': Heap, xs: seq<Node>, ts: seq<Shape>)
    requires Rooted(h, xs, ts) && AllDistinct(ts) && ts != []
    requires h' == h[xs[0] := Cell(h[xs[0]].key, h[xs[0]].index, null, null, null)]
    ensures Rooted(h', xs[1..] + Children(h[xs[0]]), Opened(ts))
  {
    var x, c, f := xs[0], h[xs[0]], ts[0];
    RootedFrame(h, h', {x}, xs[1..], ts[1..]);
    RepFrame(h, h', {x}, c.left, x, f.left);
    RepFrame(h, h', {x}, c.right, x, f.right);
    var ls := xs[1..] + if c.left == null then [] else [c.left];
    var us := if f.left.Leaf? then ts[1..] else ts[1..] + [f.left];
    assert Rooted(h', ls, us) by {
      if f.left.Branch? {
        RootedAppend(h', xs[1..], ts[1..], c.left, f.left);
      } else {
        assert ls == xs[1..];
      }
    }
    if f.right.Branch? {
      RootedAppend(h', ls, us, c.right, f.right);
      assert ls + [c.right] == xs[1..] + Children(c);
    } else {
      assert ls == xs[1..] + Children(c);
    }
  }

  ghost function Members(s: seq<Node>): set<Node> {
    set x | x in s
  }

  /** The first n nodes are cut off; the rest are the roots of the trees still to do. */
  ghost predicate Collecting(h0: Heap, t: Shape, h: Heap, all: seq<Node>, n: nat, todo: seq<Shape>) {
    && n <= |all| && Rooted(h, all[n..], todo) && AllDistinct(todo) && NoRepeats(all[..n])
    && Ids(t) == Members(all[..n]) + AllIds(todo) && Members(all[..n]) !! AllIds(todo)
    && h == Scattered(h0, Ids(t) - AllIds(todo))
  }

  lemma CollectStart(h: Heap, n: Node, t: Shape)
    requires Rep(h, n, null, t) && n in h && Distinct(t)
    ensures Collecting(h, t, h, [n], 0, [t])
  {
    assert [n][0..] == [n] && [t][1..] == [];
  }

  lemma CollectNow(h0: Heap, t: Shape, h: Heap, all: seq<Node>, n: nat, todo: seq<Shape>)
    requires Collecting(h0, t, h, all, n, todo)
    ensures n <= |all|
    ensures n < |all| ==> todo != [] && all[n] in h
    ensures n == |all| ==> NoRepeats(all) && Members(all) == Ids(t) && h == Scattered(h0, Ids(t))
  {
    if n == |all| {
      assert all[..n] == all && AllIds(todo) == {};
      assert Ids(t) - AllIds(todo) == Ids(t);
    } else {
      assert all[n..][0] == all[n];
    }
  }

  lemma CollectStep(h0: Heap, t: Shape, h: Heap, h': Heap, all: seq<Node>, all': seq<Node>, n: nat, todo: seq<Shape>)
    requires n < |all| && Collecting(h0, t, h, all, n, todo)
    requires all[n] in h && h' == h[all[n] := Cell(h[all[n]].key, h[all[n]].index, null, null, null)]
    requires all' == all + Children(h[all[n]])
    ensures todo != [] && todo[0].Branch? && AllSize(Opened(todo)) < AllSize(todo)
    ensures Collecting(h0, t, h', all', n + 1, Opened(todo))
  {
    var x := all[n];
    CollectRooted(h, h', all, all', n, todo);
    OpenedFacts(todo);
    assert all'[..n + 1] == all[..n] + [x];
    NoRepeatsJoin(all[..n], [x]);
    MembersAdd(all[..n], x);
    ScatteredAdd(h0, Ids(t) - AllIds(todo), x);
    assert Ids(t) - AllIds(Opened(todo)) == Ids(t) - AllIds(todo) + {x};
  }

  lemma CollectRooted(h: Heap, h': Heap, all: seq<Node>, all': seq<Node>, n: nat, todo: seq<Shape>)
    requires n < |all| && Rooted(h, all[n..], todo) && AllDistinct(todo)
    requires all[n] in h && h' == h[all[n] := Cell(h[all[n]].key, h[all[n]].index, null, null, null)]
    requires all' == all + Children(h[all[n]])
    ensures todo != [] && todo[0].Branch? && todo[0].id == all[n] && Rooted(h', all'[n + 1..], Opened(todo))
  {
    assert all[n..][0] == all[n] && all[n..][1..] == all[n + 1..];
    RootedStep(h, h', all[n..], todo);
    assert all'[n + 1..] == all[n..][1..] + Children(h[all[n]]);
  }

  lemma MembersAdd(s: seq<Node>, x: Node)
    ensures Members(s + [x]) == Members(s) + {x}
  {
  }

  lemma ScatteredAdd(h: Heap, X: set<Node>, x: Node)
    requires x in h && x !in X
    ensures Scattered(h, X)[x := Cell(h[x].key, h[x].index, null, null, null)] == Scattered(h, X + {x})
  {
  }

  /** The nodes in any order, as sorting them by any code leaves them. */
  method AnyOrder(s: seq<Node>) returns (r: seq<Node>)
    ensures multiset(r) == multiset(s)
  {
    r :| multiset(r) == multiset(s);
  }

  /** The level of place j when a list of n is halved around its middle again and again. */
  function Level(n: nat, j: nat): nat
    requires j < n
  {
    if j == n / 2 then 0 else if j < n / 2 then 1 + Level(n / 2, j) else 1 + Level(n - n / 2 - 1, j - n / 2 - 1)
  }

  /** There are no more levels than a balanced tree has. */
  lemma {:induction false} LevelLog(n: nat, j: nat)
    requires j < n
    ensures Counter.Pow2(Level(n, j)) <= n
  {
    if j < n / 2 {
      LevelLog(n / 2, j);
    } else if j > n / 2 {
      LevelLog(n - n / 2 - 1, j - n / 2 - 1);
    }
  }

  /** The dimension of place j of a list of n, the first level comparing on coordinate i. */
  function DimAt(n: nat, j: nat, i: nat, d: nat): nat
    requires j < n && d > 0
  {
    Around(i + Level(n, j), 2 * d)
  }

  function Around(x: nat, m: nat): nat
    requires m > 0
  {
    x % m
  }

  lemma AroundNext(i: nat, level: nat, m: nat)
    requires m > 0
    ensures Around(i + (1 + level), m) == Around(Around(i + 1, m) + level, m)
  {
    Counter.ModShift(i + 1, level, m);
    assert i + (1 + level) == i + 1 + level;
  }

  lemma AroundSame(i: nat, m: nat)
    requires i < m
    ensures Around(i, m) == i
  {
    Counter.ModTurn(i, m);
  }

  lemma DimBelow(n: nat, j: nat, i: nat, d: nat)
    requires j < n && d > 0 && i < 2 * d
    ensures var (mid, next) := (n / 2, Around(i + 1, 2 * d));
            DimAt(n, j, i, d) == if j == mid then i
                                 else if j < mid then DimAt(mid, j, next, d) else DimAt(n - mid - 1, j - mid - 1, next, d)
  {
    hide Around;
    var mid := n / 2;
    if j < mid {
      AroundNext(i, Level(mid, j), 2 * d);
    } else if j > mid {
      AroundNext(i, Level(n - mid - 1, j - mid - 1), 2 * d);
    } else {
      AroundSame(i, 2 * d);
    }
  }

  /** Each node with its dimension. */
  ghost function Levels(nodes: seq<Node>, i: nat, d: nat): set<(Node, nat)>
    requires d > 0
  {
    set j | 0 <= j < |nodes| :: (nodes[j], DimAt(|nodes|, j, i, d))
  }

  lemma LevelsSplit(nodes: seq<Node>, i: nat, d: nat)
    requires nodes != [] && d > 0 && i < 2 * d
    ensures var (mid, next) := (|nodes| / 2, Around(i + 1, 2 * d));
            Levels(nodes, i, d) == {(nodes[mid], i)} + Levels(nodes[..mid], next, d) + Levels(nodes[mid + 1..], next, d)
  {
    hide Around;
    var (n, mid, next) := (|nodes|, |nodes| / 2, Around(i + 1, 2 * d));
    var lower, upper := nodes[..mid], nodes[mid + 1..];
    forall j: nat | j < n
      ensures (nodes[j], DimAt(n, j, i, d))
              == if j == mid then (nodes[mid], i)
                 else if j < mid then (lower[j], DimAt(|lower|, j, next, d))
                 else (upper[j - mid - 1], DimAt(|upper|, j - mid - 1, next, d))
    {
      DimBelow(n, j, i, d);
    }
    hide DimAt;
    forall j: nat | j < |upper| ensures (upper[j], DimAt(|upper|, j, next, d)) in Levels(nodes, i, d) {
      assert (nodes[j + mid + 1], DimAt(n, j + mid + 1, i, d)) in Levels(nodes, i, d);
    }
    forall j: nat | j < |lower| ensures (lower[j], DimAt(|lower|, j, next, d)) in Levels(nodes, i, d) {
      assert (nodes[j], DimAt(n, j, i, d)) in Levels(nodes, i, d);
    }
    assert (nodes[mid], DimAt(n, mid, i, d)) in Levels(nodes, i, d);
  }

  /** The middle node, then the lower half, then the upper one. */
  lemma BuiltDims(nodes: seq<Node>, i: nat, d: nat, t: Shape, key: Box, v: Shape, u: Shape)
    requires nodes != [] && d > 0 && i < 2 * d && t.Branch?
    requires var (mid, next) := (|nodes| / 2, (i + 1) % (2 * d));
             && Dims(v) == Dims(Insert(t, nodes[mid], key, i)) + Levels(nodes[..mid], next, d)
             && Dims(u) == Dims(v) + Levels(nodes[mid + 1..], next, d)
    ensures Dims(u) == Dims(t) + Levels(nodes, i, d)
  {
    hide Levels, Dims;
    InsertDims(t, nodes[|nodes| / 2], key, i);
    LevelsSplit(nodes, i, d);
  }

  lemma SingleDims(x: Node, key: Box)
    ensures Dims(Branch(x, key, 0, Leaf, Leaf)) == {(x, 0)}
  {
  }

  lemma OptimizedDims(nodes: seq<Node>, d: nat, key: Box, v: Shape, u: Shape)
    requires nodes != [] && d > 0
    requires var mid := |nodes| / 2;
             && Dims(v) == Dims(Branch(nodes[mid], key, 0, Leaf, Leaf)) + Levels(nodes[..mid], 1, d)
             && Dims(u) == Dims(v) + Levels(nodes[mid + 1..], 1, d)
    ensures Dims(u) == Levels(nodes, 0, d)
  {
    hide Levels, Around, Dims;
    SingleDims(nodes[|nodes| / 2], key);
    AroundSame(1, 2 * d);
    LevelsSplit(nodes, 0, d);
  }

  lemma LevelsNone(i: nat, d: nat)
    requires d > 0
    ensures Levels([], i, d) == {}
  {
  }

  /** Nodes with their boxes. */
  ghost function Keyed(h: Heap, X: set<Node>): set<(Node, Box)> {
    set x | x in X && x in h :: (x, h[x].key)
  }

  lemma KeyedSame(h: Heap, h': Heap, X: set<Node>)
    requires forall x | x in X :: x in h && x in h' && h'[x].key == h[x].key
    ensures Keyed(h', X) == Keyed(h, X)
  {
  }

  lemma KeyedJoin(h: Heap, X: set<Node>, Y: set<Node>)
    ensures Keyed(h, X + Y) == Keyed(h, X) + Keyed(h, Y)
  {
  }

  /** The nodes of X are unattached and can be put into the tree. */
  ghost predicate Ready(h: Heap, root: Node, t: Shape, X: set<Node>, d: nat) {
    && Rep(h, root, null, t) && t.Branch? && Distinct(t) && Kd(t) && Indexed(t, d)
    && X <= h.Keys && X !! Ids(t) && forall x | x in X :: h[x] == Cell(h[x].key, h[x].index, null, null, null)
  }

  /** The tree u holds the nodes of t and those of X. */
  ghost predicate Built(h: Heap, h': Heap, root: Node, t: Shape, X: set<Node>, u: Shape, d: nat) {
    && Rep(h', root, null, u) && u.Branch? && Distinct(u) && Kd(u) && Indexed(u, d)
    && Items(u) == Items(t) + Keyed(h, X) && Ids(u) == Ids(t) + X && SameBut(h, h', Ids(t) + X)
  }

  lemma BuiltOne(h: Heap, h': Heap, root: Node, t: Shape, x: Node, i: nat, d: nat)
    requires x in h && Ready(h, root, t, {x}, d) && i < 2 * d
    requires Rep(h', root, null, Insert(t, x, h[x].key, i)) && SameBut(h, h', Ids(t) + {x})
    ensures Built(h, h', root, t, {x}, Insert(t, x, h[x].key, i), d)
  {
    InsertIndexed(t, x, h[x].key, i, d);
  }

  lemma ReadyNext(h: Heap, h': Heap, root: Node, t: Shape, X: set<Node>, Y: set<Node>, u: Shape, d: nat)
    requires Ready(h, root, t, X + Y, d) && Built(h, h', root, t, X, u, d) && X !! Y
    ensures Ready(h', root, u, Y, d)
  {
  }

  lemma BuiltJoin(h: Heap, h1: Heap, h2: Heap, root: Node, t: Shape, X: set<Node>, Y: set<Node>, u: Shape, v: Shape, d: nat)
    requires Ready(h, root, t, X + Y, d) && X !! Y
    requires Built(h, h1, root, t, X, u, d) && Built(h1, h2, root, u, Y, v, d)
    ensures Built(h, h2, root, t, X + Y, v, d)
  {
    KeyedSame(h, h1, Y);
    KeyedJoin(h, X, Y);
  }

  lemma AfterMiddle(h: Heap, h1: Heap, root: Node, t: Shape, x: Node, i: nat, X: set<Node>, Y: set<Node>, d: nat)
    requires x in h && Ready(h, root, t, X + {x} + Y, d) && i < 2 * d && x !in X + Y
    requires Rep(h1, root, null, Insert(t, x, h[x].key, i)) && SameBut(h, h1, Ids(t) + {x})
    ensures Built(h, h1, root, t, {x}, Insert(t, x, h[x].key, i), d)
    ensures Ready(h1, root, Insert(t, x, h[x].key, i), X + Y, d)
  {
    BuiltOne(h, h1, root, t, x, i, d);
    assert X + {x} + Y == {x} + (X + Y);
    ReadyNext(h, h1, root, t, {x}, X + Y, Insert(t, x, h[x].key, i), d);
  }

  lemma AfterHalves(h: Heap, h1: Heap, h2: Heap, h3: Heap, root: Node, t: Shape, x: Node, X: set<Node>, Y: set<Node>,
                    u: Shape, v: Shape, w: Shape, d: nat)
    requires Ready(h, root, t, X + {x} + Y, d) && X !! Y && x !in X + Y
    requires Built(h, h1, root, t, {x}, u, d) && Built(h1, h2, root, u, X, v, d) && Built(h2, h3, root, v, Y, w, d)
    ensures Built(h, h3, root, t, X + {x} + Y, w, d)
  {
    assert X + {x} + Y == {x} + (X + Y);
    ReadyNext(h, h1, root, t, {x}, X + Y, u, d);
    BuiltJoin(h1, h2, h3, root, u, X, Y, v, w, d);
    BuiltJoin(h, h1, h3, root, t, {x}, X + Y, u, w, d);
  }

  lemma Started(h: Heap, h1: Heap, t: Shape, root: Node, X: set<Node>, Y: set<Node>, d: nat)
    requires root in Ids(t) && Ids(t) <= h.Keys && Ids(t) == X + {root} + Y && root !in X + Y && d > 0
    requires h1 == Scattered(h, Ids(t))[root := Cell(h[root].key, 0, null, null, null)]
    ensures Ready(h1, root, Branch(root, h[root].key, 0, Leaf, Leaf), X + Y, d)
  {
  }

  /** Rebuilt from all of its nodes, with their boxes, the tree holds the same. */
  lemma Rebuilt(h: Heap, h1: Heap, h2: Heap, n: Node, t: Shape, root: Node, X: set<Node>, u: Shape, d: nat)
    requires Rep(h, n, null, t) && root in Ids(t) && Ids(t) <= h.Keys && Ids(t) == X + {root}
    requires h1 == Scattered(h, Ids(t))[root := Cell(h[root].key, 0, null, null, null)]
    requires Built(h1, h2, root, Branch(root, h[root].key, 0, Leaf, Leaf), X, u, d)
    ensures Items(u) == Items(t) && SameBut(h, h2, Ids(t))
  {
    RepItems(h, n, null, t);
    KeyedJoin(h, X, {root});
    KeyedSame(h, h1, X);
    assert Keyed(h, {root}) == {(root, h[root].key)};
    var single := Branch(root, h[root].key, 0, Leaf, Leaf);
    assert Ids<Node>(Leaf) == {} && Items<Node>(Leaf) == {};
    assert Ids(single) == {root} && Items(single) == {(root, h[root].key)};
  }

  lemma Completed(h: Heap, h1: Heap, h2: Heap, h3: Heap, n: Node, t: Shape, root: Node, X: set<Node>, Y: set<Node>,
                  v: Shape, u: Shape, d: nat)
    requires Rep(h, n, null, t) && root in Ids(t) && Ids(t) <= h.Keys && d > 0
    requires Ids(t) == X + {root} + Y && X !! Y && root !in X + Y
    requires h1 == Scattered(h, Ids(t))[root := Cell(h[root].key, 0, null, null, null)]
    requires Built(h1, h2, root, Branch(root, h[root].key, 0, Leaf, Leaf), X, v, d) && Built(h2, h3, root, v, Y, u, d)
    ensures Items(u) == Items(t) && SameBut(h, h3, Ids(t))
  {
    RepIn(h, n, null, t);
    Started(h, h1, t, root, X, Y, d);
    BuiltJoin(h1, h2, h3, root, Branch(root, h[root].key, 0, Leaf, Leaf), X, Y, v, u, d);
    Rebuilt(h, h1, h3, n, t, root, X + Y, u, d);
  }

  lemma {:induction false} RepItems(h: Heap, n: Node?, par: Node?, t: Shape)
    requires Rep(h, n, par, t)
    ensures Items(t) == Keyed(h, Ids(t))
    decreases t
  {
    RepIn(h, n, par, t);
    if t.Branch? {
      RepItems(h, h[t.id].left, t.id, t.left);
      RepItems(h, h[t.id].right, t.id, t.right);
    }
  }

  lemma {:induction false} InsertIndexed(t: Shape, x: Node, k: Box, i: nat, d: nat)
    requires t.Branch? && Indexed(t, d) && i < 2 * d
    ensures Indexed(Insert(t, x, k, i), d)
  {
    var side := if Compare(t.key, k, t.index) then t.left else t.right;
    if side.Branch? {
      InsertIndexed(side, x, k, i, d);
    }
  }

  /** The node in the middle and the two halves share nothing. */
  lemma Halves(s: seq<Node>, mid: nat)
    requires NoRepeats(s) && mid < |s|
    ensures NoRepeats(s[..mid]) && NoRepeats(s[mid + 1..])
    ensures Members(s) == Members(s[..mid]) + {s[mid]} + Members(s[mid + 1..])
    ensures s[mid] !in Members(s[..mid]) && s[mid] !in Members(s[mid + 1..])
    ensures Members(s[..mid]) !! Members(s[mid + 1..])
  {
    forall x | x in s ensures x in s[..mid] || x == s[mid] || x in s[mid + 1..] {
      var j :| 0 <= j < |s| && s[j] == x;
      assert j < mid ==> s[..mid][j] == x;
      assert j > mid ==> s[mid + 1..][j - mid - 1] == x;
    }
  }

  lemma {:induction false} EachOnce(s: seq<Node>)
    requires NoRepeats(s)
    ensures forall x | x in s :: multiset(s)[x] == 1
  {
    if s != [] {
      assert s == [s[0]] + s[1..];
      EachOnce(s[1..]);
    }
  }

  lemma Permuted(s: seq<Node>, r: seq<Node>)
    requires NoRepeats(s) && multiset(r) == multiset(s)
    ensures NoRepeats(r) && |r| == |s| && Members(r) == Members(s)
  {
    EachOnce(s);
    assert |multiset(r)| == |multiset(s)|;
    forall x ensures x in r <==> x in s {
      assert x in multiset(r) <==> x in multiset(s);
    }
    forall i, j | 0 <= i < j < |r| ensures r[i] != r[j] {
      CountedTwice(r, i, j);
      assert r[i] in s;
    }
  }

  lemma CountedTwice(r: seq<Node>, i: nat, j: nat)
    requires i < j < |r|
    ensures r[i] == r[j] ==> multiset(r)[r[i]] >= 2
  {
    assert r == r[..i] + [r[i]] + r[i + 1..];
    assert r[j] == r[i + 1..][j - i - 1];
    assert r[j] in multiset(r[i + 1..]);
  }

  /** The order of calls below one node: the node, the side searched by recursion, the other side. */
  lemma PlanSteps(t: Shape, target: Box, skew: bool, d: nat, answer: Queryer<Node>, log: seq<Node>)
    requires t.Branch?
    ensures var first, then' := if skew then Plan(t.left, target, skew, d) else Plan(t.right, target, skew, d),
                                if skew then Plan(t.right, target, skew, d) else Plan(t.left, target, skew, d);
            var ls, rs := OverlapLeft(t.key, target, t.index, d), OverlapRight(t.key, target, t.index, d);
            var inFirst, inThen := if skew then ls else rs, if skew then rs else ls;
            var r := Ask(answer, log + [t.id], if inFirst then first else []);
            Ask(answer, log, Plan(t, target, skew, d))
            == if !answer(log + [t.id]) then (false, log + [t.id])
               else if !r.0 then r else Ask(answer, r.1, if inThen then then' else [])
  {
    var ls := if OverlapLeft(t.key, target, t.index, d) then Plan(t.left, target, skew, d) else [];
    var rs := if OverlapRight(t.key, target, t.index, d) then Plan(t.right, target, skew, d) else [];
    var first, second := if skew then ls else rs, if skew then rs else ls;
    AskOne(answer, log, t.id);
    AskAppend(answer, log, [t.id], first);
    AskAppend(answer, log, [t.id] + first, second);
  }

  /** split_push(): narrows the target in place and hands back what was there. */
  method SplitPush(target: array<int>, key: Box, index: nat, skew: bool, d: nat, ghost S: set<Node>) returns (save: int)
    requires index < target.Length
    modifies target
    ensures target[..] == Narrow(old(target[..]), key, index, skew, d) && save == old(target[..])[index]
    ensures Snap(S) == old(Snap(S))
  {
    save := target[index];
    if (index < d) != skew {
      target[index] := Get(key, index);
    }
  }

  /** split_pop() */
  method SplitPop(target: array<int>, index: nat, save: int, ghost S: set<Node>)
    requires index < target.Length
    modifies target
    ensures target[..] == old(target[..])[index := save] && Snap(S) == old(Snap(S))
  {
    target[index] := save;
  }

  // ---------------------------------------------------------------- the nodes

  class Node {
    var key: Box
    var index: nat
    var parent: Node?
    var left: Node?
    var right: Node?

    constructor (k: Box, i: nat)
      ensures key == k && index == i && Isolated()
    {
      key, index := k, i;
      parent, left, right := null, null, null;
    }

    ghost predicate Isolated()
      reads this
    {
      parent == null && left == null && right == null
    }

    method SetParent(q: Node?, ghost S: set<Node>)
      requires this in S
      modifies this
      ensures Snap(S) == Adopt(old(Snap(S)), this, q)
    {
      parent := q;
    }

    /** The parent's pointer to this node is turned to c. */
    method SetLink(c: Node?, ghost S: set<Node>)
      requires parent != null && parent in S
      modifies parent
      ensures Snap(S) == Relink(old(Snap(S)), old(parent), this, c)
    {
      if parent.left == this {
        parent.left := c;
      } else {
        parent.right := c;
      }
    }

    /** The two nodes exchange their dimensions and their links. */
    method SwapWith(p: Node, ghost S: set<Node>)
      requires this in S && p in S
      modifies this, p
      ensures Snap(S) == Swap(old(Snap(S)), this, p)
    {
      index, p.index := p.index, index;
      parent, p.parent := p.parent, parent;
      left, p.left := p.left, left;
      right, p.right := p.right, right;
    }

    method Attach(n: Node, ghost par: Node?, ghost t: Shape, ghost S: set<Node>)
      requires this in S && n in S && Rep(Snap(S), this, par, t) && Distinct(t) && n !in Ids(t) && n.Isolated()
      modifies S
      ensures Rep(Snap(S), this, par, Insert(t, n, old(n.key), old(n.index)))
      ensures SameBut(old(Snap(S)), Snap(S), Ids(t) + {n})
    {
      Merge(n, par, t, S);
    }

    method Merge(n: Node, ghost par: Node?, ghost t: Shape, ghost S: set<Node>)
      requires this in S && n in S && Rep(Snap(S), this, par, t) && Distinct(t) && n !in Ids(t) && n.Isolated()
      modifies S
      ensures t.Branch? && Rep(Snap(S), this, par, Insert(t, n, old(n.key), old(n.index)))
      ensures SameBut(old(Snap(S)), Snap(S), Ids(t) + {n})
      decreases t
    {
      ghost var h := Snap(S);
      if Compare(key, n.key, index) {
        if left == null {
          left := n;
          n.parent := this;
        } else {
          left.Merge(n, this, t.left, S);
        }
        RepFrame(h, Snap(S), Ids(t.left) + {this, n}, right, this, t.right);
      } else {
        if right == null {
          right := n;
          n.parent := this;
        } else {
          right.Merge(n, this, t.right, S);
        }
        RepFrame(h, Snap(S), Ids(t.right) + {this, n}, left, this, t.left);
      }
    }

    method FindMinimal(i: nat, ghost par: Node?, ghost t: Shape, ghost S: set<Node>) returns (p: Node)
      requires this in S && Rep(Snap(S), this, par, t) && Kd(t)
      ensures (p, p.key) in Items(t) && p in Ids(t) && p in S && Above(t, i, Get(p.key, i))
      decreases t
    {
      p := this;
      RepIn(Snap(S), this, par, t);
      if left != null {
        var c := left.FindMinimal(i, this, t.left, S);
        if Compare(p.key, c.key, i) {
          p := c;
        }
      }
      // on the node's own dimension nothing on the right is smaller
      if i != index && right != null {
        var c := right.FindMinimal(i, this, t.right, S);
        if Compare(p.key, c.key, i) {
          p := c;
        }
      }
    }

    method FindMaximal(i: nat, ghost par: Node?, ghost t: Shape, ghost S: set<Node>) returns (p: Node)
      requires this in S && Rep(Snap(S), this, par, t) && Kd(t)
      ensures (p, p.key) in Items(t) && p in Ids(t) && p in S && Below(t, i, Get(p.key, i))
      decreases t
    {
      p := this;
      RepIn(Snap(S), this, par, t);
      // on the node's own dimension nothing on the left is greater
      if i != index && left != null {
        var c := left.FindMaximal(i, this, t.left, S);
        if !Compare(p.key, c.key, i) {
          p := c;
        }
      }
      if right != null {
        var c := right.FindMaximal(i, this, t.right, S);
        if !Compare(p.key, c.key, i) {
          p := c;
        }
      }
    }

    /** The beginning of light_detach(): the only child, if there is one, goes to this node's parent. */
    method HandOver(ghost S: set<Node>) returns (r: Node?)
      requires this in S && (left == null || right == null) && left != this && right != this
      requires (left != null ==> left in S) && (right != null ==> right in S)
      modifies this, left, right
      ensures r == if old(left) == null then old(right) else old(left)
      ensures var h, c := old(Snap(S)), old(Snap(S))[this];
              Snap(S) == Adopt(h, r, c.parent)[this := Cell(c.key, c.index, c.parent, null, null)]
    {
      r := null;
      if left != null {
        left.SetParent(parent, S);
        r := left;
        left := null;
      } else if right != null {
        right.SetParent(parent, S);
        r := right;
        right := null;
      }
    }

    /** The end of light_detach(): c takes this node's place under its parent. */
    method LeaveParent(c: Node?, ghost S: set<Node>) returns (r: Node?)
      requires this in S && parent != this && (parent != null ==> parent in S)
      modifies this, parent
      ensures Snap(S) == Adopt(Relink(old(Snap(S)), old(parent), this, c), this, null)
      ensures r == if old(parent) == null then c else null
    {
      r := c;
      if parent != null {
        SetLink(r, S);
        r := null;
        SetParent(null, S);
      }
    }

    /** Detaching a node with at most one child; r is the new root if the node was the root. */
    method LightDetach(ghost root: Node, ghost t: Shape, ghost S: set<Node>) returns (ok: bool, r: Node?)
      requires Rep(Snap(S), root, null, t) && Distinct(t) && this in Ids(t) && this in S
      modifies S
      ensures ok <==> old(left == null || right == null)
      ensures !ok ==> Snap(S) == old(Snap(S))
      ensures ok ==> Detached(old(Snap(S)), Snap(S), root, t, this, r, Rest(Focus(t, this)))
    {
      hide Rep, Distinct, Kd;
      ghost var h := Snap(S);
      Neighbours(h, root, t, this);
      if left != null && right != null {
        return false, null;
      }
      ghost var c := if left == null then right else left;
      r := HandOver(S);
      r := LeaveParent(r, S);
      ok := true;
      Bypass(h, Snap(S), root, t, this, c);
    }

    /** detach(): whichever side the selector picks, the tree s that takes this node's place holds
        exactly the other nodes of its subtree, ordered; r is the new root if the node was one. */
    method Detach(ghost root: Node, ghost t: Shape, ghost S: set<Node>) returns (r: Node?, ghost s: Shape)
      requires Rep(Snap(S), root, null, t) && Distinct(t) && Kd(t) && this in Ids(t) && this in S
      modifies S
      ensures Detached(old(Snap(S)), Snap(S), root, t, this, r, s)
      ensures Focus(t, this).Branch? && WithoutRoot(Focus(t, this), s)
      ensures var t' := Subst(t, this, s);
              Distinct(t') && Kd(t') && Items(t') == Items(t) - {(this, key)} && forall d | Indexed(t, d) :: Indexed(t', d)
      decreases Size(Focus(t, this))
    {
      ghost var h := Snap(S);
      ghost var f := Focus(t, this);
      FocusFacts(t, this);
      RepAt(h, root, null, t, this);
      var ok;
      ok, r := LightDetach(root, t, S);
      if ok {
        s := Rest(f);
        RestKeeps(f);
        Removed(t, this, s);
        return;
      }

      var p := Replacement(parent, f, S);
      Inner(h, root, t, this, p);
      var none, u := p.Detach(root, t, S);
      ghost var h1 := Snap(S);
      Promotion(t, this, p, h[p].key, u);
      r := Replace(p, root, Subst(t, p, u), S);
      s := Promote(f, p, h[p].key, u);
      DetachTwo(h, h1, Snap(S), root, t, this, p, r, u);
      Removed(t, this, s);
    }

    /** The node that detach() puts in the place of this one: the selector may pick either side. */
    method Replacement(ghost par: Node?, ghost f: Shape, ghost S: set<Node>) returns (p: Node)
      requires this in S && Rep(Snap(S), this, par, f) && Distinct(f) && Kd(f) && left != null && right != null
      ensures p in S && Extreme(f, p, p.key)
    {
      RepIn(Snap(S), this, par, f);
      ItemsIds(f.left);
      ItemsIds(f.right);
      var pickRight: bool := *;
      if pickRight {
        p := right.FindMinimal(index, this, f.right, S);
      } else {
        p := left.FindMaximal(index, this, f.left, S);
      }
    }

    method Replace(p: Node, ghost root: Node, ghost t: Shape, ghost S: set<Node>) returns (r: Node?)
      requires Rep(Snap(S), root, null, t) && Distinct(t) && this in Ids(t) && this in S && p in S
      requires p !in Ids(t) && p.Isolated()
      modifies S
      ensures Replaced(old(Snap(S)), Snap(S), root, t, this, p, r)
    {
      ghost var h := Snap(S);
      Neighbours(h, root, t, this);
      r := p;
      if parent != null {
        SetLink(r, S);
        r := null;
      }
      ghost var h1 := Snap(S);
      assert h1 == Relink(h, h[this].parent, this, p);
      if left != null {
        left.SetParent(p, S);
      }
      ghost var h2 := Snap(S);
      assert h2 == Adopt(h1, h[this].left, p);
      if right != null {
        right.SetParent(p, S);
      }
      ghost var h3 := Snap(S);
      assert h3 == Adopt(h2, h[this].right, p);
      SwapWith(p, S);
      TakeOver(h, Snap(S), root, t, this, p);
    }

    /** query() without culling: on the whole tree it asks exactly along the plan. */
    method Query(target: Box, skew: bool, d: nat, answer: Queryer<Node>, log: seq<Node>,
                 ghost par: Node?, ghost t: Shape, ghost S: set<Node>)
      returns (ok: bool, calls: seq<Node>)
      requires this in S && Rep(Snap(S), this, par, t)
      ensures (ok, calls) == Ask(answer, log, Plan(t, target, skew, d))
      decreases Size(t)
    {
      var p: Node? := this;
      ghost var up, u := par, t;
      calls := log;
      while p != null
        invariant Rep(Snap(S), p, up, u) && Size(u) <= Size(t)
        invariant Ask(answer, log, Plan(t, target, skew, d)) == Ask(answer, calls, Plan(u, target, skew, d))
        decreases u
      {
        RepIn(Snap(S), p, up, u);
        PlanSteps(u, target, skew, d, answer, calls);
        calls := calls + [p];
        if !answer(calls) {
          return false, calls;
        }
        var inLeft, inRight := OverlapLeft(p.key, target, p.index, d), OverlapRight(p.key, target, p.index, d);
        if skew {
          if p.left != null && inLeft {
            ok, calls := p.left.Query(target, skew, d, answer, calls, p, u.left, S);
            if !ok {
              return false, calls;
            }
          }
          if !inRight {
            break;
          }
          up, u, p := p, u.right, p.right;
        } else {
          if p.right != null && inRight {
            ok, calls := p.right.Query(target, skew, d, answer, calls, p, u.right, S);
            if !ok {
              return false, calls;
            }
          }
          if !inLeft {
            break;
          }
          up, u, p := p, u.left, p.left;
        }
      }
      ok := true;
    }

    /** query() with culling: the target box is narrowed in place and widened again. */
    method CullQuery(target: array<int>, skew: bool, d: nat, culler: Box -> bool, answer: Queryer<Node>, log: seq<Node>,
                     ghost par: Node?, ghost t: Shape, ghost S: set<Node>)
      returns (ok: bool, calls: seq<Node>)
      requires this in S && Rep(Snap(S), this, par, t) && Indexed(t, d) && target.Length == 2 * d
      modifies target
      ensures Culled(ok, calls, target[..]) == Cull(t, old(target[..]), skew, d, culler, answer, log)
      ensures Snap(S) == old(Snap(S))
      decreases Size(t)
    {
      var p: Node? := this;
      ghost var up, u := par, t;
      ghost var h, start := Snap(S), target[..];
      calls := log;
      while p != null
        invariant Snap(S) == h && Rep(h, p, up, u) && Size(u) <= Size(t) && Indexed(u, d)
        invariant Cull(t, start, skew, d, culler, answer, log) == Cull(u, target[..], skew, d, culler, answer, calls)
        decreases u
      {
        RepIn(h, p, up, u);
        if !culler(target[..]) {
          break;
        }
        if culler(p.key) {
          calls := calls + [p];
          if !answer(calls) {
            return false, calls;
          }
        }
        var save := SplitPush(target, p.key, p.index, skew, d, S);
        var child := if skew then p.left else p.right;
        ghost var side := if skew then u.left else u.right;
        if child != null {
          ok, calls := child.CullQuery(target, skew, d, culler, answer, calls, p, side, S);
          if !ok {
            return false, calls;
          }
        }
        SplitPop(target, p.index, save, S);
        up, u, p := p, if skew then u.right else u.left, if skew then p.right else p.left;
      }
      ok := true;
    }

    /** optimize(): takes the tree apart and builds one from the same nodes in any order. Each compares on the
        dimension of its level when that order is halved. */
    method Optimize(d: nat, ghost t: Shape, ghost S: set<Node>) returns (root: Node, ghost u: Shape, sorted: seq<Node>)
      requires this in S && Rep(Snap(S), this, null, t) && Distinct(t) && d > 0
      modifies S
      ensures Rep(Snap(S), root, null, u) && Distinct(u) && Kd(u) && Indexed(u, d)
      ensures Items(u) == Items(t) && SameBut(old(Snap(S)), Snap(S), Ids(t))
      ensures Members(sorted) == Ids(t) && sorted != [] && root == sorted[|sorted| / 2] && Dims(u) == Levels(sorted, 0, d)
    {
      hide Rep, Keyed, Kd, Indexed, Levels, Level, Dims;
      ghost var h := Snap(S);
      RepIn(h, this, null, t);
      var all := Collect(t, S);
      sorted := AnyOrder(all);
      Permuted(all, sorted);
      var mid := |sorted| / 2;
      root := sorted[mid];
      Halves(sorted, mid);
      ghost var lower, upper := Members(sorted[..mid]), Members(sorted[mid + 1..]);
      ghost var single := Branch(root, root.key, 0, Leaf, Leaf);
      root.index := 0;
      ghost var h1 := Snap(S);
      assert h1 == Scattered(h, Ids(t))[root := Cell(h[root].key, 0, null, null, null)];
      Started(h, h1, t, root, lower, upper, d);
      ghost var v := root.Build(sorted[..mid], 1, d, single, S);
      ghost var h2 := Snap(S);
      ReadyNext(h1, h2, root, single, lower, upper, v, d);
      u := root.Build(sorted[mid + 1..], 1, d, v, S);
      Completed(h, h1, h2, Snap(S), this, t, root, lower, upper, v, u, d);
      OptimizedDims(sorted, d, single.key, v, u);
    }

    /** build(): attaches the middle node, then each half, on the next dimension. */
    method Build(nodes: seq<Node>, i: nat, d: nat, ghost t: Shape, ghost S: set<Node>) returns (ghost u: Shape)
      requires this in S && NoRepeats(nodes) && Ready(Snap(S), this, t, Members(nodes), d) && i < 2 * d
      modifies S
      ensures Built(old(Snap(S)), Snap(S), this, t, Members(nodes), u, d)
      ensures d > 0 && Dims(u) == Dims(t) + Levels(nodes, i, d)
      decreases |nodes|
    {
      hide Dims, Levels, Level, Items, Ids, Kd, Distinct, Indexed;
      ghost var h := Snap(S);
      u := t;
      LevelsNone(i, d);
      if nodes != [] {
        var mid := |nodes| / 2;
        var x := nodes[mid];
        Halves(nodes, mid);
        ghost var lower, upper := Members(nodes[..mid]), Members(nodes[mid + 1..]);
        x.index := i;
        RepFrame(h, Snap(S), {x}, this, null, t);
        Attach(x, null, t, S);
        ghost var h1, v := Snap(S), Insert(t, x, h[x].key, i);
        AfterMiddle(h, h1, this, t, x, i, lower, upper, d);
        var next := (i + 1) % (2 * d);
        ghost var w := Build(nodes[..mid], next, d, v, S);
        ghost var h2 := Snap(S);
        ReadyNext(h1, h2, this, v, lower, upper, w, d);
        u := Build(nodes[mid + 1..], next, d, w, S);
        AfterHalves(h, h1, h2, Snap(S), this, t, x, lower, upper, v, w, u, d);
        BuiltDims(nodes, i, d, t, h[x].key, w, u);
      }
    }

    method CutOff(ghost S: set<Node>)
      requires this in S
      modifies this
      ensures var c := old(Snap(S))[this]; Snap(S) == old(Snap(S))[this := Cell(c.key, c.index, null, null, null)]
    {
      parent, left, right := null, null, null;
    }

    /** Breadth first: all nodes, each cut off from its parent and children when its turn comes. */
    method Collect(ghost t: Shape, ghost S: set<Node>) returns (all: seq<Node>)
      requires this in S && Rep(Snap(S), this, null, t) && Distinct(t)
      modifies S
      ensures NoRepeats(all) && all != [] && Members(all) == Ids(t)
      ensures Snap(S) == Scattered(old(Snap(S)), Ids(t))
    {
      hide Rep, Collecting;
      ghost var h := Snap(S);
      ghost var todo := [t];
      all := [this];
      var n := 0;
      CollectStart(h, this, t);
      while n < |all|
        invariant all != [] && Collecting(h, t, Snap(S), all, n, todo)
        decreases AllSize(todo)
      {
        ghost var before, was := Snap(S), all;
        CollectNow(h, t, before, all, n, todo);
        var x := all[n];
        if x.left != null {
          all := all + [x.left];
        }
        if x.right != null {
          all := all + [x.right];
        }
        assert all == was + Children(before[x]);
        x.CutOff(S);
        CollectStep(h, t, before, Snap(S), was, all, n, todo);
        n := n + 1;
        todo := Opened(todo);
      }
      CollectNow(h, t, Snap(S), all, n, todo);
    }
  }
}
