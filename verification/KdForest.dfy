/** What is still to be collected while optimize() takes a tree apart: a list of disjoint trees. */
module KdForest {
  import opened KdTree

  ghost function AllIds<N>(ts: seq<Tree<N>>): set<N> {
    if ts == [] then {} else Ids(ts[0]) + AllIds(ts[1..])
  }

  ghost function AllSize<N>(ts: seq<Tree<N>>): nat {
    if ts == [] then 0 else Size(ts[0]) + AllSize(ts[1..])
  }

  ghost predicate AllDistinct<N>(ts: seq<Tree<N>>) {
    ts == [] || (Distinct(ts[0]) && Ids(ts[0]) !! AllIds(ts[1..]) && AllDistinct(ts[1..]))
  }

  lemma {:induction false} Append<N>(ts: seq<Tree<N>>, t: Tree<N>)
    ensures AllIds(ts + [t]) == AllIds(ts) + Ids(t) && AllSize(ts + [t]) == AllSize(ts) + Size(t)
    ensures AllDistinct(ts) && Distinct(t) && Ids(t) !! AllIds(ts) ==> AllDistinct(ts + [t])
  {
    if ts == [] {
      assert ts + [t] == [t] && [t][1..] == [];
    } else {
      assert (ts + [t])[0] == ts[0] && (ts + [t])[1..] == ts[1..] + [t];
      Append(ts[1..], t);
    }
  }

  /** The trees left once the root of the first one is taken. */
  ghost function Opened<N>(ts: seq<Tree<N>>): seq<Tree<N>>
    requires ts != [] && ts[0].Branch?
  {
    var ls := if ts[0].left.Leaf? then ts[1..] else ts[1..] + [ts[0].left];
    if ts[0].right.Leaf? then ls else ls + [ts[0].right]
  }

  lemma OpenedFacts<N>(ts: seq<Tree<N>>)
    requires ts != [] && ts[0].Branch? && AllDistinct(ts)
    ensures var us := Opened(ts);
            && AllDistinct(us) && AllIds(us) == AllIds(ts) - {ts[0].id} && AllSize(us) < AllSize(ts)
            && ts[0].id in AllIds(ts)
  {
    Append(ts[1..], ts[0].left);
    Append(ts[1..], ts[0].right);
    Append(ts[1..] + [ts[0].left], ts[0].right);
  }
}
