/** Sums of a weight over a sequence, used to count threads, tasks and references. */
module Counting {

  datatype Option<+T> = None | Some(value: T)

  function AsNat(b: bool): nat {
    if b then 1 else 0
  }

  function Sum<T>(w: T -> nat, s: seq<T>): nat {
    if s == [] then 0 else w(s[0]) + Sum(w, s[1..])
  }

  lemma {:induction false} SumUpdate<T>(w: T -> nat, s: seq<T>, i: nat, v: T)
    requires i < |s|
    ensures Sum(w, s[i := v]) + w(s[i]) == Sum(w, s) + w(v)
  {
    if i == 0 {
      assert s[0 := v][1..] == s[1..];
    } else {
      assert s[i := v][1..] == s[1..][i - 1 := v];
      SumUpdate(w, s[1..], i - 1, v);
    }
  }

  lemma {:induction false} SumAtLeast<T>(w: T -> nat, s: seq<T>, i: nat)
    requires i < |s|
    ensures w(s[i]) <= Sum(w, s)
  {
    if i > 0 {
      SumAtLeast(w, s[1..], i - 1);
    }
  }

  lemma {:induction false} SumZero<T>(w: T -> nat, s: seq<T>)
    requires forall i | 0 <= i < |s| :: w(s[i]) == 0
    ensures Sum(w, s) == 0
  {
    if s != [] {
      SumZero(w, s[1..]);
    }
  }

  /** A positive sum has a positive term. */
  lemma {:induction false} SumWitness<T>(w: T -> nat, s: seq<T>) returns (i: nat)
    requires Sum(w, s) > 0
    ensures i < |s| && w(s[i]) > 0
  {
    if w(s[0]) > 0 {
      i := 0;
    } else {
      i := SumWitness(w, s[1..]);
      i := i + 1;
    }
  }

  lemma {:induction false} SumAppend<T>(w: T -> nat, s: seq<T>, v: T)
    ensures Sum(w, s + [v]) == Sum(w, s) + w(v)
  {
    if s == [] {
      assert s + [v] == [v];
      assert Sum(w, [v]) == w(v) + Sum(w, [v][1..]);
    } else {
      assert (s + [v])[1..] == s[1..] + [v];
      SumAppend(w, s[1..], v);
    }
  }

  /** A zero sum has only zero terms. */
  lemma SumAllZero<T>(w: T -> nat, s: seq<T>)
    requires Sum(w, s) == 0
    ensures forall i | 0 <= i < |s| :: w(s[i]) == 0
  {
    forall i | 0 <= i < |s| ensures w(s[i]) == 0 {
      SumAtLeast(w, s, i);
    }
  }

  lemma {:induction false} SumPair<T>(w: T -> nat, s: seq<T>, i: nat, j: nat)
    requires i < j < |s|
    ensures w(s[i]) + w(s[j]) <= Sum(w, s)
  {
    if i == 0 {
      SumAtLeast(w, s[1..], j - 1);
    } else {
      SumPair(w, s[1..], i - 1, j - 1);
    }
  }

  lemma {:induction false} SumSame<T, U>(w: T -> nat, s: seq<T>, v: U -> nat, t: seq<U>)
    requires |s| == |t| && forall i | 0 <= i < |s| :: w(s[i]) == v(t[i])
    ensures Sum(w, s) == Sum(v, t)
  {
    if s != [] {
      SumSame(w, s[1..], v, t[1..]);
    }
  }

  lemma {:induction false} SumPrefix<T>(w: T -> nat, s: seq<T>, n: nat)
    requires n <= |s|
    ensures Sum(w, s[..n]) <= Sum(w, s)
  {
    if n > 0 {
      assert s[..n][1..] == s[1..][..n - 1];
      SumPrefix(w, s[1..], n - 1);
    }
  }

  lemma {:induction false} SumBelow<T>(w: T -> nat, v: T -> nat, s: seq<T>)
    requires forall i | 0 <= i < |s| :: w(s[i]) <= v(s[i])
    ensures Sum(w, s) <= Sum(v, s)
  {
    if s != [] {
      SumBelow(w, v, s[1..]);
    }
  }
}
