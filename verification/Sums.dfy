/** Sums of a weight over a list, used to count threads. */
module Sums {

  function Sum<T>(ts: seq<T>, w: T -> nat): nat {
    if ts == [] then 0 else Sum(ts[..|ts| - 1], w) + w(ts[|ts| - 1])
  }

  lemma SumAppend<T>(ts: seq<T>, w: T -> nat, x: T)
    ensures Sum(ts + [x], w) == Sum(ts, w) + w(x)
  {
    assert (ts + [x])[..|ts|] == ts;
  }

  lemma {:induction false} SumUpdate<T>(ts: seq<T>, w: T -> nat, i: nat, x: T)
    requires i < |ts|
    ensures Sum(ts[i := x], w) + w(ts[i]) == Sum(ts, w) + w(x)
  {
    var last := |ts| - 1;
    if i == last {
      assert ts[i := x][..last] == ts[..last];
    } else {
      SumUpdate(ts[..last], w, i, x);
      assert ts[i := x][..last] == ts[..last][i := x];
    }
  }

  lemma {:induction false} SumAtLeast<T>(ts: seq<T>, w: T -> nat, i: nat)
    requires i < |ts|
    ensures w(ts[i]) <= Sum(ts, w)
  {
    if i < |ts| - 1 {
      SumAtLeast(ts[..|ts| - 1], w, i);
    }
  }

  lemma {:induction false} SumAtLeastTwo<T>(ts: seq<T>, w: T -> nat, i: nat, j: nat)
    requires i < j < |ts|
    ensures w(ts[i]) + w(ts[j]) <= Sum(ts, w)
  {
    if j < |ts| - 1 {
      SumAtLeastTwo(ts[..|ts| - 1], w, i, j);
    } else {
      SumAtLeast(ts[..|ts| - 1], w, i);
    }
  }

  lemma {:induction false} SumPositive<T>(ts: seq<T>, w: T -> nat) returns (i: nat)
    requires Sum(ts, w) > 0
    ensures i < |ts| && w(ts[i]) > 0
  {
    i := |ts| - 1;
    if w(ts[i]) == 0 {
      i := SumPositive(ts[..i], w);
    }
  }

  lemma {:induction false} SumZero<T>(ts: seq<T>, w: T -> nat)
    requires forall i | 0 <= i < |ts| :: w(ts[i]) == 0
    ensures Sum(ts, w) == 0
  {
    if ts != [] {
      SumZero(ts[..|ts| - 1], w);
    }
  }

  lemma {:induction false} SumSame<T>(ts: seq<T>, v: T -> nat, w: T -> nat)
    requires forall i | 0 <= i < |ts| :: v(ts[i]) == w(ts[i])
    ensures Sum(ts, v) == Sum(ts, w)
  {
    if ts != [] {
      SumSame(ts[..|ts| - 1], v, w);
    }
  }
}
