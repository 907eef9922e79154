/** Sums of weights over sequences. */
module Sums {

  function Sum<T>(s: seq<T>, w: T -> int): (r: int) {
    if s == [] then 0 else Sum(s[..|s| - 1], w) + w(s[|s| - 1])
  }

  lemma {:induction false} SumUpdate<T>(s: seq<T>, i: nat, x: T, w: T -> int)
    requires i < |s|
    ensures Sum(s[i := x], w) == Sum(s, w) - w(s[i]) + w(x)
    decreases |s|
  {
    var n := |s| - 1;
    if i == n {
      assert s[i := x][..n] == s[..n];
    } else {
      assert s[i := x][..n] == s[..n][i := x];
      SumUpdate(s[..n], i, x, w);
    }
  }

  lemma SumAppend<T>(s: seq<T>, x: T, w: T -> int)
    ensures Sum(s + [x], w) == Sum(s, w) + w(x)
  {
    assert (s + [x])[..|s|] == s;
  }

  lemma {:induction false} SumZero<T>(s: seq<T>, w: T -> int)
    requires forall i :: 0 <= i < |s| ==> w(s[i]) == 0
    ensures Sum(s, w) == 0
    decreases |s|
  {
    if s != [] {
      SumZero(s[..|s| - 1], w);
    }
  }

  /** Distinct positions of weight at least one are at most the sum. */
  lemma {:induction false} SumCovers<T>(s: seq<T>, w: T -> int, chosen: set<nat>)
    requires forall i :: 0 <= i < |s| ==> w(s[i]) >= 0
    requires forall i :: i in chosen ==> i < |s| && w(s[i]) >= 1
    ensures |chosen| <= Sum(s, w)
    decreases |s|
  {
    if s == [] {
      assert chosen == {};
    } else {
      var n := |s| - 1;
      var rest := chosen - {n};
      assert forall i :: i in rest ==> s[..n][i] == s[i];
      SumCovers(s[..n], w, rest);
      if n in chosen {
        assert chosen == rest + {n};
      } else {
        assert chosen == rest;
      }
    }
  }

  lemma SumNonNegative<T>(s: seq<T>, w: T -> int)
    requires forall i :: 0 <= i < |s| ==> w(s[i]) >= 0
    ensures Sum(s, w) >= 0
  {
    SumCovers(s, w, {});
  }
}
