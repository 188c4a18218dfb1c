/** Counting the elements of a sequence that satisfy a predicate. */
module Counting {

  function Count<T>(xs: seq<T>, p: T -> bool): nat {
    if xs == [] then 0
    else Count(xs[..|xs| - 1], p) + if p(xs[|xs| - 1]) then 1 else 0
  }

  /** 1 for true, 0 for false. */
  function Bit(b: bool): nat {
    if b then 1 else 0
  }

  lemma CountAppend<T>(xs: seq<T>, x: T, p: T -> bool)
    ensures Count(xs + [x], p) == Count(xs, p) + if p(x) then 1 else 0
  {
    assert (xs + [x])[..|xs|] == xs;
  }

  lemma {:induction false} CountUpdate<T>(xs: seq<T>, i: nat, x: T, p: T -> bool)
    requires i < |xs|
    ensures Count(xs[i := x], p) + (if p(xs[i]) then 1 else 0) == Count(xs, p) + if p(x) then 1 else 0
  {
    var n := |xs| - 1;
    if i == n {
      assert xs[i := x][..n] == xs[..n];
    } else {
      assert xs[i := x][..n] == xs[..n][i := x];
      CountUpdate(xs[..n], i, x, p);
    }
  }

  lemma {:induction false} CountMember<T>(xs: seq<T>, i: nat, p: T -> bool)
    requires i < |xs| && p(xs[i])
    ensures Count(xs, p) >= 1
  {
    if i < |xs| - 1 {
      CountMember(xs[..|xs| - 1], i, p);
    }
  }

  lemma {:induction false} CountPair<T>(xs: seq<T>, i: nat, j: nat, p: T -> bool)
    requires i < j < |xs| && p(xs[i]) && p(xs[j])
    ensures Count(xs, p) >= 2
  {
    if j < |xs| - 1 {
      CountPair(xs[..|xs| - 1], i, j, p);
    } else {
      CountMember(xs[..j], i, p);
    }
  }

  lemma {:induction false} CountZero<T>(xs: seq<T>, p: T -> bool)
    requires forall i :: 0 <= i < |xs| ==> !p(xs[i])
    ensures Count(xs, p) == 0
  {
    if xs != [] {
      CountZero(xs[..|xs| - 1], p);
    }
  }

  lemma {:induction false} CountSubset<T>(xs: seq<T>, p: T -> bool, q: T -> bool)
    requires forall x :: p(x) ==> q(x)
    ensures Count(xs, p) <= Count(xs, q)
  {
    if xs != [] {
      CountSubset(xs[..|xs| - 1], p, q);
    }
  }
}
