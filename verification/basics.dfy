/** Options and sums over sequences, shared by the other modules. */
module Basics {

  datatype Option<+T> = None | Some(value: T)

  function Min(a: int, b: int): int { if a <= b then a else b }

  /** f summed over the elements of xs; with a 0/1-valued f this counts elements. */
  function Sum<T>(xs: seq<T>, f: T -> nat): nat {
    if xs == [] then 0 else Sum(xs[..|xs| - 1], f) + f(xs[|xs| - 1])
  }

  lemma SumAppend<T>(xs: seq<T>, x: T, f: T -> nat)
    ensures Sum(xs + [x], f) == Sum(xs, f) + f(x)
  {
    assert (xs + [x])[..|xs|] == xs;
  }

  lemma {:induction false} SumUpdate<T>(xs: seq<T>, i: nat, x: T, f: T -> nat)
    requires i < |xs|
    ensures Sum(xs[i := x], f) + f(xs[i]) == Sum(xs, f) + f(x)
  {
    var n := |xs| - 1;
    if i == n {
      assert xs[i := x][..n] == xs[..n];
    } else {
      SumUpdate(xs[..n], i, x, f);
      assert xs[i := x][..n] == xs[..n][i := x];
    }
  }

  lemma {:induction false} SumMember<T>(xs: seq<T>, i: nat, f: T -> nat)
    requires i < |xs|
    ensures f(xs[i]) <= Sum(xs, f)
  {
    if i < |xs| - 1 {
      SumMember(xs[..|xs| - 1], i, f);
    }
  }

  lemma {:induction false} SumBelow<T>(xs: seq<T>, f: T -> nat, g: T -> nat)
    requires forall i :: 0 <= i < |xs| ==> f(xs[i]) <= g(xs[i])
    ensures Sum(xs, f) <= Sum(xs, g)
  {
    if xs == [] {
    } else {
      SumBelow(xs[..|xs| - 1], f, g);
    }
  }

  /** A sum does not see changes that keep the terms, nor new elements whose term is zero. */
  lemma {:induction false} SumKept<T>(xs: seq<T>, ys: seq<T>, f: T -> nat)
    requires |xs| <= |ys|
    requires forall i :: 0 <= i < |xs| ==> f(xs[i]) == f(ys[i])
    requires forall i :: |xs| <= i < |ys| ==> f(ys[i]) == 0
    ensures Sum(ys, f) == Sum(xs, f)
  {
    if ys == [] {
    } else if |xs| < |ys| {
      SumKept(xs, ys[..|ys| - 1], f);
    } else {
      SumKept(xs[..|xs| - 1], ys[..|ys| - 1], f);
    }
  }
}
