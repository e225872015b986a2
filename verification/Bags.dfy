/** Sums over sequences, and what appending, replacing and the swap-remove of the
    server's tables do to them; the first element with a property. */
module Bags {
  function Sum<T>(xs: seq<T>, f: T -> nat): nat
    decreases |xs|
  {
    if xs == [] then 0 else Sum(xs[..|xs| - 1], f) + f(xs[|xs| - 1])
  }

  /** xs[i] = xs[--n] */
  function SwapRemove<T>(xs: seq<T>, i: nat): (ys: seq<T>)
    requires i < |xs|
    ensures |ys| == |xs| - 1
  {
    xs[i := xs[|xs| - 1]][..|xs| - 1]
  }

  /** The first element that satisfies p, or the length. */
  function First<T>(xs: seq<T>, p: T -> bool): (k: nat)
    ensures k <= |xs| && (k < |xs| ==> p(xs[k]))
    decreases |xs|
  {
    if xs == [] then 0
    else
      var n := |xs| - 1;
      var k := First(xs[..n], p);
      if k < n then k else if p(xs[n]) then n else |xs|
  }

  lemma {:induction false} FirstIs<T>(xs: seq<T>, p: T -> bool, k: nat)
    requires k <= |xs| && (k < |xs| ==> p(xs[k])) && forall j :: 0 <= j < k ==> !p(xs[j])
    ensures First(xs, p) == k
    decreases |xs|
  {
    if xs != [] {
      var init := xs[..|xs| - 1];
      FirstIs(init, p, if k < |init| then k else |init|);
    }
  }

  lemma {:induction false} NotFound<T>(xs: seq<T>, p: T -> bool, i: nat)
    requires First(xs, p) == |xs| && i < |xs|
    ensures !p(xs[i])
    decreases |xs|
  {
    if i < |xs| - 1 { NotFound(xs[..|xs| - 1], p, i); }
  }

  lemma {:induction false} BeforeFirst<T>(xs: seq<T>, p: T -> bool, u: nat)
    requires u < First(xs, p)
    ensures u < |xs| && !p(xs[u])
    decreases |xs|
  {
    if u < |xs| - 1 { BeforeFirst(xs[..|xs| - 1], p, u); }
  }

  /** If f counts the elements without p, one with p exists exactly when f does not count all. */
  lemma {:induction false} FirstExists<T>(xs: seq<T>, p: T -> bool, f: T -> nat)
    requires forall x :: x in xs ==> f(x) == if p(x) then 0 else 1
    ensures First(xs, p) < |xs| <==> Sum(xs, f) < |xs|
    ensures Sum(xs, f) <= |xs|
    decreases |xs|
  {
    if xs != [] { FirstExists(xs[..|xs| - 1], p, f); }
  }

  lemma SwapRemoveFrom<T>(xs: seq<T>, i: nat)
    requires i < |xs|
    ensures forall y :: y in SwapRemove(xs, i) ==> y in xs
  {
  }

  lemma SumAppend<T>(xs: seq<T>, x: T, f: T -> nat)
    ensures Sum(xs + [x], f) == Sum(xs, f) + f(x)
  {
    assert (xs + [x])[..|xs|] == xs;
  }

  lemma {:induction false} SumConcat<T>(xs: seq<T>, ys: seq<T>, f: T -> nat)
    ensures Sum(xs + ys, f) == Sum(xs, f) + Sum(ys, f)
    decreases |ys|
  {
    if ys == [] {
      assert xs + ys == xs;
    } else {
      var zs := ys[..|ys| - 1];
      SumConcat(xs, zs, f);
      assert (xs + ys)[..|xs + ys| - 1] == xs + zs;
    }
  }

  lemma {:induction false} SumUpdate<T>(xs: seq<T>, i: nat, x: T, f: T -> nat)
    requires i < |xs|
    ensures Sum(xs[i := x], f) + f(xs[i]) == Sum(xs, f) + f(x)
    ensures f(xs[i]) <= Sum(xs, f)
    decreases |xs|
  {
    var n := |xs| - 1;
    if i < n {
      assert xs[i := x][..n] == xs[..n][i := x];
      SumUpdate(xs[..n], i, x, f);
    } else {
      assert xs[i := x][..n] == xs[..n];
    }
  }

  lemma SumSwapRemove<T>(xs: seq<T>, i: nat, f: T -> nat)
    requires i < |xs|
    ensures Sum(SwapRemove(xs, i), f) + f(xs[i]) == Sum(xs, f)
  {
    var last := xs[|xs| - 1];
    SumUpdate(xs, i, last, f);
    var ys := xs[i := last];
    assert ys[|ys| - 1] == last;
  }

  lemma SumOne<T>(x: T, f: T -> nat)
    ensures Sum([x], f) == f(x)
  {
    assert [x][..0] == [];
  }

  lemma SumFirst<T>(xs: seq<T>, f: T -> nat)
    requires xs != []
    ensures f(xs[0]) + Sum(xs[1..], f) == Sum(xs, f)
  {
    assert xs == [xs[0]] + xs[1..];
    SumConcat([xs[0]], xs[1..], f);
    SumOne(xs[0], f);
  }

  lemma {:induction false} SumZero<T>(xs: seq<T>, f: T -> nat)
    requires forall x :: x in xs ==> f(x) == 0
    ensures Sum(xs, f) == 0
    decreases |xs|
  {
    if xs != [] { SumZero(xs[..|xs| - 1], f); }
  }

  lemma {:induction false} SumBound<T>(xs: seq<T>, f: T -> nat, most: nat)
    requires forall x :: x in xs ==> f(x) <= most
    ensures Sum(xs, f) <= |xs| * most
    decreases |xs|
  {
    if xs != [] {
      SumBound(xs[..|xs| - 1], f, most);
      assert |xs| * most == (|xs| - 1) * most + most;
    }
  }

  lemma {:induction false} SumPoint<T>(xs: seq<T>, f: T -> nat, g: T -> nat)
    requires forall x :: x in xs ==> f(x) <= g(x)
    ensures Sum(xs, f) <= Sum(xs, g)
    decreases |xs|
  {
    if xs != [] { SumPoint(xs[..|xs| - 1], f, g); }
  }

  lemma {:induction false} TwoCount<T>(xs: seq<T>, f: T -> nat, i: nat, j: nat)
    requires i < j < |xs|
    ensures f(xs[i]) + f(xs[j]) <= Sum(xs, f)
    decreases |xs|
  {
    var n := |xs| - 1;
    if j < n {
      TwoCount(xs[..n], f, i, j);
    } else {
      SumUpdate(xs[..n], i, xs[i], f);
    }
  }
}
