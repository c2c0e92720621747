/** Sums and filters over sequences, used to count workers, segments and log entries. */
module Seqs {

  function Sum<T>(f: T -> nat, xs: seq<T>): nat {
    if xs == [] then 0 else Sum(f, xs[..|xs| - 1]) + f(xs[|xs| - 1])
  }

  lemma {:induction false} SumAppend<T>(f: T -> nat, xs: seq<T>, x: T)
    ensures Sum(f, xs + [x]) == Sum(f, xs) + f(x)
  {
    assert (xs + [x])[..|xs|] == xs;
  }

  lemma {:induction false} SumUpdate<T>(f: T -> nat, xs: seq<T>, i: nat, x: T)
    requires i < |xs|
    ensures Sum(f, xs[i := x]) + f(xs[i]) == Sum(f, xs) + f(x)
  {
    var last := |xs| - 1;
    if i == last {
      assert xs[i := x][..last] == xs[..last];
    } else {
      SumUpdate(f, xs[..last], i, x);
      assert xs[i := x][..last] == xs[..last][i := x];
    }
  }

  lemma {:induction false} SumZero<T>(f: T -> nat, xs: seq<T>)
    ensures Sum(f, xs) == 0 <==> forall i :: 0 <= i < |xs| ==> f(xs[i]) == 0
  {
    if xs != [] {
      var last := |xs| - 1;
      SumZero(f, xs[..last]);
      assert forall i :: 0 <= i < last ==> xs[..last][i] == xs[i];
    }
  }

  /** The elements of `xs` that satisfy `p`, in order. */
  function Filter<T>(p: T -> bool, xs: seq<T>): (r: seq<T>)
    ensures |r| <= |xs|
  {
    if xs == [] then []
    else Filter(p, xs[..|xs| - 1]) + (if p(xs[|xs| - 1]) then [xs[|xs| - 1]] else [])
  }

  lemma {:induction false} FilterAppend<T>(p: T -> bool, xs: seq<T>, x: T)
    ensures Filter(p, xs + [x]) == Filter(p, xs) + if p(x) then [x] else []
  {
    assert (xs + [x])[..|xs|] == xs;
  }

  lemma {:induction false} FilterConcat<T>(p: T -> bool, xs: seq<T>, ys: seq<T>)
    ensures Filter(p, xs + ys) == Filter(p, xs) + Filter(p, ys)
  {
    if ys == [] {
      assert xs + ys == xs;
    } else {
      var last := |ys| - 1;
      var init, x := ys[..last], ys[last];
      FilterConcat(p, xs, init);
      assert xs + ys == (xs + init) + [x];
      FilterAppend(p, xs + init, x);
      Reassociate(Filter(p, xs), Filter(p, init), if p(x) then [x] else []);
    }
  }

  lemma {:induction false} FilterNone<T>(p: T -> bool, xs: seq<T>)
    requires forall i :: 0 <= i < |xs| ==> !p(xs[i])
    ensures Filter(p, xs) == []
  {
    if xs != [] {
      FilterNone(p, xs[..|xs| - 1]);
    }
  }

  /** Taking out the first element that satisfies `p` takes off the head of the filtered sequence;
      taking out one that does not satisfy `p` leaves it alone. */
  lemma {:induction false} FilterRemove<T>(p: T -> bool, xs: seq<T>, k: nat)
    requires k < |xs|
    requires p(xs[k]) ==> forall i :: 0 <= i < k ==> !p(xs[i])
    ensures Filter(p, xs) == (if p(xs[k]) then [xs[k]] else []) + Filter(p, xs[..k] + xs[k + 1..])
  {
    var front, x, back := xs[..k], xs[k], xs[k + 1..];
    SplitAt(xs, k);
    FilterConcat(p, front + [x], back);
    FilterAppend(p, front, x);
    FilterConcat(p, front, back);
    if p(x) {
      FilterNone(p, front);
    }
  }

  lemma {:induction false} SplitAt<T>(xs: seq<T>, k: nat)
    requires k < |xs|
    ensures xs == (xs[..k] + [xs[k]]) + xs[k + 1..]
  {}

  lemma {:induction false} SliceOfRest<T>(xs: seq<T>, i: nat, a: nat, b: nat)
    requires a <= b && i + b <= |xs|
    ensures xs[i..][a..b] == xs[i + a..i + b]
  {}

  lemma {:induction false} Reassociate<T>(a: seq<T>, b: seq<T>, c: seq<T>)
    ensures (a + b) + c == a + (b + c)
  {}
}
