/** Adding up a weight over the elements of a sequence, in whatever order they come. */
module Sums {
  ghost function Sum<E>(xs: seq<E>, w: E -> int): int {
    if xs == [] then 0 else Sum(xs[..|xs| - 1], w) + w(xs[|xs| - 1])
  }

  ghost predicate Splits<E(!new)>(w: E -> int, u: E -> int, v: E -> int) {
    forall e :: w(e) == u(e) + v(e)
  }

  lemma {:induction false} SumSplits<E(!new)>(xs: seq<E>, w: E -> int, u: E -> int, v: E -> int)
    requires Splits(w, u, v)
    ensures Sum(xs, w) == Sum(xs, u) + Sum(xs, v)
  {
    if xs != [] { SumSplits(xs[..|xs| - 1], w, u, v); }
  }

  lemma {:induction false} SumAgrees<E>(xs: seq<E>, u: E -> int, v: E -> int)
    requires forall i :: 0 <= i < |xs| ==> u(xs[i]) == v(xs[i])
    ensures Sum(xs, u) == Sum(xs, v)
  {
    if xs != [] { SumAgrees(xs[..|xs| - 1], u, v); }
  }

  lemma {:induction false} SumWithout<E>(xs: seq<E>, k: nat, w: E -> int)
    requires k < |xs|
    ensures Sum(xs, w) == Sum(xs[..k] + xs[k + 1..], w) + w(xs[k])
  {
    var last := |xs| - 1;
    var rest := xs[..k] + xs[k + 1..];
    if k == last {
      assert rest == xs[..last];
    } else {
      var init := xs[..last];
      SumWithout(init, k, w);
      assert rest[..|rest| - 1] == init[..k] + init[k + 1..];
      assert init[k] == xs[k] && rest[|rest| - 1] == xs[last];
    }
  }

  lemma MultisetWithout<E>(xs: seq<E>, k: nat)
    requires k < |xs|
    ensures multiset(xs[..k] + xs[k + 1..]) == multiset(xs) - multiset{xs[k]}
  {
    assert xs == xs[..k] + [xs[k]] + xs[k + 1..];
  }

  /** A sum does not depend on the order of the rows. */
  lemma {:induction false} SumPermuted<E>(xs: seq<E>, ys: seq<E>, w: E -> int)
    requires multiset(xs) == multiset(ys)
    ensures Sum(xs, w) == Sum(ys, w)
    decreases |xs|
  {
    if xs == [] {
      assert |multiset(ys)| == 0;
    } else {
      var last := |xs| - 1;
      assert xs[last] in multiset(ys);
      var k :| 0 <= k < |ys| && ys[k] == xs[last];
      MultisetWithout(xs, last);
      MultisetWithout(ys, k);
      assert xs[..last] + xs[last + 1..] == xs[..last];
      SumPermuted(xs[..last], ys[..k] + ys[k + 1..], w);
      SumWithout(ys, k, w);
    }
  }
}
