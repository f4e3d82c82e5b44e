/** Python's `sum` over a generator, and the facts the batch id relies on. */
module Sums {

  /** `sum(f(x) for x in xs)`. */
  function SumOf<T>(xs: seq<T>, f: T -> int): int
  {
    if xs == [] then 0 else f(xs[0]) + SumOf(xs[1..], f)
  }

  lemma {:induction false} SumOfConcat<T>(xs: seq<T>, ys: seq<T>, f: T -> int)
    ensures SumOf(xs + ys, f) == SumOf(xs, f) + SumOf(ys, f)
  {
    if xs == [] {
      assert xs + ys == ys;
    } else {
      assert (xs + ys)[1..] == xs[1..] + ys;
      SumOfConcat(xs[1..], ys, f);
    }
  }

  /** Taking one element out of the sum. */
  lemma {:induction false} SumOfRemove<T>(xs: seq<T>, k: nat, f: T -> int)
    requires k < |xs|
    ensures SumOf(xs, f) == f(xs[k]) + SumOf(xs[..k] + xs[k + 1..], f)
  {
    var rest := [xs[k]] + xs[k + 1..];
    assert xs == xs[..k] + rest;
    assert rest[0] == xs[k] && rest[1..] == xs[k + 1..];
    assert SumOf(rest, f) == f(xs[k]) + SumOf(xs[k + 1..], f);
    SumOfConcat(xs[..k], rest, f);
    SumOfConcat(xs[..k], xs[k + 1..], f);
  }

  lemma MultisetRemove<T>(ys: seq<T>, k: nat)
    requires k < |ys|
    ensures multiset(ys[..k] + ys[k + 1..]) == multiset(ys) - multiset{ys[k]}
  {
    assert ys == ys[..k] + [ys[k]] + ys[k + 1..];
  }

  /** A sum does not depend on the order of its terms. */
  lemma {:induction false} SumOfPermutation<T>(xs: seq<T>, ys: seq<T>, f: T -> int)
    requires multiset(xs) == multiset(ys)
    ensures SumOf(xs, f) == SumOf(ys, f)
  {
    if xs == [] {
      assert |ys| == |multiset(ys)| == 0;
    } else {
      assert xs == [xs[0]] + xs[1..];
      assert multiset(xs[1..]) == multiset(xs) - multiset{xs[0]};
      assert xs[0] in multiset(ys);
      var k :| 0 <= k < |ys| && ys[k] == xs[0];
      MultisetRemove(ys, k);
      SumOfRemove(ys, k, f);
      SumOfPermutation(xs[1..], ys[..k] + ys[k + 1..], f);
    }
  }
}
