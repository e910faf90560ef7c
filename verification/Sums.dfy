/** Sums of sequences of natural numbers. */
module Sums {

  function Sum(xs: seq<nat>): nat {
    if xs == [] then 0 else Sum(xs[..|xs|-1]) + xs[|xs|-1]
  }

  lemma {:induction false} SumUpdate(xs: seq<nat>, i: nat, v: nat)
    requires i < |xs|
    ensures Sum(xs[i := v]) + xs[i] == Sum(xs) + v
    ensures xs[i] <= Sum(xs)
  {
    var n := |xs| - 1;
    if i == n {
      assert xs[i := v][..n] == xs[..n];
    } else {
      assert xs[i := v][..n] == xs[..n][i := v];
      SumUpdate(xs[..n], i, v);
    }
  }

  lemma {:induction false} SumZero(xs: seq<nat>)
    ensures Sum(xs) == 0 <==> forall i | 0 <= i < |xs| :: xs[i] == 0
  {
    if xs != [] {
      SumZero(xs[..|xs|-1]);
      assert forall i | 0 <= i < |xs| - 1 :: xs[..|xs|-1][i] == xs[i];
    }
  }

  /** `m` added `n` times. */
  function Times(n: nat, m: nat): nat {
    if n == 0 then 0 else Times(n - 1, m) + m
  }

  lemma {:induction false} TimesIsProduct(n: nat, m: nat)
    ensures Times(n, m) == n * m
  {
    if n > 0 {
      TimesIsProduct(n - 1, m);
      assert n * m == (n - 1) * m + m;
    }
  }

  lemma {:induction false} TimesMonotone(n: nat, a: nat, b: nat)
    requires a <= b
    ensures Times(n, a) <= Times(n, b)
  {
    if n > 0 {
      TimesMonotone(n - 1, a, b);
    }
  }

  /** A sum over a sequence whose entries are all at least `m`. */
  lemma {:induction false} SumAtLeast(xs: seq<nat>, m: nat)
    requires forall i | 0 <= i < |xs| :: m <= xs[i]
    ensures Times(|xs|, m) <= Sum(xs)
  {
    if xs != [] {
      SumAtLeast(xs[..|xs|-1], m);
    }
  }
}
