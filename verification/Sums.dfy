// Weighted sums over sequences: the bookkeeping behind every conservation law
// of the tool-call protocol.
module Sums {

  function Bit(b: bool): nat { if b then 1 else 0 }

  ghost function Sum<T>(xs: seq<T>, w: T -> nat): nat {
    if xs == [] then 0 else Sum(xs[..|xs| - 1], w) + w(xs[|xs| - 1])
  }

  lemma {:induction false} SumConcat<T>(xs: seq<T>, ys: seq<T>, w: T -> nat)
    ensures Sum(xs + ys, w) == Sum(xs, w) + Sum(ys, w)
    decreases |ys|
  {
    if ys == [] {
      assert xs + ys == xs;
    } else {
      var front := ys[..|ys| - 1];
      assert (xs + ys)[..|xs + ys| - 1] == xs + front;
      SumConcat(xs, front, w);
    }
  }

  lemma SumOne<T>(x: T, w: T -> nat)
    ensures Sum([x], w) == w(x)
  {
    assert [x][..0] == [];
  }

  lemma SumAppend<T>(xs: seq<T>, x: T, w: T -> nat)
    ensures Sum(xs + [x], w) == Sum(xs, w) + w(x)
  {
    assert (xs + [x])[..|xs|] == xs;
  }

  /** Replacing the element at position i by a list changes the sum by that list's sum. */
  lemma SumReplace<T>(xs: seq<T>, i: nat, ys: seq<T>, w: T -> nat)
    requires i < |xs|
    ensures Sum(xs[..i] + ys + xs[i + 1..], w) + w(xs[i]) == Sum(xs, w) + Sum(ys, w)
  {
    assert xs == (xs[..i] + [xs[i]]) + xs[i + 1..];
    SumConcat(xs[..i] + [xs[i]], xs[i + 1..], w);
    SumAppend(xs[..i], xs[i], w);
    SumConcat(xs[..i] + ys, xs[i + 1..], w);
    SumConcat(xs[..i], ys, w);
  }

  /** Taking the head off a queue that starts at position k. */
  lemma SumDequeue<T>(xs: seq<T>, k: nat, w: T -> nat)
    requires k < |xs|
    ensures Sum(xs[k..], w) == w(xs[k]) + Sum(xs[k + 1..], w)
  {
    assert xs[k..] == [xs[k]] + xs[k + 1..];
    SumConcat([xs[k]], xs[k + 1..], w);
    SumOne(xs[k], w);
  }

  lemma SumEnqueue<T>(xs: seq<T>, k: nat, x: T, w: T -> nat)
    requires k <= |xs|
    ensures Sum((xs + [x])[k..], w) == Sum(xs[k..], w) + w(x)
  {
    assert (xs + [x])[k..] == xs[k..] + [x];
    SumAppend(xs[k..], x, w);
  }

  /** One element weighs at most the whole. */
  lemma SumAtLeast<T>(xs: seq<T>, i: nat, w: T -> nat)
    requires i < |xs|
    ensures Sum(xs, w) >= w(xs[i])
  {
    SumReplace(xs, i, [], w);
  }

  /** Two distinct elements weigh at most the whole. */
  lemma SumAtLeastTwo<T>(xs: seq<T>, i: nat, j: nat, w: T -> nat)
    requires i < j < |xs|
    ensures Sum(xs, w) >= w(xs[i]) + w(xs[j])
  {
    assert xs == xs[..j] + xs[j..];
    SumConcat(xs[..j], xs[j..], w);
    SumAtLeast(xs[..j], i, w);
    assert xs[j..][0] == xs[j];
    SumAtLeast(xs[j..], 0, w);
  }

  /** A positive sum has a positive element. */
  lemma {:induction false} SumWitness<T>(xs: seq<T>, w: T -> nat) returns (i: nat)
    requires Sum(xs, w) > 0
    ensures i < |xs| && w(xs[i]) > 0
    decreases |xs|
  {
    if w(xs[|xs| - 1]) > 0 {
      i := |xs| - 1;
    } else {
      i := SumWitness(xs[..|xs| - 1], w);
    }
  }
}
