/** Kotlin's `flatMap` on lists, and the facts about it the enumerator needs. */
module Seqs {

  /** `xs.flatMap(f)`: the images of the elements, concatenated in order. */
  function FlatMap<A, B>(xs: seq<A>, f: A -> seq<B>): seq<B> {
    if xs == [] then [] else f(xs[0]) + FlatMap(xs[1..], f)
  }

  lemma {:induction false} FlatMapAppend<A, B>(xs: seq<A>, ys: seq<A>, f: A -> seq<B>)
    ensures FlatMap(xs + ys, f) == FlatMap(xs, f) + FlatMap(ys, f)
  {
    if xs == [] {
      assert xs + ys == ys;
    } else {
      assert (xs + ys)[1..] == xs[1..] + ys;
      FlatMapAppend(xs[1..], ys, f);
    }
  }

  /** When every image has `k` elements, the result has `k` per input element. */
  lemma {:induction false} FlatMapLength<A, B>(xs: seq<A>, f: A -> seq<B>, k: nat)
    requires forall x | x in xs :: |f(x)| == k
    ensures |FlatMap(xs, f)| == k * |xs|
  {
    if xs != [] {
      var head, rest := xs[0], xs[1..];
      assert head in xs;
      assert forall x | x in rest :: x in xs;
      FlatMapLength(rest, f, k);
      assert FlatMap(xs, f) == f(head) + FlatMap(rest, f);
      MulSucc(k, |rest|);
    }
  }

  lemma MulSucc(k: nat, n: nat)
    ensures k * (n + 1) == k + k * n
  {
  }

  /** With images of uniform length `k`, element `j` of the image of `xs[i]`
      sits at position `k * i + j`: the input order is the outer order. */
  lemma {:induction false} FlatMapAt<A, B>(xs: seq<A>, f: A -> seq<B>, k: nat, i: nat, j: nat)
    requires forall x | x in xs :: |f(x)| == k
    requires i < |xs| && j < k
    ensures k * i + j < |FlatMap(xs, f)|
    ensures FlatMap(xs, f)[k * i + j] == f(xs[i])[j]
  {
    FlatMapLength(xs, f, k);
    assert xs[0] in xs;
    assert forall x | x in xs[1..] :: x in xs;
    if i > 0 {
      FlatMapAt(xs[1..], f, k, i - 1, j);
      assert k * i + j == k + (k * (i - 1) + j);
    }
  }

  lemma {:induction false} FlatMapMember<A, B>(xs: seq<A>, f: A -> seq<B>, x: A, y: B)
    requires x in xs && y in f(x)
    ensures y in FlatMap(xs, f)
  {
    if xs[0] != x {
      FlatMapMember(xs[1..], f, x, y);
    }
  }

  /** Every element of the result comes from the image of some input element. */
  lemma {:induction false} FlatMapOrigin<A, B>(xs: seq<A>, f: A -> seq<B>, y: B)
    requires y in FlatMap(xs, f)
    ensures exists x :: x in xs && y in f(x)
  {
    if y !in f(xs[0]) {
      FlatMapOrigin(xs[1..], f, y);
      var x :| x in xs[1..] && y in f(x);
      assert x in xs;
    }
  }
}
