/** Concatenating the results of a function over a list, as the gathering
  * loops do when they append each step's items. */
module Seqs {

  /** f(xs[0]) + f(xs[1]) + ... + f(xs[|xs| - 1]). */
  function FlatMap<X, T>(f: X -> seq<T>, xs: seq<X>): seq<T> {
    if xs == [] then []
    else FlatMap(f, xs[..|xs| - 1]) + f(xs[|xs| - 1])
  }

  lemma FlatMapStep<X, T>(f: X -> seq<T>, xs: seq<X>, i: nat)
    requires i < |xs|
    ensures FlatMap(f, xs[..i + 1]) == FlatMap(f, xs[..i]) + f(xs[i])
  {
    assert xs[..i + 1][..i] == xs[..i];
  }

  lemma {:induction false} FlatMapAppend<X, T>(f: X -> seq<T>, xs: seq<X>, ys: seq<X>)
    ensures FlatMap(f, xs + ys) == FlatMap(f, xs) + FlatMap(f, ys)
    decreases |ys|
  {
    if ys == [] {
      assert xs + ys == xs;
    } else {
      var init, last := ys[..|ys| - 1], ys[|ys| - 1];
      var zs := xs + ys;
      assert zs[..|zs| - 1] == xs + init;
      assert zs[|zs| - 1] == last;
      assert FlatMap(f, zs) == FlatMap(f, xs + init) + f(last);
      FlatMapAppend(f, xs, init);
      assert FlatMap(f, ys) == FlatMap(f, init) + f(last);
    }
  }

  /** Every element of the result comes from the function's value at some element. */
  lemma {:induction false} FlatMapFrom<X, T>(f: X -> seq<T>, xs: seq<X>, y: T)
    requires y in FlatMap(f, xs)
    ensures exists k :: 0 <= k < |xs| && y in f(xs[k])
    decreases |xs|
  {
    var init := xs[..|xs| - 1];
    if y in FlatMap(f, init) {
      FlatMapFrom(f, init, y);
      var k :| 0 <= k < |init| && y in f(init[k]);
      assert xs[k] == init[k];
    } else {
      assert y in f(xs[|xs| - 1]);
    }
  }

  /** The i-th element's part follows the parts of the elements before it. */
  lemma FlatMapInOrder<X, T>(f: X -> seq<T>, xs: seq<X>, i: nat)
    requires i < |xs|
    ensures FlatMap(f, xs[..i]) + f(xs[i]) <= FlatMap(f, xs)
  {
    assert xs == xs[..i + 1] + xs[i + 1..];
    FlatMapAppend(f, xs[..i + 1], xs[i + 1..]);
    FlatMapStep(f, xs, i);
  }

  /** Where the parts of a five-part concatenation sit. */
  lemma ConcatLayout<T>(a: seq<T>, b: seq<T>, c: seq<T>, d: seq<T>, e: seq<T>)
    ensures var s := a + b + c + d + e;
      && |s| == |a| + |b| + |c| + |d| + |e|
      && s[..|a|] == a
      && s[|a|..|a| + |b|] == b
      && s[|a| + |b|..|a| + |b| + |c|] == c
      && s[|a| + |b| + |c|..|s| - |e|] == d
      && s[|s| - |e|..] == e
  {
    var s := a + b + c + d + e;
    assert s[..|a|] == a;
    assert s[|a|..|a| + |b|] == b;
    assert s[|a| + |b|..|a| + |b| + |c|] == c;
    assert s[|a| + |b| + |c|..|s| - |e|] == d;
  }
}
