/** Facts about sequences that more than one model needs. */
module Seqs {
  function Map<S, T>(f: S -> T, xs: seq<S>): (r: seq<T>)
    ensures |r| == |xs| && forall i :: 0 <= i < |xs| ==> r[i] == f(xs[i])
  {
    seq(|xs|, i requires 0 <= i < |xs| => f(xs[i]))
  }

  lemma {:induction false} MapConcat<S, T>(f: S -> T, xs: seq<S>, ys: seq<S>)
    ensures Map(f, xs + ys) == Map(f, xs) + Map(f, ys)
  {
  }

  lemma {:induction false} MapSnoc<S, T>(f: S -> T, xs: seq<S>, x: S)
    ensures Map(f, xs + [x]) == Map(f, xs) + [f(x)]
  {
  }

  lemma {:induction false} AppendAssociates<T>(a: seq<T>, b: seq<T>, c: seq<T>)
    ensures a + b + c == a + (b + c)
  {
  }

  lemma {:induction false} ConsConcat<T>(a: seq<T>, b: seq<T>)
    requires b != []
    ensures a + [b[0]] + b[1..] == a + b
  {
  }

  function FlatMap<S, T>(f: S -> seq<T>, xs: seq<S>): seq<T> {
    if xs == [] then [] else FlatMap(f, xs[..|xs| - 1]) + f(xs[|xs| - 1])
  }

  lemma {:induction false} FlatMapAppend<S, T>(f: S -> seq<T>, xs: seq<S>, ys: seq<S>)
    ensures FlatMap(f, xs + ys) == FlatMap(f, xs) + FlatMap(f, ys)
    decreases |ys|
  {
    if ys == [] {
      assert xs + ys == xs;
    } else {
      var n := |ys| - 1;
      assert (xs + ys)[..|xs| + n] == xs + ys[..n];
      FlatMapAppend(f, xs, ys[..n]);
      AppendAssociates(FlatMap(f, xs), FlatMap(f, ys[..n]), f(ys[n]));
    }
  }

  lemma {:induction false} FlatMapOne<S, T>(f: S -> seq<T>, x: S)
    ensures FlatMap(f, [x]) == f(x)
  {
    assert FlatMap(f, [x][..0]) == [];
  }

  lemma {:induction false} FlatMapSnoc<S, T>(f: S -> seq<T>, xs: seq<S>, x: S)
    ensures FlatMap(f, xs + [x]) == FlatMap(f, xs) + f(x)
  {
    FlatMapAppend(f, xs, [x]);
    FlatMapOne(f, x);
  }

  /** Mapping what another mapping yields. */
  lemma {:induction false} FlatMapTwice<R, S, T>(f: S -> seq<T>, c: R -> seq<S>, h: R -> seq<T>, xs: seq<R>)
    requires forall i :: 0 <= i < |xs| ==> FlatMap(f, c(xs[i])) == h(xs[i])
    ensures FlatMap(f, FlatMap(c, xs)) == FlatMap(h, xs)
    decreases |xs|
  {
    if xs != [] {
      var n := |xs| - 1;
      FlatMapTwice(f, c, h, xs[..n]);
      FlatMapAppend(f, FlatMap(c, xs[..n]), c(xs[n]));
    }
  }
}
