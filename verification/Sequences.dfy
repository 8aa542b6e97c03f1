/** Sequences of sequences. */
module Sequences {
  /** The pieces joined. */
  function Concat<T>(pieces: seq<seq<T>>): seq<T> {
    if pieces == [] then [] else pieces[0] + Concat(pieces[1..])
  }

  function FlatMap<A, B>(f: A -> seq<B>, xs: seq<A>): seq<B> {
    if xs == [] then [] else f(xs[0]) + FlatMap(f, xs[1..])
  }

  lemma FlatMapCons<A, B>(f: A -> seq<B>, x: A, rest: seq<A>)
    ensures FlatMap(f, [x] + rest) == f(x) + FlatMap(f, rest)
  {
    assert ([x] + rest)[1..] == rest;
  }

  lemma FlatMapOne<A, B>(f: A -> seq<B>, x: A)
    ensures FlatMap(f, [x]) == f(x)
  {
    assert [x][1..] == [];
  }

  lemma {:induction false} FlatMapConcat<A, B>(f: A -> seq<B>, a: seq<A>, b: seq<A>)
    ensures FlatMap(f, a + b) == FlatMap(f, a) + FlatMap(f, b)
  {
    if a == [] {
      assert a + b == b;
    } else {
      assert (a + b)[1..] == a[1..] + b;
      FlatMapConcat(f, a[1..], b);
    }
  }

  lemma {:induction false} FlatMapFlat<A, B, C>(g: B -> seq<C>, f: A -> seq<B>, h: A -> seq<C>, xs: seq<A>)
    requires forall i :: 0 <= i < |xs| ==> FlatMap(g, f(xs[i])) == h(xs[i])
    ensures FlatMap(g, FlatMap(f, xs)) == FlatMap(h, xs)
  {
    if xs != [] {
      FlatMapFlat(g, f, h, xs[1..]);
      FlatMapConcat(g, f(xs[0]), FlatMap(f, xs[1..]));
    }
  }

  lemma {:induction false} FlatMapSame<A, B>(f: A -> seq<B>, g: A -> seq<B>, xs: seq<A>)
    requires forall i :: 0 <= i < |xs| ==> f(xs[i]) == g(xs[i])
    ensures FlatMap(f, xs) == FlatMap(g, xs)
  {
    if xs != [] {
      FlatMapSame(f, g, xs[1..]);
    }
  }

  /** FlatMap of the first n elements, from the end. */
  function FlatUpTo<A, B>(f: A -> seq<B>, xs: seq<A>, n: nat): seq<B>
    requires n <= |xs|
  {
    if n == 0 then [] else FlatUpTo(f, xs, n - 1) + f(xs[n - 1])
  }

  lemma {:induction false} FlatUpToIs<A, B>(f: A -> seq<B>, xs: seq<A>, n: nat)
    requires n <= |xs|
    ensures FlatUpTo(f, xs, n) == FlatMap(f, xs[..n])
  {
    if n > 0 {
      FlatUpToIs(f, xs, n - 1);
      assert xs[..n] == xs[..n - 1] + [xs[n - 1]];
      FlatMapConcat(f, xs[..n - 1], [xs[n - 1]]);
      FlatMapOne(f, xs[n - 1]);
    }
  }

  lemma {:induction false} FlatMapPieces<A, B>(f: A -> seq<B>, xs: seq<A>, pieces: seq<seq<B>>)
    requires |xs| == |pieces| && forall i :: 0 <= i < |xs| ==> f(xs[i]) == pieces[i]
    ensures FlatMap(f, xs) == Concat(pieces)
  {
    if xs != [] {
      FlatMapPieces(f, xs[1..], pieces[1..]);
    }
  }
}
