/** What the corpus builder and the runtime query share: embeddings, distances, the head. */
module Vectors {
  import opened Text

  type Vec = seq<real>

  /** The embedder (prefix included) and the cosine distance, both uninterpreted. */
  datatype Embedding = Embedding(embed: Text -> Vec, prefix: Text, dist: (Vec, Vec) -> real)

  function Vector(m: Embedding, t: Text): Vec { m.embed(m.prefix + t) }

  ghost predicate Cosine(m: Embedding) {
    forall a, b :: 0.0 <= m.dist(a, b) <= 2.0
  }

  datatype Entry = Entry(doc: Text, vec: Vec)

  /** The distance that stands for "no neighbour". */
  const FAR: real := 9.0

  function Min(a: real, b: real): real { if b < a then b else a }

  /** Distance to the nearest of C, FAR when C is empty. */
  function Nearest(m: Embedding, q: Vec, C: seq<Entry>): real {
    if C == [] then FAR else Min(Nearest(m, q, C[1..]), m.dist(q, C[0].vec))
  }

  ghost predicate SomeWithin(m: Embedding, q: Vec, C: seq<Entry>, t: real) {
    exists e :: e in C && m.dist(q, e.vec) < t
  }

  lemma {:induction false} NearestBelow(m: Embedding, q: Vec, C: seq<Entry>, t: real)
    ensures Nearest(m, q, C) < t <==> FAR < t || SomeWithin(m, q, C, t)
  {
    if C != [] {
      NearestBelow(m, q, C[1..], t);
      assert C == [C[0]] + C[1..];
      if SomeWithin(m, q, C[1..], t) {
        var e :| e in C[1..] && m.dist(q, e.vec) < t;
        assert e in C;
      }
      if m.dist(q, C[0].vec) < t {
        assert C[0] in C;
      }
    }
  }

  lemma {:induction false} NearestReached(m: Embedding, q: Vec, C: seq<Entry>)
    ensures Nearest(m, q, C) == FAR || exists e :: e in C && m.dist(q, e.vec) == Nearest(m, q, C)
    ensures forall e :: e in C ==> Nearest(m, q, C) <= m.dist(q, e.vec)
  {
    if C != [] {
      NearestReached(m, q, C[1..]);
      assert C == [C[0]] + C[1..];
      assert C[0] in C;
    }
  }

  datatype Head = Head(w: Vec, b: real)

  function Dot(w: Vec, v: Vec): real {
    if w == [] || v == [] then 0.0 else w[0] * v[0] + Dot(w[1..], v[1..])
  }

  function HeadScore(h: Head, v: Vec): real { Dot(h.w, v) + h.b }
}
