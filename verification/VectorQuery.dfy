/** The runtime query of the scanner's vector database in calibrated mode. */
module VectorQuery {
  import opened Options
  import opened Text
  import opened Sentences
  import opened Vectors
  import C = Calibration

  datatype Collection = Collection(entries: seq<Entry>, threshold: real)

  /** The threshold can be minus infinity: the score of a calibration text without any window. */
  datatype TrainedHead = TrainedHead(head: Head, threshold: C.Float)

  datatype Db = Db(whole: seq<Collection>, sentence: seq<Collection>, benign: seq<seq<Entry>>,
                   head: Option<TrainedHead>, nResults: nat)

  // ---- exact nearest neighbours ------------------------------------------------------------

  function InsertNear(m: Embedding, q: Vec, e: Entry, s: seq<Entry>): seq<Entry> {
    if s == [] || m.dist(q, e.vec) <= m.dist(q, s[0].vec) then [e] + s
    else [s[0]] + InsertNear(m, q, e, s[1..])
  }

  function ByDistance(m: Embedding, q: Vec, C: seq<Entry>): seq<Entry> {
    if C == [] then [] else InsertNear(m, q, C[0], ByDistance(m, q, C[1..]))
  }

  /** The n nearest entries of C, nearest first. */
  function Neighbours(m: Embedding, q: Vec, C: seq<Entry>, n: nat): seq<Entry> {
    var all := ByDistance(m, q, C);
    if n <= |all| then all[..n] else all
  }

  lemma {:induction false} InsertNearGood(m: Embedding, q: Vec, e: Entry, s: seq<Entry>)
    requires s != [] ==> forall x :: x in s ==> m.dist(q, s[0].vec) <= m.dist(q, x.vec)
    ensures var r := InsertNear(m, q, e, s);
      && r != [] && (forall x :: x in r <==> x == e || x in s)
      && (forall x :: x in r ==> m.dist(q, r[0].vec) <= m.dist(q, x.vec))
  {
    var r := InsertNear(m, q, e, s);
    if s != [] && !(m.dist(q, e.vec) <= m.dist(q, s[0].vec)) {
      InsertMembers(m, q, e, s[1..]);
      assert s == [s[0]] + s[1..];
      assert s[0] in s;
    }
  }

  lemma {:induction false} InsertMembers(m: Embedding, q: Vec, e: Entry, s: seq<Entry>)
    ensures forall x :: x in InsertNear(m, q, e, s) <==> x == e || x in s
  {
    if s != [] && !(m.dist(q, e.vec) <= m.dist(q, s[0].vec)) {
      InsertMembers(m, q, e, s[1..]);
      assert s == [s[0]] + s[1..];
    }
  }

  lemma {:induction false} ByDistanceGood(m: Embedding, q: Vec, C: seq<Entry>)
    ensures var s := ByDistance(m, q, C);
      && (C != [] ==> s != []) && (forall x :: x in s <==> x in C)
      && (s != [] ==> forall x :: x in s ==> m.dist(q, s[0].vec) <= m.dist(q, x.vec))
  {
    if C != [] {
      ByDistanceGood(m, q, C[1..]);
      InsertNearGood(m, q, C[0], ByDistance(m, q, C[1..]));
      assert C == [C[0]] + C[1..];
    }
  }

  /** Looking only at the n >= 1 nearest loses no decision "is some entry nearer than t". */
  lemma NeighboursDecide(m: Embedding, q: Vec, C: seq<Entry>, n: nat, t: real)
    requires 0 < n
    ensures SomeWithin(m, q, Neighbours(m, q, C, n), t) <==> SomeWithin(m, q, C, t)
  {
    var near := Neighbours(m, q, C, n);
    ByDistanceGood(m, q, C);
    if SomeWithin(m, q, C, t) {
      var e :| e in C && m.dist(q, e.vec) < t;
      assert near[0] in near && m.dist(q, near[0].vec) < t;
    }
    if SomeWithin(m, q, near, t) {
      var e :| e in near && m.dist(q, e.vec) < t;
      assert e in C;
    }
  }

  // ---- the benign side ------------------------------------------------------------------------

  /** Nearest benign entry over the first n benign collections. */
  function BenignUpTo(m: Embedding, v: Vec, benign: seq<seq<Entry>>, n: nat): real
    requires n <= |benign|
  {
    if n == 0 then FAR
    else
      var row := Neighbours(m, v, benign[n - 1], 1);
      var before := BenignUpTo(m, v, benign, n - 1);
      if row != [] then Min(before, m.dist(v, row[0].vec)) else before
  }

  function Benign(m: Embedding, db: Db, v: Vec): real { BenignUpTo(m, v, db.benign, |db.benign|) }

  /** The loop over benign collections, all vectors at once. */
  method BenignDistances(m: Embedding, db: Db, vectors: seq<Vec>) returns (benign: seq<real>)
    ensures |benign| == |vectors| && forall i :: 0 <= i < |vectors| ==> benign[i] == Benign(m, db, vectors[i])
  {
    benign := seq(|vectors|, _ => FAR);
    for n := 0 to |db.benign|
      invariant |benign| == |vectors|
      invariant forall i :: 0 <= i < |vectors| ==> benign[i] == BenignUpTo(m, vectors[i], db.benign, n)
    {
      for i := 0 to |vectors|
        invariant |benign| == |vectors|
        invariant forall j :: 0 <= j < i ==> benign[j] == BenignUpTo(m, vectors[j], db.benign, n + 1)
        invariant forall j :: i <= j < |vectors| ==> benign[j] == BenignUpTo(m, vectors[j], db.benign, n)
      {
        var row := Neighbours(m, vectors[i], db.benign[n], 1);
        if row != [] {
          benign := benign[i := Min(benign[i], m.dist(vectors[i], row[0].vec))];
        }
      }
    }
  }

  // ---- hits -------------------------------------------------------------------------------------

  datatype Hit = Hit(window: Text, doc: Text, rank: real)

  /** A neighbour nearer than its collection's threshold and than every benign entry. */
  ghost predicate KnnHit(m: Embedding, db: Db, v: Vec, colls: seq<Collection>) {
    exists c, e :: c in colls && e in c.entries && m.dist(v, e.vec) < c.threshold && m.dist(v, e.vec) < Benign(m, db, v)
  }

  /** h reports an entry of the collection that passes both tests, ranked by its share of the threshold. */
  ghost predicate ReportsEntry(m: Embedding, v: Vec, coll: Collection, benign: real, h: Hit) {
    && 0.0 < coll.threshold
    && exists e :: e in coll.entries && e.doc == h.doc && m.dist(v, e.vec) < coll.threshold && m.dist(v, e.vec) < benign
                   && h.rank == m.dist(v, e.vec) / coll.threshold
  }

  ghost predicate ReportsKnn(m: Embedding, db: Db, colls: seq<Collection>, h: Hit) {
    exists c :: c in colls && ReportsEntry(m, Vector(m, h.window), c, Benign(m, db, Vector(m, h.window)), h)
  }

  /** math.exp(threshold - score), which is 0 for a threshold of minus infinity. */
  function HeadRank(threshold: C.Float, score: real, exp: real -> real): real {
    if threshold.NegInf? then 0.0 else exp(threshold.r - score)
  }

  ghost predicate ReportsHead(m: Embedding, db: Db, exp: real -> real, h: Hit) {
    && HeadHit(db, Vector(m, h.window)) && h.doc == h.window
    && h.rank == HeadRank(db.head.value.threshold, HeadScore(db.head.value.head, Vector(m, h.window)), exp)
  }

  /** h is a hit of the text: its window is one of the text's, and it says why. */
  ghost predicate Genuine(m: Embedding, db: Db, text: Text, exp: real -> real, h: Hit) {
    || (h.window == text && WholeOk(text) && (ReportsHead(m, db, exp, h) || ReportsKnn(m, db, db.whole, h)))
    || (h.window in QuerySentences(db, text) && (ReportsHead(m, db, exp, h) || ReportsKnn(m, db, db.sentence, h)))
  }

  ghost predicate HeadHit(db: Db, v: Vec) {
    db.head.Some? && C.Less(db.head.value.threshold, C.Fin(HeadScore(db.head.value.head, v)))
  }

  function QuerySentences(db: Db, text: Text): seq<Text> {
    var all := SentencesOf(text);
    if db.sentence == [] then [] else if MAX_SENTENCES <= |all| then all[..MAX_SENTENCES] else all
  }

  predicate WholeOk(text: Text) { |Words(text)| >= MIN_SENTENCE_WORDS }

  /** The rule the query decides: some window of the text is a hit. */
  ghost predicate IsHit(m: Embedding, db: Db, text: Text) {
    || (WholeOk(text) && (KnnHit(m, db, Vector(m, text), db.whole) || HeadHit(db, Vector(m, text))))
    || (exists s ::
        s in QuerySentences(db, text) && (KnnHit(m, db, Vector(m, s), db.sentence) || HeadHit(db, Vector(m, s))))
  }

  /** Hits of one window in one collection: every neighbour looked at that passes both tests. */
  method CollectionHits(m: Embedding, window: Text, v: Vec, benign: real, coll: Collection, n: nat)
    returns (hits: seq<Hit>)
    requires Cosine(m) && 0 < n
    ensures hits != [] <==> SomeWithin(m, v, coll.entries, Min(coll.threshold, benign))
    ensures forall h :: h in hits ==> h.window == window && ReportsEntry(m, v, coll, benign, h)
  {
    hits := [];
    var thr := coll.threshold;
    var near := Neighbours(m, v, coll.entries, n);
    ghost var limit := Min(thr, benign);
    for j := 0 to |near|
      invariant hits != [] <==> SomeWithin(m, v, near[..j], limit)
      invariant forall h :: h in hits ==> h.window == window && ReportsEntry(m, v, coll, benign, h)
    {
      assert near[..j + 1] == near[..j] + [near[j]];
      assert near[j] in coll.entries by { ByDistanceGood(m, v, coll.entries); }
      var dist := m.dist(v, near[j].vec);
      if dist < thr && dist < benign {
        hits := hits + [Hit(window, near[j].doc, dist / thr)];
      }
    }
    assert near[..|near|] == near;
    NeighboursDecide(m, v, coll.entries, n, limit);
  }

  ghost predicate AnyKnn(m: Embedding, db: Db, vectors: seq<Vec>, colls: seq<Collection>) {
    exists j :: 0 <= j < |vectors| && KnnHit(m, db, vectors[j], colls)
  }

  ghost predicate AnyIn(m: Embedding, db: Db, vectors: seq<Vec>, coll: Collection, n: nat)
    requires n <= |vectors|
  {
    exists j :: 0 <= j < n && SomeWithin(m, vectors[j], coll.entries, Min(coll.threshold, Benign(m, db, vectors[j])))
  }

  /** The kNN part of the query: collection by collection, window by window. */
  method KnnHits(m: Embedding, db: Db, windows: seq<Text>, vectors: seq<Vec>, benign: seq<real>,
                 colls: seq<Collection>, n: nat)
    returns (hits: seq<Hit>)
    requires Cosine(m) && 0 < n
    requires |windows| == |vectors| == |benign|
    requires forall j ::
      0 <= j < |vectors| ==> vectors[j] == Vector(m, windows[j]) && benign[j] == Benign(m, db, vectors[j])
    ensures hits != [] <==> AnyKnn(m, db, vectors, colls)
    ensures forall h :: h in hits ==> h.window in windows && ReportsKnn(m, db, colls, h)
  {
    hits := [];
    for k := 0 to |colls|
      invariant hits != [] <==> AnyKnn(m, db, vectors, colls[..k])
      invariant forall h :: h in hits ==> h.window in windows && ReportsKnn(m, db, colls, h)
    {
      ghost var before := hits;
      for i := 0 to |windows|
        invariant hits != [] <==> before != [] || AnyIn(m, db, vectors, colls[k], i)
        invariant forall h :: h in hits ==> h.window in windows && ReportsKnn(m, db, colls, h)
      {
        var more := CollectionHits(m, windows[i], vectors[i], benign[i], colls[k], n);
        assert colls[k] in colls;
        hits := hits + more;
      }
      AnyKnnStep(m, db, vectors, colls, k);
    }
    assert colls[..|colls|] == colls;
  }

  lemma AnyKnnStep(m: Embedding, db: Db, vectors: seq<Vec>, colls: seq<Collection>, k: nat)
    requires k < |colls|
    ensures AnyKnn(m, db, vectors, colls[..k + 1]) <==>
      AnyKnn(m, db, vectors, colls[..k]) || AnyIn(m, db, vectors, colls[k], |vectors|)
  {
    forall j | 0 <= j < |vectors|
      ensures KnnHit(m, db, vectors[j], colls[..k + 1]) <==>
        (KnnHit(m, db, vectors[j], colls[..k]) ||
         SomeWithin(m, vectors[j], colls[k].entries, Min(colls[k].threshold, Benign(m, db, vectors[j]))))
    {
      KnnHitStep(m, db, vectors[j], colls, k);
    }
  }

  lemma KnnHitStep(m: Embedding, db: Db, v: Vec, colls: seq<Collection>, k: nat)
    requires k < |colls|
    ensures KnnHit(m, db, v, colls[..k + 1]) <==>
      KnnHit(m, db, v, colls[..k]) || SomeWithin(m, v, colls[k].entries, Min(colls[k].threshold, Benign(m, db, v)))
  {
    assert colls[..k + 1] == colls[..k] + [colls[k]];
    if KnnHit(m, db, v, colls[..k]) {
      var c, e :| c in colls[..k] && e in c.entries && m.dist(v, e.vec) < c.threshold
        && m.dist(v, e.vec) < Benign(m, db, v);
      assert c in colls[..k + 1];
    }
    if SomeWithin(m, v, colls[k].entries, Min(colls[k].threshold, Benign(m, db, v))) {
      var e :| e in colls[k].entries && m.dist(v, e.vec) < Min(colls[k].threshold, Benign(m, db, v));
      assert colls[k] in colls[..k + 1];
    }
    if KnnHit(m, db, v, colls[..k + 1]) {
      var c, e :| c in colls[..k + 1] && e in c.entries && m.dist(v, e.vec) < c.threshold
        && m.dist(v, e.vec) < Benign(m, db, v);
      if c !in colls[..k] {
        assert c == colls[k];
        assert m.dist(v, e.vec) < Min(colls[k].threshold, Benign(m, db, v));
      }
    }
  }

  // ---- strongest first, one hit per document ------------------------------------------------------

  function InsertRank(h: Hit, s: seq<Hit>): seq<Hit> {
    if s == [] || h.rank <= s[0].rank then [h] + s else [s[0]] + InsertRank(h, s[1..])
  }

  /** hits.sort(key=rank), a stable sort. */
  function ByRank(hits: seq<Hit>): seq<Hit> {
    if hits == [] then [] else InsertRank(hits[0], ByRank(hits[1..]))
  }

  ghost predicate Ranked(s: seq<Hit>) {
    forall i, j :: 0 <= i < j < |s| ==> s[i].rank <= s[j].rank
  }

  lemma {:induction false} InsertRankGood(h: Hit, s: seq<Hit>)
    requires Ranked(s)
    ensures Ranked(InsertRank(h, s)) && forall x :: x in InsertRank(h, s) <==> x == h || x in s
  {
    if s != [] && !(h.rank <= s[0].rank) {
      InsertRankGood(h, s[1..]);
      assert s == [s[0]] + s[1..];
      var r := InsertRank(h, s);
      forall j | 1 <= j < |r| ensures s[0].rank <= r[j].rank {
        assert r[j] in InsertRank(h, s[1..]);
      }
    }
  }

  lemma {:induction false} ByRankGood(hits: seq<Hit>)
    ensures Ranked(ByRank(hits)) && forall x :: x in ByRank(hits) <==> x in hits
  {
    if hits != [] {
      ByRankGood(hits[1..]);
      InsertRankGood(hits[0], ByRank(hits[1..]));
      assert hits == [hits[0]] + hits[1..];
    }
  }

  ghost predicate DistinctDocs(out: seq<Hit>) {
    forall i, j :: 0 <= i < j < |out| ==> out[i].doc != out[j].doc
  }

  /** h is represented: a hit at least as strong for the same document was kept, or the answer is
      full of hits at least as strong. */
  ghost predicate Represented(h: Hit, out: seq<Hit>, n: nat) {
    || (exists o :: o in out && o.doc == h.doc && o.rank <= h.rank)
    || (|out| == n && forall o :: o in out ==> o.rank <= h.rank)
  }

  ghost predicate CoveredBy(h: Hit, kept: seq<Hit>) {
    exists o :: o in kept && o.doc == h.doc && o.rank <= h.rank
  }

  lemma CoveredMore(h: Hit, kept: seq<Hit>, x: Hit)
    ensures CoveredBy(h, kept) ==> CoveredBy(h, kept + [x])
    ensures CoveredBy(x, kept + [x])
  {
    if CoveredBy(h, kept) {
      var o :| o in kept && o.doc == h.doc && o.rank <= h.rank;
      assert o in kept + [x];
    }
    assert x in kept + [x];
  }

  ghost predicate HasDoc(kept: seq<Hit>, d: Text) { exists i :: 0 <= i < |kept| && kept[i].doc == d }

  ghost predicate AmongFirst(sorted: seq<Hit>, k: nat, h: Hit)
    requires k <= |sorted|
  {
    exists j :: 0 <= j < k && sorted[j] == h
  }

  lemma AmongMore(sorted: seq<Hit>, k: nat, h: Hit)
    requires k < |sorted| && AmongFirst(sorted, k, h)
    ensures AmongFirst(sorted, k + 1, h) && (Ranked(sorted) ==> h.rank <= sorted[k].rank)
  {
    var j :| 0 <= j < k && sorted[j] == h;
  }

  /** What the loop over the sorted hits has kept after its first k. */
  ghost predicate KeptFirst(sorted: seq<Hit>, k: nat, kept: seq<Hit>)
    requires k <= |sorted|
  {
    && Ranked(kept) && DistinctDocs(kept)
    && (forall i :: 0 <= i < |kept| ==> AmongFirst(sorted, k, kept[i]))
    && (forall j :: 0 <= j < k ==> CoveredBy(sorted[j], kept))
  }

  lemma RankedSnoc(sorted: seq<Hit>, k: nat, kept: seq<Hit>)
    requires k < |sorted| && Ranked(sorted) && Ranked(kept)
    requires forall i :: 0 <= i < |kept| ==> AmongFirst(sorted, k, kept[i])
    ensures Ranked(kept + [sorted[k]])
  {
    forall i | 0 <= i < |kept| ensures kept[i].rank <= sorted[k].rank { AmongMore(sorted, k, kept[i]); }
  }

  lemma DistinctSnoc(kept: seq<Hit>, h: Hit)
    requires DistinctDocs(kept) && !HasDoc(kept, h.doc)
    ensures DistinctDocs(kept + [h])
  {
    forall i | 0 <= i < |kept| ensures kept[i].doc != h.doc { }
  }

  lemma KeepOne(sorted: seq<Hit>, k: nat, kept: seq<Hit>)
    requires k < |sorted| && Ranked(sorted) && KeptFirst(sorted, k, kept) && !HasDoc(kept, sorted[k].doc)
    ensures KeptFirst(sorted, k + 1, kept + [sorted[k]])
  {
    var h, more := sorted[k], kept + [sorted[k]];
    RankedSnoc(sorted, k, kept);
    DistinctSnoc(kept, h);
    forall i | 0 <= i < |more| ensures AmongFirst(sorted, k + 1, more[i]) {
      if i < |kept| {
        AmongMore(sorted, k, kept[i]);
      }
    }
    forall j | 0 <= j < k + 1 ensures CoveredBy(sorted[j], more) { CoveredMore(sorted[j], kept, h); }
  }

  lemma SkipOne(sorted: seq<Hit>, k: nat, kept: seq<Hit>)
    requires k < |sorted| && Ranked(sorted) && KeptFirst(sorted, k, kept) && HasDoc(kept, sorted[k].doc)
    ensures KeptFirst(sorted, k + 1, kept)
  {
    forall i | 0 <= i < |kept| ensures AmongFirst(sorted, k + 1, kept[i]) && kept[i].rank <= sorted[k].rank {
      AmongMore(sorted, k, kept[i]);
    }
    var i :| 0 <= i < |kept| && kept[i].doc == sorted[k].doc;
    assert kept[i] in kept;
  }

  lemma HasDocSnoc(kept: seq<Hit>, h: Hit)
    ensures forall d :: HasDoc(kept + [h], d) <==> HasDoc(kept, d) || d == h.doc
  {
    forall d ensures HasDoc(kept + [h], d) <==> HasDoc(kept, d) || d == h.doc {
      var all := kept + [h];
      if HasDoc(kept, d) {
        var i :| 0 <= i < |kept| && kept[i].doc == d;
        assert all[i].doc == d;
      }
      assert all[|kept|] == h;
    }
  }

  /** The loop that keeps one hit per corpus text. */
  method FirstPerDoc(sorted: seq<Hit>) returns (kept: seq<Hit>)
    requires Ranked(sorted)
    ensures Ranked(kept) && DistinctDocs(kept)
    ensures forall o :: o in kept ==> o in sorted
    ensures forall h :: h in sorted ==> CoveredBy(h, kept)
    ensures |kept| <= |sorted|
  {
    var seen: set<Text> := {};
    kept := [];
    for k := 0 to |sorted|
      invariant KeptFirst(sorted, k, kept)
      invariant forall d :: d in seen <==> HasDoc(kept, d)
      invariant |kept| <= k
    {
      var h := sorted[k];
      if h.doc !in seen {
        KeepOne(sorted, k, kept);
        HasDocSnoc(kept, h);
        seen := seen + {h.doc};
        kept := kept + [h];
      } else {
        SkipOne(sorted, k, kept);
      }
    }
  }

  /** The tail of the query: sort by rank, keep one hit per corpus text, cut to n_results. */
  method StrongestFirst(hits: seq<Hit>, n: nat) returns (out: seq<Hit>)
    ensures Ranked(out) && DistinctDocs(out) && |out| <= n
    ensures forall o :: o in out ==> o in hits
    ensures forall h :: h in hits ==> Represented(h, out, n)
    ensures out == [] <==> hits == [] || n == 0
  {
    ByRankGood(hits);
    var sorted := ByRank(hits);
    var kept := FirstPerDoc(sorted);
    out := Cut(kept, n);
    CutGood(kept, n);
    forall h | h in hits ensures kept != [] && Represented(h, out, n) {
      assert h in sorted;
      CutRepresents(h, kept, n);
    }
    if hits != [] {
      assert hits[0] in hits;
    } else {
      assert sorted == [];
    }
  }

  function Cut(kept: seq<Hit>, n: nat): seq<Hit> { if n <= |kept| then kept[..n] else kept }

  lemma CutGood(kept: seq<Hit>, n: nat)
    requires Ranked(kept) && DistinctDocs(kept)
    ensures Ranked(Cut(kept, n)) && DistinctDocs(Cut(kept, n)) && |Cut(kept, n)| <= n
    ensures forall o :: o in Cut(kept, n) ==> o in kept
    ensures Cut(kept, n) == [] <==> n == 0 || |kept| == 0
  {
  }

  lemma CutRepresents(h: Hit, kept: seq<Hit>, n: nat)
    requires Ranked(kept) && CoveredBy(h, kept)
    ensures kept != [] && Represented(h, Cut(kept, n), n)
  {
    var out := Cut(kept, n);
    var o :| o in kept && o.doc == h.doc && o.rank <= h.rank;
    var i :| 0 <= i < |kept| && kept[i] == o;
    if i < |out| {
      assert out[i] == o;
    } else {
      forall x | x in out ensures x.rank <= h.rank {
        var j :| 0 <= j < |out| && out[j] == x;
        assert kept[j] == x;
      }
    }
  }

  // ---- the query ------------------------------------------------------------------------------------

  /** _query_calibrated; `exp` ranks head hits. The answer is empty exactly when the rule is not met. */
  method QueryCalibrated(m: Embedding, db: Db, text: Text, exp: real -> real) returns (out: seq<Hit>)
    requires Cosine(m)
    ensures out != [] <==> 0 < db.nResults && IsHit(m, db, text)
    ensures Ranked(out) && DistinctDocs(out) && |out| <= db.nResults
    ensures forall h :: h in out ==> Genuine(m, db, text, exp, h)
  {
    var hits := FoundHits(m, db, text, exp);
    out := StrongestFirst(hits, db.nResults);
  }

  /** The sentences to look up, with their vectors. */
  method EmbedSentences(m: Embedding, db: Db, text: Text) returns (sents: seq<Text>, vectors: seq<Vec>)
    ensures sents == QuerySentences(db, text) && |vectors| == |sents|
    ensures forall i :: 0 <= i < |sents| ==> vectors[i] == Vector(m, sents[i])
  {
    var all := SplitSentences(text);
    sents := if db.sentence == [] then [] else if MAX_SENTENCES <= |all| then all[..MAX_SENTENCES] else all;
    vectors := seq(|sents|, i requires 0 <= i < |sents| => Vector(m, sents[i]));
  }

  /** Everything the head and the collections report. */
  method FoundHits(m: Embedding, db: Db, text: Text, exp: real -> real) returns (hits: seq<Hit>)
    requires Cosine(m)
    ensures 0 < db.nResults ==> (hits != [] <==> IsHit(m, db, text))
    ensures forall h :: h in hits ==> Genuine(m, db, text, exp, h)
  {
    var sents, rest := EmbedSentences(m, db, text);
    var whole := [Vector(m, text)];
    var benign := BenignDistances(m, db, whole + rest);
    hits := HeadHits(m, db, text, sents, whole[0], rest, exp);
    if WholeOk(text) && 0 < db.nResults {
      var knn := KnnHits(m, db, [text], whole, benign[..1], db.whole, db.nResults);
      hits := hits + knn;
    }
    if sents != [] {
      var knn := KnnHits(m, db, sents, rest, benign[1..], db.sentence, 1);
      hits := hits + knn;
    }
    AllHits(m, db, text, sents, rest);
  }

  ghost predicate SomeHeadHit(m: Embedding, db: Db, text: Text, rest: seq<Vec>, n: nat)
    requires n <= |rest|
  {
    (WholeOk(text) && HeadHit(db, Vector(m, text))) || exists j :: 0 <= j < n && HeadHit(db, rest[j])
  }

  lemma AllHits(m: Embedding, db: Db, text: Text, sents: seq<Text>, rest: seq<Vec>)
    requires sents == QuerySentences(db, text)
    requires |rest| == |sents| && forall i :: 0 <= i < |sents| ==> rest[i] == Vector(m, sents[i])
    ensures IsHit(m, db, text) <==>
      || SomeHeadHit(m, db, text, rest, |rest|)
      || (WholeOk(text) && AnyKnn(m, db, [Vector(m, text)], db.whole))
      || AnyKnn(m, db, rest, db.sentence)
  {
    assert [Vector(m, text)][0] == Vector(m, text);
    forall j | 0 <= j < |rest| && (KnnHit(m, db, rest[j], db.sentence) || HeadHit(db, rest[j]))
      ensures IsHit(m, db, text)
    {
      assert sents[j] in sents;
    }
    if exists s :: s in sents && (KnnHit(m, db, Vector(m, s), db.sentence) || HeadHit(db, Vector(m, s))) {
      var s :| s in sents && (KnnHit(m, db, Vector(m, s), db.sentence) || HeadHit(db, Vector(m, s)));
      var j :| 0 <= j < |sents| && sents[j] == s;
      assert KnnHit(m, db, rest[j], db.sentence) || HeadHit(db, rest[j]);
    }
  }

  /** The head part of the query. */
  method HeadHits(m: Embedding, db: Db, text: Text, sents: seq<Text>, whole: Vec, rest: seq<Vec>, exp: real -> real)
    returns (hits: seq<Hit>)
    requires whole == Vector(m, text) && |rest| == |sents|
    requires forall i :: 0 <= i < |sents| ==> rest[i] == Vector(m, sents[i])
    ensures hits != [] <==> SomeHeadHit(m, db, text, rest, |rest|)
    ensures forall h ::
      h in hits ==> ((h.window == text && WholeOk(text)) || h.window in sents) && ReportsHead(m, db, exp, h)
  {
    hits := [];
    if db.head.Some? {
      var h, thr := db.head.value.head, db.head.value.threshold;
      if WholeOk(text) {
        var score := HeadScore(h, whole);
        if C.Less(thr, C.Fin(score)) {
          hits := [Hit(text, text, HeadRank(thr, score, exp))];
        }
      }
      for i := 0 to |rest|
        invariant hits != [] <==> SomeHeadHit(m, db, text, rest, i)
        invariant forall h ::
          h in hits ==> ((h.window == text && WholeOk(text)) || h.window in sents) && ReportsHead(m, db, exp, h)
      {
        var score := HeadScore(h, rest[i]);
        if C.Less(thr, C.Fin(score)) {
          hits := hits + [Hit(sents[i], sents[i], HeadRank(thr, score, exp))];
        }
      }
    }
  }
}
