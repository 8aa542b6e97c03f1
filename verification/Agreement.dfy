/** The calibration and the runtime decide alike: a text is flagged by the builder's rule exactly
    when the runtime query answers a hit for some unit the runner sends for it. */
module Agreement {
  import opened Options
  import opened Text
  import opened Chunking
  import opened Sentences
  import opened Vectors
  import opened Calibration
  import CS = CorpusScoring
  import VQ = VectorQuery
  import SG = ScanGate

  /** The database holds the collections the builder wrote, with the thresholds it chose. */
  ghost predicate Loaded(db: VQ.Db, c: CS.Corpus, head: Option<Head>, tw: real, ts: real, th: Float) {
    && db.whole == [VQ.Collection(c.whole, tw)]
    && db.sentence == [VQ.Collection(c.sentence, ts)]
    && db.benign == (if c.benign.Some? then [c.benign.value] else [])
    && db.head == (if head.Some? then Some(VQ.TrainedHead(head.value, th)) else None)
    && 0 < db.nResults
  }

  /** Thresholds are entries of the calibrated score arrays, so never beyond FAR. */
  predicate InRange(t: real) { t <= FAR }

  // ---- one window --------------------------------------------------------------------------------

  lemma BenignAgrees(m: Embedding, db: VQ.Db, c: CS.Corpus, v: Vec, d: real)
    requires db.benign == (if c.benign.Some? then [c.benign.value] else []) && d <= 2.0
    ensures d < VQ.Benign(m, db, v) <==> c.benign.None? || d < Nearest(m, v, c.benign.value)
  {
    if c.benign.Some? {
      var B := c.benign.value;
      NearestReached(m, v, B);
      VQ.ByDistanceGood(m, v, B);
      var row := VQ.Neighbours(m, v, B, 1);
      assert VQ.Benign(m, db, v) == if row != [] then Min(FAR, m.dist(v, row[0].vec)) else FAR by {
        assert VQ.BenignUpTo(m, v, db.benign, 0) == FAR;
      }
      if row != [] {
        assert row[0] in B;
      }
    }
  }

  lemma KnnAgrees(m: Embedding, db: VQ.Db, c: CS.Corpus, w: Text, C: seq<Entry>, t: real)
    requires Cosine(m) && InRange(t)
    requires db.benign == (if c.benign.Some? then [c.benign.value] else [])
    ensures CS.TwoSided(m, w, C, c.benign) < t <==> VQ.KnnHit(m, db, Vector(m, w), [VQ.Collection(C, t)])
  {
    var v := Vector(m, w);
    var d := Nearest(m, v, C);
    NearestReached(m, v, C);
    if CS.TwoSided(m, w, C, c.benign) < t {
      var e :| e in C && m.dist(v, e.vec) == d;
      BenignAgrees(m, db, c, v, d);
      assert VQ.Collection(C, t) in [VQ.Collection(C, t)];
    }
    if VQ.KnnHit(m, db, v, [VQ.Collection(C, t)]) {
      var coll, e :| coll in [VQ.Collection(C, t)] && e in coll.entries
                     && m.dist(v, e.vec) < coll.threshold && m.dist(v, e.vec) < VQ.Benign(m, db, v);
      assert d <= m.dist(v, e.vec);
      BenignAgrees(m, db, c, v, m.dist(v, e.vec));
      BenignAgrees(m, db, c, v, d);
    }
  }

  // ---- one text ------------------------------------------------------------------------------------

  lemma {:induction false} WholeMembers(chunks: seq<Text>, n: nat, w: Text)
    requires n <= |chunks|
    ensures w in CS.WholeWindows(chunks, n) <==> w in chunks[..n] && CS.LongEnough(w)
  {
    if n > 0 {
      WholeMembers(chunks, n - 1, w);
      assert chunks[..n] == chunks[..n - 1] + [chunks[n - 1]];
    }
  }

  lemma {:induction false} SentenceMembers(chunks: seq<Text>, n: nat, s: Text)
    requires n <= |chunks|
    ensures s in CS.SentenceWindows(chunks, n) <==> exists ch :: ch in chunks[..n] && s in CS.QuerySentences(ch)
  {
    if n > 0 {
      SentenceMembers(chunks, n - 1, s);
      assert chunks[..n] == chunks[..n - 1] + [chunks[n - 1]];
      assert chunks[n - 1] in chunks[..n];
    }
  }

  /** The builder's flag rule for one text, over its windows. */
  ghost predicate Flag(m: Embedding, c: CS.Corpus, head: Option<Head>, text: Text, tw: real, ts: real, th: Float) {
    || CS.SomeScoreBelow(m, CS.WholeOf(text), c.whole, c.benign, Fin(tw))
    || CS.SomeScoreBelow(m, CS.SentencesIn(text), c.sentence, c.benign, Fin(ts))
    || (head.Some? && (CS.SomeHeadAbove(m, CS.WholeOf(text), head.value, th) ||
                       CS.SomeHeadAbove(m, CS.SentencesIn(text), head.value, th)))
  }

  /** Some chunk of the text is a hit. */
  ghost predicate ChunkHit(m: Embedding, db: VQ.Db, text: Text) {
    exists ch :: ch in CS.ChunksOf(text) && VQ.IsHit(m, db, ch)
  }

  ghost predicate WholeSide(m: Embedding, db: VQ.Db, w: Text) {
    CS.LongEnough(w) && (VQ.KnnHit(m, db, Vector(m, w), db.whole) || VQ.HeadHit(db, Vector(m, w)))
  }

  ghost predicate SentenceSide(m: Embedding, db: VQ.Db, s: Text) {
    VQ.KnnHit(m, db, Vector(m, s), db.sentence) || VQ.HeadHit(db, Vector(m, s))
  }

  lemma HitSides(m: Embedding, db: VQ.Db, ch: Text)
    requires db.sentence != []
    ensures VQ.IsHit(m, db, ch)
      <==> WholeSide(m, db, ch) || exists s :: s in CS.QuerySentences(ch) && SentenceSide(m, db, s)
  {
    assert VQ.QuerySentences(db, ch) == CS.QuerySentences(ch);
  }

  lemma FlagSides(m: Embedding, db: VQ.Db, c: CS.Corpus, head: Option<Head>, text: Text, tw: real, ts: real, th: Float)
    requires Cosine(m) && InRange(tw) && InRange(ts) && Loaded(db, c, head, tw, ts, th)
    ensures Flag(m, c, head, text, tw, ts, th) <==>
      || (exists w ::
          w in CS.WholeOf(text) && (VQ.KnnHit(m, db, Vector(m, w), db.whole) || VQ.HeadHit(db, Vector(m, w))))
      || (exists s :: s in CS.SentencesIn(text) && SentenceSide(m, db, s))
  {
    forall w { KnnAgrees(m, db, c, w, c.whole, tw); }
    forall s { KnnAgrees(m, db, c, s, c.sentence, ts); }
  }

  /** The calibration rule flags a text exactly when the runtime query hits one of its chunks. */
  lemma FlagIffChunkHit(m: Embedding, db: VQ.Db, c: CS.Corpus, head: Option<Head>, text: Text, tw: real, ts: real,
                        th: Float)
    requires Cosine(m) && InRange(tw) && InRange(ts) && Loaded(db, c, head, tw, ts, th)
    ensures Flag(m, c, head, text, tw, ts, th) <==> ChunkHit(m, db, text)
  {
    var chunks := CS.ChunksOf(text);
    assert chunks[..|chunks|] == chunks;
    FlagSides(m, db, c, head, text, tw, ts, th);
    forall w { WholeMembers(chunks, |chunks|, w); }
    forall s { SentenceMembers(chunks, |chunks|, s); }
    forall ch { HitSides(m, db, ch); }
    if ChunkHit(m, db, text) {
      var ch :| ch in chunks && VQ.IsHit(m, db, ch);
      if !WholeSide(m, db, ch) {
        var s :| s in CS.QuerySentences(ch) && SentenceSide(m, db, s);
        assert s in CS.SentencesIn(text);
      }
    }
    if exists s :: s in CS.SentencesIn(text) && SentenceSide(m, db, s) {
      var s :| s in CS.SentencesIn(text) && SentenceSide(m, db, s);
      var ch :| ch in chunks && s in CS.QuerySentences(ch);
      assert VQ.IsHit(m, db, ch);
    }
  }

  // ---- the runner's units ---------------------------------------------------------------------------

  /** The k-th span gives the text t, and it is not blank. */
  ghost predicate KeptAt(text: Text, span: Span, t: Text) { SpanText(text, span) == t && !Blank(t, PySpace) }

  lemma {:induction false} KeptMembers(text: Text, spans: seq<Span>, n: nat, t: Text)
    requires n <= |spans|
    ensures t in CS.Kept(text, spans, n) <==> exists k :: 0 <= k < n && KeptAt(text, spans[k], t)
  {
    if n > 0 {
      KeptMembers(text, spans, n - 1, t);
      KeptLast(text, spans, n, t);
    }
  }

  lemma KeptLast(text: Text, spans: seq<Span>, n: nat, t: Text)
    requires 0 < n <= |spans|
    ensures t in CS.Kept(text, spans, n) <==> t in CS.Kept(text, spans, n - 1) || KeptAt(text, spans[n - 1], t)
  {
  }

  lemma SameBlank(text: Text, span: Span)
    requires SameSpaces(text, JsSpace, PySpace)
    ensures Blank(SpanText(text, span), JsSpace) <==> Blank(SpanText(text, span), PySpace)
  {
    var t := SpanText(text, span);
    forall i | 0 <= i < |t| ensures JsSpace(t[i]) == PySpace(t[i]) {
      assert t[i] == text[span.start + i];
    }
  }

  /** On text both languages read alike, the runner sends exactly the chunks that were calibrated. */
  lemma UnitsAreChunks(seg: SG.Segment, t: Text)
    requires SurrogateFree(seg.text) && SameSpaces(seg.text, JsSpace, PySpace)
    ensures SG.HasText(SG.DefaultUnits([seg]), t) <==> t in CS.ChunksOf(seg.text)
  {
    SG.DefaultsCut([seg]);
    assert Cuttable([seg][0].text, JsSpace, SG.CHUNK_CHARS, SG.CHUNK_OVERLAP);
    PortAgrees(seg.text, JsSpace, PySpace, SG.CHUNK_CHARS, SG.CHUNK_OVERLAP);
    var spans := Spans(seg.text, JsSpace, SG.CHUNK_CHARS, SG.CHUNK_OVERLAP);
    var batches := SG.Batches([seg], SG.CHUNK_CHARS, SG.CHUNK_OVERLAP);
    var pieces := batches[0];
    var units := SG.DefaultUnits([seg]);
    assert pieces == SG.PiecesAlong(seg, spans);
    KeptMembers(seg.text, spans, |spans|, t);
    if SG.HasText(units, t) {
      var k :| 0 <= k < |units| && units[k].text == t;
      SG.UnitsGood(batches, 1);
      SG.UnitsSound(batches, 1, units[k]);
      var j :| 0 <= j < |pieces| && pieces[j] == units[k];
      SameBlank(seg.text, spans[j]);
    }
    if t in CS.ChunksOf(seg.text) {
      var k :| 0 <= k < |spans| && KeptAt(seg.text, spans[k], t);
      SameBlank(seg.text, spans[k]);
      assert pieces[k] in pieces;
      SG.UnitsComplete(batches, 1, 0, pieces[k]);
    }
  }

  /** Some unit the runner sends for the segment is a hit. */
  ghost predicate UnitHit(m: Embedding, db: VQ.Db, seg: SG.Segment) {
    exists k :: 0 <= k < |SG.DefaultUnits([seg])| && VQ.IsHit(m, db, SG.DefaultUnits([seg])[k].text)
  }

  /** The two implementations agree end to end: chunking, blank units, duplicates, word minimum,
      sentence cap, two-sided neighbours and head. */
  lemma FlagIffUnitHit(m: Embedding, db: VQ.Db, c: CS.Corpus, head: Option<Head>, seg: SG.Segment, tw: real, ts: real,
                       th: Float)
    requires Cosine(m) && InRange(tw) && InRange(ts) && Loaded(db, c, head, tw, ts, th)
    requires SurrogateFree(seg.text) && SameSpaces(seg.text, JsSpace, PySpace)
    ensures Flag(m, c, head, seg.text, tw, ts, th) <==> UnitHit(m, db, seg)
  {
    FlagIffChunkHit(m, db, c, head, seg.text, tw, ts, th);
    var units := SG.DefaultUnits([seg]);
    if ChunkHit(m, db, seg.text) {
      var ch :| ch in CS.ChunksOf(seg.text) && VQ.IsHit(m, db, ch);
      UnitsAreChunks(seg, ch);
      var k :| 0 <= k < |units| && units[k].text == ch;
    }
    if UnitHit(m, db, seg) {
      var k :| 0 <= k < |units| && VQ.IsHit(m, db, units[k].text);
      assert SG.HasText(units, units[k].text);
      UnitsAreChunks(seg, units[k].text);
    }
  }

  // ---- the budget, said of the runtime ----------------------------------------------------------------

  /** How many of the texts raise a hit at run time. */
  ghost function Hits(m: Embedding, db: VQ.Db, rows: seq<Text>): nat {
    if rows == [] then 0 else (if ChunkHit(m, db, rows[0]) then 1 else 0) + Hits(m, db, rows[1..])
  }

  lemma {:induction false} RankIsEntry(w: seq<Float>, t: Float)
    requires Below(w, t) < UpTo(w, t)
    ensures t in w
  {
    if w[0] != t {
      RankIsEntry(w[1..], t);
    }
  }

  lemma {:induction false} JointIsHits(m: Embedding, db: VQ.Db, rows: seq<Text>, W: seq<Float>, S: seq<Float>,
                                       H: seq<Float>, tw: Float, ts: Float, th: Float)
    requires |W| == |S| == |H| == |rows|
    requires forall i :: 0 <= i < |rows| ==>
      (KnnFlags(W[i], S[i], tw, ts) || Less(th, H[i]) <==> ChunkHit(m, db, rows[i]))
    ensures Joint(W, S, H, tw, ts, th) == Hits(m, db, rows)
  {
    if rows != [] {
      JointIsHits(m, db, rows[1..], W[1..], S[1..], H[1..], tw, ts, th);
    }
  }

  /** main's calibration with a trained head. Once loaded, the corpus raises a hit on at most
      floor(target * n) of the calibration texts. */
  method CalibrateCorpus(m: Embedding, c: CS.Corpus, head: Head, calib: seq<Text>, target: real, share: real)
    returns (knn: Thresholds, th: Float)
    requires Cosine(m) && calib != [] && 0.0 <= target && 0.0 <= share <= 1.0
    ensures knn.tw.Fin? && knn.ts.Fin?
    ensures forall db :: Loaded(db, c, Some(head), knn.tw.r, knn.ts.r, th) ==>
      Hits(m, db, calib) <= FloorOf(target, |calib|)
  {
    var W, S, H := CS.ScoreTexts(m, calib, c, Some(head));
    knn, th := CalibrateJointly(W, S, H, target, share);
    RankIsEntry(W, knn.tw);
    RankIsEntry(S, knn.ts);
    forall db | Loaded(db, c, Some(head), knn.tw.r, knn.ts.r, th)
      ensures Hits(m, db, calib) <= FloorOf(target, |calib|)
    {
      forall i | 0 <= i < |calib|
        ensures KnnFlags(W[i], S[i], knn.tw, knn.ts) || Less(th, H[i]) <==> ChunkHit(m, db, calib[i])
      {
        ScoresAreHits(m, db, c, head, calib[i], W[i], S[i], H[i], knn.tw.r, knn.ts.r, th);
      }
      JointIsHits(m, db, calib, W, S, H, knn.tw, knn.ts, th);
    }
  }

  lemma {:induction false} FlaggedIsHits(m: Embedding, db: VQ.Db, rows: seq<Text>, W: seq<Float>, S: seq<Float>,
                                         tw: Float, ts: Float)
    requires |W| == |S| == |rows|
    requires forall i :: 0 <= i < |rows| ==> (KnnFlags(W[i], S[i], tw, ts) <==> ChunkHit(m, db, rows[i]))
    ensures Flagged(W, S, tw, ts) == Hits(m, db, rows)
  {
    if rows != [] {
      FlaggedIsHits(m, db, rows[1..], W[1..], S[1..], tw, ts);
    }
  }

  /** main's calibration without a head keeps the same budget with the neighbour thresholds alone. */
  method CalibrateHeadless(m: Embedding, c: CS.Corpus, calib: seq<Text>, target: real) returns (knn: Thresholds)
    requires Cosine(m) && calib != [] && 0.0 <= target
    ensures knn.tw.Fin? && knn.ts.Fin?
    ensures forall db, th :: Loaded(db, c, None, knn.tw.r, knn.ts.r, th) ==>
      Hits(m, db, calib) <= FloorOf(target, |calib|)
  {
    var W, S, H := CS.ScoreTexts(m, calib, c, None);
    var best := Calibrate(W, S, target);
    knn := best.value;
    RankIsEntry(W, knn.tw);
    RankIsEntry(S, knn.ts);
    forall db, th | Loaded(db, c, None, knn.tw.r, knn.ts.r, th) ensures Hits(m, db, calib) <= FloorOf(target, |calib|) {
      forall i | 0 <= i < |calib| ensures KnnFlags(W[i], S[i], knn.tw, knn.ts) <==> ChunkHit(m, db, calib[i]) {
        FlagIffChunkHit(m, db, c, None, calib[i], knn.tw.r, knn.ts.r, th);
      }
      FlaggedIsHits(m, db, calib, W, S, knn.tw, knn.ts);
    }
  }

  /** The score triple of a text, compared with the thresholds, decides the runtime's answer. */
  lemma ScoresAreHits(m: Embedding, db: VQ.Db, c: CS.Corpus, head: Head, text: Text, w: Float, s: Float, h: Float,
                      tw: real, ts: real, th: Float)
    requires Cosine(m) && InRange(tw) && InRange(ts) && Loaded(db, c, Some(head), tw, ts, th)
    requires CS.IsDistance(m, CS.WholeOf(text), c.whole, c.benign, w)
    requires CS.IsDistance(m, CS.SentencesIn(text), c.sentence, c.benign, s)
    requires CS.IsHeadScore(m, CS.WholeOf(text), CS.SentencesIn(text), head, h)
    ensures KnnFlags(w, s, Fin(tw), Fin(ts)) || Less(th, h) <==> ChunkHit(m, db, text)
  {
    FlagIffChunkHit(m, db, c, Some(head), text, tw, ts, th);
  }
}
