/** score_texts of the corpus builder: all windows of all texts are scored in two flat batches
    and scattered back to the texts that own them. */
module CorpusScoring {
  import opened Options
  import opened Text
  import opened Chunking
  import opened Sentences
  import opened Vectors
  import opened Calibration

  datatype Corpus = Corpus(whole: seq<Entry>, sentence: seq<Entry>, benign: Option<seq<Entry>>)

  function Take<T>(s: seq<T>, n: nat): seq<T> { if n <= |s| then s[..n] else s }

  ghost function Kept(text: Text, spans: seq<Span>, n: nat): seq<Text>
    requires n <= |spans|
  {
    if n == 0 then []
    else
      var piece := SpanText(text, spans[n - 1]);
      Kept(text, spans, n - 1) + if Blank(piece, PySpace) then [] else [piece]
  }

  /** chunks(): the non-blank pieces of a text. */
  ghost function ChunksOf(text: Text): seq<Text> {
    var spans := PySpans(text, PySpace, 500, 100);
    Kept(text, spans, |spans|)
  }

  method CutChunks(text: Text) returns (out: seq<Text>)
    ensures out == ChunksOf(text)
  {
    var spans := PyChunkSpans(text, PySpace, 500, 100);
    out := [];
    for k := 0 to |spans|
      invariant out == Kept(text, spans, k)
    {
      var piece := SpanText(text, spans[k]);
      if !Blank(piece, PySpace) {
        out := out + [piece];
      }
    }
  }

  predicate LongEnough(t: Text) { |Words(t)| >= MIN_SENTENCE_WORDS }

  /** The whole-text windows of the first n chunks. */
  function WholeWindows(chunks: seq<Text>, n: nat): seq<Text>
    requires n <= |chunks|
  {
    if n == 0 then [] else WholeWindows(chunks, n - 1) + if LongEnough(chunks[n - 1]) then [chunks[n - 1]] else []
  }

  function QuerySentences(chunk: Text): seq<Text> { Take(SentencesOf(chunk), MAX_SENTENCES) }

  /** The sentence windows of the first n chunks. */
  function SentenceWindows(chunks: seq<Text>, n: nat): seq<Text>
    requires n <= |chunks|
  {
    if n == 0 then [] else SentenceWindows(chunks, n - 1) + QuerySentences(chunks[n - 1])
  }

  ghost function WholeOf(text: Text): seq<Text> { WholeWindows(ChunksOf(text), |ChunksOf(text)|) }

  ghost function SentencesIn(text: Text): seq<Text> { SentenceWindows(ChunksOf(text), |ChunksOf(text)|) }

  // ---- flat batches with owners --------------------------------------------------------------

  /** q holds the windows wins[i] of every text i, each beside its owner. */
  ghost predicate Gathered(q: seq<Text>, owner: seq<nat>, wins: seq<seq<Text>>) {
    && |q| == |owner|
    && (forall k :: 0 <= k < |q| ==> owner[k] < |wins| && q[k] in wins[owner[k]])
    && (forall i, w :: 0 <= i < |wins| && w in wins[i] ==> exists k :: 0 <= k < |q| && q[k] == w && owner[k] == i)
  }

  /** Appending windows of the last text keeps the batch gathered. */
  lemma GatherMore(q: seq<Text>, owner: seq<nat>, wins: seq<seq<Text>>, more: seq<Text>)
    requires wins != [] && Gathered(q, owner, wins)
    ensures var last := |wins| - 1;
      Gathered(q + more, owner + seq(|more|, _ => last), wins[last := wins[last] + more])
  {
    var last := |wins| - 1;
    var q', owner', wins' := q + more, owner + seq(|more|, _ => last), wins[last := wins[last] + more];
    forall k | 0 <= k < |q'| ensures owner'[k] < |wins'| && q'[k] in wins'[owner'[k]] {
      if k >= |q| {
        assert q'[k] == more[k - |q|];
      }
    }
    forall i, w | 0 <= i < |wins'| && w in wins'[i]
      ensures exists k :: 0 <= k < |q'| && q'[k] == w && owner'[k] == i
    {
      if w in wins[i] {
        var k :| 0 <= k < |q| && q[k] == w && owner[k] == i;
        assert q'[k] == w && owner'[k] == i;
      } else {
        var j :| 0 <= j < |more| && more[j] == w;
        assert q'[|q| + j] == w && owner'[|q| + j] == i;
      }
    }
  }

  lemma GatherNew(q: seq<Text>, owner: seq<nat>, wins: seq<seq<Text>>)
    requires Gathered(q, owner, wins)
    ensures Gathered(q, owner, wins + [[]])
  {
    var wins' := wins + [[]];
    forall i, w | 0 <= i < |wins'| && w in wins'[i]
      ensures exists k :: 0 <= k < |q| && q[k] == w && owner[k] == i
    {
      assert w in wins[i];
    }
  }

  /** The windows of the first n texts, whole and by sentence. */
  ghost predicate WindowsOf(rows: seq<Text>, n: nat, wins: seq<seq<Text>>, sents: seq<seq<Text>>) {
    && |wins| == |sents| == n <= |rows|
    && forall i :: 0 <= i < n ==> wins[i] == WholeOf(rows[i]) && sents[i] == SentencesIn(rows[i])
  }

  lemma WindowsSnoc(rows: seq<Text>, n: nat, wins: seq<seq<Text>>, sents: seq<seq<Text>>)
    requires n < |rows| && WindowsOf(rows, n, wins, sents)
    ensures WindowsOf(rows, n + 1, wins + [WholeOf(rows[n])], sents + [SentencesIn(rows[n])])
  {
    var w, s := wins + [WholeOf(rows[n])], sents + [SentencesIn(rows[n])];
    forall i | 0 <= i < n + 1 ensures w[i] == WholeOf(rows[i]) && s[i] == SentencesIn(rows[i]) {
      if i < n {
        assert w[i] == wins[i] && s[i] == sents[i];
      }
    }
  }

  /** The double loop at the head of score_texts. */
  method GatherWindows(rows: seq<Text>)
    returns (qWhole: seq<Text>, ownerW: seq<nat>, qSent: seq<Text>, ownerS: seq<nat>,
             ghost wins: seq<seq<Text>>, ghost sents: seq<seq<Text>>)
    ensures WindowsOf(rows, |rows|, wins, sents) && Gathered(qWhole, ownerW, wins) && Gathered(qSent, ownerS, sents)
  {
    qWhole, ownerW, qSent, ownerS, wins, sents := [], [], [], [], [], [];
    for i := 0 to |rows|
      invariant WindowsOf(rows, i, wins, sents)
      invariant Gathered(qWhole, ownerW, wins) && Gathered(qSent, ownerS, sents)
    {
      WindowsSnoc(rows, i, wins, sents);
      qWhole, ownerW, qSent, ownerS, wins, sents := GatherText(rows[i], i, qWhole, ownerW, qSent, ownerS, wins, sents);
    }
  }

  method Append(q0: seq<Text>, owner0: seq<nat>, i: nat, ghost wins0: seq<seq<Text>>, more: seq<Text>)
    returns (q: seq<Text>, owner: seq<nat>, ghost wins: seq<seq<Text>>)
    requires |wins0| == i + 1 && Gathered(q0, owner0, wins0)
    ensures wins == wins0[..i] + [wins0[i] + more] && Gathered(q, owner, wins)
  {
    GatherMore(q0, owner0, wins0, more);
    q, owner, wins := q0 + more, owner0 + seq(|more|, _ => i), wins0[i := wins0[i] + more];
    assert wins == wins0[..i] + [wins0[i] + more];
  }

  method GatherText(text: Text, i: nat, qWhole0: seq<Text>, ownerW0: seq<nat>, qSent0: seq<Text>, ownerS0: seq<nat>,
                    ghost wins0: seq<seq<Text>>, ghost sents0: seq<seq<Text>>)
    returns (qWhole: seq<Text>, ownerW: seq<nat>, qSent: seq<Text>, ownerS: seq<nat>,
             ghost wins: seq<seq<Text>>, ghost sents: seq<seq<Text>>)
    requires |wins0| == |sents0| == i && Gathered(qWhole0, ownerW0, wins0) && Gathered(qSent0, ownerS0, sents0)
    ensures wins == wins0 + [WholeOf(text)] && sents == sents0 + [SentencesIn(text)]
    ensures Gathered(qWhole, ownerW, wins) && Gathered(qSent, ownerS, sents)
  {
    qWhole, ownerW, qSent, ownerS := qWhole0, ownerW0, qSent0, ownerS0;
    wins, sents := wins0 + [[]], sents0 + [[]];
    GatherNew(qWhole, ownerW, wins0);
    GatherNew(qSent, ownerS, sents0);
    var chunks := CutChunks(text);
    for n := 0 to |chunks|
      invariant wins == wins0 + [WholeWindows(chunks, n)] && sents == sents0 + [SentenceWindows(chunks, n)]
      invariant Gathered(qWhole, ownerW, wins) && Gathered(qSent, ownerS, sents)
    {
      var ch := chunks[n];
      var sentences := SplitSentences(ch);
      var whole, some := if LongEnough(ch) then [ch] else [], Take(sentences, MAX_SENTENCES);
      qWhole, ownerW, wins := Append(qWhole, ownerW, i, wins, whole);
      qSent, ownerS, sents := Append(qSent, ownerS, i, sents, some);
    }
  }

  // ---- numpy's scatter operations ----------------------------------------------------------------

  ghost predicate OwnedBelow(owner: seq<nat>, vals: seq<real>, n: nat, i: nat, t: Float)
    requires n <= |owner| == |vals|
  {
    exists k :: 0 <= k < n && owner[k] == i && Less(Fin(vals[k]), t)
  }

  /** A distance score: a real, never beyond FAR. */
  predicate NoFarther(x: Float) { x.Fin? && x.r <= FAR }

  function FloatMin(a: Float, b: Float): Float { if Less(b, a) then b else a }

  /** W = np.full(n, 9.0); np.minimum.at(W, owner, vals). */
  method MinimumAt(n: nat, owner: seq<nat>, vals: seq<real>) returns (W: seq<Float>)
    requires |owner| == |vals| && forall k :: 0 <= k < |owner| ==> owner[k] < n
    ensures |W| == n && forall i :: 0 <= i < n ==> NoFarther(W[i])
    ensures forall i, t ::
      0 <= i < n ==> (Less(W[i], t) <==> Less(Fin(FAR), t) || OwnedBelow(owner, vals, |owner|, i, t))
  {
    W := seq(n, _ => Fin(FAR));
    for k := 0 to |owner|
      invariant |W| == n && forall i :: 0 <= i < n ==> NoFarther(W[i])
      invariant forall i, t :: 0 <= i < n ==> (Less(W[i], t) <==> Less(Fin(FAR), t) || OwnedBelow(owner, vals, k, i, t))
    {
      ghost var before := W;
      W := W[owner[k] := FloatMin(W[owner[k]], Fin(vals[k]))];
      forall i, t | 0 <= i < n ensures Less(W[i], t) <==> Less(Fin(FAR), t) || OwnedBelow(owner, vals, k + 1, i, t) {
        assert Less(before[i], t) <==> Less(Fin(FAR), t) || OwnedBelow(owner, vals, k, i, t);
        OwnedBelowStep(owner, vals, k, i, t);
      }
    }
  }

  lemma OwnedBelowStep(owner: seq<nat>, vals: seq<real>, k: nat, i: nat, t: Float)
    requires k < |owner| == |vals|
    ensures OwnedBelow(owner, vals, k + 1, i, t) <==>
      OwnedBelow(owner, vals, k, i, t) || (owner[k] == i && Less(Fin(vals[k]), t))
  {
    if OwnedBelow(owner, vals, k, i, t) {
      var j :| 0 <= j < k && owner[j] == i && Less(Fin(vals[j]), t);
      assert j < k + 1;
    }
  }

  ghost predicate OwnedAbove(owner: seq<nat>, vals: seq<real>, n: nat, i: nat, t: Float)
    requires n <= |owner| == |vals|
  {
    exists k :: 0 <= k < n && owner[k] == i && Less(t, Fin(vals[k]))
  }

  function FloatMax(a: Float, b: Float): Float { if Less(a, b) then b else a }

  /** np.maximum.at(H, owner, vals). */
  method MaximumAt(H0: seq<Float>, owner: seq<nat>, vals: seq<real>) returns (H: seq<Float>)
    requires |owner| == |vals| && forall k :: 0 <= k < |owner| ==> owner[k] < |H0|
    ensures |H| == |H0|
    ensures forall i, t ::
      0 <= i < |H| ==> (Less(t, H[i]) <==> Less(t, H0[i]) || OwnedAbove(owner, vals, |owner|, i, t))
  {
    H := H0;
    for k := 0 to |owner|
      invariant |H| == |H0|
      invariant forall i, t :: 0 <= i < |H| ==> (Less(t, H[i]) <==> Less(t, H0[i]) || OwnedAbove(owner, vals, k, i, t))
    {
      ghost var before := H;
      H := H[owner[k] := FloatMax(H[owner[k]], Fin(vals[k]))];
      forall i, t | 0 <= i < |H| ensures Less(t, H[i]) <==> Less(t, H0[i]) || OwnedAbove(owner, vals, k + 1, i, t) {
        assert Less(t, before[i]) <==> Less(t, H0[i]) || OwnedAbove(owner, vals, k, i, t);
        OwnedAboveStep(owner, vals, k, i, t);
      }
    }
  }

  lemma OwnedAboveStep(owner: seq<nat>, vals: seq<real>, k: nat, i: nat, t: Float)
    requires k < |owner| == |vals|
    ensures OwnedAbove(owner, vals, k + 1, i, t) <==>
      OwnedAbove(owner, vals, k, i, t) || (owner[k] == i && Less(t, Fin(vals[k])))
  {
    if OwnedAbove(owner, vals, k, i, t) {
      var j :| 0 <= j < k && owner[j] == i && Less(t, Fin(vals[j]));
      assert j < k + 1;
    }
  }

  // ---- scoring ------------------------------------------------------------------------------------

  /** A window's distance: that of its malicious neighbour, FAR unless it is nearer than every
      benign entry. */
  function TwoSided(m: Embedding, w: Text, C: seq<Entry>, benign: Option<seq<Entry>>): real {
    var d := Nearest(m, Vector(m, w), C);
    if benign.Some? && !(d < Nearest(m, Vector(m, w), benign.value)) then FAR else d
  }

  ghost predicate SomeScoreBelow(m: Embedding, wins: seq<Text>, C: seq<Entry>, benign: Option<seq<Entry>>, t: Float) {
    exists w :: w in wins && Less(Fin(TwoSided(m, w, C, benign)), t)
  }

  ghost predicate SomeHeadAbove(m: Embedding, wins: seq<Text>, h: Head, t: Float) {
    exists w :: w in wins && Less(t, Fin(HeadScore(h, Vector(m, w))))
  }

  /** x is the least score of the windows (FAR without any): pinned by its comparison with every
      threshold. */
  ghost predicate IsDistance(m: Embedding, wins: seq<Text>, C: seq<Entry>, benign: Option<seq<Entry>>, x: Float) {
    NoFarther(x) && forall t :: Less(x, t) <==> Less(Fin(FAR), t) || SomeScoreBelow(m, wins, C, benign, t)
  }

  /** x is the best head score over both kinds of windows (-inf without any). */
  ghost predicate IsHeadScore(m: Embedding, wins: seq<Text>, sents: seq<Text>, h: Head, x: Float) {
    forall t :: Less(t, x) <==> SomeHeadAbove(m, wins, h, t) || SomeHeadAbove(m, sents, h, t)
  }

  /** uniq = list(dict.fromkeys(q)); pos = {t: k for k, t in enumerate(uniq)}. */
  method Unique(q: seq<Text>) returns (uniq: seq<Text>, pos: map<Text, nat>)
    ensures forall t :: t in q ==> t in pos
    ensures forall t :: t in pos ==> pos[t] < |uniq| && uniq[pos[t]] == t
  {
    uniq, pos := [], map[];
    for k := 0 to |q|
      invariant forall t :: t in q[..k] ==> t in pos
      invariant forall t :: t in pos ==> pos[t] < |uniq| && uniq[pos[t]] == t
    {
      assert q[..k + 1] == q[..k] + [q[k]];
      if q[k] !in pos {
        pos := pos[q[k] := |uniq|];
        uniq := uniq + [q[k]];
      }
    }
    assert q[..|q|] == q;
  }

  /** Sentence scores are computed once per distinct sentence and looked up by position. */
  method ScoreSentences(m: Embedding, q: seq<Text>, C: seq<Entry>, benign: Option<seq<Entry>>) returns (ds: seq<real>)
    ensures |ds| == |q| && forall k :: 0 <= k < |q| ==> ds[k] == TwoSided(m, q[k], C, benign)
  {
    var uniq, pos := Unique(q);
    var du := seq(|uniq|, k requires 0 <= k < |uniq| => TwoSided(m, uniq[k], C, benign));
    ds := seq(|q|, k requires 0 <= k < |q| => du[pos[q[k]]]);
  }

  lemma GatheredBelow(m: Embedding, q: seq<Text>, owner: seq<nat>, wins: seq<seq<Text>>, d: seq<real>,
                      C: seq<Entry>, benign: Option<seq<Entry>>, i: nat, t: Float)
    requires Gathered(q, owner, wins) && i < |wins|
    requires |d| == |q| && forall k :: 0 <= k < |q| ==> d[k] == TwoSided(m, q[k], C, benign)
    ensures OwnedBelow(owner, d, |owner|, i, t) <==> SomeScoreBelow(m, wins[i], C, benign, t)
  {
    if OwnedBelow(owner, d, |owner|, i, t) {
      var k :| 0 <= k < |owner| && owner[k] == i && Less(Fin(d[k]), t);
      assert q[k] in wins[i];
    }
    if SomeScoreBelow(m, wins[i], C, benign, t) {
      var w :| w in wins[i] && Less(Fin(TwoSided(m, w, C, benign)), t);
      var k :| 0 <= k < |q| && q[k] == w && owner[k] == i;
      assert Less(Fin(d[k]), t);
    }
  }

  lemma GatheredAbove(m: Embedding, q: seq<Text>, owner: seq<nat>, wins: seq<seq<Text>>, d: seq<real>, h: Head, i: nat,
                      t: Float)
    requires Gathered(q, owner, wins) && i < |wins|
    requires |d| == |q| && forall k :: 0 <= k < |q| ==> d[k] == HeadScore(h, Vector(m, q[k]))
    ensures OwnedAbove(owner, d, |owner|, i, t) <==> SomeHeadAbove(m, wins[i], h, t)
  {
    if OwnedAbove(owner, d, |owner|, i, t) {
      var k :| 0 <= k < |owner| && owner[k] == i && Less(t, Fin(d[k]));
      assert q[k] in wins[i];
    }
    if SomeHeadAbove(m, wins[i], h, t) {
      var w :| w in wins[i] && Less(t, Fin(HeadScore(h, Vector(m, w))));
      var k :| 0 <= k < |q| && q[k] == w && owner[k] == i;
      assert Less(t, Fin(d[k]));
    }
  }

  /** score_texts: W, S and H are pinned down by their comparison with every threshold. */
  method ScoreTexts(m: Embedding, rows: seq<Text>, c: Corpus, head: Option<Head>)
    returns (W: seq<Float>, S: seq<Float>, H: seq<Float>)
    ensures |W| == |S| == |H| == |rows|
    ensures forall i :: 0 <= i < |rows| ==>
      && IsDistance(m, WholeOf(rows[i]), c.whole, c.benign, W[i])
      && IsDistance(m, SentencesIn(rows[i]), c.sentence, c.benign, S[i])
      && (head.Some? ==> IsHeadScore(m, WholeOf(rows[i]), SentencesIn(rows[i]), head.value, H[i]))
  {
    var qWhole, ownerW, qSent, ownerS, wins, sents := GatherWindows(rows);
    var dw := seq(|qWhole|, k requires 0 <= k < |qWhole| => TwoSided(m, qWhole[k], c.whole, c.benign));
    var ds := ScoreSentences(m, qSent, c.sentence, c.benign);
    W := ScatterDistances(m, qWhole, ownerW, wins, |rows|, dw, c.whole, c.benign);
    S := ScatterDistances(m, qSent, ownerS, sents, |rows|, ds, c.sentence, c.benign);
    H := seq(|rows|, _ => NegInf);
    if head.Some? {
      H := ScoreHead(m, |rows|, head.value, qWhole, ownerW, wins, qSent, ownerS, sents);
    }
  }

  method ScatterDistances(m: Embedding, q: seq<Text>, owner: seq<nat>, ghost wins: seq<seq<Text>>, n: nat, d: seq<real>,
                          ghost C: seq<Entry>, ghost benign: Option<seq<Entry>>) returns (W: seq<Float>)
    requires |wins| == n && Gathered(q, owner, wins)
    requires |d| == |q| && forall k :: 0 <= k < |q| ==> d[k] == TwoSided(m, q[k], C, benign)
    ensures |W| == n && forall i :: 0 <= i < n ==> IsDistance(m, wins[i], C, benign, W[i])
  {
    W := MinimumAt(n, owner, d);
    forall i | 0 <= i < n ensures IsDistance(m, wins[i], C, benign, W[i]) {
      forall t ensures Less(W[i], t) <==> Less(Fin(FAR), t) || SomeScoreBelow(m, wins[i], C, benign, t) {
        GatheredBelow(m, q, owner, wins, d, C, benign, i, t);
      }
    }
  }

  method ScoreHead(m: Embedding, n: nat, h: Head, qWhole: seq<Text>, ownerW: seq<nat>, ghost wins: seq<seq<Text>>,
                   qSent: seq<Text>, ownerS: seq<nat>, ghost sents: seq<seq<Text>>) returns (H: seq<Float>)
    requires |wins| == |sents| == n && Gathered(qWhole, ownerW, wins) && Gathered(qSent, ownerS, sents)
    ensures |H| == n && forall i :: 0 <= i < n ==> IsHeadScore(m, wins[i], sents[i], h, H[i])
  {
    var none := seq(n, _ => NegInf);
    var hw := seq(|qWhole|, k requires 0 <= k < |qWhole| => HeadScore(h, Vector(m, qWhole[k])));
    var hs := seq(|qSent|, k requires 0 <= k < |qSent| => HeadScore(h, Vector(m, qSent[k])));
    var half := MaximumAt(none, ownerW, hw);
    H := MaximumAt(half, ownerS, hs);
    forall i | 0 <= i < n ensures IsHeadScore(m, wins[i], sents[i], h, H[i]) {
      forall t ensures Less(t, H[i]) <==> SomeHeadAbove(m, wins[i], h, t) || SomeHeadAbove(m, sents[i], h, t) {
        assert Less(t, H[i]) <==> Less(t, half[i]) || OwnedAbove(ownerS, hs, |ownerS|, i, t);
        assert Less(t, half[i]) <==> Less(t, none[i]) || OwnedAbove(ownerW, hw, |ownerW|, i, t);
        GatheredAbove(m, qWhole, ownerW, wins, hw, h, i, t);
        GatheredAbove(m, qSent, ownerS, sents, hs, h, i, t);
      }
    }
  }
}
