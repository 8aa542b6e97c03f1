/** The untrusted-text gate: segments are cut into units, duplicates and blank units are
    dropped, and the scanner is asked unit by unit until the first abort. */
module ScanGate {
  import opened Text
  import opened Chunking

  const CHUNK_CHARS: nat := 500
  const CHUNK_OVERLAP: nat := 100

  datatype Segment = Segment(name: string, text: Text)

  /** The label of a unit: its segment's own, or "label [part index/count]". */
  datatype UnitLabel = Whole(name: string) | Part(name: string, index: nat, count: nat)

  datatype ScanUnit = ScanUnit(tag: UnitLabel, text: Text)

  datatype UnitsResult = Units(units: seq<ScanUnit>) | InvalidParameters

  function LabelOf(seg: Segment, index: nat, count: nat): UnitLabel {
    if count > 1 then Part(seg.name, index + 1, count) else Whole(seg.name)
  }

  ghost predicate AllCuttable(segments: seq<Segment>, maxChars: int, overlap: int) {
    forall i :: 0 <= i < |segments| ==> Cuttable(segments[i].text, JsSpace, maxChars, overlap)
  }

  ghost function PiecesAlong(seg: Segment, spans: seq<Span>): (ps: seq<ScanUnit>)
    ensures |ps| == |spans|
    ensures forall i :: 0 <= i < |spans| ==>
      ps[i] == ScanUnit(LabelOf(seg, i, |spans|), SpanText(seg.text, spans[i]))
  {
    seq(|spans|, i requires 0 <= i < |spans| => ScanUnit(LabelOf(seg, i, |spans|), SpanText(seg.text, spans[i])))
  }

  /** The labelled pieces of one segment, in order. */
  ghost function Pieces(seg: Segment, maxChars: nat, overlap: nat): seq<ScanUnit>
    requires Cuttable(seg.text, JsSpace, maxChars, overlap)
  {
    PiecesAlong(seg, Spans(seg.text, JsSpace, maxChars, overlap))
  }

  ghost predicate HasText(units: seq<ScanUnit>, text: Text) {
    exists k :: 0 <= k < |units| && units[k].text == text
  }

  ghost function Keep(units: seq<ScanUnit>, piece: ScanUnit): seq<ScanUnit> {
    if Blank(piece.text, JsSpace) || HasText(units, piece.text) then units else units + [piece]
  }

  /** `units` after offering it the first n pieces. */
  ghost function KeepFirst(units: seq<ScanUnit>, pieces: seq<ScanUnit>, n: nat): seq<ScanUnit>
    requires n <= |pieces|
  {
    if n == 0 then units else Keep(KeepFirst(units, pieces, n - 1), pieces[n - 1])
  }

  /** The units of the first n batches of pieces. */
  ghost function UnitsOf(batches: seq<seq<ScanUnit>>, n: nat): seq<ScanUnit>
    requires n <= |batches|
  {
    if n == 0 then [] else KeepFirst(UnitsOf(batches, n - 1), batches[n - 1], |batches[n - 1]|)
  }

  ghost function Batches(segments: seq<Segment>, maxChars: nat, overlap: nat): (batches: seq<seq<ScanUnit>>)
    requires AllCuttable(segments, maxChars, overlap)
    ensures |batches| == |segments|
    ensures forall i :: 0 <= i < |segments| ==> batches[i] == Pieces(segments[i], maxChars, overlap)
  {
    seq(|segments|, i requires 0 <= i < |segments| => Pieces(segments[i], maxChars, overlap))
  }

  /** What scanUnits sends for `segments`. */
  ghost function UnitsFor(segments: seq<Segment>, maxChars: nat, overlap: nat): seq<ScanUnit>
    requires AllCuttable(segments, maxChars, overlap)
  {
    UnitsOf(Batches(segments, maxChars, overlap), |segments|)
  }

  ghost predicate Tracks(seen: set<Text>, units: seq<ScanUnit>) {
    forall t :: t in seen <==> HasText(units, t)
  }

  /** scanUnits. */
  method ScanUnits(segments: seq<Segment>, maxChars: int, overlap: int) returns (r: UnitsResult)
    requires ValidParams(maxChars, overlap) ==> AllCuttable(segments, maxChars, overlap)
    ensures r.InvalidParameters? <==> segments != [] && !ValidParams(maxChars, overlap)
    ensures segments == [] ==> r == Units([])
    ensures segments != [] && r.Units? ==> r.units == UnitsFor(segments, maxChars, overlap)
  {
    var seen: set<Text> := {};
    var units: seq<ScanUnit> := [];
    ghost var batches := if ValidParams(maxChars, overlap) then Batches(segments, maxChars, overlap) else [];
    for n := 0 to |segments|
      invariant n > 0 ==> ValidParams(maxChars, overlap)
      invariant if n == 0 then units == [] else units == UnitsOf(batches, n)
      invariant Tracks(seen, units)
    {
      var cut := ChunkSpans(segments[n].text, JsSpace, maxChars, overlap);
      if cut.InvalidChunking? {
        return InvalidParameters;
      }
      seen, units := AddPieces(segments[n], cut.spans, batches[n], seen, units);
    }
    return Units(units);
  }

  /** The body of scanUnits' loop over segments. */
  method AddPieces(seg: Segment, spans: seq<Span>, ghost pieces: seq<ScanUnit>, seen0: set<Text>, units0: seq<ScanUnit>)
    returns (seen: set<Text>, units: seq<ScanUnit>)
    requires pieces == PiecesAlong(seg, spans) && Tracks(seen0, units0)
    ensures Tracks(seen, units) && units == KeepFirst(units0, pieces, |pieces|)
  {
    seen, units := seen0, units0;
    for i := 0 to |spans|
      invariant units == KeepFirst(units0, pieces, i)
      invariant Tracks(seen, units)
    {
      var piece := ScanUnit(LabelOf(seg, i, |spans|), SpanText(seg.text, spans[i]));
      if !Blank(piece.text, JsSpace) && piece.text !in seen {
        HasTextSnoc(units, piece);
        seen := seen + {piece.text};
        units := units + [piece];
      }
    }
  }

  lemma HasTextSnoc(units: seq<ScanUnit>, u: ScanUnit)
    ensures forall t :: HasText(units + [u], t) <==> HasText(units, t) || t == u.text
  {
    forall t ensures HasText(units + [u], t) <==> HasText(units, t) || t == u.text {
      var all := units + [u];
      if HasText(units, t) {
        var k :| 0 <= k < |units| && units[k].text == t;
        assert all[k].text == t;
      }
      if t == u.text {
        assert all[|units|].text == t;
      }
    }
  }

  // ---- the units stand for exactly the non-blank pieces --------------------------------

  ghost predicate Distinct(units: seq<ScanUnit>) {
    forall j, k :: 0 <= j < k < |units| ==> units[j].text != units[k].text
  }

  ghost predicate NoneBlank(units: seq<ScanUnit>) {
    forall k :: 0 <= k < |units| ==> !Blank(units[k].text, JsSpace)
  }

  lemma {:induction false} KeepFirstGood(units: seq<ScanUnit>, pieces: seq<ScanUnit>, n: nat)
    requires n <= |pieces| && Distinct(units) && NoneBlank(units)
    ensures var kept := KeepFirst(units, pieces, n);
      && Distinct(kept) && NoneBlank(kept) && units <= kept
      && (forall i :: 0 <= i < n && !Blank(pieces[i].text, JsSpace) ==> HasText(kept, pieces[i].text))
      && (forall u :: u in kept ==> u in units || u in pieces[..n])
  {
    if n > 0 {
      KeepFirstGood(units, pieces, n - 1);
      var kept := KeepFirst(units, pieces, n - 1);
      var p := pieces[n - 1];
      HasTextSnoc(kept, p);
      assert pieces[..n] == pieces[..n - 1] + [p];
      forall k | 0 <= k < |kept| && !HasText(kept, p.text) ensures kept[k].text != p.text { }
    }
  }

  lemma {:induction false} UnitsGood(batches: seq<seq<ScanUnit>>, n: nat)
    requires n <= |batches|
    ensures Distinct(UnitsOf(batches, n)) && NoneBlank(UnitsOf(batches, n))
  {
    if n > 0 {
      UnitsGood(batches, n - 1);
      KeepFirstGood(UnitsOf(batches, n - 1), batches[n - 1], |batches[n - 1]|);
    }
  }

  /** Every non-blank piece is sent... */
  lemma {:induction false} UnitsComplete(batches: seq<seq<ScanUnit>>, n: nat, j: nat, p: ScanUnit)
    requires j < n <= |batches| && p in batches[j] && !Blank(p.text, JsSpace)
    ensures HasText(UnitsOf(batches, n), p.text)
  {
    var before, batch := UnitsOf(batches, n - 1), batches[n - 1];
    UnitsGood(batches, n - 1);
    KeepFirstGood(before, batch, |batch|);
    if j == n - 1 {
      var i :| 0 <= i < |batch| && batch[i] == p;
    } else {
      UnitsComplete(batches, n - 1, j, p);
      var k :| 0 <= k < |before| && before[k].text == p.text;
      assert UnitsOf(batches, n)[k] == before[k];
    }
  }

  /** ... and nothing else is. */
  lemma {:induction false} UnitsSound(batches: seq<seq<ScanUnit>>, n: nat, u: ScanUnit)
    requires n <= |batches| && u in UnitsOf(batches, n)
    ensures exists j :: 0 <= j < n && u in batches[j]
  {
    var before, batch := UnitsOf(batches, n - 1), batches[n - 1];
    UnitsGood(batches, n - 1);
    KeepFirstGood(before, batch, |batch|);
    assert batch[..|batch|] == batch;
    if u !in batch {
      UnitsSound(batches, n - 1, u);
    }
  }

  // ---- the gate ---------------------------------------------------------------------------

  datatype Level = Clean | Warn | Abort

  /** What one call of the scanner gives: a verdict, or an error that propagates (an outage of the
      service, or anything else). */
  datatype Answer = Verdict(level: Level) | ScannerError(outage: bool)

  datatype AbortedAt = Nowhere | At(unit: ScanUnit)

  datatype GateScan = GateScan(scanned: nat, abort: AbortedAt, warnings: seq<ScanUnit>) | Thrown(outage: bool)

  predicate Passed(a: Answer) { a.Verdict? && a.level != Abort }

  ghost predicate PassedFirst(answer: nat -> Answer, n: nat) {
    forall k: nat :: k < n ==> Passed(answer(k))
  }

  /** The units among the first n that were answered with a warning, in scan order. */
  function Warned(units: seq<ScanUnit>, answer: nat -> Answer, n: nat): seq<ScanUnit>
    requires n <= |units|
  {
    if n == 0 then []
    else Warned(units, answer, n - 1) + if answer(n - 1) == Verdict(Warn) then [units[n - 1]] else []
  }

  /** The positions among the first n that were answered with a warning. */
  function WarnedAt(answer: nat -> Answer, n: nat): seq<nat> {
    if n == 0 then [] else WarnedAt(answer, n - 1) + if answer(n - 1) == Verdict(Warn) then [n - 1] else []
  }

  lemma {:induction false} WarnedPositions(answer: nat -> Answer, n: nat)
    ensures forall k: nat :: k in WarnedAt(answer, n) <==> k < n && answer(k) == Verdict(Warn)
    ensures forall i, j :: 0 <= i < j < |WarnedAt(answer, n)| ==> WarnedAt(answer, n)[i] < WarnedAt(answer, n)[j]
  {
    if n > 0 {
      WarnedPositions(answer, n - 1);
      var before := WarnedAt(answer, n - 1);
      assert forall i :: 0 <= i < |before| ==> before[i] in before;
    }
  }

  /** The units are listed by increasing position. */
  lemma {:induction false} WarnedInOrder(units: seq<ScanUnit>, answer: nat -> Answer, n: nat)
    requires n <= |units|
    ensures |WarnedAt(answer, n)| == |Warned(units, answer, n)|
    ensures forall i :: 0 <= i < |WarnedAt(answer, n)| ==>
      WarnedAt(answer, n)[i] < n && Warned(units, answer, n)[i] == units[WarnedAt(answer, n)[i]]
  {
    if n > 0 {
      WarnedInOrder(units, answer, n - 1);
    }
  }

  lemma WarnedExactly(units: seq<ScanUnit>, answer: nat -> Answer, n: nat)
    requires n <= |units|
    ensures forall u ::
      u in Warned(units, answer, n) <==> exists k: nat :: k < n && answer(k) == Verdict(Warn) && units[k] == u
    ensures Warned(units, answer, n) != [] <==> exists k: nat :: k < n && answer(k) == Verdict(Warn)
  {
    WarnedInOrder(units, answer, n);
    WarnedPositions(answer, n);
    var at := WarnedAt(answer, n);
    var warned := Warned(units, answer, n);
    forall u | u in warned ensures exists k: nat :: k < n && answer(k) == Verdict(Warn) && units[k] == u {
      var i :| 0 <= i < |warned| && warned[i] == u;
      assert at[i] in at;
    }
    forall k: nat | k < n && answer(k) == Verdict(Warn) ensures units[k] in warned {
      var i :| 0 <= i < |at| && at[i] == k;
      assert warned[i] == units[k];
    }
    if warned != [] {
      assert at[0] in at;
    }
  }

  /** What a gate gives that has passed the first k units. */
  function GateFrom(units: seq<ScanUnit>, answer: nat -> Answer, k: nat): GateScan
    requires k <= |units|
    decreases |units| - k
  {
    if k == |units| then GateScan(k, Nowhere, Warned(units, answer, k))
    else if answer(k).ScannerError? then Thrown(answer(k).outage)
    else if answer(k).level == Abort then GateScan(k + 1, At(units[k]), Warned(units, answer, k))
    else GateFrom(units, answer, k + 1)
  }

  /** The first answer that is no pass decides. */
  lemma {:induction false} FirstDecides(units: seq<ScanUnit>, answer: nat -> Answer, k: nat, n: nat)
    requires k <= n <= |units| && (forall j: nat :: k <= j < n ==> Passed(answer(j)))
    ensures GateFrom(units, answer, k) == GateFrom(units, answer, n)
    decreases n - k
  {
    if k < n {
      FirstDecides(units, answer, k + 1, n);
    }
  }

  /** scanGate; `answer(k)` is what the k-th call of the scanner returns. */
  method RunGate(units: seq<ScanUnit>, answer: nat -> Answer) returns (r: GateScan)
    ensures r == GateFrom(units, answer, 0)
    ensures r.GateScan? && r.abort.Nowhere? ==>
      && PassedFirst(answer, |units|) && r.scanned == |units| && r.warnings == Warned(units, answer, |units|)
    ensures r.GateScan? && r.abort.At? ==>
      && 0 < r.scanned <= |units| && PassedFirst(answer, r.scanned - 1)
      && answer(r.scanned - 1) == Verdict(Abort) && r.abort.unit == units[r.scanned - 1]
      && r.warnings == Warned(units, answer, r.scanned - 1)
    ensures r.Thrown? ==> exists k: nat :: k < |units| && PassedFirst(answer, k) && answer(k) == ScannerError(r.outage)
  {
    var warnings: seq<ScanUnit> := [];
    for k := 0 to |units|
      invariant PassedFirst(answer, k)
      invariant warnings == Warned(units, answer, k) && GateFrom(units, answer, 0) == GateFrom(units, answer, k)
    {
      var verdict := answer(k);
      if verdict.ScannerError? {
        return Thrown(verdict.outage);
      }
      if verdict.level == Abort {
        return GateScan(k + 1, At(units[k]), warnings);
      }
      if verdict.level == Warn {
        warnings := warnings + [units[k]];
      }
    }
    return GateScan(|units|, Nowhere, warnings);
  }

  // ---- what "no abort" means ---------------------------------------------------------------

  ghost predicate HoldsAt(text: Text, off: nat, piece: Text) {
    off + |piece| <= |text| && text[off..off + |piece|] == piece
  }

  /** `piece` lies whole inside a unit whose analysis was run and was not an abort. */
  ghost predicate SeenWhole(units: seq<ScanUnit>, answer: nat -> Answer, piece: Text) {
    exists k: nat, off: nat :: k < |units| && HoldsAt(units[k].text, off, piece) && Passed(answer(k))
  }

  /** text[a..b] is a short piece with something to read in it. */
  ghost predicate Phrase(text: Text, overlap: nat, a: nat, b: nat) {
    ShortPiece(text, overlap, a, b) && !Blank(text[a..b], JsSpace)
  }

  /** The k-th span of a text. */
  ghost predicate IsSpan(text: Text, maxChars: nat, overlap: nat, k: nat, span: Span)
    requires Cuttable(text, JsSpace, maxChars, overlap)
  {
    k < |Spans(text, JsSpace, maxChars, overlap)| && Spans(text, JsSpace, maxChars, overlap)[k] == span
  }

  lemma PhraseInSpan(text: Text, maxChars: nat, overlap: nat, a: nat, b: nat) returns (k: nat, span: Span)
    requires Cuttable(text, JsSpace, maxChars, overlap) && Overlapping(maxChars, overlap)
    requires ShortPiece(text, overlap, a, b)
    ensures IsSpan(text, maxChars, overlap, k, span) && span.start <= a <= b <= span.end <= |text|
  {
    ShortPieceCovered(text, JsSpace, maxChars, overlap, a, b);
    SpansGood(text, JsSpace, maxChars, overlap);
    var spans := Spans(text, JsSpace, maxChars, overlap);
    k :| 0 <= k < |spans| && spans[k].start <= a && b <= spans[k].end;
    span := spans[k];
  }

  lemma PieceAt(seg: Segment, maxChars: nat, overlap: nat, k: nat, span: Span) returns (piece: ScanUnit)
    requires Cuttable(seg.text, JsSpace, maxChars, overlap) && IsSpan(seg.text, maxChars, overlap, k, span)
    ensures piece in Pieces(seg, maxChars, overlap) && piece.text == SpanText(seg.text, span)
  {
    piece := Pieces(seg, maxChars, overlap)[k];
  }

  lemma PhraseInPiece(seg: Segment, maxChars: nat, overlap: nat, a: nat, b: nat) returns (piece: ScanUnit, off: nat)
    requires Cuttable(seg.text, JsSpace, maxChars, overlap) && Overlapping(maxChars, overlap)
    requires Phrase(seg.text, overlap, a, b)
    ensures piece in Pieces(seg, maxChars, overlap) && !Blank(piece.text, JsSpace)
    ensures HoldsAt(piece.text, off, seg.text[a..b])
  {
    var k, span := PhraseInSpan(seg.text, maxChars, overlap, a, b);
    SliceHolds(seg.text, span, a, b);
    piece := PieceAt(seg, maxChars, overlap, k, span);
    off := a - span.start;
  }

  lemma SliceHolds(text: Text, span: Span, a: nat, b: nat)
    requires span.start <= a <= b <= span.end <= |text|
    ensures HoldsAt(SpanText(text, span), a - span.start, text[a..b])
    ensures !Blank(text[a..b], JsSpace) ==> !Blank(SpanText(text, span), JsSpace)
  {
    var slice, off := SpanText(text, span), a - span.start;
    assert slice == text[span.start..span.end];
    forall k | 0 <= k < b - a ensures slice[off + k] == text[a..b][k] {
      assert slice[off + k] == text[span.start + (off + k)];
    }
    assert slice[off..off + (b - a)] == text[a..b];
    if !Blank(text[a..b], JsSpace) {
      var i :| 0 <= i < b - a && !JsSpace(text[a..b][i]);
      assert slice[off + i] == text[a..b][i];
    }
  }

  /** If the gate lets the segments through, every phrase of every segment was seen whole by
      an analysis that did not abort. */
  lemma NoAbortSeesEveryPhrase(segments: seq<Segment>, maxChars: nat, overlap: nat, answer: nat -> Answer, s: nat,
                               a: nat, b: nat)
    requires AllCuttable(segments, maxChars, overlap) && Overlapping(maxChars, overlap)
    requires PassedFirst(answer, |UnitsFor(segments, maxChars, overlap)|)
    requires s < |segments| && Phrase(segments[s].text, overlap, a, b)
    ensures SeenWhole(UnitsFor(segments, maxChars, overlap), answer, segments[s].text[a..b])
  {
    var units := UnitsFor(segments, maxChars, overlap);
    var piece, off := PhraseInPiece(segments[s], maxChars, overlap, a, b);
    UnitsComplete(Batches(segments, maxChars, overlap), |segments|, s, piece);
    var k: nat :| k < |units| && units[k].text == piece.text;
    assert Passed(answer(k));
  }

  lemma DefaultsCut(segments: seq<Segment>)
    ensures AllCuttable(segments, CHUNK_CHARS, CHUNK_OVERLAP)
    ensures Overlapping(CHUNK_CHARS, CHUNK_OVERLAP)
  {
  }

  ghost function DefaultUnits(segments: seq<Segment>): seq<ScanUnit> {
    DefaultsCut(segments);
    UnitsFor(segments, CHUNK_CHARS, CHUNK_OVERLAP)
  }

  /** Every phrase of every segment was seen whole by an analysis that did not abort. */
  ghost predicate EveryPhraseSeen(segments: seq<Segment>, answer: nat -> Answer) {
    forall s: nat, a: nat, b: nat :: s < |segments| && Phrase(segments[s].text, CHUNK_OVERLAP, a, b) ==>
      SeenWhole(DefaultUnits(segments), answer, segments[s].text[a..b])
  }

  predicate Clear(gate: GateScan) { gate.GateScan? && gate.abort.Nowhere? }

  predicate Detected(gate: GateScan) { gate.GateScan? && gate.abort.At? }

  /** What the outcome of a gate says about the segments it was given. */
  ghost predicate GateMeans(segments: seq<Segment>, answer: nat -> Answer, gate: GateScan) {
    && (Clear(gate) ==> EveryPhraseSeen(segments, answer))
    && (Detected(gate) ==>
          && 0 < gate.scanned <= |DefaultUnits(segments)| && gate.abort.unit == DefaultUnits(segments)[gate.scanned - 1]
          && answer(gate.scanned - 1) == Verdict(Abort))
    && (gate.Thrown? ==> exists k: nat :: k < |DefaultUnits(segments)| && answer(k) == ScannerError(gate.outage))
  }

  predicate Look(i: int) { true }

  /** Stated under a trigger, so that the units are unfolded only where Look is mentioned. */
  ghost predicate IsGate(segments: seq<Segment>, answer: nat -> Answer, gate: GateScan) {
    forall i {:trigger Look(i)} :: Look(i) ==> gate == GateFrom(DefaultUnits(segments), answer, 0)
  }

  /** The outcome of a gate for its segments. */
  ghost function GateOf(segments: seq<Segment>, answer: nat -> Answer): (gate: GateScan)
    ensures IsGate(segments, answer, gate)
  {
    assert IsGate(segments, answer, GateFrom(DefaultUnits(segments), answer, 0));
    var gate :| IsGate(segments, answer, gate);
    gate
  }

  lemma GateOfIs(segments: seq<Segment>, answer: nat -> Answer)
    ensures GateOf(segments, answer) == GateFrom(DefaultUnits(segments), answer, 0)
  {
    assert Look(0);
  }

  /** One gate as scanUntrusted runs it: cut with the defaults, then scan. */
  method GateSegments(segments: seq<Segment>, answer: nat -> Answer) returns (r: GateScan)
    ensures GateMeans(segments, answer, r) && r == GateOf(segments, answer)
  {
    DefaultsCut(segments);
    var cut := ScanUnits(segments, CHUNK_CHARS, CHUNK_OVERLAP);
    if segments == [] {
      assert UnitsFor(segments, CHUNK_CHARS, CHUNK_OVERLAP) == UnitsOf([], 0);
    }
    assert cut.units == DefaultUnits(segments);
    r := RunGate(cut.units, answer);
    GateOfIs(segments, answer);
    if Clear(r) {
      forall s: nat, a: nat, b: nat | s < |segments| && Phrase(segments[s].text, CHUNK_OVERLAP, a, b)
        ensures SeenWhole(DefaultUnits(segments), answer, segments[s].text[a..b])
      {
        NoAbortSeesEveryPhrase(segments, CHUNK_CHARS, CHUNK_OVERLAP, answer, s, a, b);
      }
    }
  }
}
