/** The text chunker: the runner's chunkSpans, its Python port used for calibration,
    and what every cut of every text satisfies. */
module Chunking {
  import opened Text

  datatype Span = Span(start: nat, end: nat)

  /** The text of a span. */
  function SpanText(text: Text, span: Span): Text {
    if span.start <= span.end <= |text| then text[span.start..span.end] else []
  }

  datatype ChunkResult = Chunks(spans: seq<Span>) | InvalidChunking

  predicate ValidParams(maxChars: int, overlap: int) {
    0 < maxChars && 0 <= overlap < maxChars
  }

  /** Where the search for a whitespace cut stops: floor(0.8 * maxChars) into the window. */
  function CutFrom(maxChars: nat): nat { maxChars * 4 / 5 }

  /** One past the last whitespace in text[from..hi], or -1. */
  function LastWhitespace(text: Text, space: SpaceClass, from: nat, hi: nat): (at: int)
    requires hi <= |text|
    ensures at == -1 || (from < at <= hi && space(text[at - 1]))
    decreases hi
  {
    if hi <= from then -1
    else if space(text[hi - 1]) then hi
    else LastWhitespace(text, space, from, hi - 1)
  }

  lemma {:induction false} LastWhitespaceIsLast(text: Text, space: SpaceClass, from: nat, hi: nat)
    requires hi <= |text|
    ensures forall i :: from <= i < hi && LastWhitespace(text, space, from, hi) <= i ==> !space(text[i])
    decreases hi
  {
    if from < hi && !space(text[hi - 1]) {
      LastWhitespaceIsLast(text, space, from, hi - 1);
    }
  }

  /** End of the window that starts at `start`. */
  function WindowEnd(text: Text, space: SpaceClass, maxChars: nat, start: nat): (end: nat)
    requires 0 < maxChars && start < |text|
    ensures end <= |text| && end - start <= maxChars
    ensures SparesSurrogates(space) ==>
      start <= end && (start == end ==> maxChars == 1 && start < |text| - 1 && IsHighSurrogate(text[start]))
    ensures end < |text| && SparesSurrogates(space)
      ==> CutFrom(maxChars) + 1 <= end - start || maxChars - 1 <= end - start
    ensures !SplitsPair(text, end)
  {
    var full := if start + maxChars <= |text| then start + maxChars else |text|;
    if full == |text| then full
    else
      var ws := LastWhitespace(text, space, start + CutFrom(maxChars), full);
      var end := if ws > start then ws else full;
      if IsHighSurrogate(text[end - 1]) then end - 1 else end
  }

  /** Start of the window after [start, end). */
  function NextStart(text: Text, overlap: nat, start: nat, end: nat): (next: nat)
    requires end < |text|
    ensures next <= |text| && next <= end + 1
    ensures start <= end ==> start <= next
    ensures start < end ==> start < next
    ensures overlap + start < end ==> end - overlap <= next <= end - overlap + 1
    ensures overlap + start < end && 0 < overlap ==> next <= end
    ensures overlap + start < end && !IsLowSurrogate(text[end - overlap]) ==> next == end - overlap
    ensures !SplitsPair(text, next)
  {
    var next := if end - overlap <= start then end else end - overlap;
    if IsLowSurrogate(text[next]) then next + 1 else next
  }

  /** The chunker makes progress on `text`: with windows of one unit a high surrogate
      before the last unit stops it for ever (NeverLeaves). */
  predicate Progresses(text: Text, maxChars: nat) {
    2 <= maxChars || forall i :: 0 <= i < |text| - 1 ==> !IsHighSurrogate(text[i])
  }

  ghost predicate Cuttable(text: Text, space: SpaceClass, maxChars: int, overlap: int) {
    ValidParams(maxChars, overlap) && SparesSurrogates(space) && Progresses(text, maxChars)
  }

  ghost function SpansFrom(text: Text, space: SpaceClass, maxChars: nat, overlap: nat, start: nat): seq<Span>
    requires Cuttable(text, space, maxChars, overlap)
    decreases |text| - start
  {
    if start >= |text| then []
    else
      var end := WindowEnd(text, space, maxChars, start);
      [Span(start, end)] +
      if end >= |text| then [] else SpansFrom(text, space, maxChars, overlap, NextStart(text, overlap, start, end))
  }

  ghost function Spans(text: Text, space: SpaceClass, maxChars: nat, overlap: nat): seq<Span>
    requires Cuttable(text, space, maxChars, overlap)
  {
    if |text| <= maxChars then [Span(0, |text|)] else SpansFrom(text, space, maxChars, overlap, 0)
  }

  /** lastWhitespace: the loop that finds the cut. */
  method FindLastWhitespace(text: Text, space: SpaceClass, from: nat, hi: nat) returns (at: int)
    requires hi <= |text|
    ensures at == LastWhitespace(text, space, from, hi)
  {
    var i := hi;
    while i > from
      invariant 0 <= i <= hi
      invariant LastWhitespace(text, space, from, hi) == LastWhitespace(text, space, from, i)
    {
      if space(text[i - 1]) {
        return i;
      }
      i := i - 1;
    }
    return -1;
  }

  /** The end of one window, as the loop body of chunkSpans computes it. */
  method CutWindow(text: Text, space: SpaceClass, maxChars: nat, start: nat) returns (end: nat)
    requires 0 < maxChars && start < |text|
    ensures end == WindowEnd(text, space, maxChars, start)
  {
    end := if start + maxChars <= |text| then start + maxChars else |text|;
    if end < |text| {
      var ws := FindLastWhitespace(text, space, start + CutFrom(maxChars), end);
      if ws > start {
        end := ws;
      }
      if IsHighSurrogate(text[end - 1]) {
        end := end - 1;
      }
    }
  }

  /** The start of the following window, as the loop body of chunkSpans computes it. */
  method AdvanceStart(text: Text, overlap: nat, start: nat, end: nat) returns (next: nat)
    requires end < |text|
    ensures next == NextStart(text, overlap, start, end)
  {
    var candidate := end - overlap;
    if candidate <= start {
      candidate := end;
    }
    if IsLowSurrogate(text[candidate]) {
      candidate := candidate + 1;
    }
    next := candidate;
  }

  /** chunkSpans. */
  method ChunkSpans(text: Text, space: SpaceClass, maxChars: int, overlap: int) returns (r: ChunkResult)
    requires ValidParams(maxChars, overlap) ==> Cuttable(text, space, maxChars, overlap)
    ensures r.InvalidChunking? <==> !ValidParams(maxChars, overlap)
    ensures r.Chunks? ==> r.spans == Spans(text, space, maxChars, overlap)
  {
    if maxChars <= 0 || overlap < 0 || overlap >= maxChars {
      return InvalidChunking;
    }
    if |text| <= maxChars {
      return Chunks([Span(0, |text|)]);
    }
    var spans: seq<Span> := [];
    var start: nat := 0;
    while start < |text|
      invariant spans + SpansFrom(text, space, maxChars, overlap, start) == Spans(text, space, maxChars, overlap)
    {
      ghost var before := spans;
      var end := CutWindow(text, space, maxChars, start);
      spans := spans + [Span(start, end)];
      if end >= |text| {
        return Chunks(spans);
      }
      Unroll(text, space, maxChars, overlap, start, before);
      start := AdvanceStart(text, overlap, start, end);
    }
    return Chunks(spans);
  }

  lemma Unroll(text: Text, space: SpaceClass, maxChars: nat, overlap: nat, start: nat, before: seq<Span>)
    requires Cuttable(text, space, maxChars, overlap) && start < |text|
    requires WindowEnd(text, space, maxChars, start) < |text|
    ensures var end := WindowEnd(text, space, maxChars, start);
      before + SpansFrom(text, space, maxChars, overlap, start) ==
      before + [Span(start, end)] + SpansFrom(text, space, maxChars, overlap, NextStart(text, overlap, start, end))
  {
  }

  // ---- why Progresses is needed -------------------------------------------------------

  /** `start` at the head of iteration n of the loop, as long as no iteration broke out. */
  ghost function StartAt(text: Text, space: SpaceClass, n: nat): (start: nat)
    requires SparesSurrogates(space)
    ensures start <= |text|
  {
    if n == 0 then 0
    else
      var start := StartAt(text, space, n - 1);
      if start >= |text| then start
      else
        var end := WindowEnd(text, space, 1, start);
        if end >= |text| then |text| else NextStart(text, 0, start, end)
  }

  lemma StuckStep(text: Text, space: SpaceClass, high: nat, start: nat)
    requires SparesSurrogates(space)
    requires start <= high < |text| - 1 && IsHighSurrogate(text[high])
    ensures var end := WindowEnd(text, space, 1, start);
      end < |text| && NextStart(text, 0, start, end) <= high
  {
    if start == high {
      assert LastWhitespace(text, space, start, start + 1) == -1;
    }
  }

  /** With one-unit windows, a high surrogate before the last unit is never passed:
      the loop runs for ever. Together with ChunkSpans this makes Progresses exact. */
  lemma {:induction false} NeverLeaves(text: Text, space: SpaceClass, high: nat, n: nat)
    requires SparesSurrogates(space)
    requires high < |text| - 1 && IsHighSurrogate(text[high])
    ensures StartAt(text, space, n) <= high
    ensures WindowEnd(text, space, 1, StartAt(text, space, n)) < |text|
  {
    if n > 0 {
      NeverLeaves(text, space, high, n - 1);
      StuckStep(text, space, high, StartAt(text, space, n - 1));
    }
    StuckStep(text, space, high, StartAt(text, space, n));
  }

  // ---- what every cut satisfies ---------------------------------------------------------

  ghost predicate GoodSpans(text: Text, maxChars: nat, spans: seq<Span>) {
    && (forall k :: 0 <= k < |spans| ==>
         && spans[k].start <= spans[k].end <= |text|
         && spans[k].end - spans[k].start <= maxChars
         && !SplitsPair(text, spans[k].start) && !SplitsPair(text, spans[k].end))
    && (forall j, k :: 0 <= j < k < |spans| ==> spans[j].start < spans[k].start)
  }

  lemma GoodCons(text: Text, maxChars: nat, first: Span, rest: seq<Span>)
    requires GoodSpans(text, maxChars, [first]) && GoodSpans(text, maxChars, rest)
    requires forall k :: 0 <= k < |rest| ==> first.start < rest[k].start
    ensures GoodSpans(text, maxChars, [first] + rest)
  {
    var all := [first] + rest;
    assert forall k :: 0 <= k < |all| ==> all[k] == if k == 0 then [first][0] else rest[k - 1];
  }

  lemma {:induction false} SpansFromGood(text: Text, space: SpaceClass, maxChars: nat, overlap: nat, start: nat)
    requires Cuttable(text, space, maxChars, overlap)
    requires !SplitsPair(text, start)
    ensures var spans := SpansFrom(text, space, maxChars, overlap, start);
      && GoodSpans(text, maxChars, spans)
      && forall k :: 0 <= k < |spans| ==> start <= spans[k].start < spans[k].end
    decreases |text| - start
  {
    if start < |text| {
      var end := WindowEnd(text, space, maxChars, start);
      if end < |text| {
        var next := NextStart(text, overlap, start, end);
        SpansFromGood(text, space, maxChars, overlap, next);
        GoodCons(text, maxChars, Span(start, end), SpansFrom(text, space, maxChars, overlap, next));
      }
    }
  }

  /** Spans are bounded, start in strictly increasing order and never cut a surrogate pair. */
  lemma SpansGood(text: Text, space: SpaceClass, maxChars: nat, overlap: nat)
    requires Cuttable(text, space, maxChars, overlap)
    ensures var spans := Spans(text, space, maxChars, overlap);
      && GoodSpans(text, maxChars, spans) && spans != [] && spans[0].start == 0
  {
    SpansFromGood(text, space, maxChars, overlap, 0);
  }

  ghost predicate Covered(spans: seq<Span>, a: nat, b: nat) {
    exists k :: 0 <= k < |spans| && spans[k].start <= a && b <= spans[k].end
  }

  lemma CoveredTail(first: Span, rest: seq<Span>, a: nat, b: nat)
    requires Covered(rest, a, b)
    ensures Covered([first] + rest, a, b)
  {
    var k :| 0 <= k < |rest| && rest[k].start <= a && b <= rest[k].end;
    assert ([first] + rest)[k + 1] == rest[k];
  }

  /** No unit of a well-formed text is lost, whatever the overlap. */
  lemma {:induction false} EveryUnitCoveredFrom(text: Text, space: SpaceClass, maxChars: nat, overlap: nat, start: nat,
                                                i: nat)
    requires Cuttable(text, space, maxChars, overlap)
    requires WellFormed(text) && start <= i < |text|
    ensures Covered(SpansFrom(text, space, maxChars, overlap, start), i, i + 1)
    decreases |text| - start
  {
    var spans := SpansFrom(text, space, maxChars, overlap, start);
    var end := WindowEnd(text, space, maxChars, start);
    assert spans[0] == Span(start, end);
    if end <= i {
      var next := NextStart(text, overlap, start, end);
      EveryUnitCoveredFrom(text, space, maxChars, overlap, next, i);
      CoveredTail(Span(start, end), SpansFrom(text, space, maxChars, overlap, next), i, i + 1);
    }
  }

  lemma EveryUnitCovered(text: Text, space: SpaceClass, maxChars: nat, overlap: nat, i: nat)
    requires Cuttable(text, space, maxChars, overlap)
    requires WellFormed(text) && i < |text|
    ensures Covered(Spans(text, space, maxChars, overlap), i, i + 1)
  {
    var spans := Spans(text, space, maxChars, overlap);
    if |text| <= maxChars {
      assert spans[0] == Span(0, |text|);
    } else {
      EveryUnitCoveredFrom(text, space, maxChars, overlap, 0, i);
    }
  }

  /** Parameters for which every window but the last is longer than the overlap. */
  predicate Overlapping(maxChars: nat, overlap: nat) {
    0 < overlap <= CutFrom(maxChars) && overlap + 2 <= maxChars
  }

  /** A piece short enough to be seen whole: the overlap, or one unit more if it does not
      begin in the middle of a surrogate pair. */
  predicate ShortPiece(text: Text, overlap: nat, a: nat, b: nat) {
    && a <= b <= |text|
    && (b - a <= overlap || (b - a == overlap + 1 && !IsLowSurrogate(text[a])))
  }

  lemma {:induction false} ShortPieceCoveredFrom(text: Text, space: SpaceClass, maxChars: nat, overlap: nat,
                                                 start: nat, a: nat, b: nat)
    requires Cuttable(text, space, maxChars, overlap) && Overlapping(maxChars, overlap)
    requires ShortPiece(text, overlap, a, b) && start <= a && start < |text|
    ensures Covered(SpansFrom(text, space, maxChars, overlap, start), a, b)
    decreases |text| - start
  {
    var spans := SpansFrom(text, space, maxChars, overlap, start);
    var end := WindowEnd(text, space, maxChars, start);
    assert spans[0] == Span(start, end);
    if end < b {
      var next := NextStart(text, overlap, start, end);
      ShortPieceCoveredFrom(text, space, maxChars, overlap, next, a, b);
      CoveredTail(Span(start, end), SpansFrom(text, space, maxChars, overlap, next), a, b);
    }
  }

  /** A phrase cut by one boundary is seen whole in the next window: every short piece of
      every text, well-formed or not, lies inside one span. */
  lemma ShortPieceCovered(text: Text, space: SpaceClass, maxChars: nat, overlap: nat, a: nat, b: nat)
    requires Cuttable(text, space, maxChars, overlap) && Overlapping(maxChars, overlap)
    requires ShortPiece(text, overlap, a, b)
    ensures Covered(Spans(text, space, maxChars, overlap), a, b)
  {
    var spans := Spans(text, space, maxChars, overlap);
    if |text| <= maxChars {
      assert spans[0] == Span(0, |text|);
    } else {
      ShortPieceCoveredFrom(text, space, maxChars, overlap, 0, a, b);
    }
  }

  // ---- the Python port used for calibration ---------------------------------------------

  function PyWindowEnd(text: Text, space: SpaceClass, maxChars: nat, start: nat): (end: nat)
    requires 0 < maxChars && start < |text|
    ensures start < end <= |text|
  {
    var full := if start + maxChars <= |text| then start + maxChars else |text|;
    if full == |text| then full
    else
      var ws := LastWhitespace(text, space, start + CutFrom(maxChars), full);
      if ws > start then ws else full
  }

  function PyNextStart(overlap: nat, start: nat, end: nat): (next: nat)
    requires start < end
    ensures start < next <= end
  {
    if end - overlap > start then end - overlap else end
  }

  ghost function PySpansFrom(text: Text, space: SpaceClass, maxChars: nat, overlap: nat, start: nat): seq<Span>
    requires ValidParams(maxChars, overlap)
    decreases |text| - start
  {
    if start >= |text| then []
    else
      var end := PyWindowEnd(text, space, maxChars, start);
      [Span(start, end)] +
      if end >= |text| then [] else PySpansFrom(text, space, maxChars, overlap, PyNextStart(overlap, start, end))
  }

  ghost function PySpans(text: Text, space: SpaceClass, maxChars: nat, overlap: nat): seq<Span>
    requires ValidParams(maxChars, overlap)
  {
    if |text| <= maxChars then [Span(0, |text|)] else PySpansFrom(text, space, maxChars, overlap, 0)
  }

  method PyCutWindow(text: Text, space: SpaceClass, maxChars: nat, start: nat) returns (end: nat)
    requires 0 < maxChars && start < |text|
    ensures end == PyWindowEnd(text, space, maxChars, start)
  {
    end := if start + maxChars <= |text| then start + maxChars else |text|;
    if end < |text| {
      var ws := FindLastWhitespace(text, space, start + CutFrom(maxChars), end);
      if ws > start {
        end := ws;
      }
    }
  }

  /** chunk_spans of the corpus builder. */
  method PyChunkSpans(text: Text, space: SpaceClass, maxChars: nat, overlap: nat) returns (spans: seq<Span>)
    requires ValidParams(maxChars, overlap)
    ensures spans == PySpans(text, space, maxChars, overlap)
  {
    if |text| <= maxChars {
      return [Span(0, |text|)];
    }
    spans := [];
    var start: nat := 0;
    while start < |text|
      invariant spans + PySpansFrom(text, space, maxChars, overlap, start) == PySpans(text, space, maxChars, overlap)
    {
      ghost var before := spans;
      var end := PyCutWindow(text, space, maxChars, start);
      spans := spans + [Span(start, end)];
      if end >= |text| {
        break;
      }
      PyUnroll(text, space, maxChars, overlap, start, before);
      start := PyNextStart(overlap, start, end);
    }
  }

  lemma PyUnroll(text: Text, space: SpaceClass, maxChars: nat, overlap: nat, start: nat, before: seq<Span>)
    requires ValidParams(maxChars, overlap) && start < |text|
    requires PyWindowEnd(text, space, maxChars, start) < |text|
    ensures var end := PyWindowEnd(text, space, maxChars, start);
      before + PySpansFrom(text, space, maxChars, overlap, start) ==
      before + [Span(start, end)] + PySpansFrom(text, space, maxChars, overlap, PyNextStart(overlap, start, end))
  {
  }

  /** Two whitespace classes no unit of the text tells apart. */
  predicate SameSpaces(text: Text, s1: SpaceClass, s2: SpaceClass) {
    forall i :: 0 <= i < |text| ==> s1(text[i]) == s2(text[i])
  }

  lemma {:induction false} SameLastWhitespace(text: Text, s1: SpaceClass, s2: SpaceClass, from: nat, hi: nat)
    requires hi <= |text| && SameSpaces(text, s1, s2)
    ensures LastWhitespace(text, s1, from, hi) == LastWhitespace(text, s2, from, hi)
    decreases hi
  {
    if from < hi {
      SameLastWhitespace(text, s1, s2, from, hi - 1);
    }
  }

  lemma SameStep(text: Text, js: SpaceClass, py: SpaceClass, maxChars: nat, overlap: nat, start: nat)
    requires Cuttable(text, js, maxChars, overlap) && start < |text|
    requires SurrogateFree(text) && SameSpaces(text, js, py)
    ensures var end := WindowEnd(text, js, maxChars, start);
      && PyWindowEnd(text, py, maxChars, start) == end
      && (end < |text| ==> PyNextStart(overlap, start, end) == NextStart(text, overlap, start, end))
  {
    var full := if start + maxChars <= |text| then start + maxChars else |text|;
    SameLastWhitespace(text, js, py, start + CutFrom(maxChars), full);
  }

  lemma {:induction false} PortAgreesFrom(text: Text, js: SpaceClass, py: SpaceClass, maxChars: nat, overlap: nat,
                                          start: nat)
    requires Cuttable(text, js, maxChars, overlap)
    requires SurrogateFree(text) && SameSpaces(text, js, py)
    ensures PySpansFrom(text, py, maxChars, overlap, start) == SpansFrom(text, js, maxChars, overlap, start)
    decreases |text| - start
  {
    if start < |text| {
      SameStep(text, js, py, maxChars, overlap, start);
      var end := WindowEnd(text, js, maxChars, start);
      if end < |text| {
        PortAgreesFrom(text, js, py, maxChars, overlap, NextStart(text, overlap, start, end));
      }
    }
  }

  /** The calibration cuts a text exactly as the runner will. */
  lemma PortAgrees(text: Text, js: SpaceClass, py: SpaceClass, maxChars: nat, overlap: nat)
    requires Cuttable(text, js, maxChars, overlap)
    requires SurrogateFree(text) && SameSpaces(text, js, py)
    ensures PySpans(text, py, maxChars, overlap) == Spans(text, js, maxChars, overlap)
  {
    PortAgreesFrom(text, js, py, maxChars, overlap, 0);
  }
}
