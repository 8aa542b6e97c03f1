/** The word and sentence split shared by the corpus builder and the runtime query. */
module Sentences {
  import opened Text
  import opened Chunking
  import opened Sequences

  const MAX_SENTENCE_WORDS: nat := 40
  const MIN_SENTENCE_WORDS: nat := 3
  const MAX_SENTENCES: nat := 40

  // ---- str.split ----------------------------------------------------------------------------

  /** The first position from p on whose unit is (or is not) whitespace. */
  function RunEnd(text: Text, p: nat, spaces: bool): (e: nat)
    requires p <= |text|
    ensures p <= e <= |text|
    ensures forall i :: p <= i < e ==> PySpace(text[i]) == spaces
    ensures e < |text| ==> PySpace(text[e]) != spaces
    decreases |text| - p
  {
    if p == |text| || PySpace(text[p]) != spaces then p else RunEnd(text, p + 1, spaces)
  }

  /** text.split(). */
  function Words(text: Text): seq<Text> {
    if text == [] then []
    else if PySpace(text[0]) then Words(text[1..])
    else
      var e := RunEnd(text, 0, false);
      [text[..e]] + Words(text[e..])
  }

  predicate IsWord(w: Text) { w != [] && forall i :: 0 <= i < |w| ==> !PySpace(w[i]) }

  lemma {:induction false} WordsAreWords(text: Text)
    ensures forall w :: w in Words(text) ==> IsWord(w)
  {
    if text != [] {
      WordsAreWords(text[if PySpace(text[0]) then 1 else RunEnd(text, 0, false)..]);
    }
  }

  /** " ".join(words). */
  function JoinWords(words: seq<Text>): Text {
    if words == [] then [] else if |words| == 1 then words[0] else words[0] + [0x20] + JoinWords(words[1..])
  }

  lemma FirstWord(text: Text, n: nat)
    requires 0 < n <= |text| && IsWord(text[..n]) && (n < |text| ==> PySpace(text[n]))
    ensures Words(text) == [text[..n]] + Words(text[n..])
  {
    forall i | 0 <= i < n ensures !PySpace(text[i]) {
      assert text[i] == text[..n][i];
    }
    assert RunEnd(text, 0, false) == n;
  }

  /** Splitting what was joined gives the words back. */
  lemma {:induction false} SplitJoin(words: seq<Text>)
    requires forall w :: w in words ==> IsWord(w)
    ensures Words(JoinWords(words)) == words
  {
    if words != [] {
      var w, text := words[0], JoinWords(words);
      assert IsWord(w);
      assert text[..|w|] == w;
      FirstWord(text, |w|);
      if |words| > 1 {
        SplitJoin(words[1..]);
        assert text[|w|..][1..] == JoinWords(words[1..]);
      }
    }
  }

  lemma {:induction false} BlankHasNoWords(text: Text)
    requires Blank(text, PySpace)
    ensures Words(text) == []
  {
    if text != [] {
      BlankHasNoWords(text[1..]);
    }
  }

  // ---- sentences ----------------------------------------------------------------------------

  const NEWLINE: CodeUnit := 0x0a

  predicate IsStop(c: CodeUnit) { c == 0x2e || c == 0x21 || c == 0x3f }

  function NewlinesEnd(text: Text, p: nat): (e: nat)
    requires p <= |text|
    ensures p <= e <= |text|
    ensures p < |text| && text[p] == NEWLINE ==> p < e
    ensures (forall i :: p <= i < e ==> text[i] == NEWLINE) && (e < |text| ==> text[e] != NEWLINE)
    decreases |text| - p
  {
    if p == |text| || text[p] != NEWLINE then p else NewlinesEnd(text, p + 1)
  }

  /** re.split of whitespace after . ! ? and of newlines: the parts from `start` on, p being the
      position the search has reached. */
  function PartsFrom(text: Text, start: nat, p: nat): seq<Text>
    requires start <= p <= |text|
    decreases |text| - p
  {
    if p == |text| then [text[start..]]
    else if p > 0 && IsStop(text[p - 1]) && PySpace(text[p]) then
      var e := RunEnd(text, p, true);
      [text[start..p]] + PartsFrom(text, e, e)
    else if text[p] == NEWLINE then
      var e := NewlinesEnd(text, p);
      [text[start..p]] + PartsFrom(text, e, e)
    else PartsFrom(text, start, p + 1)
  }

  function Parts(text: Text): seq<Text> { PartsFrom(text, 0, 0) }

  function Piece(words: seq<Text>, i: nat): Text
    requires i <= |words|
  {
    JoinWords(words[i..PieceEnd(words, i)])
  }

  /** The pieces of one part's words from word i on that are long enough. */
  function PiecesOf(words: seq<Text>, i: nat): seq<Text>
    decreases |words| - i
  {
    if i >= |words| then []
    else
      var piece := Piece(words, i);
      (if |Words(piece)| >= MIN_SENTENCE_WORDS then [piece] else []) + PiecesOf(words, i + MAX_SENTENCE_WORDS)
  }

  /** The sentences of one part. */
  function SentencesIn(part: Text): seq<Text> { PiecesOf(Words(part), 0) }

  /** The sentences of the first n parts. */
  function SentencesOfParts(parts: seq<Text>, n: nat): seq<Text>
    requires n <= |parts|
  {
    FlatUpTo(SentencesIn, parts, n)
  }

  function SentencesOf(text: Text): seq<Text> { SentencesOfParts(Parts(text), |Parts(text)|) }

  predicate SentenceSized(s: Text) { MIN_SENTENCE_WORDS <= |Words(s)| <= MAX_SENTENCE_WORDS }

  /** sentences(). */
  method SplitSentences(text: Text) returns (out: seq<Text>)
    ensures out == SentencesOf(text)
    ensures forall s :: s in out ==> SentenceSized(s)
  {
    var parts := Parts(text);
    out := [];
    for n := 0 to |parts|
      invariant out == SentencesOfParts(parts, n)
      invariant forall s :: s in out ==> SentenceSized(s)
    {
      WordsAreWords(parts[n]);
      var pieces := CutWords(Words(parts[n]));
      out := out + pieces;
    }
  }

  /** The inner loop of sentences(): 40 words at a time. */
  method CutWords(w: seq<Text>) returns (out: seq<Text>)
    requires forall x :: x in w ==> IsWord(x)
    ensures out == PiecesOf(w, 0)
    ensures forall s :: s in out ==> SentenceSized(s)
  {
    out := [];
    var i := 0;
    while i < |w|
      invariant 0 <= i
      invariant PiecesOf(w, 0) == out + PiecesOf(w, i)
      invariant forall s :: s in out ==> SentenceSized(s)
    {
      var piece := Piece(w, i);
      PieceWords(w, i);
      PiecesUnroll(w, i, out);
      if |Words(piece)| >= MIN_SENTENCE_WORDS {
        out := out + [piece];
      }
      i := i + MAX_SENTENCE_WORDS;
    }
  }

  lemma PiecesUnroll(words: seq<Text>, i: nat, out: seq<Text>)
    requires i < |words|
    ensures var piece := Piece(words, i);
      out + PiecesOf(words, i) ==
      (if |Words(piece)| >= MIN_SENTENCE_WORDS then out + [piece] else out) + PiecesOf(words, i + MAX_SENTENCE_WORDS)
  {
  }

  function PieceEnd(words: seq<Text>, i: nat): nat {
    if i + MAX_SENTENCE_WORDS <= |words| then i + MAX_SENTENCE_WORDS else |words|
  }

  /** A piece has the words it was cut from: at most 40 of them. */
  lemma PieceWords(words: seq<Text>, i: nat)
    requires i < |words| && forall w :: w in words ==> IsWord(w)
    ensures Words(Piece(words, i)) == words[i..PieceEnd(words, i)]
  {
    SplitJoin(words[i..PieceEnd(words, i)]);
  }

  lemma {:induction false} PartsOfBlank(text: Text, start: nat, p: nat)
    requires start <= p <= |text| && Blank(text, PySpace)
    ensures forall part :: part in PartsFrom(text, start, p) ==> Blank(part, PySpace)
    decreases |text| - p
  {
    if p < |text| {
      if text[p] == NEWLINE {
        var e := NewlinesEnd(text, p);
        PartsOfBlank(text, e, e);
      } else {
        PartsOfBlank(text, start, p + 1);
      }
    }
  }

  lemma {:induction false} BlankPartsNothing(parts: seq<Text>, n: nat)
    requires n <= |parts| && forall part :: part in parts ==> Blank(part, PySpace)
    ensures SentencesOfParts(parts, n) == []
  {
    if n > 0 {
      BlankPartsNothing(parts, n - 1);
      BlankHasNoWords(parts[n - 1]);
    }
  }

  /** A blank text has no sentence. */
  lemma BlankHasNoSentences(text: Text)
    requires Blank(text, PySpace)
    ensures SentencesOf(text) == []
  {
    PartsOfBlank(text, 0, 0);
    BlankPartsNothing(Parts(text), |Parts(text)|);
  }

  // ---- what the parts are ------------------------------------------------------------------------

  /** Whitespace directly after one of . ! ? */
  predicate AfterStop(text: Text, i: nat) { 0 < i < |text| && IsStop(text[i - 1]) && PySpace(text[i]) }

  /** text[from..upto] separates two parts: all the whitespace after a stop, or else all newlines there. */
  ghost predicate IsGap(text: Text, from: nat, upto: nat) {
    && from < upto <= |text|
    && if AfterStop(text, from) then
         (forall i :: from <= i < upto ==> PySpace(text[i])) && (upto < |text| ==> !PySpace(text[upto]))
       else
         (forall i :: from <= i < upto ==> text[i] == NEWLINE) && (upto < |text| ==> text[upto] != NEWLINE)
  }

  /** Nothing in text[from..upto] separates. */
  ghost predicate Unbroken(text: Text, from: nat, upto: nat) {
    forall i :: from <= i < upto && i < |text| ==> text[i] != NEWLINE && !AfterStop(text, i)
  }

  /** `spans` are the parts of the text from `start` on. */
  ghost predicate IsSplit(text: Text, start: nat, spans: seq<Span>) {
    && spans != [] && spans[0].start == start && spans[|spans| - 1].end == |text|
    && (forall k :: 0 <= k < |spans| ==>
          spans[k].start <= spans[k].end <= |text| && Unbroken(text, spans[k].start, spans[k].end))
    && (forall k :: 0 < k < |spans| ==> IsGap(text, spans[k - 1].end, spans[k].start))
  }

  lemma SplitCons(text: Text, start: nat, p: nat, e: nat, rest: seq<Span>)
    requires start <= p && Unbroken(text, start, p) && IsGap(text, p, e) && IsSplit(text, e, rest)
    ensures IsSplit(text, start, [Span(start, p)] + rest)
  {
    var spans := [Span(start, p)] + rest;
    forall k | 0 < k < |spans| ensures IsGap(text, spans[k - 1].end, spans[k].start) {
      assert k > 1 ==> spans[k - 1] == rest[k - 2] && spans[k] == rest[k - 1];
    }
  }

  /** The parts are the texts of the spans. */
  ghost predicate Matches(text: Text, parts: seq<Text>, spans: seq<Span>) {
    |parts| == |spans| && forall k :: 0 <= k < |spans| ==> parts[k] == SpanText(text, spans[k])
  }

  lemma MatchesCons(text: Text, span: Span, parts: seq<Text>, spans: seq<Span>)
    requires Matches(text, parts, spans)
    ensures Matches(text, [SpanText(text, span)] + parts, [span] + spans)
  {
  }

  predicate CutAt(text: Text, p: nat) { p < |text| && (AfterStop(text, p) || text[p] == NEWLINE) }

  function GapEnd(text: Text, p: nat): (e: nat)
    requires CutAt(text, p)
    ensures p < e <= |text|
  {
    if AfterStop(text, p) then RunEnd(text, p, true) else NewlinesEnd(text, p)
  }

  lemma GapFound(text: Text, p: nat)
    requires CutAt(text, p)
    ensures IsGap(text, p, GapEnd(text, p))
  {
  }

  lemma PartsStep(text: Text, start: nat, p: nat)
    requires start <= p <= |text|
    ensures p == |text| ==> PartsFrom(text, start, p) == [text[start..p]]
    ensures CutAt(text, p) ==>
      PartsFrom(text, start, p) == [text[start..p]] + PartsFrom(text, GapEnd(text, p), GapEnd(text, p))
    ensures p < |text| && !CutAt(text, p) ==> PartsFrom(text, start, p) == PartsFrom(text, start, p + 1)
  {
    assert text[start..] == text[start..|text|];
  }

  lemma {:induction false} PartsFromSplit(text: Text, start: nat, p: nat) returns (spans: seq<Span>)
    requires start <= p <= |text| && Unbroken(text, start, p)
    ensures IsSplit(text, start, spans) && Matches(text, PartsFrom(text, start, p), spans)
    decreases |text| - p
  {
    PartsStep(text, start, p);
    if p == |text| {
      spans := [Span(start, p)];
    } else if CutAt(text, p) {
      var e := GapEnd(text, p);
      var rest := PartsFromSplit(text, e, e);
      GapFound(text, p);
      SplitCons(text, start, p, e, rest);
      MatchesCons(text, Span(start, p), PartsFrom(text, e, e), rest);
      spans := [Span(start, p)] + rest;
    } else {
      spans := PartsFromSplit(text, start, p + 1);
    }
  }

  /** The parts lie in order in the text, nothing inside a part separates, and what lies between two parts
      does: newlines, or whitespace directly after a stop. */
  lemma PartsAreSplit(text: Text) returns (spans: seq<Span>)
    ensures IsSplit(text, 0, spans) && Matches(text, Parts(text), spans)
  {
    spans := PartsFromSplit(text, 0, 0);
  }

  lemma SameFirst(text: Text, start: nat, a: seq<Span>, b: seq<Span>)
    requires IsSplit(text, start, a) && IsSplit(text, start, b)
    ensures a[0] == b[0] && (|a| > 1 <==> |b| > 1) && (|a| > 1 ==> a[1].start == b[1].start)
  {
    FirstEnd(text, start, a, b);
    FirstEnd(text, start, b, a);
    if |a| > 1 {
      assert IsGap(text, a[0].end, a[1].start);
    }
    if |b| > 1 {
      assert IsGap(text, b[0].end, b[1].start);
    }
  }

  lemma FirstEnd(text: Text, start: nat, a: seq<Span>, b: seq<Span>)
    requires IsSplit(text, start, a) && IsSplit(text, start, b)
    ensures a[0].end <= b[0].end
  {
    if |b| > 1 {
      assert IsGap(text, b[0].end, b[1].start);
      assert b[0].end < |text| && (AfterStop(text, b[0].end) || text[b[0].end] == NEWLINE);
    }
    assert Unbroken(text, a[0].start, a[0].end);
  }

  /** ... and there is only one such split. */
  lemma {:induction false} SplitUnique(text: Text, start: nat, a: seq<Span>, b: seq<Span>)
    requires IsSplit(text, start, a) && IsSplit(text, start, b)
    ensures a == b
    decreases |a|
  {
    SameFirst(text, start, a, b);
    if |a| > 1 {
      SplitTail(text, start, a);
      SplitTail(text, start, b);
      SplitUnique(text, a[1].start, a[1..], b[1..]);
      assert a == [a[0]] + a[1..] && b == [b[0]] + b[1..];
    }
  }

  lemma SplitTail(text: Text, start: nat, a: seq<Span>)
    requires IsSplit(text, start, a) && |a| > 1
    ensures IsSplit(text, a[1].start, a[1..])
  {
    var tail := a[1..];
    forall k | 0 < k < |tail| ensures IsGap(text, tail[k - 1].end, tail[k].start) {
      assert IsGap(text, a[k].end, a[k + 1].start);
    }
  }

  // ---- no word is lost -----------------------------------------------------------------------------

  /** Words, to map with. */
  function WordsIn(text: Text): seq<Text> { Words(text) }

  function WordsOfAll(texts: seq<Text>): seq<Text> { FlatMap(WordsIn, texts) }

  lemma WordThen(text: Text, e: nat)
    requires text != [] && !PySpace(text[0]) && e == RunEnd(text, 0, false)
    ensures Words(text) == [text[..e]] + Words(text[e..])
  {
  }

  /** Whitespace separates words. */
  lemma {:induction false} WordsAcross(a: Text, b: Text)
    requires b != [] ==> PySpace(b[0])
    ensures Words(a + b) == Words(a) + Words(b)
    decreases |a|
  {
    if a == [] {
      assert a + b == b;
    } else if PySpace(a[0]) {
      assert (a + b)[1..] == a[1..] + b;
      WordsAcross(a[1..], b);
    } else {
      var e := RunEnd(a, 0, false);
      SameRun(a, b);
      WordThen(a, e);
      WordThen(a + b, e);
      CutBoth(a, b, e);
      WordsAcross(a[e..], b);
    }
  }

  lemma CutBoth(a: Text, b: Text, e: nat)
    requires e <= |a|
    ensures (a + b)[..e] == a[..e] && (a + b)[e..] == a[e..] + b
  {
  }

  lemma SameRun(a: Text, b: Text)
    requires a != [] && !PySpace(a[0]) && (b != [] ==> PySpace(b[0]))
    ensures RunEnd(a + b, 0, false) == RunEnd(a, 0, false) > 0
  {
    assert forall i :: 0 <= i < |a| ==> (a + b)[i] == a[i];
    assert b != [] ==> (a + b)[|a|] == b[0];
  }

  lemma {:induction false} SkipSpaces(text: Text, n: nat)
    requires n <= |text| && forall i :: 0 <= i < n ==> PySpace(text[i])
    ensures Words(text[n..]) == Words(text)
    decreases n
  {
    if n > 0 {
      SkipSpaces(text[1..], n - 1);
      assert text[1..][n - 1..] == text[n..];
    } else {
      assert text[0..] == text;
    }
  }

  lemma {:induction false} PartsFromWords(text: Text, start: nat, p: nat)
    requires start <= p <= |text|
    ensures WordsOfAll(PartsFrom(text, start, p)) == Words(text[start..])
    decreases |text| - p
  {
    if p == |text| {
      FlatMapOne(WordsIn, text[start..]);
    } else if AfterStop(text, p) || text[p] == NEWLINE {
      var e := if AfterStop(text, p) then RunEnd(text, p, true) else NewlinesEnd(text, p);
      PartsFromWords(text, e, e);
      GapWords(text, start, p, e);
      FlatMapCons(WordsIn, text[start..p], PartsFrom(text, e, e));
    } else {
      PartsFromWords(text, start, p + 1);
    }
  }

  lemma WordsGap(a: Text, gap: Text, b: Text)
    requires gap != [] && Blank(gap, PySpace)
    ensures Words(a + (gap + b)) == Words(a) + Words(b)
  {
    WordsAcross(a, gap + b);
    SkipSpaces(gap + b, |gap|);
    assert (gap + b)[|gap|..] == b;
  }

  lemma GapWords(text: Text, start: nat, p: nat, e: nat)
    requires start <= p < e <= |text| && forall i :: p <= i < e ==> PySpace(text[i])
    ensures Words(text[start..]) == Words(text[start..p]) + Words(text[e..])
  {
    ThreeParts(text, start, p, e);
    WordsGap(text[start..p], text[p..e], text[e..]);
  }

  lemma ThreeParts(text: Text, start: nat, p: nat, e: nat)
    requires start <= p < e <= |text| && forall i :: p <= i < e ==> PySpace(text[i])
    ensures text[start..] == text[start..p] + (text[p..e] + text[e..]) && Blank(text[p..e], PySpace)
  {
  }

  /** The words of the parts are the words of the text, in order. */
  lemma PartsKeepWords(text: Text)
    ensures WordsOfAll(Parts(text)) == Words(text)
  {
    PartsFromWords(text, 0, 0);
    assert text[0..] == text;
  }

  /** The words of a part that its sentences hold: all but a last piece of one or two. */
  function KeptWords(words: seq<Text>): seq<Text> {
    var last := |words| % MAX_SENTENCE_WORDS;
    if last < MIN_SENTENCE_WORDS then words[..|words| - last] else words
  }

  /** The words of the pieces that are long enough. */
  function WordPieces(words: seq<Text>, i: nat): seq<seq<Text>>
    requires i <= |words|
    decreases |words| - i
  {
    if i == |words| then []
    else
      var e := PieceEnd(words, i);
      (if e - i >= MIN_SENTENCE_WORDS then [words[i..e]] else []) + WordPieces(words, e)
  }

  ghost predicate HaveWords(texts: seq<Text>, pieces: seq<seq<Text>>) {
    |texts| == |pieces| && forall k :: 0 <= k < |texts| ==> Words(texts[k]) == pieces[k]
  }

  lemma HaveCons(text: Text, piece: seq<Text>, texts: seq<Text>, pieces: seq<seq<Text>>)
    requires HaveWords(texts, pieces) && Words(text) == piece
    ensures HaveWords([text] + texts, [piece] + pieces)
  {
  }

  lemma {:induction false} PiecesHave(words: seq<Text>, i: nat)
    requires (forall w :: w in words ==> IsWord(w)) && i <= |words|
    ensures HaveWords(PiecesOf(words, i), WordPieces(words, i))
    decreases |words| - i
  {
    if i < |words| {
      var e := PieceEnd(words, i);
      PieceWords(words, i);
      if e < |words| {
        PiecesHave(words, e);
        HaveCons(Piece(words, i), words[i..e], PiecesOf(words, e), WordPieces(words, e));
      } else {
        assert PiecesOf(words, i + MAX_SENTENCE_WORDS) == [];
      }
    }
  }

  lemma {:induction false} PiecesKeep(words: seq<Text>, i: nat)
    requires i % MAX_SENTENCE_WORDS == 0 && i <= |words|
    ensures Concat(WordPieces(words, i)) == KeptWords(words[i..])
    decreases |words| - i
  {
    var rest, e := words[i..], PieceEnd(words, i);
    if i == |words| {
    } else if e == i + MAX_SENTENCE_WORDS {
      PiecesKeep(words, e);
      KeptAfter(rest);
      assert rest[MAX_SENTENCE_WORDS..] == words[e..] && rest[..MAX_SENTENCE_WORDS] == words[i..e];
      assert ([words[i..e]] + WordPieces(words, e))[1..] == WordPieces(words, e);
    } else {
      assert words[i..e] == rest && WordPieces(words, e) == [];
      assert Concat([rest]) == rest + Concat([rest][1..]);
    }
  }

  lemma KeptAfter(words: seq<Text>)
    requires |words| >= MAX_SENTENCE_WORDS
    ensures KeptWords(words) == words[..MAX_SENTENCE_WORDS] + KeptWords(words[MAX_SENTENCE_WORDS..])
  {
    assert |words| % MAX_SENTENCE_WORDS == |words[MAX_SENTENCE_WORDS..]| % MAX_SENTENCE_WORDS;
  }

  /** What its sentences hold of the words of a part. */
  function KeptIn(part: Text): seq<Text> { KeptWords(Words(part)) }

  lemma PartKeeps(part: Text)
    ensures WordsOfAll(SentencesIn(part)) == KeptIn(part)
  {
    var words := Words(part);
    WordsAreWords(part);
    PiecesHave(words, 0);
    FlatMapPieces(WordsIn, PiecesOf(words, 0), WordPieces(words, 0));
    PiecesKeep(words, 0);
    assert words[0..] == words;
  }

  lemma PartsKept(parts: seq<Text>)
    ensures FlatMap(WordsIn, FlatMap(SentencesIn, parts)) == FlatMap(KeptIn, parts)
  {
    forall i | 0 <= i < |parts| ensures FlatMap(WordsIn, SentencesIn(parts[i])) == KeptIn(parts[i]) {
      PartKeeps(parts[i]);
    }
    FlatMapFlat(WordsIn, SentencesIn, KeptIn, parts);
  }

  /** No part leaves a last piece of one or two words. */
  predicate NoRemnant(parts: seq<Text>) {
    forall i :: 0 <= i < |parts| ==> |Words(parts[i])| % MAX_SENTENCE_WORDS !in {1, 2}
  }

  lemma AllKept(parts: seq<Text>)
    requires NoRemnant(parts)
    ensures FlatMap(KeptIn, parts) == FlatMap(WordsIn, parts)
  {
    FlatMapSame(KeptIn, WordsIn, parts);
  }

  /** The sentences hold the words of the text in order; what is missing is a last piece of one or two
      words of a part. */
  lemma SentencesKeepWords(text: Text)
    ensures WordsOfAll(SentencesOf(text)) == FlatMap(KeptIn, Parts(text))
    ensures NoRemnant(Parts(text)) ==> WordsOfAll(SentencesOf(text)) == Words(text)
  {
    var parts := Parts(text);
    FlatUpToIs(SentencesIn, parts, |parts|);
    assert parts[..|parts|] == parts;
    PartsKept(parts);
    if NoRemnant(parts) {
      AllKept(parts);
      PartsKeepWords(text);
    }
  }
}
