/** Newline framing of the stdio transport: drainBuffer and the frames send writes. */
module Framing {
  import opened Text
  import opened Sequences

  const NL: CodeUnit := 0x0a
  const CR: CodeUnit := 0x0d

  /** 8 MiB: the longest unterminated line that is kept. */
  const MAX_BUFFER: nat := 8 * 1024 * 1024

  function NlFrom(s: Text, i: nat): (n: nat)
    requires i <= |s|
    ensures i <= n <= |s|
    decreases |s| - i
  {
    if i == |s| || s[i] == NL then i else NlFrom(s, i + 1)
  }

  /** The index of the first newline, or the length. */
  function IndexOfNl(s: Text): (n: nat)
    ensures n <= |s|
  {
    NlFrom(s, 0)
  }

  ghost predicate FirstNl(s: Text, i: nat, n: nat) {
    i <= n <= |s| && (forall j :: i <= j < n ==> s[j] != NL) && (n < |s| ==> s[n] == NL)
  }

  lemma {:induction false} NlFromIff(s: Text, i: nat, n: nat)
    requires i <= |s|
    ensures NlFrom(s, i) == n <==> FirstNl(s, i, n)
    decreases |s| - i
  {
    if i < |s| && s[i] != NL {
      NlFromIff(s, i + 1, n);
    }
  }

  lemma IndexIff(s: Text, n: nat)
    ensures IndexOfNl(s) == n <==> FirstNl(s, 0, n)
  {
    NlFromIff(s, 0, n);
  }

  /** line.replace(/\r$/, ""). */
  function StripCr(line: Text): Text {
    if line != [] && line[|line| - 1] == CR then line[..|line| - 1] else line
  }

  /** The frame callbacks one line causes. */
  function LineFrames(line: Text): seq<Text> {
    if Blank(StripCr(line), JsSpace) then [] else [StripCr(line)]
  }

  datatype Drained = Drained(frames: seq<Text>, left: Text)

  function Prepend(frames: seq<Text>, d: Drained): Drained { Drained(frames + d.frames, d.left) }

  lemma PrependTwice(f: seq<Text>, g: seq<Text>, d: Drained)
    ensures Prepend(f, Prepend(g, d)) == Prepend(f + g, d)
  {
  }

  /** All complete lines of the buffer, and what is left. */
  function Drain(buf: Text): Drained {
    var n := IndexOfNl(buf);
    if n == |buf| then Drained([], buf) else Prepend(LineFrames(buf[..n]), Drain(buf[n + 1..]))
  }

  /** An oversized leftover is delivered as it is and forgotten. */
  function DropOversized(d: Drained, limit: nat): Drained {
    if |d.left| > limit then Drained(d.frames + [d.left], []) else d
  }

  lemma PrependDrop(f: seq<Text>, d: Drained, limit: nat)
    ensures DropOversized(Prepend(f, d), limit) == Prepend(f, DropOversized(d, limit))
  {
    assert f + (d.frames + [d.left]) == f + d.frames + [d.left];
  }

  /** One data event: the chunk is appended and the buffer drained. */
  function Feed(buf: Text, chunk: Text, limit: nat): Drained { DropOversized(Drain(buf + chunk), limit) }

  function FeedAll(buf: Text, chunks: seq<Text>, limit: nat): Drained
    decreases |chunks|
  {
    if chunks == [] then Drained([], buf)
    else
      var first := Feed(buf, chunks[0], limit);
      Prepend(first.frames, FeedAll(first.left, chunks[1..], limit))
  }

  /** A buffer that is a line, a newline and a rest. */
  lemma DrainDef(buf: Text, n: nat, line: Text, rest: Text)
    requires n == IndexOfNl(buf) < |buf| && line == buf[..n] && rest == buf[n + 1..]
    ensures Drain(buf) == Prepend(LineFrames(line), Drain(rest))
  {
  }

  lemma TakeLine(buf: Text, before: seq<Text>)
    requires IndexOfNl(buf) < |buf|
    ensures var n := IndexOfNl(buf);
      Prepend(before, Drain(buf)) == Prepend(before + LineFrames(buf[..n]), Drain(buf[n + 1..]))
  {
    var n := IndexOfNl(buf);
    DrainDef(buf, n, buf[..n], buf[n + 1..]);
    PrependTwice(before, LineFrames(buf[..n]), Drain(buf[n + 1..]));
  }

  lemma NothingLeft(before: seq<Text>, buf: Text)
    requires IndexOfNl(buf) == |buf|
    ensures Prepend(before, Drain(buf)) == Drained(before, buf)
  {
  }

  class LineReader {
    var buffer: Text
    var delivered: seq<Text>
    const limit: nat

    constructor (limit: nat)
      ensures buffer == [] && delivered == [] && this.limit == limit
    {
      buffer, delivered, this.limit := [], [], limit;
    }

    /** The "data" handler: append, then drainBuffer. */
    method OnData(chunk: Text)
      modifies this
      ensures var d := Feed(old(buffer), chunk, limit);
        buffer == d.left && delivered == old(delivered) + d.frames
    {
      buffer := buffer + chunk;
      DrainBuffer();
    }

    /** One line: its carriage return goes, and a blank line causes no frame. */
    method Deliver(line: Text)
      modifies this`delivered
      ensures delivered == old(delivered) + LineFrames(line)
    {
      var stripped := StripCr(line);
      if !Blank(stripped, JsSpace) {
        delivered := delivered + [stripped];
      }
    }

    method DrainBuffer()
      modifies this
      ensures var d := DropOversized(Drain(old(buffer)), limit);
        buffer == d.left && delivered == old(delivered) + d.frames
    {
      ghost var all := Drain(buffer);
      var newline := IndexOfNl(buffer);
      while newline < |buffer|
        invariant newline == IndexOfNl(buffer)
        invariant Prepend(delivered, Drain(buffer)) == Prepend(old(delivered), all)
        decreases |buffer|
      {
        TakeLine(buffer, delivered);
        Deliver(buffer[..newline]);
        buffer := buffer[newline + 1..];
        newline := IndexOfNl(buffer);
      }
      PrependDrop(old(delivered), all, limit);
      NothingLeft(delivered, buffer);
      if |buffer| > limit {
        var dropped := buffer;
        buffer := [];
        delivered := delivered + [dropped];
      }
    }
  }

  // ---- chunking -----------------------------------------------------------------------------

  lemma IndexOfNlAppend(a: Text, b: Text)
    ensures IndexOfNl(a) < |a| ==> IndexOfNl(a + b) == IndexOfNl(a)
    ensures IndexOfNl(a) == |a| ==> IndexOfNl(a + b) == |a| + IndexOfNl(b)
  {
    IndexIff(a, IndexOfNl(a));
    IndexIff(b, IndexOfNl(b));
    if IndexOfNl(a) < |a| {
      IndexIff(a + b, IndexOfNl(a));
    } else {
      IndexIff(a + b, |a| + IndexOfNl(b));
    }
  }

  lemma SplitAppend(a: Text, b: Text, n: nat)
    requires n < |a|
    ensures (a + b)[..n] == a[..n] && (a + b)[n + 1..] == a[n + 1..] + b
  {
  }

  lemma DrainFirst(a: Text, b: Text)
    requires IndexOfNl(a) < |a|
    ensures var n := IndexOfNl(a); Drain(a + b) == Prepend(LineFrames(a[..n]), Drain(a[n + 1..] + b))
  {
    var n := IndexOfNl(a);
    IndexOfNlAppend(a, b);
    SplitAppend(a, b, n);
    DrainDef(a + b, n, a[..n], a[n + 1..] + b);
  }

  /** What was drained stays drained: the rest continues from the leftover. */
  lemma {:induction false} DrainAppend(a: Text, b: Text)
    ensures Drain(a + b) == Prepend(Drain(a).frames, Drain(Drain(a).left + b))
    decreases |a|
  {
    var n := IndexOfNl(a);
    if n < |a| {
      var tail, first := a[n + 1..], LineFrames(a[..n]);
      var rest := Drain(Drain(tail).left + b);
      calc {
        Drain(a + b);
        { DrainFirst(a, b); }
        Prepend(first, Drain(tail + b));
        { DrainAppend(tail, b); }
        Prepend(first, Prepend(Drain(tail).frames, rest));
        { PrependTwice(first, Drain(tail).frames, rest); }
        Prepend(first + Drain(tail).frames, rest);
        { DrainDef(a, n, a[..n], tail); }
        Prepend(Drain(a).frames, Drain(Drain(a).left + b));
      }
    } else {
      PrependNone(Drain(a + b));
    }
  }

  lemma PrependNone(d: Drained)
    ensures Prepend([], d) == d
  {
  }

  lemma {:induction false} LeftHasNoNl(a: Text)
    ensures IndexOfNl(Drain(a).left) == |Drain(a).left|
  {
    if IndexOfNl(a) < |a| {
      LeftHasNoNl(a[IndexOfNl(a) + 1..]);
    }
  }

  lemma DrainLine(line: Text, rest: Text)
    requires IndexOfNl(line) == |line|
    ensures Drain(line + ([NL] + rest)) == Prepend(LineFrames(line), Drain(rest))
  {
    var s := line + ([NL] + rest);
    IndexOfNlAppend(line, [NL] + rest);
    assert s[..|line|] == line && s[|line| + 1..] == rest;
  }

  // ---- when the chunking does not matter -------------------------------------------------------

  /** A terminated line that is delivered alike whether or not the limit cut it off before its
      newline arrived. */
  predicate LineOk(line: Text, limit: nat) {
    || |line| <= limit
    || (|line| == limit + 1 && !Blank(line, JsSpace) && line[|line| - 1] != CR)
  }

  /** Every line of the stream is short enough, give or take one unit. */
  predicate RunsOk(s: Text, limit: nat) {
    var n := IndexOfNl(s);
    if n == |s| then n <= limit + 1 else LineOk(s[..n], limit) && RunsOk(s[n + 1..], limit)
  }

  lemma {:induction false} RunsOkRest(a: Text, b: Text, limit: nat)
    requires RunsOk(a + b, limit)
    ensures RunsOk(Drain(a).left + b, limit)
    decreases |a|
  {
    var n := IndexOfNl(a);
    if n < |a| {
      IndexOfNlAppend(a, b);
      assert (a + b)[n + 1..] == a[n + 1..] + b;
      RunsOkRest(a[n + 1..], b, limit);
    }
  }

  lemma StripOk(line: Text, limit: nat)
    requires LineOk(line, limit) && |line| > limit
    ensures LineFrames(line) == [line]
  {
  }

  /** After an oversized run only its newline, or nothing, can follow. */
  lemma OversizedEnds(run: Text, rest: Text, limit: nat)
    requires IndexOfNl(run) == |run| > limit && RunsOk(run + rest, limit)
    ensures rest == [] || (rest[0] == NL && LineFrames(run) == [run] && RunsOk(rest, limit))
    ensures rest == [] ==> |run| == limit + 1
  {
    IndexOfNlAppend(run, rest);
    if rest == [] {
      assert run + rest == run;
    } else {
      var n := IndexOfNl(run + rest);
      if n == |run| {
        assert (run + rest)[..n] == run && (run + rest)[n + 1..] == rest[1..];
        StripOk(run, limit);
        assert rest[..0] == [];
      }
    }
  }

  /** ... so the rest of the stream behaves as if the run had been kept. */
  lemma OversizedRun(run: Text, rest: Text, limit: nat)
    requires IndexOfNl(run) == |run| > limit && RunsOk(run + rest, limit)
    ensures Feed(run, rest, limit) == Prepend([run], Feed([], rest, limit))
    ensures RunsOk(rest, limit)
  {
    OversizedEnds(run, rest, limit);
    if rest == [] {
      assert run + rest == run && [] + rest == rest;
    } else {
      assert rest == [NL] + rest[1..];
      RunThenNewline(run, rest[1..], limit);
    }
  }

  lemma RunThenNewline(run: Text, tail: Text, limit: nat)
    requires IndexOfNl(run) == |run| && LineFrames(run) == [run]
    ensures Feed(run, [NL] + tail, limit) == Prepend([run], Feed([], [NL] + tail, limit))
  {
    DrainLine(run, tail);
    DrainLine([], tail);
    assert Prepend([], Drain(tail)) == Drain(tail);
    PrependDrop([run], Drain(tail), limit);
  }

  lemma {:induction false} ChunkingIrrelevant(buf: Text, chunks: seq<Text>, limit: nat)
    requires IndexOfNl(buf) == |buf| <= limit && RunsOk(buf + Concat(chunks), limit)
    ensures FeedAll(buf, chunks, limit) == Feed(buf, Concat(chunks), limit)
    decreases |chunks|
  {
    if chunks == [] {
      assert buf + Concat(chunks) == buf;
    } else {
      var rest := Concat(chunks[1..]);
      var d := Drain(buf + chunks[0]);
      assert buf + Concat(chunks) == buf + chunks[0] + rest;
      DrainAppend(buf + chunks[0], rest);
      LeftHasNoNl(buf + chunks[0]);
      RunsOkRest(buf + chunks[0], rest, limit);
      PrependDrop(d.frames, Drain(d.left + rest), limit);
      if |d.left| <= limit {
        ChunkingIrrelevant(d.left, chunks[1..], limit);
      } else {
        OversizedRun(d.left, rest, limit);
        assert [] + rest == rest;
        ChunkingIrrelevant([], chunks[1..], limit);
        PrependTwice(d.frames, [d.left], Feed([], rest, limit));
      }
    }
  }

  /** Two data events on an empty buffer. */
  function TwoFeeds(x: Text, y: Text, limit: nat): Drained {
    Prepend(Feed([], x, limit).frames, Feed(Feed([], x, limit).left, y, limit))
  }

  /** Cutting x + y into these two chunks changes what is delivered. */
  ghost predicate CutMatters(x: Text, y: Text, limit: nat) {
    TwoFeeds(x, y, limit) != Feed([], x + y, limit)
  }

  lemma TwoChunks(x: Text, y: Text, limit: nat)
    ensures FeedAll([], [x, y], limit) == TwoFeeds(x, y, limit)
  {
    var first := Feed([], x, limit);
    var second := Feed(first.left, y, limit);
    assert [x, y][1..] == [y] && [y][1..] == [];
    assert FeedAll(second.left, [], limit) == Drained([], second.left);
    assert Prepend(second.frames, Drained([], second.left)) == second;
    assert FeedAll(first.left, [y], limit) == second;
  }

  lemma FeedLine(line: Text, rest: Text, limit: nat)
    requires IndexOfNl(line) == |line|
    ensures Feed([], line + ([NL] + rest), limit) == Prepend(LineFrames(line), Feed([], rest, limit))
  {
    var s := line + ([NL] + rest);
    assert [] + s == s && [] + rest == rest;
    DrainLine(line, rest);
    PrependDrop(LineFrames(line), Drain(rest), limit);
  }

  /** Cutting the stream later than its first line cuts the rest the same way. */
  lemma SplitLater(line: Text, x: Text, y: Text, limit: nat)
    requires IndexOfNl(line) == |line|
    ensures TwoFeeds(line + ([NL] + x), y, limit) == Prepend(LineFrames(line), TwoFeeds(x, y, limit))
  {
    FeedLine(line, x, limit);
    var first := Feed([], x, limit);
    PrependTwice(LineFrames(line), first.frames, Feed(first.left, y, limit));
  }

  /** A run cut off after more than `limit` units is delivered as it stands. */
  lemma CutOff(run: Text, limit: nat)
    requires IndexOfNl(run) == |run| > limit
    ensures Feed([], run, limit) == Drained([run], [])
  {
    assert [] + run == run;
  }

  /** Cut inside, a run's first piece is delivered first. */
  lemma CutInside(run: Text, k: nat, rest: Text, limit: nat)
    requires IndexOfNl(run) == |run| && limit < k <= |run|
    ensures var f := TwoFeeds(run[..k], run[k..] + rest, limit).frames; f != [] && f[0] == run[..k]
  {
    PrefixHasNoNl(run, k);
    CutOff(run[..k], limit);
  }

  lemma RawThenRest(line: Text, rest: Text, limit: nat)
    requires IndexOfNl(line) == |line| > limit
    ensures TwoFeeds(line, [NL] + rest, limit) == Prepend([line], Feed([], rest, limit))
  {
    CutOff(line, limit);
    FeedLine([], rest, limit);
    assert [] + ([NL] + rest) == [NL] + rest;
    assert Prepend([], Feed([], rest, limit)) == Feed([], rest, limit);
  }

  lemma RawDiffers(line: Text, after: Drained)
    requires line != [] && (Blank(line, JsSpace) || line[|line| - 1] == CR)
    ensures Prepend([line], after) != Prepend(LineFrames(line), after)
  {
    if Blank(line, JsSpace) {
      assert LineFrames(line) == [];
    } else if LineFrames(line) != [] {
      assert (LineFrames(line) + after.frames)[0] == StripCr(line);
      assert ([line] + after.frames)[0] == line;
    }
  }

  /** Cut right before its newline, a long line that is blank or ends in CR is delivered raw. */
  lemma CutAtNewline(line: Text, rest: Text, limit: nat)
    requires IndexOfNl(line) == |line| > limit && (Blank(line, JsSpace) || line[|line| - 1] == CR)
    ensures TwoFeeds(line, [NL] + rest, limit) != Feed([], line + ([NL] + rest), limit)
  {
    RawThenRest(line, rest, limit);
    FeedLine(line, rest, limit);
    RawDiffers(line, Feed([], rest, limit));
  }

  /** A line that is not LineOk can be cut so that something else is delivered. */
  lemma BadLine(line: Text, rest: Text, limit: nat) returns (x: Text, y: Text)
    requires IndexOfNl(line) == |line| && !LineOk(line, limit)
    ensures x + y == line + ([NL] + rest) && CutMatters(x, y, limit)
  {
    if Blank(line, JsSpace) || line[|line| - 1] == CR {
      x, y := line, [NL] + rest;
      CutAtNewline(line, rest, limit);
    } else {
      var k := limit + 1;
      x, y := line[..k], line[k..] + ([NL] + rest);
      assert x + y == line + ([NL] + rest);
      CutInside(line, k, [NL] + rest, limit);
      FeedLine(line, rest, limit);
      assert Feed([], line + ([NL] + rest), limit).frames[0] == line;
    }
  }

  lemma BadFinal(s: Text, limit: nat) returns (x: Text, y: Text)
    requires IndexOfNl(s) == |s| > limit + 1
    ensures x + y == s && CutMatters(x, y, limit)
  {
    x, y := s[..limit + 1], s[limit + 1..];
    CutInside(s, limit + 1, [], limit);
    assert y + [] == y && x + y == s;
    CutOff(s, limit);
    assert |x| < |s|;
  }

  lemma AssocLine(line: Text, x: Text, y: Text)
    ensures line + ([NL] + x) + y == line + ([NL] + (x + y))
  {
  }

  lemma LaterDiffers(line: Text, x: Text, y: Text, limit: nat)
    requires IndexOfNl(line) == |line| && CutMatters(x, y, limit)
    ensures CutMatters(line + ([NL] + x), y, limit) && line + ([NL] + x) + y == line + ([NL] + (x + y))
  {
    AssocLine(line, x, y);
    var long := line + ([NL] + x);
    calc {
      TwoFeeds(long, y, limit);
      { SplitLater(line, x, y, limit); }
      Prepend(LineFrames(line), TwoFeeds(x, y, limit));
      != { PrependCancels(LineFrames(line), TwoFeeds(x, y, limit), Feed([], x + y, limit)); }
      Prepend(LineFrames(line), Feed([], x + y, limit));
      == { FeedLine(line, x + y, limit); }
      Feed([], long + y, limit);
    }
  }

  lemma SplitAtNl(s: Text)
    requires IndexOfNl(s) < |s|
    ensures var n := IndexOfNl(s); s == s[..n] + ([NL] + s[n + 1..]) && IndexOfNl(s[..n]) == n
  {
    IndexIff(s, IndexOfNl(s));
    PrefixHasNoNl(s, IndexOfNl(s));
  }

  /** Every other stream can be cut into two chunks so that something else is delivered. */
  lemma {:induction false} SomeSplitMatters(s: Text, limit: nat) returns (x: Text, y: Text)
    requires !RunsOk(s, limit)
    ensures x + y == s && CutMatters(x, y, limit)
    decreases |s|
  {
    var n := IndexOfNl(s);
    if n == |s| {
      x, y := BadFinal(s, limit);
    } else {
      SplitAtNl(s);
      if LineOk(s[..n], limit) {
        x, y := SomeSplitMatters(s[n + 1..], limit);
        LaterDiffers(s[..n], x, y, limit);
        x := s[..n] + ([NL] + x);
      } else {
        x, y := BadLine(s[..n], s[n + 1..], limit);
      }
    }
  }

  lemma PrependCancels(f: seq<Text>, a: Drained, b: Drained)
    ensures Prepend(f, a) == Prepend(f, b) ==> a == b
  {
    assert a.frames == (f + a.frames)[|f|..] && b.frames == (f + b.frames)[|f|..];
  }

  lemma PrefixHasNoNl(s: Text, k: nat)
    requires k <= IndexOfNl(s)
    ensures IndexOfNl(s[..k]) == k
  {
    IndexIff(s, IndexOfNl(s));
    IndexIff(s[..k], k);
  }

  /** What is delivered, and what is left, does not depend on how the stream was cut into data
      events, exactly when every line is short enough in the sense of RunsOk. */
  lemma ChunkingTheorem(s: Text, limit: nat)
    ensures RunsOk(s, limit) <==>
      forall chunks: seq<Text> :: Concat(chunks) == s ==> FeedAll([], chunks, limit) == Feed([], s, limit)
  {
    if RunsOk(s, limit) {
      forall chunks: seq<Text> | Concat(chunks) == s ensures FeedAll([], chunks, limit) == Feed([], s, limit) {
        assert [] + Concat(chunks) == s;
        ChunkingIrrelevant([], chunks, limit);
      }
    } else {
      var x, y := SomeSplitMatters(s, limit);
      TwoChunks(x, y, limit);
      ConcatTwo(x, y);
    }
  }

  lemma ConcatTwo(x: Text, y: Text)
    ensures Concat([x, y]) == x + y
  {
    assert [x, y][1..] == [y] && Concat([y]) == y + [];
  }

  // ---- frames that were sent come back ---------------------------------------------------------

  /** What send writes for a frame. */
  function Payload(frame: Text): Text {
    if frame != [] && frame[|frame| - 1] == NL then frame else frame + [NL]
  }

  function Wire(frames: seq<Text>): Text {
    if frames == [] then [] else Payload(frames[0]) + Wire(frames[1..])
  }

  /** A frame as JSON.stringify makes it: one line, not blank, not ending in CR. */
  predicate CleanFrame(f: Text) {
    f != [] && IndexOfNl(f) == |f| && f[|f| - 1] != CR && !Blank(f, JsSpace)
  }

  /** A frame on the wire, its line ended by NL or by CR NL. */
  datatype Line = Line(frame: Text, cr: bool)

  function LineText(x: Line): Text { if x.cr then x.frame + [CR] else x.frame }

  function WireOf(xs: seq<Line>): Text {
    if xs == [] then [] else LineText(xs[0]) + ([NL] + WireOf(xs[1..]))
  }

  function FramesOf(xs: seq<Line>): seq<Text> {
    if xs == [] then [] else [xs[0].frame] + FramesOf(xs[1..])
  }

  /** The line fits the limit, CR included; a line of one unit more is only safe without CR. */
  predicate Fits(x: Line, limit: nat) { CleanFrame(x.frame) && |x.frame| <= if x.cr then limit - 1 else limit + 1 }

  lemma LineReads(x: Line)
    requires CleanFrame(x.frame)
    ensures IndexOfNl(LineText(x)) == |LineText(x)| && LineFrames(LineText(x)) == [x.frame]
  {
    if x.cr {
      IndexIff(x.frame, |x.frame|);
      IndexIff(LineText(x), |LineText(x)|);
    }
  }

  lemma {:induction false} WireDrains(xs: seq<Line>)
    requires forall i :: 0 <= i < |xs| ==> CleanFrame(xs[i].frame)
    ensures Drain(WireOf(xs)) == Drained(FramesOf(xs), [])
  {
    if xs != [] {
      WireDrains(xs[1..]);
      LineReads(xs[0]);
      DrainLine(LineText(xs[0]), WireOf(xs[1..]));
    }
  }

  lemma LineThenRuns(line: Text, rest: Text, limit: nat)
    requires IndexOfNl(line) == |line| && LineOk(line, limit) && RunsOk(rest, limit)
    ensures RunsOk(line + ([NL] + rest), limit)
  {
    var s := line + ([NL] + rest);
    IndexOfNlAppend(line, [NL] + rest);
    assert s[..|line|] == line && s[|line| + 1..] == rest;
  }

  lemma {:induction false} WireRunsOk(xs: seq<Line>, limit: nat)
    requires forall i :: 0 <= i < |xs| ==> Fits(xs[i], limit)
    ensures RunsOk(WireOf(xs), limit)
  {
    if xs != [] {
      WireRunsOk(xs[1..], limit);
      LineReads(xs[0]);
      LineThenRuns(LineText(xs[0]), WireOf(xs[1..]), limit);
    }
  }

  lemma NoNlInside(s: Text, i: nat)
    requires IndexOfNl(s) == |s| && i < |s|
    ensures s[i] != NL
  {
    IndexIff(s, |s|);
  }

  /** Frames whose lines end with NL or CR NL are recovered exactly, however the pipe cuts them up. */
  lemma LinesRecovered(xs: seq<Line>, chunks: seq<Text>, limit: nat)
    requires (forall i :: 0 <= i < |xs| ==> Fits(xs[i], limit)) && Concat(chunks) == WireOf(xs)
    ensures FeedAll([], chunks, limit) == Drained(FramesOf(xs), [])
  {
    WireDrains(xs);
    WireRunsOk(xs, limit);
    assert [] + WireOf(xs) == WireOf(xs);
    ChunkingIrrelevant([], chunks, limit);
  }

  function Plain(frames: seq<Text>): (xs: seq<Line>)
    ensures |xs| == |frames| && forall i :: 0 <= i < |xs| ==> xs[i] == Line(frames[i], false)
  {
    seq(|frames|, i requires 0 <= i < |frames| => Line(frames[i], false))
  }

  lemma {:induction false} PlainWire(frames: seq<Text>)
    requires forall i :: 0 <= i < |frames| ==> CleanFrame(frames[i])
    ensures WireOf(Plain(frames)) == Wire(frames) && FramesOf(Plain(frames)) == frames
  {
    if frames != [] {
      var f := frames[0];
      PlainWire(frames[1..]);
      NoNlInside(f, |f| - 1);
      assert Plain(frames)[1..] == Plain(frames[1..]);
      assert f + [NL] + Wire(frames[1..]) == f + ([NL] + Wire(frames[1..]));
    }
  }

  /** Frames written one per send are recovered exactly, however the pipe cuts them up. */
  lemma FramesRecovered(frames: seq<Text>, chunks: seq<Text>, limit: nat)
    requires forall i :: 0 <= i < |frames| ==> CleanFrame(frames[i]) && |frames[i]| <= limit + 1
    requires Concat(chunks) == Wire(frames)
    ensures FeedAll([], chunks, limit) == Drained(frames, [])
  {
    PlainWire(frames);
    LinesRecovered(Plain(frames), chunks, limit);
  }
}
