/** The server-sent-events parser of the SSE transport. */
module EventStream {
  import opened Text
  import opened Sequences
  import opened Framing

  const COLON: CodeUnit := 0x3a
  const SPACE: CodeUnit := 0x20
  const EVENT: Text := [0x65, 0x76, 0x65, 0x6e, 0x74]
  const DATA: Text := [0x64, 0x61, 0x74, 0x61]
  const MESSAGE: Text := [0x6d, 0x65, 0x73, 0x73, 0x61, 0x67, 0x65]

  datatype SseEvent = SseEvent(event: Text, data: Text)

  // ---- finding the blank line that ends a block -------------------------------------------

  predicate NlNl(s: Text, i: nat) { i + 2 <= |s| && s[i] == NL && s[i + 1] == NL }

  predicate CrNlCrNl(s: Text, i: nat) {
    i + 4 <= |s| && s[i] == CR && s[i + 1] == NL && s[i + 2] == CR && s[i + 3] == NL
  }

  /** buffer.indexOf of one of the two separators, from i on; |s| when there is none. */
  function First(s: Text, i: nat, four: bool): (k: nat)
    requires i <= |s|
    ensures i <= k <= |s|
    ensures forall j :: i <= j < k ==> if four then !CrNlCrNl(s, j) else !NlNl(s, j)
    ensures k < |s| ==> if four then CrNlCrNl(s, k) else NlNl(s, k)
    decreases |s| - i
  {
    if i == |s| || (if four then CrNlCrNl(s, i) else NlNl(s, i)) then i else First(s, i + 1, four)
  }

  datatype Separator = NoSeparator | Separator(index: nat, length: nat)

  /** findSeparator. */
  function FindSeparator(s: Text): (sep: Separator)
    ensures sep.Separator? ==> 0 < sep.length && sep.index + sep.length <= |s|
  {
    var a, b := First(s, 0, false), First(s, 0, true);
    if a == |s| && b == |s| then NoSeparator
    else if a < |s| && a < b then Separator(a, 2)
    else Separator(b, 4)
  }

  // ---- parsing one block ----------------------------------------------------------------------

  /** block.split(/\r?\n/). */
  function Lines(block: Text): seq<Text> {
    var n := IndexOfNl(block);
    if n == |block| then [block] else [StripCr(block[..n])] + Lines(block[n + 1..])
  }

  function IndexOfColon(s: Text): (n: nat)
    ensures n <= |s|
  {
    if s == [] || s[0] == COLON then 0 else 1 + IndexOfColon(s[1..])
  }

  function FieldOf(line: Text): Text { line[..IndexOfColon(line)] }

  function ValueOf(line: Text): Text {
    var colon := IndexOfColon(line);
    var value := if colon < |line| then line[colon + 1..] else [];
    if value != [] && value[0] == SPACE then value[1..] else value
  }

  datatype Block = Block(event: Text, data: seq<Text>)

  function TakeField(b: Block, line: Text): Block {
    if line == [] || line[0] == COLON then b
    else if FieldOf(line) == EVENT then b.(event := ValueOf(line))
    else if FieldOf(line) == DATA then b.(data := b.data + [ValueOf(line)])
    else b
  }

  function TakeFields(b: Block, lines: seq<Text>, n: nat): Block
    requires n <= |lines|
  {
    if n == 0 then b else TakeField(TakeFields(b, lines, n - 1), lines[n - 1])
  }

  /** dataLines.join("\n"). */
  function JoinNl(lines: seq<Text>): Text {
    if lines == [] then [] else if |lines| == 1 then lines[0] else lines[0] + ([NL] + JoinNl(lines[1..]))
  }

  function BlockEvents(block: Text): seq<SseEvent> {
    var lines := Lines(block);
    var b := TakeFields(Block(MESSAGE, []), lines, |lines|);
    if b.data == [] then [] else [SseEvent(b.event, JoinNl(b.data))]
  }

  /** parseBlock. */
  method ParseBlock(block: Text) returns (events: seq<SseEvent>)
    ensures events == BlockEvents(block)
  {
    var lines := Lines(block);
    var event, dataLines := MESSAGE, [];
    for n := 0 to |lines|
      invariant Block(event, dataLines) == TakeFields(Block(MESSAGE, []), lines, n)
    {
      var rawLine := lines[n];
      if rawLine == [] || rawLine[0] == COLON {
        continue;
      }
      var field, value := FieldOf(rawLine), ValueOf(rawLine);
      if field == EVENT {
        event := value;
      } else if field == DATA {
        dataLines := dataLines + [value];
      }
    }
    return if dataLines == [] then [] else [SseEvent(event, JoinNl(dataLines))];
  }

  // ---- the parser -----------------------------------------------------------------------------

  datatype Parsed = Parsed(events: seq<SseEvent>, left: Text)

  function After(events: seq<SseEvent>, p: Parsed): Parsed { Parsed(events + p.events, p.left) }

  lemma AfterTwice(f: seq<SseEvent>, g: seq<SseEvent>, p: Parsed)
    ensures After(f, After(g, p)) == After(f + g, p)
  {
  }

  function Parse(buf: Text): Parsed {
    match FindSeparator(buf)
    case NoSeparator => Parsed([], buf)
    case Separator(i, len) => After(BlockEvents(buf[..i]), Parse(buf[i + len..]))
  }

  function PushAll(buf: Text, chunks: seq<Text>): Parsed
    decreases |chunks|
  {
    if chunks == [] then Parsed([], buf)
    else
      var first := Parse(buf + chunks[0]);
      After(first.events, PushAll(first.left, chunks[1..]))
  }

  lemma TakeBlock(buf: Text, events: seq<SseEvent>)
    requires FindSeparator(buf).Separator?
    ensures var sep := FindSeparator(buf);
      After(events, Parse(buf)) == After(events + BlockEvents(buf[..sep.index]), Parse(buf[sep.index + sep.length..]))
  {
    var sep := FindSeparator(buf);
    AfterTwice(events, BlockEvents(buf[..sep.index]), Parse(buf[sep.index + sep.length..]));
  }

  class SseParser {
    var buffer: Text

    constructor ()
      ensures buffer == []
    {
      buffer := [];
    }

    method Push(chunk: Text) returns (events: seq<SseEvent>)
      modifies this
      ensures Parsed(events, buffer) == Parse(old(buffer) + chunk)
    {
      buffer := buffer + chunk;
      events := [];
      ghost var all := Parse(buffer);
      var sep := FindSeparator(buffer);
      while sep.Separator?
        invariant sep == FindSeparator(buffer)
        invariant After(events, Parse(buffer)) == all
        decreases |buffer|
      {
        TakeBlock(buffer, events);
        var block := buffer[..sep.index];
        buffer := buffer[sep.index + sep.length..];
        var parsed := ParseBlock(block);
        events := events + parsed;
        sep := FindSeparator(buffer);
      }
    }
  }

  // ---- chunking does not matter -------------------------------------------------------------------

  lemma SameHere(a: Text, b: Text, i: nat)
    ensures i + 2 <= |a| ==> NlNl(a + b, i) == NlNl(a, i)
    ensures i + 4 <= |a| ==> CrNlCrNl(a + b, i) == CrNlCrNl(a, i)
  {
  }

  /** A separator found in a prefix is the one found in the whole: the longer kind cannot start
      before it and end after it. */
  lemma SeparatorStable(a: Text, b: Text)
    requires FindSeparator(a).Separator?
    ensures FindSeparator(a + b) == FindSeparator(a)
  {
    var sep := FindSeparator(a);
    var i := sep.index;
    forall j | 0 <= j <= i { SameHere(a, b, j); }
    forall j | 0 <= j < i ensures !NlNl(a + b, j) && !CrNlCrNl(a + b, j) {
      if CrNlCrNl(a + b, j) && j + 4 > |a| {
        assert false;
      }
    }
  }

  lemma {:induction false} ParseAppend(a: Text, b: Text)
    ensures Parse(a + b) == After(Parse(a).events, Parse(Parse(a).left + b))
    decreases |a|
  {
    match FindSeparator(a)
    case NoSeparator =>
      assert After([], Parse(a + b)) == Parse(a + b);
    case Separator(i, len) =>
      SeparatorStable(a, b);
      var tail := a[i + len..];
      assert (a + b)[..i] == a[..i] && (a + b)[i + len..] == tail + b;
      ParseAppend(tail, b);
      AfterTwice(BlockEvents(a[..i]), Parse(tail).events, Parse(Parse(tail).left + b));
  }

  /** Any chunking of a stream gives the same events and the same leftover as the whole. */
  lemma {:induction false} PushAllIsParse(buf: Text, chunks: seq<Text>)
    requires Parse(buf) == Parsed([], buf)
    ensures PushAll(buf, chunks) == Parse(buf + Concat(chunks))
    decreases |chunks|
  {
    if chunks == [] {
      assert buf + Concat(chunks) == buf;
    } else {
      var first, rest := Parse(buf + chunks[0]), Concat(chunks[1..]);
      assert buf + Concat(chunks) == buf + chunks[0] + rest;
      ParseAppend(buf + chunks[0], rest);
      LeftParsesToNothing(buf + chunks[0]);
      PushAllIsParse(first.left, chunks[1..]);
    }
  }

  lemma LeftParsesToNothing(buf: Text)
    ensures Parse(Parse(buf).left) == Parsed([], Parse(buf).left)
  {
    NoneLeft(buf);
  }

  lemma {:induction false} NoneLeft(buf: Text)
    ensures FindSeparator(Parse(buf).left).NoSeparator?
    decreases |buf|
  {
    var f := FindSeparator(buf);
    if f.Separator? {
      LeftIsOfRest(buf);
      NoneLeft(buf[f.index + f.length..]);
    }
  }

  lemma LeftIsOfRest(buf: Text)
    requires FindSeparator(buf).Separator?
    ensures var f := FindSeparator(buf); Parse(buf).left == Parse(buf[f.index + f.length..]).left
  {
  }

  // ---- blocks written as section 9.2.6 of the HTML standard describes come back -------------------

  predicate NoUnit(s: Text, c: CodeUnit) { forall i :: 0 <= i < |s| ==> s[i] != c }

  predicate Clean(s: Text) { NoUnit(s, NL) && NoUnit(s, CR) }

  /** A colon and a space, a colon alone, or neither. */
  datatype Style = Spaced | Tight | Bare

  /** A line: a field of any name, or a comment. */
  datatype Item = Field(name: Text, value: Text, style: Style) | Comment(text: Text)

  /** What the format can carry: one-line texts, no colon in a name, and in each style the values it can. */
  predicate GoodItem(x: Item) {
    match x
    case Comment(text) => Clean(text)
    case Field(name, value, style) =>
      && name != [] && Clean(name) && NoUnit(name, COLON) && Clean(value)
      && (style.Tight? ==> value == [] || value[0] != SPACE) && (style.Bare? ==> value == [])
  }

  function Render(x: Item): Text {
    match x
    case Comment(text) => [COLON] + text
    case Field(name, value, Spaced) => name + ([COLON] + ([SPACE] + value))
    case Field(name, value, Tight) => name + ([COLON] + value)
    case Field(name, _, Bare) => name
  }

  /** A line with its ending, CR NL or NL; the last one's is part of the end of the block. */
  datatype EndedItem = EndedItem(item: Item, cr: bool)

  function Ending(cr: bool): Text { if cr then [CR, NL] else [NL] }

  /** The lines of a block, which ends with two endings of one kind. */
  datatype Written = Written(lines: seq<EndedItem>, cr: bool)

  function BlockText(lines: seq<EndedItem>): Text {
    if lines == [] then [] else if |lines| == 1 then Render(lines[0].item)
    else Render(lines[0].item) + (Ending(lines[0].cr) + BlockText(lines[1..]))
  }

  function Write(w: Written): Text { BlockText(w.lines) + (Ending(w.cr) + Ending(w.cr)) }

  function WriteAll(ws: seq<Written>): Text {
    if ws == [] then [] else Write(ws[0]) + WriteAll(ws[1..])
  }

  predicate GoodBlock(w: Written) { w.lines != [] && forall i :: 0 <= i < |w.lines| ==> GoodItem(w.lines[i].item) }

  /** Data fields add up, the last event field counts, all else is ignored. */
  function Effect(b: Block, x: Item): Block {
    if x.Comment? then b
    else if x.name == EVENT then b.(event := x.value)
    else if x.name == DATA then b.(data := b.data + [x.value])
    else b
  }

  /** What the first n lines of a block say. */
  function Says(b: Block, lines: seq<EndedItem>, n: nat): Block
    requires n <= |lines|
  {
    if n == 0 then b else Effect(Says(b, lines, n - 1), lines[n - 1].item)
  }

  /** A block without data is no event. */
  function EventsOf(w: Written): seq<SseEvent> {
    var b := Says(Block(MESSAGE, []), w.lines, |w.lines|);
    if b.data == [] then [] else [SseEvent(b.event, JoinNl(b.data))]
  }

  function EventsOfAll(ws: seq<Written>): seq<SseEvent> {
    if ws == [] then [] else EventsOf(ws[0]) + EventsOfAll(ws[1..])
  }

  // ---- one line ------------------------------------------------------------------------------------

  lemma NoNlIndex(s: Text)
    requires NoUnit(s, NL)
    ensures IndexOfNl(s) == |s|
  {
    IndexIff(s, |s|);
  }

  lemma {:induction false} ColonAfter(field: Text, rest: Text)
    requires NoUnit(field, COLON)
    ensures IndexOfColon(field + ([COLON] + rest)) == |field| && IndexOfColon(field) == |field|
  {
    if field == [] {
      assert field + ([COLON] + rest) == [COLON] + rest;
    } else {
      assert (field + ([COLON] + rest))[1..] == field[1..] + ([COLON] + rest);
      ColonAfter(field[1..], rest);
    }
  }

  lemma RenderClean(x: Item)
    requires GoodItem(x)
    ensures Render(x) != [] && Clean(Render(x))
  {
  }

  lemma FieldReads(x: Item)
    requires GoodItem(x) && x.Field?
    ensures Render(x) != [] && Render(x)[0] != COLON && FieldOf(Render(x)) == x.name && ValueOf(Render(x)) == x.value
  {
    var line := Render(x);
    assert line[0] == x.name[0];
    ColonAfter(x.name, [SPACE] + x.value);
    ColonAfter(x.name, x.value);
    if !x.style.Bare? {
      assert line[|x.name| + 1..] == if x.style.Spaced? then [SPACE] + x.value else x.value;
    }
  }

  lemma TakeRendered(b: Block, x: Item)
    requires GoodItem(x)
    ensures TakeField(b, Render(x)) == Effect(b, x)
  {
    if x.Field? {
      FieldReads(x);
    }
  }

  // ---- the lines of a block ------------------------------------------------------------------------

  lemma LinesNl(line: Text, tail: Text)
    requires NoUnit(line, NL)
    ensures Lines(line + ([NL] + tail)) == [StripCr(line)] + Lines(tail)
  {
    NoNlIndex(line);
    IndexOfNlAppend(line, [NL] + tail);
    var s := line + ([NL] + tail);
    assert s[..|line|] == line && s[|line| + 1..] == tail;
  }

  lemma EndingText(l: Text, cr: bool, tail: Text)
    ensures l + (Ending(cr) + tail) == (if cr then l + [CR] else l) + ([NL] + tail)
  {
  }

  lemma LinesStep(l: Text, cr: bool, tail: Text)
    requires Clean(l)
    ensures Lines(l + (Ending(cr) + tail)) == [l] + Lines(tail)
  {
    EndingText(l, cr, tail);
    LinesNl(if cr then l + [CR] else l, tail);
    StripEnding(l, cr);
  }

  lemma LastLine(l: Text)
    requires Clean(l)
    ensures Lines(l) == [l]
  {
    NoNlIndex(l);
  }

  lemma StripEnding(l: Text, cr: bool)
    requires Clean(l)
    ensures StripCr(if cr then l + [CR] else l) == l
  {
    if cr {
      assert (l + [CR])[..|l|] == l;
    }
  }

  ghost predicate Rendered(lines: seq<EndedItem>, texts: seq<Text>) {
    |texts| == |lines| && forall i :: 0 <= i < |lines| ==> texts[i] == Render(lines[i].item)
  }

  predicate CleanText(x: EndedItem) { Render(x.item) != [] && Clean(Render(x.item)) }

  ghost predicate AllClean(lines: seq<EndedItem>) {
    lines != [] && forall i :: 0 <= i < |lines| ==> CleanText(lines[i])
  }

  lemma {:induction false} BlockLines(lines: seq<EndedItem>)
    requires AllClean(lines)
    ensures Rendered(lines, Lines(BlockText(lines)))
  {
    assert CleanText(lines[0]);
    if |lines| == 1 {
      LastLine(Render(lines[0].item));
    } else {
      BlockLines(lines[1..]);
      LinesStep(Render(lines[0].item), lines[0].cr, BlockText(lines[1..]));
    }
  }

  /** Each text has the effect of its line. */
  ghost predicate Agree(lines: seq<EndedItem>, texts: seq<Text>) {
    |texts| == |lines| && forall i, b {:trigger TakeField(b, texts[i])} :: 0 <= i < |lines| ==>
      TakeField(b, texts[i]) == Effect(b, lines[i].item)
  }

  lemma {:induction false} FieldsRead(b: Block, lines: seq<EndedItem>, texts: seq<Text>, n: nat)
    requires Agree(lines, texts) && n <= |lines|
    ensures TakeFields(b, texts, n) == Says(b, lines, n)
  {
    if n > 0 {
      FieldsRead(b, lines, texts, n - 1);
    }
  }

  lemma GoodLines(w: Written)
    requires GoodBlock(w)
    ensures AllClean(w.lines) && forall texts :: Rendered(w.lines, texts) ==> Agree(w.lines, texts)
  {
    forall i | 0 <= i < |w.lines| ensures CleanText(w.lines[i]) {
      RenderClean(w.lines[i].item);
    }
    forall texts | Rendered(w.lines, texts) ensures Agree(w.lines, texts) {
      forall i, b | 0 <= i < |w.lines| ensures TakeField(b, texts[i]) == Effect(b, w.lines[i].item) {
        TakeRendered(b, w.lines[i].item);
      }
    }
  }

  lemma BlockReads(w: Written)
    requires GoodBlock(w)
    ensures BlockEvents(BlockText(w.lines)) == EventsOf(w)
  {
    GoodLines(w);
    BlockLines(w.lines);
    FieldsRead(Block(MESSAGE, []), w.lines, Lines(BlockText(w.lines)), |w.lines|);
  }

  // ---- the end of a block --------------------------------------------------------------------------

  predicate Inner(c: CodeUnit) { c != NL && c != CR }

  /** Starts and ends inside a line, and no line is empty. */
  predicate Shape(s: Text) {
    && s != [] && Inner(s[0]) && Inner(s[|s| - 1])
    && forall i :: 0 <= i < |s| - 1 && s[i] == NL ==> Inner(s[i + 1])
  }

  lemma ShapeCons(l: Text, cr: bool, tail: Text)
    requires l != [] && Clean(l) && Shape(tail)
    ensures Shape(l + (Ending(cr) + tail))
  {
    var s, n := l + (Ending(cr) + tail), |l| + |Ending(cr)|;
    assert forall i :: n <= i < |s| ==> s[i] == tail[i - n];
    assert forall i :: 0 <= i < |l| ==> s[i] == l[i];
  }

  lemma {:induction false} BlockShape(lines: seq<EndedItem>)
    requires AllClean(lines)
    ensures Shape(BlockText(lines))
  {
    assert CleanText(lines[0]);
    if |lines| > 1 {
      BlockShape(lines[1..]);
      ShapeCons(Render(lines[0].item), lines[0].cr, BlockText(lines[1..]));
    }
  }

  lemma BlockFound(block: Text, cr: bool, rest: Text)
    requires Shape(block)
    ensures FindSeparator(block + (Ending(cr) + Ending(cr)) + rest) == Separator(|block|, if cr then 4 else 2)
  {
    var s := block + (Ending(cr) + Ending(cr)) + rest;
    forall j | 0 <= j < |block| ensures !NlNl(s, j) && !CrNlCrNl(s, j) {
      assert s[j] == block[j];
      if j + 1 < |block| {
        assert s[j + 1] == block[j + 1];
        if j + 2 < |block| {
          assert s[j + 2] == block[j + 2];
        }
      }
    }
    assert if cr then CrNlCrNl(s, |block|) && !NlNl(s, |block|) else NlNl(s, |block|) && !CrNlCrNl(s, |block|);
  }

  lemma OneBlock(w: Written, rest: Text)
    requires GoodBlock(w)
    ensures Parse(Write(w) + rest) == After(EventsOf(w), Parse(rest))
  {
    var block, ending := BlockText(w.lines), Ending(w.cr) + Ending(w.cr);
    GoodLines(w);
    BlockShape(w.lines);
    BlockFound(block, w.cr, rest);
    BlockReads(w);
    var s := block + ending + rest;
    assert s[..|block|] == block && s[|block| + |ending|..] == rest;
  }

  /** Whatever a server writes block by block, in any mix of styles, fields, comments and line endings, is
      read back as what the blocks say. */
  lemma {:induction false} BlocksRecovered(ws: seq<Written>)
    requires forall i :: 0 <= i < |ws| ==> GoodBlock(ws[i])
    ensures Parse(WriteAll(ws)) == Parsed(EventsOfAll(ws), [])
  {
    if ws != [] {
      BlocksRecovered(ws[1..]);
      OneBlock(ws[0], WriteAll(ws[1..]));
    }
  }

  lemma BlocksRecoveredInChunks(ws: seq<Written>, chunks: seq<Text>)
    requires (forall i :: 0 <= i < |ws| ==> GoodBlock(ws[i])) && Concat(chunks) == WriteAll(ws)
    ensures PushAll([], chunks) == Parsed(EventsOfAll(ws), [])
  {
    assert [] + Concat(chunks) == Concat(chunks);
    PushAllIsParse([], chunks);
    BlocksRecovered(ws);
  }

  // ---- every event can be written ------------------------------------------------------------------

  /** data cut at its newlines. */
  function SplitNl(data: Text): (r: seq<Text>)
    ensures r != []
  {
    var n := IndexOfNl(data);
    if n == |data| then [data] else [data[..n]] + SplitNl(data[n + 1..])
  }

  /** What the format can carry: no CR, and a one-line event name. */
  predicate Encodable(e: SseEvent) { Clean(e.event) && NoUnit(e.data, CR) }

  lemma SplitNlGood(data: Text)
    requires NoUnit(data, CR)
    ensures JoinNl(SplitNl(data)) == data
    ensures forall i :: 0 <= i < |SplitNl(data)| ==> Clean(SplitNl(data)[i])
  {
    SplitNlJoins(data);
    SplitNlClean(data);
  }

  lemma {:induction false} SplitNlJoins(data: Text)
    ensures JoinNl(SplitNl(data)) == data
  {
    var n := IndexOfNl(data);
    if n < |data| {
      IndexIff(data, n);
      SplitNlJoins(data[n + 1..]);
      JoinNlCons(data[..n], SplitNl(data[n + 1..]));
      CutAtNl(data, n);
    }
  }

  lemma CutAtNl(data: Text, n: nat)
    requires n < |data| && data[n] == NL
    ensures data == data[..n] + ([NL] + data[n + 1..])
  {
  }

  lemma JoinNlCons(line: Text, rest: seq<Text>)
    requires rest != []
    ensures JoinNl([line] + rest) == line + ([NL] + JoinNl(rest))
  {
    assert ([line] + rest)[1..] == rest;
  }

  lemma {:induction false} SplitNlClean(data: Text)
    requires NoUnit(data, CR)
    ensures forall i :: 0 <= i < |SplitNl(data)| ==> Clean(SplitNl(data)[i])
  {
    var n := IndexOfNl(data);
    FirstLineHasNoNl(data);
    if n < |data| {
      SplitNlClean(data[n + 1..]);
    }
  }

  lemma FirstLineHasNoNl(s: Text)
    ensures NoUnit(s[..IndexOfNl(s)], NL)
  {
    IndexIff(s, IndexOfNl(s));
  }

  /** An event line and a data line per line of the data. */
  function Encode(e: SseEvent): (w: Written)
    ensures |w.lines| == |SplitNl(e.data)| + 1 && w.lines[0] == EndedItem(Field(EVENT, e.event, Spaced), false)
    ensures forall i :: 0 <= i < |SplitNl(e.data)| ==>
      w.lines[i + 1] == EndedItem(Field(DATA, SplitNl(e.data)[i], Spaced), false)
  {
    var values := SplitNl(e.data);
    Written([EndedItem(Field(EVENT, e.event, Spaced), false)]
            + seq(|values|, i requires 0 <= i < |values| => EndedItem(Field(DATA, values[i], Spaced), false)), false)
  }

  lemma {:induction false} EncodeSays(e: SseEvent, n: nat)
    requires n <= |SplitNl(e.data)|
    ensures Says(Block(MESSAGE, []), Encode(e).lines, n + 1) == Block(e.event, SplitNl(e.data)[..n])
  {
    var lines, values := Encode(e).lines, SplitNl(e.data);
    if n > 0 {
      EncodeSays(e, n - 1);
      assert lines[n] == EndedItem(Field(DATA, values[n - 1], Spaced), false);
      assert values[..n] == values[..n - 1] + [values[n - 1]];
    } else {
      assert Says(Block(MESSAGE, []), lines, 0) == Block(MESSAGE, []);
    }
  }

  lemma NameGood(name: Text, value: Text)
    requires (name == EVENT || name == DATA) && Clean(value)
    ensures GoodItem(Field(name, value, Spaced))
  {
  }

  /** An event that the format can carry is said by its own encoding. */
  lemma EncodeGood(e: SseEvent)
    requires Encodable(e)
    ensures GoodBlock(Encode(e)) && EventsOf(Encode(e)) == [e]
  {
    var lines, values := Encode(e).lines, SplitNl(e.data);
    SplitNlGood(e.data);
    EncodeSays(e, |values|);
    assert values[..|values|] == values;
    forall i | 0 <= i < |lines| ensures GoodItem(lines[i].item) {
      if i == 0 {
        NameGood(EVENT, e.event);
      } else {
        NameGood(DATA, values[i - 1]);
        assert lines[i] == EndedItem(Field(DATA, values[i - 1], Spaced), false);
      }
    }
  }

  function EncodeAll(events: seq<SseEvent>): seq<Written> {
    if events == [] then [] else [Encode(events[0])] + EncodeAll(events[1..])
  }

  lemma {:induction false} EncodeAllGood(events: seq<SseEvent>)
    requires forall i :: 0 <= i < |events| ==> Encodable(events[i])
    ensures (forall i :: 0 <= i < |EncodeAll(events)| ==> GoodBlock(EncodeAll(events)[i]))
    ensures EventsOfAll(EncodeAll(events)) == events
  {
    if events != [] {
      EncodeGood(events[0]);
      EncodeAllGood(events[1..]);
      assert EncodeAll(events)[1..] == EncodeAll(events[1..]);
    }
  }

  /** Events written one after the other are read back event for event. */
  lemma EventsRecovered(events: seq<SseEvent>)
    requires forall i :: 0 <= i < |events| ==> Encodable(events[i])
    ensures Parse(WriteAll(EncodeAll(events))) == Parsed(events, [])
  {
    EncodeAllGood(events);
    BlocksRecovered(EncodeAll(events));
  }

  lemma EventsRecoveredInChunks(events: seq<SseEvent>, chunks: seq<Text>)
    requires forall i :: 0 <= i < |events| ==> Encodable(events[i])
    requires Concat(chunks) == WriteAll(EncodeAll(events))
    ensures PushAll([], chunks) == Parsed(events, [])
  {
    EncodeAllGood(events);
    BlocksRecoveredInChunks(EncodeAll(events), chunks);
  }
}
