/** The gateway's marker injector: it passes an event stream through line by line and puts marker
    lines in front of the events that end it. JSON is left to a codec of uninterpreted functions. */
module MarkerInjector {
  import opened Options

  // ---- lines ----------------------------------------------------------------------------------------

  predicate IsSpace(c: char) {
    || '\t' <= c <= '\r' || c == ' ' || c == '\U{85}' || c == '\U{A0}' || c == '\U{1680}'
    || '\U{2000}' <= c <= '\U{200A}' || c == '\U{2028}' || c == '\U{2029}' || c == '\U{202F}' || c == '\U{205F}'
    || c == '\U{3000}'
  }

  function FirstInk(s: string, i: nat): (n: nat)
    requires i <= |s|
    ensures i <= n <= |s|
    decreases |s| - i
  {
    if i < |s| && IsSpace(s[i]) then FirstInk(s, i + 1) else i
  }

  function LastInk(s: string, lo: nat, j: nat): (n: nat)
    requires lo <= j <= |s|
    ensures lo <= n <= j
  {
    if lo < j && IsSpace(s[j - 1]) then LastInk(s, lo, j - 1) else j
  }

  /** strings.TrimSpace. */
  function Trim(s: string): string {
    var lo := FirstInk(s, 0);
    s[lo..LastInk(s, lo, |s|)]
  }

  predicate OccursAt(s: string, sub: string, i: nat) { i + |sub| <= |s| && s[i..i + |sub|] == sub }

  predicate Contains(s: string, sub: string) { exists i | 0 <= i <= |s| :: OccursAt(s, sub, i) }

  function DataOf(trimmed: string): Option<string> {
    if "data:" <= trimmed then Some(Trim(trimmed[5..])) else None
  }

  predicate IsDone(line: string) { Trim(line) == "data: [DONE]" }

  predicate IsCompletedEvent(line: string) { "event: response.completed" <= Trim(line) }

  predicate IsCompletedData(line: string) {
    "data: {" <= Trim(line) && Contains(Trim(line), "\"type\":\"response.completed\"")
  }

  lemma KindsExclude(line: string)
    ensures !(IsDone(line) && IsCompletedEvent(line)) && !(IsDone(line) && IsCompletedData(line))
    ensures !(IsCompletedEvent(line) && IsCompletedData(line))
  {
    var t := Trim(line);
    assert "data: {" <= t ==> t[0] == 'd' && t[6] == '{';
    assert "event: response.completed" <= t ==> t[0] == 'e';
    assert t == "data: [DONE]" ==> t[0] == 'd' && t[6] == '[';
  }

  // ---- completed snapshots ------------------------------------------------------------------------------

  /** The other fields of an object, or a value that is of no interest, as JSON text. */
  type Rest = string

  /** A part of an item's content; only output_text parts whose text is a string matter. */
  datatype Part = OutputText(text: string, rest: Rest) | OtherPart(rest: Rest)

  datatype Item = Message(parts: seq<Part>, rest: Rest) | OtherItem(rest: Rest)

  /** A completed response event with all its fields; `items` is its output list. */
  datatype Snapshot = Snapshot(items: seq<Item>, rest: Rest)

  const MARKER: string := " (proxy)"

  predicate TextAt(s: Snapshot, i: int, j: int) {
    0 <= i < |s.items| && s.items[i].Message? && 0 <= j < |s.items[i].parts| && s.items[i].parts[j].OutputText?
  }

  predicate Before(i: int, j: int, k: int, l: int) { i < k || (i == k && j < l) }

  /** (i, j) is the last text of the snapshot. */
  ghost predicate LastText(s: Snapshot, i: int, j: int) {
    TextAt(s, i, j) && forall k, l :: TextAt(s, k, l) ==> !Before(i, j, k, l)
  }

  ghost predicate HasText(s: Snapshot) { exists i, j :: TextAt(s, i, j) }

  function MarkAt(s: Snapshot, i: int, j: int): Snapshot
    requires TextAt(s, i, j)
  {
    var item := s.items[i];
    var part := item.parts[j];
    s.(items := s.items[i := item.(parts := item.parts[j := part.(text := part.text + MARKER)])])
  }

  /** s with the marker appended to its last text, and nothing else changed; None if it has no text. */
  ghost predicate Marked(s: Snapshot, r: Option<Snapshot>) {
    if HasText(s) then exists i, j :: LastText(s, i, j) && r == Some(MarkAt(s, i, j)) else r == None
  }

  /** The last text of one item, or -1. */
  method LastTextIn(parts: seq<Part>) returns (j: int)
    ensures -1 <= j < |parts| && (j >= 0 ==> parts[j].OutputText?)
    ensures forall l :: j < l < |parts| ==> !parts[l].OutputText?
  {
    j := |parts| - 1;
    while j >= 0 && !parts[j].OutputText?
      invariant -1 <= j < |parts| && forall l :: j < l < |parts| ==> !parts[l].OutputText?
    {
      j := j - 1;
    }
  }

  /** The snapshot's search from the back. */
  method MarkSnapshot(s: Snapshot) returns (r: Option<Snapshot>)
    ensures Marked(s, r)
  {
    var i := |s.items| - 1;
    while i >= 0
      invariant -1 <= i < |s.items|
      invariant forall k, l :: i < k ==> !TextAt(s, k, l)
    {
      if s.items[i].Message? {
        var j := LastTextIn(s.items[i].parts);
        if j >= 0 {
          assert TextAt(s, i, j);
          assert LastText(s, i, j);
          return Some(MarkAt(s, i, j));
        }
      }
      i := i - 1;
    }
    return None;
  }

  lemma LastTextUnique(s: Snapshot, i: int, j: int, k: int, l: int)
    requires LastText(s, i, j) && LastText(s, k, l)
    ensures i == k && j == l
  {
    assert !Before(i, j, k, l) && !Before(k, l, i, j);
  }

  lemma MarkedUnique(s: Snapshot, r: Option<Snapshot>, q: Option<Snapshot>)
    requires Marked(s, r) && Marked(s, q)
    ensures r == q
  {
    if HasText(s) {
      var i, j :| LastText(s, i, j) && r == Some(MarkAt(s, i, j));
      var k, l :| LastText(s, k, l) && q == Some(MarkAt(s, k, l));
      LastTextUnique(s, i, j, k, l);
    }
  }

  // ---- the stream ----------------------------------------------------------------------------------------

  datatype Ids = Ids(item: string, output: int, content: int)

  datatype LineKind = Done | CompletedEvent | CompletedData | Plain

  /** What the injector reads off a line: its kind, the ids of a text delta it carries, and, if it is
      a completed data line, its snapshot (None if it does not parse or holds no output list). */
  datatype Reading = Reading(kind: LineKind, delta: Option<Ids>, snapshot: Option<Snapshot>)

  /** How lines are read and marker lines are written. */
  datatype Codec = Codec(read: string -> Reading, chatBlock: seq<string>, deltaBlock: Ids -> seq<string>,
                         showData: Snapshot -> string)

  /** JSON, seen from outside. */
  datatype Json = Json(deltaOf: string -> Option<Ids>, snapshotOf: string -> Option<Snapshot>,
                       show: Snapshot -> string, showDelta: Ids -> string, chatChunk: string)

  function Classify(line: string): LineKind {
    if IsDone(line) then Done else if IsCompletedEvent(line) then CompletedEvent
    else if IsCompletedData(line) then CompletedData else Plain
  }

  function ReadLine(json: Json, line: string): Reading {
    var data := DataOf(Trim(line));
    Reading(Classify(line), if data.None? then None else json.deltaOf(data.value),
            if data.None? || !IsCompletedData(line) then None else json.snapshotOf(data.value))
  }

  /** The gateway's own reading and writing. */
  function Gateway(json: Json): Codec {
    Codec(line => ReadLine(json, line), ["data: " + json.chatChunk, ""],
          (d: Ids) => ["event: response.output_text.delta", "data: " + json.showDelta(d), ""],
          s => "data: " + json.show(s))
  }

  /** The tests of a line exclude each other, so their order does not matter. */
  lemma GatewayKinds(json: Json, line: string)
    ensures var kind := Gateway(json).read(line).kind;
      && (kind.Done? <==> IsDone(line)) && (kind.CompletedEvent? <==> IsCompletedEvent(line))
      && (kind.CompletedData? <==> IsCompletedData(line))
    ensures IsCompletedEvent(line) ==> Gateway(json).read(line).delta == None
  {
    KindsExclude(line);
    var t := Trim(line);
    assert IsCompletedEvent(line) ==> t[0] == 'e';
    assert "data:" <= t ==> t[0] == 'd';
  }

  /** The ids of the last text delta among the first n lines. */
  function LastDelta(codec: Codec, lines: seq<string>, n: nat): Option<Ids>
    requires n <= |lines|
  {
    if n == 0 then None
    else
      var d := codec.read(lines[n - 1]).delta;
      if d.Some? then d else LastDelta(codec, lines, n - 1)
  }

  lemma {:induction false} LastDeltaLocal(codec: Codec, a: seq<string>, b: seq<string>, n: nat)
    requires n <= |a| && n <= |b| && forall i :: 0 <= i < n ==> a[i] == b[i]
    ensures LastDelta(codec, a, n) == LastDelta(codec, b, n)
  {
    if n > 0 {
      LastDeltaLocal(codec, a, b, n - 1);
    }
  }

  function DeltaBlock(codec: Codec, d: Option<Ids>): seq<string> { if d.None? then [] else codec.deltaBlock(d.value) }

  predicate AfterCompletedEvent(codec: Codec, lines: seq<string>, i: nat) {
    0 < i <= |lines| && codec.read(lines[i - 1]).kind.CompletedEvent?
  }

  /** The marker block owed before line i: one for each [DONE]; once a delta was seen, one for each
      completed event line and one for each completed data line that does not directly follow one. */
  function Block(codec: Codec, lines: seq<string>, i: nat): seq<string>
    requires i < |lines|
  {
    match codec.read(lines[i]).kind
    case Done => codec.chatBlock
    case CompletedEvent => DeltaBlock(codec, LastDelta(codec, lines, i + 1))
    case CompletedData =>
      if AfterCompletedEvent(codec, lines, i) then [] else DeltaBlock(codec, LastDelta(codec, lines, i + 1))
    case Plain => []
  }

  /** What becomes of a line itself: completed data lines may carry the marker, others are kept. */
  ghost predicate Carried(codec: Codec, line: string, out: string) {
    var reading := codec.read(line);
    if !reading.kind.CompletedData? || reading.snapshot.None? then out == line
    else exists r :: Marked(reading.snapshot.value, r) && out == if r.Some? then codec.showData(r.value) else line
  }

  /** What a line gives after the lines before it: the block owed, then the line as carried. */
  ghost predicate Emits(codec: Codec, before: seq<string>, line: string, out: seq<string>) {
    && out != [] && out[..|out| - 1] == Block(codec, before + [line], |before|)
    && Carried(codec, line, out[|out| - 1])
  }

  lemma EmitsBoth(codec: Codec, before: seq<string>, line: string, block: seq<string>, carried: string)
    requires block == Block(codec, before + [line], |before|) && Carried(codec, line, carried)
    ensures Emits(codec, before, line, block + [carried])
  {
    assert (block + [carried])[..|block|] == block;
  }

  // ---- the injector ----------------------------------------------------------------------------------------

  class SseMarkerInjector {
    const inferencePath: bool
    const codec: Codec
    var itemID: string
    var outputIndex: int
    var contentIndex: int
    var sawDeltas: bool
    var completedSeen: bool
    ghost var seen: seq<string>

    ghost predicate Valid()
      reads this
    {
      && completedSeen == AfterCompletedEvent(codec, seen, |seen|)
      && sawDeltas == LastDelta(codec, seen, |seen|).Some?
      && (sawDeltas ==> LastDelta(codec, seen, |seen|) == Some(Ids(itemID, outputIndex, contentIndex)))
      && (!sawDeltas ==> itemID == "")
    }

    constructor (inferencePath: bool, codec: Codec)
      ensures Valid() && seen == [] && this.inferencePath == inferencePath && this.codec == codec
    {
      this.inferencePath, this.codec := inferencePath, codec;
      itemID, outputIndex, contentIndex, sawDeltas, completedSeen := "", 0, 0, false, false;
      seen := [];
    }

    /** Tracks the ids of the most recent text delta. */
    method Track(line: string)
      requires Valid()
      modifies this`itemID, this`outputIndex, this`contentIndex, this`sawDeltas
      ensures sawDeltas == LastDelta(codec, seen + [line], |seen| + 1).Some?
      ensures sawDeltas ==> LastDelta(codec, seen + [line], |seen| + 1) == Some(Ids(itemID, outputIndex, contentIndex))
      ensures !sawDeltas ==> itemID == ""
    {
      LastDeltaLocal(codec, seen + [line], seen, |seen|);
      var d := codec.read(line).delta;
      if d.Some? {
        itemID, outputIndex, contentIndex, sawDeltas := d.value.item, d.value.output, d.value.content, true;
      }
    }

    function MarkerDelta(): seq<string>
      reads this
    {
      if sawDeltas || itemID != "" then DeltaBlock(codec, Some(Ids(itemID, outputIndex, contentIndex))) else []
    }

    /** The completed snapshot's final text, marked in place. */
    method MutateCompleted(line: string) returns (out: string)
      requires codec.read(line).kind.CompletedData?
      ensures Carried(codec, line, out)
    {
      out := line;
      var snapshot := codec.read(line).snapshot;
      if snapshot.Some? {
        var r := MarkSnapshot(snapshot.value);
        if r.Some? {
          out := codec.showData(r.value);
        }
      }
    }

    /** The lines injected before `line`. */
    method Inject(line: string, kind: LineKind) returns (injected: seq<string>)
      requires kind == codec.read(line).kind && completedSeen == AfterCompletedEvent(codec, seen, |seen|)
      requires sawDeltas == LastDelta(codec, seen + [line], |seen| + 1).Some? && (!sawDeltas ==> itemID == "")
      requires sawDeltas ==> LastDelta(codec, seen + [line], |seen| + 1) == Some(Ids(itemID, outputIndex, contentIndex))
      ensures injected == Block(codec, seen + [line], |seen|)
    {
      injected := [];
      if kind.Done? {
        injected := codec.chatBlock;
      } else if kind.CompletedEvent? || (kind.CompletedData? && !completedSeen) {
        injected := MarkerDelta();
      }
    }

    method Remember(line: string, isEvent: bool)
      requires isEvent == codec.read(line).kind.CompletedEvent?
      modifies this`completedSeen, this`seen
      ensures seen == old(seen) + [line] && completedSeen == AfterCompletedEvent(codec, seen, |seen|)
    {
      completedSeen := isEvent;
      seen := seen + [line];
    }

    /** transform: the line itself is last, after the block owed before it. */
    method Transform(line: string) returns (out: seq<string>)
      requires Valid()
      modifies this
      ensures !inferencePath ==> Valid() && seen == old(seen) && out == [line]
      ensures inferencePath ==> Valid() && seen == old(seen) + [line]
      ensures inferencePath ==> Emits(codec, old(seen), line, out)
    {
      if !inferencePath {
        return [line];
      }
      Track(line);
      var kind := codec.read(line).kind;
      var injected := Inject(line, kind);
      Remember(line, kind.CompletedEvent?);
      var carried := line;
      if kind.CompletedData? {
        carried := MutateCompleted(line);
      }
      out := injected + [carried];
      EmitsBoth(codec, old(seen), line, injected, carried);
    }
  }

  // ---- whole streams ------------------------------------------------------------------------------------------

  lemma BlockLocal(codec: Codec, lines: seq<string>, i: nat, n: nat)
    requires i < n <= |lines|
    ensures Block(codec, lines[..n], i) == Block(codec, lines, i)
  {
    LastDeltaLocal(codec, lines[..n], lines, i + 1);
  }

  /** The carried lines, each behind its block. */
  function Weave(blocks: seq<seq<string>>, carried: seq<string>): seq<string>
    requires |blocks| == |carried|
  {
    if blocks == [] then []
    else
      var n := |blocks| - 1;
      Weave(blocks[..n], carried[..n]) + blocks[n] + [carried[n]]
  }

  lemma WeaveSnoc(blocks: seq<seq<string>>, carried: seq<string>, b: seq<string>, c: string)
    requires |blocks| == |carried|
    ensures Weave(blocks + [b], carried + [c]) == Weave(blocks, carried) + b + [c]
  {
    assert (blocks + [b])[..|blocks|] == blocks && (carried + [c])[..|blocks|] == carried;
  }

  ghost predicate Owed(codec: Codec, lines: seq<string>, i: nat, block: seq<string>)
    requires i < |lines|
  {
    block == Block(codec, lines, i)
  }

  /** What came of a stream: per line its block and the line as carried. */
  ghost predicate Faithful(codec: Codec, lines: seq<string>, blocks: seq<seq<string>>, carried: seq<string>) {
    && |blocks| == |carried| == |lines|
    && forall i :: 0 <= i < |lines| ==> Owed(codec, lines, i, blocks[i]) && Carried(codec, lines[i], carried[i])
  }

  lemma FaithfulSnoc(codec: Codec, lines: seq<string>, blocks: seq<seq<string>>, carried: seq<string>, line: string,
                     c: string)
    requires Faithful(codec, lines, blocks, carried) && Carried(codec, line, c)
    ensures Faithful(codec, lines + [line], blocks + [Block(codec, lines + [line], |lines|)], carried + [c])
  {
    var all, b, c' := lines + [line], blocks + [Block(codec, lines + [line], |lines|)], carried + [c];
    forall i | 0 <= i < |all| ensures Owed(codec, all, i, b[i]) && Carried(codec, all[i], c'[i]) {
      if i < |lines| {
        assert Owed(codec, lines, i, blocks[i]) && all[..|lines|] == lines;
        BlockLocal(codec, all, i, |lines|);
      }
    }
  }

  lemma StreamStep(codec: Codec, lines: seq<string>, i: nat, blocks: seq<seq<string>>, carried: seq<string>,
                   now: seq<string>)
    requires i < |lines| && Faithful(codec, lines[..i], blocks, carried) && Emits(codec, lines[..i], lines[i], now)
    ensures var b, c := now[..|now| - 1], now[|now| - 1];
      && Faithful(codec, lines[..i + 1], blocks + [b], carried + [c])
      && Weave(blocks + [b], carried + [c]) == Weave(blocks, carried) + now
  {
    var b, c := now[..|now| - 1], now[|now| - 1];
    assert lines[..i + 1] == lines[..i] + [lines[i]];
    FaithfulSnoc(codec, lines[..i], blocks, carried, lines[i], c);
    WeaveSnoc(blocks, carried, b, c);
    assert now == b + [c];
  }

  /** The output is each line as carried behind the block owed before it, and nothing else. */
  ghost predicate Injected(codec: Codec, lines: seq<string>, out: seq<string>) {
    exists blocks, carried :: Faithful(codec, lines, blocks, carried) && out == Weave(blocks, carried)
  }

  lemma CarriedUnique(codec: Codec, line: string, x: string, y: string)
    requires Carried(codec, line, x) && Carried(codec, line, y)
    ensures x == y
  {
    var reading := codec.read(line);
    if reading.kind.CompletedData? && reading.snapshot.Some? {
      var s := reading.snapshot.value;
      var r :| Marked(s, r) && x == if r.Some? then codec.showData(r.value) else line;
      var q :| Marked(s, q) && y == if q.Some? then codec.showData(q.value) else line;
      MarkedUnique(s, r, q);
    }
  }

  /** The lines of a stream determine the output. */
  lemma InjectedUnique(codec: Codec, lines: seq<string>, a: seq<string>, b: seq<string>)
    requires Injected(codec, lines, a) && Injected(codec, lines, b)
    ensures a == b
  {
    var blocks, carried :| Faithful(codec, lines, blocks, carried) && a == Weave(blocks, carried);
    var blocks', carried' :| Faithful(codec, lines, blocks', carried') && b == Weave(blocks', carried');
    forall i | 0 <= i < |lines| ensures blocks[i] == blocks'[i] && carried[i] == carried'[i] {
      assert Owed(codec, lines, i, blocks[i]) && Owed(codec, lines, i, blocks'[i]);
      CarriedUnique(codec, lines[i], carried[i], carried'[i]);
    }
    assert blocks == blocks' && carried == carried';
  }

  /** Feeding a whole stream to a new injector. */
  method TransformStream(codec: Codec, lines: seq<string>) returns (out: seq<string>)
    ensures Injected(codec, lines, out)
  {
    var m := new SseMarkerInjector(true, codec);
    out := [];
    ghost var blocks: seq<seq<string>> := [];
    ghost var carried: seq<string> := [];
    for i := 0 to |lines|
      invariant fresh(m) && m.Valid() && m.inferencePath && m.codec == codec && m.seen == lines[..i]
      invariant Faithful(codec, lines[..i], blocks, carried) && out == Weave(blocks, carried)
    {
      assert lines[..i + 1] == lines[..i] + [lines[i]];
      var now := m.Transform(lines[i]);
      StreamStep(codec, lines, i, blocks, carried, now);
      out := out + now;
      blocks, carried := blocks + [now[..|now| - 1]], carried + [now[|now| - 1]];
    }
    assert lines[..|lines|] == lines;
  }

  lemma {:induction false} WeavePrefix(blocks: seq<seq<string>>, carried: seq<string>, n: nat)
    requires |blocks| == |carried| && n <= |blocks|
    ensures Weave(blocks[..n], carried[..n]) <= Weave(blocks, carried)
    decreases |blocks|
  {
    if n < |blocks| {
      var k := |blocks| - 1;
      WeavePrefix(blocks[..k], carried[..k], n);
      assert blocks[..k][..n] == blocks[..n] && carried[..k][..n] == carried[..n];
    } else {
      assert blocks[..n] == blocks && carried[..n] == carried;
    }
  }

  /** Where line i of the input stands in the output. */
  function Position(blocks: seq<seq<string>>, carried: seq<string>, i: nat): nat
    requires |blocks| == |carried| && i < |blocks|
  {
    |Weave(blocks[..i], carried[..i])| + |blocks[i]|
  }

  lemma WeaveUpTo(blocks: seq<seq<string>>, carried: seq<string>, i: nat)
    requires |blocks| == |carried| && i < |blocks|
    ensures Weave(blocks[..i + 1], carried[..i + 1]) == Weave(blocks[..i], carried[..i]) + blocks[i] + [carried[i]]
  {
    assert blocks[..i + 1] == blocks[..i] + [blocks[i]] && carried[..i + 1] == carried[..i] + [carried[i]];
    WeaveSnoc(blocks[..i], carried[..i], blocks[i], carried[i]);
  }

  lemma InPrefix(pre: seq<string>, b: seq<string>, c: string, out: seq<string>)
    requires pre + b + [c] <= out
    ensures |pre| + |b| < |out| && out[|pre| + |b|] == c && out[|pre|..|pre| + |b|] == b
  {
    var head := pre + b + [c];
    assert out[..|head|] == head && head[|pre| + |b|] == c && head[|pre|..|pre| + |b|] == b;
    assert out[|pre|..|pre| + |b|] == out[..|head|][|pre|..|pre| + |b|];
  }

  lemma PositionsFollow(blocks: seq<seq<string>>, carried: seq<string>, i: nat)
    requires |blocks| == |carried| && i < |blocks|
    ensures Position(blocks, carried, i) == |blocks[i]| + if i == 0 then 0 else Position(blocks, carried, i - 1) + 1
    ensures i == |blocks| - 1 ==> |Weave(blocks, carried)| == Position(blocks, carried, i) + 1
  {
    if i > 0 {
      WeaveUpTo(blocks, carried, i - 1);
    }
    if i == |blocks| - 1 {
      WeaveUpTo(blocks, carried, i);
      assert blocks[..i + 1] == blocks && carried[..i + 1] == carried;
    }
  }

  /** Every carried line stands in the output once and in order, with its block right before it and
      nothing else in between. */
  lemma LineStands(blocks: seq<seq<string>>, carried: seq<string>, i: nat)
    requires |blocks| == |carried| && i < |blocks|
    ensures var out, at, b := Weave(blocks, carried), Position(blocks, carried, i), |blocks[i]|;
      && b <= at < |out| && out[at] == carried[i] && out[at - b..at] == blocks[i]
      && at == b + (if i == 0 then 0 else Position(blocks, carried, i - 1) + 1)
      && (i == |blocks| - 1 ==> |out| == at + 1)
  {
    PositionsFollow(blocks, carried, i);
    WeavePrefix(blocks, carried, i + 1);
    WeaveUpTo(blocks, carried, i);
    InPrefix(Weave(blocks[..i], carried[..i]), blocks[i], carried[i], Weave(blocks, carried));
  }

  /** The gateway's stream. */
  method TransformGateway(json: Json, lines: seq<string>) returns (out: seq<string>)
    ensures Injected(Gateway(json), lines, out)
  {
    out := TransformStream(Gateway(json), lines);
  }

  /** In the gateway's stream a completed response is announced by one block: an event line directly
      followed by its data line owes none for the data line, and one for itself exactly if a delta was
      seen. */
  lemma CompletedPairOwesOne(json: Json, lines: seq<string>, i: nat)
    requires i + 1 < |lines| && IsCompletedEvent(lines[i]) && IsCompletedData(lines[i + 1])
    ensures Block(Gateway(json), lines, i + 1) == []
    ensures (Block(Gateway(json), lines, i) != []) <==> LastDelta(Gateway(json), lines, i).Some?
  {
    GatewayKinds(json, lines[i]);
    GatewayKinds(json, lines[i + 1]);
  }

  /** Line k carries a delta, and no line after it does, among the first n. */
  ghost predicate LastAt(codec: Codec, lines: seq<string>, n: nat, k: nat) {
    && k < n <= |lines| && codec.read(lines[k]).delta.Some?
    && forall j :: k < j < n ==> codec.read(lines[j]).delta.None?
  }

  lemma {:induction false} NoDelta(codec: Codec, lines: seq<string>, n: nat)
    requires n <= |lines|
    ensures LastDelta(codec, lines, n).None? <==> forall k :: 0 <= k < n ==> codec.read(lines[k]).delta.None?
  {
    if n > 0 {
      NoDelta(codec, lines, n - 1);
    }
  }

  /** The ids used are those of the last delta. */
  lemma {:induction false} LastDeltaIs(codec: Codec, lines: seq<string>, n: nat, k: nat)
    requires LastAt(codec, lines, n, k)
    ensures LastDelta(codec, lines, n) == codec.read(lines[k]).delta
  {
    if k < n - 1 {
      assert LastAt(codec, lines, n - 1, k);
      LastDeltaIs(codec, lines, n - 1, k);
    }
  }

  /** Exactly which lines of the gateway's stream get a block before them, and which one. */
  lemma BlockOwed(json: Json, lines: seq<string>, i: nat)
    requires i < |lines|
    ensures var last := LastDelta(Gateway(json), lines, i + 1);
      var announced := i > 0 && IsCompletedEvent(lines[i - 1]);
      var completed := IsCompletedEvent(lines[i]) || (IsCompletedData(lines[i]) && !announced);
      Block(Gateway(json), lines, i) ==
        (if IsDone(lines[i]) then ["data: " + json.chatChunk, ""]
         else if completed && last.Some? then
           ["event: response.output_text.delta", "data: " + json.showDelta(last.value), ""]
         else [])
  {
    GatewayKinds(json, lines[i]);
    if i > 0 {
      GatewayKinds(json, lines[i - 1]);
    }
  }

  /** Only completed data lines can come out altered. */
  lemma OthersUnaltered(json: Json, line: string, out: string)
    requires Carried(Gateway(json), line, out) && !IsCompletedData(line)
    ensures out == line
  {
    GatewayKinds(json, line);
  }
}
