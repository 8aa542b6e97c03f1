/** The extractor returns exactly the printed value, for every JSON text in every context. */
module JsonExtractProof {
  import opened Options
  import opened JsonText

  import opened JsonExtract

  // ---- text the scanner passes over --------------------------------------------------------

  /** Reading w, at depth d outside a string and before t, leaves the scanner as it was. */
  ghost predicate Reads(open: char, w: string, d: nat, t: string) {
    Scan(open, w + t, Scanner(d, false, false)) == Shift(|w|, Scan(open, t, Scanner(d, false, false)))
  }

  ghost predicate Neutral(open: char, w: string) {
    forall d: nat, t: string :: 0 < d ==> Reads(open, w, d, t)
  }

  lemma ReadsConcat(open: char, w1: string, w2: string, d: nat, t: string)
    requires Reads(open, w1, d, w2 + t) && Reads(open, w2, d, t)
    ensures Reads(open, w1 + w2, d, t)
  {
    assert w1 + w2 + t == w1 + (w2 + t);
  }

  lemma NeutralConcat(open: char, w1: string, w2: string)
    requires Neutral(open, w1) && Neutral(open, w2)
    ensures Neutral(open, w1 + w2)
  {
    forall d: nat, t: string | 0 < d ensures Reads(open, w1 + w2, d, t) {
      ReadsConcat(open, w1, w2, d, t);
    }
  }

  predicate QuietChar(c: char) { c != '"' && c != '{' && c != '}' && c != '[' && c != ']' }

  predicate Quiet(w: string) { forall i :: 0 <= i < |w| ==> QuietChar(w[i]) }

  lemma {:induction false} QuietReads(open: char, w: string, d: nat, t: string)
    requires IsOpen(open) && Quiet(w)
    ensures Reads(open, w, d, t)
  {
    if w == "" {
      assert w + t == t;
    } else {
      QuietReads(open, w[1..], d, t);
      assert (w + t)[0] == w[0] && (w + t)[1..] == w[1..] + t;
    }
  }

  lemma QuietNeutral(open: char, w: string)
    requires IsOpen(open) && Quiet(w)
    ensures Neutral(open, w)
  {
    forall d: nat, t: string | 0 < d ensures Reads(open, w, d, t) {
      QuietReads(open, w, d, t);
    }
  }

  /** Inside a string the body is read over, whatever it contains. */
  lemma {:induction false} ItemsRead(open: char, items: seq<StrItem>, d: nat, rest: string)
    requires GoodItems(items)
    ensures Scan(open, PrintItems(items) + rest, Scanner(d, true, false))
         == Shift(|PrintItems(items)|, Scan(open, rest, Scanner(d, true, false)))
  {
    if items == [] {
      assert PrintItems(items) + rest == rest;
    } else {
      var head, body := PrintItem(items[0]), PrintItems(items[1..]);
      assert PrintItems(items) + rest == head + (body + rest);
      ItemRead(open, items[0], d, body + rest);
      ItemsRead(open, items[1..], d, rest);
    }
  }

  lemma ItemRead(open: char, item: StrItem, d: nat, rest: string)
    requires GoodItem(item)
    ensures Scan(open, PrintItem(item) + rest, Scanner(d, true, false))
         == Shift(|PrintItem(item)|, Scan(open, rest, Scanner(d, true, false)))
  {
    var s := PrintItem(item) + rest;
    match item
    case Plain(c) =>
      assert s[1..] == rest;
    case Escape(c) =>
      assert s[1..][1..] == rest;
    case Unicode(hex) =>
      assert s[1..][0] == 'u' && s[1..][1..] == hex + rest;
      HexRead(open, hex, d, rest);
  }

  lemma {:induction false} HexRead(open: char, hex: string, d: nat, rest: string)
    requires forall i :: 0 <= i < |hex| ==> IsHex(hex[i])
    ensures Scan(open, hex + rest, Scanner(d, true, false)) == Shift(|hex|, Scan(open, rest, Scanner(d, true, false)))
  {
    if hex == "" {
      assert hex + rest == rest;
    } else {
      assert (hex + rest)[0] == hex[0] && (hex + rest)[1..] == hex[1..] + rest;
      HexRead(open, hex[1..], d, rest);
    }
  }

  lemma StrReads(open: char, items: seq<StrItem>, d: nat, t: string)
    requires IsOpen(open) && GoodItems(items)
    ensures Reads(open, PrintStr(items), d, t)
  {
    var body, tail := PrintItems(items), "\"" + t;
    var s := PrintStr(items) + t;
    assert s[0] == '"' && s[1..] == body + tail;
    ItemsRead(open, items, d, tail);
    assert tail[1..] == t;
  }

  lemma StrNeutral(open: char, items: seq<StrItem>)
    requires IsOpen(open) && GoodItems(items)
    ensures Neutral(open, PrintStr(items))
  {
    forall d: nat, t: string | 0 < d ensures Reads(open, PrintStr(items), d, t) {
      StrReads(open, items, d, t);
    }
  }

  lemma BracketReads(open: char, b: char, inner: string, d: nat, t: string)
    requires IsOpen(open) && IsOpen(b) && 0 < d
    requires Reads(open, inner, if b == open then d + 1 else d, [Closing(b)] + t)
    ensures Reads(open, [b] + inner + [Closing(b)], d, t)
  {
    var w, tail := [b] + inner + [Closing(b)], [Closing(b)] + t;
    assert (w + t)[0] == b && (w + t)[1..] == inner + tail;
    assert tail[0] == Closing(b) && tail[1..] == t;
  }

  /** A bracketed text whose inside is neutral is neutral, whichever kind is being counted. */
  lemma BracketNeutral(open: char, b: char, inner: string)
    requires IsOpen(open) && IsOpen(b) && Neutral(open, inner)
    ensures Neutral(open, [b] + inner + [Closing(b)])
  {
    forall d: nat, t: string | 0 < d ensures Reads(open, [b] + inner + [Closing(b)], d, t) {
      BracketReads(open, b, inner, d, t);
    }
  }

  lemma {:induction false} ValueNeutral(open: char, v: Json)
    requires IsOpen(open) && Good(v)
    ensures Neutral(open, Print(v))
    decreases v
  {
    match v
    case Null => QuietNeutral(open, Print(v));
    case True => QuietNeutral(open, Print(v));
    case False => QuietNeutral(open, Print(v));
    case Num(_, _, _, _) => NumQuiet(v); QuietNeutral(open, Print(v));
    case Str(items) => StrNeutral(open, items);
    case EmptyArr(pad) => WsQuiet(pad); QuietNeutral(open, pad); BracketNeutral(open, '[', pad);
    case Arr(elems) => ElemsNeutral(open, elems); BracketNeutral(open, '[', PrintElems(elems));
    case EmptyObj(pad) => WsQuiet(pad); QuietNeutral(open, pad); BracketNeutral(open, '{', pad);
    case Obj(members) => MembersNeutral(open, members); BracketNeutral(open, '{', PrintMembers(members));
  }

  lemma {:induction false} ElemsNeutral(open: char, e: Elems)
    requires IsOpen(open) && GoodElems(e)
    ensures Neutral(open, PrintElems(e))
    decreases e
  {
    ValueNeutral(open, e.value);
    var rest := if e.MoreElems? then "," + PrintElems(e.rest) else "";
    if e.MoreElems? {
      ElemsNeutral(open, e.rest);
    }
    RestNeutral(open, if e.MoreElems? then PrintElems(e.rest) else "", e.MoreElems?);
    WsQuiet(e.before);
    WsQuiet(e.after);
    PaddedNeutral(open, e.before, Print(e.value), e.after);
    NeutralConcat(open, e.before + Print(e.value) + e.after, rest);
  }

  lemma {:induction false} MembersNeutral(open: char, m: Members)
    requires IsOpen(open) && GoodMembers(m)
    ensures Neutral(open, PrintMembers(m))
    decreases m
  {
    ValueNeutral(open, m.value);
    var rest := if m.MoreMembers? then "," + PrintMembers(m.rest) else "";
    if m.MoreMembers? {
      MembersNeutral(open, m.rest);
    }
    RestNeutral(open, if m.MoreMembers? then PrintMembers(m.rest) else "", m.MoreMembers?);
    MemberNeutral(open, m.before, m.key, m.gap, Print(m.value), m.after);
    NeutralConcat(open, m.before + PrintStr(m.key) + m.gap + Print(m.value) + m.after, rest);
  }

  lemma MemberNeutral(open: char, before: string, key: seq<StrItem>, gap: string, value: string, after: string)
    requires IsOpen(open) && IsWs(before) && GoodItems(key) && IsGap(gap) && IsWs(after) && Neutral(open, value)
    ensures Neutral(open, before + PrintStr(key) + gap + value + after)
  {
    StrNeutral(open, key);
    WsQuiet(before);
    GapQuiet(gap);
    PaddedNeutral(open, before, PrintStr(key), gap);
    NeutralConcat(open, before + PrintStr(key) + gap, value);
    WsQuiet(after);
    QuietNeutral(open, after);
    NeutralConcat(open, before + PrintStr(key) + gap + value, after);
  }

  lemma WsQuiet(w: string)
    requires IsWs(w)
    ensures Quiet(w)
  {
  }

  lemma GapQuiet(gap: string)
    requires IsGap(gap)
    ensures Quiet(gap)
  {
    var k :| 0 <= k < |gap| && gap[k] == ':' && IsWs(gap[..k]) && IsWs(gap[k + 1..]);
    WsQuiet(gap[..k]);
    WsQuiet(gap[k + 1..]);
    assert gap == gap[..k] + [':'] + gap[k + 1..];
  }

  lemma RestNeutral(open: char, more: string, present: bool)
    requires IsOpen(open) && (present ==> Neutral(open, more))
    ensures Neutral(open, if present then "," + more else "")
  {
    QuietNeutral(open, ",");
    QuietNeutral(open, "");
    if present {
      NeutralConcat(open, ",", more);
    }
  }

  lemma PaddedNeutral(open: char, before: string, mid: string, after: string)
    requires IsOpen(open) && Quiet(before) && Quiet(after) && Neutral(open, mid)
    ensures Neutral(open, before + mid + after)
  {
    QuietNeutral(open, before);
    QuietNeutral(open, after);
    NeutralConcat(open, before, mid);
    NeutralConcat(open, before + mid, after);
  }

  lemma DigitsQuiet(w: string)
    requires AllDigits(w)
    ensures Quiet(w)
  {
  }

  lemma ExpQuiet(exp: string)
    requires IsExp(exp)
    ensures Quiet(exp)
  {
    if 2 <= |exp| && AllDigits(exp[1..]) {
      DigitsQuiet(exp[1..]);
      assert exp == [exp[0]] + exp[1..];
    } else if exp != "" {
      DigitsQuiet(exp[2..]);
      assert exp == [exp[0], exp[1]] + exp[2..];
    }
  }

  lemma NumQuiet(v: Json)
    requires v.Num? && Good(v)
    ensures Quiet(Print(v))
  {
    DigitsQuiet(v.whole);
    DigitsQuiet(v.frac);
    ExpQuiet(v.exp);
  }

  // ---- the scanner stops exactly at the end of the value ----------------------------------------

  lemma BracketRead(b: char, inner: string, suffix: string)
    requires IsOpen(b) && Neutral(b, inner)
    ensures Scan(b, [b] + inner + [Closing(b)] + suffix, START) == Some(|inner| + 2)
  {
    var s := [b] + inner + [Closing(b)] + suffix;
    var tail := [Closing(b)] + suffix;
    assert s[0] == b && s[1..] == inner + tail;
    assert Reads(b, inner, 1, tail);
  }

  lemma ContainerRead(v: Json, suffix: string)
    requires IsContainer(v) && Good(v)
    ensures IsOpen(Print(v)[0]) && Scan(Print(v)[0], Print(v) + suffix, START) == Some(|Print(v)|)
  {
    match v
    case EmptyArr(pad) => WsQuiet(pad); QuietNeutral('[', pad); BracketRead('[', pad, suffix);
    case Arr(elems) => ElemsNeutral('[', elems); BracketRead('[', PrintElems(elems), suffix);
    case EmptyObj(pad) => WsQuiet(pad); QuietNeutral('{', pad); BracketRead('{', pad, suffix);
    case Obj(members) => MembersNeutral('{', members); BracketRead('{', PrintMembers(members), suffix);
  }

  lemma {:induction false} FirstOpenAfter(prefix: string, s: string)
    requires (forall i :: 0 <= i < |prefix| ==> !IsOpen(prefix[i])) && s != "" && IsOpen(s[0])
    ensures FirstOpen(prefix + s) == |prefix|
  {
    if prefix == "" {
      assert prefix + s == s;
    } else {
      assert (prefix + s)[0] == prefix[0] && (prefix + s)[1..] == prefix[1..] + s;
      FirstOpenAfter(prefix[1..], s);
    }
  }

  /** On fence-free text: whatever surrounds it, the value is cut out exactly. */
  lemma ExtractUnfencedExact(prefix: string, v: Json, suffix: string)
    requires IsContainer(v) && Good(v)
    requires forall i :: 0 <= i < |prefix| ==> !IsOpen(prefix[i])
    ensures ExtractUnfenced(prefix + Print(v) + suffix) == Some(Print(v))
  {
    var u := prefix + Print(v) + suffix;
    ContainerRead(v, suffix);
    assert u == prefix + (Print(v) + suffix);
    FirstOpenAfter(prefix, Print(v) + suffix);
    assert u[|prefix|..] == Print(v) + suffix;
    assert u[|prefix|..|prefix| + |Print(v)|] == Print(v);
  }

  // ---- code fences --------------------------------------------------------------------------------

  /** A character no fence, with or without its language word, contains. */
  predicate Divider(c: char) {
    c != '`' && Lower(c) != 'j' && Lower(c) != 's' && Lower(c) != 'o' && Lower(c) != 'n'
  }

  function FenceLength(s: string): nat
    requires StartsFence(s)
  {
    if StartsJsonWord(s[3..]) then 7 else 3
  }

  lemma SameFence(a: string, c: char, b: string)
    requires Divider(c)
    ensures StartsFence(a + [c] + b) == StartsFence(a)
    ensures StartsFence(a) ==> FenceLength(a + [c] + b) == FenceLength(a) <= |a|
  {
    var s := a + [c] + b;
    assert forall i :: 0 <= i < |a| ==> s[i] == a[i];
    assert s[|a|] == c;
    if StartsFence(a) {
      assert forall i :: 0 <= i < |s| - 3 ==> s[3..][i] == s[i + 3];
      assert forall i :: 0 <= i < |a| - 3 ==> a[3..][i] == a[i + 3];
    }
  }

  lemma UnfenceStep(s: string)
    ensures StartsFence(s) ==> FenceLength(s) <= |s| && Unfence(s) == Unfence(s[FenceLength(s)..])
    ensures !StartsFence(s) && s != "" ==> Unfence(s) == [s[0]] + Unfence(s[1..])
  {
  }

  lemma Dropped(a: string, c: char, b: string, n: nat)
    requires n <= |a|
    ensures (a + [c] + b)[n..] == a[n..] + [c] + b
  {
  }

  /** Fences are removed on each side of a divider separately. */
  lemma {:induction false} UnfenceAcross(a: string, c: char, b: string)
    requires Divider(c)
    ensures Unfence(a + [c] + b) == Unfence(a) + [c] + Unfence(b)
    decreases |a|
  {
    SameFence(a, c, b);
    UnfenceStep(a);
    UnfenceStep(a + [c] + b);
    if StartsFence(a) {
      Dropped(a, c, b, FenceLength(a));
      UnfenceAcross(a[FenceLength(a)..], c, b);
    } else if a == "" {
      assert a + [c] + b == [c] + b;
    } else {
      Dropped(a, c, b, 1);
      UnfenceAcross(a[1..], c, b);
    }
  }

  lemma {:induction false} UnfenceKeeps(s: string)
    requires !HasFence(s)
    ensures Unfence(s) == s
  {
    if s != "" {
      UnfenceKeeps(s[1..]);
    }
  }

  lemma {:induction false} UnfenceOnlyDrops(s: string, c: char)
    requires c in Unfence(s)
    ensures c in s
    decreases |s|
  {
    if StartsFence(s) {
      UnfenceOnlyDrops(s[FenceLength(s)..], c);
    } else if c != s[0] {
      UnfenceOnlyDrops(s[1..], c);
    }
  }

  predicate StartsTwoTicks(s: string) { |s| >= 2 && s[0] == '`' && s[1] == '`' }

  lemma LeadingTicks(s: string)
    requires !StartsTwoTicks(s)
    ensures !StartsTwoTicks(Unfence(s))
  {
    if |s| >= 2 {
      assert Unfence(s)[0] == s[0];
      assert s[0] == '`' ==> Unfence(s[1..])[0] == s[1];
    }
  }

  /** Removing fences once removes them all: what is left never joins into a new one. */
  lemma {:induction false} UnfenceClean(s: string)
    ensures !HasFence(Unfence(s))
    decreases |s|
  {
    if StartsFence(s) {
      UnfenceClean(s[FenceLength(s)..]);
    } else if s != "" {
      UnfenceClean(s[1..]);
      var r := Unfence(s);
      assert r[1..] == Unfence(s[1..]);
      if s[0] == '`' {
        LeadingTicks(s[1..]);
        assert StartsFence(r) ==> StartsTwoTicks(r[1..]);
      }
    }
  }

  lemma {:induction false} FenceInSuffix(s: string, i: nat)
    requires i <= |s| && HasFence(s[i..])
    ensures HasFence(s)
  {
    if i == 0 {
      assert s[0..] == s;
    } else {
      assert s[1..][i - 1..] == s[i..];
      FenceInSuffix(s[1..], i - 1);
    }
  }

  lemma {:induction false} FenceInPrefix(s: string, n: nat)
    requires n <= |s| && HasFence(s[..n])
    ensures HasFence(s)
  {
    if !StartsFence(s[..n]) {
      assert s[..n][1..] == s[1..][..n - 1];
      FenceInPrefix(s[1..], n - 1);
    }
  }

  // ---- the theorem ----------------------------------------------------------------------------------

  lemma ContainerEnds(v: Json)
    requires IsContainer(v)
    ensures |Print(v)| >= 2
    ensures Divider(Print(v)[0]) && Divider(Print(v)[|Print(v)| - 1])
  {
  }

  lemma Rejoined(prefix: string, p: string, suffix: string)
    requires |p| >= 2
    ensures prefix + p + suffix == prefix + [p[0]] + (p[1..|p| - 1] + [p[|p| - 1]] + suffix)
  {
  }

  lemma UnfenceEnds(prefix: string, p: string, suffix: string)
    requires |p| >= 2 && Divider(p[0]) && Divider(p[|p| - 1])
    ensures Unfence(prefix + p + suffix)
      == Unfence(prefix) + [p[0]] + (Unfence(p[1..|p| - 1]) + [p[|p| - 1]] + Unfence(suffix))
  {
    Rejoined(prefix, p, suffix);
    UnfenceAcross(prefix, p[0], p[1..|p| - 1] + [p[|p| - 1]] + suffix);
    UnfenceAcross(p[1..|p| - 1], p[|p| - 1], suffix);
  }

  lemma UnfenceAround(prefix: string, p: string, suffix: string)
    requires |p| >= 2 && Divider(p[0]) && Divider(p[|p| - 1])
    ensures Unfence(prefix + p + suffix) == Unfence(prefix) + Unfence(p) + Unfence(suffix)
  {
    UnfenceEnds(prefix, p, suffix);
    UnfenceEnds("", p, "");
    assert "" + p + "" == p && Unfence("") == "";
  }

  /** Whatever surrounds it (fences, prose, more JSON after it), a printed object or array with
      no bracket before it is extracted exactly, if and only if it contains no code fence. */
  lemma ExtractExact(prefix: string, v: Json, suffix: string)
    requires IsContainer(v) && Good(v)
    requires forall i :: 0 <= i < |prefix| ==> !IsOpen(prefix[i])
    ensures Extract(prefix + Print(v) + suffix) == Some(Print(v)) <==> !HasFence(Print(v))
  {
    var text := prefix + Print(v) + suffix;
    if HasFence(Print(v)) {
      if Extract(text) == Some(Print(v)) {
        ExtractIsSlice(text);
      }
    } else {
      ContainerEnds(v);
      UnfenceAround(prefix, Print(v), suffix);
      UnfenceKeeps(Print(v));
      forall i | 0 <= i < |Unfence(prefix)| ensures !IsOpen(Unfence(prefix)[i]) {
        UnfenceOnlyDrops(prefix, Unfence(prefix)[i]);
      }
      ExtractUnfencedExact(Unfence(prefix), v, Unfence(suffix));
    }
  }

  lemma ExtractIsSlice(text: string)
    ensures Extract(text).Some? ==> !HasFence(Extract(text).value)
  {
    var u := Unfence(text);
    UnfenceClean(text);
    var start := FirstOpen(u);
    if Extract(text).Some? {
      var n := |Extract(text).value|;
      assert Extract(text).value == u[start..][..n];
      if HasFence(Extract(text).value) {
        FenceInPrefix(u[start..], n);
        FenceInSuffix(u, start);
      }
    }
  }

  // ---- the entry point --------------------------------------------------------------------------------

  datatype MessagePart = TextPart(text: string) | OtherPart

  function PartText(p: MessagePart): string { if p.TextPart? then p.text else "" }

  function JoinParts(parts: seq<MessagePart>): string {
    if parts == [] then ""
    else if |parts| == 1 then PartText(parts[0])
    else JoinParts(parts[..|parts| - 1]) + "\n" + PartText(parts[|parts| - 1])
  }

  /** The text shows v: nothing that could be mistaken for it comes first, and no code fence
      hides inside it. */
  ghost predicate Shows(text: string, prefix: string, v: Json, suffix: string) {
    && text == prefix + Print(v) + suffix
    && IsContainer(v) && Good(v) && !HasFence(Print(v))
    && forall i :: 0 <= i < |prefix| ==> !IsOpen(prefix[i])
  }

  predicate NoOpen(s: string) { forall i :: 0 <= i < |s| ==> !IsOpen(s[i]) }

  /** Part k shows v, and no part before it holds a bracket. */
  ghost predicate PartShows(parts: seq<MessagePart>, k: nat, prefix: string, v: Json, suffix: string) {
    && k < |parts| && Shows(PartText(parts[k]), prefix, v, suffix)
    && forall j :: 0 <= j < k ==> NoOpen(PartText(parts[j]))
  }

  lemma {:induction false} NoOpenJoined(parts: seq<MessagePart>)
    requires forall j :: 0 <= j < |parts| ==> NoOpen(PartText(parts[j]))
    ensures NoOpen(JoinParts(parts))
  {
    if |parts| > 1 {
      NoOpenJoined(parts[..|parts| - 1]);
    }
  }

  /** A part stands in the joined text behind the parts before it. */
  lemma {:induction false} JoinAround(parts: seq<MessagePart>, k: nat) returns (left: string, right: string)
    requires k < |parts| && forall j :: 0 <= j < k ==> NoOpen(PartText(parts[j]))
    ensures JoinParts(parts) == left + PartText(parts[k]) + right && NoOpen(left)
    decreases |parts|
  {
    var n := |parts| - 1;
    if k < n {
      var middle: string;
      left, middle := JoinAround(parts[..n], k);
      right := middle + "\n" + PartText(parts[n]);
    } else if n == 0 {
      left, right := "", "";
    } else {
      NoOpenJoined(parts[..n]);
      left, right := JoinParts(parts[..n]) + "\n", "";
    }
  }

  lemma JoinedShows(left: string, text: string, right: string, prefix: string, v: Json, suffix: string)
    requires NoOpen(left) && Shows(text, prefix, v, suffix)
    ensures Shows(left + text + right, left + prefix, v, suffix + right)
  {
    assert left + (prefix + Print(v) + suffix) + right == (left + prefix) + Print(v) + (suffix + right);
  }

  lemma PartIsExtracted(parts: seq<MessagePart>, k: nat, prefix: string, v: Json, suffix: string)
    requires PartShows(parts, k, prefix, v, suffix)
    ensures Extract(JoinParts(parts)) == Some(Print(v))
  {
    var left, right := JoinAround(parts, k);
    JoinedShows(left, PartText(parts[k]), right, prefix, v, suffix);
    ExtractExact(left + prefix, v, suffix + right);
  }

  /** extractJsonFromTextParts, up to the JSON.parse of the slice it cuts out: a value that one part shows
      behind parts without brackets is found. */
  method ExtractFromParts(parts: seq<MessagePart>) returns (r: Option<string>)
    ensures r == Extract(JoinParts(parts))
    ensures forall prefix, v, suffix :: Shows(JoinParts(parts), prefix, v, suffix) ==> r == Some(Print(v))
    ensures forall k: nat, prefix, v, suffix :: PartShows(parts, k, prefix, v, suffix) ==> r == Some(Print(v))
  {
    var text := "";
    for i := 0 to |parts|
      invariant text == JoinParts(parts[..i])
    {
      assert parts[..i + 1][..i] == parts[..i];
      text := if i == 0 then PartText(parts[i]) else text + "\n" + PartText(parts[i]);
    }
    assert parts[..|parts|] == parts;
    r := ExtractLoop(Unfence(text));
    forall prefix, v, suffix | Shows(JoinParts(parts), prefix, v, suffix) ensures r == Some(Print(v)) {
      ExtractExact(prefix, v, suffix);
    }
    forall k: nat, prefix, v, suffix | PartShows(parts, k, prefix, v, suffix) ensures r == Some(Print(v)) {
      PartIsExtracted(parts, k, prefix, v, suffix);
    }
  }
}
