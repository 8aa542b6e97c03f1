/** The text a target server chooses: what it advertises and answers, which of it the gates list for
    the scanner, and which of it the prompts print. */
module TargetText {
  import opened Options
  import opened Text
  import opened ScanGate

  // ---- JSON that the server chooses --------------------------------------------------------------

  datatype Tree = Str(text: Text) | Arr(items: Trees) | Obj(fields: Fields) | Atom

  datatype Trees = NoTrees | Trees(head: Tree, tail: Trees)

  datatype Fields = NoFields | Fields(key: Text, value: Tree, rest: Fields)

  /** All strings under a value, at any depth, without the keys. */
  function StringLeaves(t: Tree): seq<Text> {
    match t
    case Str(s) => [s]
    case Arr(items) => LeavesAll(items)
    case Obj(fields) => LeavesIn(fields)
    case Atom => []
  }

  function LeavesAll(ts: Trees): seq<Text> {
    if ts.NoTrees? then [] else StringLeaves(ts.head) + LeavesAll(ts.tail)
  }

  function LeavesIn(fs: Fields): seq<Text> {
    if fs.NoFields? then [] else StringLeaves(fs.value) + LeavesIn(fs.rest)
  }

  /** All keys at any depth. */
  function Keys(t: Tree): seq<Text> {
    match t
    case Str(_) => []
    case Arr(items) => KeysAll(items)
    case Obj(fields) => KeysIn(fields)
    case Atom => []
  }

  function KeysAll(ts: Trees): seq<Text> { if ts.NoTrees? then [] else Keys(ts.head) + KeysAll(ts.tail) }

  function KeysIn(fs: Fields): seq<Text> {
    if fs.NoFields? then [] else [fs.key] + Keys(fs.value) + KeysIn(fs.rest)
  }

  /** What JSON.stringify prints of a value. */
  function AllStrings(t: Tree): seq<Text> { Keys(t) + StringLeaves(t) }

  function Names(fs: Fields): seq<Text> { if fs.NoFields? then [] else [fs.key] + Names(fs.rest) }

  /** parts.join(sep). */
  function Join(sep: Text, parts: seq<Text>): Text {
    if parts == [] then [] else if |parts| == 1 then parts[0] else parts[0] + (sep + Join(sep, parts[1..]))
  }

  // ---- JSON schemas -----------------------------------------------------------------------------------

  /** What schemaTexts does with the value of a keyword. */
  datatype Role = Words | Leaves | Properties | Nested | Definitions | Ignored

  type Vocabulary = Text -> Role

  /** The code units of a word. */
  function Units(s: string): Text {
    seq(|s|, i requires 0 <= i < |s| => if s[i] as int < 0x10000 then s[i] as int else 0xfffd)
  }

  function SchemaRole(key: Text): Role {
    if key == Units("description") || key == Units("title") then Words
    else if key == Units("default") || key == Units("examples") || key == Units("enum")
         || key == Units("const") then Leaves
    else if key == Units("properties") then Properties
    else if key == Units("items") || key == Units("additionalProperties") || key == Units("anyOf")
         || key == Units("oneOf") || key == Units("allOf") || key == Units("not") then Nested
    else if key == Units("$defs") || key == Units("definitions") then Definitions
    else Ignored
  }

  lemma UnitsAt(s: string, i: nat, t: string)
    requires i < |s| == |t| && s[i] as int < 0x10000 && t[i] as int < 0x10000 && s[i] != t[i]
    ensures Units(s) != Units(t)
  {
    assert Units(s)[i] == s[i] as int && Units(t)[i] == t[i] as int;
  }

  /** The keywords whose strings are listed. */
  lemma ListedKeywords()
    ensures SchemaRole(Units("description")) == SchemaRole(Units("title")) == Words
    ensures SchemaRole(Units("default")) == SchemaRole(Units("examples")) == Leaves
    ensures SchemaRole(Units("enum")) == SchemaRole(Units("const")) == Leaves
  {
    UnitsAt("const", 0, "title");
  }

  /** The keywords under which the walk goes on. */
  lemma NestedKeywords()
    ensures SchemaRole(Units("properties")) == Properties
    ensures SchemaRole(Units("items")) == SchemaRole(Units("additionalProperties")) == Nested
    ensures SchemaRole(Units("not")) == Nested
    ensures SchemaRole(Units("anyOf")) == SchemaRole(Units("oneOf")) == SchemaRole(Units("allOf")) == Nested
  {
    UnitsAt("items", 0, "title");
    UnitsAt("items", 0, "const");
    UnitsAt("anyOf", 0, "title");
    UnitsAt("anyOf", 0, "const");
    UnitsAt("oneOf", 0, "title");
    UnitsAt("oneOf", 0, "const");
    UnitsAt("allOf", 0, "title");
    UnitsAt("allOf", 0, "const");
  }

  lemma DefinitionKeywords()
    ensures SchemaRole(Units("$defs")) == SchemaRole(Units("definitions")) == Definitions
  {
    UnitsAt("definitions", 2, "description");
    UnitsAt("$defs", 0, "title");
    UnitsAt("$defs", 0, "const");
    UnitsAt("$defs", 0, "items");
    UnitsAt("$defs", 0, "anyOf");
    UnitsAt("$defs", 0, "oneOf");
    UnitsAt("$defs", 0, "allOf");
  }

  const SPACE: Text := [0x20]
  const COLON: Text := [0x3a, 0x20]

  /** schemaTexts, field by field. */
  function Walk(voc: Vocabulary, t: Tree): seq<Text>
    decreases t, 0
  {
    match t
    case Str(_) => []
    case Arr(items) => WalkAll(voc, items)
    case Obj(fields) => WalkFields(voc, fields)
    case Atom => []
  }

  function WalkAll(voc: Vocabulary, ts: Trees): seq<Text>
    decreases ts, 0
  {
    if ts.NoTrees? then [] else Walk(voc, ts.head) + WalkAll(voc, ts.tail)
  }

  function WalkValues(voc: Vocabulary, fs: Fields): seq<Text>
    decreases fs, 0
  {
    if fs.NoFields? then [] else Walk(voc, fs.value) + WalkValues(voc, fs.rest)
  }

  function WalkFields(voc: Vocabulary, fs: Fields): seq<Text>
    decreases fs, 0
  {
    if fs.NoFields? then [] else FieldTexts(voc, fs.key, fs.value) + WalkFields(voc, fs.rest)
  }

  function FieldTexts(voc: Vocabulary, key: Text, value: Tree): seq<Text>
    decreases value, 1
  {
    match voc(key)
    case Words => if value.Str? then [value.text] else []
    case Leaves => StringLeaves(value)
    case Properties => if value.Obj? then [Join(SPACE, Names(value.fields))] + WalkValues(voc, value.fields) else []
    case Nested => Walk(voc, value)
    case Definitions =>
      if value.Obj? then WalkValues(voc, value.fields) else if value.Arr? then WalkAll(voc, value.items) else []
    case Ignored => []
  }

  /** What is printed of a schema, but for the keywords of the vocabulary. */
  function Printed(voc: Vocabulary, t: Tree): seq<Text>
    decreases t, 0
  {
    match t
    case Str(s) => [s]
    case Arr(items) => PrintedAll(voc, items)
    case Obj(fields) => PrintedFields(voc, fields)
    case Atom => []
  }

  function PrintedAll(voc: Vocabulary, ts: Trees): seq<Text>
    decreases ts, 0
  {
    if ts.NoTrees? then [] else Printed(voc, ts.head) + PrintedAll(voc, ts.tail)
  }

  function PrintedValues(voc: Vocabulary, fs: Fields): seq<Text>
    decreases fs, 0
  {
    if fs.NoFields? then [] else Printed(voc, fs.value) + PrintedValues(voc, fs.rest)
  }

  function PrintedFields(voc: Vocabulary, fs: Fields): seq<Text>
    decreases fs, 0
  {
    if fs.NoFields? then [] else FieldPrinted(voc, fs.key, fs.value) + PrintedFields(voc, fs.rest)
  }

  function FieldPrinted(voc: Vocabulary, key: Text, value: Tree): seq<Text>
    decreases value, 1
  {
    match voc(key)
    case Words => AllStrings(value)
    case Leaves => AllStrings(value)
    case Properties =>
      if value.Obj? then Names(value.fields) + PrintedValues(voc, value.fields) else AllStrings(value)
    case Nested => Printed(voc, value)
    case Definitions =>
      if value.Obj? then Names(value.fields) + PrintedValues(voc, value.fields)
      else if value.Arr? then PrintedAll(voc, value.items) else AllStrings(value)
    case Ignored => [key] + AllStrings(value)
  }

  /** What is printed of a schema but not listed: strings where a schema is expected, values of other
      keywords and these keywords, keys inside defaults and examples, names of definitions. */
  function Missed(voc: Vocabulary, t: Tree): seq<Text>
    decreases t, 0
  {
    match t
    case Str(s) => [s]
    case Arr(items) => MissedAll(voc, items)
    case Obj(fields) => MissedFields(voc, fields)
    case Atom => []
  }

  function MissedAll(voc: Vocabulary, ts: Trees): seq<Text>
    decreases ts, 0
  {
    if ts.NoTrees? then [] else Missed(voc, ts.head) + MissedAll(voc, ts.tail)
  }

  function MissedValues(voc: Vocabulary, fs: Fields): seq<Text>
    decreases fs, 0
  {
    if fs.NoFields? then [] else Missed(voc, fs.value) + MissedValues(voc, fs.rest)
  }

  function MissedFields(voc: Vocabulary, fs: Fields): seq<Text>
    decreases fs, 0
  {
    if fs.NoFields? then [] else FieldMissed(voc, fs.key, fs.value) + MissedFields(voc, fs.rest)
  }

  function FieldMissed(voc: Vocabulary, key: Text, value: Tree): seq<Text>
    decreases value, 1
  {
    match voc(key)
    case Words => if value.Str? then [] else AllStrings(value)
    case Leaves => Keys(value)
    case Properties => if value.Obj? then MissedValues(voc, value.fields) else AllStrings(value)
    case Nested => Missed(voc, value)
    case Definitions =>
      if value.Obj? then Names(value.fields) + MissedValues(voc, value.fields)
      else if value.Arr? then MissedAll(voc, value.items) else AllStrings(value)
    case Ignored => [key] + AllStrings(value)
  }

  // ---- accounting for a printed text --------------------------------------------------------------------

  /** p stands somewhere inside one of the texts. */
  ghost predicate Inside(p: Text, texts: seq<Text>) {
    exists k: nat, off: nat :: k < |texts| && HoldsAt(texts[k], off, p)
  }

  /** p, if printed, is blank, missed or inside a listed text; and what is missed is printed. */
  ghost predicate Account(p: Text, printed: seq<Text>, missed: seq<Text>, listed: seq<Text>) {
    && (p in printed ==> Blank(p, JsSpace) || p in missed || Inside(p, listed))
    && (p in missed ==> p in printed)
  }

  lemma InsideMore(p: Text, a: seq<Text>, b: seq<Text>)
    ensures Inside(p, a) || Inside(p, b) ==> Inside(p, a + b)
  {
    if Inside(p, a) {
      var k: nat, off: nat :| k < |a| && HoldsAt(a[k], off, p);
      assert HoldsAt((a + b)[k], off, p);
    } else if Inside(p, b) {
      var k: nat, off: nat :| k < |b| && HoldsAt(b[k], off, p);
      assert HoldsAt((a + b)[|a| + k], off, p);
    }
  }

  lemma AccountConcat(p: Text, pr: seq<Text>, mi: seq<Text>, li: seq<Text>, pr2: seq<Text>, mi2: seq<Text>,
                      li2: seq<Text>)
    requires Account(p, pr, mi, li) && Account(p, pr2, mi2, li2)
    ensures Account(p, pr + pr2, mi + mi2, li + li2)
  {
    InsideMore(p, li, li2);
  }

  lemma AccountListed(p: Text, texts: seq<Text>)
    ensures Account(p, texts, [], texts)
  {
    if p in texts {
      var k :| 0 <= k < |texts| && texts[k] == p;
      assert HoldsAt(texts[k], 0, p);
    }
  }

  lemma AccountMissed(p: Text, texts: seq<Text>)
    ensures Account(p, texts, texts, [])
  {
  }

  /** A part of a joined text stands inside it. */
  lemma {:induction false} PartInJoin(sep: Text, parts: seq<Text>, k: nat) returns (off: nat)
    requires k < |parts|
    ensures HoldsAt(Join(sep, parts), off, parts[k])
  {
    if |parts| == 1 {
      off := 0;
    } else if k == 0 {
      off := 0;
      assert Join(sep, parts)[..|parts[0]|] == parts[0];
    } else {
      var rest := PartInJoin(sep, parts[1..], k - 1);
      var tail := Join(sep, parts[1..]);
      off := |parts[0]| + |sep| + rest;
      assert Join(sep, parts) == parts[0] + sep + tail;
      assert Join(sep, parts)[off..off + |parts[k]|] == tail[rest..rest + |parts[k]|];
    }
  }

  lemma AccountJoin(p: Text, sep: Text, parts: seq<Text>)
    ensures Account(p, parts, [], [Join(sep, parts)])
  {
    if p in parts {
      var k :| 0 <= k < |parts| && parts[k] == p;
      var off := PartInJoin(sep, parts, k);
      assert HoldsAt([Join(sep, parts)][0], off, p);
    }
  }

  lemma {:induction false} AccountTree(voc: Vocabulary, t: Tree, p: Text)
    ensures Account(p, Printed(voc, t), Missed(voc, t), Walk(voc, t))
    decreases t, 0
  {
    match t
    case Str(s) =>
    case Arr(items) => AccountAll(voc, items, p);
    case Obj(fields) => AccountFields(voc, fields, p);
    case Atom =>
  }

  lemma {:induction false} AccountAll(voc: Vocabulary, ts: Trees, p: Text)
    ensures Account(p, PrintedAll(voc, ts), MissedAll(voc, ts), WalkAll(voc, ts))
    decreases ts, 0
  {
    if ts.Trees? {
      AccountTree(voc, ts.head, p);
      AccountAll(voc, ts.tail, p);
      AccountConcat(p, Printed(voc, ts.head), Missed(voc, ts.head), Walk(voc, ts.head),
                    PrintedAll(voc, ts.tail), MissedAll(voc, ts.tail), WalkAll(voc, ts.tail));
    }
  }

  lemma {:induction false} AccountValues(voc: Vocabulary, fs: Fields, p: Text)
    ensures Account(p, PrintedValues(voc, fs), MissedValues(voc, fs), WalkValues(voc, fs))
    decreases fs, 0
  {
    if fs.Fields? {
      AccountTree(voc, fs.value, p);
      AccountValues(voc, fs.rest, p);
      AccountConcat(p, Printed(voc, fs.value), Missed(voc, fs.value), Walk(voc, fs.value),
                    PrintedValues(voc, fs.rest), MissedValues(voc, fs.rest), WalkValues(voc, fs.rest));
    }
  }

  lemma {:induction false} AccountFields(voc: Vocabulary, fs: Fields, p: Text)
    ensures Account(p, PrintedFields(voc, fs), MissedFields(voc, fs), WalkFields(voc, fs))
    decreases fs, 0
  {
    if fs.Fields? {
      AccountField(voc, fs.key, fs.value, p);
      AccountFields(voc, fs.rest, p);
      AccountConcat(p, FieldPrinted(voc, fs.key, fs.value), FieldMissed(voc, fs.key, fs.value),
                    FieldTexts(voc, fs.key, fs.value),
                    PrintedFields(voc, fs.rest), MissedFields(voc, fs.rest), WalkFields(voc, fs.rest));
    }
  }

  lemma {:induction false} AccountField(voc: Vocabulary, key: Text, value: Tree, p: Text)
    ensures Account(p, FieldPrinted(voc, key, value), FieldMissed(voc, key, value), FieldTexts(voc, key, value))
    decreases value, 1
  {
    match voc(key)
    case Words =>
      AccountMissed(p, AllStrings(value));
      if value.Str? {
        AccountListed(p, [value.text]);
      }
    case Leaves =>
      AccountMissed(p, Keys(value));
      AccountListed(p, StringLeaves(value));
      AccountConcat(p, Keys(value), Keys(value), [], StringLeaves(value), [], StringLeaves(value));
    case Properties =>
      AccountMissed(p, AllStrings(value));
      if value.Obj? {
        var fs := value.fields;
        AccountJoin(p, SPACE, Names(fs));
        AccountValues(voc, fs, p);
        AccountConcat(p, Names(fs), [], [Join(SPACE, Names(fs))], PrintedValues(voc, fs), MissedValues(voc, fs),
                      WalkValues(voc, fs));
      }
    case Nested => AccountTree(voc, value, p);
    case Definitions =>
      AccountMissed(p, AllStrings(value));
      if value.Obj? {
        var fs := value.fields;
        AccountMissed(p, Names(fs));
        AccountValues(voc, fs, p);
        AccountConcat(p, Names(fs), Names(fs), [], PrintedValues(voc, fs), MissedValues(voc, fs), WalkValues(voc, fs));
      } else if value.Arr? {
        AccountAll(voc, value.items, p);
      }
    case Ignored => AccountMissed(p, [key] + AllStrings(value));
  }

  // ---- what a server advertises ------------------------------------------------------------------------

  datatype Tool = Tool(name: Text, description: Option<Text>, schema: Option<Tree>, annotations: Option<Tree>)

  datatype Argument = Argument(name: Text, description: Option<Text>)

  datatype PromptDef = PromptDef(name: Text, description: Option<Text>, arguments: seq<Argument>)

  datatype ResourceDef = ResourceDef(uri: Text, name: Option<Text>, description: Option<Text>, mimeType: Option<Text>)

  /** The answer to initialize; `version` is None if the server leaves the version to the client. */
  datatype Init = Init(version: Option<Text>, capabilities: Tree, name: Option<Text>, release: Option<Text>,
                       instructions: Option<Text>)

  /** How the handshake ended: with an error, or with what the server advertises. */
  datatype Handshake =
    | Down(error: Text)
    | Up(init: Init, tools: seq<Tool>, prompts: seq<PromptDef>, resources: seq<ResourceDef>)

  function Opt(o: Option<Text>): seq<Text> { if o.Some? then [o.value] else [] }

  function OptTree(f: Tree -> seq<Text>, o: Option<Tree>): seq<Text> { if o.Some? then f(o.value) else [] }

  function Flat<A>(f: A -> seq<Text>, xs: seq<A>, n: nat): seq<Text>
    requires n <= |xs|
  {
    if n == 0 then [] else Flat(f, xs, n - 1) + f(xs[n - 1])
  }

  /** joinNonEmpty. */
  function NonBlank(parts: seq<Text>): seq<Text> {
    if parts == [] then [] else (if Blank(parts[0], JsSpace) then [] else [parts[0]]) + NonBlank(parts[1..])
  }

  function SchemaTexts(t: Tree): seq<Text> { Walk(SchemaRole, t) }

  function SchemaPrinted(t: Tree): seq<Text> { Printed(SchemaRole, t) }

  function SchemaMissed(t: Tree): seq<Text> { Missed(SchemaRole, t) }

  function ToolParts(t: Tool): seq<Text> { [t.name] + Opt(t.description) }

  function ToolTexts(t: Tool): seq<Text> {
    [Join(COLON, NonBlank(ToolParts(t)))] + OptTree(SchemaTexts, t.schema) + OptTree(StringLeaves, t.annotations)
  }

  function ToolPrinted(t: Tool): seq<Text> {
    ToolParts(t) + OptTree(SchemaPrinted, t.schema) + OptTree(AllStrings, t.annotations)
  }

  function ToolMissed(t: Tool): seq<Text> { OptTree(SchemaMissed, t.schema) + OptTree(Keys, t.annotations) }

  function ArgumentParts(a: Argument): seq<Text> { [a.name] + Opt(a.description) }

  function ArgumentTexts(a: Argument): seq<Text> { [Join(COLON, NonBlank(ArgumentParts(a)))] }

  function PromptParts(d: PromptDef): seq<Text> { [d.name] + Opt(d.description) }

  function PromptTexts(d: PromptDef): seq<Text> {
    [Join(COLON, NonBlank(PromptParts(d)))] + Flat(ArgumentTexts, d.arguments, |d.arguments|)
  }

  function PromptPrinted(d: PromptDef): seq<Text> { PromptParts(d) + Flat(ArgumentParts, d.arguments, |d.arguments|) }

  function ResourceParts(r: ResourceDef): seq<Text> { Opt(r.name) + [r.uri] + Opt(r.description) }

  function ResourceTexts(r: ResourceDef): seq<Text> { [Join(COLON, NonBlank(ResourceParts(r)))] }

  function ResourcePrinted(r: ResourceDef): seq<Text> { ResourceParts(r) + Opt(r.mimeType) }

  function ResourceMissed(r: ResourceDef): seq<Text> { Opt(r.mimeType) }

  function ServerInfo(init: Init): seq<Text> { Opt(init.name) + Opt(init.release) }

  /** surfaceSegments, in this order: instructions, name and release, tools, prompts, resources. */
  function SurfaceTexts(h: Handshake): seq<Text>
    requires h.Up?
  {
    Opt(h.init.instructions) + [Join(SPACE, NonEmpty(ServerInfo(h.init)))] + DefinitionTexts(h)
  }

  function NonEmpty(parts: seq<Text>): seq<Text> {
    if parts == [] then [] else (if parts[0] == [] then [] else [parts[0]]) + NonEmpty(parts[1..])
  }

  function DefinitionTexts(h: Handshake): seq<Text>
    requires h.Up?
  {
    Flat(ToolTexts, h.tools, |h.tools|) + Flat(PromptTexts, h.prompts, |h.prompts|)
    + Flat(ResourceTexts, h.resources, |h.resources|)
  }

  function DefinitionPrinted(h: Handshake): seq<Text>
    requires h.Up?
  {
    Flat(ToolPrinted, h.tools, |h.tools|) + Flat(PromptPrinted, h.prompts, |h.prompts|)
    + Flat(ResourcePrinted, h.resources, |h.resources|)
  }

  function DefinitionMissed(h: Handshake): seq<Text>
    requires h.Up?
  {
    Flat(ToolMissed, h.tools, |h.tools|) + Flat(ResourceMissed, h.resources, |h.resources|)
  }

  // ---- what a server answers ------------------------------------------------------------------------------

  /** A fuzz case's answer; `echo` if it is taken for our own input sent back. Without an answer there is
      a note of our own client, which may quote the target. */
  datatype FuzzCase = FuzzCase(message: Option<Text>, excerpt: Text, echo: bool, note: Option<Text>)

  datatype FuzzReport = FuzzReport(cases: seq<FuzzCase>, notable: seq<Text>)

  /** An answer is from the server, or else such a note. */
  datatype BenignCall = BenignCall(output: Text, fromServer: bool, hits: seq<Text>)

  datatype ActiveProbe = ActiveProbe(evidence: Text, fromServer: bool, echo: bool)

  /** `requests` are the methods of requests the server sent. */
  datatype ProbeReport = ProbeReport(benign: seq<BenignCall>, active: seq<ActiveProbe>, requests: seq<Text>,
                                     instructionHits: seq<Text>, definitionHits: seq<Text>)

  const NOTABLE_PRINTED: nat := 40

  function CaseAnswer(c: FuzzCase): seq<Text> { Opt(c.message) + [c.excerpt] }

  function CaseTexts(c: FuzzCase): seq<Text> { if c.echo then [] else CaseAnswer(c) }

  function CasePrinted(c: FuzzCase): seq<Text> { CaseAnswer(c) + Opt(c.note) }

  function CaseMissed(c: FuzzCase): seq<Text> { (if c.echo then CaseAnswer(c) else []) + Opt(c.note) }

  /** fuzzSegments. */
  function FuzzTexts(r: FuzzReport): seq<Text> { r.notable + Flat(CaseTexts, r.cases, |r.cases|) }

  function FuzzPrinted(r: FuzzReport): seq<Text> {
    (if |r.notable| <= NOTABLE_PRINTED then r.notable else r.notable[..NOTABLE_PRINTED])
    + Flat(CasePrinted, r.cases, |r.cases|)
  }

  function FuzzMissed(r: FuzzReport): seq<Text> { Flat(CaseMissed, r.cases, |r.cases|) }

  function CallTexts(b: BenignCall): seq<Text> { (if b.fromServer then [b.output] else []) + b.hits }

  function CallPrinted(b: BenignCall): seq<Text> { [b.output] + b.hits }

  function CallMissed(b: BenignCall): seq<Text> { if b.fromServer then [] else [b.output] }

  function ActiveTexts(a: ActiveProbe): seq<Text> { if a.fromServer && !a.echo then [a.evidence] else [] }

  function ActivePrinted(a: ActiveProbe): seq<Text> { [a.evidence] }

  function ActiveMissed(a: ActiveProbe): seq<Text> { if a.fromServer && !a.echo then [] else [a.evidence] }

  /** probeSegments. */
  function ProbeTexts(r: ProbeReport): seq<Text> {
    Flat(CallTexts, r.benign, |r.benign|) + Flat(ActiveTexts, r.active, |r.active|)
    + (r.instructionHits + r.definitionHits)
  }

  function ProbePrinted(r: ProbeReport): seq<Text> {
    Flat(CallPrinted, r.benign, |r.benign|) + Flat(ActivePrinted, r.active, |r.active|)
    + (r.instructionHits + r.definitionHits)
    + r.requests
  }

  function ProbeMissed(r: ProbeReport): seq<Text> {
    Flat(CallMissed, r.benign, |r.benign|) + Flat(ActiveMissed, r.active, |r.active|) + r.requests
  }

  // ---- accounts of the reports --------------------------------------------------------------------------------

  ghost predicate Accounts<A>(p: Text, pr: A -> seq<Text>, mi: A -> seq<Text>, li: A -> seq<Text>, xs: seq<A>) {
    forall i :: 0 <= i < |xs| ==> Account(p, pr(xs[i]), mi(xs[i]), li(xs[i]))
  }

  lemma {:induction false} AccountFlat<A>(p: Text, pr: A -> seq<Text>, mi: A -> seq<Text>, li: A -> seq<Text>,
                                          xs: seq<A>, n: nat)
    requires Accounts(p, pr, mi, li, xs) && n <= |xs|
    ensures Account(p, Flat(pr, xs, n), Flat(mi, xs, n), Flat(li, xs, n))
  {
    if n > 0 {
      AccountFlat(p, pr, mi, li, xs, n - 1);
      AccountConcat(p, Flat(pr, xs, n - 1), Flat(mi, xs, n - 1), Flat(li, xs, n - 1),
                    pr(xs[n - 1]), mi(xs[n - 1]), li(xs[n - 1]));
    }
  }

  lemma {:induction false} AccountFlatListed<A>(p: Text, pr: A -> seq<Text>, li: A -> seq<Text>, xs: seq<A>, n: nat)
    requires n <= |xs| && forall i :: 0 <= i < |xs| ==> Account(p, pr(xs[i]), [], li(xs[i]))
    ensures Account(p, Flat(pr, xs, n), [], Flat(li, xs, n))
  {
    if n > 0 {
      AccountFlatListed(p, pr, li, xs, n - 1);
      AccountConcat(p, Flat(pr, xs, n - 1), [], Flat(li, xs, n - 1), pr(xs[n - 1]), [], li(xs[n - 1]));
    }
  }

  lemma {:induction false} NonBlankMember(parts: seq<Text>, p: Text)
    requires p in parts
    ensures !Blank(p, JsSpace) ==> p in NonBlank(parts)
    ensures p != [] ==> p in NonEmpty(parts)
  {
    if p != parts[0] {
      NonBlankMember(parts[1..], p);
    }
  }

  lemma AccountJoined(p: Text, parts: seq<Text>)
    ensures Account(p, parts, [], [Join(COLON, NonBlank(parts))])
    ensures Account(p, parts, [], [Join(SPACE, NonEmpty(parts))])
  {
    AccountJoin(p, COLON, NonBlank(parts));
    AccountJoin(p, SPACE, NonEmpty(parts));
    if p in parts {
      NonBlankMember(parts, p);
    }
  }

  lemma AccountTool(p: Text, t: Tool)
    ensures Account(p, ToolPrinted(t), ToolMissed(t), ToolTexts(t))
  {
    var parts, joined := ToolParts(t), [Join(COLON, NonBlank(ToolParts(t)))];
    AccountJoined(p, parts);
    var sp, sm, st := OptTree(SchemaPrinted, t.schema), OptTree(SchemaMissed, t.schema), OptTree(SchemaTexts, t.schema);
    if t.schema.Some? {
      AccountTree(SchemaRole, t.schema.value, p);
    }
    assert Account(p, sp, sm, st);
    var ap, am := OptTree(AllStrings, t.annotations), OptTree(Keys, t.annotations);
    var at := OptTree(StringLeaves, t.annotations);
    if t.annotations.Some? {
      AccountMissed(p, am);
      AccountListed(p, at);
      AccountConcat(p, am, am, [], at, [], at);
    }
    assert Account(p, ap, am, at);
    AccountConcat(p, parts, [], joined, sp, sm, st);
    AccountConcat(p, parts + sp, [] + sm, joined + st, ap, am, at);
  }

  lemma AccountPrompt(p: Text, d: PromptDef)
    ensures Account(p, PromptPrinted(d), [], PromptTexts(d))
  {
    forall i | 0 <= i < |d.arguments|
      ensures Account(p, ArgumentParts(d.arguments[i]), [], ArgumentTexts(d.arguments[i]))
    {
      AccountJoined(p, ArgumentParts(d.arguments[i]));
    }
    AccountFlatListed(p, ArgumentParts, ArgumentTexts, d.arguments, |d.arguments|);
    AccountJoined(p, PromptParts(d));
    AccountConcat(p, PromptParts(d), [], [Join(COLON, NonBlank(PromptParts(d)))],
                  Flat(ArgumentParts, d.arguments, |d.arguments|), [], Flat(ArgumentTexts, d.arguments, |d.arguments|));
  }

  lemma AccountResource(p: Text, r: ResourceDef)
    ensures Account(p, ResourcePrinted(r), ResourceMissed(r), ResourceTexts(r))
  {
    AccountJoined(p, ResourceParts(r));
    AccountMissed(p, Opt(r.mimeType));
    AccountConcat(p, ResourceParts(r), [], ResourceTexts(r), Opt(r.mimeType), Opt(r.mimeType), []);
    assert [] + Opt(r.mimeType) == Opt(r.mimeType) && ResourceTexts(r) + [] == ResourceTexts(r);
  }

  lemma AccountDefinitions(p: Text, h: Handshake)
    requires h.Up?
    ensures Account(p, DefinitionPrinted(h), DefinitionMissed(h), DefinitionTexts(h))
  {
    var t, d, r := |h.tools|, |h.prompts|, |h.resources|;
    forall i | 0 <= i < t ensures Account(p, ToolPrinted(h.tools[i]), ToolMissed(h.tools[i]), ToolTexts(h.tools[i])) {
      AccountTool(p, h.tools[i]);
    }
    AccountFlat(p, ToolPrinted, ToolMissed, ToolTexts, h.tools, t);
    forall i | 0 <= i < d ensures Account(p, PromptPrinted(h.prompts[i]), [], PromptTexts(h.prompts[i])) {
      AccountPrompt(p, h.prompts[i]);
    }
    AccountFlatListed(p, PromptPrinted, PromptTexts, h.prompts, d);
    forall i | 0 <= i < r
      ensures Account(p, ResourcePrinted(h.resources[i]), ResourceMissed(h.resources[i]), ResourceTexts(h.resources[i]))
    {
      AccountResource(p, h.resources[i]);
    }
    AccountFlat(p, ResourcePrinted, ResourceMissed, ResourceTexts, h.resources, r);
    AccountThree(p, Flat(ToolPrinted, h.tools, t), Flat(ToolMissed, h.tools, t), Flat(ToolTexts, h.tools, t),
                 Flat(PromptPrinted, h.prompts, d), Flat(PromptTexts, h.prompts, d),
                 Flat(ResourcePrinted, h.resources, r), Flat(ResourceMissed, h.resources, r),
                 Flat(ResourceTexts, h.resources, r));
  }

  lemma AccountThree(p: Text, pr: seq<Text>, mi: seq<Text>, li: seq<Text>, pr2: seq<Text>, li2: seq<Text>,
                     pr3: seq<Text>, mi3: seq<Text>, li3: seq<Text>)
    requires Account(p, pr, mi, li) && Account(p, pr2, [], li2) && Account(p, pr3, mi3, li3)
    ensures Account(p, pr + pr2 + pr3, mi + mi3, li + li2 + li3)
  {
    AccountConcat(p, pr, mi, li, pr2, [], li2);
    assert mi + [] == mi;
    AccountConcat(p, pr + pr2, mi, li + li2, pr3, mi3, li3);
  }

  lemma AccountCase(p: Text, c: FuzzCase)
    ensures Account(p, CasePrinted(c), CaseMissed(c), CaseTexts(c))
  {
    AccountListed(p, CaseAnswer(c));
    AccountMissed(p, CaseAnswer(c));
    AccountMissed(p, Opt(c.note));
    AccountConcat(p, CaseAnswer(c), if c.echo then CaseAnswer(c) else [], CaseTexts(c), Opt(c.note), Opt(c.note), []);
    assert CaseTexts(c) + [] == CaseTexts(c);
  }

  lemma AccountFuzz(p: Text, r: FuzzReport)
    ensures Account(p, FuzzPrinted(r), FuzzMissed(r), FuzzTexts(r))
  {
    var n := |r.cases|;
    forall i | 0 <= i < n ensures Account(p, CasePrinted(r.cases[i]), CaseMissed(r.cases[i]), CaseTexts(r.cases[i])) {
      AccountCase(p, r.cases[i]);
    }
    AccountFlat(p, CasePrinted, CaseMissed, CaseTexts, r.cases, n);
    AccountListed(p, r.notable);
    var printed := if |r.notable| <= NOTABLE_PRINTED then r.notable else r.notable[..NOTABLE_PRINTED];
    assert Account(p, printed, [], r.notable);
    AccountConcat(p, printed, [], r.notable,
                  Flat(CasePrinted, r.cases, n), Flat(CaseMissed, r.cases, n), Flat(CaseTexts, r.cases, n));
    assert [] + FuzzMissed(r) == FuzzMissed(r);
  }

  lemma AccountCall(p: Text, b: BenignCall)
    ensures Account(p, CallPrinted(b), CallMissed(b), CallTexts(b))
  {
    AccountListed(p, [b.output]);
    AccountMissed(p, [b.output]);
    AccountListed(p, b.hits);
    AccountConcat(p, [b.output], CallMissed(b), if b.fromServer then [b.output] else [], b.hits, [], b.hits);
    assert CallMissed(b) + [] == CallMissed(b);
  }

  lemma AccountProbes(p: Text, r: ProbeReport)
    ensures Account(p, ProbePrinted(r), ProbeMissed(r), ProbeTexts(r))
  {
    var b, a, hits := |r.benign|, |r.active|, r.instructionHits + r.definitionHits;
    forall i | 0 <= i < b
      ensures Account(p, CallPrinted(r.benign[i]), CallMissed(r.benign[i]), CallTexts(r.benign[i]))
    {
      AccountCall(p, r.benign[i]);
    }
    AccountFlat(p, CallPrinted, CallMissed, CallTexts, r.benign, b);
    forall i | 0 <= i < a
      ensures Account(p, ActivePrinted(r.active[i]), ActiveMissed(r.active[i]), ActiveTexts(r.active[i]))
    {
      AccountListed(p, ActivePrinted(r.active[i]));
      AccountMissed(p, ActivePrinted(r.active[i]));
    }
    AccountFlat(p, ActivePrinted, ActiveMissed, ActiveTexts, r.active, a);
    AccountListed(p, hits);
    AccountMissed(p, r.requests);
    AccountConcat(p, Flat(CallPrinted, r.benign, b), Flat(CallMissed, r.benign, b), Flat(CallTexts, r.benign, b),
                  Flat(ActivePrinted, r.active, a), Flat(ActiveMissed, r.active, a), Flat(ActiveTexts, r.active, a));
    ProbeParts(p, Flat(CallPrinted, r.benign, b) + Flat(ActivePrinted, r.active, a),
               Flat(CallMissed, r.benign, b) + Flat(ActiveMissed, r.active, a),
               Flat(CallTexts, r.benign, b) + Flat(ActiveTexts, r.active, a), hits, r.requests);
  }

  lemma ProbeParts(p: Text, pr: seq<Text>, mi: seq<Text>, li: seq<Text>, hits: seq<Text>, requests: seq<Text>)
    requires Account(p, pr, mi, li) && Account(p, hits, [], hits) && Account(p, requests, requests, [])
    ensures Account(p, pr + hits + requests, mi + requests, li + hits)
  {
    AccountConcat(p, pr, mi, li, hits, [], hits);
    assert mi + [] == mi;
    AccountConcat(p, pr + hits, mi, li + hits, requests, requests, []);
    assert li + hits + [] == li + hits;
  }

  // ---- prompts ------------------------------------------------------------------------------------------------

  datatype Kind = Static | Dynamic | Adversarial | Synthesis | Generic

  /** What is known of the target: how the handshake ended, if it was tried, and its latest answers. */
  datatype Target = Target(handshake: Option<Handshake>, fuzz: Option<FuzzReport>, probes: Option<ProbeReport>)

  predicate IsUp(t: Target) { t.handshake.Some? && t.handshake.value.Up? }

  /** The strings of the target that the prompt of an agent prints. Names of tools and of properties
      that fuzz cases and probes repeat are those of the definitions. Agents without evidence of their
      own still see the telemetry. */
  function Prints(t: Target, kind: Kind): seq<Text> {
    match kind
    case Static => []
    case Dynamic => HandshakePrinted(t, true) + if t.fuzz.Some? then FuzzPrinted(t.fuzz.value) else []
    case Adversarial =>
      (if IsUp(t) then HandshakePrinted(t, false) else []) + if t.probes.Some? then ProbePrinted(t.probes.value) else []
    case _ => if IsUp(t) then Opt(t.handshake.value.init.version) + ServerInfo(t.handshake.value.init) else []
  }

  /** The dynamic agent sees the whole answer to initialize, or the error instead. */
  function HandshakePrinted(t: Target, whole: bool): seq<Text> {
    if t.handshake.None? then []
    else match t.handshake.value
      case Down(error) => [error]
      case Up(init, _, _, _) =>
        (Opt(init.version) + if whole then AllStrings(init.capabilities) else [])
        + (Opt(init.instructions) + ServerInfo(init) + DefinitionPrinted(t.handshake.value))
  }

  /** The printed strings that no gate lists: the error of a failed handshake, the protocol version, the
      capabilities, parts of schemas, MIME types, answers taken for echoes, notes and methods of requests. */
  function Blind(t: Target, kind: Kind): seq<Text> {
    match kind
    case Static => []
    case Dynamic => HandshakeMissed(t, true) + if t.fuzz.Some? then FuzzMissed(t.fuzz.value) else []
    case Adversarial =>
      (if IsUp(t) then HandshakeMissed(t, false) else []) + if t.probes.Some? then ProbeMissed(t.probes.value) else []
    case _ => if IsUp(t) then Opt(t.handshake.value.init.version) else []
  }

  function HandshakeMissed(t: Target, whole: bool): seq<Text> {
    if t.handshake.None? then []
    else match t.handshake.value
      case Down(error) => [error]
      case Up(init, _, _, _) =>
        (Opt(init.version) + if whole then AllStrings(init.capabilities) else []) + DefinitionMissed(t.handshake.value)
  }

  /** What gate 1 lists, and what the gate before a prompt lists. */
  function Advertised(t: Target): seq<Text> { if IsUp(t) then SurfaceTexts(t.handshake.value) else [] }

  function Answered(t: Target, kind: Kind): seq<Text> {
    match kind
    case Dynamic => if t.fuzz.Some? then FuzzTexts(t.fuzz.value) else []
    case Adversarial => if t.probes.Some? then ProbeTexts(t.probes.value) else []
    case _ => []
  }

  lemma AccountHandshake(p: Text, t: Target, whole: bool)
    ensures Account(p, HandshakePrinted(t, whole), HandshakeMissed(t, whole), Advertised(t))
  {
    if IsUp(t) {
      var h := t.handshake.value;
      var own := Opt(h.init.version) + if whole then AllStrings(h.init.capabilities) else [];
      var instr, info := Opt(h.init.instructions), ServerInfo(h.init);
      AccountMissed(p, own);
      AccountListed(p, instr);
      AccountJoined(p, info);
      AccountDefinitions(p, h);
      AccountConcat(p, instr, [], instr, info, [], [Join(SPACE, NonEmpty(info))]);
      AccountConcat(p, instr + info, [], instr + [Join(SPACE, NonEmpty(info))],
                    DefinitionPrinted(h), DefinitionMissed(h), DefinitionTexts(h));
      assert [] + DefinitionMissed(h) == DefinitionMissed(h);
      AccountConcat(p, own, own, [], instr + info + DefinitionPrinted(h), DefinitionMissed(h), SurfaceTexts(h));
      assert [] + SurfaceTexts(h) == SurfaceTexts(h);
    } else if t.handshake.Some? {
      AccountMissed(p, [t.handshake.value.error]);
    }
  }

  /** Every string a prompt prints of the target is blank, inside a text the gates list, or one of the
      blind ones; and all of these are printed. */
  lemma PromptAccount(p: Text, t: Target, kind: Kind)
    ensures Account(p, Prints(t, kind), Blind(t, kind), Advertised(t) + Answered(t, kind))
  {
    match kind
    case Static =>
    case Dynamic =>
      AccountHandshake(p, t, true);
      if t.fuzz.Some? {
        AccountFuzz(p, t.fuzz.value);
      }
      AccountConcat(p, HandshakePrinted(t, true), HandshakeMissed(t, true), Advertised(t),
                    if t.fuzz.Some? then FuzzPrinted(t.fuzz.value) else [],
                    if t.fuzz.Some? then FuzzMissed(t.fuzz.value) else [], Answered(t, kind));
    case Adversarial =>
      AccountHandshake(p, t, false);
      if t.probes.Some? {
        AccountProbes(p, t.probes.value);
      }
      AccountConcat(p, if IsUp(t) then HandshakePrinted(t, false) else [],
                    if IsUp(t) then HandshakeMissed(t, false) else [],
                    Advertised(t), if t.probes.Some? then ProbePrinted(t.probes.value) else [],
                    if t.probes.Some? then ProbeMissed(t.probes.value) else [], Answered(t, kind));
    case _ =>
      if IsUp(t) {
        AccountTelemetry(p, t.handshake.value);
      }
      assert Advertised(t) + [] == Advertised(t);
  }

  lemma AccountTelemetry(p: Text, h: Handshake)
    requires h.Up?
    ensures Account(p, Opt(h.init.version) + ServerInfo(h.init), Opt(h.init.version), SurfaceTexts(h))
  {
    var joined := [Join(SPACE, NonEmpty(ServerInfo(h.init)))];
    AccountJoined(p, ServerInfo(h.init));
    InsideMore(p, Opt(h.init.instructions), joined);
    InsideMore(p, Opt(h.init.instructions) + joined, DefinitionTexts(h));
  }

  // ---- what the prompts print ------------------------------------------------------------------------------

  lemma {:induction false} FlatHas<A>(f: A -> seq<Text>, xs: seq<A>, n: nat, i: nat, p: Text)
    requires i < n <= |xs| && p in f(xs[i])
    ensures p in Flat(f, xs, n)
  {
    if i < n - 1 {
      FlatHas(f, xs, n - 1, i, p);
    }
  }

  /** The dynamic prompt prints every answer to a fuzz case and every note, listed or not. */
  lemma CasesPrinted(t: Target, i: nat, p: Text)
    requires t.fuzz.Some? && i < |t.fuzz.value.cases|
    requires var c := t.fuzz.value.cases[i]; p == c.excerpt || c.message == Some(p) || c.note == Some(p)
    ensures p in Prints(t, Dynamic)
  {
    var cases := t.fuzz.value.cases;
    assert p in CasePrinted(cases[i]);
    FlatHas(CasePrinted, cases, |cases|, i, p);
  }

  /** The adversarial prompt prints every answer to a probe and all that was found in one. */
  lemma ProbesPrinted(t: Target, i: nat, p: Text)
    requires t.probes.Some?
    requires var r := t.probes.value;
      || (i < |r.benign| && (p == r.benign[i].output || p in r.benign[i].hits))
      || (i < |r.active| && p == r.active[i].evidence)
      || p in r.requests || p in r.instructionHits || p in r.definitionHits
    ensures p in Prints(t, Adversarial)
  {
    var r := t.probes.value;
    if i < |r.benign| && p in CallPrinted(r.benign[i]) {
      FlatHas(CallPrinted, r.benign, |r.benign|, i, p);
    } else if i < |r.active| && p in ActivePrinted(r.active[i]) {
      FlatHas(ActivePrinted, r.active, |r.active|, i, p);
    }
    assert p in ProbePrinted(r);
  }

  /** Both print the instructions, the server's name and version, and all definitions. */
  lemma SurfacePrinted(t: Target, kind: Kind, p: Text)
    requires IsUp(t) && (kind.Dynamic? || kind.Adversarial?)
    requires var h := t.handshake.value;
      || h.init.instructions == Some(p) || h.init.name == Some(p)
      || h.init.release == Some(p) || h.init.version == Some(p)
      || (exists i :: 0 <= i < |h.tools| && p in ToolPrinted(h.tools[i]))
      || (exists i :: 0 <= i < |h.prompts| && p in PromptPrinted(h.prompts[i]))
      || (exists i :: 0 <= i < |h.resources| && p in ResourcePrinted(h.resources[i]))
    ensures p in Prints(t, kind)
  {
    var h := t.handshake.value;
    if i :| 0 <= i < |h.tools| && p in ToolPrinted(h.tools[i]) {
      FlatHas(ToolPrinted, h.tools, |h.tools|, i, p);
    } else if i :| 0 <= i < |h.prompts| && p in PromptPrinted(h.prompts[i]) {
      FlatHas(PromptPrinted, h.prompts, |h.prompts|, i, p);
    } else if i :| 0 <= i < |h.resources| && p in ResourcePrinted(h.resources[i]) {
      FlatHas(ResourcePrinted, h.resources, |h.resources|, i, p);
    }
    assert p in HandshakePrinted(t, kind.Dynamic?);
  }

  // ---- segments -------------------------------------------------------------------------------------------------

  /** push: blank texts are not listed. The labels are not modelled. */
  function ToSegments(texts: seq<Text>): seq<Segment> {
    if texts == [] then []
    else (if Blank(texts[0], JsSpace) then [] else [Segment("", texts[0])]) + ToSegments(texts[1..])
  }

  ghost predicate InSegments(p: Text, segments: seq<Segment>) {
    exists k: nat, off: nat :: k < |segments| && HoldsAt(segments[k].text, off, p)
  }

  lemma {:induction false} SegmentFor(texts: seq<Text>, text: Text) returns (k: nat)
    requires text in texts && !Blank(text, JsSpace)
    ensures k < |ToSegments(texts)| && ToSegments(texts)[k].text == text
  {
    var first := if Blank(texts[0], JsSpace) then [] else [Segment("", texts[0])];
    if texts[0] == text {
      k := 0;
    } else {
      k := SegmentFor(texts[1..], text);
      k := |first| + k;
    }
  }

  lemma ListedIsScanned(p: Text, texts: seq<Text>)
    requires Inside(p, texts)
    ensures Blank(p, JsSpace) || InSegments(p, ToSegments(texts))
  {
    var k: nat, off: nat :| k < |texts| && HoldsAt(texts[k], off, p);
    if !Blank(p, JsSpace) {
      var i :| 0 <= i < |p| && !JsSpace(p[i]);
      assert texts[k][off..off + |p|][i] == texts[k][off + i];
      var n := SegmentFor(texts, texts[k]);
      assert HoldsAt(ToSegments(texts)[n].text, off, p);
    }
  }

  // ---- the gates do not depend on the blind strings -----------------------------------------------------------

  type Rewording = Text -> Text

  /** A rewording that makes no keyword of a key that is none. */
  ghost predicate Shy(voc: Vocabulary, f: Rewording) { forall key :: voc(key).Ignored? ==> voc(f(key)).Ignored? }

  function Each<A, B>(f: A -> B, xs: seq<A>): (r: seq<B>)
    ensures |r| == |xs| && forall i :: 0 <= i < |xs| ==> r[i] == f(xs[i])
  {
    seq(|xs|, i requires 0 <= i < |xs| => f(xs[i]))
  }

  lemma EachConcat(f: Rewording, a: seq<Text>, b: seq<Text>)
    ensures Each(f, a + b) == Each(f, a) + Each(f, b)
  {
  }

  lemma EachKeyed(f: Rewording, key: Text, a: seq<Text>, b: seq<Text>)
    ensures Each(f, [key] + a + b) == [f(key)] + Each(f, a) + Each(f, b)
  {
    EachConcat(f, [key], a);
    EachConcat(f, [key] + a, b);
  }

  /** Every string of a value and every key reworded, or only the keys. */
  function Reworded(f: Rewording, keysOnly: bool, t: Tree): Tree {
    match t
    case Str(s) => if keysOnly then t else Str(f(s))
    case Arr(items) => Arr(RewordedAll(f, keysOnly, items))
    case Obj(fields) => Obj(RewordedIn(f, keysOnly, fields))
    case Atom => Atom
  }

  function RewordedAll(f: Rewording, keysOnly: bool, ts: Trees): Trees {
    if ts.NoTrees? then NoTrees else Trees(Reworded(f, keysOnly, ts.head), RewordedAll(f, keysOnly, ts.tail))
  }

  function RewordedIn(f: Rewording, keysOnly: bool, fs: Fields): Fields {
    if fs.NoFields? then NoFields
    else Fields(f(fs.key), Reworded(f, keysOnly, fs.value), RewordedIn(f, keysOnly, fs.rest))
  }

  /** The leaves under a reworded value. */
  function Leafwise(f: Rewording, keysOnly: bool, leaves: seq<Text>): seq<Text> {
    if keysOnly then leaves else Each(f, leaves)
  }

  lemma {:induction false} RewordedStrings(f: Rewording, keysOnly: bool, t: Tree)
    ensures Keys(Reworded(f, keysOnly, t)) == Each(f, Keys(t))
    ensures StringLeaves(Reworded(f, keysOnly, t)) == Leafwise(f, keysOnly, StringLeaves(t))
  {
    match t
    case Str(_) =>
    case Arr(items) => RewordedStringsAll(f, keysOnly, items);
    case Obj(fields) => RewordedStringsIn(f, keysOnly, fields);
    case Atom =>
  }

  lemma {:induction false} RewordedStringsAll(f: Rewording, keysOnly: bool, ts: Trees)
    ensures KeysAll(RewordedAll(f, keysOnly, ts)) == Each(f, KeysAll(ts))
    ensures LeavesAll(RewordedAll(f, keysOnly, ts)) == Leafwise(f, keysOnly, LeavesAll(ts))
  {
    if ts.Trees? {
      RewordedStrings(f, keysOnly, ts.head);
      RewordedStringsAll(f, keysOnly, ts.tail);
      EachConcat(f, Keys(ts.head), KeysAll(ts.tail));
      EachConcat(f, StringLeaves(ts.head), LeavesAll(ts.tail));
    }
  }

  lemma {:induction false} RewordedStringsIn(f: Rewording, keysOnly: bool, fs: Fields)
    ensures KeysIn(RewordedIn(f, keysOnly, fs)) == Each(f, KeysIn(fs))
    ensures LeavesIn(RewordedIn(f, keysOnly, fs)) == Leafwise(f, keysOnly, LeavesIn(fs))
  {
    if fs.Fields? {
      RewordedStrings(f, keysOnly, fs.value);
      RewordedStringsIn(f, keysOnly, fs.rest);
      EachKeyed(f, fs.key, Keys(fs.value), KeysIn(fs.rest));
      EachConcat(f, StringLeaves(fs.value), LeavesIn(fs.rest));
    }
  }

  lemma RewordedAllStrings(f: Rewording, t: Tree)
    ensures AllStrings(Reworded(f, false, t)) == Each(f, AllStrings(t))
  {
    RewordedStrings(f, false, t);
    EachConcat(f, Keys(t), StringLeaves(t));
  }

  /** The missed strings of a schema reworded. */
  function Veiled(voc: Vocabulary, f: Rewording, t: Tree): Tree
    decreases t, 0
  {
    match t
    case Str(s) => Str(f(s))
    case Arr(items) => Arr(VeiledAll(voc, f, items))
    case Obj(fields) => Obj(VeiledFields(voc, f, fields))
    case Atom => Atom
  }

  function VeiledAll(voc: Vocabulary, f: Rewording, ts: Trees): Trees
    decreases ts, 0
  {
    if ts.NoTrees? then NoTrees else Trees(Veiled(voc, f, ts.head), VeiledAll(voc, f, ts.tail))
  }

  /** The names are those of properties, which are listed, or of definitions, which are not. */
  function VeiledValues(voc: Vocabulary, f: Rewording, named: bool, fs: Fields): Fields
    decreases fs, 0
  {
    if fs.NoFields? then NoFields
    else Fields(if named then fs.key else f(fs.key), Veiled(voc, f, fs.value), VeiledValues(voc, f, named, fs.rest))
  }

  function VeiledFields(voc: Vocabulary, f: Rewording, fs: Fields): Fields
    decreases fs, 0
  {
    if fs.NoFields? then NoFields
    else Fields(if voc(fs.key).Ignored? then f(fs.key) else fs.key, VeiledField(voc, f, fs.key, fs.value),
                VeiledFields(voc, f, fs.rest))
  }

  function VeiledField(voc: Vocabulary, f: Rewording, key: Text, value: Tree): Tree
    decreases value, 1
  {
    match voc(key)
    case Words => if value.Str? then value else Reworded(f, false, value)
    case Leaves => Reworded(f, true, value)
    case Properties => if value.Obj? then Obj(VeiledValues(voc, f, true, value.fields)) else Reworded(f, false, value)
    case Nested => Veiled(voc, f, value)
    case Definitions =>
      if value.Obj? then Obj(VeiledValues(voc, f, false, value.fields))
      else if value.Arr? then Arr(VeiledAll(voc, f, value.items)) else Reworded(f, false, value)
    case Ignored => Reworded(f, false, value)
  }

  /** A veiled schema lists the same, and misses the reworded strings. */
  lemma {:induction false} VeiledListsSame(voc: Vocabulary, f: Rewording, t: Tree)
    requires Shy(voc, f)
    ensures Walk(voc, Veiled(voc, f, t)) == Walk(voc, t)
    ensures Missed(voc, Veiled(voc, f, t)) == Each(f, Missed(voc, t))
    decreases t, 0
  {
    match t
    case Str(_) =>
    case Arr(items) => VeiledAllSame(voc, f, items);
    case Obj(fields) => VeiledFieldsSame(voc, f, fields);
    case Atom =>
  }

  lemma {:induction false} VeiledAllSame(voc: Vocabulary, f: Rewording, ts: Trees)
    requires Shy(voc, f)
    ensures WalkAll(voc, VeiledAll(voc, f, ts)) == WalkAll(voc, ts)
    ensures MissedAll(voc, VeiledAll(voc, f, ts)) == Each(f, MissedAll(voc, ts))
    decreases ts, 0
  {
    if ts.Trees? {
      VeiledListsSame(voc, f, ts.head);
      VeiledAllSame(voc, f, ts.tail);
      EachConcat(f, Missed(voc, ts.head), MissedAll(voc, ts.tail));
    }
  }

  lemma {:induction false} VeiledValuesSame(voc: Vocabulary, f: Rewording, named: bool, fs: Fields)
    requires Shy(voc, f)
    ensures WalkValues(voc, VeiledValues(voc, f, named, fs)) == WalkValues(voc, fs)
    ensures MissedValues(voc, VeiledValues(voc, f, named, fs)) == Each(f, MissedValues(voc, fs))
    ensures Names(VeiledValues(voc, f, named, fs)) == if named then Names(fs) else Each(f, Names(fs))
    decreases fs, 0
  {
    if fs.Fields? {
      VeiledListsSame(voc, f, fs.value);
      VeiledValuesSame(voc, f, named, fs.rest);
      EachConcat(f, Missed(voc, fs.value), MissedValues(voc, fs.rest));
      EachConcat(f, [fs.key], Names(fs.rest));
    }
  }

  lemma {:induction false} VeiledFieldsSame(voc: Vocabulary, f: Rewording, fs: Fields)
    requires Shy(voc, f)
    ensures WalkFields(voc, VeiledFields(voc, f, fs)) == WalkFields(voc, fs)
    ensures MissedFields(voc, VeiledFields(voc, f, fs)) == Each(f, MissedFields(voc, fs))
    decreases fs, 0
  {
    if fs.Fields? {
      VeiledFieldSame(voc, f, fs.key, fs.value);
      VeiledFieldsSame(voc, f, fs.rest);
      EachConcat(f, FieldMissed(voc, fs.key, fs.value), MissedFields(voc, fs.rest));
    }
  }

  lemma {:induction false} VeiledFieldSame(voc: Vocabulary, f: Rewording, key: Text, value: Tree)
    requires Shy(voc, f)
    ensures var k, v := if voc(key).Ignored? then f(key) else key, VeiledField(voc, f, key, value);
      && FieldTexts(voc, k, v) == FieldTexts(voc, key, value)
      && FieldMissed(voc, k, v) == Each(f, FieldMissed(voc, key, value))
    decreases value, 1
  {
    RewordedAllStrings(f, value);
    match voc(key)
    case Words =>
    case Leaves => RewordedStrings(f, true, value);
    case Properties =>
      if value.Obj? {
        VeiledValuesSame(voc, f, true, value.fields);
      }
    case Nested => VeiledListsSame(voc, f, value);
    case Definitions =>
      if value.Obj? {
        VeiledValuesSame(voc, f, false, value.fields);
        EachConcat(f, Names(value.fields), MissedValues(voc, value.fields));
      } else if value.Arr? {
        VeiledAllSame(voc, f, value.items);
      }
    case Ignored => EachConcat(f, [key], AllStrings(value));
  }

  function VeiledOpt(f: Rewording, o: Option<Text>): Option<Text> { if o.Some? then Some(f(o.value)) else None }

  function VeiledTool(f: Rewording, t: Tool): Tool {
    t.(schema := if t.schema.Some? then Some(Veiled(SchemaRole, f, t.schema.value)) else None,
       annotations := if t.annotations.Some? then Some(Reworded(f, true, t.annotations.value)) else None)
  }

  function VeiledResource(f: Rewording, r: ResourceDef): ResourceDef { r.(mimeType := VeiledOpt(f, r.mimeType)) }

  function VeiledCase(f: Rewording, c: FuzzCase): FuzzCase {
    var note := VeiledOpt(f, c.note);
    if c.echo then FuzzCase(VeiledOpt(f, c.message), f(c.excerpt), true, note) else c.(note := note)
  }

  function VeiledCall(f: Rewording, b: BenignCall): BenignCall {
    if b.fromServer then b else b.(output := f(b.output))
  }

  function VeiledProbe(f: Rewording, a: ActiveProbe): ActiveProbe {
    if a.fromServer && !a.echo then a else a.(evidence := f(a.evidence))
  }

  function VeiledFuzz(f: Rewording, r: FuzzReport): FuzzReport {
    r.(cases := Each((c: FuzzCase) => VeiledCase(f, c), r.cases))
  }

  function VeiledProbes(f: Rewording, r: ProbeReport): ProbeReport {
    r.(benign := Each((b: BenignCall) => VeiledCall(f, b), r.benign),
       active := Each((a: ActiveProbe) => VeiledProbe(f, a), r.active), requests := Each(f, r.requests))
  }

  /** The same target with its blind strings reworded. */
  function VeiledTarget(f: Rewording, t: Target): Target {
    Target(if t.handshake.None? then None else Some(VeiledHandshake(f, t.handshake.value)),
           if t.fuzz.None? then None else Some(VeiledFuzz(f, t.fuzz.value)),
           if t.probes.None? then None else Some(VeiledProbes(f, t.probes.value)))
  }

  function VeiledHandshake(f: Rewording, h: Handshake): Handshake {
    match h
    case Down(error) => Down(f(error))
    case Up(init, tools, prompts, resources) =>
      Up(init.(version := VeiledOpt(f, init.version), capabilities := Reworded(f, false, init.capabilities)),
         Each((t: Tool) => VeiledTool(f, t), tools), prompts, Each((r: ResourceDef) => VeiledResource(f, r), resources))
  }

  lemma {:induction false} FlatSame<A>(f: A -> seq<Text>, xs: seq<A>, ys: seq<A>, n: nat)
    requires n <= |xs| && n <= |ys| && forall i :: 0 <= i < n ==> f(xs[i]) == f(ys[i])
    ensures Flat(f, xs, n) == Flat(f, ys, n)
  {
    if n > 0 {
      FlatSame(f, xs, ys, n - 1);
    }
  }

  lemma {:induction false} FlatEach<A>(g: Rewording, f: A -> seq<Text>, xs: seq<A>, ys: seq<A>, n: nat)
    requires n <= |xs| && n <= |ys| && forall i :: 0 <= i < n ==> f(ys[i]) == Each(g, f(xs[i]))
    ensures Flat(f, ys, n) == Each(g, Flat(f, xs, n))
  {
    if n > 0 {
      FlatEach(g, f, xs, ys, n - 1);
      EachConcat(g, Flat(f, xs, n - 1), f(xs[n - 1]));
    }
  }

  lemma OptEach(f: Rewording, o: Option<Text>)
    ensures Opt(VeiledOpt(f, o)) == Each(f, Opt(o))
  {
  }

  lemma ToolVeiled(f: Rewording, t: Tool)
    requires Shy(SchemaRole, f)
    ensures ToolTexts(VeiledTool(f, t)) == ToolTexts(t) && ToolMissed(VeiledTool(f, t)) == Each(f, ToolMissed(t))
  {
    var u := VeiledTool(f, t);
    if t.schema.Some? {
      VeiledListsSame(SchemaRole, f, t.schema.value);
    }
    assert OptTree(SchemaMissed, u.schema) == Each(f, OptTree(SchemaMissed, t.schema));
    if t.annotations.Some? {
      RewordedStrings(f, true, t.annotations.value);
    }
    assert OptTree(Keys, u.annotations) == Each(f, OptTree(Keys, t.annotations));
    EachConcat(f, OptTree(SchemaMissed, t.schema), OptTree(Keys, t.annotations));
  }

  lemma ResourceVeiled(f: Rewording, r: ResourceDef)
    ensures ResourceTexts(VeiledResource(f, r)) == ResourceTexts(r)
    ensures ResourceMissed(VeiledResource(f, r)) == Each(f, ResourceMissed(r))
  {
    OptEach(f, r.mimeType);
  }

  lemma DefinitionsVeiled(f: Rewording, h: Handshake)
    requires h.Up? && Shy(SchemaRole, f)
    ensures SurfaceTexts(VeiledHandshake(f, h)) == SurfaceTexts(h)
    ensures DefinitionMissed(VeiledHandshake(f, h)) == Each(f, DefinitionMissed(h))
  {
    var g, n, m := VeiledHandshake(f, h), |h.tools|, |h.resources|;
    forall i | 0 <= i < n
      ensures ToolTexts(h.tools[i]) == ToolTexts(g.tools[i])
      ensures ToolMissed(g.tools[i]) == Each(f, ToolMissed(h.tools[i]))
    {
      ToolVeiled(f, h.tools[i]);
    }
    FlatSame(ToolTexts, h.tools, g.tools, n);
    FlatEach(f, ToolMissed, h.tools, g.tools, n);
    forall i | 0 <= i < m
      ensures ResourceTexts(h.resources[i]) == ResourceTexts(g.resources[i])
      ensures ResourceMissed(g.resources[i]) == Each(f, ResourceMissed(h.resources[i]))
    {
      ResourceVeiled(f, h.resources[i]);
    }
    FlatSame(ResourceTexts, h.resources, g.resources, m);
    FlatEach(f, ResourceMissed, h.resources, g.resources, m);
    EachConcat(f, Flat(ToolMissed, h.tools, n), Flat(ResourceMissed, h.resources, m));
  }

  lemma CaseVeiled(f: Rewording, c: FuzzCase)
    ensures CaseMissed(VeiledCase(f, c)) == Each(f, CaseMissed(c))
  {
    OptEach(f, c.note);
    OptEach(f, c.message);
    EachConcat(f, Opt(c.message), [c.excerpt]);
    EachConcat(f, if c.echo then CaseAnswer(c) else [], Opt(c.note));
  }

  lemma FuzzVeiled(f: Rewording, r: FuzzReport)
    ensures FuzzTexts(VeiledFuzz(f, r)) == FuzzTexts(r) && FuzzMissed(VeiledFuzz(f, r)) == Each(f, FuzzMissed(r))
  {
    var u, n := VeiledFuzz(f, r), |r.cases|;
    forall i | 0 <= i < n ensures CaseMissed(u.cases[i]) == Each(f, CaseMissed(r.cases[i])) {
      CaseVeiled(f, r.cases[i]);
    }
    FlatSame(CaseTexts, r.cases, u.cases, n);
    FlatEach(f, CaseMissed, r.cases, u.cases, n);
  }

  lemma ProbesVeiled(f: Rewording, r: ProbeReport)
    ensures ProbeTexts(VeiledProbes(f, r)) == ProbeTexts(r)
    ensures ProbeMissed(VeiledProbes(f, r)) == Each(f, ProbeMissed(r))
  {
    var u, n, b := VeiledProbes(f, r), |r.active|, |r.benign|;
    FlatSame(CallTexts, r.benign, u.benign, b);
    FlatEach(f, CallMissed, r.benign, u.benign, b);
    FlatSame(ActiveTexts, r.active, u.active, n);
    FlatEach(f, ActiveMissed, r.active, u.active, n);
    EachConcat(f, Flat(CallMissed, r.benign, b), Flat(ActiveMissed, r.active, n));
    EachConcat(f, Flat(CallMissed, r.benign, b) + Flat(ActiveMissed, r.active, n), r.requests);
  }

  lemma HandshakeVeiled(f: Rewording, t: Target, whole: bool)
    requires Shy(SchemaRole, f)
    ensures HandshakeMissed(VeiledTarget(f, t), whole) == Each(f, HandshakeMissed(t, whole))
    ensures Advertised(VeiledTarget(f, t)) == Advertised(t)
  {
    if IsUp(t) {
      var h := t.handshake.value;
      var caps := if whole then AllStrings(h.init.capabilities) else [];
      DefinitionsVeiled(f, h);
      OptEach(f, h.init.version);
      RewordedAllStrings(f, h.init.capabilities);
      EachConcat(f, Opt(h.init.version), caps);
      EachConcat(f, Opt(h.init.version) + caps, DefinitionMissed(h));
    }
  }

  /** Whatever the blind strings of a target say, the gates list the same: no scan depends on them. And
      rewording them changes what the prompts print of them. */
  lemma GatesIgnoreBlind(f: Rewording, t: Target, kind: Kind)
    requires Shy(SchemaRole, f)
    ensures Advertised(VeiledTarget(f, t)) == Advertised(t) && Answered(VeiledTarget(f, t), kind) == Answered(t, kind)
    ensures Blind(VeiledTarget(f, t), kind) == Each(f, Blind(t, kind))
  {
    HandshakeVeiled(f, t, kind.Dynamic?);
    match kind
    case Static =>
    case Dynamic =>
      if t.fuzz.Some? {
        FuzzVeiled(f, t.fuzz.value);
      }
      EachConcat(f, HandshakeMissed(t, true), if t.fuzz.Some? then FuzzMissed(t.fuzz.value) else []);
    case Adversarial =>
      if t.probes.Some? {
        ProbesVeiled(f, t.probes.value);
      }
      EachConcat(f, if IsUp(t) then HandshakeMissed(t, false) else [],
                 if t.probes.Some? then ProbeMissed(t.probes.value) else []);
    case _ =>
      if IsUp(t) {
        OptEach(f, t.handshake.value.init.version);
      }
  }

  // ---- when the gates cover a prompt ----------------------------------------------------------------------------

  /** What the gates list for a prompt. */
  function Listed(t: Target, kind: Kind): seq<Text> { Advertised(t) + Answered(t, kind) }

  /** All that the prompt prints of the target is blank or inside a text the gates list. */
  ghost predicate Covered(t: Target, kind: Kind) {
    forall p :: p in Prints(t, kind) ==> Blank(p, JsSpace) || Inside(p, Listed(t, kind))
  }

  function Longest(texts: seq<Text>): (n: nat)
    ensures forall i :: 0 <= i < |texts| ==> |texts[i]| <= n
  {
    if texts == [] then 0
    else
      var n := Longest(texts[1..]);
      assert forall i :: 0 < i < |texts| ==> texts[i] == texts[1..][i - 1];
      if |texts[0]| < n then n else |texts[0]|
  }

  const INK: CodeUnit := 0x78

  /** A text of its own: no keyword, and longer than any of the texts. */
  function Shout(texts: seq<Text>): Text { seq(Longest(texts) + 40, _ => INK) }

  lemma ShoutIsNew(texts: seq<Text>)
    ensures !Blank(Shout(texts), JsSpace) && !Inside(Shout(texts), texts) && SchemaRole(Shout(texts)).Ignored?
  {
    assert !JsSpace(Shout(texts)[0]);
  }

  lemma CoveredWithout(t: Target, kind: Kind)
    requires Blind(t, kind) == []
    ensures Covered(t, kind)
  {
    forall p | p in Prints(t, kind) ensures Blank(p, JsSpace) || Inside(p, Listed(t, kind)) {
      PromptAccount(p, t, kind);
    }
  }

  lemma UncoveredBy(t: Target, kind: Kind, p: Text)
    requires p in Blind(t, kind) && !Blank(p, JsSpace) && !Inside(p, Listed(t, kind))
    ensures !Covered(t, kind)
  {
    PromptAccount(p, t, kind);
  }

  lemma ShoutUncovered(t: Target, kind: Kind) returns (f: Rewording)
    requires Blind(t, kind) != []
    ensures Shy(SchemaRole, f) && !Covered(VeiledTarget(f, t), kind)
  {
    var loud := Shout(Listed(t, kind));
    f := _ => loud;
    ShoutIsNew(Listed(t, kind));
    GatesIgnoreBlind(f, t, kind);
    assert Blind(VeiledTarget(f, t), kind)[0] == loud;
    UncoveredBy(VeiledTarget(f, t), kind, loud);
  }

  /** Whatever the blind strings say, the gates cover the prompt, if and only if there are none. */
  lemma CoveredIff(t: Target, kind: Kind)
    ensures (forall f :: Shy(SchemaRole, f) ==> Covered(VeiledTarget(f, t), kind)) <==> Blind(t, kind) == []
  {
    if Blind(t, kind) == [] {
      forall f | Shy(SchemaRole, f) ensures Covered(VeiledTarget(f, t), kind) {
        GatesIgnoreBlind(f, t, kind);
        CoveredWithout(VeiledTarget(f, t), kind);
      }
    } else {
      var f := ShoutUncovered(t, kind);
    }
  }

  /** For example, a server that sends requests gets any method names it likes into the adversarial
      prompt, and the gates list what they would list without them. */
  lemma RequestsUnlisted(t: Target, methods: seq<Text>)
    requires t.probes.Some?
    ensures var u := t.(probes := Some(t.probes.value.(requests := methods)));
      && (forall m :: m in methods ==> m in Prints(u, Adversarial) && m in Blind(u, Adversarial))
      && Advertised(u) == Advertised(t) && Answered(u, Adversarial) == Answered(t, Adversarial)
  {
    var u := t.(probes := Some(t.probes.value.(requests := methods)));
    forall m | m in methods ensures m in Prints(u, Adversarial) && m in Blind(u, Adversarial) {
      assert m in ProbeMissed(u.probes.value) && m in ProbePrinted(u.probes.value);
    }
  }
}
