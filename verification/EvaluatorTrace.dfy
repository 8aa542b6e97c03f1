/** The vocabulary of the evaluator's pass loop: scan, prompt and patch events, scores, what a trace
    of events may look like, and what the status writer delivers. */
module EvaluatorTrace {
  import opened Options
  import opened RunController
  import opened Text
  import opened ScanGate
  import opened TargetText

  // ---- evidence, events, reports ----------------------------------------------------------------

  /** The three gates. */
  datatype Source = Surface | FuzzResponses | ProbeResponses

  datatype Evidence = Evidence(source: Source, segments: seq<Segment>)

  datatype Finding = Injection(source: Source) | Uncorroborated(source: Source) | BySynthesis(id: nat)

  /** A partial status; a field that is None is left as it is. */
  datatype Patch = Patch(phase: Option<Phase>, score: Option<int>, risk: Option<Risk>, findings: Option<seq<Finding>>)

  datatype Event =
    | Scanned(evidence: Evidence, answer: nat -> Answer, gate: GateScan)
    | Prompted(name: nat, kind: Kind, target: Target)
    | Patched(patch: Patch)

  type Trace = seq<Event>

  // ---- scores --------------------------------------------------------------------------------------

  /** A field of an agent's answer. */
  datatype Field = Absent | NotANumber | Number(value: real)

  datatype Output =
    | NotAnObject
    | Object(score: Field, rogueScore: Field, safetyScore: Field, safety_score: Field,
             reliabilityScore: Field, reliability_score: Field, risk: Option<Risk>, findings: seq<nat>)

  datatype Reply = NoReply | Reply(output: Output)

  function Round(v: real): int { (v + 0.5).Floor }

  function ClampScore(f: Field): (r: Option<int>)
    ensures r.Some? <==> f.Number?
    ensures r.Some? ==> 0 <= r.value <= 100
    ensures f.Number? && 0.0 <= f.value <= 100.0 ==> f.value - 0.5 <= r.value as real <= f.value + 0.5
    ensures f.Number? ==> (f.value >= 100.0 ==> r.value == 100) && (f.value <= 0.0 ==> r.value == 0)
  {
    if !f.Number? then None
    else
      var n := Round(f.value);
      Some(if n > 100 then 100 else if n < 0 then 0 else n)
  }

  function OrElse(f: Field, g: Field): Field { if f.Absent? then g else f }

  function ScoreField(n: Option<int>): Field { if n.None? then Absent else Number(n.value as real) }

  datatype Scored = Scored(safety: int, reliability: int, risk: Risk, findings: seq<Finding>)

  /** The value a key and its aliases give: the first that is present. */
  function SafetyField(o: Output): Field
    requires o.Object?
  {
    OrElse(OrElse(o.safetyScore, o.safety_score), o.score)
  }

  function ReliabilityField(o: Output): Field
    requires o.Object?
  {
    OrElse(o.reliabilityScore, o.reliability_score)
  }

  /** parseSynthesis: None when it throws, which is exactly when there is no usable score. Either score
      stands in for the other if that is missing or no number. */
  function ParseSynthesis(o: Output): (r: Option<Scored>)
    ensures r.None? <==> o.NotAnObject? || (!SafetyField(o).Number? && !ReliabilityField(o).Number?)
    ensures r.Some? ==> 0 <= r.value.safety <= 100 && 0 <= r.value.reliability <= 100
    ensures r.Some? ==>
      && (SafetyField(o).Number? ==> Some(r.value.safety) == ClampScore(SafetyField(o)))
      && (ReliabilityField(o).Number? ==> Some(r.value.reliability) == ClampScore(ReliabilityField(o)))
      && (!SafetyField(o).Number? || !ReliabilityField(o).Number? ==> r.value.safety == r.value.reliability)
      && r.value.risk == (if o.risk.Some? then o.risk.value else Unknown)
      && |r.value.findings| == |o.findings|
      && (forall i :: 0 <= i < |o.findings| ==> r.value.findings[i] == BySynthesis(o.findings[i]))
  {
    if o.NotAnObject? then None
    else
      var safety := ClampScore(OrElse(OrElse(o.safetyScore, o.safety_score), o.score));
      var reliability := ClampScore(OrElse(OrElse(o.reliabilityScore, o.reliability_score), ScoreField(safety)));
      if safety.None? && reliability.None? then None
      else
        var s := if safety.Some? then safety.value else reliability.value;
        var t := if reliability.Some? then reliability.value else safety.value;
        Some(Scored(s, t, if o.risk.Some? then o.risk.value else Unknown,
                    seq(|o.findings|, i requires 0 <= i < |o.findings| => BySynthesis(o.findings[i]))))
  }

  /** One entry of report.agents: the answer, or None for a failed agent. */
  datatype Record = Record(name: nat, output: Option<Output>)

  /** Assignment to report.agents[name]. */
  function Put(agents: seq<Record>, rec: Record): seq<Record> {
    if agents == [] then [rec]
    else if agents[0].name == rec.name then [rec] + agents[1..]
    else [agents[0]] + Put(agents[1..], rec)
  }

  /** Other agents' records stay, and the agent has the new one. */
  lemma {:induction false} PutReplaces(agents: seq<Record>, rec: Record)
    ensures rec in Put(agents, rec)
    ensures forall q: Record :: q.name != rec.name ==> (q in Put(agents, rec) <==> q in agents)
  {
    if agents != [] {
      assert agents == [agents[0]] + agents[1..];
      if agents[0].name != rec.name {
        PutReplaces(agents[1..], rec);
      }
    }
  }

  predicate AnyOk(agents: seq<Record>) { exists r :: r in agents && r.output.Some? }

  function Taken(r: Option<int>): seq<int> { if r.Some? then [r.value] else [] }

  /** The scores an answer reports, in the order they are looked up. */
  function ScoresIn(rec: Record): (r: seq<int>)
    ensures forall v :: v in r ==> 0 <= v <= 100
  {
    if rec.output.None? || rec.output.value.NotAnObject? then []
    else
      var o := rec.output.value;
      Taken(ClampScore(o.score)) + Taken(ClampScore(o.reliabilityScore)) + Taken(ClampScore(o.rogueScore))
      + Taken(ClampScore(o.safetyScore))
  }

  /** An answer reports exactly the clamped numbers under its four score keys. */
  lemma ScoresReported(rec: Record, v: int)
    requires rec.output.Some? && rec.output.value.Object?
    ensures var o := rec.output.value;
      v in ScoresIn(rec) <==>
        exists f :: f in [o.score, o.reliabilityScore, o.rogueScore, o.safetyScore] && ClampScore(f) == Some(v)
  {
    var o := rec.output.value;
    var fields := [o.score, o.reliabilityScore, o.rogueScore, o.safetyScore];
    forall f | f in fields && ClampScore(f) == Some(v) ensures v in ScoresIn(rec) {
      assert v in Taken(ClampScore(f));
    }
    if v in ScoresIn(rec) {
      var k := if v in Taken(ClampScore(o.score)) then 0 else if v in Taken(ClampScore(o.reliabilityScore)) then 1
               else if v in Taken(ClampScore(o.rogueScore)) then 2 else 3;
      assert fields[k] in fields && ClampScore(fields[k]) == Some(v);
    }
  }

  function ScoresOf(agents: seq<Record>): (r: seq<int>)
    ensures forall v :: v in r ==> 0 <= v <= 100
  {
    if agents == [] then [] else ScoresOf(agents[..|agents| - 1]) + ScoresIn(agents[|agents| - 1])
  }

  function Sum(s: seq<int>): int { if s == [] then 0 else Sum(s[..|s| - 1]) + s[|s| - 1] }

  /** Math.round of the mean. */
  function RoundedMean(s: seq<int>): (mean: int)
    requires s != []
    ensures 2 * Sum(s) - |s| < 2 * |s| * mean <= 2 * Sum(s) + |s|
  {
    (2 * Sum(s) + |s|) / (2 * |s|)
  }

  lemma {:induction false} SumWithin(s: seq<int>, lo: int, hi: int)
    requires forall v :: v in s ==> lo <= v <= hi
    ensures lo * |s| <= Sum(s) <= hi * |s|
  {
    if s != [] {
      var init := s[..|s| - 1];
      assert forall v :: v in init ==> v in s;
      SumWithin(init, lo, hi);
      assert s[|s| - 1] in s;
      assert lo * |s| == lo * |init| + lo && hi * |s| == hi * |init| + hi;
    }
  }

  /** The fallback score lies between the lowest and the highest score any agent reported. */
  lemma MeanWithin(s: seq<int>, lo: int, hi: int)
    requires s != [] && forall v :: v in s ==> lo <= v <= hi
    ensures lo <= RoundedMean(s) <= hi
  {
    SumWithin(s, lo, hi);
    var n, t := |s|, 2 * Sum(s) + |s|;
    assert 2 * n * lo <= t - n && t - n <= 2 * n * hi;
    assert (2 * n) * lo <= t < (2 * n) * (hi + 1);
    DivWithin(t, 2 * n, lo, hi);
  }

  lemma DivWithin(t: int, d: int, lo: int, hi: int)
    requires d > 0 && d * lo <= t < d * (hi + 1)
    ensures lo <= t / d <= hi
  {
    var q := t / d;
    assert t == d * q + t % d;
    assert q < lo ==> d * (q + 1) <= d * lo;
    assert hi < q ==> d * (hi + 1) <= d * q;
  }

  // ---- what a trace may look like --------------------------------------------------------------------

  /** In strict mode every scan but a clear one ends the run; otherwise only an error that is not
      an outage does. */
  predicate Stops(e: Event, strict: bool) {
    e.Scanned? && if strict then !Clear(e.gate) else e.gate == Thrown(false)
  }

  ghost predicate Halted(trace: Trace, strict: bool) { exists i :: 0 <= i < |trace| && Stops(trace[i], strict) }

  ghost predicate HasAbort(trace: Trace) {
    exists i :: 0 <= i < |trace| && trace[i].Scanned? && Detected(trace[i].gate)
  }

  ghost predicate Clears(event: Event, e: Evidence) { event.Scanned? && Clear(event.gate) && event.evidence == e }

  /** e was scanned and let through somewhere in the trace. */
  ghost predicate Cleared(trace: Trace, e: Evidence) { exists i :: 0 <= i < |trace| && Clears(trace[i], e) }

  /** p stands inside a text that was scanned and let through. */
  ghost predicate Shows(event: Event, p: Text) {
    event.Scanned? && Clear(event.gate) && InSegments(p, event.evidence.segments)
  }

  /** There is nothing to read in p, or the scanner has seen it. */
  ghost predicate Seen(trace: Trace, p: Text) {
    Blank(p, JsSpace) || exists i :: 0 <= i < |trace| && Shows(trace[i], p)
  }

  ghost predicate NoScans(trace: Trace) { forall i :: 0 <= i < |trace| ==> !trace[i].Scanned? }

  ghost predicate AllSeen(trace: Trace, texts: seq<Text>) { forall p :: p in texts ==> Seen(trace, p) }

  /** May e follow the trace? In strict mode what a prompt prints of the target was seen before, but for
      the blind strings; while the target is not up nothing has been scanned; and after a scan that ends
      the run there are only status patches. */
  ghost predicate MayFollow(trace: Trace, e: Event, strict: bool) {
    && (strict && e.Prompted? ==>
          forall p :: p in Prints(e.target, e.kind) ==> p in Blind(e.target, e.kind) || Seen(trace, p))
    && (e.Prompted? && !IsUp(e.target) ==> NoScans(trace))
    && (Halted(trace, strict) ==> e.Patched?)
  }

  ghost predicate Disciplined(trace: Trace, strict: bool) {
    forall i {:trigger MayFollow(trace[..i], trace[i], strict)} ::
      0 <= i < |trace| ==> MayFollow(trace[..i], trace[i], strict)
  }

  ghost predicate SoundScan(e: Event) { e.Scanned? ==> GateMeans(e.evidence.segments, e.answer, e.gate) }

  /** Every gate in the trace means what its outcome says. */
  ghost predicate Sound(trace: Trace) {
    forall i {:trigger SoundScan(trace[i])} :: 0 <= i < |trace| ==> SoundScan(trace[i])
  }

  /** In strict mode the scanner has seen everything a prompt prints of the target if and only if it has
      seen the blind strings: all the others it has seen. */
  lemma AllSeenIff(trace: Trace, i: nat)
    requires Disciplined(trace, true) && i < |trace| && trace[i].Prompted?
    ensures AllSeen(trace[..i], Prints(trace[i].target, trace[i].kind)) <==>
      AllSeen(trace[..i], Blind(trace[i].target, trace[i].kind))
  {
    assert MayFollow(trace[..i], trace[i], true);
    var printed, blind := Prints(trace[i].target, trace[i].kind), Blind(trace[i].target, trace[i].kind);
    forall p | p in blind ensures p in printed { PromptAccount(p, trace[i].target, trace[i].kind); }
  }

  /** p is longer than any text scanned. */
  ghost predicate TooLong(trace: Trace, p: Text) {
    forall i, k :: 0 <= i < |trace| && trace[i].Scanned? && 0 <= k < |trace[i].evidence.segments| ==>
      |trace[i].evidence.segments[k].text| < |p|
  }

  /** A blind string can be anything, for instance longer than all that was scanned: then the prompt
      prints it and the scanner has not seen it. */
  lemma BlindUnseen(trace: Trace, i: nat, p: Text)
    requires i < |trace| && trace[i].Prompted? && p in Blind(trace[i].target, trace[i].kind)
    requires !Blank(p, JsSpace) && TooLong(trace[..i], p)
    ensures p in Prints(trace[i].target, trace[i].kind) && !Seen(trace[..i], p)
  {
    PromptAccount(p, trace[i].target, trace[i].kind);
  }

  /** In strict mode every phrase of what a prompt prints of the target, but for the blind strings, was
      seen whole, before the prompt, by an analysis that did not abort. */
  lemma PromptedTextWasSeen(trace: Trace, i: nat, p: Text, a: nat, b: nat) returns (j: nat)
    requires Disciplined(trace, true) && Sound(trace) && i < |trace| && trace[i].Prompted?
    requires p in Prints(trace[i].target, trace[i].kind) && p !in Blind(trace[i].target, trace[i].kind)
    requires Phrase(p, CHUNK_OVERLAP, a, b)
    ensures j < i && Shows(trace[j], p)
    ensures SeenWhole(DefaultUnits(trace[j].evidence.segments), trace[j].answer, p[a..b])
  {
    assert MayFollow(trace[..i], trace[i], true);
    PhraseNotBlank(p, a, b);
    var m :| 0 <= m < i && Shows(trace[..i][m], p);
    j := m;
    assert trace[j] == trace[..i][m] && SoundScan(trace[j]);
    PhraseInSegments(trace[j].evidence.segments, trace[j].answer, p, a, b);
  }

  lemma PhraseNotBlank(p: Text, a: nat, b: nat)
    requires Phrase(p, CHUNK_OVERLAP, a, b)
    ensures !Blank(p, JsSpace)
  {
    var k :| 0 <= k < b - a && !JsSpace(p[a..b][k]);
    assert !JsSpace(p[a + k]);
  }

  lemma PhraseInSegments(segments: seq<Segment>, answer: nat -> Answer, p: Text, a: nat, b: nat)
    requires EveryPhraseSeen(segments, answer) && InSegments(p, segments) && Phrase(p, CHUNK_OVERLAP, a, b)
    ensures SeenWhole(DefaultUnits(segments), answer, p[a..b])
  {
    var k: nat, off: nat :| k < |segments| && HoldsAt(segments[k].text, off, p);
    var text := segments[k].text;
    assert text[off..off + |p|] == p;
    assert forall i :: 0 <= i < |p| ==> p[i] == text[off + i];
    assert text[off + a..off + b] == p[a..b];
    assert Phrase(text, CHUNK_OVERLAP, off + a, off + b);
  }

  /** ... and after an abort, an outage or any other scanner error no prompt follows. */
  lemma NothingAfterFailure(trace: Trace, i: nat, j: nat)
    requires Disciplined(trace, true) && i < j < |trace| && trace[i].Scanned? && !Clear(trace[i].gate)
    ensures trace[j].Patched?
  {
    assert MayFollow(trace[..j], trace[j], true);
    assert trace[..j][i] == trace[i] && Stops(trace[..j][i], true);
  }

  lemma SnocCleared(trace: Trace, e: Event)
    ensures forall x :: Cleared(trace, x) ==> Cleared(trace + [e], x)
    ensures e.Scanned? && Clear(e.gate) ==> Cleared(trace + [e], e.evidence)
  {
    var t := trace + [e];
    assert t[|trace|] == e;
    assert e.Scanned? && Clear(e.gate) ==> Clears(t[|trace|], e.evidence);
    forall x | Cleared(trace, x) ensures Cleared(t, x) {
      var i :| 0 <= i < |trace| && Clears(trace[i], x);
      assert t[i] == trace[i];
    }
  }

  /** What the gates list has been seen once they have let it through. */
  lemma ClearedIsSeen(trace: Trace, source: Source, texts: seq<Text>, p: Text)
    requires Cleared(trace, Evidence(source, ToSegments(texts))) && Inside(p, texts)
    ensures Seen(trace, p)
  {
    var i :| 0 <= i < |trace| && Clears(trace[i], Evidence(source, ToSegments(texts)));
    ListedIsScanned(p, texts);
    assert Blank(p, JsSpace) || Shows(trace[i], p);
  }

  lemma SnocHalted(trace: Trace, e: Event, strict: bool)
    ensures Halted(trace + [e], strict) <==> Halted(trace, strict) || Stops(e, strict)
    ensures HasAbort(trace + [e]) <==> HasAbort(trace) || (e.Scanned? && Detected(e.gate))
  {
    var t := trace + [e];
    assert t[|trace|] == e && forall i :: 0 <= i < |trace| ==> t[i] == trace[i];
    if Halted(trace, strict) {
      var i :| 0 <= i < |trace| && Stops(trace[i], strict);
      assert Stops(t[i], strict);
    }
    if HasAbort(trace) {
      var i :| 0 <= i < |trace| && trace[i].Scanned? && Detected(trace[i].gate);
      assert t[i].Scanned? && Detected(t[i].gate);
    }
  }

  lemma SnocDisciplined(trace: Trace, e: Event, strict: bool)
    requires Disciplined(trace, strict) && Sound(trace) && MayFollow(trace, e, strict) && SoundScan(e)
    ensures Disciplined(trace + [e], strict) && Sound(trace + [e])
  {
    var t := trace + [e];
    forall i | 0 <= i < |t| ensures MayFollow(t[..i], t[i], strict) && SoundScan(t[i]) {
      if i < |trace| {
        assert t[..i] == trace[..i] && t[i] == trace[i];
        assert MayFollow(trace[..i], trace[i], strict) && SoundScan(trace[i]);
      } else {
        assert t[..i] == trace && t[i] == e;
      }
    }
  }

  lemma AbortHalts(trace: Trace)
    ensures HasAbort(trace) ==> Halted(trace, true)
  {
    if HasAbort(trace) {
      var i :| 0 <= i < |trace| && trace[i].Scanned? && Detected(trace[i].gate);
      assert Stops(trace[i], true);
    }
  }

  /** What a run does besides patching its status. */
  datatype Act = Scan(evidence: Evidence, answer: nat -> Answer) | Ask(name: nat, kind: Kind, target: Target)

  function ActOf(e: Event): seq<Act> {
    match e
    case Scanned(evidence, answer, _) => [Scan(evidence, answer)]
    case Prompted(name, kind, target) => [Ask(name, kind, target)]
    case Patched(_) => []
  }

  /** The scans and prompts of a trace, in order. */
  function Acts(trace: Trace): seq<Act> {
    if trace == [] then [] else Acts(trace[..|trace| - 1]) + ActOf(trace[|trace| - 1])
  }

  lemma SnocActs(trace: Trace, e: Event)
    ensures Acts(trace + [e]) == Acts(trace) + ActOf(e)
  {
    assert (trace + [e])[..|trace|] == trace;
  }

  /** A scan among the acts is an event of the trace. */
  lemma {:induction false} ActIsEvent(trace: Trace, act: Act) returns (i: nat)
    requires act in Acts(trace) && act.Scan?
    ensures i < |trace| && trace[i].Scanned? && trace[i].evidence == act.evidence && trace[i].answer == act.answer
  {
    var n := |trace| - 1;
    if act in ActOf(trace[n]) {
      i := n;
    } else {
      i := ActIsEvent(trace[..n], act);
    }
  }

  /** The findings of a gate: one if some unit was answered with a warning, one if one was an abort. */
  function Reported(source: Source, gate: GateScan): seq<Finding> {
    if gate.Thrown? then []
    else (if gate.warnings == [] then [] else [Uncorroborated(source)])
         + if gate.abort.At? then [Injection(source)] else []
  }

  /** The findings of an act. */
  ghost function Noted(act: Act): seq<Finding> {
    if act.Ask? then [] else Reported(act.evidence.source, GateOf(act.evidence.segments, act.answer))
  }

  /** What a status patch does not change. */
  ghost predicate SameSoFar(a: Trace, b: Trace, strict: bool) {
    && Acts(b) == Acts(a) && (Halted(b, strict) <==> Halted(a, strict)) && (HasAbort(b) <==> HasAbort(a))
    && (NoScans(a) ==> NoScans(b)) && (forall x :: Cleared(a, x) ==> Cleared(b, x))
  }

  lemma PatchAdded(trace: Trace, p: Patch, strict: bool)
    ensures SameSoFar(trace, trace + [Patched(p)], strict)
    ensures Disciplined(trace, strict) && Sound(trace) ==>
      Disciplined(trace + [Patched(p)], strict) && Sound(trace + [Patched(p)])
  {
    SnocCleared(trace, Patched(p));
    SnocHalted(trace, Patched(p), strict);
    if Disciplined(trace, strict) && Sound(trace) {
      SnocDisciplined(trace, Patched(p), strict);
    }
    SnocActs(trace, Patched(p));
  }

  // ---- the status writer -----------------------------------------------------------------------------

  /** The fate of one patch, retries included: written, given up, or the object no longer exists. */
  datatype Delivery = Delivered | Lost | Gone

  datatype RunStatus = RunStatus(phase: Phase, score: int, risk: Risk, findings: seq<Finding>)

  datatype Writer = Writer(status: RunStatus, pending: Option<Patch>, sent: nat)

  const NEW_WRITER := Writer(RunStatus(Unset, 0, NoRisk, []), None, 0)

  function Merge(st: RunStatus, p: Patch): RunStatus {
    RunStatus(if p.phase.Some? then p.phase.value else st.phase, if p.score.Some? then p.score.value else st.score,
              if p.risk.Some? then p.risk.value else st.risk,
              if p.findings.Some? then p.findings.value else st.findings)
  }

  predicate TerminalPatch(p: Patch) { p.phase.Some? && IsTerminal(p.phase.value) }

  /** patchStatus: a terminal patch that is given up is kept for the last flush. */
  function Send(w: Writer, p: Patch, fate: nat -> Delivery): Writer {
    var d := fate(w.sent);
    Writer(if d.Delivered? then Merge(w.status, p) else w.status,
           if !TerminalPatch(p) || d.Gone? then w.pending else if d.Delivered? then None else Some(p),
           w.sent + 1)
  }

  /** flushTerminalPatch. */
  function Flush(w: Writer, fate: nat -> Delivery): Writer {
    if w.pending.Some? && fate(w.sent).Delivered? then Writer(Merge(w.status, w.pending.value), None, w.sent + 1) else w
  }

  function Replay(trace: Trace, fate: nat -> Delivery): Writer {
    if trace == [] then NEW_WRITER
    else
      var w := Replay(trace[..|trace| - 1], fate);
      var e := trace[|trace| - 1];
      if e.Patched? then Send(w, e.patch, fate) else w
  }

  /** The i-th event is a patch that was written. */
  ghost predicate WrittenAt(trace: Trace, fate: nat -> Delivery, i: nat) {
    i < |trace| && trace[i].Patched? && fate(Replay(trace[..i], fate).sent).Delivered?
  }

  /** No patch written later has the property. */
  ghost predicate NoneAfter(trace: Trace, fate: nat -> Delivery, i: nat, has: Patch -> bool) {
    forall j: nat :: i < j < |trace| && WrittenAt(trace, fate, j) ==> !has(trace[j].patch)
  }

  lemma NoneBefore(trace: Trace, fate: nat -> Delivery, i: nat, has: Patch -> bool)
    requires trace != [] && NoneAfter(trace, fate, i, has)
    ensures NoneAfter(trace[..|trace| - 1], fate, i, has)
  {
    var less := trace[..|trace| - 1];
    forall j: nat | i < j < |less| && WrittenAt(less, fate, j) ensures !has(less[j].patch) {
      assert less[..j] == trace[..j] && WrittenAt(trace, fate, j);
    }
  }

  /** What the run object shows of a field is what the last written patch carrying it said. */
  lemma {:induction false} LatestWins(trace: Trace, fate: nat -> Delivery, i: nat)
    requires WrittenAt(trace, fate, i)
    ensures var p, st := trace[i].patch, Replay(trace, fate).status;
      && (p.phase.Some? && NoneAfter(trace, fate, i, (q: Patch) => q.phase.Some?) ==> st.phase == p.phase.value)
      && (p.score.Some? && NoneAfter(trace, fate, i, (q: Patch) => q.score.Some?) ==> st.score == p.score.value)
      && (p.risk.Some? && NoneAfter(trace, fate, i, (q: Patch) => q.risk.Some?) ==> st.risk == p.risk.value)
      && (p.findings.Some? && NoneAfter(trace, fate, i, (q: Patch) => q.findings.Some?) ==>
            st.findings == p.findings.value)
    decreases |trace|
  {
    var n := |trace| - 1;
    if i < n {
      var less := trace[..n];
      assert less[..i] == trace[..i];
      LatestWins(less, fate, i);
      LaterPatch(trace, fate, i, (q: Patch) => q.phase.Some?);
      LaterPatch(trace, fate, i, (q: Patch) => q.score.Some?);
      LaterPatch(trace, fate, i, (q: Patch) => q.risk.Some?);
      LaterPatch(trace, fate, i, (q: Patch) => q.findings.Some?);
    }
  }

  lemma LaterPatch(trace: Trace, fate: nat -> Delivery, i: nat, has: Patch -> bool)
    requires i < |trace| - 1
    ensures NoneAfter(trace, fate, i, has) ==>
      && NoneAfter(trace[..|trace| - 1], fate, i, has)
      && (WrittenAt(trace, fate, |trace| - 1) ==> !has(trace[|trace| - 1].patch))
  {
    if NoneAfter(trace, fate, i, has) {
      NoneBefore(trace, fate, i, has);
    }
  }

  function AbortPatch(findings: seq<Finding>): Patch { Patch(Some(Failed), Some(0), Some(Malicious), Some(findings)) }

  const FAIL_PATCH := Patch(Some(Failed), None, None, None)

  ghost predicate GoneForGood(fate: nat -> Delivery) {
    forall i: nat, j: nat :: i <= j && fate(i).Gone? ==> fate(j).Gone?
  }

  /** The run ended with an abort's own patch followed by the general failure patch. */
  ghost predicate AbortEnding(trace: Trace, findings: seq<Finding>) {
    && |trace| >= 2 && trace[|trace| - 2] == Patched(AbortPatch(findings)) && trace[|trace| - 1] == Patched(FAIL_PATCH)
  }

  /** An abort's verdict is on the run object exactly if its own patch was written: the patch sent
      after it displaces it, so the last flush can bring back the phase but never the verdict. */
  lemma AbortVerdictDelivered(trace: Trace, findings: seq<Finding>, fate: nat -> Delivery)
    requires AbortEnding(trace, findings) && GoneForGood(fate)
    ensures var before := Replay(trace[..|trace| - 2], fate);
      var after := Flush(Replay(trace, fate), fate).status;
      if fate(before.sent).Delivered? then after == RunStatus(Failed, 0, Malicious, findings)
      else after.score == before.status.score && after.risk == before.status.risk
           && after.findings == before.status.findings
  {
    var n := |trace|;
    var before := Replay(trace[..n - 2], fate);
    var mid := trace[..n - 1];
    assert mid[..n - 2] == trace[..n - 2] && mid[n - 2] == trace[n - 2];
    assert Replay(mid, fate) == Send(before, AbortPatch(findings), fate);
    assert Replay(trace, fate) == Send(Replay(mid, fate), FAIL_PATCH, fate);
    assert fate(before.sent).Gone? ==> fate(before.sent + 1).Gone? && fate(before.sent + 2).Gone?;
    assert fate(before.sent + 1).Gone? ==> fate(before.sent + 2).Gone?;
  }
}
