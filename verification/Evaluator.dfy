/** The evaluator's pass loop: which untrusted evidence is scanned before which prompt, and how a
    run ends, for any agent suite and whatever target, scanner and agents answer. */
module Evaluator {
  import opened Options
  import opened RunController
  import opened Text
  import opened ScanGate
  import opened TargetText
  import opened EvaluatorTrace

  /** What one pass of the suite meets: whether a signal arrived, whether static evidence could be
      collected, how the handshake with the target ends if it is tried, the fuzz or probe report (None
      if that stage failed), the scanner's answers at the two gates, and the agent's reply. */
  datatype Pass = Pass(name: nat, kind: Kind, terminated: bool, staticOk: bool,
                       handshake: Handshake, fuzz: Option<FuzzReport>, probes: Option<ProbeReport>,
                       surfaceAnswer: nat -> Answer, responseAnswer: nat -> Answer, reply: Reply)

  datatype Report = Report(phase: Phase, score: int, risk: Risk, findings: seq<Finding>, agents: seq<Record>)

  const NEW_REPORT := Report(Running, 0, Unknown, [], [])

  const NO_CHANGE := Patch(None, None, None, None)

  function FindingsPatch(findings: seq<Finding>): Patch { NO_CHANGE.(findings := Some(findings)) }

  function WarningFindings(source: Source, warnings: seq<ScanUnit>): seq<Finding> {
    if warnings == [] then [] else [Uncorroborated(source)]
  }

  function DetectionFindings(source: Source, abort: AbortedAt): seq<Finding> {
    if abort.Nowhere? then [] else [Injection(source)]
  }

  /** A patch, if there is something new to report. */
  function PatchIf(needed: bool, p: Patch): Trace { if needed then [Patched(p)] else [] }

  function DetectionPatch(findings: seq<Finding>, enforced: bool): Patch {
    if enforced then AbortPatch(findings) else FindingsPatch(findings)
  }

  /** The status patches after a scan, given the findings before it. */
  function ReportPatches(source: Source, gate: GateScan, findings: seq<Finding>, enforced: bool): Trace {
    if gate.Thrown? then []
    else
      var warned := findings + WarningFindings(source, gate.warnings);
      PatchIf(gate.warnings != [], FindingsPatch(warned))
      + PatchIf(gate.abort.At?, DetectionPatch(warned + DetectionFindings(source, gate.abort), enforced))
  }

  lemma ReportJoined(trace: Trace, source: Source, gate: GateScan, findings: seq<Finding>, enforced: bool)
    requires gate.GateScan?
    ensures var warned := findings + WarningFindings(source, gate.warnings);
      var all := warned + DetectionFindings(source, gate.abort);
      && all == findings + Reported(source, gate)
      && trace + ReportPatches(source, gate, findings, enforced) ==
           trace + PatchIf(gate.warnings != [], FindingsPatch(warned))
           + PatchIf(gate.abort.At?, DetectionPatch(all, enforced))
  {
    var w, d := WarningFindings(source, gate.warnings), DetectionFindings(source, gate.abort);
    assert Reported(source, gate) == w + d;
    assert findings + w + d == findings + (w + d);
    var all := findings + w + d;
    var a := PatchIf(gate.warnings != [], FindingsPatch(findings + w));
    var b := PatchIf(gate.abort.At?, DetectionPatch(all, enforced));
    assert trace + a + b == trace + (a + b);
  }

  /** There are patches exactly if there is something to report, and the last one carries all findings. */
  lemma PatchesCarry(source: Source, gate: GateScan, findings: seq<Finding>, enforced: bool)
    ensures var patches := ReportPatches(source, gate, findings, enforced);
      && (patches == [] <==> Reported(source, gate) == [])
      && (patches != [] ==> patches[|patches| - 1].Patched?
                            && patches[|patches| - 1].patch.findings == Some(findings + Reported(source, gate)))
  {
    if !gate.Thrown? {
      ReportJoined([], source, gate, findings, enforced);
      var warned := findings + WarningFindings(source, gate.warnings);
      assert warned + [] == warned;
    }
  }

  // ---- what the passes add up to when nothing stops the run ------------------------------------

  datatype Tally = Tally(ready: bool, target: Target, acts: seq<Act>, findings: seq<Finding>, agents: seq<Record>,
                         score: int, risk: Risk)

  const NEW_TALLY := Tally(false, Target(None, None, None), [], [], [], 0, Unknown)

  /** The score of a synthesis answer: both scores' mean, rounded. */
  function SynthesisScore(s: Scored): (score: int)
    ensures 2 * score - 1 <= s.safety + s.reliability <= 2 * score
  {
    (s.safety + s.reliability + 1) / 2
  }

  /** ensureTarget: the handshake is tried once. */
  function Shake(t: Target, p: Pass): Target { if t.handshake.Some? then t else t.(handshake := Some(p.handshake)) }

  /** The target as an agent of this pass finds it. A stage that fails leaves older responses. */
  function Approach(t: Target, p: Pass): Target {
    var u := Shake(t, p);
    if !IsUp(u) then u
    else if p.kind.Dynamic? && p.fuzz.Some? then u.(fuzz := p.fuzz)
    else if p.kind.Adversarial? && p.probes.Some? then u.(probes := p.probes)
    else u
  }

  datatype Gate = AtSurface | BeforePrompt(kind: Kind)

  /** What a gate scans. */
  function EvidenceAt(t: Target, gate: Gate): Evidence {
    match gate
    case AtSurface => Evidence(Surface, ToSegments(Advertised(t)))
    case BeforePrompt(kind) =>
      Evidence(if kind.Dynamic? then FuzzResponses else ProbeResponses, ToSegments(Answered(t, kind)))
  }

  /** The gate has let everything through. Stated under a trigger, so that the evidence is unfolded only
      where Look is mentioned. */
  ghost predicate LetThrough(trace: Trace, t: Target, gate: Gate) {
    forall i {:trigger Look(i)} :: Look(i) ==> Cleared(trace, EvidenceAt(t, gate))
  }

  lemma ClearedMeansThrough(trace: Trace, t: Target, gate: Gate)
    ensures LetThrough(trace, t, gate) <==> Cleared(trace, EvidenceAt(t, gate))
  {
    assert Look(0);
  }

  /** What was let through stays so. */
  ghost predicate Keeps(a: Trace, b: Trace, t: Target) { forall g :: LetThrough(a, t, g) ==> LetThrough(b, t, g) }

  lemma KeepsAll(a: Trace, b: Trace, t: Target)
    requires forall x :: Cleared(a, x) ==> Cleared(b, x)
    ensures Keeps(a, b, t)
  {
    forall g | LetThrough(a, t, g) ensures LetThrough(b, t, g) {
      ClearedMeansThrough(a, t, g);
      ClearedMeansThrough(b, t, g);
    }
  }

  /** Is there a report to scan before this agent's prompt? */
  predicate HasAnswers(t: Target, kind: Kind) {
    (kind.Dynamic? && t.fuzz.Some?) || (kind.Adversarial? && t.probes.Some?)
  }

  /** Once the gates have let their texts through, only blind strings are left unseen. */
  lemma GatesCoverPrompt(trace: Trace, t: Target, kind: Kind)
    requires IsUp(t) ==> LetThrough(trace, t, AtSurface)
    requires HasAnswers(t, kind) ==> LetThrough(trace, t, BeforePrompt(kind))
    ensures forall p :: p in Prints(t, kind) ==> p in Blind(t, kind) || Seen(trace, p)
  {
    ClearedMeansThrough(trace, t, AtSurface);
    ClearedMeansThrough(trace, t, BeforePrompt(kind));
    forall p | p in Prints(t, kind) && p !in Blind(t, kind) ensures Seen(trace, p) {
      PromptAccount(p, t, kind);
      if !Blank(p, JsSpace) {
        InsideEither(p, Advertised(t), Answered(t, kind));
        if Inside(p, Advertised(t)) {
          ClearedIsSeen(trace, Surface, Advertised(t), p);
        } else if kind.Dynamic? {
          ClearedIsSeen(trace, FuzzResponses, Answered(t, kind), p);
        } else {
          ClearedIsSeen(trace, ProbeResponses, Answered(t, kind), p);
        }
      }
    }
  }

  /** A prompt whose gates are passed may follow. */
  lemma PromptAdded(trace: Trace, name: nat, kind: Kind, t: Target, strict: bool)
    requires Disciplined(trace, strict) && Sound(trace) && !Halted(trace, strict)
    requires strict && IsUp(t) ==> LetThrough(trace, t, AtSurface)
    requires strict && HasAnswers(t, kind) ==> LetThrough(trace, t, BeforePrompt(kind))
    requires !IsUp(t) ==> NoScans(trace)
    ensures var next := trace + [Prompted(name, kind, t)];
      && Disciplined(next, strict) && Sound(next) && !Halted(next, strict) && Keeps(trace, next, t)
      && (NoScans(trace) ==> NoScans(next)) && Acts(next) == Acts(trace) + [Ask(name, kind, t)]
  {
    var e := Prompted(name, kind, t);
    if strict {
      GatesCoverPrompt(trace, t, kind);
    }
    SnocCleared(trace, e);
    SnocHalted(trace, e, strict);
    SnocDisciplined(trace, e, strict);
    KeepsAll(trace, trace + [e], t);
    SnocActs(trace, e);
  }

  lemma ScanAdded(trace: Trace, e: EvaluatorTrace.Event, t: Target, strict: bool)
    requires Disciplined(trace, strict) && Sound(trace) && !Halted(trace, strict) && e.Scanned? && SoundScan(e)
    ensures var next := trace + [e];
      && Disciplined(next, strict) && Sound(next) && Halted(next, strict) == Stops(e, strict) && Keeps(trace, next, t)
      && HasAbort(next) == (HasAbort(trace) || Detected(e.gate)) && Acts(next) == Acts(trace) + ActOf(e)
    ensures Clear(e.gate) ==> Cleared(trace + [e], e.evidence)
  {
    SnocCleared(trace, e);
    SnocHalted(trace, e, strict);
    SnocDisciplined(trace, e, strict);
    KeepsAll(trace, trace + [e], t);
    SnocActs(trace, e);
  }

  lemma InsideEither(p: Text, a: seq<Text>, b: seq<Text>)
    requires Inside(p, a + b)
    ensures Inside(p, a) || Inside(p, b)
  {
    var k: nat, off: nat :| k < |a + b| && HoldsAt((a + b)[k], off, p);
    if k < |a| {
      assert HoldsAt(a[k], off, p);
    } else {
      assert HoldsAt(b[k - |a|], off, p);
    }
  }

  /** For example, the method of a request the server sent is printed in the adversarial prompt, and
      unseen if it is longer than what was scanned. */
  lemma ServerRequestUnseen(trace: Trace, i: nat, m: Text)
    requires i < |trace| && trace[i].Prompted? && trace[i].kind.Adversarial? && trace[i].target.probes.Some?
    requires m in trace[i].target.probes.value.requests && !Blank(m, JsSpace) && TooLong(trace[..i], m)
    ensures m in Prints(trace[i].target, Adversarial) && !Seen(trace[..i], m)
  {
    RequestsUnlisted(trace[i].target, trace[i].target.probes.value.requests);
    BlindUnseen(trace, i, m);
  }

  /** The error of a failed handshake, which the server may have worded, is printed in a dynamic prompt
      and the scanner has seen nothing of it. */
  lemma HandshakeErrorUnseen(trace: Trace, strict: bool, i: nat, error: Text)
    requires Disciplined(trace, strict) && i < |trace| && trace[i].Prompted? && trace[i].kind.Dynamic?
    requires trace[i].target.handshake == Some(Down(error)) && !Blank(error, JsSpace)
    ensures error in Prints(trace[i].target, Dynamic) && !Seen(trace[..i], error)
  {
    assert MayFollow(trace[..i], trace[i], strict);
    assert error in HandshakeMissed(trace[i].target, true);
    BlindUnseen(trace, i, error);
  }

  function RecordOf(p: Pass): Record { Record(p.name, if p.reply.Reply? then Some(p.reply.output) else None) }

  /** A gate, if it is there. */
  datatype Gating = Gating(open: bool, act: Act)

  function Scans(g: Gating): seq<Act> { if g.open then [g.act] else [] }

  ghost function Finds(g: Gating): seq<Finding> { if g.open then Noted(g.act) else [] }

  ghost predicate IsScan(t: Target, gate: Gate, answer: nat -> Answer, act: Act) {
    forall i {:trigger Look(i)} :: Look(i) ==> act == Scan(EvidenceAt(t, gate), answer)
  }

  /** The scan at a gate. */
  ghost function ScanOf(t: Target, gate: Gate, answer: nat -> Answer): (act: Act)
    ensures IsScan(t, gate, answer, act)
  {
    assert IsScan(t, gate, answer, Scan(EvidenceAt(t, gate), answer));
    var act :| IsScan(t, gate, answer, act);
    act
  }

  lemma ScanOfIs(t: Target, gate: Gate, answer: nat -> Answer)
    ensures ScanOf(t, gate, answer) == Scan(EvidenceAt(t, gate), answer)
  {
    assert Look(0);
  }

  /** Gate 1, when the handshake of this pass brings the target up. */
  ghost function SurfaceScan(enabled: bool, t: Target, p: Pass): Gating {
    Gating(enabled && t.handshake.None? && p.handshake.Up?, ScanOf(Shake(t, p), AtSurface, p.surfaceAnswer))
  }

  /** Gate 2 or 3, when there is a report for the prompt of this pass to print. */
  ghost function ResponseScan(enabled: bool, t: Target, p: Pass): Gating {
    Gating(enabled && HasAnswers(t, p.kind), ScanOf(t, BeforePrompt(p.kind), p.responseAnswer))
  }

  predicate FromTarget(kind: Kind) { kind.Dynamic? || kind.Adversarial? }

  /** The scans of one pass, before its prompt. */
  ghost function GateActs(enabled: bool, t: Target, p: Pass): seq<Act> {
    Scans(SurfaceScan(enabled, t, p)) + Scans(ResponseScan(enabled, Approach(t, p), p))
  }

  ghost function GateFindings(enabled: bool, t: Target, p: Pass): seq<Finding> {
    Finds(SurfaceScan(enabled, t, p)) + Finds(ResponseScan(enabled, Approach(t, p), p))
  }

  /** An agent that looks at the target. */
  ghost function TargetTally(enabled: bool, t: Tally, p: Pass): Tally {
    var u := Approach(t.target, p);
    t.(target := u, acts := t.acts + GateActs(enabled, t.target, p) + [Ask(p.name, p.kind, u)],
       findings := t.findings + GateFindings(enabled, t.target, p), agents := Put(t.agents, RecordOf(p)))
  }

  /** Any other agent. */
  function PlainTally(t: Tally, p: Pass): Tally {
    if p.kind.Static? && !t.ready && !p.staticOk then t
    else
      var u := t.(ready := t.ready || p.kind.Static?, acts := t.acts + [Ask(p.name, p.kind, t.target)],
                  agents := Put(t.agents, RecordOf(p)));
      if p.kind.Synthesis? && p.reply.Reply? && ParseSynthesis(p.reply.output).Some? then
        var s := ParseSynthesis(p.reply.output).value;
        u.(score := SynthesisScore(s), risk := s.risk, findings := s.findings)
      else u
  }

  ghost predicate IsStep(enabled: bool, t: Tally, p: Pass, u: Tally) {
    forall i {:trigger Look(i)} :: Look(i) ==>
      u == if FromTarget(p.kind) then TargetTally(enabled, t, p) else PlainTally(t, p)
  }

  /** One more pass. */
  ghost function TallyStep(enabled: bool, t: Tally, p: Pass): (u: Tally)
    ensures IsStep(enabled, t, p, u)
  {
    assert IsStep(enabled, t, p, if FromTarget(p.kind) then TargetTally(enabled, t, p) else PlainTally(t, p));
    var u :| IsStep(enabled, t, p, u);
    u
  }

  lemma TallyStepIs(enabled: bool, t: Tally, p: Pass)
    ensures TallyStep(enabled, t, p) == if FromTarget(p.kind) then TargetTally(enabled, t, p) else PlainTally(t, p)
  {
    assert Look(0);
  }

  lemma Rejoined<T>(a: seq<T>, b: seq<T>, c: seq<T>)
    ensures a + b + c == a + (b + c)
  {
  }

  /** A pass of an agent that looks at the target, when it is done. */
  lemma TargetDone(enabled: bool, t: Tally, p: Pass, a: Gating, b: Gating, u: Tally)
    requires FromTarget(p.kind) && u.target == Approach(t.target, p) && u.agents == Put(t.agents, RecordOf(p))
    requires a == SurfaceScan(enabled, t.target, p) && b == ResponseScan(enabled, u.target, p)
    requires u.acts == t.acts + Scans(a) + Scans(b) + [Ask(p.name, p.kind, u.target)]
    requires u.findings == t.findings + Finds(a) + Finds(b)
    requires u.ready == t.ready && u.score == t.score && u.risk == t.risk
    ensures u == TallyStep(enabled, t, p)
  {
    TallyStepIs(enabled, t, p);
    Rejoined(t.acts, Scans(a), Scans(b));
    Rejoined(t.findings, Finds(a), Finds(b));
  }

  /** ... and when a gate stops it. */
  lemma TargetStopped(enabled: bool, t: Tally, p: Pass, a: Gating, b: Gating, acts: seq<Act>)
    requires FromTarget(p.kind)
    requires a == SurfaceScan(enabled, t.target, p) && b == ResponseScan(enabled, Approach(t.target, p), p)
    requires acts == t.acts + Scans(a) || acts == t.acts + Scans(a) + Scans(b)
    ensures acts <= TallyStep(enabled, t, p).acts
  {
    TallyStepIs(enabled, t, p);
    Rejoined(t.acts, Scans(a), Scans(b));
  }

  /** What the first n passes add up to. */
  ghost function TallyUpTo(enabled: bool, passes: seq<Pass>, n: nat): Tally
    requires n <= |passes|
  {
    if n == 0 then NEW_TALLY else TallyStep(enabled, TallyUpTo(enabled, passes, n - 1), passes[n - 1])
  }

  lemma TallyNext(enabled: bool, passes: seq<Pass>, n: nat)
    requires n < |passes|
    ensures TallyUpTo(enabled, passes, n + 1) == TallyStep(enabled, TallyUpTo(enabled, passes, n), passes[n])
  {
  }

  ghost function TallyAfter(enabled: bool, passes: seq<Pass>): Tally { TallyUpTo(enabled, passes, |passes|) }

  lemma StepActs(enabled: bool, t: Tally, p: Pass)
    ensures t.acts <= TallyStep(enabled, t, p).acts
  {
    TallyStepIs(enabled, t, p);
  }

  lemma {:induction false} ActsGrow(enabled: bool, passes: seq<Pass>, i: nat, n: nat)
    requires i <= n <= |passes|
    ensures TallyUpTo(enabled, passes, i).acts <= TallyUpTo(enabled, passes, n).acts
  {
    if i < n {
      ActsGrow(enabled, passes, i, n - 1);
      StepActs(enabled, TallyUpTo(enabled, passes, n - 1), passes[n - 1]);
    }
  }

  /** The acts of pass i of a suite: its scans and then its prompt, with nothing in between. */
  lemma PassActs(enabled: bool, passes: seq<Pass>, i: nat)
    requires i < |passes| && FromTarget(passes[i].kind)
    ensures var t := TallyUpTo(enabled, passes, i); var u := Approach(t.target, passes[i]);
      t.acts + GateActs(enabled, t.target, passes[i]) + [Ask(passes[i].name, passes[i].kind, u)]
        <= TallyAfter(enabled, passes).acts
  {
    TallyNext(enabled, passes, i);
    TallyStepIs(enabled, TallyUpTo(enabled, passes, i), passes[i]);
    ActsGrow(enabled, passes, i + 1, |passes|);
  }

  ghost predicate ScannedIn(acts: seq<Act>, e: Evidence) {
    exists k :: 0 <= k < |acts| && acts[k].Scan? && acts[k].evidence == e
  }

  /** The scan at a gate is among the acts; stated under a trigger like IsScan. */
  ghost predicate ScannedAt(acts: seq<Act>, t: Target, gate: Gate) {
    forall i {:trigger Look(i)} :: Look(i) ==> ScannedIn(acts, EvidenceAt(t, gate))
  }

  lemma ScannedAtIs(acts: seq<Act>, t: Target, gate: Gate)
    ensures ScannedAt(acts, t, gate) <==> ScannedIn(acts, EvidenceAt(t, gate))
  {
    assert Look(0);
  }

  /** Once the handshake is made, later reports do not change the surface. */
  lemma SurfaceStays(acts: seq<Act>, t: Target, p: Pass)
    requires t.handshake.Some? && ScannedAt(acts, t, AtSurface)
    ensures ScannedAt(acts, Approach(t, p), AtSurface)
  {
    ScannedAtIs(acts, t, AtSurface);
    ScannedAtIs(acts, Approach(t, p), AtSurface);
  }

  lemma StepTarget(enabled: bool, t: Tally, p: Pass)
    ensures TallyStep(enabled, t, p).target == if FromTarget(p.kind) then Approach(t.target, p) else t.target
  {
    TallyStepIs(enabled, t, p);
  }

  lemma SurfaceStep(t: Tally, p: Pass)
    requires FromTarget(p.kind) && t.target.handshake.None? && IsUp(Approach(t.target, p))
    ensures ScannedAt(TallyStep(true, t, p).acts, Approach(t.target, p), AtSurface)
  {
    var acts, u := TallyStep(true, t, p).acts, Shake(t.target, p);
    SurfaceFirst(t, p);
    FirstScan(acts, |t.acts|, u, p.surfaceAnswer);
    SurfaceStays(acts, u, p);
  }

  lemma SurfaceFirst(t: Tally, p: Pass)
    requires FromTarget(p.kind) && t.target.handshake.None? && p.handshake.Up?
    ensures var acts := TallyStep(true, t, p).acts;
      |t.acts| < |acts| && acts[|t.acts|] == ScanOf(Shake(t.target, p), AtSurface, p.surfaceAnswer)
  {
    TallyStepIs(true, t, p);
    var scan := ScanOf(Shake(t.target, p), AtSurface, p.surfaceAnswer);
    assert Scans(SurfaceScan(true, t.target, p)) == [scan];
  }

  lemma FirstScan(acts: seq<Act>, k: nat, t: Target, answer: nat -> Answer)
    requires k < |acts| && acts[k] == ScanOf(t, AtSurface, answer)
    ensures ScannedAt(acts, t, AtSurface)
  {
    ScanOfIs(t, AtSurface, answer);
    ScannedAtIs(acts, t, AtSurface);
  }

  lemma ScannedMore(a: seq<Act>, b: seq<Act>, t: Target, gate: Gate)
    requires ScannedAt(a, t, gate) && a <= b
    ensures ScannedAt(b, t, gate)
  {
    ScannedAtIs(a, t, gate);
    ScannedAtIs(b, t, gate);
    var k :| 0 <= k < |a| && a[k].Scan? && a[k].evidence == EvidenceAt(t, gate);
    assert b[k] == a[k];
  }

  lemma SurfaceKept(t: Tally, p: Pass)
    requires t.target.handshake.Some? && ScannedAt(t.acts, t.target, AtSurface)
    ensures ScannedAt(TallyStep(true, t, p).acts, TallyStep(true, t, p).target, AtSurface)
  {
    StepActs(true, t, p);
    StepTarget(true, t, p);
    ScannedMore(t.acts, TallyStep(true, t, p).acts, t.target, AtSurface);
    SurfaceStays(TallyStep(true, t, p).acts, t.target, p);
  }

  lemma {:induction false} SurfaceTallied(passes: seq<Pass>, n: nat)
    requires n <= |passes| && IsUp(TallyUpTo(true, passes, n).target)
    ensures ScannedAt(TallyUpTo(true, passes, n).acts, TallyUpTo(true, passes, n).target, AtSurface)
  {
    if n > 0 {
      var t, p := TallyUpTo(true, passes, n - 1), passes[n - 1];
      TallyNext(true, passes, n - 1);
      StepTarget(true, t, p);
      if t.target.handshake.None? {
        SurfaceStep(t, p);
      } else {
        SurfaceTallied(passes, n - 1);
        SurfaceKept(t, p);
      }
    }
  }

  /** With the scanner enabled, enforced or not, the surface of a target that is up was scanned. */
  lemma SurfaceInTally(passes: seq<Pass>, n: nat)
    requires n <= |passes| && IsUp(TallyUpTo(true, passes, n).target)
    ensures ScannedIn(TallyUpTo(true, passes, n).acts, EvidenceAt(TallyUpTo(true, passes, n).target, AtSurface))
  {
    SurfaceTallied(passes, n);
    ScannedAtIs(TallyUpTo(true, passes, n).acts, TallyUpTo(true, passes, n).target, AtSurface);
  }

  lemma LastTwo<T>(a: seq<T>, b: seq<T>, x: T, y: T)
    ensures var s := a + (b + [x]) + [y]; |s| >= 2 && s[|s| - 1] == y && s[|s| - 2] == x
  {
  }

  lemma ResponseStep(t: Tally, p: Pass)
    requires FromTarget(p.kind) && HasAnswers(TallyStep(true, t, p).target, p.kind)
    ensures var u := TallyStep(true, t, p);
      && u.target == Approach(t.target, p) && |u.acts| >= 2
      && u.acts[|u.acts| - 1] == Ask(p.name, p.kind, u.target)
      && u.acts[|u.acts| - 2] == ScanOf(u.target, BeforePrompt(p.kind), p.responseAnswer)
  {
    TallyStepIs(true, t, p);
    var u := Approach(t.target, p);
    LastTwo(t.acts, Scans(SurfaceScan(true, t.target, p)), ScanOf(u, BeforePrompt(p.kind), p.responseAnswer),
            Ask(p.name, p.kind, u));
  }

  /** ... and so were the responses an agent's prompt prints, right before the prompt. */
  lemma ResponsesInTally(passes: seq<Pass>, i: nat)
    requires i < |passes| && FromTarget(passes[i].kind)
    requires HasAnswers(TallyUpTo(true, passes, i + 1).target, passes[i].kind)
    ensures var t := TallyUpTo(true, passes, i + 1);
      && |t.acts| >= 2 && t.acts <= TallyAfter(true, passes).acts
      && t.acts[|t.acts| - 1] == Ask(passes[i].name, passes[i].kind, t.target)
      && t.acts[|t.acts| - 2] == Scan(EvidenceAt(t.target, BeforePrompt(passes[i].kind)), passes[i].responseAnswer)
  {
    var t, p := TallyUpTo(true, passes, i), passes[i];
    TallyNext(true, passes, i);
    ActsGrow(true, passes, i + 1, |passes|);
    ResponseStep(t, p);
    ScanOfIs(Approach(t.target, p), BeforePrompt(p.kind), p.responseAnswer);
  }

  function MeanOf(agents: seq<Record>): (r: Option<int>)
    ensures r.Some? ==> 0 <= r.value <= 100
  {
    var scores := ScoresOf(agents);
    if scores == [] then None else MeanWithin(scores, 0, 100); Some(RoundedMean(scores))
  }

  /** The fallback when no synthesis gave a verdict. */
  function FinalScore(t: Tally): int {
    if t.risk.Unknown? && t.score == 0 && MeanOf(t.agents).Some? then MeanOf(t.agents).value else t.score
  }

  /** No signal arrived before any of the first n passes. */
  predicate NoSignalUpTo(passes: seq<Pass>, n: nat)
    requires n <= |passes|
  {
    n == 0 || (NoSignalUpTo(passes, n - 1) && !passes[n - 1].terminated)
  }

  predicate NoSignal(passes: seq<Pass>) { NoSignalUpTo(passes, |passes|) }

  lemma {:induction false} SignalStops(passes: seq<Pass>, i: nat, n: nat)
    requires i < n <= |passes| && passes[i].terminated
    ensures !NoSignalUpTo(passes, n)
  {
    if i < n - 1 {
      SignalStops(passes, i, n - 1);
    }
  }

  /** A run completes if its objects could be read, no signal came, no scan ended it and some agent
      gave a usable answer. */
  ghost predicate Succeeds(enabled: bool, fetched: bool, passes: seq<Pass>, trace: Trace, strict: bool) {
    fetched && NoSignal(passes) && !Halted(trace, strict) && AnyOk(TallyAfter(enabled, passes).agents)
  }

  /** The scans and prompts, findings, score and risk of a completed run are those of the tally. */
  ghost predicate Concluded(t: Tally, acts: seq<Act>, findings: seq<Finding>, score: int, risk: Risk) {
    acts == t.acts && findings == t.findings && score == FinalScore(t) && risk == t.risk
  }

  method CollectScores(agents: seq<Record>) returns (scores: seq<int>)
    ensures scores == ScoresOf(agents)
  {
    scores := [];
    for i := 0 to |agents|
      invariant scores == ScoresOf(agents[..i])
    {
      assert agents[..i + 1][..i] == agents[..i];
      scores := scores + ScoresIn(agents[i]);
    }
    assert agents[..|agents|] == agents;
  }

  method MeanScore(agents: seq<Record>) returns (mean: Option<int>)
    ensures mean == MeanOf(agents)
  {
    var scores := CollectScores(agents);
    if |scores| == 0 {
      return None;
    }
    return Some(RoundedMean(scores));
  }

  class EvaluatorRun {
    const enabled: bool
    const enforced: bool
    const fate: nat -> Delivery
    var trace: Trace
    var writer: Writer
    var report: Report
    var staticReady: bool
    var target: Target
    var surfaceScanned: bool

    predicate Strict() { enabled && enforced }

    /** Holds from the first event to the last. */
    ghost predicate Settled()
      reads this
    {
      && writer == Replay(trace, fate) && Sound(trace) && Disciplined(trace, Strict())
      && 0 <= report.score <= 100
    }

    ghost predicate Ongoing()
      reads this
    {
      Settled() && !Halted(trace, Strict())
    }

    /** What holds between passes. */
    ghost predicate Open()
      reads this
    {
      && Ongoing() && (surfaceScanned ==> target.handshake.Some?) && (IsUp(target) ==> surfaceScanned)
      && (Strict() && IsUp(target) ==> LetThrough(trace, target, AtSurface))
      && (!IsUp(target) ==> NoScans(trace) && target.fuzz.None? && target.probes.None?)
    }

    ghost function Tallied(): Tally
      reads this
    {
      Tally(staticReady, target, Acts(trace), report.findings, report.agents, report.score, report.risk)
    }

    /** Since `acts` and `findings` the gate was run, if it is there, with what it found. */
    ghost predicate Did(acts: seq<Act>, findings: seq<Finding>, g: Gating)
      reads this
    {
      Acts(trace) == acts + Scans(g) && report.findings == findings + Finds(g)
    }

    /** A detection that ends the run has marked it. */
    ghost predicate AbortMarked()
      reads this
    {
      Strict() && HasAbort(trace) ==>
        && report.score == 0 && report.risk == Malicious
        && report.findings != [] && report.findings[|report.findings| - 1].Injection?
        && trace != [] && trace[|trace| - 1] == Patched(AbortPatch(report.findings))
    }

    constructor (enabled: bool, enforced: bool, fate: nat -> Delivery)
      ensures Open() && Tallied() == NEW_TALLY && trace == []
      ensures this.enabled == enabled && this.enforced == enforced && this.fate == fate
    {
      this.enabled, this.enforced, this.fate := enabled, enforced, fate;
      trace, writer, report := [], NEW_WRITER, NEW_REPORT;
      staticReady, surfaceScanned := false, false;
      target := Target(None, None, None);
    }

    method PatchStatus(p: Patch)
      requires Settled()
      modifies this`trace, this`writer
      ensures Settled() && SameSoFar(old(trace), trace, Strict()) && Keeps(old(trace), trace, target)
      ensures trace == old(trace) + [Patched(p)]
    {
      PatchAdded(trace, p, Strict());
      KeepsAll(trace, trace + [Patched(p)], target);
      assert (trace + [Patched(p)])[..|trace|] == trace;
      trace := trace + [Patched(p)];
      writer := Send(writer, p, fate);
    }

    /** Records the outcome of a gate. */
    method LogScan(evidence: Evidence, answer: nat -> Answer, gate: GateScan)
      requires Ongoing() && GateMeans(evidence.segments, answer, gate)
      modifies this`trace
      ensures Settled() && Acts(trace) == old(Acts(trace)) + [Scan(evidence, answer)]
      ensures trace == old(trace) + [Scanned(evidence, answer, gate)] && Keeps(old(trace), trace, target)
      ensures Halted(trace, Strict()) == Stops(Scanned(evidence, answer, gate), Strict())
      ensures HasAbort(trace) == (old(HasAbort(trace)) || Detected(gate))
      ensures Clear(gate) ==> Cleared(trace, evidence)
    {
      var e := Scanned(evidence, answer, gate);
      ScanAdded(trace, e, target, Strict());
      assert (trace + [e])[..|trace|] == trace;
      trace := trace + [e];
    }

    method RecordVigilWarnings(source: Source, warnings: seq<ScanUnit>)
      requires Settled()
      modifies this`trace, this`writer, this`report
      ensures Settled() && SameSoFar(old(trace), trace, Strict()) && Keeps(old(trace), trace, target)
      ensures report == old(report).(findings := report.findings)
      ensures report.findings == old(report.findings) + WarningFindings(source, warnings)
      ensures trace == old(trace) + PatchIf(warnings != [], FindingsPatch(report.findings))
    {
      if |warnings| == 0 {
        return;
      }
      report := report.(findings := report.findings + [Uncorroborated(source)]);
      PatchStatus(FindingsPatch(report.findings));
    }

    /** scanUntrusted; ok is false when it throws. If the scanner is enabled, in strict and in monitor mode
        alike, the scan comes first, then patches with the findings of the gate. */
    method ScanUntrusted(evidence: Evidence, answer: nat -> Answer) returns (ok: bool)
      requires Ongoing()
      modifies this`trace, this`writer, this`report
      ensures Settled() && ok == !Halted(trace, Strict()) && AbortMarked()
      ensures ok && Strict() ==> Cleared(trace, evidence)
      ensures Keeps(old(trace), trace, target)
      ensures ok ==> report == old(report).(findings := report.findings)
      ensures !ok && !HasAbort(trace) ==> report == old(report).(phase := Failed)
      ensures !enabled ==> trace == old(trace) && report == old(report)
      ensures enabled ==>
        && trace == old(trace) + [Scanned(evidence, answer, GateOf(evidence.segments, answer))]
                    + ReportPatches(evidence.source, GateOf(evidence.segments, answer), old(report.findings), enforced)
        && report.findings == old(report.findings) + Noted(Scan(evidence, answer))
        && Acts(trace) == old(Acts(trace)) + [Scan(evidence, answer)]
      ensures ok <==> !enabled || Clear(GateOf(evidence.segments, answer))
                      || (!enforced && GateOf(evidence.segments, answer) != Thrown(false))
    {
      AbortHalts(trace);
      if !enabled {
        return true;
      }
      var source := evidence.source;
      var gate := GateSegments(evidence.segments, answer);
      LogScan(evidence, answer, gate);
      if gate.Thrown? {
        if !gate.outage || enforced {
          report := report.(phase := Failed);
          return false;
        }
        return true;
      }
      ReportScan(source, gate);
      return gate.abort.Nowhere? || !enforced;
    }

    /** What a scan found goes into the report and the status. */
    method ReportScan(source: Source, gate: GateScan)
      requires Settled() && enabled && gate.GateScan?
      modifies this`trace, this`writer, this`report
      ensures Settled() && SameSoFar(old(trace), trace, Strict()) && Keeps(old(trace), trace, target)
      ensures trace == old(trace) + ReportPatches(source, gate, old(report.findings), enforced)
      ensures report.findings == old(report.findings) + Reported(source, gate)
      ensures !(enforced && gate.abort.At?) ==> report == old(report).(findings := report.findings)
      ensures enforced && gate.abort.At? ==>
        && report == old(report).(findings := report.findings, score := 0, risk := Malicious)
        && report.findings != [] && report.findings[|report.findings| - 1].Injection?
        && trace != [] && trace[|trace| - 1] == Patched(AbortPatch(report.findings))
    {
      RecordVigilWarnings(source, gate.warnings);
      RecordAbort(source, gate.abort);
      ReportJoined(old(trace), source, gate, old(report.findings), enforced);
    }

    method RecordAbort(source: Source, abort: AbortedAt)
      requires Settled() && enabled
      modifies this`trace, this`writer, this`report
      ensures Settled() && SameSoFar(old(trace), trace, Strict()) && Keeps(old(trace), trace, target)
      ensures report.findings == old(report.findings) + DetectionFindings(source, abort)
      ensures trace == old(trace) + PatchIf(abort.At?, DetectionPatch(report.findings, enforced))
      ensures report == if enforced && abort.At?
                        then old(report).(findings := report.findings, score := 0, risk := Malicious)
                        else old(report).(findings := report.findings)
    {
      if abort.At? {
        RecordDetection(source);
      }
    }

    /** A detection: a finding in monitor mode, the end of the run in strict mode. */
    method RecordDetection(source: Source)
      requires Settled() && enabled
      modifies this`trace, this`writer, this`report
      ensures Settled() && SameSoFar(old(trace), trace, Strict()) && Keeps(old(trace), trace, target)
      ensures !enforced ==> report == old(report).(findings := report.findings)
      ensures enforced ==>
        && report == old(report).(findings := report.findings, score := 0, risk := Malicious)
        && trace != [] && trace[|trace| - 1] == Patched(AbortPatch(report.findings))
      ensures report.findings == old(report.findings) + [Injection(source)]
      ensures trace == old(trace) + [Patched(DetectionPatch(report.findings, enforced))]
    {
      report := report.(findings := report.findings + [Injection(source)]);
      if !enforced {
        PatchStatus(FindingsPatch(report.findings));
        return;
      }
      report := report.(score := 0, risk := Malicious);
      PatchStatus(AbortPatch(report.findings));
    }

    method ScanAt(gate: Gate, answer: nat -> Answer) returns (ok: bool)
      requires Ongoing()
      modifies this`trace, this`writer, this`report
      ensures Settled() && ok == !Halted(trace, Strict()) && AbortMarked()
      ensures ok && Strict() ==> LetThrough(trace, target, gate)
      ensures Keeps(old(trace), trace, target)
      ensures ok ==> report == old(report).(findings := report.findings)
      ensures Did(old(Acts(trace)), old(report.findings), Gating(enabled, ScanOf(target, gate, answer)))
    {
      ok := ScanUntrusted(EvidenceAt(target, gate), answer);
      ScanOfIs(target, gate, answer);
      ClearedMeansThrough(trace, target, gate);
    }

    /** ensureTarget, then gate 1 (at most once): the advertised surface. */
    method SurfaceGate(p: Pass) returns (ok: bool)
      requires Open()
      modifies this`trace, this`writer, this`report, this`surfaceScanned, this`target
      ensures Settled() && ok == !Halted(trace, Strict()) && AbortMarked()
      ensures ok ==> Open() && target.handshake.Some?
      ensures target == Shake(old(target), p)
      ensures ok ==> report == old(report).(findings := report.findings)
      ensures Did(old(Acts(trace)), old(report.findings), SurfaceScan(enabled, old(target), p))
    {
      AbortHalts(trace);
      target := Shake(target, p);
      ok := true;
      if IsUp(target) && !surfaceScanned {
        surfaceScanned := true;
        ok := ScanAt(AtSurface, p.surfaceAnswer);
      }
    }

    /** Gates 2 and 3: whatever report the next prompt will print. */
    method ResponseGate(p: Pass) returns (ok: bool)
      requires Open()
      modifies this`trace, this`writer, this`report
      ensures Settled() && ok == !Halted(trace, Strict()) && AbortMarked()
      ensures ok ==> Open() && Cleansed(p.kind) && report == old(report).(findings := report.findings)
      ensures Did(old(Acts(trace)), old(report.findings), ResponseScan(enabled, target, p))
    {
      AbortHalts(trace);
      ok := true;
      if HasAnswers(target, p.kind) {
        ok := ScanAt(BeforePrompt(p.kind), p.responseAnswer);
      }
    }

    /** In strict mode the gates this prompt needs have let everything through. */
    ghost predicate Cleansed(kind: Kind)
      reads this
    {
      Strict() && HasAnswers(target, kind) ==> LetThrough(trace, target, BeforePrompt(kind))
    }

    method LogPrompt(p: Pass)
      requires Open() && Cleansed(p.kind)
      modifies this`trace
      ensures Open() && Acts(trace) == old(Acts(trace)) + [Ask(p.name, p.kind, target)]
    {
      var e := Prompted(p.name, p.kind, target);
      PromptAdded(trace, p.name, p.kind, target, Strict());
      assert (trace + [e])[..|trace|] == trace;
      trace := trace + [e];
    }

    /** recordAgent around one prompt. */
    method RecordAgent(p: Pass)
      requires Open() && Cleansed(p.kind)
      modifies this`trace, this`writer, this`report
      ensures Open()
      ensures Acts(trace) == old(Acts(trace)) + [Ask(p.name, p.kind, target)]
      ensures report == old(report).(agents := Put(old(report.agents), RecordOf(p)))
    {
      PatchStatus(NO_CHANGE.(phase := Some(Evaluating)));
      LogPrompt(p);
      report := report.(agents := Put(report.agents, RecordOf(p)));
      PatchStatus(NO_CHANGE);
    }

    /** Response gate and prompt of a dynamic or adversarial agent. */
    method GatedPrompt(p: Pass) returns (ok: bool)
      requires Open() && (p.kind.Dynamic? || p.kind.Adversarial?)
      modifies this`trace, this`writer, this`report
      ensures Settled() && ok == !Halted(trace, Strict()) && AbortMarked()
      ensures ok ==> Open()
      ensures Acts(trace) == old(Acts(trace)) + Scans(ResponseScan(enabled, target, p))
        + if ok then [Ask(p.name, p.kind, target)] else []
      ensures report.findings == old(report.findings) + Finds(ResponseScan(enabled, target, p))
      ensures ok ==> report == old(report).(agents := Put(old(report.agents), RecordOf(p)), findings := report.findings)
    {
      ok := ResponseGate(p);
      if ok {
        RecordAgent(p);
        AbortHalts(trace);
      }
    }

    /** Fuzzing or probing; a stage that fails leaves what an earlier one found. */
    method CollectResponses(p: Pass)
      requires Open() && target.handshake.Some?
      modifies this`target
      ensures Open() && target == Approach(old(target), p)
    {
      if IsUp(target) && p.kind.Dynamic? && p.fuzz.Some? {
        target := target.(fuzz := p.fuzz);
      } else if IsUp(target) && p.kind.Adversarial? && p.probes.Some? {
        target := target.(probes := p.probes);
      }
    }

    /** One dynamic or adversarial agent: surface gate, responses, response gate, prompt. */
    method TargetPass(p: Pass) returns (ok: bool)
      requires Open() && FromTarget(p.kind)
      modifies this`trace, this`writer, this`report, this`target, this`surfaceScanned
      ensures Settled() && ok == !Halted(trace, Strict()) && AbortMarked()
      ensures ok ==> Open() && Tallied() == TallyStep(enabled, old(Tallied()), p)
      ensures Acts(trace) <= TallyStep(enabled, old(Tallied()), p).acts
    {
      ghost var t := Tallied();
      ghost var a, b := SurfaceScan(enabled, target, p), ResponseScan(enabled, Approach(target, p), p);
      ok := SurfaceGate(p);
      if !ok {
        TargetStopped(enabled, t, p, a, b, Acts(trace));
        return;
      }
      ok := AfterSurface(p);
      if ok {
        TargetDone(enabled, t, p, a, b, Tallied());
      } else {
        TargetStopped(enabled, t, p, a, b, Acts(trace));
      }
    }

    /** The rest of such a pass. */
    method AfterSurface(p: Pass) returns (ok: bool)
      requires Open() && FromTarget(p.kind) && target.handshake.Some?
      modifies this`trace, this`writer, this`report, this`target
      ensures Settled() && ok == !Halted(trace, Strict()) && AbortMarked()
      ensures target == Approach(old(target), p) && (ok ==> Open())
      ensures Acts(trace) == old(Acts(trace)) + Scans(ResponseScan(enabled, target, p))
        + if ok then [Ask(p.name, p.kind, target)] else []
      ensures report.findings == old(report.findings) + Finds(ResponseScan(enabled, target, p))
      ensures ok ==> report == old(report).(agents := Put(old(report.agents), RecordOf(p)), findings := report.findings)
    {
      CollectResponses(p);
      ok := GatedPrompt(p);
    }

    /** The agents that collect no evidence from the target. */
    method PlainPass(p: Pass)
      requires Open() && !FromTarget(p.kind)
      modifies this
      ensures Open() && Tallied() == PlainTally(old(Tallied()), p)
    {
      if p.kind.Static? && !staticReady {
        if !p.staticOk {
          PatchStatus(NO_CHANGE);
          return;
        }
        staticReady := true;
      }
      RecordAgent(p);
      if p.kind.Synthesis? && p.reply.Reply? {
        var parsed := ParseSynthesis(p.reply.output);
        if parsed.Some? {
          var s := parsed.value;
          report := report.(score := SynthesisScore(s), risk := s.risk, findings := s.findings);
          PatchStatus(Patch(None, Some(report.score), Some(s.risk), Some(s.findings)));
        }
      }
    }

    /** The first n passes are done and nothing stopped the run. */
    ghost predicate DonePasses(passes: seq<Pass>, n: nat)
      reads this
      requires n <= |passes|
    {
      Open() && Tallied() == TallyUpTo(enabled, passes, n) && NoSignalUpTo(passes, n)
    }

    method OnePass(p: Pass) returns (ok: bool)
      requires Open()
      modifies this
      ensures Settled() && ok == !Halted(trace, Strict()) && AbortMarked()
      ensures ok ==> Open() && Tallied() == TallyStep(enabled, old(Tallied()), p)
      ensures Acts(trace) <= TallyStep(enabled, old(Tallied()), p).acts
    {
      if FromTarget(p.kind) {
        ok := TargetPass(p);
      } else {
        TallyStepIs(enabled, Tallied(), p);
        PlainPass(p);
        AbortHalts(trace);
        ok := true;
      }
    }

    /** The body of the loop over the agents. */
    method PassAt(passes: seq<Pass>, i: nat) returns (ok: bool)
      requires i < |passes| && DonePasses(passes, i)
      modifies this
      ensures Settled() && AbortMarked()
      ensures ok <==> !Halted(trace, Strict()) && !passes[i].terminated
      ensures ok ==> DonePasses(passes, i + 1)
      ensures Acts(trace) <= TallyAfter(enabled, passes).acts
    {
      var p := passes[i];
      AbortHalts(trace);
      TallyNext(enabled, passes, i);
      ActsGrow(enabled, passes, i, |passes|);
      ActsGrow(enabled, passes, i + 1, |passes|);
      if p.terminated {
        report := report.(phase := Failed);
        return false;
      }
      ok := OnePass(p);
    }

    /** All passes, until one throws. */
    method RunPasses(passes: seq<Pass>) returns (ok: bool)
      requires Open() && Tallied() == NEW_TALLY
      modifies this
      ensures Settled() && AbortMarked()
      ensures ok <==> !Halted(trace, Strict()) && NoSignal(passes)
      ensures ok ==> DonePasses(passes, |passes|)
      ensures Acts(trace) <= TallyAfter(enabled, passes).acts
    {
      for i := 0 to |passes|
        invariant DonePasses(passes, i)
      {
        ok := PassAt(passes, i);
        if !ok {
          if passes[i].terminated {
            SignalStops(passes, i, |passes|);
          }
          return;
        }
      }
      AbortHalts(trace);
      return true;
    }

    method FallbackScore()
      requires Open()
      modifies this`trace, this`writer, this`report
      ensures Open() && Acts(trace) == old(Acts(trace))
      ensures report == old(report).(score := FinalScore(old(Tallied())))
    {
      if report.risk.Unknown? && report.score == 0 {
        var mean := MeanScore(report.agents);
        if mean.Some? {
          report := report.(score := mean.value);
          PatchStatus(NO_CHANGE.(score := Some(report.score), risk := Some(Unknown)));
        }
      }
    }

    /** What evaluate does after the passes: nothing usable is a failure; without a synthesis the
        score is the mean of what the agents reported. */
    method Conclude() returns (ok: bool)
      requires Open()
      modifies this
      ensures Open() && ok == AnyOk(old(report.agents)) && Acts(trace) == old(Acts(trace))
      ensures ok ==> report.score == FinalScore(old(Tallied())) && report.risk == old(report.risk)
      ensures report.findings == old(report.findings)
      ensures report.phase == if ok then Completed else Failed
    {
      ok := exists r :: r in report.agents && r.output.Some?;
      if !ok {
        report := report.(phase := Failed);
        return;
      }
      FallbackScore();
      report := report.(phase := Completed);
      PatchStatus(NO_CHANGE.(phase := Some(Completed)));
    }

    /** evaluate; ok is false when it throws. */
    method Evaluate(fetched: bool, passes: seq<Pass>) returns (ok: bool)
      requires Open() && Tallied() == NEW_TALLY
      modifies this
      ensures Settled() && AbortMarked()
      ensures ok <==> Succeeds(enabled, fetched, passes, trace, Strict())
      ensures Acts(trace) <= TallyAfter(enabled, passes).acts
      ensures ok ==> Concluded(TallyAfter(enabled, passes), Acts(trace), report.findings, report.score, report.risk)
      ensures ok ==> report.phase == Completed
    {
      AbortHalts(trace);
      PatchStatus(NO_CHANGE.(phase := Some(Running)));
      if !fetched {
        report := report.(phase := Failed);
        return false;
      }
      ok := RunPasses(passes);
      if ok {
        ok := Conclude();
        AbortHalts(trace);
      }
    }

    /** The failure patch of the outer handler. */
    method PatchFailed()
      requires Settled() && AbortMarked()
      modifies this`trace, this`writer
      ensures Settled() && SameSoFar(old(trace), trace, Strict())
      ensures Strict() && HasAbort(trace) ==> AbortEnding(trace, report.findings)
    {
      PatchAdded(trace, FAIL_PATCH, Strict());
      assert (trace + [Patched(FAIL_PATCH)])[..|trace|] == trace;
      trace := trace + [Patched(FAIL_PATCH)];
      writer := Send(writer, FAIL_PATCH, fate);
    }

    method FlushWriter()
      modifies this`writer
      ensures writer == Flush(old(writer), fate)
    {
      writer := Flush(writer, fate);
    }

    /** The handler around evaluate: failure patch, last flush, termination message. */
    method Finish(ok: bool) returns (msg: TermMsg)
      requires Settled() && AbortMarked() && (ok ==> report.phase == Completed)
      requires ok ==> !(Strict() && HasAbort(trace))
      modifies this
      ensures Sound(trace) && Disciplined(trace, Strict()) && SameSoFar(old(trace), trace, Strict())
      ensures writer == Flush(Replay(trace, fate), fate)
      ensures msg == TermMsg(!ok, old(report.score), old(report.risk))
      ensures report == old(report).(phase := report.phase)
      ensures Strict() && HasAbort(trace) ==> AbortEnding(trace, report.findings)
    {
      if !ok {
        report := report.(phase := Failed);
        PatchFailed();
      }
      FlushWriter();
      msg := TermMsg(report.phase != Completed, report.score, report.risk);
    }

    /** The whole run with main's terminal handling; msg is the termination message. */
    method Run(fetched: bool, passes: seq<Pass>) returns (msg: TermMsg)
      requires Open() && Tallied() == NEW_TALLY
      modifies this
      ensures Sound(trace) && Disciplined(trace, Strict()) && 0 <= msg.score <= 100
      ensures writer == Flush(Replay(trace, fate), fate)
      ensures !msg.saysFailed <==> Succeeds(enabled, fetched, passes, trace, Strict())
      ensures Acts(trace) <= TallyAfter(enabled, passes).acts
      ensures !msg.saysFailed ==>
        Concluded(TallyAfter(enabled, passes), Acts(trace), report.findings, msg.score, msg.risk)
      ensures Strict() && HasAbort(trace) ==>
        && msg == TermMsg(true, 0, Malicious) && AbortEnding(trace, report.findings)
        && report.findings != [] && report.findings[|report.findings| - 1].Injection?
    {
      var ok := Evaluate(fetched, passes);
      AbortHalts(trace);
      msg := Finish(ok);
    }
  }
}