/** The SOCKS5 client handshake (RFC 1928, with username/password authentication of RFC 1929). */
module Socks5 {
  import opened Options
  import opened Sequences

  type Byte = b: int | 0 <= b < 256
  type Bytes = seq<Byte>

  datatype Config = Config(username: Option<Bytes>, password: Option<Bytes>, host: Bytes, port: nat)

  // ---- requests -----------------------------------------------------------------------------

  function Greeting(c: Config): Bytes {
    if c.username.Some? && c.password.Some? then [5, 2, 0, 2] else [5, 1, 0]
  }

  function OrEmpty(o: Option<Bytes>): Bytes { if o.Some? then o.value else [] }

  /** A length in one byte of a Buffer: taken modulo 256. */
  function LengthByte(s: Bytes): Byte { |s| % 256 }

  function AuthRequest(c: Config): Bytes {
    var user, pass := OrEmpty(c.username), OrEmpty(c.password);
    [1, LengthByte(user)] + user + [LengthByte(pass)] + pass
  }

  predicate PortOk(c: Config) { c.port < 0x10000 }

  function ConnectRequest(c: Config): Bytes
    requires PortOk(c)
  {
    [5, 1, 0, 3, LengthByte(c.host)] + c.host + [c.port / 256, c.port % 256]
  }

  // ---- the handshake --------------------------------------------------------------------------

  datatype Stage = AtGreeting | AtAuth | AtConnect

  datatype Failure =
    | BadVersion(v: Byte) | UnsupportedMethod(m: Byte) | AuthRejected(status: Byte)
    | BadReplyVersion(v: Byte) | BadAddressType(t: Byte) | Refused(rep: Byte) | PortOutOfRange

  datatype Outcome = Pending | Connected | Failed(why: Failure)

  datatype State = State(stage: Stage, buf: Bytes, outcome: Outcome, written: Bytes)

  /** Once the connection is made. */
  function Init(c: Config): State { State(AtGreeting, [], Pending, Greeting(c)) }

  /** fail(): only the first settlement counts. */
  function Fail(st: State, why: Failure): State {
    if st.outcome.Pending? then st.(outcome := Failed(why)) else st
  }

  /** Length of a CONNECT reply from its fourth and fifth byte; 0 for an unknown address type. */
  function ReplyLength(buf: Bytes): nat
    requires |buf| >= 5
  {
    if buf[3] == 1 then 4 + 4 + 2
    else if buf[3] == 4 then 4 + 16 + 2
    else if buf[3] == 3 then 7 + (buf[4] as int)
    else 0
  }

  /** Sending CONNECT; a port beyond 16 bits makes the encoder throw. */
  function SendConnect(c: Config, st: State): State {
    var st := st.(stage := AtConnect);
    if PortOk(c) then st.(written := st.written + ConnectRequest(c)) else Fail(st, PortOutOfRange)
  }

  /** One turn of the data handler's loop, and whether the loop goes on. */
  function Turn(c: Config, st: State): (State, bool) {
    match st.stage
    case AtGreeting =>
      if |st.buf| < 2 then (st, false)
      else
        var next := st.(buf := st.buf[2..]);
        if st.buf[0] != 5 then (Fail(next, BadVersion(st.buf[0])), false)
        else if st.buf[1] == 0 then var s := SendConnect(c, next); (s, PortOk(c))
        else if st.buf[1] == 2 && c.username.Some? then
          (next.(stage := AtAuth, written := next.written + AuthRequest(c)), true)
        else (Fail(next, UnsupportedMethod(st.buf[1])), false)
    case AtAuth =>
      if |st.buf| < 2 then (st, false)
      else
        var next := st.(buf := st.buf[2..]);
        if st.buf[0] != 1 || st.buf[1] != 0 then (Fail(next, AuthRejected(st.buf[1])), false)
        else var s := SendConnect(c, next); (s, PortOk(c))
    case AtConnect =>
      if |st.buf| < 5 then (st, false)
      else if st.buf[0] != 5 then (Fail(st, BadReplyVersion(st.buf[0])), false)
      else
        var len := ReplyLength(st.buf);
        if len == 0 then (Fail(st, BadAddressType(st.buf[3])), false)
        else if |st.buf| < len then (st, false)
        else
          var next := st.(buf := st.buf[len..]);
          if st.buf[1] != 0 then (Fail(next, Refused(st.buf[1])), false)
          else (next.(outcome := if next.outcome.Pending? then Connected else next.outcome), false)
  }

  /** The loop. */
  function Advance(c: Config, st: State): State
    decreases |st.buf|
  {
    var (next, more) := Turn(c, st);
    if more then Advance(c, next) else next
  }

  /** One data event. A failed handshake has destroyed its socket: no event arrives any more. */
  function OnSegment(c: Config, st: State, segment: Bytes): State {
    if st.outcome.Failed? then st else Advance(c, st.(buf := st.buf + segment))
  }

  function OnSegments(c: Config, st: State, segments: seq<Bytes>): State
    decreases |segments|
  {
    if segments == [] then st else OnSegments(c, OnSegment(c, st, segments[0]), segments[1..])
  }

  class Handshake {
    const config: Config
    var stage: Stage
    var buf: Bytes
    var outcome: Outcome
    var written: Bytes

    function Now(): State
      reads this
    {
      State(stage, buf, outcome, written)
    }

    constructor (c: Config)
      ensures config == c && Now() == Init(c)
    {
      config, stage, buf, outcome, written := c, AtGreeting, [], Pending, Greeting(c);
    }

    method FailWith(why: Failure)
      modifies this
      ensures Now() == Fail(old(Now()), why)
    {
      if outcome != Pending {
        return;
      }
      outcome := Failed(why);
    }

    method WriteConnect() returns (ok: bool)
      modifies this
      ensures Now() == SendConnect(config, old(Now())) && ok == PortOk(config)
    {
      stage := AtConnect;
      if config.port >= 0x10000 {
        FailWith(PortOutOfRange);
        return false;
      }
      written := written + ConnectRequest(config);
      return true;
    }

    /** The "data" listener. */
    method OnData(chunk: Bytes)
      modifies this
      ensures Now() == OnSegment(config, old(Now()), chunk)
    {
      if outcome.Failed? {
        return;
      }
      buf := buf + chunk;
      ghost var goal := Advance(config, Now());
      var more := true;
      while more
        invariant more ==> Advance(config, Now()) == goal
        invariant !more ==> Now() == goal
        decreases more, |buf|
      {
        ghost var before := Now();
        if stage == AtGreeting {
          if |buf| < 2 { return; }
          var version, method_ := buf[0], buf[1];
          buf := buf[2..];
          if version != 5 {
            FailWith(BadVersion(version));
            more := false;
          } else if method_ == 0 {
            more := WriteConnect();
          } else if method_ == 2 && config.username.Some? {
            stage := AtAuth;
            written := written + AuthRequest(config);
          } else {
            FailWith(UnsupportedMethod(method_));
            more := false;
          }
        } else if stage == AtAuth {
          if |buf| < 2 { return; }
          var version, status := buf[0], buf[1];
          buf := buf[2..];
          if version != 1 || status != 0 {
            FailWith(AuthRejected(status));
            more := false;
          } else {
            more := WriteConnect();
          }
        } else {
          more := false;
          if |buf| < 5 { return; }
          var version, rep, atyp := buf[0], buf[1], buf[3];
          if version != 5 {
            FailWith(BadReplyVersion(version));
          } else if atyp != 1 && atyp != 3 && atyp != 4 {
            FailWith(BadAddressType(atyp));
          } else {
            var replyLen := ReplyLength(buf);
            if |buf| < replyLen { return; }
            buf := buf[replyLen..];
            if rep != 0 {
              FailWith(Refused(rep));
            } else if outcome == Pending {
              outcome := Connected;
            }
          }
        }
        assert (Now(), more) == Turn(config, before);
      }
    }
  }

  // ---- segmentation does not matter -------------------------------------------------------------

  /** What the caller and the proxy can see. */
  ghost predicate SameObserved(a: State, b: State) {
    a.stage == b.stage && a.outcome == b.outcome && a.written == b.written
  }

  lemma TurnAppend(c: Config, st: State, more: Bytes)
    ensures var t, u := Turn(c, st), Turn(c, st.(buf := st.buf + more));
      && (t.1 ==> u == (t.0.(buf := t.0.buf + more), true))
      && (!t.1 && t.0 != st && st.outcome.Pending? && !t.0.outcome.Pending? ==> !u.1 && SameObserved(t.0, u.0))
  {
    var long := st.buf + more;
    if |st.buf| >= 2 {
      assert long[0] == st.buf[0] && long[1] == st.buf[1] && long[2..] == st.buf[2..] + more;
    }
    if |st.buf| >= 5 {
      assert long[3] == st.buf[3] && long[4] == st.buf[4];
    }
  }

  /** A turn that stops without settling has changed nothing: it waits for more bytes. */
  lemma TurnWaits(c: Config, st: State)
    requires st.outcome.Pending? && !Turn(c, st).1 && Turn(c, st).0.outcome.Pending?
    ensures Turn(c, st).0 == st
  {
  }

  lemma {:induction false} AdvanceAppend(c: Config, st: State, more: Bytes)
    requires st.outcome.Pending?
    ensures var now, all := Advance(c, st), Advance(c, st.(buf := st.buf + more));
      if now.outcome.Pending? then all == Advance(c, now.(buf := now.buf + more)) else SameObserved(now, all)
    decreases |st.buf|
  {
    var (next, goesOn) := Turn(c, st);
    TurnAppend(c, st, more);
    if goesOn {
      assert next.outcome.Pending?;
      AdvanceAppend(c, next, more);
    } else if next.outcome.Pending? {
      TurnWaits(c, st);
    }
  }

  lemma ConnectedStays(c: Config, st: State, segment: Bytes)
    requires st.stage == AtConnect && st.outcome.Connected?
    ensures SameObserved(OnSegment(c, st, segment), st)
  {
  }

  lemma {:induction false} SettledStays(c: Config, st: State, segments: seq<Bytes>)
    requires st.outcome.Failed? || (st.stage == AtConnect && st.outcome.Connected?)
    ensures SameObserved(OnSegments(c, st, segments), st)
    decreases |segments|
  {
    if segments != [] {
      if st.outcome.Connected? {
        ConnectedStays(c, st, segments[0]);
      }
      SettledStays(c, OnSegment(c, st, segments[0]), segments[1..]);
    }
  }

  lemma {:induction false} ConnectedAtConnect(c: Config, st: State)
    requires st.outcome.Pending?
    ensures Advance(c, st).outcome.Connected? ==> Advance(c, st).stage == AtConnect
    decreases |st.buf|
  {
    if Turn(c, st).1 {
      ConnectedAtConnect(c, Turn(c, st).0);
    }
  }

  /** Outcome, stage and bytes written are the same for every split of the proxy's bytes. */
  lemma {:induction false} SplitIrrelevant(c: Config, st: State, segments: seq<Bytes>)
    requires st.outcome.Pending? && Advance(c, st) == st
    ensures SameObserved(OnSegments(c, st, segments), OnSegment(c, st, Concat(segments)))
    decreases |segments|
  {
    if segments == [] {
      assert st.(buf := st.buf + []) == st;
    } else {
      var first, rest := st.(buf := st.buf + segments[0]), Concat(segments[1..]);
      var now := Advance(c, first);
      assert st.buf + Concat(segments) == first.buf + rest;
      AdvanceAppend(c, first, rest);
      if now.outcome.Pending? {
        AdvanceStops(c, first);
        SplitIrrelevant(c, now, segments[1..]);
      } else {
        ConnectedAtConnect(c, first);
        SettledStays(c, now, segments[1..]);
      }
    }
  }

  lemma {:induction false} AdvanceStops(c: Config, st: State)
    requires st.outcome.Pending? && Advance(c, st).outcome.Pending?
    ensures Advance(c, Advance(c, st)) == Advance(c, st)
    decreases |st.buf|
  {
    if Turn(c, st).1 {
      AdvanceStops(c, Turn(c, st).0);
    } else {
      TurnWaits(c, st);
    }
  }

  lemma HandshakeSplitIrrelevant(c: Config, segments: seq<Bytes>)
    ensures SameObserved(OnSegments(c, Init(c), segments), OnSegment(c, Init(c), Concat(segments)))
  {
    SplitIrrelevant(c, Init(c), segments);
  }

  // ---- replies as section 6 of RFC 1928 describes them --------------------------------------------

  datatype Address = V4(bytes: Bytes) | V6(bytes: Bytes) | Domain(name: Bytes)

  /** The reserved byte is 0 in the standard; the client does not look at it. */
  datatype Reply = Reply(code: Byte, reserved: Byte, address: Address, port: nat)

  predicate ValidReply(r: Reply) {
    && r.port < 0x10000
    && match r.address
       case V4(bytes) => |bytes| == 4
       case V6(bytes) => |bytes| == 16
       case Domain(name) => |name| < 256
  }

  function EncodeAddress(a: Address): Bytes
    requires a.Domain? ==> |a.name| < 256
  {
    match a
    case V4(bytes) => [1] + bytes
    case V6(bytes) => [4] + bytes
    case Domain(name) => [3, |name|] + name
  }

  function EncodeReply(r: Reply): Bytes
    requires ValidReply(r)
  {
    [5, r.code, r.reserved] + EncodeAddress(r.address) + [r.port / 256, r.port % 256]
  }

  /** A stream that starts with a reply is measured by it. */
  lemma ReplyMeasured(r: Reply, s: Bytes)
    requires ValidReply(r) && EncodeReply(r) <= s
    ensures |s| >= 5 && s[0] == 5 && s[1] == r.code && ReplyLength(s) == |EncodeReply(r)| > 0
  {
    var e := EncodeReply(r);
    assert |EncodeAddress(r.address)| >= 2;
    assert e[3] == EncodeAddress(r.address)[0] && e[4] == EncodeAddress(r.address)[1];
    assert s[0] == e[0] && s[1] == e[1] && s[3] == e[3] && s[4] == e[4];
  }

  function AddressIn(s: Bytes, n: nat): Address
    requires 5 <= n <= |s| && n == ReplyLength(s)
  {
    if s[3] == 1 then V4(s[4..8]) else if s[3] == 4 then V6(s[4..20]) else Domain(s[5..n - 2])
  }

  /** A stream that is long enough starts with a reply. */
  lemma ReplyThere(s: Bytes) returns (r: Reply)
    requires |s| >= 5 && s[0] == 5 && 0 < ReplyLength(s) <= |s|
    ensures ValidReply(r) && r.code == s[1] && EncodeReply(r) <= s
  {
    var n := ReplyLength(s);
    var hi: int, lo: int := s[n - 2], s[n - 1];
    r := Reply(s[1], s[2], AddressIn(s, n), 256 * hi + lo);
    assert r.port / 256 == hi && r.port % 256 == lo;
    assert EncodeAddress(r.address) == s[3..n - 2];
    assert EncodeReply(r) == s[..n];
  }

  // ---- what the proxy must have said --------------------------------------------------------------

  /** The stream starts with a complete success reply to CONNECT. */
  ghost predicate SuccessReply(s: Bytes) { exists r :: ValidReply(r) && r.code == 0 && EncodeReply(r) <= s }

  /** What leads to CONNECT: the proxy takes the client without authentication, or asks for it and accepts it. */
  predicate Dialogue(c: Config, d: Bytes) { d == [5, 0] || (d == [5, 2, 1, 0] && c.username.Some?) }

  /** The stream starts with such a dialogue and a success reply. */
  ghost predicate Accepts(c: Config, s: Bytes) {
    PortOk(c) && exists d, r :: Dialogue(c, d) && ValidReply(r) && r.code == 0 && d + EncodeReply(r) <= s
  }

  lemma ReplyDecides(c: Config, st: State)
    requires st.stage == AtConnect && st.outcome.Pending?
    ensures Advance(c, st).outcome.Connected? <==>
      |st.buf| >= 5 && st.buf[0] == 5 && st.buf[1] == 0 && 0 < ReplyLength(st.buf) <= |st.buf|
    ensures Advance(c, st).written == st.written
  {
  }

  lemma ConnectStage(c: Config, st: State)
    requires st.stage == AtConnect && st.outcome.Pending?
    ensures Advance(c, st).outcome.Connected? <==> SuccessReply(st.buf)
  {
    ReplyDecides(c, st);
    if SuccessReply(st.buf) {
      var r :| ValidReply(r) && r.code == 0 && EncodeReply(r) <= st.buf;
      ReplyMeasured(r, st.buf);
    } else if Advance(c, st).outcome.Connected? {
      var r := ReplyThere(st.buf);
    }
  }

  lemma AuthStage(c: Config, st: State)
    requires st.stage == AtAuth && st.outcome.Pending?
    ensures Advance(c, st).outcome.Connected? <==>
      PortOk(c) && |st.buf| >= 2 && st.buf[0] == 1 && st.buf[1] == 0 && SuccessReply(st.buf[2..])
  {
    var (next, more) := Turn(c, st);
    if more {
      ConnectStage(c, next);
    }
  }

  lemma GreetingStage(c: Config, st: State)
    requires st.stage == AtGreeting && st.outcome.Pending?
    ensures Advance(c, st).outcome.Connected? <==>
      && PortOk(c) && |st.buf| >= 2 && st.buf[0] == 5
      && (|| (st.buf[1] == 0 && SuccessReply(st.buf[2..]))
          || (st.buf[1] == 2 && c.username.Some? && |st.buf| >= 4 && st.buf[2] == 1 && st.buf[3] == 0
              && SuccessReply(st.buf[4..])))
  {
    var (next, more) := Turn(c, st);
    if more {
      if next.stage == AtConnect {
        ConnectStage(c, next);
      } else {
        AuthStage(c, next);
        if |st.buf| >= 4 {
          assert st.buf[2..][2..] == st.buf[4..];
        }
      }
    }
  }

  lemma SuccessAfter(d: Bytes, s: Bytes)
    requires d <= s
    ensures SuccessReply(s[|d|..]) <==> exists r :: ValidReply(r) && r.code == 0 && d + EncodeReply(r) <= s
  {
    forall r | ValidReply(r) ensures EncodeReply(r) <= s[|d|..] <==> d + EncodeReply(r) <= s {
      PrefixAfter(d, EncodeReply(r), s);
    }
  }

  lemma PrefixAfter(d: Bytes, e: Bytes, s: Bytes)
    requires d <= s
    ensures e <= s[|d|..] <==> d + e <= s
  {
    assert s == d + s[|d|..];
    if d + e <= s {
      assert s[|d|..|d| + |e|] == (d + e)[|d|..] == e;
    }
  }

  /** The handshake succeeds exactly on the streams that start with the whole dialogue and a success
      reply, however they were segmented. */
  lemma ConnectedIff(c: Config, segments: seq<Bytes>)
    ensures OnSegments(c, Init(c), segments).outcome.Connected? <==> Accepts(c, Concat(segments))
  {
    HandshakeSplitIrrelevant(c, segments);
    var s := Concat(segments);
    assert [] + s == s;
    GreetingStage(c, Init(c).(buf := s));
    DialoguesStart(c, s);
  }

  lemma DialoguesStart(c: Config, s: Bytes)
    ensures Accepts(c, s) <==>
      && PortOk(c) && |s| >= 2 && s[0] == 5
      && (|| (s[1] == 0 && SuccessReply(s[2..]))
          || (s[1] == 2 && c.username.Some? && |s| >= 4 && s[2] == 1 && s[3] == 0 && SuccessReply(s[4..])))
  {
    if Accepts(c, s) {
      var d, r :| Dialogue(c, d) && ValidReply(r) && r.code == 0 && d + EncodeReply(r) <= s;
      assert d <= d + EncodeReply(r) <= s && s[0] == d[0] && s[1] == d[1];
      assert |d| == 4 ==> s[2] == d[2] && s[3] == d[3];
      SuccessAfter(d, s);
    }
    if PortOk(c) && |s| >= 2 && s[0] == 5 && s[1] == 0 && SuccessReply(s[2..]) {
      StartsWith(c, [5, 0], s);
    }
    if PortOk(c) && c.username.Some? && |s| >= 4 && s[0] == 5 && s[1] == 2 && s[2] == 1 && s[3] == 0
       && SuccessReply(s[4..]) {
      StartsWith(c, [5, 2, 1, 0], s);
    }
  }

  lemma StartsWith(c: Config, d: Bytes, s: Bytes)
    requires PortOk(c) && Dialogue(c, d) && d <= s && SuccessReply(s[|d|..])
    ensures Accepts(c, s)
  {
    SuccessAfter(d, s);
    var r :| ValidReply(r) && r.code == 0 && d + EncodeReply(r) <= s;
  }

  // ---- a reply, byte by byte -------------------------------------------------------------------------

  /** What a stream of bytes leads to. */
  function After(c: Config, s: Bytes): Outcome { Advance(c, Init(c).(buf := s)).outcome }

  lemma AfterIs(c: Config, segments: seq<Bytes>)
    ensures OnSegments(c, Init(c), segments).outcome == After(c, Concat(segments))
  {
    HandshakeSplitIrrelevant(c, segments);
    assert [] + Concat(segments) == Concat(segments);
  }

  lemma ReplyWaits(c: Config, st: State, r: Reply)
    requires st.stage == AtConnect && st.outcome.Pending? && ValidReply(r) && st.buf <= EncodeReply(r)
    ensures Advance(c, st).outcome ==
      if |st.buf| < |EncodeReply(r)| then Pending else if r.code == 0 then Connected else Failed(Refused(r.code))
  {
    var e := EncodeReply(r);
    ReplyMeasured(r, e);
    if |st.buf| >= 5 {
      assert st.buf[0] == e[0] && st.buf[1] == e[1] && st.buf[3] == e[3] && st.buf[4] == e[4];
    }
  }

  lemma AdvanceStep(c: Config, st: State)
    ensures Advance(c, st) == if Turn(c, st).1 then Advance(c, Turn(c, st).0) else Turn(c, st).0
  {
  }

  lemma DialogueLeads(c: Config, d: Bytes, s: Bytes)
    requires PortOk(c) && Dialogue(c, d) && d <= s
    ensures exists st: State ::
      st.stage == AtConnect && st.outcome.Pending? && st.buf == s[|d|..] && After(c, s) == Advance(c, st).outcome
  {
    var st := Init(c).(buf := s);
    var one := Turn(c, st).0;
    assert s[0] == d[0] && s[1] == d[1];
    AdvanceStep(c, st);
    if |d| == 4 {
      assert s[2] == d[2] && s[3] == d[3] && s[2..][2..] == s[4..];
      var two := Turn(c, one).0;
      AdvanceStep(c, one);
      assert two.stage == AtConnect && two.buf == s[|d|..];
    } else {
      assert one.stage == AtConnect && one.buf == s[|d|..];
    }
  }

  lemma DialogueWaits(c: Config, d: Bytes, n: nat)
    requires Dialogue(c, d) && n < |d| && PortOk(c)
    ensures After(c, d[..n]).Pending?
  {
    var st := Init(c).(buf := d[..n]);
    if n >= 2 {
      var one := Turn(c, st).0;
      AdvanceStep(c, st);
      AdvanceStep(c, one);
      assert one.stage == AtAuth && |one.buf| < 2;
    }
  }

  lemma PrefixOfBoth(d: Bytes, e: Bytes, s: Bytes)
    requires s <= d + e
    ensures |s| < |d| ==> s == d[..|s|]
    ensures |s| >= |d| ==> d <= s && s[|d|..] <= e
  {
    assert s == (d + e)[..|s|];
    if |s| >= |d| {
      assert s[|d|..] == e[..|s| - |d|];
    }
  }

  /** Whatever the proxy replies after a dialogue, the client waits for the last byte of the reply and
      then connects, or fails with the reply's code. */
  lemma ReplyOutcome(c: Config, d: Bytes, r: Reply, segments: seq<Bytes>)
    requires PortOk(c) && Dialogue(c, d) && ValidReply(r) && Concat(segments) <= d + EncodeReply(r)
    ensures OnSegments(c, Init(c), segments).outcome ==
      if |Concat(segments)| < |d + EncodeReply(r)| then Pending
      else if r.code == 0 then Connected else Failed(Refused(r.code))
  {
    AfterIs(c, segments);
    var s := Concat(segments);
    PrefixOfBoth(d, EncodeReply(r), s);
    if |s| < |d| {
      DialogueWaits(c, d, |s|);
    } else {
      DialogueLeads(c, d, s);
      var st: State :| st.stage == AtConnect && st.outcome.Pending? && st.buf == s[|d|..]
                       && After(c, s) == Advance(c, st).outcome;
      ReplyWaits(c, st, r);
    }
  }

  // ---- what the client writes ------------------------------------------------------------------------

  /** Greeting, then authentication, then CONNECT. */
  function Requests(c: Config, auth: bool, connect: bool): Bytes {
    Greeting(c) + (if auth then AuthRequest(c) else []) + (if connect && PortOk(c) then ConnectRequest(c) else [])
  }

  lemma RequestsGrow(c: Config, auth: bool)
    ensures Requests(c, false, false) + AuthRequest(c) == Requests(c, true, false)
    ensures PortOk(c) ==> Requests(c, auth, false) + ConnectRequest(c) == Requests(c, auth, true)
    ensures !PortOk(c) ==> Requests(c, auth, false) == Requests(c, auth, true)
  {
  }

  ghost predicate GoodWrites(c: Config, st: State, auth: bool) {
    && (st.stage == AtGreeting ==> !auth) && (st.stage == AtAuth ==> auth)
    && st.written == Requests(c, auth, st.stage == AtConnect)
  }

  ghost predicate WritesInOrder(c: Config, st: State) { exists a :: GoodWrites(c, st, a) }

  lemma TurnWrites(c: Config, st: State)
    requires WritesInOrder(c, st)
    ensures WritesInOrder(c, Turn(c, st).0)
  {
    var a :| GoodWrites(c, st, a);
    RequestsGrow(c, a);
    var next := Turn(c, st).0;
    assert GoodWrites(c, next, a || next.stage == AtAuth);
  }

  lemma {:induction false} AdvanceWrites(c: Config, st: State)
    requires WritesInOrder(c, st)
    ensures WritesInOrder(c, Advance(c, st))
    decreases |st.buf|
  {
    TurnWrites(c, st);
    if Turn(c, st).1 {
      AdvanceWrites(c, Turn(c, st).0);
    }
  }

  /** In every run: the requests go out in order, each at most once. */
  lemma {:induction false} RunWrites(c: Config, st: State, segments: seq<Bytes>)
    requires WritesInOrder(c, st)
    ensures WritesInOrder(c, OnSegments(c, st, segments))
    decreases |segments|
  {
    if segments != [] {
      if !st.outcome.Failed? {
        var longer := st.(buf := st.buf + segments[0]);
        var a :| GoodWrites(c, st, a);
        assert GoodWrites(c, longer, a);
        AdvanceWrites(c, longer);
      }
      RunWrites(c, OnSegment(c, st, segments[0]), segments[1..]);
    }
  }

  lemma HandshakeWrites(c: Config, segments: seq<Bytes>)
    ensures WritesInOrder(c, OnSegments(c, Init(c), segments))
  {
    assert GoodWrites(c, Init(c), false);
    RunWrites(c, Init(c), segments);
  }

  // ---- the proxy's side of section 4 of RFC 1928 and section 2 of RFC 1929 -------------------------------

  /** The methods of a greeting, as section 3 of RFC 1928 lays it out. */
  function DecodeGreeting(s: Bytes): Option<Bytes> {
    if |s| < 2 || s[0] != 5 then None
    else
      var n: int := s[1];
      if |s| != 2 + n then None else Some(s[2..])
  }

  /** The client always offers to do without authentication, a login exactly if it has both parts of one,
      and nothing else. */
  lemma GreetingOffers(c: Config)
    ensures DecodeGreeting(Greeting(c)).Some?
    ensures forall m :: m in DecodeGreeting(Greeting(c)).value <==>
      m == 0 || (m == 2 && c.username.Some? && c.password.Some?)
  {
    var methods := DecodeGreeting(Greeting(c)).value;
    assert methods == if c.username.Some? && c.password.Some? then [0, 2] else [0];
  }

  datatype Request = Request(host: Bytes, port: nat)

  /** A CONNECT request for a domain name, nothing before or after it. */
  function DecodeConnect(s: Bytes): Option<Request> {
    if |s| < 5 || s[0] != 5 || s[1] != 1 || s[2] != 0 || s[3] != 3 then None
    else
      var n: int := s[4];
      if |s| != 7 + n then None
      else
        var hi: int, lo: int := s[5 + n], s[6 + n];
        Some(Request(s[5..5 + n], 256 * hi + lo))
  }

  /** The proxy recovers host and port exactly when the name fits its one-byte length. */
  lemma ConnectRoundTrip(c: Config)
    requires PortOk(c)
    ensures DecodeConnect(ConnectRequest(c)) == Some(Request(c.host, c.port)) <==> |c.host| < 256
  {
    var s := ConnectRequest(c);
    var n := LengthByte(c.host);
    if |c.host| < 256 {
      assert n == |c.host|;
      assert s[5..5 + n] == c.host;
      assert s[5 + n] == c.port / 256 && s[6 + n] == c.port % 256;
    }
  }

  datatype Login = Login(user: Bytes, pass: Bytes)

  function DecodeAuth(s: Bytes): Option<Login> {
    if |s| < 2 || s[0] != 1 then None
    else
      var n: int := s[1];
      if |s| < 3 + n then None
      else
        var k: int := s[2 + n];
        if |s| != 3 + n + k then None else Some(Login(s[2..2 + n], s[3 + n..]))
  }

  lemma AuthRoundTrip(c: Config)
    ensures DecodeAuth(AuthRequest(c)) == Some(Login(OrEmpty(c.username), OrEmpty(c.password))) <==>
      |OrEmpty(c.username)| < 256 && |OrEmpty(c.password)| < 256
  {
    var user, pass := OrEmpty(c.username), OrEmpty(c.password);
    var s := AuthRequest(c);
    if |user| < 256 && |pass| < 256 {
      assert s[1] == |user| && s[2..2 + |user|] == user;
      assert s[2 + |user|] == |pass| && s[3 + |user|..] == pass;
    }
  }
}
