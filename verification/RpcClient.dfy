/** The JSON-RPC client over a transport that can crash: pending requests, timers, raw waiters and
    the two crash counters, as a state machine over every event that can interleave. */
module RpcClient {
  import JsonText

  // ---- keys ------------------------------------------------------------------------------------

  /** A decimal numeral as String(n) prints it. */
  predicate Numeral(s: string) {
    || s == "0"
    || (s != "" && '1' <= s[0] <= '9' && JsonText.AllDigits(s))
    || (|s| > 1 && s[0] == '-' && '1' <= s[1] <= '9' && JsonText.AllDigits(s[1..]))
  }

  predicate RawPrefixed(s: string) { "raw:" <= s }

  /** The string keys of `pending`: String(id), `raw:${n}`, or any other string. */
  datatype KeyForm = Id(n: int) | Raw(n: int) | Other(text: string)

  /** Every string has one form: a numeral is an Id and a numbered raw key is a Raw. */
  type Key = k: KeyForm | k.Other? ==> !Numeral(k.text) && !(RawPrefixed(k.text) && Numeral(k.text[4..])) witness Id(0)

  predicate IsRaw(k: Key) { k.Raw? || (k.Other? && RawPrefixed(k.text)) }

  // ---- state -----------------------------------------------------------------------------------

  datatype Reply = Result | RpcError | NeitherResultNorError

  datatype Outcome =
    | TimedOut(hang: bool) | SendFailed(crashed: bool) | ConnectionLost | ClientClosed
    | Replied(reply: Reply) | RawReply

  /** A request: its key, and whether it waits for any frame (sendRaw without an expected id). */
  datatype Req = Req(key: Key, anyFrame: bool)

  /** The promise of transport.send, as long as its outcome has not been delivered. */
  datatype Send = InFlight | Rejected(crash: bool)

  /** Client and transport. Requests are numbered in dispatch order; `again` records a second
      resolution of some request. */
  datatype Net = Net(
    reqs: seq<Req>, pending: map<Key, nat>, waiters: seq<Key>, nextId: int, armed: set<nat>,
    sends: map<nat, Send>, outcomes: map<nat, Outcome>, again: bool, crashEvents: nat,
    connected: bool, closed: bool, crashes: nat)

  const START := Net([], map[], [], 1, {}, map[], map[], false, 0, false, false, 0)

  function Resolve(s: Net, r: nat, o: Outcome): Net {
    if r in s.outcomes then s.(again := true) else s.(outcomes := s.outcomes[r := o])
  }

  // ---- dispatching ------------------------------------------------------------------------

  function Dispatch(s: Net, key: Key, anyFrame: bool): Net {
    var r := |s.reqs|;
    s.(reqs := s.reqs + [Req(key, anyFrame)], pending := s.pending[key := r], armed := s.armed + {r},
       sends := s.sends[r := if s.connected && !s.closed then InFlight else Rejected(false)])
  }

  function Request(s: Net): Net { Dispatch(s.(nextId := s.nextId + 1), Id(s.nextId), false) }

  function SendRaw(s: Net): Net {
    var key := Raw(s.nextId);
    Dispatch(s.(nextId := s.nextId + 1, waiters := s.waiters + [key]), key, true)
  }

  /** sendRaw with an expected id, which becomes the key. */
  function SendExpecting(s: Net, key: Key): Net { Dispatch(s, key, false) }

  // ---- what can happen to a request ----------------------------------------------------------

  function RemoveFirst(ws: seq<Key>, k: Key): seq<Key> {
    if ws == [] then [] else if ws[0] == k then ws[1..] else [ws[0]] + RemoveFirst(ws[1..], k)
  }

  function OnTimer(s: Net, r: nat): Net
    requires r < |s.reqs|
  {
    var key := s.reqs[r].key;
    Resolve(s.(pending := s.pending - {key}, waiters := RemoveFirst(s.waiters, key), armed := s.armed - {r}),
            r, TimedOut(!IsRaw(key)))
  }

  /** The catch of transport.send: it settles whatever entry holds the key. */
  function OnSendRejected(s: Net, r: nat): Net
    requires r < |s.reqs| && r in s.sends && s.sends[r].Rejected?
  {
    var key, crash := s.reqs[r].key, s.sends[r].crash;
    var t := s.(sends := s.sends - {r});
    if key !in s.pending then t
    else
      Resolve(t.(armed := t.armed - {s.pending[key]}, pending := t.pending - {key},
                 crashEvents := if crash then t.crashEvents + 1 else t.crashEvents),
              r, SendFailed(crash))
  }

  /** clearTimeout, delete, resolve. */
  function Settle(s: Net, key: Key, o: Outcome): Net
    requires key in s.pending
  {
    var r := s.pending[key];
    Resolve(s.(armed := s.armed - {r}, pending := s.pending - {key}), r, o)
  }

  function ResolveRawWaiter(s: Net): Net {
    if s.waiters == [] then s
    else
      var key, t := s.waiters[0], s.(waiters := s.waiters[1..]);
      if key !in s.pending then t else Settle(t, key, RawReply)
  }

  /** A message of a frame, after JSON parsing and shape checks. */
  datatype Message = MalformedMessage | ServerInitiated | Response(key: Key, reply: Reply)

  function OnMessage(s: Net, m: Message): Net {
    match m
    case MalformedMessage => ResolveRawWaiter(s)
    case ServerInitiated => s
    case Response(key, reply) => if key in s.pending then Settle(s, key, Replied(reply)) else ResolveRawWaiter(s)
  }

  /** All pending requests get the same outcome. */
  function SettleAll(s: Net, o: Outcome): Net {
    var rids := s.pending.Values;
    s.(armed := s.armed - rids, pending := map[],
       outcomes := s.outcomes + map r | r in rids - s.outcomes.Keys :: o,
       again := s.again || rids * s.outcomes.Keys != {})
  }

  function HandleClose(s: Net): Net {
    SettleAll(s.(crashEvents := s.crashEvents + 1), ConnectionLost).(waiters := [])
  }

  // ---- the transport --------------------------------------------------------------------------

  /** handleCrash: only a live connection can be lost. */
  function HandleCrash(s: Net): Net {
    if !s.connected then s else HandleClose(s.(connected := false, crashes := s.crashes + 1))
  }

  /** A write fails; EPIPE and EBADF count as a crash. */
  function WriteFails(s: Net, r: nat, brokenPipe: bool): Net {
    var t := if brokenPipe then HandleCrash(s) else s;
    t.(sends := t.sends[r := Rejected(brokenPipe)])
  }

  function WriteDone(s: Net, r: nat): Net { s.(sends := s.sends - {r}) }

  /** McpClient.close: pending requests are settled, raw waiters are not forgotten. */
  function Close(s: Net): Net { SettleAll(s, ClientClosed).(connected := false, closed := true) }

  function Teardown(s: Net): Net { s.(connected := false) }

  function Opened(s: Net): Net { if s.closed then s else s.(connected := true) }

  // ---- runs --------------------------------------------------------------------------------------

  datatype Event =
    | DoRequest | DoSendRaw | DoSendExpecting(key: Key)
    | Timer(r: nat) | SendRejected(r: nat) | Frame(messages: seq<Message>)
    | ConnectionEnds | BrokenWrite(r: nat, brokenPipe: bool) | GoodWrite(r: nat)
    | ClientClose | ReconnectStarts | ConnectionOpens

  function OnFrame(s: Net, ms: seq<Message>): Net
    decreases |ms|
  {
    if ms == [] then s else OnFrame(OnMessage(s, ms[0]), ms[1..])
  }

  function Step(s: Net, e: Event): Net
    requires Enabled(s, e)
  {
    match e
    case DoRequest => Request(s)
    case DoSendRaw => SendRaw(s)
    case DoSendExpecting(key) => SendExpecting(s, key)
    case Timer(r) => OnTimer(s, r)
    case SendRejected(r) => OnSendRejected(s, r)
    case Frame(ms) => OnFrame(s, ms)
    case ConnectionEnds => HandleCrash(s)
    case BrokenWrite(r, b) => WriteFails(s, r, b)
    case GoodWrite(r) => WriteDone(s, r)
    case ClientClose => Close(s)
    case ReconnectStarts => Teardown(s)
    case ConnectionOpens => Opened(s)
  }

  /** No pending request and no undelivered send outcome uses the key. */
  predicate Fresh(s: Net, key: Key) {
    key !in s.pending && forall r: nat :: r in s.sends && r < |s.reqs| ==> s.reqs[r].key != key
  }

  /** No write of a request that still waits is under way. */
  predicate NoOpenWrite(s: Net) {
    forall r: nat :: r in s.sends && r in s.armed ==> !s.sends[r].InFlight?
  }

  /** When an event can happen. Reconnects are not started while a waiting request is being written. */
  predicate Enabled(s: Net, e: Event) {
    match e
    case DoRequest => Fresh(s, Id(s.nextId))
    case DoSendRaw => Fresh(s, Raw(s.nextId))
    case DoSendExpecting(key) => Fresh(s, key)
    case Timer(r) => r in s.armed && r < |s.reqs|
    case SendRejected(r) => r in s.sends && r < |s.reqs| && s.sends[r].Rejected?
    case BrokenWrite(r, _) => r in s.sends && s.sends[r].InFlight?
    case GoodWrite(r) => r in s.sends && s.sends[r].InFlight?
    case ReconnectStarts => NoOpenWrite(s)
    case _ => true
  }

  ghost predicate ValidRun(s: Net, es: seq<Event>)
    decreases |es|
  {
    es == [] || (Enabled(s, es[0]) && ValidRun(Step(s, es[0]), es[1..]))
  }

  ghost function After(s: Net, es: seq<Event>): Net
    requires ValidRun(s, es)
    decreases |es|
  {
    if es == [] then s else After(Step(s, es[0]), es[1..])
  }

  // ---- what every reachable state satisfies -----------------------------------------------------------

  ghost predicate Distinct(ws: seq<Key>) {
    forall i, j :: 0 <= i < j < |ws| ==> ws[i] != ws[j]
  }

  /** Requests are unresolved exactly while they are pending with an armed timer. */
  ghost predicate Books(s: Net) {
    && (forall k :: k in s.pending ==> s.pending[k] < |s.reqs| && s.reqs[s.pending[k]].key == k)
    && (forall r: nat :: r in s.armed <==> r < |s.reqs| && s.reqs[r].key in s.pending && s.pending[s.reqs[r].key] == r)
    && (forall r: nat :: r in s.outcomes <==> r < |s.reqs| && r !in s.armed)
    && !s.again
  }

  /** Every pending raw request is queued, once; queued keys are raw keys already issued. */
  ghost predicate Queue(s: Net) {
    && Distinct(s.waiters)
    && (forall i :: 0 <= i < |s.waiters| ==> s.waiters[i].Raw? && s.waiters[i].n < s.nextId)
    && (forall k :: k in s.pending && s.pending[k] < |s.reqs| && s.reqs[s.pending[k]].anyFrame ==> k in s.waiters)
  }

  /** Undelivered send outcomes can only reach their own request, and a write that still matters
      goes to a live connection. */
  ghost predicate Sends(s: Net) {
    && (forall r: nat :: r in s.sends ==> r < |s.reqs|)
    && (forall r: nat :: r in s.sends && s.reqs[r].key in s.pending ==> s.pending[s.reqs[r].key] == r)
    && (forall r: nat :: r in s.sends && r in s.armed && s.sends[r].InFlight? ==> s.connected)
    && (forall r: nat :: r in s.sends && r in s.armed && s.sends[r].Rejected? ==> !s.sends[r].crash)
  }

  ghost predicate Inv(s: Net) {
    Books(s) && Queue(s) && Sends(s) && s.crashEvents == s.crashes && (s.closed ==> !s.connected)
  }

  lemma StartInv()
    ensures Inv(START)
  {
  }

  lemma DispatchBooks(s: Net, key: Key, anyFrame: bool)
    requires Books(s) && Fresh(s, key)
    ensures Books(Dispatch(s, key, anyFrame))
  {
  }

  lemma DispatchSends(s: Net, key: Key, anyFrame: bool)
    requires Books(s) && Sends(s) && Fresh(s, key)
    ensures Sends(Dispatch(s, key, anyFrame))
  {
  }

  lemma DispatchQueue(s: Net, key: Key, anyFrame: bool)
    requires Books(s) && Queue(s) && (anyFrame ==> key in s.waiters)
    ensures Queue(Dispatch(s, key, anyFrame))
  {
    var t := Dispatch(s, key, anyFrame);
    forall k | k in t.pending && k != key ensures t.reqs[t.pending[k]] == s.reqs[s.pending[k]] { }
  }

  lemma DispatchInv(s: Net, key: Key, anyFrame: bool)
    requires Inv(s) && Fresh(s, key) && (anyFrame ==> key in s.waiters)
    ensures Inv(Dispatch(s, key, anyFrame))
  {
    DispatchBooks(s, key, anyFrame);
    DispatchSends(s, key, anyFrame);
    DispatchQueue(s, key, anyFrame);
  }

  lemma SettleInv(s: Net, key: Key, o: Outcome)
    requires Inv(s) && key in s.pending
    ensures Inv(Settle(s, key, o))
  {
  }

  lemma {:induction false} RemoveFirstGood(ws: seq<Key>, k: Key)
    requires Distinct(ws)
    ensures var r := RemoveFirst(ws, k); Distinct(r) && forall x :: x in r <==> x in ws && x != k
  {
    if ws != [] {
      RemoveFirstGood(ws[1..], k);
      assert ws == [ws[0]] + ws[1..];
      var tail := RemoveFirst(ws[1..], k);
      forall j | 0 <= j < |tail| ensures tail[j] != ws[0] { assert tail[j] in tail; }
      forall j | 0 <= j < |ws| - 1 ensures ws[1..][j] != ws[0] { }
    }
  }

  lemma TimerInv(s: Net, r: nat)
    requires Inv(s) && r in s.armed
    ensures Inv(OnTimer(s, r))
  {
    RemoveFirstGood(s.waiters, s.reqs[r].key);
    var t := OnTimer(s, r);
    forall i | 0 <= i < |t.waiters| ensures t.waiters[i] in s.waiters { assert t.waiters[i] in t.waiters; }
  }

  /** A queued key that is not pending can be dropped. */
  lemma DropWaiter(s: Net)
    requires Inv(s) && s.waiters != [] && s.waiters[0] !in s.pending
    ensures Inv(s.(waiters := s.waiters[1..]))
  {
    var t := s.(waiters := s.waiters[1..]);
    assert s.waiters == [s.waiters[0]] + t.waiters;
  }

  lemma RawWaiterInv(s: Net)
    requires Inv(s)
    ensures Inv(ResolveRawWaiter(s))
  {
    if s.waiters != [] {
      var key := s.waiters[0];
      if key in s.pending {
        SettleInv(s, key, RawReply);
        var t := Settle(s, key, RawReply);
        DropWaiter(t);
        assert t.(waiters := t.waiters[1..]) == ResolveRawWaiter(s);
      } else {
        DropWaiter(s);
      }
    }
  }

  lemma SettleAllInv(s: Net, o: Outcome)
    requires Books(s)
    ensures Books(SettleAll(s, o)) && SettleAll(s, o).armed == {}
  {
    forall r | r in s.armed ensures r in s.pending.Values {
      assert s.pending[s.reqs[r].key] == r;
    }
    assert s.pending.Values * s.outcomes.Keys == {};
  }

  /** With nothing pending, only the books and the counters matter. */
  lemma QuietInv(s: Net)
    requires Books(s) && s.pending == map[] && Distinct(s.waiters)
    requires forall i :: 0 <= i < |s.waiters| ==> s.waiters[i].Raw? && s.waiters[i].n < s.nextId
    requires forall r: nat :: r in s.sends ==> r < |s.reqs|
    requires s.crashEvents == s.crashes && (s.closed ==> !s.connected)
    ensures Inv(s)
  {
  }

  lemma BooksIgnore(s: Net, t: Net)
    requires Books(s)
    requires t.reqs == s.reqs && t.pending == s.pending && t.armed == s.armed && t.outcomes == s.outcomes
      && t.again == s.again
    ensures Books(t)
  {
  }

  lemma CrashInv(s: Net)
    requires Inv(s)
    ensures Inv(HandleCrash(s)) && (s.connected ==> HandleCrash(s).armed == {})
  {
    if s.connected {
      var t := s.(connected := false, crashes := s.crashes + 1, crashEvents := s.crashEvents + 1);
      BooksIgnore(s, t);
      SettleAllInv(t, ConnectionLost);
      BooksIgnore(SettleAll(t, ConnectionLost), HandleCrash(s));
      QuietInv(HandleCrash(s));
    }
  }

  lemma CloseInv(s: Net)
    requires Inv(s)
    ensures Inv(Close(s))
  {
    SettleAllInv(s, ClientClosed);
    BooksIgnore(SettleAll(s, ClientClosed), Close(s));
    QuietInv(Close(s));
  }

  lemma BrokenWriteInv(s: Net, r: nat, brokenPipe: bool)
    requires Inv(s) && r in s.sends && s.sends[r].InFlight?
    ensures Inv(WriteFails(s, r, brokenPipe))
  {
    if brokenPipe {
      CrashInv(s);
    }
    var t := if brokenPipe then HandleCrash(s) else s;
    BooksIgnore(t, WriteFails(s, r, brokenPipe));
  }

  lemma ForgetSend(s: Net, r: nat)
    requires Inv(s)
    ensures Inv(s.(sends := s.sends - {r}))
  {
    BooksIgnore(s, s.(sends := s.sends - {r}));
  }

  lemma RejectedInv(s: Net, r: nat)
    requires Inv(s) && r in s.sends && s.sends[r].Rejected?
    ensures Inv(OnSendRejected(s, r))
  {
    var key, t := s.reqs[r].key, s.(sends := s.sends - {r});
    ForgetSend(s, r);
    if key in s.pending {
      SettleInv(t, key, SendFailed(false));
      assert OnSendRejected(s, r) == Settle(t, key, SendFailed(false));
    }
  }

  lemma TransportInv(s: Net)
    requires Inv(s)
    ensures NoOpenWrite(s) ==> Inv(Teardown(s))
    ensures Inv(Opened(s))
  {
    BooksIgnore(s, Teardown(s));
    BooksIgnore(s, Opened(s));
  }

  /** Issuing an id, and queueing a raw key under it, keep the books. */
  lemma IssueInv(s: Net)
    requires Inv(s)
    ensures Inv(s.(nextId := s.nextId + 1))
    ensures Inv(s.(nextId := s.nextId + 1, waiters := s.waiters + [Raw(s.nextId)]))
  {
    var t := s.(nextId := s.nextId + 1);
    BooksIgnore(s, t);
    var u := t.(waiters := s.waiters + [Raw(s.nextId)]);
    BooksIgnore(s, u);
    assert Queue(u) by {
      forall k | k in s.waiters ensures k in u.waiters { }
    }
  }

  lemma RequestInv(s: Net)
    requires Inv(s) && Fresh(s, Id(s.nextId))
    ensures Inv(Request(s))
  {
    IssueInv(s);
    DispatchInv(s.(nextId := s.nextId + 1), Id(s.nextId), false);
  }

  lemma SendRawInv(s: Net)
    requires Inv(s) && Fresh(s, Raw(s.nextId))
    ensures Inv(SendRaw(s))
  {
    IssueInv(s);
    var key := Raw(s.nextId);
    var t := s.(nextId := s.nextId + 1, waiters := s.waiters + [key]);
    assert key in t.waiters;
    DispatchInv(t, key, true);
  }

  lemma MessageInv(s: Net, m: Message)
    requires Inv(s)
    ensures Inv(OnMessage(s, m))
  {
    if m.Response? && m.key in s.pending {
      SettleInv(s, m.key, Replied(m.reply));
    } else {
      RawWaiterInv(s);
    }
  }

  lemma {:induction false} FrameInv(s: Net, ms: seq<Message>)
    requires Inv(s)
    ensures Inv(OnFrame(s, ms))
    decreases |ms|
  {
    if ms != [] {
      MessageInv(s, ms[0]);
      FrameInv(OnMessage(s, ms[0]), ms[1..]);
    }
  }

  lemma StepInv(s: Net, e: Event)
    requires Inv(s) && Enabled(s, e)
    ensures Inv(Step(s, e))
  {
    match e
    case DoRequest => RequestInv(s);
    case DoSendRaw => SendRawInv(s);
    case DoSendExpecting(key) => DispatchInv(s, key, false);
    case Timer(r) => TimerInv(s, r);
    case SendRejected(r) => RejectedInv(s, r);
    case Frame(ms) => FrameInv(s, ms);
    case ConnectionEnds => CrashInv(s);
    case BrokenWrite(r, b) => BrokenWriteInv(s, r, b);
    case GoodWrite(r) => ForgetSend(s, r);
    case ClientClose => CloseInv(s);
    case ReconnectStarts => TransportInv(s);
    case ConnectionOpens => TransportInv(s);
  }

  lemma {:induction false} RunInv(s: Net, es: seq<Event>)
    requires Inv(s) && ValidRun(s, es)
    ensures Inv(After(s, es))
    decreases |es|
  {
    if es != [] {
      StepInv(s, es[0]);
      RunInv(Step(s, es[0]), es[1..]);
    }
  }

  // ---- the theorems ------------------------------------------------------------------------------

  /** The request waits: its key is in `pending`, for it, and its timer is armed. */
  ghost predicate Waits(s: Net, r: nat) {
    r < |s.reqs| && r in s.armed && s.reqs[r].key in s.pending && s.pending[s.reqs[r].key] == r
  }

  /** Over every interleaving each request resolves at most once, and is unresolved exactly while
      it waits; a waiting raw request is queued exactly once. */
  lemma ResolvesAtMostOnce(es: seq<Event>)
    requires ValidRun(START, es)
    ensures var s := After(START, es);
      && !s.again
      && (forall r: nat :: r < |s.reqs| ==> (r !in s.outcomes <==> Waits(s, r)))
      && Distinct(s.waiters)
      && (forall r: nat :: Waits(s, r) && s.reqs[r].anyFrame ==> s.reqs[r].key in s.waiters)
  {
    StartInv();
    RunInv(START, es);
  }

  /** No request waits for ever: the armed timer resolves it. */
  lemma TimerResolves(s: Net, r: nat)
    requires Inv(s) && r < |s.reqs| && r !in s.outcomes
    ensures Enabled(s, Timer(r)) && r in Step(s, Timer(r)).outcomes
  {
  }

  // ---- what resolves a request, and with what ------------------------------------------------------

  /** A response resolves the request it is addressed to, with its reply, and touches nothing else. */
  lemma ResponseResolves(s: Net, key: Key, reply: Reply)
    requires Books(s) && key in s.pending
    ensures var r := s.pending[key];
      OnMessage(s, Response(key, reply)) ==
        s.(outcomes := s.outcomes[r := Replied(reply)], pending := s.pending - {key}, armed := s.armed - {r})
    ensures OnMessage(s, ServerInitiated) == s
  {
  }

  /** Does the message speak of the request: is it a response to its key, or one to nobody while its key
      heads the queue? */
  ghost predicate Addressed(s: Net, m: Message, r: nat)
    requires r < |s.reqs|
  {
    || (m.Response? && m.key == s.reqs[r].key)
    || ((m.MalformedMessage? || (m.Response? && m.key !in s.pending)) && s.waiters != []
        && s.waiters[0] == s.reqs[r].key)
  }

  /** A message resolves a waiting request exactly if it speaks of it. */
  lemma MessageResolvesIff(s: Net, m: Message, r: nat)
    requires Inv(s) && Waits(s, r)
    ensures r in OnMessage(s, m).outcomes <==> Addressed(s, m, r)
    ensures r in OnMessage(s, m).outcomes ==>
      OnMessage(s, m).outcomes[r] == (if m.Response? && m.key in s.pending then Replied(m.reply) else RawReply)
  {
    assert r !in s.outcomes;
    if s.waiters != [] && s.waiters[0] in s.pending {
      assert s.pending[s.waiters[0]] == r <==> s.waiters[0] == s.reqs[r].key;
    }
  }

  /** The events other than frames that resolve a waiting request, exactly, and their outcomes. */
  ghost predicate Resolves(s: Net, e: Event, r: nat, o: Outcome)
    requires r < |s.reqs|
  {
    match e
    case Timer(q) => q == r && o == TimedOut(!IsRaw(s.reqs[r].key))
    case SendRejected(q) => q == r && r in s.sends && s.sends[r].Rejected? && o == SendFailed(s.sends[r].crash)
    case ConnectionEnds => s.connected && o == ConnectionLost
    case BrokenWrite(_, brokenPipe) => brokenPipe && s.connected && o == ConnectionLost
    case ClientClose => o == ClientClosed
    case _ => false
  }

  lemma StepResolvesIff(s: Net, e: Event, r: nat, o: Outcome)
    requires Inv(s) && Enabled(s, e) && Waits(s, r) && !e.Frame?
    ensures (r in Step(s, e).outcomes && Step(s, e).outcomes[r] == o) <==> Resolves(s, e, r, o)
  {
    assert r !in s.outcomes && s.pending[s.reqs[r].key] == r && r in s.pending.Values;
  }

  /** What may have given request r the outcome o. */
  ghost predicate Causes(s: Net, e: Event, r: nat, o: Outcome)
    requires r < |s.reqs|
  {
    match o
    case Replied(reply) => e.Frame? && Response(s.reqs[r].key, reply) in e.messages
    case RawReply => e.Frame? && s.reqs[r].key in s.waiters && exists m :: m in e.messages && !m.ServerInitiated?
    case _ => Resolves(s, e, r, o)
  }

  /** What a message, or a frame, leaves as it is. */
  ghost predicate Keeps(s: Net, t: Net) {
    && t.reqs == s.reqs && (forall k :: k in t.waiters ==> k in s.waiters)
    && (forall r :: r in s.outcomes ==> r in t.outcomes && t.outcomes[r] == s.outcomes[r])
  }

  lemma SettleKeeps(s: Net, key: Key, o: Outcome)
    requires key in s.pending
    ensures Keeps(s, Settle(s, key, o))
  {
  }

  lemma RawWaiterKeeps(s: Net)
    ensures Keeps(s, ResolveRawWaiter(s))
  {
    if s.waiters != [] {
      var t := s.(waiters := s.waiters[1..]);
      assert Keeps(s, t);
      if s.waiters[0] in s.pending {
        SettleKeeps(t, s.waiters[0], RawReply);
      }
    }
  }

  lemma MessageKeeps(s: Net, m: Message)
    ensures Keeps(s, OnMessage(s, m))
  {
    RawWaiterKeeps(s);
    if m.Response? && m.key in s.pending {
      SettleKeeps(s, m.key, Replied(m.reply));
    }
  }

  /** Request r got its outcome between s and t, for a reason among the messages. */
  ghost predicate Answered(s: Net, ms: seq<Message>, t: Net, r: nat) {
    && r < |s.reqs| && r in t.outcomes
    && if r in s.outcomes then t.outcomes[r] == s.outcomes[r] else Causes(s, Frame(ms), r, t.outcomes[r])
  }

  lemma MessageCauses(s: Net, m: Message, r: nat)
    requires Inv(s) && r in OnMessage(s, m).outcomes
    ensures Answered(s, [m], OnMessage(s, m), r)
  {
    MessageKeeps(s, m);
    MessageInv(s, m);
    if r !in s.outcomes {
      assert Waits(s, r);
      MessageResolvesIff(s, m, r);
      assert m in [m];
    }
  }

  lemma AnsweredLater(s: Net, m: Message, ms: seq<Message>, t: Net, r: nat)
    requires Keeps(s, OnMessage(s, m)) && r < |s.reqs| && r !in OnMessage(s, m).outcomes
    requires ms != [] && ms[0] == m && Answered(OnMessage(s, m), ms[1..], t, r)
    ensures Answered(s, ms, t, r)
  {
    var rest := ms[1..];
    assert forall x :: x in rest ==> x in ms;
  }

  lemma AnsweredNow(s: Net, m: Message, ms: seq<Message>, t: Net, r: nat)
    requires ms != [] && ms[0] == m && Answered(s, [m], OnMessage(s, m), r) && Keeps(OnMessage(s, m), t)
    ensures Answered(s, ms, t, r)
  {
    assert forall x :: x in [m] ==> x in ms;
  }

  lemma {:induction false} FrameKeeps(s: Net, ms: seq<Message>)
    ensures Keeps(s, OnFrame(s, ms))
    decreases |ms|
  {
    if ms != [] {
      MessageKeeps(s, ms[0]);
      FrameKeeps(OnMessage(s, ms[0]), ms[1..]);
    }
  }

  lemma {:induction false} FrameCauses(s: Net, ms: seq<Message>, r: nat)
    requires Inv(s) && r in OnFrame(s, ms).outcomes
    ensures Answered(s, ms, OnFrame(s, ms), r)
    decreases |ms|
  {
    if ms != [] {
      var next := OnMessage(s, ms[0]);
      MessageInv(s, ms[0]);
      MessageKeeps(s, ms[0]);
      FrameKeeps(next, ms[1..]);
      if r in next.outcomes {
        MessageCauses(s, ms[0], r);
        AnsweredNow(s, ms[0], ms, OnFrame(s, ms), r);
      } else {
        FrameCauses(next, ms[1..], r);
        AnsweredLater(s, ms[0], ms, OnFrame(s, ms), r);
      }
    }
  }

  lemma StepKeepsOutcomes(s: Net, e: Event, r: nat)
    requires Enabled(s, e) && r in s.outcomes
    ensures r in Step(s, e).outcomes && Step(s, e).outcomes[r] == s.outcomes[r]
  {
    if e.Frame? {
      FrameKeeps(s, e.messages);
    }
  }

  /** Each step gives an outcome only to requests it concerns, and the outcome says what happened. */
  lemma StepCauses(s: Net, e: Event, r: nat)
    requires Inv(s) && Enabled(s, e) && r !in s.outcomes && r in Step(s, e).outcomes
    ensures r < |s.reqs| && Waits(s, r) && Causes(s, e, r, Step(s, e).outcomes[r])
  {
    StepInv(s, e);
    if e.Frame? {
      FrameCauses(s, e.messages, r);
    } else {
      NotNew(s, e, r);
      StepResolvesIff(s, e, r, Step(s, e).outcomes[r]);
    }
  }

  lemma NotNew(s: Net, e: Event, r: nat)
    requires Inv(s) && Enabled(s, e) && !e.Frame? && r in Step(s, e).outcomes
    ensures r < |s.reqs|
  {
    if e.DoRequest? || e.DoSendRaw? || e.DoSendExpecting? {
      assert r in s.outcomes;
    } else {
      StepInv(s, e);
    }
  }

  /** Somewhere in the run an event gave request r the outcome o. */
  ghost predicate CausedIn(s: Net, es: seq<Event>, r: nat, o: Outcome)
    requires ValidRun(s, es)
    decreases |es|
  {
    && es != []
    && (|| (r < |s.reqs| && Waits(s, r) && Causes(s, es[0], r, o))
        || CausedIn(Step(s, es[0]), es[1..], r, o))
  }

  /** Over every run, each outcome has its cause: a reply is that of a response to the request's own key,
      a time-out that of its own timer, a failed send its own, and so on. */
  lemma {:induction false} OutcomesCaused(s: Net, es: seq<Event>, r: nat)
    requires Inv(s) && ValidRun(s, es) && r !in s.outcomes && r in After(s, es).outcomes
    ensures CausedIn(s, es, r, After(s, es).outcomes[r])
    decreases |es|
  {
    if es != [] {
      var next := Step(s, es[0]);
      StepInv(s, es[0]);
      if r in next.outcomes {
        StepCauses(s, es[0], r);
        RunKeepsOutcomes(next, es[1..], r);
      } else {
        OutcomesCaused(next, es[1..], r);
      }
    }
  }

  lemma {:induction false} RunKeepsOutcomes(s: Net, es: seq<Event>, r: nat)
    requires ValidRun(s, es) && r in s.outcomes
    ensures r in After(s, es).outcomes && After(s, es).outcomes[r] == s.outcomes[r]
    decreases |es|
  {
    if es != [] {
      StepKeepsOutcomes(s, es[0], r);
      RunKeepsOutcomes(Step(s, es[0]), es[1..], r);
    }
  }

  // ---- which requests a raw frame can answer -------------------------------------------------------

  /** The request has been resolved otherwise, or waits with a key that is not queued. */
  ghost predicate NotQueued(s: Net, r: nat) {
    if r in s.outcomes then s.outcomes[r] != RawReply else Waits(s, r) && s.reqs[r].key !in s.waiters
  }

  lemma WaitersGrowFresh(s: Net, e: Event, k: Key)
    requires Inv(s) && Enabled(s, e) && k in s.pending && k !in s.waiters
    ensures k !in Step(s, e).waiters
  {
    match e
    case Frame(ms) => FrameKeeps(s, ms);
    case Timer(r) => RemoveFirstGood(s.waiters, s.reqs[r].key);
    case _ =>
  }

  lemma StepNotQueued(s: Net, e: Event, r: nat)
    requires Inv(s) && Enabled(s, e) && NotQueued(s, r)
    ensures NotQueued(Step(s, e), r)
  {
    var t := Step(s, e);
    StepInv(s, e);
    if r in s.outcomes {
      StepKeepsOutcomes(s, e, r);
    } else if r in t.outcomes {
      StepCauses(s, e, r);
    } else {
      WaitersGrowFresh(s, e, s.reqs[r].key);
      StepKeepsReqs(s, e, r);
    }
  }

  lemma StepKeepsReqs(s: Net, e: Event, r: nat)
    requires Enabled(s, e) && r < |s.reqs|
    ensures r < |Step(s, e).reqs| && Step(s, e).reqs[r] == s.reqs[r]
  {
    if e.Frame? {
      FrameKeeps(s, e.messages);
    }
  }

  lemma {:induction false} RunNotQueued(s: Net, es: seq<Event>, r: nat)
    requires Inv(s) && ValidRun(s, es) && NotQueued(s, r)
    ensures NotQueued(After(s, es), r)
    decreases |es|
  {
    if es != [] {
      StepInv(s, es[0]);
      StepNotQueued(s, es[0], r);
      RunNotQueued(Step(s, es[0]), es[1..], r);
    }
  }

  function Malformed(n: nat): seq<Message> { seq(n, _ => MalformedMessage) }

  /** Malformed messages work through the queue. */
  lemma {:induction false} QueueReached(s: Net, r: nat, k: nat)
    requires Inv(s) && Waits(s, r) && k < |s.waiters| && s.waiters[k] == s.reqs[r].key
    ensures var t := OnFrame(s, Malformed(k + 1)); r in t.outcomes && t.outcomes[r] == RawReply
    decreases k
  {
    var ms, next := Malformed(k + 1), OnMessage(s, MalformedMessage);
    assert ms[0] == MalformedMessage && ms[1..] == Malformed(k);
    MessageResolvesIff(s, MalformedMessage, r);
    MessageKeeps(s, MalformedMessage);
    MessageInv(s, MalformedMessage);
    if k == 0 {
      FrameKeeps(next, Malformed(0));
    } else {
      assert s.waiters[0] != s.waiters[k];
      assert next.waiters == s.waiters[1..] && next.waiters[k - 1] == s.reqs[r].key;
      QueueReached(next, r, k - 1);
    }
  }

  /** A waiting request can be answered by a raw frame exactly if its key is queued. A raw request's is; a
      request that expects an id is reached only if the id is a raw key left stale in the queue. */
  lemma RawReplyIff(s: Net, r: nat)
    requires Inv(s) && Waits(s, r)
    ensures (exists es :: ValidRun(s, es) && r in After(s, es).outcomes && After(s, es).outcomes[r] == RawReply) <==>
      s.reqs[r].key in s.waiters
    ensures s.reqs[r].anyFrame ==> s.reqs[r].key in s.waiters
  {
    if s.reqs[r].key in s.waiters {
      var k :| 0 <= k < |s.waiters| && s.waiters[k] == s.reqs[r].key;
      QueueReached(s, r, k);
      OneStep(s, Frame(Malformed(k + 1)));
      var es := [Frame(Malformed(k + 1))];
      assert After(s, es).outcomes[r] == RawReply;
    } else {
      forall es | ValidRun(s, es) && r in After(s, es).outcomes ensures After(s, es).outcomes[r] != RawReply {
        RunNotQueued(s, es, r);
      }
    }
  }

  /** The client's crash counter is the transport's, in every reachable state. */
  lemma CrashCountersAgree(es: seq<Event>)
    requires ValidRun(START, es)
    ensures After(START, es).crashEvents == After(START, es).crashes
  {
    StartInv();
    RunInv(START, es);
  }

  // ---- when a reconnect is harmless ----------------------------------------------------------------

  /** The counters agree after every continuation. */
  ghost predicate CountersStay(s: Net) {
    forall es :: ValidRun(s, es) ==> After(s, es).crashEvents == After(s, es).crashes
  }

  /** A write that is under way when the connection is torn down can fail with a broken pipe, which
      then counts for the client only. */
  lemma OpenWriteDrifts(s: Net, r: nat)
    requires Inv(s) && r in s.armed && r in s.sends && s.sends[r].InFlight?
    ensures var t, es := Teardown(s), [BrokenWrite(r, true), SendRejected(r)];
      ValidRun(t, es) && After(t, es).crashEvents == After(t, es).crashes + 1
  {
    var t, es := Teardown(s), [BrokenWrite(r, true), SendRejected(r)];
    var u := Step(t, es[0]);
    assert u == t.(sends := t.sends[r := Rejected(true)]);
    assert s.reqs[r].key in u.pending;
    assert es[1..] == [SendRejected(r)] && es[1..][1..] == [];
    assert ValidRun(Step(u, es[1]), []);
    assert After(u, es[1..]) == Step(u, es[1]);
  }

  /** A reconnect is harmless if and only if no waiting request is being written. */
  lemma ReconnectHarmlessIff(s: Net)
    requires Inv(s)
    ensures CountersStay(Teardown(s)) <==> NoOpenWrite(s)
  {
    if NoOpenWrite(s) {
      TransportInv(s);
      forall es | ValidRun(Teardown(s), es)
        ensures After(Teardown(s), es).crashEvents == After(Teardown(s), es).crashes
      {
        RunInv(Teardown(s), es);
      }
    } else {
      var r: nat :| r in s.sends && r in s.armed && s.sends[r].InFlight?;
      OpenWriteDrifts(s, r);
    }
  }

  /** For example, right after the first request was issued: the write fails on the torn-down
      connection, which counts for the client only. */
  lemma ReconnectWhilePending()
    ensures var s := Teardown(Request(Opened(START)));
      var t := OnSendRejected(WriteFails(s, 0, true), 0);
      s.pending != map[] && t.crashEvents == 1 && t.crashes == 0
  {
    var s := Teardown(Request(Opened(START)));
    assert s.pending == map[Id(1) := 0] && s.reqs == [Req(Id(1), false)];
    var w := WriteFails(s, 0, true);
    assert w.pending == s.pending && w.sends[0] == Rejected(true) && w.crashes == 0;
    assert Id(1) in s.pending;
  }

  // ---- when a key may be used again -------------------------------------------------------------------

  ghost predicate UndeliveredUnder(s: Net, key: Key) {
    exists r: nat :: r in s.sends && r < |s.reqs| && s.reqs[r].key == key
  }

  ghost predicate BooksStay(s: Net) { forall es :: ValidRun(s, es) ==> Books(After(s, es)) }

  /** Taking a pending key breaks the books at once. */
  lemma PendingKeyBreaks(s: Net, key: Key, anyFrame: bool)
    requires Books(s)
    ensures Books(Dispatch(s, key, anyFrame)) <==> key !in s.pending
  {
    var t := Dispatch(s, key, anyFrame);
    if key in s.pending {
      var r := s.pending[key];
      assert r in s.armed && t.reqs[r] == s.reqs[r];
      assert r in t.armed && t.pending[t.reqs[r].key] != r;
    }
  }

  /** The request is neither resolved nor can anything resolve it any more. */
  predicate Stranded(s: Net, r: nat) { r < |s.reqs| && r !in s.outcomes && r !in s.armed }

  /** The failed send of an earlier request takes the entry and the timer of the new one. */
  lemma EarlierSendStrands(s: Net, key: Key, r: nat)
    requires Inv(s) && r in s.sends && r < |s.reqs| && s.reqs[r].key == key
    ensures var t := SendExpecting(s, key);
      exists es :: ValidRun(t, es) && Stranded(After(t, es), |s.reqs|) && !Books(After(t, es))
  {
    var t := SendExpecting(s, key);
    assert t.sends[r] == s.sends[r] && t.reqs[r] == s.reqs[r];
    var last := SendRejected(r);
    if s.sends[r].Rejected? {
      OneStep(t, last);
      RejectedStrands(t, r);
      assert ValidRun(t, [last]) && Stranded(After(t, [last]), |s.reqs|) && !Books(After(t, [last]));
    } else {
      var first := BrokenWrite(r, false);
      var u := Step(t, first);
      TwoSteps(t, first, last);
      RejectedStrands(u, r);
      assert ValidRun(t, [first, last]) && Stranded(After(t, [first, last]), |s.reqs|)
        && !Books(After(t, [first, last]));
    }
  }

  lemma RejectedStrands(t: Net, r: nat)
    requires r < |t.reqs| && r in t.sends && t.sends[r].Rejected? && t.reqs[r].key in t.pending
    requires var n := t.pending[t.reqs[r].key]; n < |t.reqs| && n != r && n !in t.outcomes
    ensures Stranded(OnSendRejected(t, r), t.pending[t.reqs[r].key]) && !Books(OnSendRejected(t, r))
  {
    var n, u := t.pending[t.reqs[r].key], OnSendRejected(t, r);
    assert n !in u.outcomes && n !in u.armed;
  }

  lemma OneStep(s: Net, e: Event)
    requires Enabled(s, e)
    ensures ValidRun(s, [e]) && After(s, [e]) == Step(s, e)
  {
    assert [e][1..] == [];
    assert ValidRun(Step(s, e), []);
  }

  lemma TwoSteps(s: Net, e: Event, f: Event)
    requires Enabled(s, e) && Enabled(Step(s, e), f)
    ensures ValidRun(s, [e, f]) && After(s, [e, f]) == Step(Step(s, e), f)
  {
    assert [e, f][1..] == [f];
    OneStep(Step(s, e), f);
  }

  /** A key may be used if and only if nothing pending and no undelivered send outcome uses it: then,
      and only then, the books stay right over every continuation. */
  lemma KeyUsableIff(s: Net, key: Key)
    requires Inv(s)
    ensures BooksStay(SendExpecting(s, key)) <==> Fresh(s, key)
  {
    var t := SendExpecting(s, key);
    if Fresh(s, key) {
      DispatchInv(s, key, false);
      forall es | ValidRun(t, es) ensures Books(After(t, es)) { RunInv(t, es); }
    } else if key in s.pending {
      PendingKeyBreaks(s, key, false);
      assert ValidRun(t, []) && After(t, []) == t;
    } else {
      var r: nat :| r in s.sends && r < |s.reqs| && s.reqs[r].key == key;
      EarlierSendStrands(s, key, r);
    }
  }

  /** For example, two requests under one key right after the start: the failed send of the first
      takes the entry and the timer of the second, which is never resolved. */
  lemma SharedKeyLosesRequest(key: Key)
    ensures var s := SendExpecting(SendExpecting(Opened(START), key), key);
      var t := OnSendRejected(WriteFails(s, 0, false), 0);
      1 < |t.reqs| && 1 !in t.outcomes && 1 !in t.armed && t.pending == map[]
  {
    var s := SendExpecting(SendExpecting(Opened(START), key), key);
    assert s.pending == map[key := 1] && s.reqs[0].key == key;
  }

  // ---- what survives a key used twice -------------------------------------------------------------------

  /** Weaker than Books: a request may be shadowed by a later one under its key, but it keeps its timer. */
  ghost predicate Timed(s: Net) {
    && (forall k ::
        k in s.pending ==> s.pending[k] < |s.reqs| && s.reqs[s.pending[k]].key == k && s.pending[k] in s.armed)
    && (forall r: nat :: r in s.outcomes <==> r < |s.reqs| && r !in s.armed)
    && (forall r: nat :: r in s.armed ==> r < |s.reqs|)
    && (forall r: nat ::
        r in s.sends ==> r < |s.reqs| && (s.reqs[r].key in s.pending ==> s.pending[s.reqs[r].key] == r))
    && !s.again
  }

  lemma DispatchTimed(s: Net, key: Key, anyFrame: bool)
    requires Timed(s) && !UndeliveredUnder(s, key)
    ensures Timed(Dispatch(s, key, anyFrame))
  {
    var t := Dispatch(s, key, anyFrame);
    forall r: nat | r in t.sends && t.reqs[r].key in t.pending ensures t.pending[t.reqs[r].key] == r {
      if r < |s.reqs| {
        assert t.reqs[r] == s.reqs[r] && r in s.sends;
      }
    }
  }

  lemma SettleTimed(s: Net, key: Key, o: Outcome)
    requires Timed(s) && key in s.pending
    ensures Timed(Settle(s, key, o))
  {
  }

  lemma SettleAllTimed(s: Net, o: Outcome)
    requires Timed(s)
    ensures Timed(SettleAll(s, o))
  {
    forall r | r in s.pending.Values ensures r in s.armed {
      var k :| k in s.pending && s.pending[k] == r;
    }
    assert s.pending.Values * s.outcomes.Keys == {};
  }

  lemma TimedIgnores(s: Net, t: Net)
    requires Timed(s)
    requires t.reqs == s.reqs && t.pending == s.pending && t.armed == s.armed && t.outcomes == s.outcomes
      && t.again == s.again
    requires forall r: nat :: r in t.sends ==> r in s.sends
    ensures Timed(t)
  {
  }

  lemma RejectedTimed(s: Net, r: nat)
    requires Timed(s) && r in s.sends && s.sends[r].Rejected?
    ensures Timed(OnSendRejected(s, r))
  {
    var key, t := s.reqs[r].key, s.(sends := s.sends - {r}, crashEvents := OnSendRejected(s, r).crashEvents);
    TimedIgnores(s, t);
    if key in s.pending {
      SettleTimed(t, key, SendFailed(s.sends[r].crash));
      assert OnSendRejected(s, r) == Settle(t, key, SendFailed(s.sends[r].crash));
    }
  }

  lemma TimerTimed(s: Net, r: nat)
    requires Timed(s) && r in s.armed
    ensures Timed(OnTimer(s, r))
  {
  }

  lemma RawWaiterTimed(s: Net)
    requires Timed(s)
    ensures Timed(ResolveRawWaiter(s))
  {
    if s.waiters != [] {
      var t := s.(waiters := s.waiters[1..]);
      TimedIgnores(s, t);
      if s.waiters[0] in s.pending {
        SettleTimed(t, s.waiters[0], RawReply);
      }
    }
  }

  lemma CrashTimed(s: Net)
    requires Timed(s)
    ensures Timed(HandleCrash(s)) && (forall r: nat :: r in s.sends <==> r in HandleCrash(s).sends)
  {
    if s.connected {
      var t := s.(connected := false, crashes := s.crashes + 1, crashEvents := s.crashEvents + 1);
      TimedIgnores(s, t);
      SettleAllTimed(t, ConnectionLost);
      TimedIgnores(SettleAll(t, ConnectionLost), HandleCrash(s));
    }
  }

  lemma BrokenWriteTimed(s: Net, r: nat, brokenPipe: bool)
    requires Timed(s) && r in s.sends
    ensures Timed(WriteFails(s, r, brokenPipe))
  {
    CrashTimed(s);
    TimedIgnores(if brokenPipe then HandleCrash(s) else s, WriteFails(s, r, brokenPipe));
  }

  lemma {:induction false} FrameTimed(s: Net, ms: seq<Message>)
    requires Timed(s)
    ensures Timed(OnFrame(s, ms))
    decreases |ms|
  {
    if ms != [] {
      if ms[0].Response? && ms[0].key in s.pending {
        SettleTimed(s, ms[0].key, Replied(ms[0].reply));
      } else {
        RawWaiterTimed(s);
      }
      FrameTimed(OnMessage(s, ms[0]), ms[1..]);
    }
  }

  lemma StepTimed(s: Net, e: Event)
    requires Timed(s) && Enabled(s, e)
    ensures Timed(Step(s, e))
  {
    match e
    case DoRequest =>
      var t := s.(nextId := s.nextId + 1);
      TimedIgnores(s, t);
      DispatchTimed(t, Id(s.nextId), false);
    case DoSendRaw =>
      var t := s.(nextId := s.nextId + 1, waiters := s.waiters + [Raw(s.nextId)]);
      TimedIgnores(s, t);
      DispatchTimed(t, Raw(s.nextId), true);
    case DoSendExpecting(key) => DispatchTimed(s, key, false);
    case Timer(r) => TimerTimed(s, r);
    case SendRejected(r) => RejectedTimed(s, r);
    case Frame(ms) => FrameTimed(s, ms);
    case ConnectionEnds => CrashTimed(s);
    case BrokenWrite(r, b) => BrokenWriteTimed(s, r, b);
    case GoodWrite(r) => TimedIgnores(s, WriteDone(s, r));
    case ClientClose =>
      SettleAllTimed(s, ClientClosed);
      TimedIgnores(SettleAll(s, ClientClosed), Close(s));
    case ReconnectStarts => TimedIgnores(s, Teardown(s));
    case ConnectionOpens => TimedIgnores(s, Opened(s));
  }

  lemma {:induction false} RunTimed(s: Net, es: seq<Event>)
    requires Timed(s) && ValidRun(s, es)
    ensures Timed(After(s, es))
    decreases |es|
  {
    if es != [] {
      StepTimed(s, es[0]);
      RunTimed(Step(s, es[0]), es[1..]);
    }
  }

  /** A request can be stranded, without outcome and without timer, if and only if it was dispatched
      under a key with an undelivered send outcome; a key that is merely pending costs no outcome. */
  lemma StrandedIff(s: Net, key: Key)
    requires Inv(s)
    ensures (exists es, r: nat :: ValidRun(SendExpecting(s, key), es) && Stranded(After(SendExpecting(s, key), es), r))
      <==> UndeliveredUnder(s, key)
  {
    var t := SendExpecting(s, key);
    if UndeliveredUnder(s, key) {
      var r: nat :| r in s.sends && r < |s.reqs| && s.reqs[r].key == key;
      EarlierSendStrands(s, key, r);
    } else {
      DispatchTimed(s, key, false);
      forall es, r: nat | ValidRun(t, es) ensures !Stranded(After(t, es), r) { RunTimed(t, es); }
    }
  }

  // ---- whom a raw frame reaches ---------------------------------------------------------------------------

  /** The keys of the waiting raw requests among the first n, oldest first. */
  function Queued(reqs: seq<Req>, armed: set<nat>, n: nat): seq<Key>
    requires n <= |reqs|
  {
    if n == 0 then []
    else Queued(reqs, armed, n - 1) + if reqs[n - 1].anyFrame && n - 1 in armed then [reqs[n - 1].key] else []
  }

  /** The queue is exactly the waiting raw requests, in the order they were sent. */
  ghost predicate InOrder(s: Net) { s.waiters == Queued(s.reqs, s.armed, |s.reqs|) }

  ghost predicate DistinctKeys(reqs: seq<Req>, armed: set<nat>) {
    forall q: nat, r: nat ::
      q in armed && r in armed && q < |reqs| && r < |reqs| && reqs[q].key == reqs[r].key ==> q == r
  }

  lemma {:induction false} RemoveSnoc(a: seq<Key>, x: Key, k: Key)
    ensures RemoveFirst(a + [x], k) == if k in a then RemoveFirst(a, k) + [x] else if x == k then a else a + [x]
  {
    if a == [] {
      assert a + [x] == [x] && [x][1..] == [];
    } else {
      assert (a + [x])[0] == a[0] && (a + [x])[1..] == a[1..] + [x];
      RemoveSnoc(a[1..], x, k);
      assert a == [a[0]] + a[1..];
    }
  }

  lemma {:induction false} RemoveAbsent(a: seq<Key>, k: Key)
    requires k !in a
    ensures RemoveFirst(a, k) == a
  {
    if a != [] {
      RemoveAbsent(a[1..], k);
    }
  }

  lemma {:induction false} QueuedMember(reqs: seq<Req>, armed: set<nat>, n: nat, k: Key)
    requires n <= |reqs|
    ensures k in Queued(reqs, armed, n)
      <==> exists r: nat :: r < n && r in armed && reqs[r].anyFrame && reqs[r].key == k
  {
    if n > 0 {
      QueuedMember(reqs, armed, n - 1, k);
      var q := n - 1;
      assert k in Queued(reqs, armed, n) <==>
        k in Queued(reqs, armed, q) || (q in armed && reqs[q].anyFrame && reqs[q].key == k);
    }
  }

  lemma RemoveLater(a: seq<Key>, x: Key, k: Key)
    requires x != k || k !in a
    ensures RemoveFirst(a + [x], k) == if x == k then a else RemoveFirst(a, k) + [x]
    ensures k !in a ==> RemoveFirst(a, k) == a
  {
    RemoveSnoc(a, x, k);
    if k !in a {
      RemoveAbsent(a, k);
    }
  }

  lemma {:induction false} QueuedDrop(reqs: seq<Req>, armed: set<nat>, r: nat, n: nat)
    requires n <= |reqs| && r < |reqs| && r in armed && reqs[r].anyFrame && DistinctKeys(reqs, armed)
    ensures Queued(reqs, armed - {r}, n) == RemoveFirst(Queued(reqs, armed, n), reqs[r].key)
  {
    if n > 0 {
      var q, key, before := n - 1, reqs[r].key, Queued(reqs, armed, n - 1);
      QueuedDrop(reqs, armed, r, q);
      if q in armed && reqs[q].anyFrame {
        if q == r {
          QueuedMember(reqs, armed, q, key);
        }
        RemoveLater(before, reqs[q].key, key);
      } else {
        assert Queued(reqs, armed, n) == before && Queued(reqs, armed - {r}, n) == Queued(reqs, armed - {r}, q);
      }
    }
  }

  lemma {:induction false} QueuedSame(reqs: seq<Req>, armed: set<nat>, more: seq<Req>, other: set<nat>, n: nat)
    requires n <= |reqs| <= |more|
    requires forall r: nat :: r < n ==> reqs[r] == more[r] && (reqs[r].anyFrame ==> (r in armed <==> r in other))
    ensures Queued(reqs, armed, n) == Queued(more, other, n)
  {
    if n > 0 {
      QueuedSame(reqs, armed, more, other, n - 1);
    }
  }

  lemma {:induction false} QueuedNone(reqs: seq<Req>, n: nat)
    requires n <= |reqs|
    ensures Queued(reqs, {}, n) == []
  {
    if n > 0 {
      QueuedNone(reqs, n - 1);
    }
  }

  lemma KeysDistinct(s: Net)
    requires Books(s)
    ensures DistinctKeys(s.reqs, s.armed)
  {
  }

  lemma DispatchInOrder(s: Net, key: Key, anyFrame: bool)
    requires Books(s)
    ensures var t := Dispatch(s, key, anyFrame);
      Queued(t.reqs, t.armed, |t.reqs|) == Queued(s.reqs, s.armed, |s.reqs|) + if anyFrame then [key] else []
  {
    var t := Dispatch(s, key, anyFrame);
    QueuedSame(s.reqs, s.armed, t.reqs, t.armed, |s.reqs|);
  }

  /** Taking request r out of the waiting ones takes its key, and no other, out of the order. */
  lemma WithoutRequest(s: Net, r: nat)
    requires Inv(s) && InOrder(s) && r in s.armed
    ensures var rest := Queued(s.reqs, s.armed - {r}, |s.reqs|);
      && rest == RemoveFirst(s.waiters, s.reqs[r].key)
      && (rest == s.waiters <==> !s.reqs[r].anyFrame)
  {
    var key := s.reqs[r].key;
    KeysDistinct(s);
    QueuedMember(s.reqs, s.armed, |s.reqs|, key);
    if s.reqs[r].anyFrame {
      QueuedDrop(s.reqs, s.armed, r, |s.reqs|);
      RemoveFirstGood(s.waiters, key);
    } else {
      QueuedSame(s.reqs, s.armed, s.reqs, s.armed - {r}, |s.reqs|);
      RemoveAbsent(s.waiters, key);
    }
  }

  /** A response that is addressed to a waiting raw request by its own key. */
  predicate StalingMessage(s: Net, m: Message) {
    m.Response? && m.key in s.pending && s.pending[m.key] < |s.reqs| && s.reqs[s.pending[m.key]].anyFrame
  }

  /** The events, other than such a response, that resolve a raw request and leave it queued: a failed
      send, and closing the client. */
  predicate Staling(s: Net, e: Event) {
    match e
    case SendRejected(r) => r in s.armed && r < |s.reqs| && s.reqs[r].anyFrame
    case ClientClose => s.waiters != []
    case _ => false
  }

  lemma MessageInOrderIff(s: Net, m: Message)
    requires Inv(s) && InOrder(s)
    ensures InOrder(OnMessage(s, m)) <==> !StalingMessage(s, m)
  {
    if m.Response? && m.key in s.pending {
      WithoutRequest(s, s.pending[m.key]);
    } else if !m.ServerInitiated? && s.waiters != [] {
      QueuedMember(s.reqs, s.armed, |s.reqs|, s.waiters[0]);
      WithoutRequest(s, s.pending[s.waiters[0]]);
    }
  }

  lemma CrashInOrder(s: Net)
    requires Inv(s) && InOrder(s)
    ensures InOrder(HandleCrash(s))
  {
    CrashInv(s);
    QueuedNone(s.reqs, |s.reqs|);
  }

  /** Which events keep the queue in order, exactly. */
  lemma StepInOrderIff(s: Net, e: Event)
    requires Inv(s) && InOrder(s) && Enabled(s, e) && !e.Frame?
    ensures InOrder(Step(s, e)) <==> !Staling(s, e)
  {
    match e
    case DoRequest => DispatchInOrder(s.(nextId := s.nextId + 1), Id(s.nextId), false);
    case DoSendRaw => DispatchInOrder(s.(nextId := s.nextId + 1, waiters := s.waiters + [Raw(s.nextId)]),
                                      Raw(s.nextId), true);
    case DoSendExpecting(key) => DispatchInOrder(s, key, false);
    case Timer(r) => WithoutRequest(s, r);
    case SendRejected(r) =>
      if r in s.armed {
        WithoutRequest(s, r);
      }
    case ConnectionEnds => CrashInOrder(s);
    case BrokenWrite(r, b) => CrashInOrder(s);
    case ClientClose =>
      SettleAllInv(s, ClientClosed);
      QueuedNone(s.reqs, |s.reqs|);
    case GoodWrite(r) =>
    case ReconnectStarts =>
    case ConnectionOpens =>
  }

  predicate StalingFrame(s: Net, ms: seq<Message>)
    decreases |ms|
  {
    ms != [] && (StalingMessage(s, ms[0]) || StalingFrame(OnMessage(s, ms[0]), ms[1..]))
  }

  lemma {:induction false} FrameInOrder(s: Net, ms: seq<Message>)
    requires Inv(s) && InOrder(s) && !StalingFrame(s, ms)
    ensures InOrder(OnFrame(s, ms))
    decreases |ms|
  {
    if ms != [] {
      MessageInOrderIff(s, ms[0]);
      MessageInv(s, ms[0]);
      FrameInOrder(OnMessage(s, ms[0]), ms[1..]);
    }
  }

  ghost predicate NothingStale(s: Net, es: seq<Event>)
    requires ValidRun(s, es)
    decreases |es|
  {
    es == [] ||
    (!Staling(s, es[0]) && (es[0].Frame? ==> !StalingFrame(s, es[0].messages)) && NothingStale(Step(s, es[0]), es[1..]))
  }

  lemma {:induction false} RunInOrder(s: Net, es: seq<Event>)
    requires Inv(s) && InOrder(s) && ValidRun(s, es) && NothingStale(s, es)
    ensures Inv(After(s, es)) && InOrder(After(s, es))
    decreases |es|
  {
    if es != [] {
      StepInv(s, es[0]);
      if es[0].Frame? {
        FrameInOrder(s, es[0].messages);
      } else {
        StepInOrderIff(s, es[0]);
      }
      RunInOrder(Step(s, es[0]), es[1..]);
    }
  }

  /** r is the raw request that has waited longest. */
  ghost predicate Oldest(s: Net, r: nat) {
    && Waits(s, r) && s.reqs[r].anyFrame
    && forall q: nat :: q < r ==> !(Waits(s, q) && s.reqs[q].anyFrame)
  }

  /** A message no pending request is addressed by. */
  predicate Unaddressed(s: Net, m: Message) { m.MalformedMessage? || (m.Response? && m.key !in s.pending) }

  lemma {:induction false} HeadIsOldest(s: Net, n: nat) returns (r: nat)
    requires Books(s) && n <= |s.reqs| && Queued(s.reqs, s.armed, n) != []
    ensures r < n && Queued(s.reqs, s.armed, n)[0] == s.reqs[r].key && Oldest(s, r)
  {
    if Queued(s.reqs, s.armed, n - 1) != [] {
      r := HeadIsOldest(s, n - 1);
    } else {
      r := n - 1;
      forall q: nat | q < r && Waits(s, q) && s.reqs[q].anyFrame ensures false {
        QueuedMember(s.reqs, s.armed, r, s.reqs[q].key);
      }
    }
  }

  lemma RawWaiterResolves(s: Net, r: nat)
    requires Books(s) && Waits(s, r) && s.waiters != [] && s.waiters[0] == s.reqs[r].key
    ensures ResolveRawWaiter(s).outcomes == s.outcomes[r := RawReply]
  {
  }

  lemma HeadAnswered(s: Net, m: Message)
    requires Books(s) && InOrder(s) && Unaddressed(s, m)
    ensures if s.waiters == [] then OnMessage(s, m).outcomes == s.outcomes
            else exists r: nat :: Oldest(s, r) && OnMessage(s, m).outcomes == s.outcomes[r := RawReply]
  {
    if s.waiters != [] {
      var r := HeadIsOldest(s, |s.reqs|);
      RawWaiterResolves(s, r);
    }
  }

  /** While nothing went stale, over every run, an unaddressed message resolves the raw request that has
      waited longest, and nothing if none waits. */
  lemma RawFrameToOldest(es: seq<Event>, m: Message)
    requires ValidRun(START, es) && NothingStale(START, es) && Unaddressed(After(START, es), m)
    ensures var s := After(START, es);
      && s.waiters == Queued(s.reqs, s.armed, |s.reqs|)
      && (if s.waiters == [] then OnMessage(s, m).outcomes == s.outcomes
          else exists r: nat :: Oldest(s, r) && OnMessage(s, m).outcomes == s.outcomes[r := RawReply])
  {
    StartInv();
    RunInOrder(START, es);
    HeadAnswered(After(START, es), m);
  }

  /** A failed send of the oldest raw request leaves its key at the head, and the next unaddressed
      message then resolves nobody, whoever waits behind it. */
  lemma StaleHeadSwallows(s: Net, r: nat, m: Message)
    requires Inv(s) && InOrder(s) && Oldest(s, r) && Enabled(s, SendRejected(r))
      && Unaddressed(Step(s, SendRejected(r)), m)
    ensures Staling(s, SendRejected(r))
    ensures OnMessage(Step(s, SendRejected(r)), m).outcomes == Step(s, SendRejected(r)).outcomes
  {
    QueuedMember(s.reqs, s.armed, |s.reqs|, s.reqs[r].key);
    var h := HeadIsOldest(s, |s.reqs|);
    assert h == r;
  }

  /** One raw request fails to be written, the next is sent. */
  function FailedThenSent(): Net { SendRaw(OnSendRejected(WriteFails(SendRaw(Opened(START)), 0, false), 0)) }

  lemma FailedThenSentState()
    ensures var a, s := SendRaw(Opened(START)), FailedThenSent();
      && Enabled(START, ConnectionOpens) && Enabled(Opened(START), DoSendRaw) && Enabled(a, BrokenWrite(0, false))
      && Enabled(WriteFails(a, 0, false), SendRejected(0))
      && Enabled(OnSendRejected(WriteFails(a, 0, false), 0), DoSendRaw)
      && s.pending == map[Raw(2) := 1] && s.waiters == [Raw(1), Raw(2)] && 1 !in s.outcomes
  {
    var a := SendRaw(Opened(START));
    assert a.pending == map[Raw(1) := 0] && a.waiters == [Raw(1)] && a.sends == map[0 := InFlight];
    var w := WriteFails(a, 0, false);
    assert w.sends == map[0 := Rejected(false)];
    var b := OnSendRejected(w, 0);
    assert b.pending == map[] && b.waiters == [Raw(1)] && b.sends == map[];
  }

  /** Such a state is reached: the second request waits behind the key of the first and misses the
      frame that should answer it. */
  lemma StaleWaiterSwallowsFrame()
    ensures var es := [ConnectionOpens, DoSendRaw, BrokenWrite(0, false), SendRejected(0), DoSendRaw];
      ValidRun(START, es) && After(START, es) == FailedThenSent()
    ensures var s := FailedThenSent();
      s.pending == map[Raw(2) := 1] && OnMessage(s, MalformedMessage).outcomes == s.outcomes && 1 !in s.outcomes
  {
    FailedThenSentState();
    var a := SendRaw(Opened(START));
    var b := OnSendRejected(WriteFails(a, 0, false), 0);
    OneStep(b, DoSendRaw);
    Prefixed(WriteFails(a, 0, false), SendRejected(0), [DoSendRaw]);
    Prefixed(a, BrokenWrite(0, false), [SendRejected(0), DoSendRaw]);
    Prefixed(Opened(START), DoSendRaw, [BrokenWrite(0, false), SendRejected(0), DoSendRaw]);
    Prefixed(START, ConnectionOpens, [DoSendRaw, BrokenWrite(0, false), SendRejected(0), DoSendRaw]);
  }

  lemma Prefixed(s: Net, e: Event, es: seq<Event>)
    requires Enabled(s, e) && ValidRun(Step(s, e), es)
    ensures ValidRun(s, [e] + es) && After(s, [e] + es) == After(Step(s, e), es)
  {
    assert ([e] + es)[1..] == es;
  }

  // ---- settling one by one is settling all ---------------------------------------------------------------

  lemma SmallerWithout(m: map<Key, nat>, k: Key)
    requires k in m
    ensures |m - {k}| < |m|
  {
    assert m.Keys == (m - {k}).Keys + {k};
  }

  lemma ValuesWithout(m: map<Key, nat>, k: Key)
    requires k in m && forall j :: j in m && j != k ==> m[j] != m[k]
    ensures (m - {k}).Values == m.Values - {m[k]}
  {
    var rest := m - {k};
    forall x | x in m.Values - {m[k]} ensures x in rest.Values {
      var j :| j in m && m[j] == x;
      assert rest[j] == x;
    }
    forall x | x in rest.Values ensures x in m.Values - {m[k]} {
      var j :| j in rest && rest[j] == x;
      assert m[j] == x;
    }
  }

  lemma SettleBooks(s: Net, key: Key, o: Outcome)
    requires Books(s) && key in s.pending
    ensures Books(Settle(s, key, o))
  {
  }

  lemma SettleThenAll(s: Net, key: Key, o: Outcome)
    requires Books(s) && key in s.pending
    ensures SettleAll(Settle(s, key, o), o) == SettleAll(s, o)
  {
    var t, r := Settle(s, key, o), s.pending[key];
    assert r in s.armed && r !in s.outcomes;
    ValuesWithout(s.pending, key);
    forall x | x in s.pending.Values ensures x !in s.outcomes {
      var k :| k in s.pending && s.pending[k] == x;
      assert x in s.armed;
    }
    SameSettled(s, t, r, o);
  }

  lemma SameSettled(s: Net, t: Net, r: nat, o: Outcome)
    requires r in s.pending.Values && (forall x :: x in s.pending.Values ==> x !in s.outcomes)
    requires t == s.(pending := t.pending, armed := s.armed - {r}, outcomes := s.outcomes[r := o])
    requires t.pending.Values == s.pending.Values - {r}
    ensures SettleAll(t, o) == SettleAll(s, o)
  {
    var a, b := SettleAll(t, o), SettleAll(s, o);
    assert s.pending.Values * s.outcomes.Keys == {} && t.pending.Values * t.outcomes.Keys == {};
    assert a.armed == b.armed;
    assert a.outcomes.Keys == b.outcomes.Keys;
    assert a.outcomes == b.outcomes;
  }

  lemma NoneToSettle(s: Net, o: Outcome)
    requires s.pending == map[]
    ensures SettleAll(s, o) == s
  {
    assert s.pending.Values == {};
    assert SettleAll(s, o).outcomes == s.outcomes;
  }

  // ---- the client object ---------------------------------------------------------------------------------

  class McpClient {
    var reqs: seq<Req>
    var pending: map<Key, nat>
    var waiters: seq<Key>
    var nextId: int
    var armed: set<nat>
    var sends: map<nat, Send>
    var outcomes: map<nat, Outcome>
    var again: bool
    var crashEvents: nat
    var connected: bool
    var closed: bool
    var crashes: nat

    function Now(): Net
      reads this
    {
      Net(reqs, pending, waiters, nextId, armed, sends, outcomes, again, crashEvents, connected, closed, crashes)
    }

    constructor ()
      ensures Now() == START
    {
      reqs, pending, waiters, nextId, armed, sends, outcomes := [], map[], [], 1, {}, map[], map[];
      again, crashEvents, connected, closed, crashes := false, 0, false, false, 0;
    }

    method Settled(r: nat, o: Outcome)
      modifies this`outcomes, this`again
      ensures Now() == Resolve(old(Now()), r, o)
    {
      if r in outcomes {
        again := true;
      } else {
        outcomes := outcomes[r := o];
      }
    }

    method DispatchKey(key: Key, anyFrame: bool)
      modifies this
      ensures Now() == Dispatch(old(Now()), key, anyFrame)
    {
      var r := |reqs|;
      reqs := reqs + [Req(key, anyFrame)];
      armed := armed + {r};
      pending := pending[key := r];
      sends := sends[r := if connected && !closed then InFlight else Rejected(false)];
    }

    method RequestUntraced()
      modifies this
      ensures Now() == Request(old(Now()))
    {
      var id := nextId;
      nextId := nextId + 1;
      DispatchKey(Id(id), false);
    }

    /** sendRaw: without an expected id the request queues for any frame. */
    method SendRawFrame(expected: seq<Key>)
      modifies this
      ensures Now() == if expected == [] then SendRaw(old(Now())) else SendExpecting(old(Now()), expected[0])
    {
      if expected == [] {
        var key := Raw(nextId);
        nextId := nextId + 1;
        waiters := waiters + [key];
        DispatchKey(key, true);
      } else {
        DispatchKey(expected[0], false);
      }
    }

    method TimerFires(r: nat)
      requires r < |reqs|
      modifies this
      ensures Now() == OnTimer(old(Now()), r)
    {
      var key := reqs[r].key;
      armed := armed - {r};
      pending := pending - {key};
      waiters := RemoveFirst(waiters, key);
      ghost var was := old(Now());
      assert Now()
        == was.(pending := was.pending - {key}, waiters := RemoveFirst(was.waiters, key), armed := was.armed - {r});
      Settled(r, TimedOut(!IsRaw(key)));
    }

    method SendCatch(r: nat)
      requires r < |reqs| && r in sends && sends[r].Rejected?
      modifies this
      ensures Now() == OnSendRejected(old(Now()), r)
    {
      var key, crash := reqs[r].key, sends[r].crash;
      sends := sends - {r};
      if key !in pending {
        return;
      }
      ClearEntry(key);
      if crash {
        crashEvents := crashEvents + 1;
      }
      ghost var was := old(Now());
      assert Now()
        == was.(sends := was.sends - {r}, armed := was.armed - {was.pending[key]}, pending := was.pending - {key},
                           crashEvents := if crash then was.crashEvents + 1 else was.crashEvents);
      Settled(r, SendFailed(crash));
    }

    /** clearTimeout(entry.timer); pending.delete(key). */
    method ClearEntry(key: Key)
      requires key in pending
      modifies this`armed, this`pending
      ensures Now() == old(Now()).(armed := old(armed) - {old(pending)[key]}, pending := old(pending) - {key})
    {
      armed := armed - {pending[key]};
      pending := pending - {key};
    }

    method SettleKey(key: Key, o: Outcome)
      requires key in pending
      modifies this
      ensures Now() == Settle(old(Now()), key, o)
    {
      var r := pending[key];
      ClearEntry(key);
      Settled(r, o);
    }

    method ServeRawWaiter() returns (served: bool)
      modifies this
      ensures Now() == ResolveRawWaiter(old(Now()))
      ensures served == old(waiters != [] && waiters[0] in pending)
    {
      if waiters == [] {
        return false;
      }
      var key := waiters[0];
      waiters := waiters[1..];
      if key !in pending {
        return false;
      }
      SettleKey(key, RawReply);
      return true;
    }

    method HandleMessage(m: Message)
      modifies this
      ensures Now() == OnMessage(old(Now()), m)
    {
      match m {
        case MalformedMessage =>
          var _ := ServeRawWaiter();
        case ServerInitiated =>
        case Response(key, reply) =>
          if key !in pending {
            var _ := ServeRawWaiter();
          } else {
            SettleKey(key, Replied(reply));
          }
      }
    }

    /** handleFrame: a batch is handled message by message. */
    method HandleFrame(ms: seq<Message>)
      modifies this
      ensures Now() == OnFrame(old(Now()), ms)
    {
      var i := 0;
      while i < |ms|
        invariant 0 <= i <= |ms|
        invariant OnFrame(Now(), ms[i..]) == OnFrame(old(Now()), ms)
      {
        assert ms[i..][0] == ms[i] && ms[i..][1..] == ms[i + 1..];
        HandleMessage(ms[i]);
        i := i + 1;
      }
      assert ms[|ms|..] == [];
    }

    /** The loop over `pending` of handleClose and close, in any order. */
    method SettleEach(o: Outcome)
      requires Books(Now())
      modifies this
      ensures Now() == SettleAll(old(Now()), o)
    {
      while pending != map[]
        invariant Books(Now())
        invariant SettleAll(Now(), o) == SettleAll(old(Now()), o)
        decreases |pending|
      {
        var key :| key in pending;
        SettleThenAll(Now(), key, o);
        SettleBooks(Now(), key, o);
        assert |pending - {key}| < |pending| by { SmallerWithout(pending, key); }
        SettleKey(key, o);
      }
      NoneToSettle(Now(), o);
    }

    method HandleTransportClose()
      requires Books(Now())
      modifies this
      ensures Now() == HandleClose(old(Now()))
    {
      crashEvents := crashEvents + 1;
      BooksIgnore(old(Now()), Now());
      SettleEach(ConnectionLost);
      waiters := [];
    }

    method CloseClient()
      requires Books(Now())
      modifies this
      ensures Now() == Close(old(Now()))
    {
      SettleEach(ClientClosed);
      closed, connected := true, false;
    }

    /** The transport's handleCrash, with the client's callback. */
    method ConnectionLostNow()
      requires Books(Now())
      modifies this
      ensures Now() == HandleCrash(old(Now()))
    {
      if !connected {
        return;
      }
      connected := false;
      crashes := crashes + 1;
      BooksIgnore(old(Now()), Now());
      HandleTransportClose();
    }

    method WriteFailed(r: nat, brokenPipe: bool)
      requires Books(Now())
      modifies this
      ensures Now() == WriteFails(old(Now()), r, brokenPipe)
    {
      if brokenPipe {
        ConnectionLostNow();
      }
      sends := sends[r := Rejected(brokenPipe)];
    }
  }
}
