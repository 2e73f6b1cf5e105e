/**
  Whole sessions as the connection layer sees them: the channel messages a session opens and the host's
  channel calls, in order, drive the channel tables exactly as ChannelLedgers runs them, and every channel
  message and event of the session comes from there.
 */
module ChannelRuns {
  import opened Prelude
  import opened Primitives
  import opened Packet
  import opened Events
  import opened Layouts
  import opened SessionModel
  import opened SessionTrace
  import opened ChannelLedgers
  import Auth
  import Channel
  import ChannelSetup
  import Connection
  import Exchange
  import Ident
  import Kdf
  import KexInit
  import PacketPeer
  import SessionRuns
  import SessionSafety
  import Wire

  // ---- actions of a session -----------------------------------------------------------------------

  function HeardActions(payloads: seq<Bytes>): seq<Action> {
    if payloads == [] then []
    else
      var p := payloads[0];
      (if |p| > 0 && Connection.IsChannelMessage(p[0]) then [Message(p[0], p[1..])] else []) + HeardActions(payloads[1..])
  }

  function CallActions(i: Input): seq<Action> {
    match i
    case Exec(command) => [HostExec(command)]
    case Shell(pty) => [HostShell(pty)]
    case SendData(id, data) => [HostSend(id, data)]
    case Resize(id, cols, rows) => [HostResize(id, cols, rows)]
    case CloseChannel(id) => [HostClose(id)]
    case _ => []
  }

  function DoActions(c: Suite, x: Session, i: Input): seq<Action> {
    if x.core.phase == Halted then [] else HeardActions(DoHears(c, x, i)) + CallActions(i)
  }

  function RunActions(c: Suite, x: Session, inputs: seq<Input>): seq<Action>
    decreases |inputs|
  {
    if inputs == [] then [] else DoActions(c, x, inputs[0]) + RunActions(c, Do(c, x, inputs[0]), inputs[1..])
  }

  lemma {:induction false} HeardAppend(a: seq<Bytes>, b: seq<Bytes>)
    ensures HeardActions(a + b) == HeardActions(a) + HeardActions(b)
  {
    if a == [] {
      assert a + b == b;
    } else {
      assert (a + b)[1..] == a[1..] + b;
      HeardAppend(a[1..], b);
      var p, x, y := a[0], HeardActions(a[1..]), HeardActions(b);
      var first := if |p| > 0 && Connection.IsChannelMessage(p[0]) then [Message(p[0], p[1..])] else [];
      assert first + (x + y) == (first + x) + y;
    }
  }

  // ---- what a run of actions sends and raises --------------------------------------------------------

  predicate AllWellSized(actions: seq<Action>) { forall i :: 0 <= i < |actions| ==> WellSized(actions[i]) }

  /** The tables, and all messages sent and events raised so far. */
  datatype Ledger = Ledger(conn: Connection.Conn, sends: seq<Bytes>, events: seq<Event>)

  const BLANK := Ledger(Connection.EMPTY, [], [])

  function Enter(l: Ledger, a: Action): Ledger
    requires WellSized(a)
  {
    match ReactionTo(l.conn, a)
    case Reacted(conn, sends, events) => Ledger(conn, l.sends + sends, l.events + events)
    case _ => l
  }

  function EnterAll(l: Ledger, actions: seq<Action>): Ledger
    requires AllWellSized(actions)
    decreases |actions|
  {
    if actions == [] then l
    else
      assert WellSized(actions[0]);
      EnterAll(Enter(l, actions[0]), actions[1..])
  }

  lemma {:induction false} EnterAppend(l: Ledger, a: seq<Action>, b: seq<Action>)
    requires AllWellSized(a) && AllWellSized(b)
    ensures AllWellSized(a + b) && EnterAll(l, a + b) == EnterAll(EnterAll(l, a), b)
    decreases |a|
  {
    hide Enter;
    forall i | 0 <= i < |a + b| ensures WellSized((a + b)[i]) { assert (a + b)[i] == if i < |a| then a[i] else b[i - |a|]; }
    if a == [] {
      assert a + b == b;
    } else {
      assert (a + b)[1..] == a[1..] + b;
      EnterAppend(Enter(l, a[0]), a[1..], b);
    }
  }

  lemma EnterOne(l: Ledger, a: Action)
    requires WellSized(a)
    ensures AllWellSized([a]) && EnterAll(l, [a]) == Enter(l, a)
  {
    hide Enter;
    assert [a][1..] == [];
  }

  // ---- the session's side ----------------------------------------------------------------------------

  /** The channel messages of a log. */
  function ChannelMessages(ps: seq<Bytes>): seq<Bytes> {
    if ps == [] then [] else (if Connection.AboutChannels(ps[0]) then [ps[0]] else []) + ChannelMessages(ps[1..])
  }

  lemma {:induction false} ChannelMessagesAppend(a: seq<Bytes>, b: seq<Bytes>)
    ensures ChannelMessages(a + b) == ChannelMessages(a) + ChannelMessages(b)
  {
    if a == [] {
      assert a + b == b;
    } else {
      assert (a + b)[1..] == a[1..] + b;
      ChannelMessagesAppend(a[1..], b);
      var first, x, y := if Connection.AboutChannels(a[0]) then [a[0]] else [], ChannelMessages(a[1..]), ChannelMessages(b);
      assert first + (x + y) == (first + x) + y;
    }
  }

  /** What the session has done about channels. */
  function LedgerOf(s: State): Ledger {
    Ledger(s.conn, ChannelMessages(Payloads(s.out.sent)), ChannelEvents(s.events))
  }

  lemma EmitEnters(c: Suite, o: Out, k: Option<Cipher>, payload: Bytes)
    ensures ChannelMessages(Payloads(Emit(c, o, k, payload).sent))
            == ChannelMessages(Payloads(o.sent)) + if Connection.AboutChannels(payload) then [payload] else []
  {
    hide Connection.AboutChannels;
    var item := Emit(c, o, k, payload).sent[|o.sent|];
    PayloadsAppend(o.sent, [item]);
    OnePayload(item);
    ChannelMessagesAppend(Payloads(o.sent), [payload]);
    OneChannelMessage(payload);
  }

  lemma OnePayload(item: Sent)
    requires item.Sealed?
    ensures Payloads([item]) == [item.payload]
  {
    assert [item][1..] == [];
  }

  lemma OneChannelMessage(payload: Bytes)
    ensures ChannelMessages([payload]) == if Connection.AboutChannels(payload) then [payload] else []
  {
    assert [payload][1..] == [];
  }

  lemma {:induction false} SendEachEnters(c: Suite, o: Out, payloads: seq<Bytes>)
    requires SendEach(c, o, payloads).Some? && Connection.AllAboutChannels(payloads)
    ensures ChannelMessages(Payloads(SendEach(c, o, payloads).value.sent)) == ChannelMessages(Payloads(o.sent)) + payloads
    decreases |payloads|
  {
    hide Payloads, ChannelMessages, Emit;
    if payloads != [] {
      assert Connection.AboutChannels(payloads[0]);
      EmitEnters(c, o, o.cs, payloads[0]);
      var o1 := SendCiphered(c, o, payloads[0]).value;
      forall i | 0 <= i < |payloads[1..]| ensures Connection.AboutChannels(payloads[1..][i]) {
        assert payloads[1..][i] == payloads[i + 1];
      }
      SendEachEnters(c, o1, payloads[1..]);
      assert (ChannelMessages(Payloads(o.sent)) + [payloads[0]]) + payloads[1..] == ChannelMessages(Payloads(o.sent)) + payloads;
    }
  }

  /** Same ledger, or a panic. */
  predicate Aside(s: State, t: State) { t.phase == Halted || LedgerOf(t) == LedgerOf(s) }

  predicate AsideBy(s: State, o: Outcome) { Aside(s, Settle(s, o)) }

  lemma RaisedAside(s: State, t: State, e: Event)
    requires LedgerOf(t) == LedgerOf(s) && !IsChannelEvent(e)
    ensures LedgerOf(Raise(t, e)) == LedgerOf(s)
  {
    hide Payloads, ChannelMessages;
    OneMore(t.events, e);
  }

  lemma FailAside(s: State, t: State, e: SshError)
    requires LedgerOf(t) == LedgerOf(s)
    ensures LedgerOf(Fail(t, e)) == LedgerOf(s)
  {
    hide Payloads, ChannelMessages, ChannelEvents;
    RaisedAside(s, t, Unrecoverable(e));
  }

  /** A panic, an error, or a state that did nothing about channels. */
  lemma OutcomeAside(s: State, o: Outcome)
    requires !o.Panic? ==> LedgerOf(o.s) == LedgerOf(s)
    ensures AsideBy(s, o)
  {
    hide LedgerOf;
    if o.Failed? { FailAside(s, o.s, o.error); }
  }

  lemma SentAside(c: Suite, s: State, t: State, payload: Bytes)
    requires SendCiphered(c, s.out, payload).Some? && !Connection.AboutChannels(payload)
    requires t.conn == s.conn && t.events == s.events && t.out == SendCiphered(c, s.out, payload).value
    ensures LedgerOf(t) == LedgerOf(s)
  {
    hide Payloads, ChannelMessages, ChannelEvents, Emit;
    EmitEnters(c, s.out, s.out.cs, payload);
  }

  // ---- handlers that have nothing to do with channels ------------------------------------------------

  lemma DisconnectAside(s: State, p: Bytes)
    requires |p| > 0
    ensures AsideBy(s, HandleDisconnect(s, p))
  {
    hide LedgerOf, ParseDisconnect;
    match ParseDisconnect(p[1..])
    case Err(_) => OutcomeAside(s, HandleDisconnect(s, p));
    case Ok(e) =>
      SessionSafety.DisconnectEvent(p[1..]);
      SamePlace(s, s.(phase := Closed));
      RaisedAside(s, s.(phase := Closed), e);
  }

  /** Only channel tables, output and events matter. */
  lemma SamePlace(s: State, t: State)
    requires t.conn == s.conn && t.out.sent == s.out.sent && t.events == s.events
    ensures LedgerOf(t) == LedgerOf(s)
  {
  }

  lemma KexinitAside(c: Suite, s: State, p: Bytes)
    ensures AsideBy(s, HandlePeerKexinit(c, s, p))
  {
    hide LedgerOf, KexInit.Parse, KexInit.NegotiateAll, StartKex, AsideBy;
    var s1 := s.(kex := s.kex.(peerPayload := p));
    SamePlace(s, s1);
    if KexInit.Parse(s.kex.ownPayload).Ok? && KexInit.Parse(p).Ok? {
      var n := KexInit.NegotiateAll(KexInit.Parse(s.kex.ownPayload).value, KexInit.Parse(p).value);
      if n.Ok? { StartAside(c, s, s1, n.value); }
    }
    OutcomeAside(s, HandlePeerKexinit(c, s, p));
  }

  lemma StartAside(c: Suite, s: State, s1: State, n: KexInit.Negotiated)
    requires LedgerOf(s1) == LedgerOf(s)
    ensures StartKex(c, s1, n).Fine? || (StartKex(c, s1, n).Failed? && StartKex(c, s1, n).s == s1)
    ensures LedgerOf(StartKex(c, s1, n).s) == LedgerOf(s)
  {
    hide Payloads, ChannelMessages, ChannelEvents, Emit, Wire.Str, Kdf.Mpint;
    if n.kex == KexInit.CURVE25519 {
      var secret := Draw(c, s1.out.drawn, 32);
      EmitEnters(c, s1.out.(drawn := s1.out.drawn + 32), s1.out.cs, Exchange.CurveInit(c.x25519Public(secret)));
    } else if n.kex == KexInit.GROUP14 {
      var secret := Draw(c, s1.out.drawn, 256);
      EmitEnters(c, s1.out.(drawn := s1.out.drawn + 256), s1.out.cs, Exchange.Group14Init(c.group14Public(secret)));
    }
  }

  lemma ResultAside(c: Suite, s: State, s1: State, hostKey: Bytes, h: Bytes, shared: Bytes)
    requires LedgerOf(s1) == LedgerOf(s)
    ensures var o := OnKexResult(c, s1, hostKey, h, shared); !o.Panic? ==> LedgerOf(o.s) == LedgerOf(s)
  {
    hide LedgerOf, FromName, DerivePair;
    if s1.kex.negotiated.Some? && FromName(s1.kex.negotiated.value.encryptionCs).Some? {
      var alg := FromName(s1.kex.negotiated.value.encryptionCs).value;
      var sid := if s1.kex.sessionId.Some? then s1.kex.sessionId.value else h;
      var s2 := s1.(kex := s1.kex.(pendingCiphers := Some(DerivePair(c, alg, shared, h, sid)), sessionId := Some(sid),
                                   pendingHostKey := Some(hostKey)),
                    phase := AwaitingHostKeyDecision);
      SamePlace(s1, s2);
      RaisedAside(s, s2, HostKeyVerify(c.keyName(hostKey), c.fingerprint(hostKey), hostKey));
    }
  }

  lemma ReplyAside(c: Suite, s: State, p: Bytes)
    ensures AsideBy(s, HandleKexReply(c, s, p))
  {
    hide LedgerOf, OnKexResult, Exchange.ParseReply, Exchange.ParseCurveReply, VerifyReply, Exchange.CurveHash,
         Exchange.Group14Hash, TranscriptOf, AsideBy;
    var s1 := s.(kex := s.kex.(active := None));
    SamePlace(s, s1);
    forall hostKey, h, shared
      ensures var o := OnKexResult(c, s1, hostKey, h, shared); !o.Panic? ==> LedgerOf(o.s) == LedgerOf(s)
    {
      ResultAside(c, s, s1, hostKey, h, shared);
    }
    OutcomeAside(s, HandleKexReply(c, s, p));
  }

  lemma OthersAside(s: State, p: Bytes)
    ensures AsideBy(s, HandleNewkeys(s)) && AsideBy(s, HandleServiceAccept(s, p)) && AsideBy(s, HandleUserauthFailure(s, p))
    ensures AsideBy(s, HandleUserauthSuccess(s)) && AsideBy(s, Fine(s))
  {
    hide LedgerOf, Auth.ParseServiceAccept, Auth.ParseFailure, Auth.ServiceUserauth, AsideBy;
    var s1 := s.(kex := s.kex.(sc := s.kex.pendingSc, pendingSc := None));
    SamePlace(s, s1);
    SamePlace(s, s.(phase := UserAuth));
    RaisedAside(s, s.(phase := UserAuth), ReadyForAuth);
    SamePlace(s, s.(pendingAuth := None));
    SamePlace(s, s.(pendingAuth := None, phase := Connected));
    RaisedAside(s, s.(pendingAuth := None, phase := Connected), AuthSuccess);
    if Auth.ParseFailure(p).Ok? { RaisedAside(s, s.(pendingAuth := None), AuthFailure(Auth.ParseFailure(p).value)); }
    OutcomeAside(s, HandleNewkeys(s));
    OutcomeAside(s, HandleServiceAccept(s, p));
    OutcomeAside(s, HandleUserauthFailure(s, p));
    OutcomeAside(s, HandleUserauthSuccess(s));
    OutcomeAside(s, Fine(s));
  }

  lemma PkOkAside(c: Suite, s: State, p: Bytes)
    ensures AsideBy(s, HandlePkOk(c, s, p))
  {
    hide LedgerOf, Auth.ParsePkOk, Auth.SignedData, SendCiphered, Wire.Str, Auth.ServiceConnection,
         Auth.MethodPublickey, AsideBy;
    var s1 := s.(pendingAuth := None);
    SamePlace(s, s1);
    forall user, algorithm, blob, signature | SendCiphered(c, s.out, Auth.SignedRequest(user, algorithm, blob, signature)).Some?
      ensures var out := SendCiphered(c, s.out, Auth.SignedRequest(user, algorithm, blob, signature)).value;
              LedgerOf(s1.(pendingAuth := Some(PublicKeySigned), out := out)) == LedgerOf(s)
    {
      var request := Auth.SignedRequest(user, algorithm, blob, signature);
      var out := SendCiphered(c, s.out, request).value;
      SentAside(c, s, s1.(pendingAuth := Some(PublicKeySigned), out := out), request);
    }
    OutcomeAside(s, HandlePkOk(c, s, p));
  }

  lemma GlobalRequestAside(c: Suite, s: State, p: Bytes)
    requires |p| > 0
    ensures AsideBy(s, HandleGlobalRequest(c, s, p))
  {
    hide LedgerOf, ParseGlobalRequest, SendCiphered, AsideBy;
    if SendCiphered(c, s.out, [MSG_REQUEST_FAILURE]).Some? {
      var out := SendCiphered(c, s.out, [MSG_REQUEST_FAILURE]).value;
      SentAside(c, s, s.(out := out), [MSG_REQUEST_FAILURE]);
    }
    OutcomeAside(s, HandleGlobalRequest(c, s, p));
  }

  // ---- channel reactions -------------------------------------------------------------------------------

  /** Channel handlers raise channel events only. */
  predicate AllChannelEvents(events: seq<Event>) { forall i :: 0 <= i < |events| ==> IsChannelEvent(events[i]) }

  ghost predicate RaisesChannelEvents(r: Connection.Reaction) { r.Reacted? ==> AllChannelEvents(r.events) }

  lemma {:induction false} ChannelEventsKept(events: seq<Event>)
    requires AllChannelEvents(events)
    ensures ChannelEvents(events) == events
  {
    if events != [] {
      assert IsChannelEvent(events[0]);
      forall i | 0 <= i < |events[1..]| ensures IsChannelEvent(events[1..][i]) { assert events[1..][i] == events[i + 1]; }
      ChannelEventsKept(events[1..]);
    }
  }

  lemma MessageRaises(conn: Connection.Conn, msg: Byte, r: Bytes)
    requires Connection.IsChannelMessage(msg)
    ensures RaisesChannelEvents(Connection.OnMessage(conn, msg, r))
  {
    hide Connection.ParseConfirmation, Connection.ParseIdAndNumber, Connection.ParseIdAndData, Connection.ParseExtended,
         Connection.ParseServerRequest, Connection.DescriptionOr, Wire.GetU32, Wire.GetUtf8, Channel.OnDataConsumed,
         Channel.AdjustMessage, Channel.IdMessage, Connection.ExecRequest, Connection.PtyRequest, Connection.ShellRequest,
         Connection.DefaultPty, Ascii;
  }

  lemma ReactEnters(c: Suite, s: State, a: Action)
    requires WellSized(a) && Connection.SendsAboutChannels(ReactionTo(s.conn, a)) && RaisesChannelEvents(ReactionTo(s.conn, a))
    ensures var t := Settle(s, React(c, s, ReactionTo(s.conn, a))); t.phase == Halted || LedgerOf(t) == Enter(LedgerOf(s), a)
  {
    hide ReactionTo, Payloads, ChannelMessages, ChannelEvents, SendEach, AllChannelEvents, Connection.AllAboutChannels;
    match ReactionTo(s.conn, a)
    case Refused(e) => FailAside(s, s, e);
    case Panicked =>
    case Reacted(_, sends, events) =>
      if SendEach(c, s.out, sends).Some? { SendEachEnters(c, s.out, sends); }
      ChannelEventsAppend(s.events, events);
      ChannelEventsKept(events);
  }

  // ---- one payload, one turn ---------------------------------------------------------------------------

  /** What hearing one payload is to the channels. */
  function EnterHeard(l: Ledger, p: Bytes): Ledger
    requires |p| <= MAX_PACKET_LENGTH
  {
    if |p| > 0 && Connection.IsChannelMessage(p[0]) then Enter(l, Message(p[0], p[1..])) else l
  }

  lemma ChannelPayloadEnters(c: Suite, s: State, p: Bytes)
    requires 0 < |p| <= MAX_PACKET_LENGTH && Connection.IsChannelMessage(p[0])
    ensures var t := Settle(s, React(c, s, Connection.OnMessage(s.conn, p[0], p[1..])));
            t.phase == Halted || LedgerOf(t) == Enter(LedgerOf(s), Message(p[0], p[1..]))
  {
    hide Connection.OnMessage, LedgerOf, React;
    Connection.MessageSends(s.conn, p[0], p[1..]);
    MessageRaises(s.conn, p[0], p[1..]);
    ReactEnters(c, s, Message(p[0], p[1..]));
  }

  lemma DispatchEnters(c: Suite, s: State, p: Bytes)
    requires 0 < |p| <= MAX_PACKET_LENGTH
    ensures var t := Settle(s, Dispatch(c, s, p)); t.phase == Halted || LedgerOf(t) == EnterHeard(LedgerOf(s), p)
  {
    hide LedgerOf, HandleDisconnect, HandlePeerKexinit, HandleKexReply, HandleNewkeys, HandleServiceAccept,
         HandleUserauthFailure, HandleUserauthSuccess, HandlePkOk, HandleGlobalRequest, React, Connection.OnMessage,
         Settle, Enter;
    if Connection.IsChannelMessage(p[0]) {
      ChannelPayloadEnters(c, s, p);
    } else {
      DisconnectAside(s, p);
      KexinitAside(c, s, p);
      ReplyAside(c, s, p);
      OthersAside(s, p);
      PkOkAside(c, s, p);
      GlobalRequestAside(c, s, p);
      OutcomeAside(s, Failed(s, UnexpectedMessage(p[0])));
    }
  }

  /** The session's ledger is that of its actions so far, unless it has panicked. */
  ghost predicate Kept(s: State, actions: seq<Action>) {
    s.phase == Halted || (AllWellSized(actions) && LedgerOf(s) == EnterAll(BLANK, actions))
  }

  lemma KeptAside(s: State, t: State, actions: seq<Action>)
    requires Kept(s, actions) && s.phase != Halted && Aside(s, t)
    ensures Kept(t, actions)
  {
    hide LedgerOf, EnterAll, AllWellSized;
  }

  lemma KeptMore(s: State, t: State, actions: seq<Action>, a: Action)
    requires Kept(s, actions) && s.phase != Halted && WellSized(a)
    requires t.phase == Halted || LedgerOf(t) == Enter(LedgerOf(s), a)
    ensures Kept(t, actions + [a])
  {
    hide LedgerOf, EnterAll, Enter, WellSized;
    assert AllWellSized([a]);
    EnterAppend(BLANK, actions, [a]);
    EnterOne(EnterAll(BLANK, actions), a);
  }

  lemma PacketTurnKept(c: Suite, s: State, buf: Bytes, actions: seq<Action>)
    requires LawfulAead(c) && Kept(s, actions) && !Idle(s.phase) && s.phase != VersionExchange && PacketTurn(c, s, buf).Some?
    ensures Kept(PacketTurn(c, s, buf).value.1, actions + HeardActions(TurnHears(c, s, buf)))
  {
    hide NextFrame, Dispatch, LedgerOf, Kept, Enter, LawfulAead, Settle, Fail;
    SessionRuns.PayloadBound(c, s.kex.sc, buf);
    assert actions + [] == actions;
    match NextFrame(c, s.kex.sc, buf)
    case Got(_, k, p) =>
      var s1 := WithSc(s, k);
      SamePlace(s, s1);
      KeptAside(s, s1, actions);
      OneHeard(p);
      if p == [] {
        FailAside(s, s1, Framing);
        KeptAside(s, Fail(s1, Framing), actions);
      } else {
        var t := Settle(s1, Dispatch(c, s1, p));
        DispatchEnters(c, s1, p);
        StillOpen(s, k);
        if Connection.IsChannelMessage(p[0]) {
          KeptMore(s1, t, actions, Message(p[0], p[1..]));
        } else {
          KeptAside(s1, t, actions);
        }
      }
    case Torn(_, k, e) =>
      SamePlace(s, WithSc(s, k));
      FailAside(s, WithSc(s, k), e);
      KeptAside(s, Fail(WithSc(s, k), e), actions);
    case Reject =>
      FailAside(s, s, Framing);
      KeptAside(s, Fail(s, Framing), actions);
    case Wait =>
  }

  lemma StillOpen(s: State, k: Option<Cipher>) ensures WithSc(s, k).phase == s.phase {}

  lemma OneHeard(p: Bytes)
    ensures HeardActions([p]) == if |p| > 0 && Connection.IsChannelMessage(p[0]) then [Message(p[0], p[1..])] else []
  {
    assert [p][1..] == [];
  }

  lemma IdentTurnAside(c: Suite, s: State, buf: Bytes)
    requires s.phase == VersionExchange && IdentTurn(c, s, buf).Some?
    ensures Aside(s, IdentTurn(c, s, buf).value.1)
  {
    hide Ident.Scan, LedgerOf, BeginKex;
    var i := Ident.Scan(s.ident, buf).s;
    SamePlace(s, s.(ident := i));
    FailAside(s, s.(ident := i), Framing);
    BeginAside(c, s.(ident := i));
  }

  lemma BeginAside(c: Suite, s: State)
    ensures LedgerOf(BeginKex(c, s)) == LedgerOf(s)
  {
    hide Payloads, ChannelMessages, ChannelEvents, Emit, KexInit.Payload, KexInit.Ours;
    var cookie: Bytes16 := Draw(c, s.out.drawn, 16);
    KexInit.OurPayloadSize(cookie);
    EmitEnters(c, s.out.(drawn := s.out.drawn + 16), None, KexInit.Payload(KexInit.Ours(cookie)));
  }

  lemma TurnKept(c: Suite, s: State, buf: Bytes, actions: seq<Action>)
    requires LawfulAead(c) && Kept(s, actions) && !Idle(s.phase) && Turn(c, s, buf).Some?
    ensures Kept(Turn(c, s, buf).value.1, actions + HeardActions(TurnHears(c, s, buf)))
  {
    hide Kept, IdentTurn, PacketTurn, LawfulAead, Aside;
    if s.phase == VersionExchange {
      IdentTurnAside(c, s, buf);
      KeptAside(s, IdentTurn(c, s, buf).value.1, actions);
      assert actions + [] == actions;
    } else {
      PacketTurnKept(c, s, buf, actions);
    }
  }

  lemma {:induction false} DriveKept(c: Suite, s: State, buf: Bytes, actions: seq<Action>)
    requires LawfulAead(c) && Kept(s, actions)
    ensures Kept(Drive(c, s, buf).core, actions + HeardActions(DriveHears(c, s, buf)))
    decreases |buf|, if Over(s.phase) then 0 else 1
  {
    hide Kept, Turn, TurnHears, LawfulAead;
    if Idle(s.phase) || Turn(c, s, buf).None? {
      assert actions + [] == actions;
    } else {
      var (n, s') := Turn(c, s, buf).value;
      var now := actions + HeardActions(TurnHears(c, s, buf));
      TurnKept(c, s, buf, actions);
      DriveKept(c, s', buf[n..], now);
      HeardAppend(TurnHears(c, s, buf), DriveHears(c, s', buf[n..]));
      assert now + HeardActions(DriveHears(c, s', buf[n..]))
          == actions + (HeardActions(TurnHears(c, s, buf)) + HeardActions(DriveHears(c, s', buf[n..])));
    }
  }

  // ---- host calls ------------------------------------------------------------------------------------------

  lemma SendOrHaltAside(c: Suite, s: State, t: State, payload: Bytes)
    requires t.out == s.out && LedgerOf(t) == LedgerOf(s) && !Connection.AboutChannels(payload)
    ensures Aside(s, SendOrHalt(c, s, t, payload))
  {
    hide Payloads, ChannelMessages, ChannelEvents, Emit;
    if SendCiphered(c, t.out, payload).Some? { EmitEnters(c, t.out, t.out.cs, payload); }
  }

  lemma AuthAside(c: Suite, s: State, user: Bytes, password: Bytes, key: PrivateKey)
    ensures Aside(s, AuthenticatePassword(c, s, user, password)) && Aside(s, AuthenticatePublickey(c, s, user, key))
  {
    hide LedgerOf, SendOrHalt, Wire.Str, Auth.ServiceConnection, Auth.MethodPassword, Auth.MethodPublickey;
    SamePlace(s, s.(username := Some(user)));
    SamePlace(s, s.(username := Some(user), pendingAuth := Some(PasswordSent)));
    SendOrHaltAside(c, s, s.(username := Some(user), pendingAuth := Some(PasswordSent)), Auth.PasswordRequest(user, password));
    if c.userAlgorithm(key).Some? {
      var algorithm, blob := c.userAlgorithm(key).value, c.publicBlob(key);
      var t := s.(username := Some(user), pendingAuth := Some(PublicKeyQuery(user, algorithm, blob, key)));
      SamePlace(s, t);
      SendOrHaltAside(c, s, t, Auth.KeyQuery(user, algorithm, blob));
    }
  }

  lemma OpenEnters(c: Suite, s: State, conn: Connection.Conn, a: Action)
    requires a.HostExec? || a.HostShell?
    requires ReactionTo(s.conn, a).conn == conn
    ensures var t := SendOrHalt(c, s, s.(conn := conn), Channel.OpenMessage(s.conn.nextId));
            t.phase == Halted || LedgerOf(t) == Enter(LedgerOf(s), a)
  {
    hide Payloads, ChannelMessages, ChannelEvents, Emit, Wire.Str, Channel.SessionName, Connection.OpenExec,
         Connection.OpenShell;
    var m := Channel.OpenMessage(s.conn.nextId);
    assert Connection.AboutChannels(m);
    assert ChannelEvents(s.events) + [] == ChannelEvents(s.events);
    if s.out.cs.Some? { EmitEnters(c, s.out, s.out.cs, m); }
  }

  lemma CallEnters(c: Suite, s: State, i: Input, a: Action)
    requires CallActions(i) == [a] && !i.FeedIncoming? && !i.ProvideHostKeyDecision?
    ensures var t := HostCall(c, s, i); t.phase == Halted || LedgerOf(t) == Enter(LedgerOf(s), a)
  {
    hide LedgerOf, SendOrHalt, React, Connection.OpenExec, Connection.OpenShell, Connection.ChannelSend,
         Connection.ResizePty, Connection.CloseChannel, Channel.OpenMessage, Enter;
    match i
    case Exec(command) => OpenEnters(c, s, Connection.OpenExec(s.conn, command), a);
    case Shell(pty) => OpenEnters(c, s, Connection.OpenShell(s.conn, pty), a);
    case SendData(id, data) =>
      Connection.CallSends(s.conn, id, data, 0, 0);
      CallRaises(s.conn, id, data, 0, 0);
      ReactEnters(c, s, a);
    case Resize(id, cols, rows) =>
      Connection.CallSends(s.conn, id, [], cols, rows);
      CallRaises(s.conn, id, [], cols, rows);
      ReactEnters(c, s, a);
    case CloseChannel(id) =>
      Connection.CallSends(s.conn, id, [], 0, 0);
      CallRaises(s.conn, id, [], 0, 0);
      ReactEnters(c, s, a);
  }

  lemma CallRaises(conn: Connection.Conn, id: U32, data: Bytes, cols: U32, rows: U32)
    ensures RaisesChannelEvents(Connection.ChannelSend(conn, id, data))
    ensures RaisesChannelEvents(Connection.ResizePty(conn, id, cols, rows))
    ensures RaisesChannelEvents(Connection.CloseChannel(conn, id))
  {
    hide Channel.SendData, Connection.WindowChangeRequest, Channel.IdMessage;
  }

  lemma HostCallKept(c: Suite, s: State, i: Input, actions: seq<Action>)
    requires Kept(s, actions) && s.phase != Halted && !i.FeedIncoming? && !i.ProvideHostKeyDecision?
    ensures Kept(HostCall(c, s, i), actions + CallActions(i))
  {
    hide Kept, LedgerOf, AuthenticatePassword, AuthenticatePublickey, OpenExec, OpenShell, React, Enter, Aside;
    assert actions + [] == actions;
    if |CallActions(i)| == 1 {
      var a := CallActions(i)[0];
      CallEnters(c, s, i, a);
      KeptMore(s, HostCall(c, s, i), actions, a);
      return;
    }
    match i
    case NotifyTransportClosed =>
      TransportAside(s);
      KeptAside(s, HostCall(c, s, i), actions);
    case Password(user, password) =>
      AuthAside(c, s, user, password, []);
      KeptAside(s, HostCall(c, s, i), actions);
    case PublicKey(user, key) =>
      AuthAside(c, s, user, [], key);
      KeptAside(s, HostCall(c, s, i), actions);
    case _ =>
  }

  lemma TransportAside(s: State)
    ensures Aside(s, SessionModel.TransportClosed(s))
  {
    hide LedgerOf;
    FailAside(s, s, SshError.TransportClosed);
  }

  lemma AcceptedAside(c: Suite, s: State)
    ensures Aside(s, Accepted(c, s))
  {
    hide Payloads, ChannelMessages, ChannelEvents, Emit, Wire.Str, Auth.ServiceUserauth, Advance;
    var newkeys, request := [KexInit.MSG_NEWKEYS], Auth.ServiceRequest(Auth.ServiceUserauth());
    EmitEnters(c, s.out, None, newkeys);
    var plain := SendPlain(c, s.out, newkeys);
    EmitEnters(c, plain, plain.cs, request);
    if s.kex.pendingCiphers.Some? {
      var out := plain.(cs := Some(s.kex.pendingCiphers.value.cs));
      EmitEnters(c, out, out.cs, request);
    }
  }

  lemma DoKept(c: Suite, x: Session, i: Input, actions: seq<Action>)
    requires LawfulAead(c) && Kept(x.core, actions)
    ensures Kept(Do(c, x, i).core, actions + DoActions(c, x, i))
  {
    hide Kept, Drive, DriveHears, HostCall, Accepted, Aside, LawfulAead, Fail;
    assert actions + [] == actions;
    if x.core.phase != Halted {
      match i
      case FeedIncoming(b) =>
        DriveKept(c, x.core, x.incoming + b, actions);
        assert HeardActions(DoHears(c, x, i)) + [] == HeardActions(DoHears(c, x, i));
      case ProvideHostKeyDecision(accept) =>
        assert HeardActions(DoHears(c, x, i)) + [] == HeardActions(DoHears(c, x, i));
        RejectedAside(x.core);
        AcceptedAside(c, x.core);
        KeptAside(x.core, Fail(x.core, HostKeyRejected), actions);
        KeptAside(x.core, Accepted(c, x.core), actions);
        if x.core.phase == AwaitingHostKeyDecision && accept { DriveKept(c, Accepted(c, x.core), x.incoming, actions); }
      case _ =>
        QuietCall(c, x, i);
        HostCallKept(c, x.core, i, actions);
        assert [] + CallActions(i) == CallActions(i);
    } else {
      HaltedKept(x.core, actions);
      HaltedKept(x.core, actions + DoActions(c, x, i));
    }
  }

  lemma HaltedKept(s: State, actions: seq<Action>)
    requires s.phase == Halted
    ensures Kept(s, actions)
  {
  }

  lemma RejectedAside(s: State)
    ensures Aside(s, Fail(s, HostKeyRejected))
  {
    hide LedgerOf;
    FailAside(s, s, HostKeyRejected);
  }

  // ---- runs ------------------------------------------------------------------------------------------------

  lemma {:induction false} RunKept(c: Suite, x: Session, inputs: seq<Input>, actions: seq<Action>)
    requires LawfulAead(c) && Kept(x.core, actions)
    ensures Kept(Run(c, x, inputs).core, actions + RunActions(c, x, inputs))
    decreases |inputs|
  {
    hide Kept, Do, DoActions, LawfulAead;
    if inputs == [] {
      assert actions + [] == actions;
    } else {
      var y, now := Do(c, x, inputs[0]), actions + DoActions(c, x, inputs[0]);
      DoKept(c, x, inputs[0], actions);
      RunKept(c, y, inputs[1..], now);
      assert now + RunActions(c, y, inputs[1..]) == actions + (DoActions(c, x, inputs[0]) + RunActions(c, y, inputs[1..]));
    }
  }

  lemma StartKept()
    ensures Kept(START.core, [])
  {
    var sent := START.core.out.sent;
    assert sent[0] == Line(Ident.CLIENT_IDENT_LINE) && sent[1..] == [];
    assert Payloads(sent) == [] + Payloads([]) == [];
  }

  /** Any peer, any host: unless it has panicked, a session's channel tables, the channel messages it has
      sent and the channel events it has raised are what its actions so far make of empty tables. */
  lemma SessionIsItsActions(c: Suite, inputs: seq<Input>)
    requires LawfulAead(c) && Run(c, START, inputs).core.phase != Halted
    ensures var s, actions := Run(c, START, inputs).core, RunActions(c, START, inputs);
            && AllWellSized(actions)
            && EnterAll(BLANK, actions) == Ledger(s.conn, ChannelMessages(Payloads(s.out.sent)), ChannelEvents(s.events))
  {
    hide Run, RunActions, EnterAll, AllWellSized, LawfulAead;
    StartKept();
    RunKept(c, START, inputs, []);
    assert [] + RunActions(c, START, inputs) == RunActions(c, START, inputs);
  }

  lemma {:induction false} EnterAllIsRunConn(l: Ledger, actions: seq<Action>)
    requires AllWellSized(actions)
    ensures EnterAll(l, actions).conn == RunConn(l.conn, actions)
    decreases |actions|
  {
    hide ReactionTo;
    if actions != [] { EnterAllIsRunConn(Enter(l, actions[0]), actions[1..]); }
  }

  lemma {:induction false} RunTrackIsRunConn(t: ChannelSetup.Track, actions: seq<Action>)
    requires AllWellSized(actions) && ChannelSetup.LegalRun(t, actions)
    ensures ChannelSetup.RunTrack(t, actions).conn == RunConn(t.conn, actions)
    decreases |actions|
  {
    hide ReactionTo, ChannelSetup.Legal, ChannelSetup.Entries, ChannelSetup.Strays;
    if actions != [] { RunTrackIsRunConn(ChannelSetup.Step(t, actions[0]), actions[1..]); }
  }

  /** Flow control in a session: any peer, any host. The account is kept over the session's own actions,
      whose messages are exactly the channel messages it has sent. */
  lemma SessionFlowControl(c: Suite, inputs: seq<Input>, id: U32)
    requires LawfulAead(c) && Run(c, START, inputs).core.phase != Halted
    requires id in Run(c, START, inputs).core.conn.channels
    ensures AllWellSized(RunActions(c, START, inputs))
    ensures var ch := Run(c, START, inputs).core.conn.channels[id];
            var acct := RunBook(Connection.EMPTY, id, NEW_ACCOUNT, RunActions(c, START, inputs));
            && ch.localWindow == acct.announced + acct.granted - acct.received
            && ch.localWindow > 0x10_0000
            && (ch.remoteId.Some? ==> SendingBalanced(ch, acct))
  {
    hide Run, RunActions, EnterAll, RunConn, RunBook, LawfulAead;
    SessionIsItsActions(c, inputs);
    EnterAllIsRunConn(BLANK, RunActions(c, START, inputs));
    FlowControl(RunActions(c, START, inputs), id);
  }

  /** Setup sequencing in a session, with a server that keeps to the rules: every channel in the session's
      table has a record, and everything the session has sent and raised is filed as `SetupSequencing`
      says. */
  lemma SessionSetup(c: Suite, inputs: seq<Input>)
    requires LawfulAead(c) && Run(c, START, inputs).core.phase != Halted
    requires ChannelSetup.LegalRun(ChannelSetup.NO_CHANNELS, RunActions(c, START, inputs))
    ensures var s, t := Run(c, START, inputs).core, ChannelSetup.RunTrack(ChannelSetup.NO_CHANNELS, RunActions(c, START, inputs));
            && t.conn == s.conn
            && t.stray == []
            && (forall id :: id in s.conn.channels ==> id in t.entries)
            && (forall id :: id in t.entries ==>
                  ChannelSetup.Recorded(id, t.entries[id]) && ChannelSetup.Begins(id, t.entries[id].plan, t.entries[id].log))
  {
    hide Run, RunActions, EnterAll, RunConn, LawfulAead, ChannelSetup.LegalRun, ChannelSetup.RunTrack,
         ChannelSetup.EntryOk, ChannelSetup.Recorded, ChannelSetup.Begins;
    SessionIsItsActions(c, inputs);
    var actions := RunActions(c, START, inputs);
    var t := ChannelSetup.RunTrack(ChannelSetup.NO_CHANNELS, actions);
    EnterAllIsRunConn(BLANK, actions);
    RunTrackIsRunConn(ChannelSetup.NO_CHANNELS, actions);
    ChannelSetup.NothingOpened();
    ChannelSetup.RunOk(ChannelSetup.NO_CHANNELS, actions);
    forall id | id in t.entries
      ensures ChannelSetup.Recorded(id, t.entries[id]) && ChannelSetup.Begins(id, t.entries[id].plan, t.entries[id].log)
    {
      ChannelSetup.SetupSequencing(actions, id);
    }
  }

  /** Data of up to the packet size that the OPEN announces is never refused for its size: whatever padding
      the peer chooses, under cipher `none` or either AEAD, the packet passes the length check and opens. */
  lemma AnnouncedPacketsAreTaken(c: Suite, k: Option<Cipher>, p: PacketPeer.Peer, id: U32, m: Bytes, code: U32, data: Bytes,
                                 padding: Bytes)
    requires LawfulAead(c) && PacketPeer.Shares(k, p) && PacketPeer.Ready(p) && |padding| < 0x100
    requires var o := Channel.ParseOpening(Channel.OpenMessage(id)); o.Ok? ==> |data| <= o.value.maxPacket
    requires Reads(m, Octet(94, Number(id, Text(data, End)))) || Reads(m, Octet(95, Number(id, Number(code, Text(data, End)))))
    ensures PacketPeer.Plausible(PacketPeer.Item(m, padding))
    ensures var wire := PacketPeer.Seals(c, p, m, padding);
            && |wire| >= 4
            && PeekTotal(c, k, wire[..4]) == Ok(|wire|)
            && OpenWire(c, k, wire).1 == Ok(m)
  {
    hide LawfulAead, PacketPeer.Shares, PacketPeer.Ready, PacketPeer.Seals, PeekTotal, OpenWire, Channel.ParseOpening,
         Channel.OpenMessage, Reads;
    Channel.OpenRoundTrip(id);
    var last := Text(data, End);
    assert Size(End) == 0;
    assert Size(last) == 4 + |data|;
    assert Size(Number(id, last)) == 8 + |data| && Size(Number(id, Number(code, last))) == 12 + |data|;
    if Reads(m, Octet(94, Number(id, last))) {
      ReadsSize(m, Octet(94, Number(id, last)));
    } else {
      ReadsSize(m, Octet(95, Number(id, Number(code, last))));
    }
    PacketPeer.OpensPeerSealed(c, k, p, m, padding);
  }
}
