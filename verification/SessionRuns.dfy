/** The invariants of SessionSafety over whole runs: every peer byte stream and host-call sequence. */
module SessionRuns {
  import opened Prelude
  import opened Primitives
  import opened Packet
  import opened PacketStream
  import opened Events
  import opened SessionModel
  import opened SessionSafety
  import Ident
  import KexInit
  import Auth
  import Channel
  import Connection

  // ---- one packet ----------------------------------------------------------------------------------

  /** No opened payload is longer than a packet. */
  lemma PayloadBound(c: Suite, k: Option<Cipher>, buf: Bytes)
    requires LawfulAead(c)
    ensures NextFrame(c, k, buf).Got? ==> |NextFrame(c, k, buf).payload| < MAX_PACKET_LENGTH
    ensures NextFrame(c, k, buf).Got? ==> NextFrame(c, k, buf).k.Some? == k.Some?
    ensures NextFrame(c, k, buf).Torn? ==> NextFrame(c, k, buf).k.Some? == k.Some?
  {
    hide OpenWire, PeekTotal, LawfulAead;
    if |buf| >= 4 && PeekTotal(c, k, buf[..4]).Ok? && |buf| >= PeekTotal(c, k, buf[..4]).value {
      OpenedBound(c, k, buf[..PeekTotal(c, k, buf[..4]).value]);
    }
  }

  lemma OpenedBound(c: Suite, k: Option<Cipher>, wire: Bytes)
    requires LawfulAead(c) && 4 + TagLen(k) < |wire| <= 4 + MAX_PACKET_LENGTH + TagLen(k)
    ensures OpenWire(c, k, wire).1.Ok? ==> |OpenWire(c, k, wire).1.value| < MAX_PACKET_LENGTH
    ensures OpenWire(c, k, wire).0.Some? == k.Some?
  {
    hide ClearLength, BodyKey, BodyNonce, Advance;
    var n := ClearLength(c, k, wire[..4]);
    if k.Some? && |wire| == 4 + n + TAG_LEN {
      var key := k.value;
      var body := c.decrypt(key.alg, BodyKey(key), BodyNonce(key), wire[..4], wire[4..4 + n], wire[4 + n..]);
      assert body.Some? ==> |body.value| == |wire[4..4 + n]|;
    }
  }

  lemma ChannelMessageKeeps(c: Suite, s: State, payload: Bytes)
    requires Live(s) && 0 < |payload| <= MAX_PACKET_LENGTH && Connection.IsChannelMessage(payload[0])
    ensures KeptBy(s, React(c, s, Connection.OnMessage(s.conn, payload[0], payload[1..])))
  {
    hide React, Connection.OnMessage, Mild, Connection.SoundAfter, KeptBy;
    Connection.MessageKeepsSound(s.conn, payload[0], payload[1..]);
    MessageIsMild(s.conn, payload[0], payload[1..]);
    ReactKeeps(c, s, Connection.OnMessage(s.conn, payload[0], payload[1..]));
  }

  lemma DispatchKeeps(c: Suite, s: State, payload: Bytes)
    requires Live(s) && 0 < |payload| <= MAX_PACKET_LENGTH
    ensures KeptBy(s, Dispatch(c, s, payload))
  {
    hide Live, KeptBy, Keeps, Always, React, HandleDisconnect, HandlePeerKexinit, HandleKexReply, HandleNewkeys,
         HandleServiceAccept, HandleUserauthFailure, HandleUserauthSuccess, HandlePkOk, HandleGlobalRequest,
         Connection.OnMessage;
    DisconnectKeeps(s, payload);
    PeerKexinitKeeps(c, s, payload);
    KexReplyKeeps(c, s, payload);
    NewkeysKeeps(s);
    ServiceAcceptKeeps(s, payload);
    UserauthFailureKeeps(s, payload);
    UserauthSuccessKeeps(s);
    PkOkKeeps(c, s, payload);
    GlobalRequestKeeps(c, s, payload);
    if Connection.IsChannelMessage(payload[0]) {
      ChannelMessageKeeps(c, s, payload);
    }
    FineKeeps(s);
    LiveFacts(s);
    KeepsReflexive(s);
    FailedKeeps(s, s, UnexpectedMessage(payload[0]));
  }

  lemma FineKeeps(s: State)
    requires Live(s)
    ensures KeptBy(s, Fine(s))
  {
    hide Keeps, Always;
    KeepsReflexive(s);
  }

  lemma WithScKeeps(s: State, k: Option<Cipher>)
    requires Live(s) && k.Some? == s.kex.sc.Some?
    ensures Keeps(s, WithSc(s, k)) && Live(WithSc(s, k))
  {
    hide Connection.AllSound, Implemented, Terminals, KexPacket;
  }

  lemma DeliverKeeps(c: Suite, s: State, k: Option<Cipher>, payload: Bytes)
    requires Live(s) && k.Some? == s.kex.sc.Some? && |payload| <= MAX_PACKET_LENGTH
    ensures Keeps(s, Deliver(c, s, k, payload))
  {
    hide Live, Keeps, Always, Dispatch, Settle, WithSc;
    var s1 := WithSc(s, k);
    WithScKeeps(s, k);
    LiveFacts(s1);
    FailKeeps(s1, Framing);
    if payload == [] {
      KeepsTransitive(s, s1, Fail(s1, Framing));
    } else {
      DispatchKeeps(c, s1, payload);
      KeepsTransitive(s, s1, Settle(s1, Dispatch(c, s1, payload)));
    }
  }

  lemma PacketTurnKeeps(c: Suite, s: State, buf: Bytes)
    requires LawfulAead(c) && Live(s)
    ensures PacketTurn(c, s, buf).Some? ==> Keeps(s, PacketTurn(c, s, buf).value.1)
  {
    hide Live, Keeps, Always, NextFrame, Deliver, WithSc, LawfulAead;
    PayloadBound(c, s.kex.sc, buf);
    LiveFacts(s);
    match NextFrame(c, s.kex.sc, buf)
    case Wait =>
    case Reject => FailKeeps(s, Framing);
    case Torn(total, k, e) =>
      WithScKeeps(s, k);
      LiveFacts(WithSc(s, k));
      FailKeeps(WithSc(s, k), e);
      KeepsTransitive(s, WithSc(s, k), Fail(WithSc(s, k), e));
    case Got(total, k, payload) => DeliverKeeps(c, s, k, payload);
  }

  // ---- the version exchange ------------------------------------------------------------------------

  lemma IdentKeeps(s: State, i: Ident.Scanner)
    requires Always(s) && s.phase == VersionExchange
    ensures Keeps(s, s.(ident := i)) && Always(s.(ident := i))
  {
    hide Connection.AllSound, Implemented, Terminals, KexPacket;
  }

  lemma BeginKexKeeps(c: Suite, s: State)
    requires Always(s) && s.phase == VersionExchange
    ensures Keeps(s, BeginKex(c, s))
  {
    hide Connection.AllSound, Implemented, Terminals, Emit, KexInit.Payload, KexInit.Ours;
    var cookie: Bytes16 := Draw(c, s.out.drawn, 16);
    var payload := KexInit.Payload(KexInit.Ours(cookie));
    KexInit.OurPayloadSize(cookie);
    EmitGrows(c, s.out.(drawn := s.out.drawn + 16), None, payload);
    assert OwnKexinit(payload);
  }

  lemma IdentTurnKeeps(c: Suite, s: State, buf: Bytes)
    requires Always(s) && s.phase == VersionExchange
    ensures IdentTurn(c, s, buf).Some? ==> Keeps(s, IdentTurn(c, s, buf).value.1)
  {
    hide Keeps, Always, BeginKex, Ident.Scan;
    if buf != [] && s.ident.server.None? {
      var i := Ident.Scan(s.ident, buf).s;
      IdentKeeps(s, i);
      FailKeeps(s.(ident := i), Framing);
      KeepsTransitive(s, s.(ident := i), Fail(s.(ident := i), Framing));
      BeginKexKeeps(c, s.(ident := i));
      KeepsTransitive(s, s.(ident := i), BeginKex(c, s.(ident := i)));
    }
  }

  lemma TurnKeeps(c: Suite, s: State, buf: Bytes)
    requires LawfulAead(c) && Always(s) && !Idle(s.phase)
    ensures Turn(c, s, buf).Some? ==> Keeps(s, Turn(c, s, buf).value.1)
  {
    hide Keeps, Always, IdentTurn, PacketTurn, LawfulAead;
    if s.phase == VersionExchange {
      IdentTurnKeeps(c, s, buf);
    } else {
      PacketTurnKeeps(c, s, buf);
    }
  }

  lemma {:induction false} DriveKeeps(c: Suite, s: State, buf: Bytes)
    requires LawfulAead(c) && Always(s)
    ensures Keeps(s, Drive(c, s, buf).core)
    decreases |buf|, if Over(s.phase) then 0 else 1
  {
    hide Keeps, Always, Turn, LawfulAead;
    if Idle(s.phase) || Turn(c, s, buf).None? {
      KeepsReflexive(s);
    } else {
      var (n, s') := Turn(c, s, buf).value;
      TurnKeeps(c, s, buf);
      KeepsIsAlways(s, s');
      DriveKeeps(c, s', buf[n..]);
      KeepsTransitive(s, s', Drive(c, s', buf[n..]).core);
    }
  }

  // ---- host calls ----------------------------------------------------------------------------------

  lemma SendOrHaltKeeps(c: Suite, s: State, t: State, payload: Bytes)
    requires Always(s)
    requires s.out.cs.Some? ==> Keeps(s, t) && t.out == s.out
    requires t.out.cs == s.out.cs
    ensures Keeps(s, SendOrHalt(c, s, t, payload))
  {
    hide Keeps, Always, SendCiphered;
    HaltKeeps(s);
    CipheredGrows(c, t.out, payload);
    if s.out.cs.Some? {
      var out := SendCiphered(c, t.out, payload).value;
      KeepsIsAlways(s, t);
      OutKeeps(t, out);
      KeepsTransitive(s, t, t.(out := out));
    }
  }

  lemma AuthKeeps(s: State, user: Bytes, auth: Option<PendingAuth>)
    requires Always(s) && (auth.Some? ==> s.out.cs.Some?)
    ensures Keeps(s, s.(username := Some(user), pendingAuth := auth))
  {
    hide Connection.AllSound, Implemented, Terminals, KexPacket;
  }

  lemma ConnKeeps(s: State, conn: Connection.Conn)
    requires Always(s) && s.out.cs.Some? && Connection.AllSound(conn)
    ensures Keeps(s, s.(conn := conn))
  {
    hide Connection.AllSound, Implemented, Terminals, KexPacket;
  }

  lemma OpenIsSound(conn: Connection.Conn, command: Bytes, pty: Connection.Pty)
    requires Connection.AllSound(conn)
    ensures Connection.AllSound(Connection.OpenExec(conn, command))
    ensures Connection.AllSound(Connection.OpenShell(conn, pty))
  {
  }

  lemma PublickeyKeeps(c: Suite, s: State, user: Bytes, key: PrivateKey)
    requires Always(s) && s.phase != Halted
    ensures Keeps(s, AuthenticatePublickey(c, s, user, key))
  {
    hide Keeps, Always, SendOrHalt, Auth.KeyQuery;
    KeepsReflexive(s);
    if s.phase == UserAuth {
      match c.userAlgorithm(key)
      case None =>
        if s.pendingAuth.None? || s.out.cs.Some? {
          AuthKeeps(s, user, s.pendingAuth);
        } else {
          PendingNeedsCipher(s);
        }
        assert s.(username := Some(user), pendingAuth := s.pendingAuth) == s.(username := Some(user));
      case Some(algorithm) =>
        var blob := c.publicBlob(key);
        var auth := Some(PublicKeyQuery(user, algorithm, blob, key));
        if s.out.cs.Some? { AuthKeeps(s, user, auth); }
        SendOrHaltKeeps(c, s, s.(username := Some(user), pendingAuth := auth), Auth.KeyQuery(user, algorithm, blob));
    }
  }

  lemma PendingNeedsCipher(s: State)
    requires Always(s)
    ensures s.pendingAuth.Some? ==> s.out.cs.Some?
    ensures Connection.AllSound(s.conn)
  {
  }

  lemma PasswordKeeps(c: Suite, s: State, user: Bytes, password: Bytes)
    requires Always(s)
    ensures Keeps(s, AuthenticatePassword(c, s, user, password))
  {
    hide Keeps, Always, SendOrHalt, Auth.PasswordRequest;
    KeepsReflexive(s);
    if s.out.cs.Some? { AuthKeeps(s, user, Some(PasswordSent)); }
    SendOrHaltKeeps(c, s, s.(username := Some(user), pendingAuth := Some(PasswordSent)),
                    Auth.PasswordRequest(user, password));
  }

  lemma OpenKeeps(c: Suite, s: State, command: Bytes, pty: Connection.Pty)
    requires Always(s)
    ensures Keeps(s, OpenExec(c, s, command)) && Keeps(s, OpenShell(c, s, pty))
  {
    hide Keeps, Always, SendOrHalt, Connection.OpenExec, Connection.OpenShell, Connection.AllSound, Channel.OpenMessage;
    PendingNeedsCipher(s);
    OpenIsSound(s.conn, command, pty);
    if s.out.cs.Some? {
      ConnKeeps(s, Connection.OpenExec(s.conn, command));
      ConnKeeps(s, Connection.OpenShell(s.conn, pty));
    }
    SendOrHaltKeeps(c, s, s.(conn := Connection.OpenExec(s.conn, command)), Channel.OpenMessage(s.conn.nextId));
    SendOrHaltKeeps(c, s, s.(conn := Connection.OpenShell(s.conn, pty)), Channel.OpenMessage(s.conn.nextId));
  }

  lemma ChannelCallsMild(conn: Connection.Conn, id: U32, data: Bytes, cols: U32, rows: U32)
    requires Connection.AllSound(conn)
    ensures Mild(conn, Connection.ChannelSend(conn, id, data)) && Mild(conn, Connection.ResizePty(conn, id, cols, rows))
    ensures Mild(conn, Connection.CloseChannel(conn, id))
    ensures Connection.SoundAfter(Connection.ChannelSend(conn, id, data))
    ensures Connection.SoundAfter(Connection.ResizePty(conn, id, cols, rows))
    ensures Connection.SoundAfter(Connection.CloseChannel(conn, id))
  {
    hide Channel.SendData, Connection.WindowChangeRequest, Channel.IdMessage, Connection.AllSound;
    Connection.ChannelSendKeepsSound(conn, id, data);
    OneMildEvent(ChannelWindowFull(id));
  }

  lemma ChannelCallKeeps(c: Suite, s: State, i: Input)
    requires Always(s) && (i.SendData? || i.Resize? || i.CloseChannel?)
    ensures Keeps(s, HostCall(c, s, i))
  {
    hide Keeps, Always, React, Connection.ChannelSend, Connection.ResizePty, Connection.CloseChannel, Mild,
         Connection.SoundAfter, Connection.AllSound;
    PendingNeedsCipher(s);
    match i
    case SendData(id, data) =>
      ChannelCallsMild(s.conn, id, data, 0, 0);
      NoRefusal(s.conn, id, data, 0, 0);
      ReactKeeps(c, s, Connection.ChannelSend(s.conn, id, data));
    case Resize(id, cols, rows) =>
      ChannelCallsMild(s.conn, id, [], cols, rows);
      NoRefusal(s.conn, id, [], cols, rows);
      ReactKeeps(c, s, Connection.ResizePty(s.conn, id, cols, rows));
    case CloseChannel(id) =>
      ChannelCallsMild(s.conn, id, [], 0, 0);
      NoRefusal(s.conn, id, [], 0, 0);
      ReactKeeps(c, s, Connection.CloseChannel(s.conn, id));
  }

  lemma NoRefusal(conn: Connection.Conn, id: U32, data: Bytes, cols: U32, rows: U32)
    ensures !Connection.ChannelSend(conn, id, data).Refused? && !Connection.ResizePty(conn, id, cols, rows).Refused?
    ensures !Connection.CloseChannel(conn, id).Refused?
  {
  }

  lemma HostCallKeeps(c: Suite, s: State, i: Input)
    requires Always(s) && s.phase != Halted && !i.FeedIncoming? && !i.ProvideHostKeyDecision?
    ensures Keeps(s, HostCall(c, s, i))
  {
    hide Keeps, Always, AuthenticatePassword, AuthenticatePublickey, OpenExec, OpenShell, React;
    if i.SendData? || i.Resize? || i.CloseChannel? {
      ChannelCallKeeps(c, s, i);
    } else {
      match i
      case NotifyTransportClosed =>
        KeepsReflexive(s);
        if !Over(s.phase) { FailKeeps(s, SshError.TransportClosed); }
      case Password(user, password) => PasswordKeeps(c, s, user, password);
      case PublicKey(user, key) => PublickeyKeeps(c, s, user, key);
      case Exec(command) => OpenKeeps(c, s, command, Connection.DefaultPty());
      case Shell(pty) => OpenKeeps(c, s, [], pty);
    }
  }

  // ---- the host-key decision -------------------------------------------------------------------------

  /** Accepting never panics, and keeps everything but the gate. */
  lemma AcceptedKeeps(c: Suite, s: State)
    requires Always(s) && s.phase == AwaitingHostKeyDecision
    ensures var t := Accepted(c, s); t.phase == ServiceRequest && Always(t) && Grows(s, t)
  {
    hide Connection.AllSound, Implemented, Terminals, Emit, Auth.ServiceRequest, Auth.ServiceUserauth;
    EmitGrows(c, s.out, None, [KexInit.MSG_NEWKEYS]);
    var out := SendPlain(c, s.out, [KexInit.MSG_NEWKEYS]).(cs := Some(s.kex.pendingCiphers.value.cs));
    EmitGrows(c, out, out.cs, Auth.ServiceRequest(Auth.ServiceUserauth()));
  }

  predicate Accepts(x: Session, i: Input) {
    x.core.phase == AwaitingHostKeyDecision && i == ProvideHostKeyDecision(true)
  }

  lemma KeepsIsGrows(s: State, t: State)
    requires Keeps(s, t)
    ensures Grows(s, t) && Always(t) && (Gated(s) ==> Gated(t))
  {
  }

  lemma GrowsTransitive(s: State, t: State, u: State)
    requires Grows(s, t) && Grows(t, u)
    ensures Grows(s, u)
  {
  }

  /** One call, from any state: everything always kept is kept; the gate is kept unless this is the
      accepting decision. */
  lemma DoKeeps(c: Suite, x: Session, i: Input)
    requires LawfulAead(c) && Always(x.core)
    ensures var y := Do(c, x, i);
            && Always(y.core) && Grows(x.core, y.core)
            && (Gated(x.core) && !Accepts(x, i) ==> Gated(y.core))
  {
    hide Always, Keeps, Gated, Grows, Drive, HostCall, Accepted, LawfulAead;
    KeepsReflexive(x.core);
    KeepsIsGrows(x.core, x.core);
    if x.core.phase != Halted {
      match i
      case FeedIncoming(b) =>
        DriveKeeps(c, x.core, x.incoming + b);
        KeepsIsGrows(x.core, Drive(c, x.core, x.incoming + b).core);
      case ProvideHostKeyDecision(accept) =>
        if x.core.phase == AwaitingHostKeyDecision {
          if accept {
            var t := Accepted(c, x.core);
            AcceptedKeeps(c, x.core);
            DriveKeeps(c, t, x.incoming);
            KeepsIsGrows(t, Drive(c, t, x.incoming).core);
            GrowsTransitive(x.core, t, Drive(c, t, x.incoming).core);
          } else {
            FailKeeps(x.core, HostKeyRejected);
            KeepsIsGrows(x.core, Fail(x.core, HostKeyRejected));
          }
        }
      case _ =>
        HostCallKeeps(c, x.core, i);
        KeepsIsGrows(x.core, HostCall(c, x.core, i));
    }
  }

  // ---- runs ------------------------------------------------------------------------------------------

  /** No call of the run is an accepting decision made in the pause. */
  predicate NeverAccepts(c: Suite, x: Session, inputs: seq<Input>)
    decreases |inputs|
  {
    inputs == [] || (!Accepts(x, inputs[0]) && NeverAccepts(c, Do(c, x, inputs[0]), inputs[1..]))
  }

  lemma {:induction false} RunKeeps(c: Suite, x: Session, inputs: seq<Input>)
    requires LawfulAead(c) && Always(x.core)
    ensures var y := Run(c, x, inputs);
            && Always(y.core) && Grows(x.core, y.core)
            && (Gated(x.core) && NeverAccepts(c, x, inputs) ==> Gated(y.core))
    decreases |inputs|
  {
    hide Always, Gated, Grows, Do, Accepts, LawfulAead;
    if inputs == [] {
      GrowsReflexive(x.core);
    } else {
      var y := Do(c, x, inputs[0]);
      DoKeeps(c, x, inputs[0]);
      RunKeeps(c, y, inputs[1..]);
      GrowsTransitive(x.core, y.core, Run(c, y, inputs[1..]).core);
    }
  }

  lemma GrowsReflexive(s: State) ensures Grows(s, s) {}

  lemma StartIsAlways()
    ensures Always(START.core) && Gated(START.core)
  {
  }

  /** Host-key gate, for any peer and any host calls: until an accepting decision is made in
      AwaitingHostKeyDecision, everything sent is the identification line followed by plaintext
      packets of type 20 or 30, and no cipher is active or waiting in either direction. */
  lemma HostKeyGate(c: Suite, inputs: seq<Input>)
    requires LawfulAead(c) && NeverAccepts(c, START, inputs)
    ensures Gated(Run(c, START, inputs).core)
  {
    hide Always, Gated, Grows, Run, NeverAccepts, LawfulAead;
    StartIsAlways();
    RunKeeps(c, START, inputs);
  }

  /** In every reachable state: a receiving cipher implies a sending one and a session id, kex and auth
      steps have what they need, every channel's receive window is conserved, and there has been
      exactly one Disconnected or Unrecoverable event if the session is closed, else none. */
  lemma ReachableStates(c: Suite, inputs: seq<Input>)
    requires LawfulAead(c)
    ensures Always(Run(c, START, inputs).core)
  {
    hide Always, Gated, Grows, Run, NeverAccepts, LawfulAead;
    StartIsAlways();
    RunKeeps(c, START, inputs);
  }

  lemma {:induction false} RunAppend(c: Suite, x: Session, first: seq<Input>, more: seq<Input>)
    ensures Run(c, x, first + more) == Run(c, Run(c, x, first), more)
    decreases |first|
  {
    hide Do;
    if first == [] {
      assert first + more == more;
    } else {
      assert (first + more)[1..] == first[1..] + more;
      RunAppend(c, Do(c, x, first[0]), first[1..], more);
    }
  }

  /** Over every run: the session id never changes once set, and nothing sent or raised is taken back. */
  lemma RunsOnlyGrow(c: Suite, inputs: seq<Input>, more: seq<Input>)
    requires LawfulAead(c)
    ensures var s, t := Run(c, START, inputs).core, Run(c, START, inputs + more).core;
            && (s.kex.sessionId.Some? ==> t.kex.sessionId == s.kex.sessionId)
            && s.out.sent <= t.out.sent && s.events <= t.events
  {
    hide Always, Gated, Run, NeverAccepts, LawfulAead;
    ReachableStates(c, inputs);
    RunAppend(c, START, inputs, more);
    RunKeeps(c, Run(c, START, inputs), more);
  }

  // ---- the gate in bytes -----------------------------------------------------------------------------

  lemma {:induction false} PlainLogReads(c: Suite, sent: seq<Sent>)
    requires LawfulAead(c)
    requires forall i :: 0 <= i < |sent| ==> KexPacket(sent[i])
    ensures Receive(c, None, Render(c, sent)) == Inbox(Payloads(sent), None, [], false)
    ensures forall p | p in Payloads(sent) :: KexPayload(p)
  {
    hide NextFrame, SealWire, KexPayload;
    if sent == [] {
      FrameOfNothing(c, None);
    } else {
      assert KexPacket(sent[0]);
      ShortBody(sent[0].payload, sent[0].padding);
      FrameOfSealed(c, None, sent[0].payload, sent[0].padding, Render(c, sent[1..]));
      var wire := WireOf(c, sent[0]);
      assert (wire + Render(c, sent[1..]))[|wire|..] == Render(c, sent[1..]);
      PlainLogReads(c, sent[1..]);
    }
  }

  lemma ShortBody(payload: Bytes, padding: Padding)
    requires KexPayload(payload)
    ensures |Body(payload, padding)| <= MAX_PACKET_LENGTH
  {
  }

  /** The host-key gate as an observer of the wire sees it: the bytes are the identification line and
      then a stream that parses, under cipher `none` and to the last byte, into payloads of type 20 or
      30. */
  lemma HostKeyGateOnTheWire(c: Suite, inputs: seq<Input>)
    requires LawfulAead(c) && NeverAccepts(c, START, inputs)
    ensures var sent := Run(c, START, inputs).core.out.sent;
            && sent != []
            && Render(c, sent) == Ident.CLIENT_IDENT_LINE + Render(c, sent[1..])
            && var inbox := Receive(c, None, Render(c, sent[1..]));
               && inbox.rest == [] && !inbox.failed
               && forall p | p in inbox.payloads :: |p| > 0 && (p[0] == 20 || p[0] == 30)
  {
    hide Run, NeverAccepts, Receive;
    HostKeyGate(c, inputs);
    var sent := Run(c, START, inputs).core.out.sent;
    PlainLogReads(c, sent[1..]);
  }

  // ---- the end ---------------------------------------------------------------------------------------

  /** Closed is absorbing: no call reopens a closed session, changes whether it is closed, or raises
      another terminal event; the only way out is the panic of opening a channel when no cipher was
      ever activated. */
  lemma ClosedIsAbsorbing(c: Suite, x: Session, i: Input)
    requires LawfulAead(c) && Always(x.core) && x.core.phase == Closed
    ensures var y := Do(c, x, i);
            && (y.core.phase == Closed || y.core.phase == Halted)
            && (y.core.phase == Halted <==> x.core.out.cs.None? && (i.Exec? || i.Shell?))
            && Terminals(y.core.events) == 1
  {
    hide Terminals, Connection.AllSound, Connection.OpenExec, Connection.OpenShell, Channel.OpenMessage, Emit,
         Connection.ChannelSend, Connection.ResizePty, Connection.CloseChannel, React, LawfulAead;
    match i {
      case SendData(id, data) => ClosedChannelCall(c, x.core, i, Connection.ChannelSend(x.core.conn, id, data));
      case Resize(id, cols, rows) => ClosedChannelCall(c, x.core, i, Connection.ResizePty(x.core.conn, id, cols, rows));
      case CloseChannel(id) => ClosedChannelCall(c, x.core, i, Connection.CloseChannel(x.core.conn, id));
      case _ =>
    }
  }

  /** That panic is within reach: the transport goes away before any key exchange, and the host then opens
      a channel. */
  lemma OpeningTooLatePanics(c: Suite, command: Bytes)
    ensures Run(c, START, [NotifyTransportClosed]).core.phase == Closed
    ensures Run(c, START, [NotifyTransportClosed, Exec(command)]).core.phase == Halted
  {
    hide Connection.OpenExec, Channel.OpenMessage;
    var calls := [NotifyTransportClosed, Exec(command)];
    assert calls[1..] == [Exec(command)] && calls[1..][1..] == [];
    assert [NotifyTransportClosed][1..] == [];
    var closed := Do(c, START, NotifyTransportClosed);
    assert Run(c, START, calls) == Run(c, closed, calls[1..]);
    assert Run(c, closed, [Exec(command)]) == Run(c, Do(c, closed, Exec(command)), []);
  }

  lemma ClosedChannelCall(c: Suite, s: State, i: Input, r: Connection.Reaction)
    requires Always(s) && s.phase == Closed
    requires r == (match i
                   case SendData(id, data) => Connection.ChannelSend(s.conn, id, data)
                   case Resize(id, cols, rows) => Connection.ResizePty(s.conn, id, cols, rows)
                   case CloseChannel(id) => Connection.CloseChannel(s.conn, id)
                   case _ => r)
    requires i.SendData? || i.Resize? || i.CloseChannel?
    ensures var t := Settle(s, React(c, s, r)); t.phase == Closed && Terminals(t.events) == 1
  {
    hide Terminals, Connection.AllSound, SendEach, Connection.ChannelSend, Connection.ResizePty, Connection.CloseChannel;
    match i {
      case SendData(id, data) =>
        ChannelCallsMild(s.conn, id, data, 0, 0);
        ChannelCallsAnswer(s.conn, id, data, 0, 0);
      case Resize(id, cols, rows) =>
        ChannelCallsMild(s.conn, id, [], cols, rows);
        ChannelCallsAnswer(s.conn, id, [], cols, rows);
      case CloseChannel(id) =>
        ChannelCallsMild(s.conn, id, [], 0, 0);
        ChannelCallsAnswer(s.conn, id, [], 0, 0);
    }
    EachGrows(c, s.out, r.sends);
    TerminalsAppend(s.events, r.events);
  }

  lemma ChannelCallsAnswer(conn: Connection.Conn, id: U32, data: Bytes, cols: U32, rows: U32)
    requires Connection.AllSound(conn)
    ensures Connection.ChannelSend(conn, id, data).Reacted? && Connection.ResizePty(conn, id, cols, rows).Reacted?
    ensures Connection.CloseChannel(conn, id).Reacted?
  {
    Connection.ChannelSendKeepsSound(conn, id, data);
  }
}
