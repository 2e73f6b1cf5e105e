/** What every session keeps, for any peer and any host calls: the host-key gate, cipher and session-id
    discipline, sound channels, and exactly one terminal event. */
module SessionSafety {
  import opened Prelude
  import opened Primitives
  import opened Packet
  import opened Events
  import opened SessionModel
  import Ident
  import KexInit
  import Exchange
  import Auth
  import Channel
  import Connection

  // ---- the invariants ------------------------------------------------------------------------------

  /** Ciphers: nothing is received under a cipher before something can be sent under one; a cipher
      exists only after an exchange hash; whatever is pending can be carried out. */
  ghost predicate CiphersInOrder(s: State) {
    && (s.kex.sc.Some? || s.kex.pendingSc.Some? ==> s.out.cs.Some?)
    && (s.out.cs.Some? || s.kex.pendingCiphers.Some? ==> s.kex.sessionId.Some?)
    && (s.phase == AwaitingHostKeyDecision ==> s.kex.pendingCiphers.Some?)
    && (s.pendingAuth.Some? ==> s.out.cs.Some?)
    && (s.conn.channels != map[] ==> s.out.cs.Some?)
  }

  predicate Implemented(n: KexInit.Negotiated) {
    && (n.kex == KexInit.CURVE25519 || n.kex == KexInit.GROUP14)
    && FromName(n.encryptionCs).Some?
  }

  ghost predicate OwnKexinit(payload: Bytes) { exists cookie: Bytes16 :: payload == KexInit.Payload(KexInit.Ours(cookie)) }

  /** Key exchange: ours is the only KEXINIT we ever sent, and negotiation named implemented algorithms. */
  ghost predicate KexInOrder(s: State) {
    && (s.phase != VersionExchange && !Over(s.phase) ==> OwnKexinit(s.kex.ownPayload))
    && (s.kex.active.Some? ==> s.kex.negotiated.Some?)
    && (s.kex.negotiated.Some? ==> Implemented(s.kex.negotiated.value))
  }

  /** Exactly one terminal event once closed, none before. */
  predicate OneTerminal(s: State) { s.phase != Halted ==> Terminals(s.events) == if s.phase == Closed then 1 else 0 }

  ghost predicate Always(s: State) {
    CiphersInOrder(s) && KexInOrder(s) && OneTerminal(s) && Connection.AllSound(s.conn)
  }

  /** Logs only grow, the session id never changes once set, and an active cipher stays active. */
  predicate Grows(s: State, t: State) {
    && s.out.sent <= t.out.sent
    && s.events <= t.events
    && (s.kex.sessionId.Some? ==> t.kex.sessionId == s.kex.sessionId)
    && (s.out.cs.Some? ==> t.out.cs.Some?)
  }

  const MAX_KEX_PAYLOAD := 3000

  /** A short payload of type 20 (KEXINIT) or 30 (KEX_ECDH_INIT / KEXDH_INIT). */
  predicate KexPayload(payload: Bytes) {
    0 < |payload| <= MAX_KEX_PAYLOAD && (payload[0] == 20 || payload[0] == 30)
  }

  predicate KexPacket(item: Sent) { item.Sealed? && item.k.None? && KexPayload(item.payload) }

  /** Before the host key is accepted: only the identification line and key-exchange packets have been
      sent, and no cipher is in place or waiting. */
  ghost predicate Gated(s: State) {
    && s.out.cs.None? && s.kex.sc.None? && s.kex.pendingSc.None?
    && |s.out.sent| >= 1 && s.out.sent[0] == Line(Ident.CLIENT_IDENT_LINE)
    && forall i :: 1 <= i < |s.out.sent| ==> KexPacket(s.out.sent[i])
  }

  /** What one step keeps. */
  ghost predicate Keeps(s: State, t: State) { Always(t) && Grows(s, t) && (Gated(s) ==> Gated(t)) }

  lemma KeepsTransitive(s: State, t: State, u: State)
    requires Keeps(s, t) && Keeps(t, u)
    ensures Keeps(s, u)
  {
    hide Always, Gated;
  }

  lemma KeepsReflexive(s: State)
    requires Always(s)
    ensures Keeps(s, s)
  {
    hide Always, Gated;
  }

  // ---- how handlers may end ----------------------------------------------------------------------------

  lemma OneMoreEvent(es: seq<Event>, e: Event)
    ensures Terminals(es + [e]) == Terminals(es) + if IsTerminal(e) then 1 else 0
  {
    TerminalsAppend(es, [e]);
    assert [e][1..] == [];
  }

  lemma FailKeeps(s: State, e: SshError)
    requires Always(s) && !Over(s.phase)
    ensures Keeps(s, Fail(s, e))
  {
    hide Connection.AllSound, Implemented, Terminals;
    OneMoreEvent(s.events, Unrecoverable(e));
  }

  lemma HaltKeeps(s: State)
    requires Always(s)
    ensures Keeps(s, Halt(s))
  {
    hide Connection.AllSound, Implemented;
  }

  /** An open session, past the version exchange, not paused. */
  ghost predicate Live(s: State) { Always(s) && !Idle(s.phase) && s.phase != VersionExchange }

  ghost predicate KeptBy(s: State, o: Outcome) { Keeps(s, Settle(s, o)) }

  lemma FailedKeeps(s: State, t: State, e: SshError)
    requires Keeps(s, t) && !Over(t.phase)
    ensures KeptBy(s, Failed(t, e))
  {
    hide Keeps;
    KeepsIsAlways(s, t);
    FailKeeps(t, e);
    KeepsTransitive(s, t, Fail(t, e));
  }

  lemma KeepsIsAlways(s: State, t: State)
    requires Keeps(s, t)
    ensures Always(t)
  {
  }

  lemma PanicKeeps(s: State)
    requires Always(s)
    ensures KeptBy(s, Panic)
  {
    hide Keeps, Always;
    HaltKeeps(s);
  }

  // ---- sending -----------------------------------------------------------------------------------------

  lemma CipheredGrows(c: Suite, o: Out, payload: Bytes)
    ensures SendCiphered(c, o, payload).Some? <==> o.cs.Some?
    ensures o.cs.Some? ==> var o' := SendCiphered(c, o, payload).value; o.sent <= o'.sent && o'.cs.Some?
  {
  }

  lemma {:induction false} EachGrows(c: Suite, o: Out, payloads: seq<Bytes>)
    ensures o.cs.Some? ==> SendEach(c, o, payloads).Some?
    ensures o.cs.None? && payloads == [] ==> SendEach(c, o, payloads) == Some(o)
    ensures o.cs.None? && payloads != [] ==> SendEach(c, o, payloads).None?
    ensures SendEach(c, o, payloads).Some? ==>
              var o' := SendEach(c, o, payloads).value; o.sent <= o'.sent && (o.cs.Some? ==> o'.cs.Some?)
    decreases |payloads|
  {
    hide SendCiphered;
    CipheredGrows(c, o, if payloads == [] then [] else payloads[0]);
    if payloads != [] && o.cs.Some? {
      EachGrows(c, SendCiphered(c, o, payloads[0]).value, payloads[1..]);
    }
  }

  /** A state that differs only by more ciphered output. */
  lemma OutKeeps(s: State, out: Out)
    requires Always(s) && s.out.cs.Some? && out.cs.Some? && s.out.sent <= out.sent
    ensures Keeps(s, s.(out := out))
  {
    hide Connection.AllSound, Implemented, Terminals;
  }

  // ---- handlers ----------------------------------------------------------------------------------------

  lemma DisconnectKeeps(s: State, payload: Bytes)
    requires Live(s) && |payload| > 0
    ensures KeptBy(s, HandleDisconnect(s, payload))
  {
    hide Connection.AllSound, Implemented, Terminals, ParseDisconnect, Keeps;
    match ParseDisconnect(payload[1..])
    case Err(e) => FailKeeps(s, e);
    case Ok(event) =>
      DisconnectEvent(payload[1..]);
      CloseKeeps(s, event);
  }

  lemma DisconnectEvent(r: Bytes)
    ensures ParseDisconnect(r).Ok? ==> IsTerminal(ParseDisconnect(r).value)
  {
  }

  lemma CloseKeeps(s: State, e: Event)
    requires Live(s) && IsTerminal(e)
    ensures Keeps(s, Raise(s.(phase := Closed), e))
  {
    hide Connection.AllSound, Implemented, Terminals;
    OneMoreEvent(s.events, e);
  }

  /** Raising a non-terminal event and changing phase between open ones. */
  lemma RaiseKeeps(s: State, p: Phase, auth: Option<PendingAuth>, e: Event)
    requires Live(s) && !Idle(p) && p != VersionExchange && !IsTerminal(e)
    requires auth.None? || auth == s.pendingAuth
    ensures Keeps(s, Raise(s.(phase := p, pendingAuth := auth), e))
  {
    hide Connection.AllSound, Implemented, Terminals;
    OneMoreEvent(s.events, e);
  }

  lemma ServiceAcceptKeeps(s: State, payload: Bytes)
    requires Live(s)
    ensures KeptBy(s, HandleServiceAccept(s, payload))
  {
    hide Always, Keeps, Auth.ParseServiceAccept, Auth.ServiceUserauth;
    match Auth.ParseServiceAccept(payload)
    case Err(e) => FailKeeps(s, e);
    case Ok(service) =>
      FailKeeps(s, Negotiation);
      RaiseKeeps(s, UserAuth, s.pendingAuth, ReadyForAuth);
      assert s.(phase := UserAuth, pendingAuth := s.pendingAuth) == s.(phase := UserAuth);
  }

  lemma UserauthFailureKeeps(s: State, payload: Bytes)
    requires Live(s)
    ensures KeptBy(s, HandleUserauthFailure(s, payload))
  {
    hide Always, Keeps, Auth.ParseFailure;
    match Auth.ParseFailure(payload)
    case Err(e) => FailKeeps(s, e);
    case Ok(methods) =>
      RaiseKeeps(s, s.phase, None, AuthFailure(methods));
      assert s.(phase := s.phase, pendingAuth := None) == s.(pendingAuth := None);
  }

  lemma UserauthSuccessKeeps(s: State)
    requires Live(s)
    ensures KeptBy(s, HandleUserauthSuccess(s))
  {
    hide Always, Keeps;
    RaiseKeeps(s, Connected, None, AuthSuccess);
  }

  lemma ForgetAuthKeeps(s: State)
    requires Always(s)
    ensures Keeps(s, s.(pendingAuth := None))
  {
    hide Connection.AllSound, Implemented, Terminals;
  }

  lemma SignedKeeps(s: State, out: Out)
    requires Always(s) && s.out.cs.Some? && out.cs.Some? && s.out.sent <= out.sent
    ensures Keeps(s, s.(pendingAuth := Some(PublicKeySigned), out := out))
  {
    hide Connection.AllSound, Implemented, Terminals;
  }

  lemma PkOkKeeps(c: Suite, s: State, payload: Bytes)
    requires Live(s)
    ensures KeptBy(s, HandlePkOk(c, s, payload))
  {
    hide Always, Keeps, Auth.ParsePkOk, Auth.SignedData, Auth.SignedRequest, SendCiphered;
    var s1 := s.(pendingAuth := None);
    ForgetAuthKeeps(s);
    FailKeeps(s, UnsupportedAuthMethod);
    PanicKeeps(s);
    if s.pendingAuth.Some? && s.pendingAuth.value.PublicKeyQuery? {
      var q := s.pendingAuth.value;
      if Auth.ParsePkOk(payload).Err? {
        FailedKeeps(s, s1, Auth.ParsePkOk(payload).error);
      } else if s.kex.sessionId.Some? {
        FailedKeeps(s, s1, SigningFailed);
        var signature := c.sign(q.key, Auth.SignedData(s.kex.sessionId.value, q.user, q.algorithm, q.blob));
        if signature.Some? {
          var request := Auth.SignedRequest(q.user, q.algorithm, q.blob, signature.value);
          CipheredGrows(c, s.out, request);
          if s.out.cs.Some? {
            var out := SendCiphered(c, s.out, request).value;
            SignedKeeps(s, out);
            assert s1.(pendingAuth := Some(PublicKeySigned), out := out)
                == s.(pendingAuth := Some(PublicKeySigned), out := out);
          }
        }
      }
    }
  }

  lemma GlobalRequestKeeps(c: Suite, s: State, payload: Bytes)
    requires Live(s) && |payload| > 0
    ensures KeptBy(s, HandleGlobalRequest(c, s, payload))
  {
    hide Always, Keeps, ParseGlobalRequest, SendCiphered;
    PanicKeeps(s);
    KeepsReflexive(s);
    match ParseGlobalRequest(payload[1..])
    case Err(e) => FailKeeps(s, e);
    case Ok(wantReply) =>
      CipheredGrows(c, s.out, [MSG_REQUEST_FAILURE]);
      match SendCiphered(c, s.out, [MSG_REQUEST_FAILURE])
      case None =>
      case Some(out) => OutKeeps(s, out);
  }

  // ---- key exchange --------------------------------------------------------------------------------------

  lemma PeerPayloadKeeps(s: State, payload: Bytes)
    requires Live(s)
    ensures Keeps(s, s.(kex := s.kex.(peerPayload := payload))) && Live(s.(kex := s.kex.(peerPayload := payload)))
  {
    hide Connection.AllSound, Implemented, Terminals;
  }

  lemma ClearActiveKeeps(s: State)
    requires Live(s)
    ensures Keeps(s, s.(kex := s.kex.(active := None)))
    ensures Live(s.(kex := s.kex.(active := None)))
  {
    hide Connection.AllSound, Implemented, Terminals;
  }

  lemma EmitGrows(c: Suite, o: Out, k: Option<Cipher>, payload: Bytes)
    ensures var o' := Emit(c, o, k, payload);
            && o.sent <= o'.sent
            && |o'.sent| == |o.sent| + 1
            && o'.sent[|o.sent|].Sealed? && o'.sent[|o.sent|].k == k && o'.sent[|o.sent|].payload == payload
            && o'.cs == o.cs
  {
  }

  lemma SendKexInitKeeps(c: Suite, s: State, n: KexInit.Negotiated, active: ActiveKex, drawn: nat, msg: Bytes)
    requires Live(s) && Implemented(n) && KexPayload(msg)
    ensures Keeps(s, SendKexInit(c, s, n, active, drawn, msg))
  {
    hide Connection.AllSound, Implemented, Terminals, Emit;
    EmitGrows(c, s.out.(drawn := s.out.drawn + drawn), s.out.cs, msg);
  }

  lemma CurveInitIsKex(q: Bytes32)
    ensures KexPayload(Exchange.CurveInit(q))
  {
  }

  lemma Group14InitIsKex(e: Bytes256)
    ensures KexPayload(Exchange.Group14Init(e))
  {
  }

  lemma StartKexKeeps(c: Suite, s: State, n: KexInit.Negotiated)
    requires Live(s) && Implemented(n)
    ensures KeptBy(s, StartKex(c, s, n))
  {
    hide Always, Keeps, SendKexInit, KexPayload, Exchange.CurveInit, Exchange.Group14Init;
    if n.kex == KexInit.CURVE25519 {
      var secret := Draw(c, s.out.drawn, 32);
      CurveInitIsKex(c.x25519Public(secret));
      SendKexInitKeeps(c, s, n, Curve25519(secret), 32, Exchange.CurveInit(c.x25519Public(secret)));
    } else {
      var secret := Draw(c, s.out.drawn, 256);
      Group14InitIsKex(c.group14Public(secret));
      SendKexInitKeeps(c, s, n, Group14(secret), 256, Exchange.Group14Init(c.group14Public(secret)));
    }
  }

  /** Our own payload parses, and whatever is negotiated is implemented: the fallback arm of
      `handle_peer_kexinit` and the `from_name` failure of `on_kex_result` are unreachable. */
  lemma PeerKexinitReachesKex(s: State, payload: Bytes)
    requires KexInOrder(s) && !Over(s.phase) && s.phase != VersionExchange
    ensures KexInit.Parse(s.kex.ownPayload).Ok?
    ensures KexInit.Parse(payload).Ok? ==>
              var n := KexInit.NegotiateAll(KexInit.Parse(s.kex.ownPayload).value, KexInit.Parse(payload).value);
              n.Ok? ==> Implemented(n.value)
  {
    hide KexInit.Parse, KexInit.Payload, KexInit.NegotiateAll;
    var cookie: Bytes16 :| s.kex.ownPayload == KexInit.Payload(KexInit.Ours(cookie));
    KexInit.OurPayloadParses(cookie);
    if KexInit.Parse(payload).Ok? {
      var theirs := KexInit.Parse(payload).value;
      if KexInit.NegotiateAll(KexInit.Ours(cookie), theirs).Ok? {
        KexInit.NegotiatedIsImplemented(cookie, theirs);
      }
    }
  }

  lemma LiveFacts(s: State)
    requires Live(s)
    ensures Always(s) && KexInOrder(s) && !Over(s.phase) && !Idle(s.phase) && s.phase != VersionExchange
  {
  }

  lemma PeerKexinitKeeps(c: Suite, s: State, payload: Bytes)
    requires Live(s)
    ensures KeptBy(s, HandlePeerKexinit(c, s, payload))
  {
    hide Live, Always, Keeps, KeptBy, KexInOrder, Implemented, KexInit.Parse, KexInit.NegotiateAll, StartKex;
    var s1 := s.(kex := s.kex.(peerPayload := payload));
    LiveFacts(s);
    PeerPayloadKeeps(s, payload);
    PeerKexinitReachesKex(s, payload);
    var ours := KexInit.Parse(s.kex.ownPayload).value;
    match KexInit.Parse(payload)
    case Err(e) => FailedKeeps(s, s1, e);
    case Ok(theirs) =>
      match KexInit.NegotiateAll(ours, theirs)
      case Err(e) => FailedKeeps(s, s1, e);
      case Ok(n) =>
        StartKexKeeps(c, s1, n);
        KeptThrough(s, s1, StartKex(c, s1, n));
  }

  /** Composing a silent change of state with an outcome that cannot panic. */
  lemma KeptThrough(s: State, s1: State, o: Outcome)
    requires Keeps(s, s1) && KeptBy(s1, o) && Always(s)
    ensures KeptBy(s, o)
  {
    hide Keeps, Always;
    if o.Panic? {
      HaltKeeps(s);
    } else {
      KeepsTransitive(s, s1, Settle(s1, o));
    }
  }

  lemma KexResultKeeps(c: Suite, s: State, hostKey: Bytes, h: Bytes, shared: Bytes)
    requires Live(s)
    ensures KeptBy(s, OnKexResult(c, s, hostKey, h, shared))
  {
    hide Connection.AllSound, Implemented, Terminals, DerivePair, FromName;
    PanicKeeps(s);
    match s.kex.negotiated
    case None =>
    case Some(n) =>
      match FromName(n.encryptionCs)
      case None => FailKeeps(s, Negotiation);
      case Some(alg) =>
        OneMoreEvent(s.events, HostKeyVerify(c.keyName(hostKey), c.fingerprint(hostKey), hostKey));
  }

  lemma CurveReplyKeeps(c: Suite, s: State, secret: Bytes, payload: Bytes)
    requires Live(s)
    ensures KeptBy(s, HandleCurveReply(c, s, secret, payload))
  {
    hide Live, Always, Keeps, KeptBy, Exchange.ParseCurveReply, VerifyReply, OnKexResult, Exchange.CurveHash,
         TranscriptOf;
    LiveFacts(s);
    KeepsReflexive(s);
    var s1 := s.(kex := s.kex.(active := None));
    ClearActiveKeeps(s);
    match Exchange.ParseCurveReply(payload)
    case Err(e) => FailedKeeps(s, s, e);
    case Ok(r) =>
      FailedKeeps(s, s1, Framing);
      FailedKeeps(s, s1, Negotiation);
      if |r.peerPublic| == 32 {
        match c.x25519Shared(secret, r.peerPublic)
        case None =>
        case Some(shared) =>
          var h := Exchange.CurveHash(c, TranscriptOf(s, r.hostKey), c.x25519Public(secret), r.peerPublic, shared);
          match VerifyReply(c, r, h)
          case Some(e) => FailedKeeps(s, s1, e);
          case None =>
            KexResultKeeps(c, s1, r.hostKey, h, shared);
            KeptThrough(s, s1, OnKexResult(c, s1, r.hostKey, h, shared));
      }
  }

  lemma Group14ReplyKeeps(c: Suite, s: State, secret: Bytes, payload: Bytes)
    requires Live(s)
    ensures KeptBy(s, HandleGroup14Reply(c, s, secret, payload))
  {
    hide Live, Always, Keeps, KeptBy, Exchange.ParseReply, VerifyReply, OnKexResult, Exchange.Group14Hash, TranscriptOf;
    LiveFacts(s);
    KeepsReflexive(s);
    var s1 := s.(kex := s.kex.(active := None));
    ClearActiveKeeps(s);
    match Exchange.ParseReply(payload)
    case Err(e) => FailedKeeps(s, s, e);
    case Ok(r) =>
      match c.group14Shared(secret, r.peerPublic)
      case Err(e) => FailedKeeps(s, s1, e);
      case Ok(shared) =>
        var h := Exchange.Group14Hash(c, TranscriptOf(s, r.hostKey), c.group14Public(secret), r.peerPublic, shared);
        match VerifyReply(c, r, h)
        case Some(e) => FailedKeeps(s, s1, e);
        case None =>
          KexResultKeeps(c, s1, r.hostKey, h, shared);
          KeptThrough(s, s1, OnKexResult(c, s1, r.hostKey, h, shared));
  }

  lemma KexReplyKeeps(c: Suite, s: State, payload: Bytes)
    requires Live(s)
    ensures KeptBy(s, HandleKexReply(c, s, payload))
  {
    hide Live, Always, Keeps, KeptBy, HandleCurveReply, HandleGroup14Reply;
    LiveFacts(s);
    KeepsReflexive(s);
    match s.kex.active
    case Some(Curve25519(secret)) => CurveReplyKeeps(c, s, secret, payload);
    case Some(Group14(secret)) => Group14ReplyKeeps(c, s, secret, payload);
    case None => FailedKeeps(s, s, UnexpectedMessage(Exchange.MSG_KEX_REPLY));
  }

  lemma NewkeysKeeps(s: State)
    requires Live(s)
    ensures KeptBy(s, HandleNewkeys(s))
  {
    hide Connection.AllSound, Implemented, Terminals;
    OneMoreEvent(s.events, Unrecoverable(UnexpectedMessage(KexInit.MSG_NEWKEYS)));
  }

  // ---- connection ----------------------------------------------------------------------------------------

  /** Channel handlers raise no terminal event, and need an existing channel to have anything to send
      or keep. */
  ghost predicate Mild(conn: Connection.Conn, r: Connection.Reaction) {
    r.Reacted? ==>
      && Terminals(r.events) == 0
      && (conn.channels == map[] ==> r.sends == [] && r.conn.channels == map[])
  }

  lemma ReactKeeps(c: Suite, s: State, r: Connection.Reaction)
    requires Always(s) && (Over(s.phase) ==> !r.Refused?)
    requires Mild(s.conn, r) && Connection.SoundAfter(r)
    ensures KeptBy(s, React(c, s, r))
  {
    hide Connection.AllSound, Implemented, Terminals, SendEach;
    match r
    case Refused(e) => FailKeeps(s, e);
    case Panicked => PanicKeeps(s);
    case Reacted(conn, sends, events) =>
      EachGrows(c, s.out, sends);
      TerminalsAppend(s.events, events);
      match SendEach(c, s.out, sends)
      case None => PanicKeeps(s);
      case Some(out) =>
  }

  lemma SetupIsMild(conn: Connection.Conn, id: U32, reply: Option<bool>)
    ensures Mild(conn, Connection.ContinueSetup(conn, id, reply))
  {
    hide Connection.ExecRequest, Connection.PtyRequest, Connection.ShellRequest, Channel.IdMessage, Ascii,
         Connection.DefaultPty;
    assert conn.channels == map[] ==> conn.channels - {id} == map[];
    OneMildEvent(ChannelOpenFailed(id, 0, Connection.ClosedDescription()));
  }

  lemma OneMildEvent(e: Event)
    requires !IsTerminal(e)
    ensures Terminals([e]) == 0
  {
    assert [e][1..] == [];
  }

  lemma ConfirmationIsMild(conn: Connection.Conn, r: Bytes)
    ensures Mild(conn, Connection.OnConfirmationAndSetup(conn, r))
  {
    hide Connection.ParseConfirmation, Connection.ContinueSetup, Terminals;
    var first := Connection.OnConfirmation(conn, r);
    if first.Reacted? {
      var id := Connection.ParseConfirmation(r).value.id;
      var second := Connection.ContinueSetup(first.conn, id, None);
      SetupIsMild(first.conn, id, None);
      OneMildEvent(ChannelOpened(id));
      if second.Reacted? {
        TerminalsAppend(second.events, [ChannelOpened(id)]);
      }
    }
  }

  lemma DeliverIsMild(conn: Connection.Conn, id: U32, stream: DataStream, data: Bytes)
    ensures Mild(conn, Connection.Deliver(conn, id, stream, data))
  {
    hide Channel.OnDataConsumed, Channel.AdjustMessage, Terminals;
    OneMildEvent(ChannelData(id, stream, data));
  }

  lemma OthersAreMild(conn: Connection.Conn, r: Bytes)
    ensures Mild(conn, Connection.OnOpenFailure(conn, r)) && Mild(conn, Connection.OnAdjust(conn, r))
    ensures Mild(conn, Connection.OnEof(conn, r)) && Mild(conn, Connection.OnClose(conn, r))
    ensures Mild(conn, Connection.OnData(conn, r)) && Mild(conn, Connection.OnExtendedData(conn, r))
  {
    hide Connection.ParseIdAndNumber, Connection.ParseIdAndData, Connection.ParseExtended, Connection.Deliver,
         Connection.DescriptionOr, Connection.StreamOf;
    forall id, stream, data ensures Mild(conn, Connection.Deliver(conn, id, stream, data)) {
      DeliverIsMild(conn, id, stream, data);
    }
    forall e: Event | !IsTerminal(e) ensures Terminals([e]) == 0 { OneMildEvent(e); }
  }

  lemma RequestIsMild(conn: Connection.Conn, r: Bytes)
    ensures Mild(conn, Connection.OnRequest(conn, r))
  {
    hide Connection.ParseServerRequest, Connection.NameExitStatus, Connection.NameExitSignal, Channel.IdMessage;
    forall e: Event | !IsTerminal(e) ensures Terminals([e]) == 0 { OneMildEvent(e); }
  }

  lemma MessageIsMild(conn: Connection.Conn, msg: Byte, r: Bytes)
    requires Connection.IsChannelMessage(msg)
    ensures Mild(conn, Connection.OnMessage(conn, msg, r))
  {
    hide Mild, Connection.OnConfirmationAndSetup, Connection.OnOpenFailure, Connection.OnAdjust, Connection.OnEof,
         Connection.OnClose, Connection.OnData, Connection.OnExtendedData, Connection.OnRequest, Connection.ContinueSetup;
    ConfirmationIsMild(conn, r);
    OthersAreMild(conn, r);
    RequestIsMild(conn, r);
    ReplyIsMild(conn, r, msg == Channel.MSG_CHANNEL_SUCCESS);
  }

  lemma ReplyIsMild(conn: Connection.Conn, r: Bytes, success: bool)
    ensures Mild(conn, Connection.OnReply(conn, r, success))
  {
    hide Connection.ContinueSetup;
    forall id ensures Mild(conn, Connection.ContinueSetup(conn, id, Some(success))) {
      SetupIsMild(conn, id, Some(success));
    }
  }
}
