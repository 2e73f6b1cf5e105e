/** Runs of the session against a server that says a little more than `FakeServer` does: peers for which the
    constant 3 is wrong, one that connects a session in the clear, and two that make it panic. */
module Witnesses {
  import opened Prelude
  import opened Primitives
  import opened Packet
  import opened PacketStream
  import opened SessionModel
  import opened SessionTrace
  import opened SequenceNumbers
  import opened FakeServer
  import opened HandshakeScript
  import Auth
  import Exchange
  import Ident
  import KexInit
  import MessageReading
  import Wire

  const MSG_IGNORE: Byte := 2

  /** A payload fed in one whole packet, in the clear. */
  function InClear(payload: Bytes): Input { FeedIncoming(PlainWire(payload, seq(PadFor(None, |payload|), _ => 0))) }

  lemma NothingToDrive(c: Suite, s: State)
    ensures Drive(c, s, []) == Session(s, []) && DriveHears(c, s, []) == []
  {
    hide Turn;
    NothingTurns(c, s);
    DriveHearsTurn(c, s, []);
  }

  lemma NothingTurns(c: Suite, s: State) ensures Turn(c, s, []).None? {}

  /** An open session past the version exchange, with nothing buffered and no receiving cipher. */
  predicate Plain(s: State) { s.kex.sc.None? && !Idle(s.phase) && s.phase != VersionExchange }

  lemma HearsInClear(c: Suite, s: State, payload: Bytes)
    requires LawfulAead(c) && Plain(s) && 0 < |payload| <= MAX_PACKET_LENGTH - 20
    ensures Do(c, Session(s, []), InClear(payload)) == Session(Deliver(c, s, None, payload), [])
    ensures DoHears(c, Session(s, []), InClear(payload)) == [payload]
  {
    hide NextFrame, Deliver, LawfulAead;
    var padding: Padding := seq(PadFor(None, |payload|), _ => 0);
    var wire := PlainWire(payload, padding);
    FrameOfSealed(c, None, payload, padding, []);
    assert wire + [] == wire && [] + wire == wire;
    DriveHearsTurn(c, s, wire);
    NothingToDrive(c, Deliver(c, s, None, payload));
    assert wire[|wire|..] == [];
    assert [payload] + [] == [payload];
  }

  /** One more call at the end of a run. */
  lemma {:induction false} OneMoreCall(c: Suite, x: Session, inputs: seq<Input>, i: Input)
    ensures Run(c, x, inputs + [i]) == Do(c, Run(c, x, inputs), i)
    ensures RunHears(c, x, inputs + [i]) == RunHears(c, x, inputs) + DoHears(c, Run(c, x, inputs), i)
    decreases |inputs|
  {
    hide Do, DoHears;
    if inputs == [] {
      assert inputs + [i] == [i] && [i][1..] == [];
      assert DoHears(c, x, i) + [] == [] + DoHears(c, x, i);
    } else {
      assert (inputs + [i])[1..] == inputs[1..] + [i];
      OneMoreCall(c, Do(c, x, inputs[0]), inputs[1..], i);
      var a, b := DoHears(c, x, inputs[0]), RunHears(c, Do(c, x, inputs[0]), inputs[1..]);
      var d := DoHears(c, Run(c, x, inputs), i);
      assert (a + b) + d == a + (b + d);
    }
  }

  // ---- the exchange, step by step ----------------------------------------------------------------------

  function Cookie(): Bytes16 { seq(16, _ => 0) }

  function TheirKexinit(): Bytes { KexInit.Payload(KexInit.Ours(Cookie())) }

  /** Past the version exchange, before any keys. */
  ghost predicate Started(s: State) {
    && s.phase == KexInProgress && s.out.cs.None? && s.kex.sessionId.None?
    && s.kex.sc.None? && s.kex.pendingSc.None? && s.kex.pendingCiphers.None?
    && exists cookie: Bytes16 :: s.kex.ownPayload == KexInit.Payload(KexInit.Ours(cookie))
  }

  lemma HearsLine(c: Suite)
    ensures var x := Run(c, START, [FeedIncoming(IdentLine())]);
            x.incoming == [] && Started(x.core) && RunHears(c, START, [FeedIncoming(IdentLine())]) == []
  {
    hide Ident.Scan, IdentLine, ServerIdent, KexInit.Payload, KexInit.Ours;
    var line := IdentLine();
    IdentSize();
    ServerLineScans([]);
    assert line + [] == line && [] + line == line;
    DriveHearsTurn(c, INITIAL, line);
    var s := INITIAL.(ident := Ident.Scanner([], |line|, Some(ServerIdent())));
    assert IdentTurn(c, INITIAL, line) == Some((|line|, BeginKex(c, s)));
    NothingToDrive(c, BeginKex(c, s));
    var cookie: Bytes16 := Draw(c, 0, 16);
    assert BeginKex(c, s).kex.ownPayload == KexInit.Payload(KexInit.Ours(cookie));
    assert line[|line|..] == [];
    OneMoreCall(c, START, [], FeedIncoming(line));
    assert [] + [FeedIncoming(line)] == [FeedIncoming(line)];
  }

  /** Negotiated, with an exchange under way. */
  ghost predicate Exchanging(s: State) {
    Started(s) && s.kex.negotiated == Some(Negotiated()) && s.kex.active.Some? && s.kex.active.value.Curve25519?
  }

  lemma OffersAgree(a: Bytes16, b: Bytes16)
    ensures KexInit.NegotiateAll(KexInit.Ours(a), KexInit.Ours(b)) == Ok(Negotiated())
  {
    hide Ascii;
  }

  lemma HearsKexinit(c: Suite, s: State)
    requires Started(s)
    ensures Exchanging(Deliver(c, s, None, TheirKexinit()))
  {
    hide KexInit.Payload, KexInit.Ours, KexInit.Parse, KexInit.NegotiateAll, Negotiated, Emit, Deliver, Dispatch, Cookie;
    var cookie: Bytes16 :| s.kex.ownPayload == KexInit.Payload(KexInit.Ours(cookie));
    KexInit.OurPayloadSize(Cookie());
    KexInit.OurPayloadParses(cookie);
    KexInit.OurPayloadParses(Cookie());
    OffersAgree(cookie, Cookie());
    NegotiatedCurve();
    DeliverPlain(c, s, TheirKexinit());
    DispatchKexinit(c, s, TheirKexinit());
  }

  /** Keys agreed, waiting for the host. */
  predicate Asking(s: State) {
    s.phase == AwaitingHostKeyDecision && s.kex.pendingCiphers.Some? && s.kex.sc.None? && s.out.cs.None?
  }

  /** A server that knows the key can answer whatever exchange is under way. */
  lemma HearsReply(c: Suite, cfg: Config, s: State) returns (reply: Bytes)
    requires Setting(c, cfg) && Exchanging(s)
    ensures Is(reply, Exchange.MSG_KEX_REPLY) && |reply| <= 3 * SHORT
    ensures Asking(Deliver(c, s, None, reply))
  {
    hide KexInit.Payload, KexInit.Ours, Negotiated, Deliver, Dispatch, Exchange.ParseCurveReply, Exchange.PutReply,
         Exchange.CurveHash, TranscriptOf, FromName, DerivePair;
    var secret := s.kex.active.value.secret;
    var blob, qS := c.publicBlob(cfg.hostKey), c.x25519Public([]);
    var shared := c.x25519Shared(secret, qS).value;
    var h := Exchange.CurveHash(c, TranscriptOf(s, blob), c.x25519Public(secret), qS, shared);
    var r := Exchange.Reply(blob, qS, c.sign(cfg.hostKey, h).value);
    reply := Exchange.PutReply(r);
    Exchange.CurveReplyRoundTrip(r);
    ReplySize(r);
    NegotiatedCurve();
    DeliverPlain(c, s, reply);
    DispatchReply(c, s, reply);
  }

  lemma ReplySize(r: Exchange.Reply)
    requires |r.hostKey| <= SHORT && |r.peerPublic| == 32 && |r.signature| <= SHORT
    ensures Is(Exchange.PutReply(r), Exchange.MSG_KEX_REPLY) && |Exchange.PutReply(r)| <= 3 * SHORT
  {
  }

  lemma HearsIgnore(c: Suite, s: State)
    requires s.kex.sc.None?
    ensures Deliver(c, s, None, [MSG_IGNORE]) == s
  {
    DeliverPlain(c, s, [MSG_IGNORE]);
  }

  lemma AcceptsIs(c: Suite, s: State)
    requires Asking(s)
    ensures Do(c, Session(s, []), ProvideHostKeyDecision(true)) == Session(Accepted(c, s), [])
    ensures DoHears(c, Session(s, []), ProvideHostKeyDecision(true)) == []
    ensures Plain(Accepted(c, s)) && Accepted(c, s).kex.pendingSc.Some? && Accepted(c, s).out.cs.Some?
  {
    hide Emit, Auth.ServiceRequest;
    NothingToDrive(c, Accepted(c, s));
  }

  lemma HearsNewkeys(c: Suite, s: State)
    requires Plain(s) && s.kex.pendingSc.Some? && s.out.cs.Some?
    ensures var t := Deliver(c, s, None, [KexInit.MSG_NEWKEYS]); t.kex.sc == s.kex.pendingSc && !Over(t.phase)
  {
    DeliverPlain(c, s, [KexInit.MSG_NEWKEYS]);
  }

  // ---- the witnesses -----------------------------------------------------------------------------------

  /** Where a run has got to. */
  ghost predicate At(c: Suite, inputs: seq<Input>, s: State, heard: seq<Bytes>) {
    Run(c, START, inputs) == Session(s, []) && RunHears(c, START, inputs) == heard
  }

  lemma Tells(c: Suite, inputs: seq<Input>, s: State, heard: seq<Bytes>, payload: Bytes) returns (more: seq<Input>)
    requires LawfulAead(c) && At(c, inputs, s, heard) && Plain(s) && 0 < |payload| <= MAX_PACKET_LENGTH - 20
    ensures At(c, more, Deliver(c, s, None, payload), heard + [payload])
    ensures more == inputs + [InClear(payload)]
  {
    hide LawfulAead, Run, RunHears, Do, DoHears, Deliver, InClear, Plain;
    more := inputs + [InClear(payload)];
    OneMoreCall(c, START, inputs, InClear(payload));
    HearsInClear(c, s, payload);
  }

  lemma AcceptsThere(c: Suite, inputs: seq<Input>, s: State, heard: seq<Bytes>) returns (more: seq<Input>)
    requires At(c, inputs, s, heard) && Asking(s)
    ensures At(c, more, Accepted(c, s), heard)
  {
    hide Run, RunHears, Do, DoHears, Accepted, Asking, Plain;
    more := inputs + [ProvideHostKeyDecision(true)];
    OneMoreCall(c, START, inputs, ProvideHostKeyDecision(true));
    AcceptsIs(c, s);
    assert heard + [] == heard;
  }

  lemma SettingIsAead(c: Suite, cfg: Config)
    requires Setting(c, cfg)
    ensures LawfulAead(c)
  {
  }

  lemma StartedIsPlain(s: State)
    requires Started(s)
    ensures Plain(s)
  {
  }

  lemma ExchangingIsStarted(s: State)
    requires Exchanging(s)
    ensures Started(s)
  {
  }

  lemma KexinitSize()
    ensures 0 < |TheirKexinit()| <= 3000 && Is(TheirKexinit(), KexInit.MSG_KEXINIT)
  {
    KexInit.OurPayloadSize(Cookie());
  }

  /** The line and one KEXINIT. */
  lemma Begun(c: Suite) returns (inputs: seq<Input>, s: State)
    requires LawfulAead(c)
    ensures At(c, inputs, s, [TheirKexinit()]) && Exchanging(s)
  {
    hide LawfulAead, Run, RunHears, Deliver, Started, Exchanging, TheirKexinit, Plain, IdentLine;
    HearsLine(c);
    KexinitSize();
    inputs := [FeedIncoming(IdentLine())];
    var s1 := Run(c, START, inputs).core;
    StartedIsPlain(s1);
    HearsKexinit(c, s1);
    s := Deliver(c, s1, None, TheirKexinit());
    inputs := Tells(c, inputs, s1, [], TheirKexinit());
    assert [] + [TheirKexinit()] == [TheirKexinit()];
  }

  /** In every setting: one IGNORE in the clear before NEWKEYS is tolerated, and leaves the receiving
      cipher at 3 after four packets. */
  lemma OneIgnoreBreaksStep(c: Suite, cfg: Config) returns (inputs: seq<Input>)
    requires Setting(c, cfg)
    ensures var s, heard := Run(c, START, inputs).core, RunHears(c, START, inputs);
            && !Over(s.phase)
            && |heard| == 4
            && Is(heard[0], KexInit.MSG_KEXINIT) && heard[1] == [MSG_IGNORE]
            && Is(heard[2], Exchange.MSG_KEX_REPLY) && heard[3] == [KexInit.MSG_NEWKEYS]
            && s.kex.sc.Some? && s.kex.sc.value.seqNo == 3
  {
    hide Setting, LawfulAead, Run, RunHears, Deliver, Started, Exchanging, TheirKexinit, Accepted, Plain, Asking, At,
         CountedUnlessOver;
    SettingIsAead(c, cfg);
    KexinitSize();
    var s;
    inputs, s := Begun(c);
    ExchangingIsStarted(s);
    StartedIsPlain(s);
    HearsIgnore(c, s);
    inputs := Tells(c, inputs, s, [TheirKexinit()], [MSG_IGNORE]);
    var reply := HearsReply(c, cfg, s);
    inputs := Tells(c, inputs, s, [TheirKexinit()] + [[MSG_IGNORE]], reply);
    var asked := Deliver(c, s, None, reply);
    var heard := [TheirKexinit()] + [[MSG_IGNORE]] + [reply];
    inputs := AcceptsThere(c, inputs, asked, heard);
    AcceptsIs(c, asked);
    HearsNewkeys(c, Accepted(c, asked));
    inputs := Tells(c, inputs, Accepted(c, asked), heard, [KexInit.MSG_NEWKEYS]);
    IgnoredAt(c, inputs, Deliver(c, Accepted(c, asked), None, [KexInit.MSG_NEWKEYS]), heard);
  }

  lemma IgnoredAt(c: Suite, inputs: seq<Input>, s: State, heard: seq<Bytes>)
    requires LawfulAead(c) && At(c, inputs, s, heard + [[KexInit.MSG_NEWKEYS]]) && |heard| == 3 && !Over(s.phase)
    requires s.kex.sc.Some?
    ensures s.kex.sc.value.seqNo == 3
    ensures Run(c, START, inputs).core == s && RunHears(c, START, inputs) == heard + [[KexInit.MSG_NEWKEYS]]
  {
    hide Run, RunHears, LawfulAead, SentOk, KexOk, Count, Payloads;
    RunIsCounted(c, inputs);
    OneMore(heard, [KexInit.MSG_NEWKEYS]);
  }

  /** In every setting: a second KEXINIT in the clear is tolerated too, draws a second key-exchange
      message from us, and leaves the sending cipher one behind from its first packet on. */
  lemma SecondKexinitBreaksStep(c: Suite, cfg: Config) returns (inputs: seq<Input>)
    requires Setting(c, cfg)
    ensures var s, heard := Run(c, START, inputs).core, RunHears(c, START, inputs);
            && |heard| == 3
            && Is(heard[0], KexInit.MSG_KEXINIT) && heard[1] == heard[0] && Is(heard[2], Exchange.MSG_KEX_REPLY)
            && s.phase == AwaitingHostKeyDecision
            && var t := Accepted(c, s);
               t.out.cs.Some? && t.out.cs.value.seqNo != |Payloads(t.out.sent)| % U32_LIMIT
  {
    hide Setting, LawfulAead, Run, RunHears, Deliver, Started, Exchanging, TheirKexinit, Accepted, Plain, Asking, At,
         Payloads, Count;
    SettingIsAead(c, cfg);
    KexinitSize();
    var s;
    inputs, s := Begun(c);
    ExchangingIsStarted(s);
    StartedIsPlain(s);
    HearsKexinit(c, s);
    inputs := Tells(c, inputs, s, [TheirKexinit()], TheirKexinit());
    var s2 := Deliver(c, s, None, TheirKexinit());
    ExchangingIsStarted(s2);
    StartedIsPlain(s2);
    var reply := HearsReply(c, cfg, s2);
    inputs := Tells(c, inputs, s2, [TheirKexinit()] + [TheirKexinit()], reply);
    AskedAfterTwo(c, inputs, Deliver(c, s2, None, reply), TheirKexinit(), reply);
    FirstAcceptance(c, inputs);
  }

  lemma AskedAfterTwo(c: Suite, inputs: seq<Input>, s: State, offer: Bytes, reply: Bytes)
    requires At(c, inputs, s, [offer] + [offer] + [reply]) && Asking(s)
    requires Is(offer, KexInit.MSG_KEXINIT) && Is(reply, Exchange.MSG_KEX_REPLY)
    ensures Run(c, START, inputs).core == s && RunHears(c, START, inputs) == [offer] + [offer] + [reply]
    ensures s.phase == AwaitingHostKeyDecision && s.out.cs.None?
    ensures Count([offer] + [offer] + [reply], KexInit.MSG_KEXINIT) == 2
  {
    hide Run, RunHears;
    CountOne([offer], KexInit.MSG_KEXINIT);
    OneMore([offer], offer);
    OneMore([offer] + [offer], reply);
  }

  /** A peer that says nothing but USERAUTH_SUCCESS, in the clear, connects the session: no key exchange,
      no cipher in either direction, and no question to the host. */
  lemma ConnectedInTheClear(c: Suite)
    requires LawfulAead(c)
    ensures var inputs := [FeedIncoming(IdentLine()), InClear([Auth.MSG_USERAUTH_SUCCESS])];
            var s := Run(c, START, inputs).core;
            && s.phase == SessionModel.Connected && s.out.cs.None? && s.kex.sc.None?
            && s.kex.sessionId.None?
  {
    hide LawfulAead, Run, RunHears, Deliver, InClear, IdentLine;
    HearsLine(c);
    var first := [FeedIncoming(IdentLine())];
    var s := Run(c, START, first).core;
    var inputs := Tells(c, first, s, [], [Auth.MSG_USERAUTH_SUCCESS]);
    assert inputs == [FeedIncoming(IdentLine()), InClear([Auth.MSG_USERAUTH_SUCCESS])];
    DeliverPlain(c, s, [Auth.MSG_USERAUTH_SUCCESS]);
    SuccessConnects(c, s);
  }

  lemma SuccessConnects(c: Suite, s: State)
    ensures Dispatch(c, s, [Auth.MSG_USERAUTH_SUCCESS]) == HandleUserauthSuccess(s)
  {
  }

  // ---- panics --------------------------------------------------------------------------------------------

  /** A global request that wants a reply. */
  function AskAnything(): Bytes { [MSG_GLOBAL_REQUEST] + (Wire.Str([]) + Wire.Bool(true)) }

  lemma AskAnythingReads()
    ensures ParseGlobalRequest(AskAnything()[1..]) == Ok(true)
  {
    hide Wire.Str, Wire.Bool, Wire.GetString, Wire.GetBool;
    assert AskAnything()[1..] == Wire.Str([]) + Wire.Bool(true);
    Wire.StrRoundTrip([], Wire.Bool(true));
    Wire.BoolRoundTrip(true, []);
    assert Wire.Bool(true) + [] == Wire.Bool(true);
  }

  lemma AskAnythingSize() ensures 0 < |AskAnything()| <= 100 && Is(AskAnything(), MSG_GLOBAL_REQUEST) {}

  /** Any server can panic the client before key exchange: one global request that wants a reply, in the
      clear. */
  lemma GlobalRequestPanics(c: Suite)
    requires LawfulAead(c)
    ensures Run(c, START, [FeedIncoming(IdentLine()), InClear(AskAnything())]).core.phase == Halted
  {
    hide LawfulAead, Run, RunHears, Deliver, InClear, IdentLine, AskAnything, Started, Dispatch;
    HearsLine(c);
    AskAnythingSize();
    var first := [FeedIncoming(IdentLine())];
    var s := Run(c, START, first).core;
    StartedIsPlain(s);
    var inputs := Tells(c, first, s, [], AskAnything());
    assert inputs == [FeedIncoming(IdentLine()), InClear(AskAnything())];
    DeliverPlain(c, s, AskAnything());
    AnswerPanics(c, s);
  }

  lemma AnswerPanics(c: Suite, s: State)
    requires Started(s)
    ensures Dispatch(c, s, AskAnything()) == Panic
  {
    hide AskAnything, ParseGlobalRequest;
    AskAnythingReads();
    AskAnythingSize();
  }

  /** So can a host that believes the server: SERVICE_ACCEPT in the clear asks it to authenticate, and its
      attempt cannot be sent. */
  lemma PasswordPanics(c: Suite, cfg: Config, user: Bytes, password: Bytes)
    requires LawfulAead(c)
    ensures var inputs := [FeedIncoming(IdentLine()), InClear(Encode(cfg, ServiceAccept))];
            && Run(c, START, inputs).core.phase == UserAuth
            && Run(c, START, inputs + [Password(user, password)]).core.phase == Halted
  {
    hide LawfulAead, Run, RunHears, Deliver, InClear, IdentLine, Encode, Started, Dispatch, Auth.PasswordRequest;
    HearsLine(c);
    AcceptSize(cfg);
    var first := [FeedIncoming(IdentLine())];
    var s := Run(c, START, first).core;
    StartedIsPlain(s);
    var inputs := Tells(c, first, s, [], Encode(cfg, ServiceAccept));
    assert inputs == [FeedIncoming(IdentLine()), InClear(Encode(cfg, ServiceAccept))];
    DeliverPlain(c, s, Encode(cfg, ServiceAccept));
    DispatchAccept(c, s, Encode(cfg, ServiceAccept));
    MessageReading.AcceptRead(cfg);
    StartedHasNoCipher(s);
    OneMoreCall(c, START, inputs, Password(user, password));
  }

  lemma StartedHasNoCipher(s: State)
    requires Started(s)
    ensures s.out.cs.None?
  {
  }
}
