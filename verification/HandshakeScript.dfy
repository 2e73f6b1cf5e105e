/**
  The key exchange between `Session` and `FakeServer`, one side at a time.

  Both ends are deterministic, so everything they say until authentication is fixed in advance by
  their random sources and the server's key: two constant scripts. Each side is shown to say its own
  script in answer to the other's, whatever the order in which the two make progress.
 */
module HandshakeScript {
  import opened Prelude
  import opened Primitives
  import opened Packet
  import opened PacketStream
  import opened SessionModel
  import opened FakeServer
  import opened MessageReading
  import Ident
  import KexInit
  import Exchange
  import Auth
  import Connection
  import Events
  import Utf8

  // ---- the two scripts -----------------------------------------------------------------------------

  /** A bound on every string a host or a test hands over; it keeps each message within one packet. */
  const SHORT := 0x8000

  /** Laws of the cryptography, and what the test server is given: a host key that signs. */
  ghost predicate Setting(c: Suite, cfg: Config) {
    && Lawful(c)
    && |c.publicBlob(cfg.hostKey)| <= SHORT
    && (forall m :: c.sign(cfg.hostKey, m).Some? && |c.sign(cfg.hostKey, m).value| <= SHORT)
    && |cfg.execOutput| <= SHORT
  }

  /** The random choices of both sides, and what follows from them. */
  datatype Script = Script(
    cookieC: Bytes16,
    cookieS: Bytes16,
    secretC: Bytes,
    secretS: Bytes,
    qC: Bytes32,
    qS: Bytes32,
    shared: Bytes32,
    blob: Bytes,
    h: Bytes32,
    signature: Bytes)

  function OwnC(x: Script): Bytes { KexInit.Payload(KexInit.Ours(x.cookieC)) }
  function OwnS(x: Script): Bytes { KexInit.Payload(KexInit.Ours(x.cookieS)) }
  function ReplyPayload(x: Script): Bytes { Exchange.PutReply(Exchange.Reply(x.blob, x.qS, x.signature)) }
  function Keys(c: Suite, x: Script): CipherPair { DerivePair(c, ChaCha20Poly1305, x.shared, x.h, x.h) }

  function AfterCookie(own: Bytes): nat { 16 + PadFor(None, |own|) }

  function TranscriptBetween(x: Script): Exchange.Transcript {
    Exchange.Transcript(Ident.CLIENT_IDENT, ServerIdent(), OwnC(x), OwnS(x), x.blob)
  }

  ghost predicate IsScript(c: Suite, cfg: Config, x: Script) {
    var e := Seeded(c, cfg);
    && x.cookieC == Draw(c, 0, 16)
    && x.cookieS == Draw(e, 0, 16)
    && x.secretC == Draw(c, AfterCookie(OwnC(x)), 32)
    && x.secretS == Draw(e, AfterCookie(OwnS(x)), 32)
    && x.qC == c.x25519Public(x.secretC)
    && x.qS == c.x25519Public(x.secretS)
    && c.x25519Shared(x.secretC, x.qS) == Some(x.shared)
    && c.x25519Shared(x.secretS, x.qC) == Some(x.shared)
    && x.blob == c.publicBlob(cfg.hostKey) && |x.blob| <= SHORT
    && x.h == Exchange.CurveHash(c, TranscriptBetween(x), x.qC, x.qS, x.shared)
    && c.sign(cfg.hostKey, x.h) == Some(x.signature) && |x.signature| <= SHORT
    && VerifyReply(c, Exchange.Reply(x.blob, x.qS, x.signature), x.h) == None
  }

  lemma ScriptExists(c: Suite, cfg: Config) returns (x: Script)
    requires Setting(c, cfg)
    ensures IsScript(c, cfg, x)
  {
    hide KexInit.Payload, Exchange.CurveHash, Draw, PadFor, ServerIdent;
    var e := Seeded(c, cfg);
    var cookieC: Bytes16, cookieS: Bytes16 := Draw(c, 0, 16), Draw(e, 0, 16);
    var iC, iS := KexInit.Payload(KexInit.Ours(cookieC)), KexInit.Payload(KexInit.Ours(cookieS));
    var secretC, secretS := Draw(c, AfterCookie(iC), 32), Draw(e, AfterCookie(iS), 32);
    var qC, qS := c.x25519Public(secretC), c.x25519Public(secretS);
    var shared := c.x25519Shared(secretC, qS).value;
    var blob := c.publicBlob(cfg.hostKey);
    var h := Exchange.CurveHash(c, Exchange.Transcript(Ident.CLIENT_IDENT, ServerIdent(), iC, iS, blob), qC, qS, shared);
    x := Script(cookieC, cookieS, secretC, secretS, qC, qS, shared, blob, h, c.sign(cfg.hostKey, h).value);
  }

  /** One thing said: a line, or a payload under a cipher. Padding is not part of the script. */
  datatype Saying = Text(line: Bytes) | Packet(k: Option<Cipher>, payload: Bytes)

  function ClientScript(c: Suite, x: Script): seq<Saying> {
    [Text(Ident.CLIENT_IDENT_LINE), Packet(None, OwnC(x)), Packet(None, Exchange.CurveInit(x.qC)),
     Packet(None, [KexInit.MSG_NEWKEYS]),
     Packet(Some(Keys(c, x).cs), Auth.ServiceRequest(Auth.ServiceUserauth()))]
  }

  function ServerScript(c: Suite, cfg: Config, x: Script): seq<Saying> {
    [Text(IdentLine()), Packet(None, OwnS(x)), Packet(None, ReplyPayload(x)), Packet(None, [KexInit.MSG_NEWKEYS]),
     Packet(Some(Keys(c, x).sc), Encode(cfg, ServiceAccept))]
  }

  /** A log item says it, in one whole packet. */
  predicate Says(item: Sent, what: Saying) {
    match what
    case Text(line) => item == Line(line)
    case Packet(k, payload) =>
      item.Sealed? && item.k == k && item.payload == payload && |Body(item.payload, item.padding)| <= MAX_PACKET_LENGTH
  }

  predicate AllSay(sent: seq<Sent>, script: seq<Saying>) {
    |sent| == |script| && forall i :: 0 <= i < |sent| ==> Says(sent[i], script[i])
  }

  lemma SayMore(sent: seq<Sent>, script: seq<Saying>, n: nat, item: Sent)
    requires n < |script| && AllSay(sent, script[..n]) && Says(item, script[n])
    ensures AllSay(sent + [item], script[..n + 1])
  {
  }

  /** Sealing the next payload of a script says it. */
  lemma EmitSays(c: Suite, o: Out, k: Option<Cipher>, payload: Bytes, script: seq<Saying>, n: nat)
    requires |payload| <= MAX_PACKET_LENGTH - 20 && n < |script|
    requires AllSay(o.sent, script[..n]) && script[n] == Packet(k, payload)
    ensures var o' := Emit(c, o, k, payload);
            && o'.drawn == o.drawn + PadFor(k, |payload|) && o'.cs == o.cs && o.sent <= o'.sent
            && AllSay(o'.sent, script[..n + 1])
  {
    var item := Emit(c, o, k, payload).sent[|o.sent|];
    assert Says(item, Packet(k, payload));
    SayMore(o.sent, script, n, item);
  }

  // ---- the client ----------------------------------------------------------------------------------

  /** How much the client has said after hearing `heard` items. */
  function ClientSaid(heard: nat, accepted: bool): nat {
    if heard < 3 then heard + 1 else if accepted then 5 else 3
  }

  predicate Fresh(s: State) {
    s.pendingAuth == None && s.conn == Connection.EMPTY && Events.ChannelEvents(s.events) == []
  }

  /** Scanning the first `total` bytes of the server's line has decided nothing yet. */
  predicate MidLine(s: State) {
    && s.ident.total < |IdentLine()|
    && Ident.Scan(Ident.FRESH, IdentLine()[..s.ident.total]) == Ident.More(s.ident)
    && s.ident.server.None?
  }

  function Negotiated(): KexInit.Negotiated {
    KexInit.Negotiated(KexInit.CURVE25519, KexInit.HOST_KEY_ALGORITHMS[0], CHACHA_NAME, CHACHA_NAME)
  }

  /** Where the client stands after hearing `heard` items of the server's script. */
  predicate ClientAt(c: Suite, x: Script, s: State, heard: nat) {
    && Fresh(s)
    && match heard
       case 0 => s.phase == VersionExchange && MidLine(s) && s.kex == NO_KEX && s.out.cs == None && s.out.drawn == 0
       case 1 => s.phase == KexInProgress && s.peerIdent == ServerIdent() && s.kex == NO_KEX.(ownPayload := OwnC(x))
                 && s.out.cs == None && s.out.drawn == AfterCookie(OwnC(x))
       case 2 => s.phase == KexInProgress && s.peerIdent == ServerIdent()
                 && s.kex == NO_KEX.(ownPayload := OwnC(x), peerPayload := OwnS(x), negotiated := Some(Negotiated()),
                                     active := Some(Curve25519(x.secretC)))
                 && s.out.cs == None
       case 3 => s.kex.sc == None && s.kex.sessionId == Some(x.h)
                 && if s.phase == AwaitingHostKeyDecision
                    then s.kex.pendingCiphers == Some(Keys(c, x)) && s.kex.pendingSc == None && s.out.cs == None
                    else s.phase == ServiceRequest && s.kex.pendingSc == Some(Keys(c, x).sc)
                         && s.out.cs == Some(Advance(Keys(c, x).cs))
       case 4 => s.phase == ServiceRequest && s.kex.sessionId == Some(x.h) && s.kex.sc == Some(Keys(c, x).sc)
                 && s.out.cs == Some(Advance(Keys(c, x).cs))
       case _ => false
  }

  predicate ClientOn(c: Suite, x: Script, s: State, heard: nat) {
    && ClientAt(c, x, s, heard)
    && AllSay(s.out.sent, ClientScript(c, x)[..ClientSaid(heard, s.phase == ServiceRequest)])
  }

  // the version exchange

  lemma ServerIdentIsAscii() ensures forall b | b in ServerIdent() :: b < 0x80 && b != Ident.LF && b != Ident.CR {}

  lemma {:induction false} UpToDashStops(a: Bytes, b: Bytes)
    requires Ident.DASH !in a
    ensures Ident.UpToDash(a + [Ident.DASH] + b) == a
  {
    if a != [] {
      assert a[0] in a;
      assert (a + [Ident.DASH] + b)[1..] == a[1..] + [Ident.DASH] + b;
      UpToDashStops(a[1..], b);
    }
  }

  lemma ServerIdentParts()
    ensures ServerIdent() == Ident.SSH_PREFIX + (Ascii("2.0") + [Ident.DASH] + Ascii("FakeTestServer_1.0"))
    ensures |Ident.SSH_PREFIX| == 4 && Ident.DASH !in Ascii("2.0")
  {
  }

  lemma ServerVersionOk()
    ensures Ident.IsSshLine(ServerIdent()) && Ident.VersionOk(ServerIdent())
  {
    hide ServerIdent, Ascii, Utf8.Valid;
    ServerIdentIsAscii();
    assert Utf8.Valid(ServerIdent()) by {
      forall i | 0 <= i < |ServerIdent()| ensures ServerIdent()[i] < 0x80 { assert ServerIdent()[i] in ServerIdent(); }
      Utf8.AsciiIsValid(ServerIdent());
    }
    ServerIdentParts();
    assert ServerIdent()[4..] == Ascii("2.0") + [Ident.DASH] + Ascii("FakeTestServer_1.0");
    UpToDashStops(Ascii("2.0"), Ascii("FakeTestServer_1.0"));
  }

  /** Scanning bytes that hold no newline only collects them. */
  lemma {:induction false} ScanCollects(s: Ident.Scanner, data: Bytes)
    requires Ident.LF !in data && s.total + |data| <= Ident.MAX_SCAN_BYTES
    ensures Ident.Scan(s, data) == Ident.More(Ident.Scanner(s.line + data, s.total + |data|, s.server))
    decreases |data|
  {
    if data == [] {
      assert s.line + data == s.line;
    } else {
      assert data[0] in data;
      var s' := s.(total := s.total + 1, line := s.line + [data[0]]);
      assert Ident.ScanByte(s, data[0]) == Ident.More(s');
      ScanCollects(s', data[1..]);
      assert s'.line + data[1..] == s.line + data;
    }
  }

  /** Every proper prefix of the server's line leaves the scanner waiting; the whole line, whatever
      follows it, identifies the server. */
  lemma ServerLineScans(rest: Bytes)
    ensures forall n: nat | n < |IdentLine()| ::
              Ident.Scan(Ident.FRESH, IdentLine()[..n]) == Ident.More(Ident.Scanner(IdentLine()[..n], n, None))
    ensures Ident.Scan(Ident.FRESH, IdentLine() + rest)
            == Ident.Done(|IdentLine()|, Ident.Scanner([], |IdentLine()|, Some(ServerIdent())))
  {
    hide Ident.VersionOk, Ident.IsSshLine, ServerIdent, Ident.Scan;
    var line := IdentLine();
    var head := ServerIdent() + [Ident.CR];
    ServerIdentIsAscii();
    ServerVersionOk();
    IdentSize();
    assert line == head + [Ident.LF];
    forall n: nat | n < |line|
      ensures Ident.Scan(Ident.FRESH, line[..n]) == Ident.More(Ident.Scanner(line[..n], n, None))
    {
      assert line[..n] == head[..n];
      assert Ident.LF !in head[..n];
      ScanCollects(Ident.FRESH, line[..n]);
      assert [] + line[..n] == line[..n];
    }
    assert line[..|head|] == head;
    Ident.ScanSplit(Ident.FRESH, head, [Ident.LF]);
    LastByteScans(Ident.Scanner(head, |head|, None));
    Ident.ScanSplit(Ident.FRESH, line, rest);
  }

  lemma IdentSize() ensures 0 < |ServerIdent()| <= 100 && |IdentLine()| == |ServerIdent()| + 2 {}

  lemma LastByteScans(s: Ident.Scanner)
    requires s == Ident.Scanner(ServerIdent() + [Ident.CR], |ServerIdent()| + 1, None)
    ensures Ident.Scan(s, [Ident.LF]) == Ident.Done(1, Ident.Scanner([], |IdentLine()|, Some(ServerIdent())))
  {
    hide Ident.VersionOk, Ident.IsSshLine, ServerIdent;
    IdentSize();
    ServerVersionOk();
    assert (ServerIdent() + [Ident.CR])[..|ServerIdent()|] == ServerIdent();
  }

  lemma MidLineSplits(line: Bytes, k: nat, rest: Bytes, buf: Bytes, future: Bytes)
    requires k < |line| && buf + future == (line + rest)[k..]
    ensures |buf| < |line| - k ==> line[..k] + buf == line[..k + |buf|]
    ensures |buf| >= |line| - k ==> line[..k] + buf == line + buf[|line| - k..]
    ensures |buf| >= |line| - k ==> buf[|line| - k..] + future == rest
  {
    var all := line + rest;
    assert forall i :: 0 <= i < |buf| ==> buf[i] == (buf + future)[i] == all[k + i];
    if |buf| >= |line| - k {
      var tail := buf[|line| - k..];
      assert forall i :: 0 <= i < |tail| ==> tail[i] == buf[|line| - k + i];
      assert forall i :: 0 <= i < |tail + future| ==> (tail + future)[i] == (buf + future)[|line| - k + i] == rest[i];
    }
  }

  /** The client hears some more bytes of the server's line, but not its end. */
  lemma ClientHearsPart(c: Suite, x: Script, s: State, buf: Bytes)
    requires ClientOn(c, x, s, 0) && buf != [] && s.ident.total + |buf| < |IdentLine()|
    requires IdentLine()[..s.ident.total] + buf == IdentLine()[..s.ident.total + |buf|]
    ensures Turn(c, s, buf).Some? && var (n, s') := Turn(c, s, buf).value;
            n == |buf| && ClientOn(c, x, s', 0) && s'.ident.total == s.ident.total + |buf| && s'.out == s.out
            && s'.phase == VersionExchange
  {
    hide Ident.Scan, BeginKex, IdentLine, ServerIdent, PacketTurn, AllSay, ClientScript, Says;
    var line, k := IdentLine(), s.ident.total;
    ServerLineScans([]);
    Ident.ScanSplit(Ident.FRESH, line[..k], buf);
  }

  /** The client hears the rest of the server's line, and perhaps more behind it. */
  lemma ClientHearsRest(c: Suite, cfg: Config, x: Script, s: State, buf: Bytes)
    requires IsScript(c, cfg, x) && ClientOn(c, x, s, 0)
    requires |buf| >= |IdentLine()| - s.ident.total
    requires IdentLine()[..s.ident.total] + buf == IdentLine() + buf[|IdentLine()| - s.ident.total..]
    ensures Turn(c, s, buf).Some? && var (n, s') := Turn(c, s, buf).value;
            n == |IdentLine()| - s.ident.total && ClientOn(c, x, s', 1) && s.out.sent <= s'.out.sent
  {
    hide Ident.Scan, BeginKex, IdentLine, ServerIdent, PacketTurn, AllSay, Says, IsScript;
    var line, k := IdentLine(), s.ident.total;
    ServerLineScans(buf[|line| - k..]);
    Ident.ScanSplit(Ident.FRESH, line[..k], buf);
    assert IdentTurn(c, s, buf)
        == Some((|line| - k, BeginKex(c, s.(ident := Ident.Scanner([], |line|, Some(ServerIdent()))))));
    ClientBegins(c, cfg, x, s.(ident := Ident.Scanner([], |line|, Some(ServerIdent()))));
  }

  lemma OwnSizes(x: Script)
    ensures 17 < |OwnC(x)| <= 3000 && OwnC(x)[0] == KexInit.MSG_KEXINIT
    ensures 17 < |OwnS(x)| <= 3000 && OwnS(x)[0] == KexInit.MSG_KEXINIT
  {
    KexInit.OurPayloadSize(x.cookieC);
    KexInit.OurPayloadSize(x.cookieS);
  }

  lemma ClientBegins(c: Suite, cfg: Config, x: Script, s: State)
    requires IsScript(c, cfg, x) && Fresh(s) && s.phase == VersionExchange && s.kex == NO_KEX
    requires s.out.cs == None && s.out.drawn == 0 && s.ident.server == Some(ServerIdent())
    requires AllSay(s.out.sent, ClientScript(c, x)[..1])
    ensures ClientOn(c, x, BeginKex(c, s), 1) && s.out.sent <= BeginKex(c, s).out.sent
  {
    hide KexInit.Payload, ServerIdent, AllSay, Says, Emit, Keys, Exchange.CurveInit, Auth.ServiceRequest, VerifyReply;
    OwnSizes(x);
    EmitSays(c, s.out.(drawn := 16), None, OwnC(x), ClientScript(c, x), 1);
  }

  // the key exchange

  lemma BothOffersAgree(x: Script)
    ensures KexInit.NegotiateAll(KexInit.Ours(x.cookieC), KexInit.Ours(x.cookieS)) == Ok(Negotiated())
  {
    hide Ascii;
  }

  /** A packet in the clear that the client's dispatch handles well. */
  lemma DeliverPlain(c: Suite, s: State, payload: Bytes)
    requires s.kex.sc == None && payload != []
    ensures Deliver(c, s, None, payload) == Settle(s, Dispatch(c, s, payload))
  {
    hide Dispatch;
    assert WithSc(s, None) == s;
  }

  lemma ClientHearsKexinit(c: Suite, cfg: Config, x: Script, s: State)
    requires IsScript(c, cfg, x) && ClientOn(c, x, s, 1)
    ensures var t := Deliver(c, s, None, OwnS(x)); ClientOn(c, x, t, 2) && s.out.sent <= t.out.sent
  {
    hide KexInit.Payload, KexInit.Parse, KexInit.NegotiateAll, ServerIdent, AllSay, Says, Emit, Keys, Auth.ServiceRequest,
         VerifyReply, Exchange.CurveHash, Deliver, Dispatch, ReplyPayload, Draw, Negotiated, IdentLine;
    OwnSizes(x);
    KexInit.OurPayloadParses(x.cookieC);
    KexInit.OurPayloadParses(x.cookieS);
    BothOffersAgree(x);
    NegotiatedCurve();
    DeliverPlain(c, s, OwnS(x));
    DispatchKexinit(c, s, OwnS(x));
    var o1 := s.out.(drawn := s.out.drawn + 32);
    var init := Exchange.CurveInit(x.qC);
    EmitSays(c, o1, None, init, ClientScript(c, x), 2);
  }

  lemma NegotiatedCurve()
    ensures Negotiated().kex == KexInit.CURVE25519 && FromName(Negotiated().encryptionCs) == Some(ChaCha20Poly1305)
  {
    hide Ascii;
  }

  lemma DispatchKexinit(c: Suite, s: State, payload: Bytes)
    requires |payload| > 0 && payload[0] == KexInit.MSG_KEXINIT
    ensures Dispatch(c, s, payload) == HandlePeerKexinit(c, s, payload)
  {
    hide HandlePeerKexinit;
  }

  lemma ReplyIsRead(x: Script)
    requires |x.blob| <= SHORT && |x.signature| <= SHORT
    ensures Exchange.ParseCurveReply(ReplyPayload(x)) == Ok(Exchange.Reply(x.blob, x.qS, x.signature))
    ensures 0 < |ReplyPayload(x)| <= 3 * SHORT && ReplyPayload(x)[0] == Exchange.MSG_KEX_REPLY
  {
    hide Exchange.ParseCurveReply;
    Exchange.CurveReplyRoundTrip(Exchange.Reply(x.blob, x.qS, x.signature));
  }

  lemma DispatchReply(c: Suite, s: State, payload: Bytes)
    requires |payload| > 0 && payload[0] == Exchange.MSG_KEX_REPLY && s.kex.active.Some? && s.kex.active.value.Curve25519?
    ensures Dispatch(c, s, payload) == HandleCurveReply(c, s, s.kex.active.value.secret, payload)
  {
    hide HandleCurveReply;
  }

  /** The client computes the server's exchange hash, and so the server's keys. */
  lemma ClientHearsReply(c: Suite, cfg: Config, x: Script, s: State)
    requires IsScript(c, cfg, x) && ClientOn(c, x, s, 2)
    ensures var t := Deliver(c, s, None, ReplyPayload(x));
            ClientOn(c, x, t, 3) && t.phase == AwaitingHostKeyDecision && t.out == s.out
  {
    hide KexInit.Payload, ServerIdent, AllSay, Says, Emit, Keys, Auth.ServiceRequest, VerifyReply, Exchange.CurveHash,
         Deliver, Dispatch, ReplyPayload, Draw, Exchange.ParseCurveReply, OnKexResult, Negotiated, Exchange.CurveInit,
         FromName, PadFor, IdentLine;
    ReplyIsRead(x);
    DeliverPlain(c, s, ReplyPayload(x));
    DispatchReply(c, s, ReplyPayload(x));
    assert TranscriptOf(s, x.blob) == TranscriptBetween(x);
    var s1 := s.(kex := s.kex.(active := None));
    KexResultKeys(c, x, s1);
  }

  lemma KexResultKeys(c: Suite, x: Script, s: State)
    requires s.kex.negotiated == Some(Negotiated()) && s.kex.sessionId == None
    ensures OnKexResult(c, s, x.blob, x.h, x.shared).Fine?
    ensures var t := OnKexResult(c, s, x.blob, x.h, x.shared).s;
            && t.phase == AwaitingHostKeyDecision && t.out == s.out && t.pendingAuth == s.pendingAuth && t.conn == s.conn
            && t.kex.pendingCiphers == Some(Keys(c, x)) && t.kex.sessionId == Some(x.h)
            && t.kex.pendingSc == s.kex.pendingSc && t.kex.sc == s.kex.sc
            && Events.ChannelEvents(t.events) == Events.ChannelEvents(s.events)
  {
    hide Negotiated, FromName, DerivePair;
    NegotiatedCurve();
    Events.OneMore(s.events, Events.HostKeyVerify(c.keyName(x.blob), c.fingerprint(x.blob), x.blob));
  }

  /** The host accepts the key: our NEWKEYS in the clear, then the service request as packet 3. */
  lemma ClientAccepts(c: Suite, cfg: Config, x: Script, s: State)
    requires IsScript(c, cfg, x) && ClientOn(c, x, s, 3) && s.phase == AwaitingHostKeyDecision
    ensures var t := Accepted(c, s);
            ClientOn(c, x, t, 3) && t.phase == ServiceRequest && s.out.sent <= t.out.sent
  {
    hide KexInit.Payload, ServerIdent, AllSay, Says, Emit, Keys, Auth.ServiceRequest, VerifyReply, Exchange.CurveHash,
         Draw, Exchange.CurveInit, PadFor, IdentLine, Negotiated, IsScript;
    var keys := Keys(c, x);
    var script := ClientScript(c, x);
    var request := Auth.ServiceRequest(Auth.ServiceUserauth());
    ServiceRequestSize();
    EmitSays(c, s.out, None, [KexInit.MSG_NEWKEYS], script, 3);
    var o2 := Emit(c, s.out, None, [KexInit.MSG_NEWKEYS]).(cs := Some(keys.cs));
    EmitSays(c, o2, Some(keys.cs), request, script, 4);
    assert script[..5] == script;
  }

  lemma ServiceRequestSize() ensures 0 < |Auth.ServiceRequest(Auth.ServiceUserauth())| <= 100 {}

  lemma ClientHearsNewkeys(c: Suite, cfg: Config, x: Script, s: State)
    requires IsScript(c, cfg, x) && ClientOn(c, x, s, 3) && s.phase == ServiceRequest
    ensures var t := Deliver(c, s, None, [KexInit.MSG_NEWKEYS]); ClientOn(c, x, t, 4) && t.out == s.out
  {
    hide AllSay, Keys, ClientScript, Deliver, Dispatch, IsScript, OwnC, OwnS;
    DeliverPlain(c, s, [KexInit.MSG_NEWKEYS]);
    DispatchNewkeys(c, s);
  }

  lemma DispatchNewkeys(c: Suite, s: State)
    ensures Dispatch(c, s, [KexInit.MSG_NEWKEYS]) == HandleNewkeys(s)
  {
    hide HandleNewkeys;
  }

  /** Where the dialogue of authentication and channels starts. */
  predicate ClientReady(c: Suite, x: Script, s: State) {
    && Fresh(s) && s.phase == UserAuth && s.kex.sessionId == Some(x.h)
    && s.kex.sc == Some(Advance(Keys(c, x).sc)) && s.out.cs == Some(Advance(Keys(c, x).cs))
  }

  lemma ClientHearsAccept(c: Suite, cfg: Config, x: Script, s: State)
    requires IsScript(c, cfg, x) && ClientOn(c, x, s, 4)
    ensures var t := Deliver(c, s, AdvanceOpt(s.kex.sc), Encode(cfg, ServiceAccept));
            ClientReady(c, x, t) && t.out == s.out
  {
    hide AllSay, Says, Keys, Auth.ServiceRequest, Exchange.CurveInit, IsScript, Encode, Auth.ParseServiceAccept,
         Auth.ServiceUserauth, Advance;
    AcceptRead(cfg);
    AcceptSize(cfg);
    Events.OneMore(s.events, Events.ReadyForAuth);
    DispatchAccept(c, WithSc(s, AdvanceOpt(s.kex.sc)), Encode(cfg, ServiceAccept));
  }

  lemma AcceptSize(cfg: Config)
    ensures 0 < |Encode(cfg, ServiceAccept)| <= 100 && Encode(cfg, ServiceAccept)[0] == Auth.MSG_SERVICE_ACCEPT
  {
  }

  lemma DispatchAccept(c: Suite, s: State, payload: Bytes)
    requires |payload| > 0 && payload[0] == Auth.MSG_SERVICE_ACCEPT
    ensures Dispatch(c, s, payload) == HandleServiceAccept(s, payload)
  {
    hide HandleServiceAccept;
  }

  /** The client's part of the exchange, item by item. */
  lemma ClientHears(c: Suite, cfg: Config, x: Script, s: State, heard: nat)
    requires IsScript(c, cfg, x) && ClientOn(c, x, s, heard) && 1 <= heard <= 4 && s.phase != AwaitingHostKeyDecision
    ensures heard < |ServerScript(c, cfg, x)| && ServerScript(c, cfg, x)[heard].Packet?
    ensures ServerScript(c, cfg, x)[heard].k == s.kex.sc
    ensures var t := Deliver(c, s, AdvanceOpt(s.kex.sc), ServerScript(c, cfg, x)[heard].payload);
            && (if heard < 4 then ClientOn(c, x, t, heard + 1) else ClientReady(c, x, t))
            && s.out.sent <= t.out.sent
            && (t.phase == AwaitingHostKeyDecision ==> t.out == s.out)
            && (heard >= 3 ==> t.out == s.out)
  {
    hide Deliver, IsScript, AllSay, Says, ReplyPayload, Encode, KexInit.Payload, ServerIdent, IdentLine, Keys,
         Exchange.CurveInit, Auth.ServiceRequest;
    match heard
    case 1 => ClientHearsKexinit(c, cfg, x, s);
    case 2 => ClientHearsReply(c, cfg, x, s);
    case 3 => ClientHearsNewkeys(c, cfg, x, s);
    case _ => ClientHearsAccept(c, cfg, x, s);
  }

  // ---- the server ----------------------------------------------------------------------------------

  /** How much the server has said after hearing `heard` items. */
  function ServerSaid(heard: nat): nat {
    if heard < 2 then 1 else if heard == 2 then 2 else if heard < 5 then 4 else 5
  }

  predicate ServerAt(c: Suite, x: Script, v: Server, heard: nat) {
    && !v.phase.Trapped?
    && (v.phase.AwaitingIdent? <==> heard == 0)
    && match heard
       case 0 => v.cs == None && v.out.cs == None && v.out.drawn == 0
       case 1 => v.cs == None && v.out.cs == None && v.out.drawn == 0 && v.peerIdent == Ident.CLIENT_IDENT
       case 2 => v.cs == None && v.out.cs == None && v.out.drawn == AfterCookie(OwnS(x)) && v.peerIdent == Ident.CLIENT_IDENT
                 && v.ownPayload == OwnS(x) && v.peerPayload == OwnC(x)
       case 3 => v.cs == None && v.csPending == Some(Keys(c, x).cs) && v.out.cs == Some(Keys(c, x).sc) && v.sessionId == x.h
       case 4 => v.cs == Some(Keys(c, x).cs) && v.out.cs == Some(Keys(c, x).sc) && v.sessionId == x.h
       case 5 => v.cs == Some(Advance(Keys(c, x).cs)) && v.out.cs == Some(Advance(Keys(c, x).sc)) && v.sessionId == x.h
       case _ => false
  }

  predicate ServerOn(c: Suite, cfg: Config, x: Script, v: Server, heard: nat) {
    ServerAt(c, x, v, heard) && AllSay(v.out.sent, ServerScript(c, cfg, x)[..ServerSaid(heard)])
  }

  lemma ClientIdentParts()
    ensures Ident.CLIENT_IDENT == Ident.SSH_PREFIX + Ascii("2.0-wasmssh_0.1.0")
    ensures |Ident.SSH_PREFIX| == 4
    ensures Ident.LF !in Ident.CLIENT_IDENT
  {
  }

  lemma {:induction false} FirstLfAt(a: Bytes, b: Bytes)
    requires Ident.LF !in a
    ensures FirstLf(a + [Ident.LF] + b) == Some(|a|)
  {
    if a != [] {
      assert a[0] in a;
      assert (a + [Ident.LF] + b)[1..] == a[1..] + [Ident.LF] + b;
      FirstLfAt(a[1..], b);
    }
  }

  lemma {:induction false} NoLf(a: Bytes)
    requires Ident.LF !in a
    ensures FirstLf(a) == None
  {
    if a != [] { NoLf(a[1..]); }
  }

  /** The server waits for the whole of the client's line, and then takes exactly that. */
  lemma ServerHearsLine(c: Suite, cfg: Config, x: Script, v: Server, buf: Bytes, future: Bytes, rest: Bytes)
    requires ServerOn(c, cfg, x, v, 0) && buf + future == Ident.CLIENT_IDENT_LINE + rest
    ensures var n := |Ident.CLIENT_IDENT_LINE|;
            if |buf| < n then ServerStep(c, cfg, v, buf) == Blocked
            else match ServerStep(c, cfg, v, buf)
                 case Went(m, v') => m == n && ServerOn(c, cfg, x, v', 1) && v'.out == v.out && buf[n..] + future == rest
                 case _ => false
  {
    hide ServerScript, AllSay, PacketStep, Ident.CLIENT_IDENT, Keys;
    var ident, line := Ident.CLIENT_IDENT, Ident.CLIENT_IDENT_LINE;
    var head := ident + [Ident.CR];
    ClientIdentParts();
    assert line == head + [Ident.LF];
    assert buf == (line + rest)[..|buf|];
    if |buf| < |line| {
      assert buf == head[..|buf|];
      NoLf(buf);
    } else {
      var more := buf[|line|..];
      assert buf == head + [Ident.LF] + more;
      FirstLfAt(head, more);
      assert buf[..|head|] == head;
      assert head[..|ident|] == ident;
      assert ident[..4] == Ident.SSH_PREFIX;
      assert more + future == rest by {
        assert (buf + future)[|line|..] == more + future;
      }
    }
  }

  lemma HandleKexinit(c: Suite, cfg: Config, v: Server, payload: Bytes)
    requires |payload| > 0 && payload[0] == KexInit.MSG_KEXINIT
    ensures Handle(c, cfg, v, payload) == Some(OnKexinit(c, cfg, v, payload))
  {
    hide OnKexinit;
  }

  lemma ServerHearsKexinit(c: Suite, cfg: Config, x: Script, v: Server)
    requires IsScript(c, cfg, x) && ServerOn(c, cfg, x, v, 1)
    ensures match Handle(c, cfg, v, OwnC(x))
            case None => false
            case Some(w) => ServerOn(c, cfg, x, w, 2) && v.out.sent <= w.out.sent
  {
    hide KexInit.Payload, ServerIdent, AllSay, Says, Emit, Keys, VerifyReply, Exchange.CurveHash, Handle, ReplyPayload,
         IdentLine, Encode;
    OwnSizes(x);
    HandleKexinit(c, cfg, v, OwnC(x));
    var e := Seeded(c, cfg);
    var o1 := v.out.(drawn := v.out.drawn + 16);
    EmitSays(e, o1, None, OwnS(x), ServerScript(c, cfg, x), 1);
  }

  lemma HandleCurveInit(c: Suite, cfg: Config, v: Server, qC: Bytes32)
    ensures Handle(c, cfg, v, Exchange.CurveInit(qC)) == OnCurveInit(c, cfg, v, Exchange.CurveInit(qC))
  {
    hide OnCurveInit;
  }

  function ReplyAndNewkeys(c: Suite, cfg: Config, x: Script, o: Out): Out {
    var e := Seeded(c, cfg);
    SendPlain(e, SendPlain(e, o.(drawn := o.drawn + 32), ReplyPayload(x)), [KexInit.MSG_NEWKEYS])
  }

  /** The server computes the script's hash and keys. */
  lemma ServerComputes(c: Suite, cfg: Config, x: Script, v: Server)
    requires IsScript(c, cfg, x) && ServerAt(c, x, v, 2)
    ensures OnCurveInit(c, cfg, v, Exchange.CurveInit(x.qC))
            == Some(v.(phase := AwaitingNewKeys, sessionId := x.h, csPending := Some(Keys(c, x).cs),
                       out := ReplyAndNewkeys(c, cfg, x, v.out).(cs := Some(Keys(c, x).sc))))
  {
    hide KexInit.Payload, ServerIdent, DerivePair, VerifyReply, Exchange.CurveHash, IdentLine, Draw, ParseCurveInit,
         Exchange.CurveInit, PadFor, SendPlain, Exchange.PutReply;
    CurveInitRead(x.qC);
  }

  lemma ReplyIsShort(c: Suite, cfg: Config, x: Script)
    requires IsScript(c, cfg, x)
    ensures 0 < |ReplyPayload(x)| <= 3 * SHORT
    ensures |ServerScript(c, cfg, x)| == 5
    ensures ServerScript(c, cfg, x)[2] == Packet(None, ReplyPayload(x))
    ensures ServerScript(c, cfg, x)[3] == Packet(None, [KexInit.MSG_NEWKEYS])
  {
    hide ReplyPayload, Encode, IdentLine, Keys, OwnS, OwnC, VerifyReply, Exchange.CurveHash;
    ReplyIsRead(x);
  }

  lemma ReplyIsSaid(c: Suite, cfg: Config, x: Script, o: Out)
    requires IsScript(c, cfg, x) && AllSay(o.sent, ServerScript(c, cfg, x)[..2])
    ensures var o' := ReplyAndNewkeys(c, cfg, x, o); AllSay(o'.sent, ServerScript(c, cfg, x)[..4]) && o.sent <= o'.sent
  {
    hide AllSay, Says, Emit, ReplyPayload, PadFor, IsScript, ServerScript;
    ReplyIsShort(c, cfg, x);
    var e := Seeded(c, cfg);
    var script := ServerScript(c, cfg, x);
    var o1 := o.(drawn := o.drawn + 32);
    EmitSays(e, o1, None, ReplyPayload(x), script, 2);
    EmitSays(e, Emit(e, o1, None, ReplyPayload(x)), None, [KexInit.MSG_NEWKEYS], script, 3);
  }

  /** The server answers with its signature over the hash, its NEWKEYS at once, and switches keys. */
  lemma ServerHearsInit(c: Suite, cfg: Config, x: Script, v: Server)
    requires IsScript(c, cfg, x) && ServerOn(c, cfg, x, v, 2)
    ensures match Handle(c, cfg, v, Exchange.CurveInit(x.qC))
            case None => false
            case Some(w) => ServerOn(c, cfg, x, w, 3) && v.out.sent <= w.out.sent
  {
    hide IsScript, OnCurveInit, ReplyAndNewkeys, AllSay, Says, Keys, Handle, ServerScript, OwnC, OwnS, Exchange.CurveInit;
    HandleCurveInit(c, cfg, v, x.qC);
    ServerComputes(c, cfg, x, v);
    ReplyIsSaid(c, cfg, x, v.out);
  }

  lemma HandleNewkeysAndService(c: Suite, cfg: Config, v: Server)
    ensures Handle(c, cfg, v, [KexInit.MSG_NEWKEYS]) == Some(v.(cs := v.csPending, csPending := None))
    ensures var request := Auth.ServiceRequest(Auth.ServiceUserauth());
            Handle(c, cfg, v, request) == OnServiceRequest(c, cfg, v, request)
  {
    hide OnServiceRequest, Auth.ServiceUserauth;
  }

  lemma ServerHearsService(c: Suite, cfg: Config, x: Script, v: Server)
    requires IsScript(c, cfg, x) && ServerOn(c, cfg, x, v, 4)
    ensures match Handle(c, cfg, v.(cs := AdvanceOpt(v.cs)), Auth.ServiceRequest(Auth.ServiceUserauth()))
            case None => false
            case Some(w) => ServerOn(c, cfg, x, w, 5) && v.out.sent <= w.out.sent
  {
    hide KexInit.Payload, ServerIdent, AllSay, Says, Emit, Keys, VerifyReply, Exchange.CurveHash, Handle, ReplyPayload,
         IdentLine, Encode, Draw, PadFor, Auth.ServiceRequest, Auth.ServiceUserauth, ParseServiceRequest, Advance,
         IsScript;
    var v1 := v.(cs := AdvanceOpt(v.cs));
    HandleNewkeysAndService(c, cfg, v1);
    ServiceRequestRead();
    AcceptSize(cfg);
    var e := Seeded(c, cfg);
    var script := ServerScript(c, cfg, x);
    var accept := Encode(cfg, ServiceAccept);
    EmitSays(e, v.out, v.out.cs, accept, script, 4);
    var o := Emit(e, v.out, v.out.cs, accept);
    assert script[..5] == script;
    assert SealReplies(c, cfg, v.out, [ServiceAccept]) == o.(cs := AdvanceOpt(v.out.cs)) by {
      assert [ServiceAccept][1..] == [];
    }
  }

  /** The server's part of the exchange, item by item. */
  lemma ServerHears(c: Suite, cfg: Config, x: Script, v: Server, heard: nat)
    requires IsScript(c, cfg, x) && ServerOn(c, cfg, x, v, heard) && 1 <= heard <= 4
    ensures heard < |ClientScript(c, x)| && ClientScript(c, x)[heard].Packet?
    ensures ClientScript(c, x)[heard].k == v.cs
    ensures match Handle(c, cfg, v.(cs := AdvanceOpt(v.cs)), ClientScript(c, x)[heard].payload)
            case None => false
            case Some(w) => ServerOn(c, cfg, x, w, heard + 1) && v.out.sent <= w.out.sent
  {
    hide Handle, IsScript, AllSay, Says, ReplyPayload, Encode, KexInit.Payload, ServerIdent, IdentLine, Keys,
         Exchange.CurveInit, Auth.ServiceRequest;
    match heard
    case 1 =>
      assert v.(cs := AdvanceOpt(v.cs)) == v;
      ServerHearsKexinit(c, cfg, x, v);
    case 2 =>
      assert v.(cs := AdvanceOpt(v.cs)) == v;
      ServerHearsInit(c, cfg, x, v);
    case 3 =>
      assert v.(cs := AdvanceOpt(v.cs)) == v;
      HandleNewkeysAndService(c, cfg, v);
    case _ => ServerHearsService(c, cfg, x, v);
  }
}
