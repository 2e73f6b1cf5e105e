/**
  The session state machine of ssh-core/src/session.rs, as functions on values.

  `State` is everything a `Session` holds except its unconsumed input. The outgoing buffer and the
  event queue are logs of everything ever sent or raised; the host's drains only move a mark over
  them. `Phase.Halted` stands for a Rust panic.
 */
module SessionModel {
  import opened Prelude
  import opened Primitives
  import opened Wire
  import opened Packet
  import opened PacketStream
  import opened Events
  import Ident
  import Kdf
  import KexInit
  import Exchange
  import Auth
  import Channel
  import Connection

  // ---- output ------------------------------------------------------------------------------------

  type Padding = b: Bytes | |b| < 0x100

  /** One thing written to the transport: a text line, or a packet under the cipher it was sealed with. */
  datatype Sent = Line(text: Bytes) | Sealed(k: Option<Cipher>, payload: Bytes, padding: Padding)

  function WireOf(c: Suite, item: Sent): Bytes {
    match item
    case Line(text) => text
    case Sealed(k, payload, padding) => SealWire(c, k, payload, padding)
  }

  /** The bytes of a log. */
  function Render(c: Suite, sent: seq<Sent>): Bytes {
    if sent == [] then [] else WireOf(c, sent[0]) + Render(c, sent[1..])
  }

  lemma {:induction false} RenderAppend(c: Suite, a: seq<Sent>, b: seq<Sent>)
    ensures Render(c, a + b) == Render(c, a) + Render(c, b)
  {
    if a == [] {
      assert a + b == b;
    } else {
      assert (a + b)[1..] == a[1..] + b;
      RenderAppend(c, a[1..], b);
    }
  }

  /** The payloads of its packets, in order. */
  function Payloads(sent: seq<Sent>): seq<Bytes> {
    if sent == [] then [] else (if sent[0].Sealed? then [sent[0].payload] else []) + Payloads(sent[1..])
  }

  lemma {:induction false} PayloadsAppend(a: seq<Sent>, b: seq<Sent>)
    ensures Payloads(a + b) == Payloads(a) + Payloads(b)
  {
    if a == [] {
      assert a + b == b;
    } else {
      assert (a + b)[1..] == a[1..] + b;
      PayloadsAppend(a[1..], b);
      var first, x, y := if a[0].Sealed? then [a[0].payload] else [], Payloads(a[1..]), Payloads(b);
      assert first + (x + y) == (first + x) + y;
    }
  }

  /** Random bytes drawn so far, everything sent, and the client-to-server cipher. */
  datatype Out = Out(drawn: nat, sent: seq<Sent>, cs: Option<Cipher>)

  /** Seal a packet under `k`, with padding from the random stream. */
  function Emit(c: Suite, o: Out, k: Option<Cipher>, payload: Bytes): Out {
    var pad := PadFor(k, |payload|);
    o.(drawn := o.drawn + pad, sent := o.sent + [Sealed(k, payload, Draw(c, o.drawn, pad))])
  }

  function SendPlain(c: Suite, o: Out, payload: Bytes): Out { Emit(c, o, None, payload) }

  /** `send_ciphered`; `None` is its panic when no cipher is active. */
  function SendCiphered(c: Suite, o: Out, payload: Bytes): Option<Out> {
    if o.cs.None? then None else Some(Emit(c, o, o.cs, payload).(cs := AdvanceOpt(o.cs)))
  }

  function SendPlainOrCiphered(c: Suite, o: Out, payload: Bytes): Out {
    Emit(c, o, o.cs, payload).(cs := AdvanceOpt(o.cs))
  }

  function SendEach(c: Suite, o: Out, payloads: seq<Bytes>): Option<Out>
    decreases |payloads|
  {
    if payloads == [] then Some(o)
    else
      var o' :- SendCiphered(c, o, payloads[0]);
      SendEach(c, o', payloads[1..])
  }

  lemma SendEachNone(c: Suite, o: Out)
    ensures SendEach(c, o, []) == Some(o)
  {
  }

  lemma SendEachOne(c: Suite, o: Out, payload: Bytes)
    ensures SendEach(c, o, [payload]) == SendCiphered(c, o, payload)
  {
    hide SendCiphered;
    assert [payload][1..] == [];
  }

  // ---- state -------------------------------------------------------------------------------------

  datatype Phase =
    | VersionExchange
    | KexInProgress
    | AwaitingHostKeyDecision
    | ServiceRequest
    | UserAuth
    | Connected
    | Closed
    | Halted

  datatype ActiveKex = Curve25519(secret: Bytes) | Group14(secret: Bytes)

  datatype CipherPair = CipherPair(cs: Cipher, sc: Cipher)

  datatype PendingAuth =
    | PasswordSent
    | PublicKeyQuery(user: Bytes, algorithm: Bytes, blob: Bytes, key: PrivateKey)
    | PublicKeySigned

  datatype Kex = Kex(
    ownPayload: Bytes,
    peerPayload: Bytes,
    negotiated: Option<KexInit.Negotiated>,
    active: Option<ActiveKex>,
    sessionId: Option<Bytes>,
    pendingHostKey: Option<Bytes>,
    pendingCiphers: Option<CipherPair>,
    pendingSc: Option<Cipher>,
    sc: Option<Cipher>)

  datatype State = State(
    phase: Phase,
    out: Out,
    events: seq<Event>,
    ident: Ident.Scanner,
    peerIdent: Bytes,
    kex: Kex,
    username: Option<Bytes>,
    pendingAuth: Option<PendingAuth>,
    conn: Connection.Conn)

  const NO_KEX := Kex([], [], None, None, None, None, None, None, None)

  const INITIAL := State(
    VersionExchange, Out(0, [Line(Ident.CLIENT_IDENT_LINE)], None), [], Ident.FRESH, [], NO_KEX, None, None,
    Connection.EMPTY)

  predicate Idle(p: Phase) { p == Closed || p == AwaitingHostKeyDecision || p == Halted }

  predicate Over(p: Phase) { p == Closed || p == Halted }

  /** How a handler ends: `Ok(())`, an error that closes the session, or a panic. */
  datatype Outcome = Fine(s: State) | Failed(s: State, error: SshError) | Panic

  function Fail(s: State, e: SshError): State { s.(phase := Closed, events := s.events + [Unrecoverable(e)]) }

  function Halt(s: State): State { s.(phase := Halted) }

  /** The state after a handler that was entered in `before`. */
  function Settle(before: State, o: Outcome): State {
    match o
    case Fine(s) => s
    case Failed(s, e) => Fail(s, e)
    case Panic => Halt(before)
  }

  function Raise(s: State, e: Event): State { s.(events := s.events + [e]) }

  // ---- version exchange ----------------------------------------------------------------------------

  /** Identification complete: send our KEXINIT. */
  function BeginKex(c: Suite, s: State): State {
    var cookie: Bytes16 := Draw(c, s.out.drawn, 16);
    var payload := KexInit.Payload(KexInit.Ours(cookie));
    var drawn := s.out.(drawn := s.out.drawn + 16);
    s.(phase := KexInProgress,
       peerIdent := if s.ident.server.Some? then s.ident.server.value else [],
       kex := s.kex.(ownPayload := payload),
       out := SendPlain(c, drawn, payload))
  }

  // ---- key exchange --------------------------------------------------------------------------------

  function HandlePeerKexinit(c: Suite, s: State, payload: Bytes): Outcome {
    var s1 := s.(kex := s.kex.(peerPayload := payload));
    match KexInit.Parse(s.kex.ownPayload)
    case Err(e) => Failed(s1, e)
    case Ok(ours) =>
      match KexInit.Parse(payload)
      case Err(e) => Failed(s1, e)
      case Ok(theirs) =>
        match KexInit.NegotiateAll(ours, theirs)
        case Err(e) => Failed(s1, e)
        case Ok(n) => StartKex(c, s1, n)
  }

  function StartKex(c: Suite, s: State, n: KexInit.Negotiated): Outcome {
    if n.kex == KexInit.CURVE25519 then
      var secret := Draw(c, s.out.drawn, 32);
      Fine(SendKexInit(c, s, n, Curve25519(secret), 32, Exchange.CurveInit(c.x25519Public(secret))))
    else if n.kex == KexInit.GROUP14 then
      var secret := Draw(c, s.out.drawn, 256);
      Fine(SendKexInit(c, s, n, Group14(secret), 256, Exchange.Group14Init(c.group14Public(secret))))
    else Failed(s, Negotiation)
  }

  function SendKexInit(c: Suite, s: State, n: KexInit.Negotiated, active: ActiveKex, drawn: nat, msg: Bytes): State {
    s.(kex := s.kex.(active := Some(active), negotiated := Some(n)),
       out := SendPlainOrCiphered(c, s.out.(drawn := s.out.drawn + drawn), msg))
  }

  function TranscriptOf(s: State, hostKey: Bytes): Exchange.Transcript {
    Exchange.Transcript(Ident.CLIENT_IDENT, s.peerIdent, s.kex.ownPayload, s.kex.peerPayload, hostKey)
  }

  /** `verify_reply_signature`. */
  function VerifyReply(c: Suite, r: Exchange.Reply, h: Bytes): Option<SshError> {
    if !c.keyParses(r.hostKey) then Some(KeyError)
    else if !c.signatureParses(r.signature) then Some(KeyError)
    else if !c.verifies(r.hostKey, h, r.signature) then Some(HostKeySignatureInvalid)
    else None
  }

  function HandleCurveReply(c: Suite, s: State, secret: Bytes, payload: Bytes): Outcome {
    match Exchange.ParseCurveReply(payload)
    case Err(e) => Failed(s, e)
    case Ok(r) =>
      var s1 := s.(kex := s.kex.(active := None));
      if |r.peerPublic| != 32 then Failed(s1, Framing)
      else
        match c.x25519Shared(secret, r.peerPublic)
        case None => Failed(s1, Negotiation)
        case Some(shared) =>
          var h := Exchange.CurveHash(c, TranscriptOf(s, r.hostKey), c.x25519Public(secret), r.peerPublic, shared);
          match VerifyReply(c, r, h)
          case Some(e) => Failed(s1, e)
          case None => OnKexResult(c, s1, r.hostKey, h, shared)
  }

  function HandleGroup14Reply(c: Suite, s: State, secret: Bytes, payload: Bytes): Outcome {
    match Exchange.ParseReply(payload)
    case Err(e) => Failed(s, e)
    case Ok(r) =>
      var s1 := s.(kex := s.kex.(active := None));
      match c.group14Shared(secret, r.peerPublic)
      case Err(e) => Failed(s1, e)
      case Ok(shared) =>
        var h := Exchange.Group14Hash(c, TranscriptOf(s, r.hostKey), c.group14Public(secret), r.peerPublic, shared);
        match VerifyReply(c, r, h)
        case Some(e) => Failed(s1, e)
        case None => OnKexResult(c, s1, r.hostKey, h, shared)
  }

  const PLAINTEXT_PACKETS_BEFORE_NEWKEYS: U32 := 3

  const TAG_IV_CS: Byte := 0x41
  const TAG_IV_SC: Byte := 0x42
  const TAG_KEY_CS: Byte := 0x43
  const TAG_KEY_SC: Byte := 0x44

  /** One direction's cipher, derived from the shared secret (section 7.2 of RFC 4253). */
  function DeriveCipher(c: Suite, alg: Alg, shared: Bytes, h: Bytes, sid: Bytes, keyTag: Byte, ivTag: Byte): Cipher {
    var k := Kdf.Mpint(shared);
    CipherState(alg, Kdf.Derive(c, k, h, sid, keyTag, KeyLen(alg)), Kdf.Derive(c, k, h, sid, ivTag, IvLen(alg)),
                PLAINTEXT_PACKETS_BEFORE_NEWKEYS)
  }

  function DerivePair(c: Suite, alg: Alg, shared: Bytes, h: Bytes, sid: Bytes): CipherPair {
    CipherPair(DeriveCipher(c, alg, shared, h, sid, TAG_KEY_CS, TAG_IV_CS),
               DeriveCipher(c, alg, shared, h, sid, TAG_KEY_SC, TAG_IV_SC))
  }

  function OnKexResult(c: Suite, s: State, hostKey: Bytes, h: Bytes, shared: Bytes): Outcome {
    match s.kex.negotiated
    case None => Panic
    case Some(n) =>
      match FromName(n.encryptionCs)
      case None => Failed(s, Negotiation)
      case Some(alg) =>
        var sid := if s.kex.sessionId.Some? then s.kex.sessionId.value else h;
        var kex := s.kex.(pendingCiphers := Some(DerivePair(c, alg, shared, h, sid)),
                          sessionId := Some(sid),
                          pendingHostKey := Some(hostKey));
        Fine(Raise(s.(kex := kex, phase := AwaitingHostKeyDecision),
                   HostKeyVerify(c.keyName(hostKey), c.fingerprint(hostKey), hostKey)))
  }

  function HandleNewkeys(s: State): Outcome {
    var s1 := s.(kex := s.kex.(sc := s.kex.pendingSc, pendingSc := None));
    if s1.out.cs.None? || s1.kex.sc.None? then Failed(s1, UnexpectedMessage(KexInit.MSG_NEWKEYS)) else Fine(s1)
  }

  // ---- service request and authentication ------------------------------------------------------------

  function HandleServiceAccept(s: State, payload: Bytes): Outcome {
    match Auth.ParseServiceAccept(payload)
    case Err(e) => Failed(s, e)
    case Ok(service) =>
      if service != Auth.ServiceUserauth() then Failed(s, Negotiation)
      else Fine(Raise(s.(phase := UserAuth), ReadyForAuth))
  }

  function HandleUserauthFailure(s: State, payload: Bytes): Outcome {
    match Auth.ParseFailure(payload)
    case Err(e) => Failed(s, e)
    case Ok(methods) => Fine(Raise(s.(pendingAuth := None), AuthFailure(methods)))
  }

  function HandleUserauthSuccess(s: State): Outcome {
    Fine(Raise(s.(pendingAuth := None, phase := Connected), AuthSuccess))
  }

  function HandlePkOk(c: Suite, s: State, payload: Bytes): Outcome {
    match s.pendingAuth
    case Some(PublicKeyQuery(user, algorithm, blob, key)) =>
      var s1 := s.(pendingAuth := None);
      (match Auth.ParsePkOk(payload)
       case Err(e) => Failed(s1, e)
       case Ok(_) =>
         match s.kex.sessionId
         case None => Panic
         case Some(sid) =>
           match c.sign(key, Auth.SignedData(sid, user, algorithm, blob))
           case None => Failed(s1, SigningFailed)
           case Some(signature) =>
             match SendCiphered(c, s.out, Auth.SignedRequest(user, algorithm, blob, signature))
             case None => Panic
             case Some(out) => Fine(s1.(pendingAuth := Some(PublicKeySigned), out := out)))
    case _ => Failed(s, UnsupportedAuthMethod)
  }

  // ---- connection protocol -----------------------------------------------------------------------------

  const MSG_GLOBAL_REQUEST: Byte := 80
  const MSG_REQUEST_FAILURE: Byte := 82

  /** Whether a global request wants a reply. */
  function ParseGlobalRequest(r: Bytes): Result<bool> {
    var (_, r1) :- GetString(r);
    var (wantReply, _) :- GetBool(r1);
    Ok(wantReply)
  }

  function HandleGlobalRequest(c: Suite, s: State, payload: Bytes): Outcome
    requires |payload| > 0
  {
    match ParseGlobalRequest(payload[1..])
    case Err(e) => Failed(s, e)
    case Ok(wantReply) =>
      if !wantReply then Fine(s)
      else
        match SendCiphered(c, s.out, [MSG_REQUEST_FAILURE])
        case None => Panic
        case Some(out) => Fine(s.(out := out))
  }

  /** Carry out what a channel handler asked for. */
  function React(c: Suite, s: State, r: Connection.Reaction): Outcome {
    match r
    case Refused(e) => Failed(s, e)
    case Panicked => Panic
    case Reacted(conn, sends, events) =>
      match SendEach(c, s.out, sends)
      case None => Panic
      case Some(out) => Fine(s.(conn := conn, out := out, events := s.events + events))
  }

  // ---- dispatch ------------------------------------------------------------------------------------------

  function ParseDisconnect(r: Bytes): Result<Event> {
    var (reason, r1) :- GetU32(r);
    Ok(Disconnected(reason, Connection.DescriptionOr(r1)))
  }

  function HandleDisconnect(s: State, payload: Bytes): Outcome
    requires |payload| > 0
  {
    match ParseDisconnect(payload[1..])
    case Err(e) => Failed(s, e)
    case Ok(event) => Fine(Raise(s.(phase := Closed), event))
  }

  function HandleKexReply(c: Suite, s: State, payload: Bytes): Outcome {
    match s.kex.active
    case Some(Curve25519(secret)) => HandleCurveReply(c, s, secret, payload)
    case Some(Group14(secret)) => HandleGroup14Reply(c, s, secret, payload)
    case None => Failed(s, UnexpectedMessage(Exchange.MSG_KEX_REPLY))
  }

  /** Keyed on the message type alone: the phase is not consulted. */
  function Dispatch(c: Suite, s: State, payload: Bytes): Outcome
    requires |payload| > 0
  {
    var msg := payload[0];
    if msg == 1 then HandleDisconnect(s, payload)
    else if msg == 2 || msg == 3 || msg == 4 then Fine(s)
    else if msg == KexInit.MSG_KEXINIT then HandlePeerKexinit(c, s, payload)
    else if msg == Exchange.MSG_KEX_REPLY then HandleKexReply(c, s, payload)
    else if msg == KexInit.MSG_NEWKEYS then HandleNewkeys(s)
    else if msg == Auth.MSG_SERVICE_ACCEPT then HandleServiceAccept(s, payload)
    else if msg == Auth.MSG_USERAUTH_FAILURE then HandleUserauthFailure(s, payload)
    else if msg == Auth.MSG_USERAUTH_SUCCESS then HandleUserauthSuccess(s)
    else if msg == Auth.MSG_USERAUTH_PK_OK then HandlePkOk(c, s, payload)
    else if Connection.IsChannelMessage(msg) then React(c, s, Connection.OnMessage(s.conn, msg, payload[1..]))
    else if msg == MSG_GLOBAL_REQUEST then HandleGlobalRequest(c, s, payload)
    else Failed(s, UnexpectedMessage(msg))
  }

  // ---- driving ---------------------------------------------------------------------------------------------

  function WithSc(s: State, k: Option<Cipher>): State { s.(kex := s.kex.(sc := k)) }

  /** Handle one opened packet, the receiving cipher having moved to `k`. */
  function Deliver(c: Suite, s: State, k: Option<Cipher>, payload: Bytes): State {
    var s1 := WithSc(s, k);
    if payload == [] then Fail(s1, Framing) else Settle(s1, Dispatch(c, s1, payload))
  }

  /** One pass of the packet loop: bytes consumed and the state after, or `None` to wait for more. */
  function PacketTurn(c: Suite, s: State, buf: Bytes): (t: Option<(nat, State)>)
    ensures t.Some? ==> t.value.0 <= |buf| && (t.value.0 > 0 || Over(t.value.1.phase))
  {
    match NextFrame(c, s.kex.sc, buf)
    case Wait => None
    case Reject => Some((0, Fail(s, Framing)))
    case Torn(total, k, e) => Some((total, Fail(WithSc(s, k), e)))
    case Got(total, k, payload) => Some((total, Deliver(c, s, k, payload)))
  }

  /** One pass of the version exchange. */
  function IdentTurn(c: Suite, s: State, buf: Bytes): (t: Option<(nat, State)>)
    ensures t.Some? ==> t.value.0 <= |buf| && (t.value.0 > 0 || Over(t.value.1.phase))
  {
    if buf == [] || s.ident.server.Some? then None
    else
      match Ident.Scan(s.ident, buf)
      case More(i) => Some((|buf|, s.(ident := i)))
      case Done(n, i) => Some((n, BeginKex(c, s.(ident := i))))
      case Bad(i) => Some((0, Fail(s.(ident := i), Framing)))
  }

  function Turn(c: Suite, s: State, buf: Bytes): (t: Option<(nat, State)>)
    ensures t.Some? ==> t.value.0 <= |buf| && (t.value.0 > 0 || Over(t.value.1.phase))
  {
    if s.phase == VersionExchange then IdentTurn(c, s, buf) else PacketTurn(c, s, buf)
  }

  /** A session: its state and the bytes it has not consumed. */
  datatype Session = Session(core: State, incoming: Bytes)

  /** `drive`: keep turning until the input is exhausted, the session pauses, or it is over. */
  function Drive(c: Suite, s: State, buf: Bytes): Session
    decreases |buf|, if Over(s.phase) then 0 else 1
  {
    if Idle(s.phase) then Session(s, buf)
    else
      match Turn(c, s, buf)
      case None => Session(s, buf)
      case Some((n, s')) => Drive(c, s', buf[n..])
  }

  // ---- the public methods ------------------------------------------------------------------------------------

  const START := Session(INITIAL, [])

  function Feed(c: Suite, x: Session, b: Bytes): Session { Drive(c, x.core, x.incoming + b) }

  function TransportClosed(s: State): State {
    if Over(s.phase) then s else Fail(s, SshError.TransportClosed)
  }

  /** The state right after accepting the host key: our NEWKEYS goes out in the clear, then the
      ciphers move up and the service request is the first ciphered packet. */
  function Accepted(c: Suite, s: State): State {
    var plain := SendPlain(c, s.out, [KexInit.MSG_NEWKEYS]);
    var (out, kex) :=
      match s.kex.pendingCiphers
      case None => (plain, s.kex.(pendingHostKey := None))
      case Some(pair) =>
        (plain.(cs := Some(pair.cs)), s.kex.(pendingHostKey := None, pendingCiphers := None, pendingSc := Some(pair.sc)));
    match SendCiphered(c, out, Auth.ServiceRequest(Auth.ServiceUserauth()))
    case None => Halt(s)
    case Some(out') => s.(phase := ServiceRequest, out := out', kex := kex)
  }

  function Decide(c: Suite, x: Session, accept: bool): Session {
    if x.core.phase != AwaitingHostKeyDecision then x
    else if !accept then x.(core := Fail(x.core, HostKeyRejected))
    else Drive(c, Accepted(c, x.core), x.incoming)
  }

  function SendOrHalt(c: Suite, before: State, s: State, payload: Bytes): State {
    match SendCiphered(c, s.out, payload) case None => Halt(before) case Some(out) => s.(out := out)
  }

  function AuthenticatePassword(c: Suite, s: State, user: Bytes, password: Bytes): State {
    if s.phase != UserAuth then s
    else
      SendOrHalt(c, s, s.(username := Some(user), pendingAuth := Some(PasswordSent)),
                 Auth.PasswordRequest(user, password))
  }

  /** An unsupported key is reported to the caller and leaves the session open. */
  function AuthenticatePublickey(c: Suite, s: State, user: Bytes, key: PrivateKey): State {
    if s.phase != UserAuth then s
    else
      match c.userAlgorithm(key)
      case None => s.(username := Some(user))
      case Some(algorithm) =>
        var blob := c.publicBlob(key);
        SendOrHalt(c, s, s.(username := Some(user), pendingAuth := Some(PublicKeyQuery(user, algorithm, blob, key))),
                   Auth.KeyQuery(user, algorithm, blob))
  }

  function OpenExec(c: Suite, s: State, command: Bytes): State {
    SendOrHalt(c, s, s.(conn := Connection.OpenExec(s.conn, command)), Channel.OpenMessage(s.conn.nextId))
  }

  function OpenShell(c: Suite, s: State, pty: Connection.Pty): State {
    SendOrHalt(c, s, s.(conn := Connection.OpenShell(s.conn, pty)), Channel.OpenMessage(s.conn.nextId))
  }

  /** Everything the outside world can do to a session. */
  datatype Input =
    | FeedIncoming(bytes: Bytes)
    | NotifyTransportClosed
    | ProvideHostKeyDecision(accept: bool)
    | Password(user: Bytes, password: Bytes)
    | PublicKey(user: Bytes, key: PrivateKey)
    | Exec(command: Bytes)
    | Shell(pty: Connection.Pty)
    | SendData(id: U32, data: Bytes)
    | Resize(id: U32, cols: U32, rows: U32)
    | CloseChannel(id: U32)

  /** Host calls that do not touch the unconsumed input. */
  function HostCall(c: Suite, s: State, i: Input): State
    requires !i.FeedIncoming? && !i.ProvideHostKeyDecision?
  {
    match i
    case NotifyTransportClosed => TransportClosed(s)
    case Password(user, password) => AuthenticatePassword(c, s, user, password)
    case PublicKey(user, key) => AuthenticatePublickey(c, s, user, key)
    case Exec(command) => OpenExec(c, s, command)
    case Shell(pty) => OpenShell(c, s, pty)
    case SendData(id, data) => Settle(s, React(c, s, Connection.ChannelSend(s.conn, id, data)))
    case Resize(id, cols, rows) => Settle(s, React(c, s, Connection.ResizePty(s.conn, id, cols, rows)))
    case CloseChannel(id) => Settle(s, React(c, s, Connection.CloseChannel(s.conn, id)))
  }

  /** One call. Nothing happens after a panic. */
  function Do(c: Suite, x: Session, i: Input): Session {
    if x.core.phase == Halted then x
    else
      match i
      case FeedIncoming(b) => Feed(c, x, b)
      case ProvideHostKeyDecision(accept) => Decide(c, x, accept)
      case _ => x.(core := HostCall(c, x.core, i))
  }

  lemma DoIsHostCall(c: Suite, x: Session, i: Input)
    requires x.core.phase != Halted && !i.FeedIncoming? && !i.ProvideHostKeyDecision?
    ensures Do(c, x, i) == x.(core := HostCall(c, x.core, i))
  {
    hide HostCall;
  }

  lemma DoIsDecide(c: Suite, x: Session, accept: bool)
    requires x.core.phase != Halted
    ensures Do(c, x, ProvideHostKeyDecision(accept)) == Decide(c, x, accept)
  {
    hide Decide;
  }

  lemma AuthCalls(c: Suite, s: State, user: Bytes, password: Bytes, key: PrivateKey)
    ensures HostCall(c, s, Password(user, password)) == AuthenticatePassword(c, s, user, password)
    ensures HostCall(c, s, PublicKey(user, key)) == AuthenticatePublickey(c, s, user, key)
  {
    hide AuthenticatePassword, AuthenticatePublickey;
  }

  lemma ChannelCalls(c: Suite, s: State, id: U32, data: Bytes, cols: U32, rows: U32)
    ensures HostCall(c, s, SendData(id, data)) == Settle(s, React(c, s, Connection.ChannelSend(s.conn, id, data)))
    ensures HostCall(c, s, Resize(id, cols, rows)) == Settle(s, React(c, s, Connection.ResizePty(s.conn, id, cols, rows)))
    ensures HostCall(c, s, CloseChannel(id)) == Settle(s, React(c, s, Connection.CloseChannel(s.conn, id)))
  {
    hide React;
  }

  function Run(c: Suite, x: Session, inputs: seq<Input>): Session
    decreases |inputs|
  {
    if inputs == [] then x else Run(c, Do(c, x, inputs[0]), inputs[1..])
  }
}
