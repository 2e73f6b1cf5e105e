/**
  The in-process peer of ssh-core-testkit/src/lib.rs: a second state machine, built from the same
  transport, authentication and channel pieces seen from the other side.

  `ServerPhase.Trapped` stands for one of its many `unwrap`s, `assert`s and `panic`s.
 */
module FakeServer {
  import opened Prelude
  import opened Primitives
  import opened Wire
  import opened Packet
  import opened SessionModel
  import Ident
  import KexInit
  import Exchange
  import Auth
  import Channel
  import Connection

  /** What a server is constructed with. The code always reports exit status 0; here the status is a parameter. */
  datatype Config = Config(
    entropy: nat -> Byte,
    hostKey: PrivateKey,
    username: Bytes,
    password: Bytes,
    execOutput: Bytes,
    exitCode: U32,
    globalRequestAfterAuth: bool)

  datatype ServerPhase =
    | AwaitingIdent
    | AwaitingKexInit
    | AwaitingKexEcdhInit
    | AwaitingNewKeys
    | AwaitingUserAuth
    | Connected
    | Trapped

  /** `out.cs` is the cipher the server sends under. */
  datatype Server = Server(
    phase: ServerPhase,
    out: Out,
    peerIdent: Bytes,
    ownPayload: Bytes,
    peerPayload: Bytes,
    sessionId: Bytes,
    cs: Option<Cipher>,
    csPending: Option<Cipher>,
    lastExec: Option<Bytes>)

  function ServerIdent(): Bytes { Ascii("SSH-2.0-FakeTestServer_1.0") }

  function IdentLine(): Bytes { ServerIdent() + [Ident.CR, Ident.LF] }

  function NewServer(): Server {
    Server(AwaitingIdent, Out(0, [Line(IdentLine())], None), [], [], [], [], None, None, None)
  }

  /** The server's own random source; everything else comes from the shared suite. */
  function Seeded(c: Suite, cfg: Config): Suite { c.(entropy := cfg.entropy) }

  // ---- what the server sends once keys are in place --------------------------------------------------

  datatype Reply =
    | ServiceAccept
    | AuthSuccess
    | AuthFailure
    | KeyAcceptable(algorithm: Bytes, blob: Bytes)
    | GlobalRequest
    | Confirmation(id: U32)
    | RequestSuccess(id: U32)
    | RequestFailure(id: U32)
    | Output(id: U32)
    | ExitStatus(id: U32)
    | Eof(id: U32)
    | Close(id: U32)

  function RemainingMethods(): Bytes { Ascii("password,publickey") }
  function GlobalRequestName(): Bytes { Ascii("test-global-request@example.com") }

  function Encode(cfg: Config, r: Reply): Bytes {
    match r
    case ServiceAccept => [Auth.MSG_SERVICE_ACCEPT] + Str(Auth.ServiceUserauth())
    case AuthSuccess => [Auth.MSG_USERAUTH_SUCCESS]
    case AuthFailure => [Auth.MSG_USERAUTH_FAILURE] + (Str(RemainingMethods()) + Bool(false))
    case KeyAcceptable(algorithm, blob) => [Auth.MSG_USERAUTH_PK_OK] + (Str(algorithm) + Str(blob))
    case GlobalRequest => [MSG_GLOBAL_REQUEST] + (Str(GlobalRequestName()) + Bool(true))
    case Confirmation(id) =>
      [Channel.MSG_CHANNEL_OPEN_CONFIRMATION]
      + (U32Be(id) + (U32Be(0) + (U32Be(Channel.INITIAL_WINDOW_SIZE) + U32Be(Channel.MAX_PACKET_SIZE))))
    case RequestSuccess(id) => Channel.IdMessage(Channel.MSG_CHANNEL_SUCCESS, id)
    case RequestFailure(id) => Channel.IdMessage(Channel.MSG_CHANNEL_FAILURE, id)
    case Output(id) => Channel.DataMessage(id, cfg.execOutput)
    case ExitStatus(id) => Channel.RequestMessage(id, Connection.NameExitStatus(), false, U32Be(cfg.exitCode))
    case Eof(id) => Channel.IdMessage(Channel.MSG_CHANNEL_EOF, id)
    case Close(id) => Channel.IdMessage(Channel.MSG_CHANNEL_CLOSE, id)
  }

  /** `seal`, once per reply. */
  function SealReplies(c: Suite, cfg: Config, o: Out, replies: seq<Reply>): Out
    decreases |replies|
  {
    if replies == [] then o
    else SealReplies(c, cfg, SendPlainOrCiphered(Seeded(c, cfg), o, Encode(cfg, replies[0])), replies[1..])
  }

  function Answer(c: Suite, cfg: Config, v: Server, replies: seq<Reply>): Server {
    v.(out := SealReplies(c, cfg, v.out, replies))
  }

  // ---- handlers; `None` is a panic ---------------------------------------------------------------------

  function OnKexinit(c: Suite, cfg: Config, v: Server, payload: Bytes): Server {
    var e := Seeded(c, cfg);
    var cookie: Bytes16 := Draw(e, v.out.drawn, 16);
    var own := KexInit.Payload(KexInit.Ours(cookie));
    v.(phase := AwaitingKexEcdhInit, peerPayload := payload, ownPayload := own,
       out := SendPlain(e, v.out.(drawn := v.out.drawn + 16), own))
  }

  function ParseCurveInit(payload: Bytes): Result<Bytes> {
    var (_, r0) :- GetU8(payload);
    var (qC, _) :- GetString(r0);
    if |qC| != 32 then Err(Framing) else Ok(qC)
  }

  function OnCurveInit(c: Suite, cfg: Config, v: Server, payload: Bytes): Option<Server> {
    match ParseCurveInit(payload)
    case Err(_) => None
    case Ok(qC) =>
      var e := Seeded(c, cfg);
      var secret := Draw(e, v.out.drawn, 32);
      match c.x25519Shared(secret, qC)
      case None => None
      case Some(shared) =>
        var blob := c.publicBlob(cfg.hostKey);
        var t := Exchange.Transcript(v.peerIdent, ServerIdent(), v.peerPayload, v.ownPayload, blob);
        var h := Exchange.CurveHash(c, t, qC, c.x25519Public(secret), shared);
        match c.sign(cfg.hostKey, h)
        case None => None
        case Some(signature) =>
          var reply := Exchange.PutReply(Exchange.Reply(blob, c.x25519Public(secret), signature));
          var pair := DerivePair(c, ChaCha20Poly1305, shared, h, h);
          var drawn := v.out.(drawn := v.out.drawn + 32);
          var out := SendPlain(e, SendPlain(e, drawn, reply), [KexInit.MSG_NEWKEYS]);
          Some(v.(phase := AwaitingNewKeys, sessionId := h, csPending := Some(pair.cs), out := out.(cs := Some(pair.sc))))
  }

  function ParseServiceRequest(payload: Bytes): Result<Bytes> {
    var (_, r0) :- GetU8(payload);
    var (service, _) :- GetUtf8(r0);
    Ok(service)
  }

  function OnServiceRequest(c: Suite, cfg: Config, v: Server, payload: Bytes): Option<Server> {
    match ParseServiceRequest(payload)
    case Err(_) => None
    case Ok(service) =>
      if service != Auth.ServiceUserauth() then None
      else Some(Answer(c, cfg, v.(phase := AwaitingUserAuth), [ServiceAccept]))
  }

  /** The server's verdict on a request that claims to prove something; `None` is a panic. */
  function Proves(c: Suite, cfg: Config, sessionId: Bytes, r: Auth.Request): Option<bool> {
    match r
    case Password(user, password) => Some(user == cfg.username && password == cfg.password)
    case Signed(user, algorithm, blob, signature) =>
      if !c.keyParses(blob) then None
      else
        Some(c.signatureParses(signature)
             && c.verifies(blob, Auth.RebuiltSignedData(sessionId, user, algorithm, blob), signature)
             && user == cfg.username)
    case _ => Some(false)
  }

  function Verdict(cfg: Config, ok: bool): seq<Reply> {
    if !ok then [AuthFailure]
    else if cfg.globalRequestAfterAuth then [AuthSuccess, GlobalRequest]
    else [AuthSuccess]
  }

  function OnUserauthRequest(c: Suite, cfg: Config, v: Server, payload: Bytes): Option<Server> {
    match Auth.ParseRequest(payload)
    case Err(_) => None
    case Ok(Query(_, algorithm, blob)) => Some(Answer(c, cfg, v, [KeyAcceptable(algorithm, blob)]))
    case Ok(r) =>
      match Proves(c, cfg, v.sessionId, r)
      case None => None
      case Some(ok) => Some(Answer(c, cfg, v, Verdict(cfg, ok)))
  }

  function OnChannelOpen(c: Suite, cfg: Config, v: Server, payload: Bytes): Option<Server> {
    match Channel.ParseOpening(payload)
    case Err(_) => None
    case Ok(o) => Some(Answer(c, cfg, v.(phase := ServerPhase.Connected), [Confirmation(o.sender)]))
  }

  datatype ChannelRequest = ChannelRequest(recipient: U32, name: Bytes, rest: Bytes)

  function ParseChannelRequest(payload: Bytes): Result<ChannelRequest> {
    var (_, r0) :- GetU8(payload);
    var (recipient, r1) :- GetU32(r0);
    var (name, r2) :- GetUtf8(r1);
    var (_, r3) :- GetBool(r2);
    Ok(ChannelRequest(recipient, name, r3))
  }

  /** The whole answer to an exec request. The recipient id of the request is echoed, although it is the
      server's own id for the channel and not the client's. */
  function ExecReplies(id: U32): (replies: seq<Reply>)
    ensures |replies| == 5
  {
    [RequestSuccess(id), Output(id), ExitStatus(id), Eof(id), Close(id)]
  }

  function OnChannelRequest(c: Suite, cfg: Config, v: Server, payload: Bytes): Option<Server> {
    match ParseChannelRequest(payload)
    case Err(_) => None
    case Ok(r) =>
      if r.name != Connection.NameExec() then Some(Answer(c, cfg, v, [RequestFailure(r.recipient)]))
      else
        match GetUtf8(r.rest)
        case Err(_) => None
        case Ok((command, _)) => Some(Answer(c, cfg, v.(lastExec := Some(command)), ExecReplies(r.recipient)))
  }

  /** Keyed on the message type alone, like the client's `dispatch`. */
  function Handle(c: Suite, cfg: Config, v: Server, payload: Bytes): Option<Server> {
    if payload == [] then None
    else
      var msg := payload[0];
      if msg == KexInit.MSG_KEXINIT then Some(OnKexinit(c, cfg, v, payload))
      else if msg == Exchange.MSG_KEX_INIT then OnCurveInit(c, cfg, v, payload)
      else if msg == KexInit.MSG_NEWKEYS then Some(v.(cs := v.csPending, csPending := None))
      else if msg == Auth.MSG_SERVICE_REQUEST then OnServiceRequest(c, cfg, v, payload)
      else if msg == Auth.MSG_USERAUTH_REQUEST then OnUserauthRequest(c, cfg, v, payload)
      else if msg == Channel.MSG_CHANNEL_OPEN then OnChannelOpen(c, cfg, v, payload)
      else if msg == Channel.MSG_CHANNEL_REQUEST then OnChannelRequest(c, cfg, v, payload)
      else if msg == MSG_REQUEST_FAILURE then Some(v)
      else None
  }

  // ---- stepping ------------------------------------------------------------------------------------------

  function Trap(v: Server): Server { v.(phase := Trapped) }

  /** `position(|&b| b == b'\n')`. */
  function FirstLf(buf: Bytes): (pos: Option<nat>)
    ensures pos.Some? ==> pos.value < |buf| && buf[pos.value] == Ident.LF && Ident.LF !in buf[..pos.value]
    ensures pos.None? ==> Ident.LF !in buf
  {
    if buf == [] then None
    else if buf[0] == Ident.LF then Some(0)
    else
      match FirstLf(buf[1..])
      case None => None
      case Some(i) => Some(i + 1)
  }

  /** One `step`: nothing to do, bytes consumed but nothing to go on with, or progress. */
  datatype Step = Blocked | Lost(n: nat, v: Server) | Went(n: nat, v: Server)

  function IdentStep(v: Server, buf: Bytes): (t: Step)
    ensures !t.Blocked? ==> 0 < t.n <= |buf|
  {
    match FirstLf(buf)
    case None => Blocked
    case Some(pos) =>
      var line := Ident.StripCr(buf[..pos]);
      if Ident.IsSshLine(line) then Went(pos + 1, v.(phase := AwaitingKexInit, peerIdent := line))
      else Went(pos + 1, Trap(v))
  }

  function PacketStep(c: Suite, cfg: Config, v: Server, buf: Bytes): (t: Step)
    ensures !t.Blocked? ==> 0 < t.n <= |buf|
  {
    match NextFrame(c, v.cs, buf)
    case Wait => Blocked
    case Reject => Blocked
    case Torn(total, k, _) => Lost(total, v.(cs := k))
    case Got(total, k, payload) =>
      var v1 := v.(cs := k);
      match Handle(c, cfg, v1, payload)
      case None => Went(total, Trap(v1))
      case Some(v2) => Went(total, v2)
  }

  function ServerStep(c: Suite, cfg: Config, v: Server, buf: Bytes): (t: Step)
    ensures !t.Blocked? ==> 0 < t.n <= |buf|
  {
    if v.phase.AwaitingIdent? then IdentStep(v, buf) else PacketStep(c, cfg, v, buf)
  }

  /** A server and the bytes it has not consumed. */
  datatype Peer = Peer(core: Server, incoming: Bytes)

  /** `feed`'s loop. */
  function Serve(c: Suite, cfg: Config, v: Server, buf: Bytes): Peer
    decreases |buf|
  {
    if v.phase.Trapped? then Peer(v, buf)
    else
      match ServerStep(c, cfg, v, buf)
      case Blocked => Peer(v, buf)
      case Lost(n, v') => Peer(v', buf[n..])
      case Went(n, v') => Serve(c, cfg, v', buf[n..])
  }

  function FeedServer(c: Suite, cfg: Config, p: Peer, bytes: Bytes): Peer { Serve(c, cfg, p.core, p.incoming + bytes) }
}
