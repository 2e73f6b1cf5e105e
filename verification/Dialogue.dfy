/**
  Authentication and exec channels between `Session` and `FakeServer`, as messages: what each side
  says in answer to each message, and what always holds of the messages in flight.
 */
module Dialogue {
  import opened Prelude
  import opened Primitives
  import opened Wire
  import opened SessionModel
  import opened FakeServer
  import opened MessageReading
  import opened HandshakeScript
  import Events
  import Auth
  import Channel
  import Connection
  import Utf8

  predicate Short(b: Bytes) { |b| <= SHORT && Utf8.Valid(b) }

  // ---- what the client asks ------------------------------------------------------------------------

  datatype Ask =
    | AskPassword(user: Bytes, password: Bytes)
    | AskKey(user: Bytes, algorithm: Bytes, blob: Bytes)
    | AskSigned(user: Bytes, algorithm: Bytes, blob: Bytes, signature: Bytes)
    | RefuseGlobal
    | OpenChannel(id: U32)
    | RunCommand(command: Bytes)

  function Put(q: Ask): Bytes {
    match q
    case AskPassword(user, password) => Auth.PasswordRequest(user, password)
    case AskKey(user, algorithm, blob) => Auth.KeyQuery(user, algorithm, blob)
    case AskSigned(user, algorithm, blob, signature) => Auth.SignedRequest(user, algorithm, blob, signature)
    case RefuseGlobal => [MSG_REQUEST_FAILURE]
    case OpenChannel(id) => Channel.OpenMessage(id)
    case RunCommand(command) => Connection.ExecRequest(0, command)
  }

  predicate Fair(c: Suite, q: Ask) {
    match q
    case AskPassword(user, password) => Short(user) && Short(password)
    case AskKey(user, algorithm, blob) => Short(user) && Short(algorithm) && |blob| <= SHORT
    case AskSigned(user, algorithm, blob, signature) =>
      Short(user) && Short(algorithm) && |blob| <= SHORT && |signature| <= SHORT && c.keyParses(blob)
    case RunCommand(command) => Short(command)
    case _ => true
  }

  predicate AllFair(c: Suite, qs: seq<Ask>) { forall q | q in qs :: Fair(c, q) }

  predicate FairReply(p: Reply) {
    match p
    case KeyAcceptable(algorithm, blob) => Short(algorithm) && |blob| <= SHORT
    case _ => true
  }

  predicate AllFairReplies(ps: seq<Reply>) { forall p | p in ps :: FairReply(p) }

  function Puts(qs: seq<Ask>): seq<Bytes>
    decreases |qs|
  {
    if qs == [] then [] else [Put(qs[0])] + Puts(qs[1..])
  }

  // ---- the server's answers ------------------------------------------------------------------------

  function Replies(c: Suite, cfg: Config, sessionId: Bytes, q: Ask): seq<Reply> {
    match q
    case AskPassword(user, password) => Verdict(cfg, user == cfg.username && password == cfg.password)
    case AskKey(_, algorithm, blob) => [KeyAcceptable(algorithm, blob)]
    case AskSigned(user, algorithm, blob, signature) =>
      Verdict(cfg, c.signatureParses(signature)
                   && c.verifies(blob, Auth.SignedData(sessionId, user, algorithm, blob), signature)
                   && user == cfg.username)
    case RefuseGlobal => []
    case OpenChannel(id) => [Confirmation(id)]
    case RunCommand(_) => ExecReplies(0)
  }

  lemma PutTypes(q: Ask)
    ensures |Put(q)| > 0
    ensures q.AskPassword? || q.AskKey? || q.AskSigned? ==> Put(q)[0] == Auth.MSG_USERAUTH_REQUEST
    ensures q.OpenChannel? ==> Put(q)[0] == Channel.MSG_CHANNEL_OPEN
    ensures q.RunCommand? ==> Put(q)[0] == Channel.MSG_CHANNEL_REQUEST
  {
    hide Str, Auth.MethodPassword, Auth.MethodPublickey, Auth.ServiceConnection;
  }

  lemma HandleTypes(c: Suite, cfg: Config, v: Server, payload: Bytes)
    requires |payload| > 0
    ensures payload[0] == Auth.MSG_USERAUTH_REQUEST ==> Handle(c, cfg, v, payload) == OnUserauthRequest(c, cfg, v, payload)
    ensures payload[0] == Channel.MSG_CHANNEL_OPEN ==> Handle(c, cfg, v, payload) == OnChannelOpen(c, cfg, v, payload)
    ensures payload[0] == Channel.MSG_CHANNEL_REQUEST ==> Handle(c, cfg, v, payload) == OnChannelRequest(c, cfg, v, payload)
    ensures payload == [MSG_REQUEST_FAILURE] ==> Handle(c, cfg, v, payload) == Some(v)
  {
    hide OnUserauthRequest, OnChannelOpen, OnChannelRequest, OnCurveInit, OnServiceRequest, OnKexinit;
  }

  /** What a request changes besides what is sent. */
  function Noted(v: Server, q: Ask): Server {
    match q
    case OpenChannel(_) => v.(phase := ServerPhase.Connected)
    case RunCommand(command) => v.(lastExec := Some(command))
    case _ => v
  }

  lemma SealNothing(c: Suite, cfg: Config, v: Server)
    ensures Answer(c, cfg, v, []) == v
  {
  }

  /** The server answers every fair request, with exactly these replies. */
  lemma ServerAnswers(c: Suite, cfg: Config, v: Server, q: Ask)
    requires Fair(c, q)
    ensures Handle(c, cfg, v, Put(q)) == Some(Answer(c, cfg, Noted(v, q), Replies(c, cfg, v.sessionId, q)))
  {
    hide Handle, Auth.ParseRequest, Auth.PasswordRequest, Auth.KeyQuery, Auth.SignedRequest, Channel.OpenMessage,
         Connection.ExecRequest, SealReplies, Channel.ParseOpening, ParseChannelRequest, Auth.RebuiltSignedData,
         Auth.SignedData, Utf8.Valid, GetUtf8, Str, Connection.NameExec;
    PutTypes(q);
    HandleTypes(c, cfg, v, Put(q));
    match q
    case AskPassword(user, password) => Auth.PasswordIsRead(user, password);
    case AskKey(user, algorithm, blob) => Auth.QueryIsRead(user, algorithm, blob);
    case AskSigned(user, algorithm, blob, signature) =>
      Auth.SignedIsRead(user, algorithm, blob, signature);
      Auth.ServerRebuildsSignedData(v.sessionId, user, algorithm, blob, signature);
    case RefuseGlobal => SealNothing(c, cfg, v);
    case OpenChannel(id) => Channel.OpenRoundTrip(id);
    case RunCommand(command) => ExecRead(0, command);
  }

  // ---- projections of what is in flight --------------------------------------------------------------

  /** Channel ids confirmed, in order. */
  function Confirms(ps: seq<Reply>): seq<U32> { if ps == [] then [] else IfConfirmed(ps[0]) + Confirms(ps[1..]) }

  function IfConfirmed(p: Reply): seq<U32> { if p.Confirmation? then [p.id] else [] }

  /** Everything else that concerns channels. */
  function Rest(ps: seq<Reply>): seq<Reply> { if ps == [] then [] else IfRest(ps[0]) + Rest(ps[1..]) }

  function IfRest(p: Reply): seq<Reply> { if p.Confirmation? || p.GlobalRequest? then [] else [p] }

  function Opens(qs: seq<Ask>): seq<U32> { if qs == [] then [] else IfOpen(qs[0]) + Opens(qs[1..]) }

  function IfOpen(q: Ask): seq<U32> { if q.OpenChannel? then [q.id] else [] }

  function Commands(qs: seq<Ask>): nat {
    if qs == [] then 0 else (if qs[0].RunCommand? then 1 else 0) + Commands(qs[1..])
  }

  predicate OnlyChannels(qs: seq<Ask>) { forall q | q in qs :: q.RefuseGlobal? || q.OpenChannel? || q.RunCommand? }

  lemma Regroup<T>(x: seq<T>, y: seq<T>, z: seq<T>)
    ensures (x + y) + z == x + (y + z)
  {
  }

  lemma {:induction false} RepliesAppend(a: seq<Reply>, b: seq<Reply>)
    ensures Confirms(a + b) == Confirms(a) + Confirms(b) && Rest(a + b) == Rest(a) + Rest(b)
  {
    if a == [] {
      assert a + b == b;
    } else {
      hide IfConfirmed, IfRest;
      assert (a + b)[1..] == a[1..] + b;
      RepliesAppend(a[1..], b);
      Regroup(IfConfirmed(a[0]), Confirms(a[1..]), Confirms(b));
      Regroup(IfRest(a[0]), Rest(a[1..]), Rest(b));
    }
  }

  lemma {:induction false} AsksAppend(a: seq<Ask>, b: seq<Ask>)
    ensures Opens(a + b) == Opens(a) + Opens(b) && Commands(a + b) == Commands(a) + Commands(b)
  {
    if a == [] {
      assert a + b == b;
    } else {
      hide IfOpen;
      assert (a + b)[1..] == a[1..] + b;
      AsksAppend(a[1..], b);
      Regroup(IfOpen(a[0]), Opens(a[1..]), Opens(b));
    }
  }

  lemma OneAsk(q: Ask)
    ensures Opens([q]) == if q.OpenChannel? then [q.id] else []
    ensures Commands([q]) == if q.RunCommand? then 1 else 0
  {
    assert [q][1..] == [];
  }

  function Range(i: nat, j: nat): seq<U32>
    requires i <= j <= U32_LIMIT
  {
    seq(j - i, m requires 0 <= m < j - i => i + m)
  }

  /** `n` whole answers to exec requests. */
  function Blocks(n: nat): seq<Reply> { if n == 0 then [] else ExecReplies(0) + Blocks(n - 1) }

  /** The last `tail` messages of one answer, and `blocks` whole ones. */
  function Answers(tail: nat, blocks: nat): seq<Reply>
    requires tail <= 5
  {
    ExecReplies(0)[5 - tail..] + Blocks(blocks)
  }

  // ---- the channel part of the dialogue ----------------------------------------------------------------

  /** How far the exec channels have got: begun by the client, offered (confirmed by the server),
      confirmed (as the client has heard); how much of the answer being heard is left, how many whole
      answers are behind it, and how many closes of channel 0 have been heard. `command` is what the
      first channel is for. */
  datatype Progress = Progress(begun: nat, offered: nat, confirmed: nat, tail: nat, blocks: nat, closed: nat, command: Bytes)

  const NOTHING := Progress(0, 0, 0, 0, 0, 0, [])

  predicate Waiting(conn: Connection.Conn, id: U32) {
    && id in conn.channels && conn.channels[id].unadvertised == 0
    && id in conn.setup && conn.setup[id] == Connection.AwaitingExecReply
    && id in conn.pendingExec && Short(conn.pendingExec[id])
  }

  /** Channel 0, to which the server addresses everything. */
  predicate ChannelZero(conn: Connection.Conn, g: Progress) {
    if g.confirmed == 0 then true
    else if g.closed == 1 then 0 !in conn.channels && 0 !in conn.setup
    else
      && 0 in conn.channels && conn.channels[0].remoteId == Some(0)
      && (g.tail == 0 || g.tail >= 4 ==> conn.channels[0].unadvertised == 0)
      && (if g.tail == 0 || g.tail == 5 then 0 in conn.setup && conn.setup[0] == Connection.AwaitingExecReply
          else 0 !in conn.setup)
  }

  predicate InFlight(ps: seq<Reply>, qs: seq<Ask>, g: Progress) {
    && g.confirmed <= g.offered <= g.begun < U32_LIMIT
    && g.tail <= 5 && g.closed <= 1 && (g.closed == 1 ==> g.tail == 0 || g.tail >= 4)
    && OnlyChannels(qs)
    && Confirms(ps) == Range(g.confirmed, g.offered)
    && Opens(qs) == Range(g.offered, g.begun)
    && Rest(ps) == Answers(g.tail, g.blocks)
    && Commands(qs) + g.blocks + (if g.tail > 0 then 1 else 0) + g.closed == g.confirmed
  }

  ghost predicate ChannelTalk(conn: Connection.Conn, ps: seq<Reply>, qs: seq<Ask>, g: Progress) {
    && InFlight(ps, qs, g)
    && conn.nextId == g.begun
    && (forall id | id in conn.channels :: id < g.begun)
    && (forall id: nat | g.confirmed <= id < g.begun :: Waiting(conn, id))
    && ChannelZero(conn, g)
  }

  // ---- the authentication part ---------------------------------------------------------------------------

  predicate IsVerdict(ps: seq<Reply>) {
    ps == [AuthFailure] || ps == [AuthSuccess] || ps == [AuthSuccess, GlobalRequest]
  }

  /** A key that can be used: it signs whatever it is asked to. */
  ghost predicate UsableKey(c: Suite, key: PrivateKey) {
    && |c.publicBlob(key)| <= SHORT
    && (c.userAlgorithm(key).Some? ==> Short(c.userAlgorithm(key).value))
    && forall m :: c.sign(key, m).Some? && |c.sign(key, m).value| <= SHORT
  }

  ghost predicate AuthTalk(c: Suite, pending: Option<PendingAuth>, ps: seq<Reply>, qs: seq<Ask>) {
    match pending
    case None => ps == [] && qs == []
    case Some(PasswordSent) => (ps == [] && |qs| == 1 && qs[0].AskPassword?) || (IsVerdict(ps) && qs == [])
    case Some(PublicKeySigned) => (ps == [] && |qs| == 1 && qs[0].AskSigned?) || (IsVerdict(ps) && qs == [])
    case Some(PublicKeyQuery(user, algorithm, blob, key)) =>
      && Short(user) && Short(algorithm) && blob == c.publicBlob(key) && UsableKey(c, key)
      && ((ps == [] && qs == [AskKey(user, algorithm, blob)]) || (ps == [KeyAcceptable(algorithm, blob)] && qs == []))
  }

  /** Everything the host learns about a channel that runs one command. */
  function ExecEvents(cfg: Config): (es: seq<Events.Event>)
    ensures |es| == 5
  {
    [Events.ChannelOpened(0), Events.ChannelData(0, Events.Stdout, cfg.execOutput), Events.ChannelExitStatus(0, Some(cfg.exitCode), None),
     Events.ChannelEof(0), Events.ChannelClosed(0)]
  }

  lemma EventSlices(cfg: Config)
    ensures var es := ExecEvents(cfg);
            && es[..0] == [] && es[..1] == [Events.ChannelOpened(0)] && es[1..1] == []
            && es[1..2] == [Events.ChannelData(0, Events.Stdout, cfg.execOutput)]
            && es[2..3] == [Events.ChannelExitStatus(0, Some(cfg.exitCode), None)]
            && es[3..4] == [Events.ChannelEof(0)] && es[4..5] == [Events.ChannelClosed(0)]
  {
  }

  /** How much of it the host has learned. */
  function Reported(g: Progress): (n: nat)
    ensures n <= 5
  {
    if g.confirmed == 0 then 0
    else if g.closed > 0 then 5
    else if g.tail == 0 || g.tail >= 4 then 1
    else 5 - g.tail
  }

  /** A session with at most one channel: its events so far, and where its command is. */
  predicate Faithful(cfg: Config, s: State, qs: seq<Ask>, g: Progress) {
    g.begun <= 1 ==>
      && Events.ChannelEvents(s.events) == ExecEvents(cfg)[..Reported(g)]
      && (g.begun == 1 && g.confirmed == 0 ==> 0 in s.conn.pendingExec && s.conn.pendingExec[0] == g.command)
      && forall q | q in qs && q.RunCommand? :: q.command == g.command
  }

  function Extended(g: Progress, command: Bytes): Progress {
    g.(begun := g.begun + 1, command := if g.begun == 0 then command else g.command)
  }

  /** The user an attempt is for. */
  predicate ForUser(q: Ask, user: Option<Bytes>) {
    q.AskPassword? || q.AskKey? || q.AskSigned? ==> user == Some(q.user)
  }

  /** Attempts in flight are for the user last named, and only the server's own user is let in. */
  predicate Credible(cfg: Config, s: State, ps: seq<Reply>, qs: seq<Ask>) {
    && (forall q | q in qs :: ForUser(q, s.username))
    && (AuthSuccess in ps ==> s.username == Some(cfg.username))
    && (s.pendingAuth.Some? && s.pendingAuth.value.PublicKeyQuery? ==> s.username == Some(s.pendingAuth.value.user))
  }

  /** What holds of the client and of the messages in flight, from UserAuth on. A session that has opened
      two channels may have been closed by the server's answer to the second. */
  ghost predicate Talking(c: Suite, cfg: Config, s: State, ps: seq<Reply>, qs: seq<Ask>, g: Progress) {
    && AllFair(c, qs) && s.out.cs.Some? && s.kex.sc.Some? && s.kex.sessionId.Some?
    && match s.phase
       case UserAuth =>
         && s.conn == Connection.EMPTY && g == NOTHING && Events.ChannelEvents(s.events) == []
         && AllFairReplies(ps) && AuthTalk(c, s.pendingAuth, ps, qs) && Credible(cfg, s, ps, qs)
       case Connected =>
         && s.pendingAuth == None && s.username == Some(cfg.username)
         && ChannelTalk(s.conn, ps, qs, g) && Faithful(cfg, s, qs, g)
       case Closed => g.begun >= 2 && OnlyChannels(qs)
       case _ => false
  }

  // ---- one request reaches the server ----------------------------------------------------------------------

  lemma RangeFirst(i: nat, j: nat)
    requires i < j <= U32_LIMIT
    ensures Range(i, j) == [i] + Range(i + 1, j)
  {
  }

  lemma RangeLast(i: nat, j: nat)
    requires i <= j < U32_LIMIT
    ensures Range(i, j + 1) == Range(i, j) + [j]
  {
  }

  lemma {:induction false} BlocksLast(n: nat)
    ensures Blocks(n) + ExecReplies(0) == Blocks(n + 1)
  {
    if n > 0 {
      BlocksLast(n - 1);
      assert Blocks(n) + ExecReplies(0) == ExecReplies(0) + (Blocks(n - 1) + ExecReplies(0));
    }
  }

  lemma RepliesProject(id: U32)
    ensures Confirms([Confirmation(id)]) == [id] && Rest([Confirmation(id)]) == []
    ensures Confirms(ExecReplies(0)) == [] && Rest(ExecReplies(0)) == ExecReplies(0)
  {
    var e := ExecReplies(0);
    assert e[1..][1..] == e[2..] && e[2..][1..] == e[3..] && e[3..][1..] == e[4..] && e[4..][1..] == [];
    assert Rest(e[4..]) == [e[4]] && Confirms(e[4..]) == [];
    assert Rest(e[3..]) == [e[3]] + Rest(e[4..]) && Confirms(e[3..]) == [];
    assert Rest(e[2..]) == [e[2]] + Rest(e[3..]) && Confirms(e[2..]) == [];
    assert Rest(e[1..]) == [e[1]] + Rest(e[2..]) && Confirms(e[1..]) == [];
    assert Rest(e) == [e[0]] + Rest(e[1..]) && Confirms(e) == [];
  }

  /** The progress made when the server takes `q`. */
  function Served(g: Progress, q: Ask): Progress {
    match q
    case OpenChannel(_) => g.(offered := g.offered + 1)
    case RunCommand(_) => g.(blocks := g.blocks + 1)
    case _ => g
  }

  lemma FirstAsk(q: Ask, qs: seq<Ask>)
    ensures Opens([q] + qs) == (if q.OpenChannel? then [q.id] else []) + Opens(qs)
    ensures Commands([q] + qs) == (if q.RunCommand? then 1 else 0) + Commands(qs)
    ensures OnlyChannels([q] + qs) ==> OnlyChannels(qs) && (q.RefuseGlobal? || q.OpenChannel? || q.RunCommand?)
  {
    var all := [q] + qs;
    assert all[0] == q && all[1..] == qs && q in all;
    forall r | r in qs ensures r in all { assert r in all[1..]; }
  }

  lemma ServerTakesOpen(ps: seq<Reply>, id: U32, qs: seq<Ask>, g: Progress)
    requires InFlight(ps, [OpenChannel(id)] + qs, g)
    ensures InFlight(ps + [Confirmation(id)], qs, g.(offered := g.offered + 1))
  {
    hide Range, Blocks, ExecReplies, Confirms, Rest, Opens, Commands, OnlyChannels;
    FirstAsk(OpenChannel(id), qs);
    RepliesAppend(ps, [Confirmation(id)]);
    RepliesProject(id);
    RangeSize(g.offered, g.begun);
    RangeFirst(g.offered, g.begun);
    RangeLast(g.confirmed, g.offered);
    assert ([id] + Opens(qs))[1..] == Opens(qs) && ([g.offered] + Range(g.offered + 1, g.begun))[1..] == Range(g.offered + 1, g.begun);
    assert ([id] + Opens(qs))[0] == id;
    assert Rest(ps) + [] == Rest(ps);
  }

  lemma ServerTakesRun(ps: seq<Reply>, command: Bytes, qs: seq<Ask>, g: Progress)
    requires InFlight(ps, [RunCommand(command)] + qs, g)
    ensures InFlight(ps + ExecReplies(0), qs, g.(blocks := g.blocks + 1))
  {
    hide Range, Blocks, ExecReplies, Confirms, Rest, Opens, Commands, OnlyChannels;
    FirstAsk(RunCommand(command), qs);
    RepliesAppend(ps, ExecReplies(0));
    RepliesProject(0);
    BlocksLast(g.blocks);
    assert Confirms(ps) + [] == Confirms(ps);
    assert [] + Opens(qs) == Opens(qs);
    Regroup(ExecReplies(0)[5 - g.tail..], Blocks(g.blocks), ExecReplies(0));
  }

  lemma ServerTakesFlight(c: Suite, cfg: Config, sessionId: Bytes, ps: seq<Reply>, q: Ask, qs: seq<Ask>, g: Progress)
    requires InFlight(ps, [q] + qs, g)
    ensures InFlight(ps + Replies(c, cfg, sessionId, q), qs, Served(g, q))
  {
    hide InFlight, ExecReplies, OnlyChannels;
    FirstAsk(q, qs);
    FlightAsks(ps, [q] + qs, g);
    match q
    case OpenChannel(id) => ServerTakesOpen(ps, id, qs, g);
    case RunCommand(command) => ServerTakesRun(ps, command, qs, g);
    case _ => ServerTakesRefusal(ps, qs, g);
  }

  lemma FlightAsks(ps: seq<Reply>, qs: seq<Ask>, g: Progress)
    requires InFlight(ps, qs, g)
    ensures OnlyChannels(qs)
  {
  }

  lemma ServerTakesRefusal(ps: seq<Reply>, qs: seq<Ask>, g: Progress)
    requires InFlight(ps, [RefuseGlobal] + qs, g)
    ensures InFlight(ps + [], qs, g)
  {
    hide Range, Blocks, ExecReplies, Confirms, Rest, Opens, Commands, OnlyChannels;
    FirstAsk(RefuseGlobal, qs);
    assert ps + [] == ps && [] + Opens(qs) == Opens(qs);
  }

  lemma RangeSize(i: nat, j: nat)
    requires i <= j <= U32_LIMIT
    ensures |Range(i, j)| == j - i
  {
  }

  lemma FairRest(c: Suite, q: Ask, qs: seq<Ask>)
    requires AllFair(c, [q] + qs)
    ensures Fair(c, q) && AllFair(c, qs)
  {
    hide Fair;
    assert ([q] + qs)[0] == q;
    forall r | r in qs ensures r in [q] + qs { assert r in ([q] + qs)[1..]; }
  }

  lemma VerdictIsOne(cfg: Config, ok: bool)
    ensures IsVerdict(Verdict(cfg, ok)) && AllFairReplies(Verdict(cfg, ok))
  {
  }

  lemma AuthServed(c: Suite, cfg: Config, sessionId: Bytes, pending: Option<PendingAuth>, ps: seq<Reply>, q: Ask, qs: seq<Ask>)
    requires AuthTalk(c, pending, ps, [q] + qs)
    ensures AuthTalk(c, pending, ps + Replies(c, cfg, sessionId, q), qs)
    ensures AllFairReplies(ps) ==> AllFairReplies(ps + Replies(c, cfg, sessionId, q))
    ensures q.AskPassword? || q.AskKey? || q.AskSigned?
  {
    hide Verdict, IsVerdict, Auth.SignedData, Short;
    var all := [q] + qs;
    assert all[0] == q && all[1..] == qs;
    assert |all| == 1 && qs == [] && ps == [];
    forall ok ensures IsVerdict(Verdict(cfg, ok)) && AllFairReplies(Verdict(cfg, ok)) { VerdictIsOne(cfg, ok); }
    assert [] + Replies(c, cfg, sessionId, q) == Replies(c, cfg, sessionId, q);
  }

  lemma CredibleServed(c: Suite, cfg: Config, sessionId: Bytes, s: State, ps: seq<Reply>, q: Ask, qs: seq<Ask>)
    requires Credible(cfg, s, ps, [q] + qs)
    ensures Credible(cfg, s, ps + Replies(c, cfg, sessionId, q), qs)
  {
    hide Auth.SignedData;
    assert ([q] + qs)[0] == q && ForUser(q, s.username);
    forall r | r in qs ensures r in [q] + qs { assert r in ([q] + qs)[1..]; }
  }

  /** The dialogue when the server has taken its first pending request. */
  lemma ServerTakes(c: Suite, cfg: Config, sessionId: Bytes, s: State, ps: seq<Reply>, q: Ask, qs: seq<Ask>, g: Progress)
    requires Talking(c, cfg, s, ps, [q] + qs, g)
    ensures Fair(c, q) && Talking(c, cfg, s, ps + Replies(c, cfg, sessionId, q), qs, Served(g, q))
  {
    hide AuthTalk, Fair, AllFair, InFlight, AllFairReplies, Waiting, Replies, OnlyChannels, Credible, ExecEvents,
         Events.ChannelEvents;
    FairRest(c, q, qs);
    FirstAsk(q, qs);
    forall r | r in qs ensures r in [q] + qs { assert r in ([q] + qs)[1..]; }
    match s.phase
    case UserAuth =>
      CredibleServed(c, cfg, sessionId, s, ps, q, qs);
      AuthServed(c, cfg, sessionId, s.pendingAuth, ps, q, qs);
    case Connected => ServerTakesFlight(c, cfg, sessionId, ps, q, qs, g);
    case _ =>
  }

  // ---- how much is still to be said --------------------------------------------------------------------------

  /** A bound on the messages a message still leads to, itself included. */
  function ReplyLoad(p: Reply): nat {
    match p
    case KeyAcceptable(_, _) => 5
    case GlobalRequest => 2
    case Confirmation(_) => 7
    case _ => 1
  }

  function AskLoad(q: Ask): nat {
    match q
    case AskPassword(_, _) => 4
    case AskKey(_, _, _) => 6
    case AskSigned(_, _, _, _) => 4
    case RefuseGlobal => 1
    case OpenChannel(_) => 8
    case RunCommand(_) => 6
  }

  function ReplyLoads(ps: seq<Reply>): nat { if ps == [] then 0 else ReplyLoad(ps[0]) + ReplyLoads(ps[1..]) }
  function AskLoads(qs: seq<Ask>): nat { if qs == [] then 0 else AskLoad(qs[0]) + AskLoads(qs[1..]) }

  lemma {:induction false} ReplyLoadsAppend(a: seq<Reply>, b: seq<Reply>)
    ensures ReplyLoads(a + b) == ReplyLoads(a) + ReplyLoads(b)
  {
    if a == [] {
      assert a + b == b;
    } else {
      assert (a + b)[1..] == a[1..] + b;
      ReplyLoadsAppend(a[1..], b);
    }
  }

  lemma {:induction false} AskLoadsAppend(a: seq<Ask>, b: seq<Ask>)
    ensures AskLoads(a + b) == AskLoads(a) + AskLoads(b)
  {
    if a == [] {
      assert a + b == b;
    } else {
      assert (a + b)[1..] == a[1..] + b;
      AskLoadsAppend(a[1..], b);
    }
  }

  /** What the server answers weighs less than the request. */
  lemma RepliesAreLighter(c: Suite, cfg: Config, sessionId: Bytes, q: Ask)
    ensures ReplyLoads(Replies(c, cfg, sessionId, q)) < AskLoad(q)
  {
    hide Auth.SignedData;
    var rs := Replies(c, cfg, sessionId, q);
    match q
    case RunCommand(_) =>
      assert rs[1..][1..] == rs[2..] && rs[2..][1..] == rs[3..] && rs[3..][1..] == rs[4..] && rs[4..][1..] == [];
      assert ReplyLoads(rs[4..]) == 1 && ReplyLoads(rs[3..]) == 2 && ReplyLoads(rs[2..]) == 3 && ReplyLoads(rs[1..]) == 4;
    case _ => ShortLoads(rs);
  }

  lemma ShortLoads(rs: seq<Reply>)
    ensures |rs| == 0 ==> ReplyLoads(rs) == 0
    ensures |rs| == 1 ==> ReplyLoads(rs) == ReplyLoad(rs[0])
    ensures |rs| == 2 ==> ReplyLoads(rs) == ReplyLoad(rs[0]) + ReplyLoad(rs[1])
  {
    hide ReplyLoad;
    if |rs| == 2 { assert rs[1..][1..] == []; }
  }

  lemma OneAskLoad(q: Ask)
    ensures AskLoads([q]) == AskLoad(q)
  {
    assert [q][1..] == [];
  }
}
