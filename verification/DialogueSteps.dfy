/**
  The client's side of the dialogue with `FakeServer`: every reply the server can send next is handled
  without an error, and so is every permitted host call. The one exception is data for a channel 0 that
  is already closed, which takes a second exec channel.
 */
module DialogueSteps {
  import opened Prelude
  import opened Primitives
  import opened Wire
  import opened Packet
  import opened SessionModel
  import opened FakeServer
  import opened MessageReading
  import opened HandshakeScript
  import opened Dialogue
  import Events
  import KexInit
  import Auth
  import Channel
  import Connection
  import Utf8

  // ---- one reply reaches the client ------------------------------------------------------------------------

  predicate AboutChannels(p: Reply) {
    p.Confirmation? || p.RequestSuccess? || p.Output? || p.ExitStatus? || p.Eof? || p.Close?
  }

  /** What the channel layer makes of a reply. */
  function Reaction(cfg: Config, conn: Connection.Conn, p: Reply): Connection.Reaction
    requires AboutChannels(p)
  {
    match p
    case Confirmation(id) =>
      Connection.OnConfirmationAndSetup(conn, Encode(cfg, p)[1..])
    case RequestSuccess(id) => Connection.ContinueSetup(conn, id, Some(true))
    case Output(id) => Connection.Deliver(conn, id, Events.Stdout, cfg.execOutput)
    case ExitStatus(id) =>
      if id !in conn.channels then Connection.Refused(ChannelError)
      else Connection.Reacted(conn, [], [Events.ChannelExitStatus(id, Some(cfg.exitCode), None)])
    case Eof(id) => Connection.OnEof(conn, Encode(cfg, p)[1..])
    case Close(id) =>
      Connection.Reacted(conn.(channels := conn.channels - {id}), [], [Events.ChannelClosed(id)])
  }

  lemma EncodeTypes(cfg: Config, p: Reply)
    ensures |Encode(cfg, p)| > 0
    ensures p.ServiceAccept? ==> Encode(cfg, p)[0] == Auth.MSG_SERVICE_ACCEPT
    ensures p.AuthSuccess? ==> Encode(cfg, p)[0] == Auth.MSG_USERAUTH_SUCCESS
    ensures p.AuthFailure? ==> Encode(cfg, p)[0] == Auth.MSG_USERAUTH_FAILURE
    ensures p.KeyAcceptable? ==> Encode(cfg, p)[0] == Auth.MSG_USERAUTH_PK_OK
    ensures p.GlobalRequest? ==> Encode(cfg, p)[0] == MSG_GLOBAL_REQUEST
    ensures p.Confirmation? ==> Encode(cfg, p)[0] == Channel.MSG_CHANNEL_OPEN_CONFIRMATION
    ensures p.RequestSuccess? ==> Encode(cfg, p)[0] == Channel.MSG_CHANNEL_SUCCESS
    ensures p.Output? ==> Encode(cfg, p)[0] == Channel.MSG_CHANNEL_DATA
    ensures p.ExitStatus? ==> Encode(cfg, p)[0] == Channel.MSG_CHANNEL_REQUEST
    ensures p.Eof? ==> Encode(cfg, p)[0] == Channel.MSG_CHANNEL_EOF
    ensures p.Close? ==> Encode(cfg, p)[0] == Channel.MSG_CHANNEL_CLOSE
  {
    hide Str, U32Be, Bool, Auth.ServiceUserauth, RemainingMethods, GlobalRequestName, Connection.NameExitStatus;
  }

  lemma DispatchTypes(c: Suite, s: State, payload: Bytes)
    requires |payload| > 0
    ensures payload[0] == Auth.MSG_USERAUTH_SUCCESS ==> Dispatch(c, s, payload) == HandleUserauthSuccess(s)
    ensures payload[0] == Auth.MSG_USERAUTH_FAILURE ==> Dispatch(c, s, payload) == HandleUserauthFailure(s, payload)
    ensures payload[0] == Auth.MSG_USERAUTH_PK_OK ==> Dispatch(c, s, payload) == HandlePkOk(c, s, payload)
    ensures payload[0] == MSG_GLOBAL_REQUEST ==> Dispatch(c, s, payload) == HandleGlobalRequest(c, s, payload)
    ensures Connection.IsChannelMessage(payload[0]) ==>
              Dispatch(c, s, payload) == React(c, s, Connection.OnMessage(s.conn, payload[0], payload[1..]))
  {
    hide HandleUserauthSuccess, HandleUserauthFailure, HandlePkOk, HandleGlobalRequest, Connection.OnMessage, React,
         HandlePeerKexinit, HandleKexReply, HandleNewkeys, HandleServiceAccept, HandleDisconnect;
  }

  /** The client's channel layer reads the reply as it was meant. */
  lemma ReactionToReply(cfg: Config, conn: Connection.Conn, p: Reply)
    requires AboutChannels(p) && |cfg.execOutput| <= SHORT
    ensures |Encode(cfg, p)| > 0 && Connection.IsChannelMessage(Encode(cfg, p)[0])
    ensures Connection.OnMessage(conn, Encode(cfg, p)[0], Encode(cfg, p)[1..]) == Reaction(cfg, conn, p)
  {
    hide Connection.OnConfirmationAndSetup, Connection.ContinueSetup, Connection.Deliver, Connection.OnEof,
         Connection.ParseIdAndData, Connection.ParseServerRequest, Connection.NameExitStatus, GetU32, Channel.DataMessage,
         Channel.RequestMessage, Channel.IdMessage, U32Be;
    EncodeTypes(cfg, p);
    match p
    case Confirmation(id) =>
    case RequestSuccess(id) => IdRead(Channel.MSG_CHANNEL_SUCCESS, id);
    case Output(id) => OutputRead(cfg, id);
    case ExitStatus(id) => ExitStatusRead(cfg, id);
    case Eof(id) => IdRead(Channel.MSG_CHANNEL_EOF, id);
    case Close(id) => IdRead(Channel.MSG_CHANNEL_CLOSE, id);
  }

  lemma FirstReply(p: Reply, ps: seq<Reply>)
    ensures Confirms([p] + ps) == (if p.Confirmation? then [p.id] else []) + Confirms(ps)
    ensures Rest([p] + ps) == (if p.Confirmation? || p.GlobalRequest? then [] else [p]) + Rest(ps)
  {
    assert ([p] + ps)[1..] == ps;
  }

  lemma ClientAsks(q: Ask, qs: seq<Ask>)
    requires OnlyChannels(qs) && (q.RefuseGlobal? || q.OpenChannel? || q.RunCommand?)
    ensures OnlyChannels(qs + [q])
    ensures Opens(qs + [q]) == Opens(qs) + if q.OpenChannel? then [q.id] else []
    ensures Commands(qs + [q]) == Commands(qs) + if q.RunCommand? then 1 else 0
  {
    AsksAppend(qs, [q]);
    OneAsk(q);
  }

  /** A confirmation is for the channel confirmed next, and releases its stored command. */
  lemma FlightConfirmed(id: U32, ps: seq<Reply>, qs: seq<Ask>, g: Progress, command: Bytes)
    requires InFlight([Confirmation(id)] + ps, qs, g)
    ensures id == g.confirmed < g.offered
    ensures InFlight(ps, qs + [RunCommand(command)], g.(confirmed := g.confirmed + 1))
  {
    hide Range, Blocks, ExecReplies, Confirms, Rest, Opens, Commands, OnlyChannels;
    FirstReply(Confirmation(id), ps);
    ClientAsks(RunCommand(command), qs);
    RangeSize(g.confirmed, g.offered);
    RangeFirst(g.confirmed, g.offered);
    assert ([id] + Confirms(ps))[1..] == Confirms(ps) && ([id] + Confirms(ps))[0] == id;
    assert ([g.confirmed] + Range(g.confirmed + 1, g.offered))[1..] == Range(g.confirmed + 1, g.offered);
    assert [] + Rest(ps) == Rest(ps) && Opens(qs) + [] == Opens(qs);
  }

  lemma HearsConfirmation(cfg: Config, conn: Connection.Conn, id: U32, ps: seq<Reply>, qs: seq<Ask>, g: Progress)
    requires ChannelTalk(conn, [Confirmation(id)] + ps, qs, g)
    ensures id in conn.pendingExec && Short(conn.pendingExec[id])
    ensures match Reaction(cfg, conn, Confirmation(id))
            case Reacted(conn', sends, events) =>
              && sends == [Put(RunCommand(conn.pendingExec[id]))] && events == [Events.ChannelOpened(id)]
              && id == g.confirmed < g.begun
              && conn'.pendingExec == conn.pendingExec - {id}
              && ChannelTalk(conn', ps, qs + [RunCommand(conn.pendingExec[id])], g.(confirmed := g.confirmed + 1))
            case _ => false
  {
    hide InFlight, Connection.ParseConfirmation, Connection.ExecRequest, Encode, Short;
    FlightBounds([Confirmation(id)] + ps, qs, g);
    FlightConfirmed(id, ps, qs, g, if id in conn.pendingExec then conn.pendingExec[id] else []);
    ConfirmationRead(cfg, id);
    assert Waiting(conn, id);
    var ch := Channel.OnOpenConfirmation(conn.channels[id], 0, Channel.INITIAL_WINDOW_SIZE, Channel.MAX_PACKET_SIZE);
    var conn' := conn.(channels := conn.channels[id := ch], pendingExec := conn.pendingExec - {id});
    assert Reaction(cfg, conn, Confirmation(id)).conn == conn';
    forall j: nat | g.confirmed + 1 <= j < g.begun ensures Waiting(conn', j) {
      assert Waiting(conn, j);
    }
    assert ChannelZero(conn', g.(confirmed := g.confirmed + 1));
  }

  lemma FlightBounds(ps: seq<Reply>, qs: seq<Ask>, g: Progress)
    requires InFlight(ps, qs, g)
    ensures g.confirmed <= g.offered <= g.begun < U32_LIMIT && g.tail <= 5 && g.closed <= 1
    ensures g.confirmed == 0 ==> g.tail == 0 && g.blocks == 0 && g.closed == 0
    ensures g.closed == 1 && (g.tail > 0 || g.blocks > 0) ==> g.begun >= 2
    ensures g.closed == 1 ==> g.tail == 0 || g.tail >= 4
    ensures OnlyChannels(qs)
  {
    hide Range, Blocks, ExecReplies, Confirms, Rest, Opens, Commands, OnlyChannels;
  }

  lemma HearsGlobal(conn: Connection.Conn, ps: seq<Reply>, qs: seq<Ask>, g: Progress)
    requires ChannelTalk(conn, [GlobalRequest] + ps, qs, g)
    ensures ChannelTalk(conn, ps, qs + [RefuseGlobal], g)
  {
    hide Range, Blocks, ExecReplies, Confirms, Rest, Opens, Commands, OnlyChannels, Waiting, ChannelZero;
    FirstReply(GlobalRequest, ps);
    ClientAsks(RefuseGlobal, qs);
    assert [] + Rest(ps) == Rest(ps) && [] + Confirms(ps) == Confirms(ps) && Opens(qs) + [] == Opens(qs);
  }

  // the answer to an exec request, one message at a time

  /** The next answer begins when the last one has been heard. */
  function Begin(g: Progress): Progress
    requires g.tail > 0 || g.blocks > 0
  {
    if g.tail == 0 then g.(tail := 5, blocks := g.blocks - 1) else g
  }

  /** What is left of the answers starts with the next message of the one being heard. */
  lemma AnswersFrom(g: Progress)
    requires g.tail <= 5 && (g.tail > 0 || g.blocks > 0)
    ensures var g' := Begin(g);
            && Answers(g.tail, g.blocks) == Answers(g'.tail, g'.blocks)
            && Answers(g.tail, g.blocks) == [ExecReplies(0)[5 - g'.tail]] + Answers(g'.tail - 1, g'.blocks)
  {
    hide ExecReplies;
    var g' := Begin(g);
    assert ExecReplies(0)[5..] == [] && ExecReplies(0)[0..] == ExecReplies(0);
    assert ExecReplies(0)[5 - g'.tail..] == [ExecReplies(0)[5 - g'.tail]] + ExecReplies(0)[5 - (g'.tail - 1)..];
    Regroup([ExecReplies(0)[5 - g'.tail]], ExecReplies(0)[5 - (g'.tail - 1)..], Blocks(g'.blocks));
  }

  lemma NoAnswersLeft()
    ensures Answers(0, 0) == []
  {
  }

  lemma SomeAnswersLeft(p: Reply, rest: seq<Reply>, g: Progress)
    requires g.tail <= 5 && [p] + rest == Answers(g.tail, g.blocks)
    ensures g.tail > 0 || g.blocks > 0
  {
    hide Answers;
    NoAnswersLeft();
    assert |[p] + rest| == 1 + |rest|;
  }

  lemma SameHeads<T>(x: T, xs: seq<T>, y: T, ys: seq<T>)
    requires [x] + xs == [y] + ys
    ensures x == y && xs == ys
  {
    assert ([x] + xs)[0] == x && ([y] + ys)[0] == y;
    assert ([x] + xs)[1..] == xs && ([y] + ys)[1..] == ys;
  }

  lemma FlightRest(p: Reply, ps: seq<Reply>, qs: seq<Ask>, g: Progress)
    requires InFlight([p] + ps, qs, g) && !p.Confirmation? && !p.GlobalRequest?
    ensures g.tail > 0 || g.blocks > 0
    ensures InFlight([p] + ps, qs, Begin(g)) && p == ExecReplies(0)[5 - Begin(g).tail]
    ensures var g' := Begin(g);
            InFlight(ps, qs, if g'.tail > 1 then g'.(tail := g'.tail - 1) else g'.(tail := 0, closed := 1))
            || (g'.closed == 1 && g'.tail <= 4)
  {
    hide Range, Answers, ExecReplies, Confirms, Rest, Opens, Commands, OnlyChannels;
    FirstReply(p, ps);
    SomeAnswersLeft(p, Rest(ps), g);
    AnswersFrom(g);
    var g' := Begin(g);
    SameHeads(p, Rest(ps), ExecReplies(0)[5 - g'.tail], Answers(g'.tail - 1, g'.blocks));
    assert [] + Confirms(ps) == Confirms(ps);
  }

  function Heard(g: Progress): Progress
    requires g.tail > 0
  {
    if g.tail > 1 then g.(tail := g.tail - 1) else g.(tail := 0, closed := 1)
  }

  /** What the next reply of an exec answer does to channel 0 and to the others. */
  ghost predicate ZeroTakes(cfg: Config, conn: Connection.Conn, g: Progress, p: Reply)
    requires AboutChannels(p) && 0 < g.tail <= 5
  {
    if g.closed == 1 && g.tail <= 4 then Reaction(cfg, conn, p) == Connection.Refused(ChannelError)
    else
      match Reaction(cfg, conn, p)
      case Reacted(conn', sends, events) =>
        && (g.closed == 0 ==> events == ExecEvents(cfg)[Reported(g)..Reported(Heard(g))])
        && conn'.pendingExec == conn.pendingExec
        && sends == [] && conn'.nextId == conn.nextId && ChannelZero(conn', Heard(g))
        && conn'.channels.Keys <= conn.channels.Keys
        && forall id: U32 | 0 < id :: Waiting(conn, id) ==> Waiting(conn', id)
      case _ => false
  }

  ghost predicate ZeroAwaits(cfg: Config, conn: Connection.Conn, g: Progress) {
    && ChannelZero(conn, g) && 0 < g.tail <= 5 && g.confirmed > 0 && g.closed <= 1
    && (g.closed == 1 ==> g.tail >= 4) && |cfg.execOutput| <= SHORT
  }

  /** The grant and the output. */
  lemma ZeroHearsFirst(cfg: Config, conn: Connection.Conn, g: Progress)
    requires ZeroAwaits(cfg, conn, g) && g.tail >= 4
    ensures AboutChannels(ExecReplies(0)[5 - g.tail]) && ZeroTakes(cfg, conn, g, ExecReplies(0)[5 - g.tail])
  {
    hide Encode, Short, GetU32, Connection.ExecRequest, Connection.PtyRequest, Connection.ShellRequest, Ascii, ExecEvents;
    EventSlices(cfg);
  }

  /** The exit status, the end of the output, and the close. */
  lemma ZeroHearsLast(cfg: Config, conn: Connection.Conn, g: Progress)
    requires ZeroAwaits(cfg, conn, g) && g.tail < 4
    ensures AboutChannels(ExecReplies(0)[5 - g.tail]) && ZeroTakes(cfg, conn, g, ExecReplies(0)[5 - g.tail])
  {
    hide Encode, Short, GetU32, Connection.ContinueSetup, Connection.Deliver, Ascii, ExecEvents;
    EventSlices(cfg);
    IdRead(Channel.MSG_CHANNEL_EOF, 0);
    EofEncodes(cfg);
  }

  /** The next message of an answer changes channel 0 alone; data for a channel 0 that is already
      closed is fatal. */
  lemma ZeroHears(cfg: Config, conn: Connection.Conn, g: Progress)
    requires ZeroAwaits(cfg, conn, g)
    ensures AboutChannels(ExecReplies(0)[5 - g.tail]) && ZeroTakes(cfg, conn, g, ExecReplies(0)[5 - g.tail])
  {
    hide AboutChannels, ZeroTakes, ExecReplies;
    if g.tail >= 4 {
      ZeroHearsFirst(cfg, conn, g);
    } else {
      ZeroHearsLast(cfg, conn, g);
    }
  }

  lemma EofEncodes(cfg: Config) ensures Encode(cfg, Eof(0)) == Channel.IdMessage(Channel.MSG_CHANNEL_EOF, 0) {}

  lemma HearsAnswer(cfg: Config, conn: Connection.Conn, p: Reply, ps: seq<Reply>, qs: seq<Ask>, g: Progress)
    requires ChannelTalk(conn, [p] + ps, qs, g) && !p.Confirmation? && !p.GlobalRequest? && |cfg.execOutput| <= SHORT
    ensures AboutChannels(p) && (g.tail > 0 || g.blocks > 0)
    ensures match Reaction(cfg, conn, p)
            case Reacted(conn', sends, events) =>
              && sends == [] && ChannelTalk(conn', ps, qs, Heard(Begin(g))) && conn'.pendingExec == conn.pendingExec
              && (g.begun <= 1 ==> Reported(g) <= Reported(Heard(Begin(g)))
                                   && events == ExecEvents(cfg)[Reported(g)..Reported(Heard(Begin(g)))])
            case Refused(_) => g.begun >= 2
            case Panicked => false
  {
    hide InFlight, Reaction, ExecReplies, Waiting, ExecEvents;
    FlightBounds([p] + ps, qs, g);
    FlightRest(p, ps, qs, g);
    ZeroHears(cfg, conn, Begin(g));
  }

  // the session around the channel layer

  lemma PutsOne(q: Ask)
    ensures Puts([q]) == [Put(q)]
  {
    assert [q][1..] == [];
  }

  /** A step of the client: it asks `asks`, and the dialogue goes on as `g`. */
  ghost predicate GoesOn(c: Suite, cfg: Config, s: State, k: Cipher, t: State, ps: seq<Reply>, qs: seq<Ask>, asks: seq<Ask>, g: Progress) {
    && Talking(c, cfg, t, ps, qs + asks, g)
    && |asks| <= 1
    && SendEach(c, s.out, Puts(asks)) == Some(t.out)
    && t.kex == s.kex.(sc := Some(k))
  }

  lemma DeliverCiphered(c: Suite, s: State, k: Cipher, payload: Bytes)
    requires payload != []
    ensures var s1 := WithSc(s, Some(k)); Deliver(c, s, Some(k), payload) == Settle(s1, Dispatch(c, s1, payload))
  {
    hide Dispatch;
  }

  lemma HearsFailure(c: Suite, cfg: Config, s: State, k: Cipher, ps: seq<Reply>, qs: seq<Ask>, g: Progress)
    requires Talking(c, cfg, s, [AuthFailure] + ps, qs, g) && s.phase == UserAuth
    ensures GoesOn(c, cfg, s, k, Deliver(c, s, Some(k), Encode(cfg, AuthFailure)), ps, qs, [], g)
  {
    hide Encode, Dispatch, Auth.ParseFailure, UsableKey, Short, AllFair, Events.ChannelEvents, RemainingMethods,
         KexInit.NamesOf, ChannelTalk, Faithful;
    Events.OneMore(s.events, Events.AuthFailure(KexInit.NamesOf(RemainingMethods())));
    EncodeTypes(cfg, AuthFailure);
    DeliverCiphered(c, s, k, Encode(cfg, AuthFailure));
    DispatchTypes(c, WithSc(s, Some(k)), Encode(cfg, AuthFailure));
    FailureRead(cfg);
    var all := [AuthFailure] + ps;
    assert all[0] == AuthFailure && all[1..] == ps;
    assert all == [AuthFailure];
    assert qs + [] == qs;
  }

  lemma NothingInFlight(ps: seq<Reply>)
    requires ps == [] || ps == [GlobalRequest]
    ensures ChannelTalk(Connection.EMPTY, ps, [], NOTHING)
  {
    assert ps != [] ==> ps[1..] == [];
    assert ExecReplies(0)[5..] == [];
  }

  lemma HearsSuccess(c: Suite, cfg: Config, s: State, k: Cipher, ps: seq<Reply>, qs: seq<Ask>, g: Progress)
    requires Talking(c, cfg, s, [AuthSuccess] + ps, qs, g) && s.phase == UserAuth
    ensures GoesOn(c, cfg, s, k, Deliver(c, s, Some(k), Encode(cfg, AuthSuccess)), ps, qs, [], g)
    ensures Deliver(c, s, Some(k), Encode(cfg, AuthSuccess)).phase == SessionModel.Connected
  {
    hide Encode, Dispatch, UsableKey, Short, AllFair, ChannelTalk, Events.ChannelEvents, ExecEvents;
    Events.OneMore(s.events, Events.AuthSuccess);
    EncodeTypes(cfg, AuthSuccess);
    DeliverCiphered(c, s, k, Encode(cfg, AuthSuccess));
    DispatchTypes(c, WithSc(s, Some(k)), Encode(cfg, AuthSuccess));
    var all := [AuthSuccess] + ps;
    assert all[0] == AuthSuccess && all[1..] == ps;
    assert ps == [] || ps == [GlobalRequest];
    assert qs + [] == qs;
    assert all[0] in all;
    assert ExecEvents(cfg)[..0] == [];
    NothingInFlight(ps);
  }

  lemma HearsKeyAcceptable(c: Suite, cfg: Config, s: State, k: Cipher, algorithm: Bytes, blob: Bytes, ps: seq<Reply>,
                           qs: seq<Ask>, g: Progress) returns (q: Ask)
    requires LawfulKeys(c)
    requires Talking(c, cfg, s, [KeyAcceptable(algorithm, blob)] + ps, qs, g) && s.phase == UserAuth
    ensures q.AskSigned?
    ensures GoesOn(c, cfg, s, k, Deliver(c, s, Some(k), Encode(cfg, KeyAcceptable(algorithm, blob))), ps, qs, [q], g)
  {
    hide Encode, Dispatch, Auth.ParsePkOk, Auth.SignedData, SendCiphered, Put, Auth.SignedRequest, Utf8.Valid;
    var p := KeyAcceptable(algorithm, blob);
    var all := [p] + ps;
    assert all[0] == p && all[1..] == ps;
    var pending := s.pendingAuth.value;
    assert ps == [] && qs == [];
    EncodeTypes(cfg, p);
    DeliverCiphered(c, s, k, Encode(cfg, p));
    DispatchTypes(c, WithSc(s, Some(k)), Encode(cfg, p));
    KeyAcceptableRead(cfg, algorithm, blob);
    var signature := c.sign(pending.key, Auth.SignedData(s.kex.sessionId.value, pending.user, algorithm, blob)).value;
    q := AskSigned(pending.user, algorithm, blob, signature);
    PutsOne(q);
    SendsOne(c, s.out, q);
    assert qs + [q] == [q];
    PutSigned(q);
  }

  lemma PutSigned(q: Ask)
    requires q.AskSigned?
    ensures Put(q) == Auth.SignedRequest(q.user, q.algorithm, q.blob, q.signature)
  {
  }

  lemma SendsOne(c: Suite, o: Out, q: Ask)
    requires o.cs.Some?
    ensures SendCiphered(c, o, Put(q)).Some? && SendCiphered(c, o, Put(q)).value.cs.Some?
    ensures SendEach(c, o, Puts([q])) == SendCiphered(c, o, Put(q))
  {
    hide Put, Emit;
    PutsOne(q);
    assert [Put(q)][1..] == [];
  }

  lemma OneMoreFair(c: Suite, qs: seq<Ask>, q: Ask)
    requires AllFair(c, qs) && Fair(c, q)
    ensures AllFair(c, qs + [q])
  {
    hide Fair;
  }

  lemma HearsGlobalRequest(c: Suite, cfg: Config, s: State, k: Cipher, ps: seq<Reply>, qs: seq<Ask>, g: Progress)
    requires Talking(c, cfg, s, [GlobalRequest] + ps, qs, g) && s.phase == SessionModel.Connected
    ensures GoesOn(c, cfg, s, k, Deliver(c, s, Some(k), Encode(cfg, GlobalRequest)), ps, qs, [RefuseGlobal], g)
    ensures Deliver(c, s, Some(k), Encode(cfg, GlobalRequest)).phase == SessionModel.Connected
  {
    hide Encode, Dispatch, SendCiphered, AllFair, ChannelTalk, ParseGlobalRequest;
    EncodeTypes(cfg, GlobalRequest);
    DeliverCiphered(c, s, k, Encode(cfg, GlobalRequest));
    DispatchTypes(c, WithSc(s, Some(k)), Encode(cfg, GlobalRequest));
    GlobalRead(cfg);
    SendsOne(c, s.out, RefuseGlobal);
    OneMoreFair(c, qs, RefuseGlobal);
    HearsGlobal(s.conn, ps, qs, g);
  }

  lemma ReactsToReply(c: Suite, cfg: Config, s: State, k: Cipher, p: Reply)
    requires AboutChannels(p) && |cfg.execOutput| <= SHORT
    ensures var s1 := WithSc(s, Some(k));
            Deliver(c, s, Some(k), Encode(cfg, p)) == Settle(s1, React(c, s1, Reaction(cfg, s.conn, p)))
  {
    hide Encode, Dispatch, Reaction, React, Connection.OnMessage;
    EncodeTypes(cfg, p);
    DeliverCiphered(c, s, k, Encode(cfg, p));
    DispatchTypes(c, WithSc(s, Some(k)), Encode(cfg, p));
    ReactionToReply(cfg, s.conn, p);
  }

  lemma TalkBounds(conn: Connection.Conn, ps: seq<Reply>, qs: seq<Ask>, g: Progress)
    requires ChannelTalk(conn, ps, qs, g)
    ensures g.confirmed <= g.begun && conn.nextId == g.begun
    ensures g.confirmed == 0 ==> g.tail == 0 && g.blocks == 0 && g.closed == 0
    ensures g.closed == 1 && (g.tail > 0 || g.blocks > 0) ==> g.begun >= 2
    ensures g.tail <= 5 && g.closed <= 1
  {
    hide InFlight;
    FlightBounds(ps, qs, g);
  }

  lemma HearsChannelConfirmed(c: Suite, cfg: Config, s: State, k: Cipher, id: U32, ps: seq<Reply>, qs: seq<Ask>, g: Progress)
    returns (q: Ask)
    requires Talking(c, cfg, s, [Confirmation(id)] + ps, qs, g) && s.phase == SessionModel.Connected && |cfg.execOutput| <= SHORT
    ensures q.RunCommand?
    ensures GoesOn(c, cfg, s, k, Deliver(c, s, Some(k), Encode(cfg, Confirmation(id))), ps, qs, [q],
                   g.(confirmed := g.confirmed + 1))
    ensures Deliver(c, s, Some(k), Encode(cfg, Confirmation(id))).phase == SessionModel.Connected
  {
    hide Encode, SendCiphered, AllFair, ChannelTalk, Reaction, Put, Deliver, Utf8.Valid, Faithful;
    TalkBounds(s.conn, [Confirmation(id)] + ps, qs, g);
    HearsConfirmation(cfg, s.conn, id, ps, qs, g);
    q := RunCommand(s.conn.pendingExec[id]);
    OneMoreFair(c, qs, q);
    ReactsToReply(c, cfg, s, k, Confirmation(id));
    SendsOne(c, s.out, q);
    PutsOne(q);
    var t := Deliver(c, s, Some(k), Encode(cfg, Confirmation(id)));
    assert t.events == s.events + [Events.ChannelOpened(id)];
    FaithfulConfirmed(cfg, s, t, qs, q, g);
  }

  lemma FaithfulConfirmed(cfg: Config, s: State, t: State, qs: seq<Ask>, q: Ask, g: Progress)
    requires Faithful(cfg, s, qs, g) && g.confirmed < g.begun && g.tail <= 5
    requires g.confirmed == 0 ==> g.tail == 0 && g.closed == 0
    requires q.RunCommand? && g.confirmed in s.conn.pendingExec && q.command == s.conn.pendingExec[g.confirmed]
    requires t.events == s.events + [Events.ChannelOpened(g.confirmed)]
    ensures Faithful(cfg, t, qs + [q], g.(confirmed := g.confirmed + 1))
  {
    hide ExecEvents, Events.ChannelEvents;
    EventSlices(cfg);
    Events.OneMore(s.events, Events.ChannelOpened(g.confirmed));
  }

  lemma TalkOnlyChannels(conn: Connection.Conn, ps: seq<Reply>, qs: seq<Ask>, g: Progress)
    requires ChannelTalk(conn, ps, qs, g)
    ensures OnlyChannels(qs)
  {
  }

  lemma SameHead(g: Progress)
    requires g.tail > 0 || g.blocks > 0
    ensures var g' := Heard(Begin(g)); g'.begun == g.begun && g'.confirmed == g.confirmed && g'.command == g.command
  {
  }

  lemma {:induction false} KeepsChannelEvents(es: seq<Events.Event>)
    requires forall e | e in es :: Events.IsChannelEvent(e)
    ensures Events.ChannelEvents(es) == es
  {
    if es != [] {
      assert es[0] in es;
      KeepsChannelEvents(es[1..]);
    }
  }

  lemma AllChannelEvents(cfg: Config, i: nat, j: nat)
    requires i <= j <= 5
    ensures Events.ChannelEvents(ExecEvents(cfg)[i..j]) == ExecEvents(cfg)[i..j]
  {
    hide Events.ChannelEvents;
    KeepsChannelEvents(ExecEvents(cfg)[i..j]);
  }

  lemma HearsAnswerMessage(c: Suite, cfg: Config, s: State, k: Cipher, p: Reply, ps: seq<Reply>, qs: seq<Ask>, g: Progress)
    requires Talking(c, cfg, s, [p] + ps, qs, g) && s.phase == SessionModel.Connected && |cfg.execOutput| <= SHORT
    requires !p.Confirmation? && !p.GlobalRequest?
    ensures g.tail > 0 || g.blocks > 0
    ensures GoesOn(c, cfg, s, k, Deliver(c, s, Some(k), Encode(cfg, p)), ps, qs, [], Heard(Begin(g)))
    ensures Deliver(c, s, Some(k), Encode(cfg, p)).phase == SessionModel.Connected || g.begun >= 2
  {
    hide Encode, AllFair, ChannelTalk, Reaction, Deliver, ExecEvents, Events.ChannelEvents, Reported, OnlyChannels;
    TalkBounds(s.conn, [p] + ps, qs, g);
    TalkOnlyChannels(s.conn, [p] + ps, qs, g);
    HearsAnswer(cfg, s.conn, p, ps, qs, g);
    ReactsToReply(c, cfg, s, k, p);
    assert qs + [] == qs;
    if Reaction(cfg, s.conn, p).Reacted? && g.begun <= 1 {
      var i, j := Reported(g), Reported(Heard(Begin(g)));
      Events.ChannelEventsAppend(s.events, ExecEvents(cfg)[i..j]);
      AllChannelEvents(cfg, i, j);
      assert ExecEvents(cfg)[..i] + ExecEvents(cfg)[i..j] == ExecEvents(cfg)[..j];
      SameHead(g);
    }
  }

  /** The dialogue when the client has heard the first pending reply. */
  lemma ClientTakes(c: Suite, cfg: Config, s: State, k: Cipher, p: Reply, ps: seq<Reply>, qs: seq<Ask>, g: Progress)
    returns (asks: seq<Ask>, g': Progress)
    requires Setting(c, cfg) && Talking(c, cfg, s, [p] + ps, qs, g) && !Over(s.phase)
    ensures g'.begun == g.begun && g'.command == g.command && (g'.confirmed == g.confirmed || Commands(asks) == 1)
    ensures AskLoads(asks) < ReplyLoad(p)
    ensures var t := Deliver(c, s, Some(k), Encode(cfg, p));
            && (p.AuthSuccess? && s.phase == UserAuth ==> t.phase == SessionModel.Connected && asks == [])
            && (s.phase == SessionModel.Connected ==> t.phase == SessionModel.Connected || g.begun >= 2)
    ensures GoesOn(c, cfg, s, k, Deliver(c, s, Some(k), Encode(cfg, p)), ps, qs, asks, g')
  {
    hide Encode, GoesOn, Deliver, Talking;
    TalkingPhases(c, cfg, s, p, ps, qs, g);
    asks, g' := [], g;
    if s.phase == UserAuth {
      match p
      case AuthFailure => HearsFailure(c, cfg, s, k, ps, qs, g);
      case AuthSuccess => HearsSuccess(c, cfg, s, k, ps, qs, g);
      case KeyAcceptable(algorithm, blob) =>
        var q := HearsKeyAcceptable(c, cfg, s, k, algorithm, blob, ps, qs, g);
        OneAskLoad(q);
        asks := [q];
    } else {
      match p
      case GlobalRequest =>
        HearsGlobalRequest(c, cfg, s, k, ps, qs, g);
        OneAskLoad(RefuseGlobal);
        asks := [RefuseGlobal];
      case Confirmation(id) =>
        var q := HearsChannelConfirmed(c, cfg, s, k, id, ps, qs, g);
        OneAsk(q);
        OneAskLoad(q);
        asks, g' := [q], g.(confirmed := g.confirmed + 1);
      case _ =>
        HearsAnswerMessage(c, cfg, s, k, p, ps, qs, g);
        g' := Heard(Begin(g));
    }
  }

  lemma TalkingPhases(c: Suite, cfg: Config, s: State, p: Reply, ps: seq<Reply>, qs: seq<Ask>, g: Progress)
    requires Talking(c, cfg, s, [p] + ps, qs, g) && !Over(s.phase)
    ensures s.phase == UserAuth || s.phase == SessionModel.Connected
    ensures s.phase == UserAuth ==> p.AuthFailure? || p.AuthSuccess? || p.KeyAcceptable?
  {
    assert ([p] + ps)[0] == p;
  }

  // ---- the host speaks -------------------------------------------------------------------------------------

  /** A password attempt with none outstanding; outside UserAuth nothing happens. */
  lemma HostTriesPassword(c: Suite, cfg: Config, s: State, user: Bytes, password: Bytes, ps: seq<Reply>, qs: seq<Ask>, g: Progress)
    returns (asks: seq<Ask>)
    requires Talking(c, cfg, s, ps, qs, g) && s.pendingAuth == None && Short(user) && Short(password) && !Over(s.phase)
    ensures var t := AuthenticatePassword(c, s, user, password);
            && Talking(c, cfg, t, ps, qs + asks, g) && |asks| <= 1 && SendEach(c, s.out, Puts(asks)) == Some(t.out)
            && t.kex == s.kex && t.phase == s.phase
            && (s.phase == UserAuth ==> asks == [AskPassword(user, password)] && ps == [] && qs == [] && g == NOTHING)
  {
    hide SendCiphered, ChannelTalk, Put, Short, UsableKey;
    if s.phase != UserAuth {
      asks := [];
      assert qs + [] == qs;
    } else {
      var q := AskPassword(user, password);
      asks := [q];
      SendsOne(c, s.out, q);
      assert qs + [q] == [q];
      PutPassword(q);
    }
  }

  lemma PutPassword(q: Ask)
    ensures q.AskPassword? ==> Put(q) == Auth.PasswordRequest(q.user, q.password)
    ensures q.AskKey? ==> Put(q) == Auth.KeyQuery(q.user, q.algorithm, q.blob)
    ensures q.OpenChannel? ==> Put(q) == Channel.OpenMessage(q.id)
  {
  }

  /** A public-key attempt with none outstanding; an unsupported key asks nothing. */
  lemma HostTriesKey(c: Suite, cfg: Config, s: State, user: Bytes, key: PrivateKey, ps: seq<Reply>, qs: seq<Ask>, g: Progress)
    returns (asks: seq<Ask>)
    requires Talking(c, cfg, s, ps, qs, g) && s.pendingAuth == None && Short(user) && UsableKey(c, key) && !Over(s.phase)
    ensures var t := AuthenticatePublickey(c, s, user, key);
            && Talking(c, cfg, t, ps, qs + asks, g) && |asks| <= 1 && SendEach(c, s.out, Puts(asks)) == Some(t.out)
            && t.kex == s.kex && t.phase == s.phase
  {
    hide SendCiphered, ChannelTalk, Put, Utf8.Valid;
    if s.phase != UserAuth || c.userAlgorithm(key).None? {
      asks := [];
      assert qs + [] == qs;
    } else {
      var q := AskKey(user, c.userAlgorithm(key).value, c.publicBlob(key));
      asks := [q];
      SendsOne(c, s.out, q);
      assert qs + [q] == [q];
      PutPassword(q);
    }
  }

  lemma FlightOpens(ps: seq<Reply>, qs: seq<Ask>, g: Progress, command: Bytes)
    requires InFlight(ps, qs, g) && g.begun + 1 < U32_LIMIT
    ensures InFlight(ps, qs + [OpenChannel(g.begun)], Extended(g, command))
  {
    hide Range, Blocks, ExecReplies, Confirms, Rest, Opens, Commands, OnlyChannels;
    ClientAsks(OpenChannel(g.begun), qs);
    RangeLast(g.offered, g.begun);
  }

  lemma TalkOpens(conn: Connection.Conn, command: Bytes, ps: seq<Reply>, qs: seq<Ask>, g: Progress)
    requires ChannelTalk(conn, ps, qs, g) && Short(command) && g.begun + 1 < U32_LIMIT
    ensures ChannelTalk(Connection.OpenExec(conn, command), ps, qs + [OpenChannel(conn.nextId)], Extended(g, command))
  {
    hide InFlight, Short;
    FlightBounds(ps, qs, g);
    FlightOpens(ps, qs, g, command);
    var conn' := Connection.OpenExec(conn, command);
    forall id: nat | g.confirmed <= id < g.begun + 1 ensures Waiting(conn', id) {
      if id < g.begun { assert Waiting(conn, id); }
    }
  }

  lemma {:induction false} NoCommands(qs: seq<Ask>)
    requires Commands(qs) == 0
    ensures forall q | q in qs :: !q.RunCommand?
  {
    if qs != [] { NoCommands(qs[1..]); }
  }

  lemma TalkNoCommands(conn: Connection.Conn, ps: seq<Reply>, qs: seq<Ask>, g: Progress)
    requires ChannelTalk(conn, ps, qs, g) && g.begun == 0
    ensures forall q | q in qs :: !q.RunCommand?
  {
    hide Range, Blocks, ExecReplies, Confirms, Rest, Opens, Commands, OnlyChannels;
    NoCommands(qs);
  }

  lemma HostOpensExec(c: Suite, cfg: Config, s: State, command: Bytes, ps: seq<Reply>, qs: seq<Ask>, g: Progress)
    returns (q: Ask)
    requires Talking(c, cfg, s, ps, qs, g) && s.phase == SessionModel.Connected && Short(command) && g.begun + 1 < U32_LIMIT
    ensures var t := OpenExec(c, s, command);
            && Talking(c, cfg, t, ps, qs + [q], Extended(g, command)) && SendEach(c, s.out, Puts([q])) == Some(t.out)
            && t.kex == s.kex && t.phase == s.phase
  {
    hide SendCiphered, ChannelTalk, Put, Short, AllFair, Events.ChannelEvents;
    TalkBounds(s.conn, ps, qs, g);
    if g.begun == 0 { TalkNoCommands(s.conn, ps, qs, g); }
    q := OpenChannel(s.conn.nextId);
    TalkOpens(s.conn, command, ps, qs, g);
    OneMoreFair(c, qs, q);
    SendsOne(c, s.out, q);
    PutPassword(q);
  }
}
