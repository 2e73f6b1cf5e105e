/**
  Exactly when a session panics, for any peer and any host.

  The engine's `expect`s lie behind host calls and behind single packets. Each call is split into the
  packets it handles, each with the state that the packet meets; a call panics exactly when the host asks
  for something that cannot be sent, or one of those packets is one of a short list.
 */
module Panics {
  import opened Prelude
  import opened Primitives
  import opened Wire
  import opened Packet
  import opened Events
  import opened SessionModel
  import opened SessionSafety
  import opened SessionTrace
  import Auth
  import Channel
  import Connection
  import Exchange
  import Ident
  import KexInit
  import SessionRuns

  // ---- the packets of a call ---------------------------------------------------------------------------

  /** A payload about to be dispatched, and the state it meets. */
  datatype Visit = Visit(s: State, payload: Bytes)

  function TurnVisits(c: Suite, s: State, buf: Bytes): seq<Visit> {
    if s.phase == VersionExchange then []
    else match NextFrame(c, s.kex.sc, buf) case Got(_, k, payload) => [Visit(WithSc(s, k), payload)] case _ => []
  }

  function DriveVisits(c: Suite, s: State, buf: Bytes): seq<Visit>
    decreases |buf|, if Over(s.phase) then 0 else 1
  {
    if Idle(s.phase) then []
    else
      match Turn(c, s, buf)
      case None => []
      case Some((n, s')) => TurnVisits(c, s, buf) + DriveVisits(c, s', buf[n..])
  }

  function DoVisits(c: Suite, x: Session, i: Input): seq<Visit> {
    match i
    case FeedIncoming(b) => DriveVisits(c, x.core, x.incoming + b)
    case ProvideHostKeyDecision(accept) =>
      if x.core.phase == AwaitingHostKeyDecision && accept then DriveVisits(c, Accepted(c, x.core), x.incoming) else []
    case _ => []
  }

  function PayloadsOf(visits: seq<Visit>): seq<Bytes> { seq(|visits|, i requires 0 <= i < |visits| => visits[i].payload) }

  /** They are the packets the call hears. */
  lemma {:induction false} DriveVisitsHears(c: Suite, s: State, buf: Bytes)
    ensures PayloadsOf(DriveVisits(c, s, buf)) == DriveHears(c, s, buf)
    decreases |buf|, if Over(s.phase) then 0 else 1
  {
    hide Turn, NextFrame;
    if !Idle(s.phase) && Turn(c, s, buf).Some? {
      var (n, s') := Turn(c, s, buf).value;
      DriveVisitsHears(c, s', buf[n..]);
      assert PayloadsOf(TurnVisits(c, s, buf) + DriveVisits(c, s', buf[n..]))
          == PayloadsOf(TurnVisits(c, s, buf)) + PayloadsOf(DriveVisits(c, s', buf[n..]));
    }
  }

  // ---- the list ------------------------------------------------------------------------------------------

  /** SUCCESS for a channel whose setup has begun but which was never confirmed. */
  predicate GrantsUnconfirmed(conn: Connection.Conn, rest: Bytes) {
    match GetU32(rest)
    case Ok((id, _)) => id in conn.setup && Connection.RemoteId(conn, id).None?
    case Err(_) => false
  }

  /** A request that is neither an exit status nor an exit signal and wants a reply, for an open channel
      that was never confirmed. */
  predicate AsksUnconfirmed(conn: Connection.Conn, rest: Bytes) {
    match Connection.ParseServerRequest(rest)
    case Ok(m) =>
      && m.id in conn.channels && conn.channels[m.id].remoteId.None? && m.wantReply
      && m.name != Connection.NameExitStatus() && m.name != Connection.NameExitSignal()
    case Err(_) => false
  }

  /** Data that fills half the window of an open channel that was never confirmed. */
  predicate FillsUnconfirmed(conn: Connection.Conn, id: U32, len: nat) {
    && id in conn.channels && conn.channels[id].remoteId.None?
    && conn.channels[id].unadvertised + len >= Channel.WINDOW_ADJUST_THRESHOLD
  }

  predicate ChannelPanics(conn: Connection.Conn, msg: Byte, rest: Bytes) {
    if msg == Channel.MSG_CHANNEL_SUCCESS then GrantsUnconfirmed(conn, rest)
    else if msg == Channel.MSG_CHANNEL_REQUEST then AsksUnconfirmed(conn, rest)
    else if msg == Channel.MSG_CHANNEL_DATA then
      match Connection.ParseIdAndData(rest)
      case Ok((id, data)) => FillsUnconfirmed(conn, id, |data|)
      case Err(_) => false
    else if msg == Channel.MSG_CHANNEL_EXTENDED_DATA then
      match Connection.ParseExtended(rest)
      case Ok((id, _, data)) => FillsUnconfirmed(conn, id, |data|)
      case Err(_) => false
    else false
  }

  /** A global request that wants a reply while nothing can be sent, or one of the channel messages above. */
  predicate PacketPanics(v: Visit) {
    && |v.payload| > 0
    && if v.payload[0] == MSG_GLOBAL_REQUEST then ParseGlobalRequest(v.payload[1..]) == Ok(true) && v.s.out.cs.None?
       else Connection.IsChannelMessage(v.payload[0]) && ChannelPanics(v.s.conn, v.payload[0], v.payload[1..])
  }

  /** The host opens a channel, or attempts to authenticate, while nothing can be sent. */
  predicate HostPanics(c: Suite, s: State, i: Input) {
    && s.out.cs.None?
    && match i
       case Exec(_) => true
       case Shell(_) => true
       case Password(_, _) => s.phase == UserAuth
       case PublicKey(_, key) => s.phase == UserAuth && c.userAlgorithm(key).Some?
       case _ => false
  }

  predicate SomePanics(visits: seq<Visit>) { exists i :: 0 <= i < |visits| && PacketPanics(visits[i]) }

  // ---- channel messages ----------------------------------------------------------------------------------

  lemma DeliverPanics(conn: Connection.Conn, id: U32, stream: DataStream, data: Bytes)
    requires Connection.AllSound(conn) && |data| <= Channel.MAX_DATA
    ensures Connection.Deliver(conn, id, stream, data).Panicked? <==> FillsUnconfirmed(conn, id, |data|)
  {
    if id in conn.channels { Channel.DeliveryConserves(conn.channels[id], |data|); }
  }

  lemma SetupPanics(conn: Connection.Conn, id: U32, reply: Option<bool>)
    ensures Connection.ContinueSetup(conn, id, reply).Panicked? <==>
            id in conn.setup && reply != Some(false) && Connection.RemoteId(conn, id).None?
  {
    hide Connection.ExecRequest, Connection.PtyRequest, Connection.ShellRequest, Channel.IdMessage,
         Connection.DefaultPty, Ascii;
  }

  lemma ConfirmationNeverPanics(conn: Connection.Conn, rest: Bytes)
    ensures !Connection.OnConfirmationAndSetup(conn, rest).Panicked?
  {
    hide Connection.ParseConfirmation, Connection.ContinueSetup;
    if Connection.OnConfirmation(conn, rest).Reacted? {
      SetupPanics(Connection.OnConfirmation(conn, rest).conn, Connection.ParseConfirmation(rest).value.id, None);
    }
  }

  lemma RequestPanics(conn: Connection.Conn, rest: Bytes)
    ensures Connection.OnRequest(conn, rest).Panicked? <==> AsksUnconfirmed(conn, rest)
  {
    hide Connection.ParseServerRequest, GetU32, GetUtf8, Channel.IdMessage, Connection.NameExitStatus,
         Connection.NameExitSignal;
  }

  lemma MessagePanics(conn: Connection.Conn, msg: Byte, rest: Bytes)
    requires Connection.AllSound(conn) && Connection.IsChannelMessage(msg) && |rest| <= Channel.MAX_DATA
    ensures Connection.OnMessage(conn, msg, rest).Panicked? <==> ChannelPanics(conn, msg, rest)
  {
    hide Connection.OnConfirmationAndSetup, Connection.OnRequest, Connection.Deliver, Connection.ContinueSetup, GetU32,
         Connection.ParseIdAndNumber, Connection.ParseIdAndData, Connection.ParseExtended, Connection.DescriptionOr,
         AsksUnconfirmed, FillsUnconfirmed, Connection.AllSound;
    ConfirmationNeverPanics(conn, rest);
    RequestPanics(conn, rest);
    if (msg == Channel.MSG_CHANNEL_SUCCESS || msg == Channel.MSG_CHANNEL_FAILURE) && GetU32(rest).Ok? {
      SetupPanics(conn, GetU32(rest).value.0, Some(msg == Channel.MSG_CHANNEL_SUCCESS));
    } else if msg == Channel.MSG_CHANNEL_DATA && Connection.ParseIdAndData(rest).Ok? {
      DeliverPanics(conn, Connection.ParseIdAndData(rest).value.0, Stdout, Connection.ParseIdAndData(rest).value.1);
    } else if msg == Channel.MSG_CHANNEL_EXTENDED_DATA && Connection.ParseExtended(rest).Ok? {
      var (id, code, data) := Connection.ParseExtended(rest).value;
      DeliverPanics(conn, id, Connection.StreamOf(code), data);
    }
  }

  // ---- dispatch ------------------------------------------------------------------------------------------

  /** A handler panics exactly if `b`, and otherwise leaves a session that has not. */
  ghost predicate PanicsIff(o: Outcome, b: bool) { if b then o.Panic? else !o.Panic? && o.s.phase != Halted }

  /** Whatever the tables let through can be sent. */
  lemma ReactPanics(c: Suite, s: State, r: Connection.Reaction)
    requires Always(s) && s.phase != Halted && Mild(s.conn, r)
    ensures PanicsIff(React(c, s, r), r.Panicked?)
  {
    hide Connection.AllSound, Implemented, Terminals, SendEach;
    if r.Reacted? { EachGrows(c, s.out, r.sends); }
  }

  lemma ChannelMessagePanics(c: Suite, s: State, p: Bytes)
    requires Live(s) && 0 < |p| <= MAX_PACKET_LENGTH && Connection.IsChannelMessage(p[0])
    ensures PanicsIff(React(c, s, Connection.OnMessage(s.conn, p[0], p[1..])), ChannelPanics(s.conn, p[0], p[1..]))
  {
    hide React, Connection.OnMessage, Mild, PanicsIff, ChannelPanics, Connection.AllSound;
    MessageIsMild(s.conn, p[0], p[1..]);
    MessagePanics(s.conn, p[0], p[1..]);
    ReactPanics(c, s, Connection.OnMessage(s.conn, p[0], p[1..]));
  }

  lemma GlobalRequestPanics(c: Suite, s: State, p: Bytes)
    requires s.phase != Halted && |p| > 0
    ensures PanicsIff(HandleGlobalRequest(c, s, p), ParseGlobalRequest(p[1..]) == Ok(true) && s.out.cs.None?)
  {
    hide ParseGlobalRequest, Emit;
  }

  lemma KexNeverPanics(c: Suite, s: State, p: Bytes)
    requires Live(s)
    ensures PanicsIff(HandlePeerKexinit(c, s, p), false) && PanicsIff(HandleKexReply(c, s, p), false)
  {
    hide KexInit.Parse, KexInit.NegotiateAll, Exchange.ParseReply, Exchange.ParseCurveReply, VerifyReply,
         Exchange.CurveHash, Exchange.Group14Hash, TranscriptOf, SendPlainOrCiphered, Connection.AllSound, Terminals,
         Implemented, FromName, DerivePair, Exchange.CurveInit, Exchange.Group14Init, Ascii;
  }

  lemma OthersNeverPanic(c: Suite, s: State, p: Bytes)
    requires Live(s) && |p| > 0
    ensures PanicsIff(HandleDisconnect(s, p), false) && PanicsIff(HandleNewkeys(s), false)
    ensures PanicsIff(HandleServiceAccept(s, p), false) && PanicsIff(HandleUserauthFailure(s, p), false)
    ensures PanicsIff(HandleUserauthSuccess(s), false) && PanicsIff(HandlePkOk(c, s, p), false)
  {
    hide ParseDisconnect, Auth.ParseServiceAccept, Auth.ServiceUserauth, Auth.ParseFailure, Auth.ParsePkOk,
         Auth.SignedData, Auth.SignedRequest, Emit, Connection.AllSound, Terminals, Implemented, Advance;
  }

  lemma DispatchPanics(c: Suite, s: State, p: Bytes)
    requires Live(s) && 0 < |p| <= MAX_PACKET_LENGTH
    ensures PanicsIff(Dispatch(c, s, p), PacketPanics(Visit(s, p)))
  {
    hide HandleDisconnect, HandlePeerKexinit, HandleKexReply, HandleNewkeys, HandleServiceAccept,
         HandleUserauthFailure, HandleUserauthSuccess, HandlePkOk, HandleGlobalRequest, React, Connection.OnMessage,
         ParseGlobalRequest, ChannelPanics, Always;
    LiveIsOpen(s);
    OthersNeverPanic(c, s, p);
    KexNeverPanics(c, s, p);
    GlobalRequestPanics(c, s, p);
    if Connection.IsChannelMessage(p[0]) { ChannelMessagePanics(c, s, p); }
  }

  lemma LiveIsOpen(s: State)
    requires Live(s)
    ensures s.phase != Halted
  {
  }

  // ---- driving -------------------------------------------------------------------------------------------

  lemma PacketTurnPanics(c: Suite, s: State, buf: Bytes)
    requires LawfulAead(c) && Live(s) && PacketTurn(c, s, buf).Some?
    ensures PacketTurn(c, s, buf).value.1.phase == Halted <==> SomePanics(TurnVisits(c, s, buf))
  {
    hide Live, Always, NextFrame, Dispatch, LawfulAead, PacketPanics;
    SessionRuns.PayloadBound(c, s.kex.sc, buf);
    LivePhase(s);
    match NextFrame(c, s.kex.sc, buf)
    case Got(_, k, p) =>
      var s1 := WithSc(s, k);
      SessionRuns.WithScKeeps(s, k);
      OnePanics(Visit(s1, p));
      if p == [] {
        NothingPanics(s1);
      } else {
        DispatchPanics(c, s1, p);
      }
    case _ =>
  }

  lemma LivePhase(s: State)
    requires Live(s)
    ensures s.phase != VersionExchange
  {
  }

  lemma OnePanics(v: Visit)
    ensures SomePanics([v]) <==> PacketPanics(v)
  {
    hide PacketPanics;
    assert [v][0] == v;
  }

  lemma NothingPanics(s: State) ensures !PacketPanics(Visit(s, [])) {}

  lemma TurnPanics(c: Suite, s: State, buf: Bytes)
    requires LawfulAead(c) && Always(s) && !Idle(s.phase) && Turn(c, s, buf).Some?
    ensures Turn(c, s, buf).value.1.phase == Halted <==> SomePanics(TurnVisits(c, s, buf))
  {
    hide Always, PacketTurn, LawfulAead, Ident.Scan, BeginKex, PacketPanics;
    if s.phase == VersionExchange {
      BeginsOpen(c, s);
    } else {
      PacketTurnPanics(c, s, buf);
    }
  }

  lemma BeginsOpen(c: Suite, s: State)
    ensures forall i :: BeginKex(c, s.(ident := i)).phase == KexInProgress
  {
  }

  lemma PanicsAppend(a: seq<Visit>, b: seq<Visit>)
    ensures SomePanics(a + b) <==> SomePanics(a) || SomePanics(b)
  {
    hide PacketPanics;
    if i :| 0 <= i < |a| && PacketPanics(a[i]) { assert (a + b)[i] == a[i]; }
    if j :| 0 <= j < |b| && PacketPanics(b[j]) { assert (a + b)[|a| + j] == b[j]; }
  }

  lemma {:induction false} DrivePanics(c: Suite, s: State, buf: Bytes)
    requires LawfulAead(c) && Always(s)
    ensures Drive(c, s, buf).core.phase == Halted <==> s.phase == Halted || SomePanics(DriveVisits(c, s, buf))
    decreases |buf|, if Over(s.phase) then 0 else 1
  {
    hide Always, Keeps, Turn, TurnVisits, LawfulAead, PacketPanics;
    if !Idle(s.phase) && Turn(c, s, buf).Some? {
      var (n, s') := Turn(c, s, buf).value;
      SessionRuns.TurnKeeps(c, s, buf);
      KeepsIsAlways(s, s');
      TurnPanics(c, s, buf);
      DrivePanics(c, s', buf[n..]);
      PanicsAppend(TurnVisits(c, s, buf), DriveVisits(c, s', buf[n..]));
    }
  }

  // ---- host calls ----------------------------------------------------------------------------------------

  lemma CallsNeverPanic(c: Suite, s: State, i: Input)
    requires Always(s) && s.phase != Halted && (i.SendData? || i.Resize? || i.CloseChannel?)
    ensures HostCall(c, s, i).phase != Halted
  {
    hide Always, React, Connection.ChannelSend, Connection.ResizePty, Connection.CloseChannel, Mild, Connection.AllSound;
    SessionRuns.PendingNeedsCipher(s);
    match i
    case SendData(id, data) =>
      SessionRuns.ChannelCallsMild(s.conn, id, data, 0, 0);
      SessionRuns.ChannelCallsAnswer(s.conn, id, data, 0, 0);
      ReactPanics(c, s, Connection.ChannelSend(s.conn, id, data));
    case Resize(id, cols, rows) =>
      SessionRuns.ChannelCallsMild(s.conn, id, [], cols, rows);
      SessionRuns.ChannelCallsAnswer(s.conn, id, [], cols, rows);
      ReactPanics(c, s, Connection.ResizePty(s.conn, id, cols, rows));
    case CloseChannel(id) =>
      SessionRuns.ChannelCallsMild(s.conn, id, [], 0, 0);
      SessionRuns.ChannelCallsAnswer(s.conn, id, [], 0, 0);
      ReactPanics(c, s, Connection.CloseChannel(s.conn, id));
  }

  lemma HostCallPanics(c: Suite, s: State, i: Input)
    requires Always(s) && s.phase != Halted && !i.FeedIncoming? && !i.ProvideHostKeyDecision?
    ensures HostCall(c, s, i).phase == Halted <==> HostPanics(c, s, i)
  {
    hide Always, React, Emit, Auth.PasswordRequest, Auth.KeyQuery, Channel.OpenMessage, Connection.OpenExec,
         Connection.OpenShell, Connection.ChannelSend, Connection.ResizePty, Connection.CloseChannel;
    if i.SendData? || i.Resize? || i.CloseChannel? { CallsNeverPanic(c, s, i); }
  }

  lemma DoPanics(c: Suite, x: Session, i: Input)
    requires LawfulAead(c) && Always(x.core) && x.core.phase != Halted
    ensures Do(c, x, i).core.phase == Halted <==> HostPanics(c, x.core, i) || SomePanics(DoVisits(c, x, i))
  {
    hide Always, Grows, Drive, DriveVisits, HostCall, Accepted, LawfulAead, PacketPanics;
    match i
    case FeedIncoming(b) => DrivePanics(c, x.core, x.incoming + b);
    case ProvideHostKeyDecision(accept) =>
      if x.core.phase == AwaitingHostKeyDecision && accept {
        SessionRuns.AcceptedKeeps(c, x.core);
        DrivePanics(c, Accepted(c, x.core), x.incoming);
      }
    case _ => HostCallPanics(c, x.core, i);
  }

  /** Any peer, any host: after any run that has not panicked, a call panics if and only if the host opens a
      channel or attempts to authenticate with no sending cipher in place, or one of the packets that the
      call handles is, in the state it meets: a global request that wants a reply, with no sending cipher in
      place; the grant of a setup request on a channel that was never confirmed; a request other than an
      exit status or signal that wants a reply, or data that fills half the window, on such a channel. */
  lemma PanicsExactly(c: Suite, inputs: seq<Input>, i: Input)
    requires LawfulAead(c) && Run(c, START, inputs).core.phase != Halted
    ensures var x := Run(c, START, inputs);
            Do(c, x, i).core.phase == Halted <==> HostPanics(c, x.core, i) || SomePanics(DoVisits(c, x, i))
  {
    hide Always, Run, LawfulAead, Do, HostPanics, SomePanics, DoVisits;
    SessionRuns.ReachableStates(c, inputs);
    DoPanics(c, Run(c, START, inputs), i);
  }
}
