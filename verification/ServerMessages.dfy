/**
  What the client makes of each message a server may send, with the message taken as the RFCs lay it out and
  not as any code of ours would write it: exactly which event reaches the host, what is said in answer, and
  what the session remembers.
 */
module ServerMessages {
  import opened Prelude
  import opened Primitives
  import opened Wire
  import opened Layouts
  import opened Events
  import opened SessionModel
  import Channel
  import opened ClientMessages
  import Connection
  import SessionSafety
  import Utf8

  // ---- requests of the server on a channel (sections 5.4 and 6.10 of RFC 4254) ---------------------------

  function ExitStatus(id: U32, wantReply: bool, code: U32): Fields {
    Request(id, Ascii("exit-status"), wantReply, Number(code, End))
  }

  function ExitSignal(id: U32, wantReply: bool, name: Bytes, coreDumped: bool, message: Bytes, language: Bytes): Fields {
    Request(id, Ascii("exit-signal"), wantReply, Text(name, Flag(coreDumped, Text(message, Text(language, End)))))
  }

  /** Reading a request up to its own fields. */
  lemma RequestIsParsed(m: Bytes, id: U32, name: Bytes, wantReply: bool, more: Fields) returns (fields: Bytes)
    requires Reads(m, Request(id, name, wantReply, more)) && Utf8.Valid(name)
    ensures |m| > 0 && m[0] == Channel.MSG_CHANNEL_REQUEST
    ensures Connection.ParseServerRequest(m[1..]) == Ok(Connection.ServerRequest(id, name, wantReply, fields))
    ensures Reads(fields, more)
  {
    hide Reads, GetU32, GetUtf8, GetBool;
    OctetRead(m, 98, Number(id, Text(name, Flag(wantReply, more))));
    NumberRead(m[1..], id, Text(name, Flag(wantReply, more)));
    var r := TextRead(m[1..][4..], name, Flag(wantReply, more));
    FlagRead(r, wantReply, more);
    fields := r[1..];
  }

  lemma ExitStatusName()
    ensures Connection.NameExitStatus() == Ascii("exit-status") && Utf8.Valid(Connection.NameExitStatus())
  {
    Utf8.AsciiIsValid(Connection.NameExitStatus());
  }

  lemma ExitSignalName()
    ensures Connection.NameExitSignal() == Ascii("exit-signal") && Utf8.Valid(Connection.NameExitSignal())
  {
    Utf8.AsciiIsValid(Connection.NameExitSignal());
  }

  lemma ExitNamesDiffer()
    ensures Connection.NameExitStatus() != Connection.NameExitSignal()
  {
    assert Connection.NameExitStatus()[6] != Connection.NameExitSignal()[6];
  }

  lemma RequestsAreHandled(conn: Connection.Conn, r: Bytes)
    ensures Connection.OnMessage(conn, Channel.MSG_CHANNEL_REQUEST, r) == Connection.OnRequest(conn, r)
  {
    hide Connection.OnRequest;
  }

  /** A channel message that raises one event and is not answered. */
  lemma OneEvent(c: Suite, s: State, m: Bytes, conn: Connection.Conn, e: Event)
    requires |m| > 0 && Connection.IsChannelMessage(m[0])
    requires Connection.OnMessage(s.conn, m[0], m[1..]) == Connection.Reacted(conn, [], [e])
    ensures Dispatch(c, s, m) == Fine(Raise(s.(conn := conn), e))
  {
    hide Connection.OnMessage;
    SendEachNone(c, s.out);
  }

  /** And one that is refused. */
  lemma OneRefusal(c: Suite, s: State, m: Bytes, e: SshError)
    requires |m| > 0 && Connection.IsChannelMessage(m[0])
    requires Connection.OnMessage(s.conn, m[0], m[1..]) == Connection.Refused(e)
    ensures Dispatch(c, s, m) == Failed(s, e)
  {
    hide Connection.OnMessage;
  }

  /** Every exit status is reported to the host, as it is, once, and nothing else happens; on a channel that is
      not open it ends the session. */
  lemma ExitStatusIsReported(c: Suite, s: State, m: Bytes, id: U32, wantReply: bool, code: U32)
    requires Reads(m, ExitStatus(id, wantReply, code))
    ensures |m| > 0
    ensures Dispatch(c, s, m) == if id in s.conn.channels then Fine(Raise(s, ChannelExitStatus(id, Some(code), None)))
                                 else Failed(s, ChannelError)
  {
    hide Reads, GetU32, Ascii, Connection.NameExitStatus, Connection.NameExitSignal, Connection.ParseServerRequest,
         Dispatch, Connection.OnMessage;
    ExitStatusName();
    var fields := RequestIsParsed(m, id, Connection.NameExitStatus(), wantReply, Number(code, End));
    NumberRead(fields, code, End);
    RequestsAreHandled(s.conn, m[1..]);
    if id in s.conn.channels {
      OneEvent(c, s, m, s.conn, ChannelExitStatus(id, Some(code), None));
    } else {
      OneRefusal(c, s, m, ChannelError);
    }
  }

  /** Every exit signal with a UTF-8 name is reported to the host with that name. */
  lemma ExitSignalIsReported(c: Suite, s: State, m: Bytes, id: U32, wantReply: bool, name: Bytes, core: bool, message: Bytes,
                             lang: Bytes)
    requires Reads(m, ExitSignal(id, wantReply, name, core, message, lang))
    ensures |m| > 0
    ensures Dispatch(c, s, m) == if id !in s.conn.channels then Failed(s, ChannelError)
                                 else if Utf8.Valid(name) then Fine(Raise(s, ChannelExitStatus(id, None, Some(name))))
                                 else Failed(s, Framing)
  {
    hide Reads, GetUtf8, Ascii, Connection.NameExitStatus, Connection.NameExitSignal, Connection.ParseServerRequest,
         Dispatch, Connection.OnMessage, Utf8.Valid;
    ExitSignalName();
    ExitNamesDiffer();
    var more := Flag(core, Text(message, Text(lang, End)));
    var fields := RequestIsParsed(m, id, Connection.NameExitSignal(), wantReply, Text(name, more));
    var _ := TextRead(fields, name, more);
    RequestsAreHandled(s.conn, m[1..]);
    if id !in s.conn.channels {
      OneRefusal(c, s, m, ChannelError);
    } else if Utf8.Valid(name) {
      OneEvent(c, s, m, s.conn, ChannelExitStatus(id, None, Some(name)));
    } else {
      OneRefusal(c, s, m, Framing);
    }
  }

  /** A channel message answered with one message. */
  lemma OneReply(c: Suite, s: State, conn: Connection.Conn, reply: Bytes, events: seq<Event>, f: Fields)
    requires s.out.cs.Some? && Reads(reply, f)
    ensures var o := React(c, s, Connection.Reacted(conn, [reply], events));
            o.Fine? && Says(s, o.s, f) && o.s == s.(conn := conn, out := o.s.out, events := s.events + events)
  {
    hide Reads, SendCiphered, Says;
    SendEachOne(c, s.out, reply);
    SessionSafety.CipheredGrows(c, s.out, reply);
    SentSays(c, s, React(c, s, Connection.Reacted(conn, [reply], events)).s, reply, f);
  }

  /** A server's request of any other kind is refused with CHANNEL_FAILURE, addressed to the server's own id
      for the channel, if it wants a reply, and ignored if not. */
  lemma OtherRequestsAreRefused(c: Suite, s: State, m: Bytes, id: U32, name: Bytes, wantReply: bool, more: Fields)
    requires Reads(m, Request(id, name, wantReply, more)) && Utf8.Valid(name)
    requires name != Ascii("exit-status") && name != Ascii("exit-signal")
    requires id in s.conn.channels && s.conn.channels[id].remoteId.Some? && s.out.cs.Some?
    ensures |m| > 0 && Dispatch(c, s, m).Fine?
    ensures var t := Dispatch(c, s, m).s;
            if wantReply then Says(s, t, Octet(100, Number(s.conn.channels[id].remoteId.value, End))) && t.conn == s.conn
            else t == s
  {
    hide Reads, Ascii, Connection.NameExitStatus, Connection.NameExitSignal, Connection.ParseServerRequest, Dispatch,
         Connection.OnMessage, Utf8.Valid, Says, Channel.IdMessage, SendEach, SendCiphered, Emit;
    ExitStatusName();
    ExitSignalName();
    var _ := RequestIsParsed(m, id, name, wantReply, more);
    RequestsAreHandled(s.conn, m[1..]);
    ChannelMessageIsReact(c, s, m);
    var remote := s.conn.channels[id].remoteId.value;
    if wantReply {
      var reply := Channel.IdMessage(Channel.MSG_CHANNEL_FAILURE, remote);
      DataIsRead(remote, [], 0);
      OneReply(c, s, s.conn, reply, [], Octet(100, Number(remote, End)));
      assert s.events + [] == s.events;
    } else {
      SilentReaction(c, s, s.conn);
    }
  }

  lemma ChannelMessageIsReact(c: Suite, s: State, m: Bytes)
    requires |m| > 0 && Connection.IsChannelMessage(m[0])
    ensures Dispatch(c, s, m) == React(c, s, Connection.OnMessage(s.conn, m[0], m[1..]))
  {
    hide Connection.OnMessage, React;
  }

  // ---- data and the end of it (sections 5.2 and 5.3) -----------------------------------------------------

  /** The window is granted back, to the server's own id and in one message, exactly when 1 MiB has been taken from
      it; otherwise nothing is said. */
  predicate Replenishes(s: State, t: State, id: U32, n: nat)
    requires id in s.conn.channels && s.conn.channels[id].remoteId.Some?
  {
    var ch := s.conn.channels[id];
    if ch.unadvertised + n >= 0x10_0000
    then ch.unadvertised + n <= U32_MAX && Says(s, t, Octet(93, Number(ch.remoteId.value, Number(ch.unadvertised + n, End))))
    else t.out == s.out
  }

  /** Data for an open, confirmed channel reaches the host whole, once, as output of the stream that the code
      names: 1 is stderr, and everything else is stdout. */
  lemma DataIsDelivered(c: Suite, s: State, m: Bytes, id: U32, data: Bytes)
    requires Reads(m, Octet(94, Number(id, Text(data, End)))) && Deliverable(s, id, data)
    ensures |m| > 0 && Dispatch(c, s, m).Fine?
    ensures var t := Dispatch(c, s, m).s;
            t.events == s.events + [ChannelData(id, Stdout, data)] && Replenishes(s, t, id, |data|)
  {
    hide Reads, GetU32, GetString, Dispatch, Connection.OnMessage, Connection.Deliver, React;
    OctetRead(m, 94, Number(id, Text(data, End)));
    NumberRead(m[1..], id, Text(data, End));
    var _ := TextRead(m[1..][4..], data, End);
    DataAreHandled(s.conn, m[1..]);
    ChannelMessageIsReact(c, s, m);
    DeliveryIsReported(c, s, id, Stdout, data);
  }

  lemma ExtendedIsDelivered(c: Suite, s: State, m: Bytes, id: U32, code: U32, data: Bytes)
    requires Reads(m, Octet(95, Number(id, Number(code, Text(data, End))))) && Deliverable(s, id, data)
    ensures |m| > 0 && Dispatch(c, s, m).Fine?
    ensures var t := Dispatch(c, s, m).s;
            && t.events == s.events + [ChannelData(id, if code == 1 then Stderr else Stdout, data)]
            && Replenishes(s, t, id, |data|)
  {
    hide Reads, GetU32, GetString, Dispatch, Connection.OnMessage, Connection.Deliver, React;
    OctetRead(m, 95, Number(id, Number(code, Text(data, End))));
    NumberRead(m[1..], id, Number(code, Text(data, End)));
    NumberRead(m[1..][4..], code, Text(data, End));
    var _ := TextRead(m[1..][4..][4..], data, End);
    DataAreHandled(s.conn, m[1..]);
    ChannelMessageIsReact(c, s, m);
    DeliveryIsReported(c, s, id, if code == 1 then Stderr else Stdout, data);
  }

  predicate Deliverable(s: State, id: U32, data: Bytes) {
    && Connection.AllSound(s.conn) && id in s.conn.channels && s.conn.channels[id].remoteId.Some?
    && s.out.cs.Some? && |data| <= Channel.MAX_DATA
  }

  lemma DataAreHandled(conn: Connection.Conn, r: Bytes)
    ensures Connection.OnMessage(conn, Channel.MSG_CHANNEL_DATA, r) == Connection.OnData(conn, r)
    ensures Connection.OnMessage(conn, Channel.MSG_CHANNEL_EXTENDED_DATA, r) == Connection.OnExtendedData(conn, r)
  {
    hide Connection.OnData, Connection.OnExtendedData;
  }

  lemma DeliveryIsReported(c: Suite, s: State, id: U32, stream: DataStream, data: Bytes)
    requires Deliverable(s, id, data)
    ensures var o := React(c, s, Connection.Deliver(s.conn, id, stream, data));
            o.Fine? && o.s.events == s.events + [ChannelData(id, stream, data)] && Replenishes(s, o.s, id, |data|)
  {
    hide Channel.AdjustMessage, React, Says;
    var ch := s.conn.channels[id];
    Channel.DeliveryConserves(ch, |data|);
    match Channel.OnDataConsumed(ch, |data|)
    case Quiet(d) => OneQuiet(c, s, s.conn.(channels := s.conn.channels[id := d]), ChannelData(id, stream, data));
    case Replenished(d, add, remote) =>
      DataIsRead(remote, [], add);
      OneReply(c, s, s.conn.(channels := s.conn.channels[id := d]), Channel.AdjustMessage(remote, add),
               [ChannelData(id, stream, data)], Octet(93, Number(remote, Number(add, End))));
    case DeliveryPanic =>
  }

  lemma OneQuiet(c: Suite, s: State, conn: Connection.Conn, e: Event)
    ensures React(c, s, Connection.Reacted(conn, [], [e])) == Fine(Raise(s.(conn := conn), e))
  {
    SendEachNone(c, s.out);
  }

  /** End of file on an open channel is reported. */
  lemma EofIsReported(c: Suite, s: State, m: Bytes, id: U32)
    requires Reads(m, Octet(96, Number(id, End)))
    ensures |m| > 0
    ensures if id !in s.conn.channels then Dispatch(c, s, m) == Failed(s, ChannelError)
            else
              var ch := s.conn.channels[id].(lifecycle := Channel.EofSent);
              Dispatch(c, s, m) == Fine(Raise(s.(conn := s.conn.(channels := s.conn.channels[id := ch])), ChannelEof(id)))
  {
    hide Reads, GetU32, Dispatch, Connection.OnMessage;
    OctetRead(m, 96, Number(id, End));
    NumberRead(m[1..], id, End);
    EndsAreHandled(s.conn, m[1..]);
    if id in s.conn.channels {
      OneEvent(c, s, m, Connection.OnEof(s.conn, m[1..]).conn, ChannelEof(id));
    } else {
      OneRefusal(c, s, m, ChannelError);
    }
  }

  /** A close is reported, and the channel forgotten; for a channel that is not open, too. */
  lemma CloseIsReported(c: Suite, s: State, m: Bytes, id: U32)
    requires Reads(m, Octet(97, Number(id, End)))
    ensures |m| > 0
    ensures Dispatch(c, s, m) == Fine(Raise(s.(conn := s.conn.(channels := s.conn.channels - {id})), ChannelClosed(id)))
  {
    hide Reads, GetU32, Dispatch, Connection.OnMessage;
    OctetRead(m, 97, Number(id, End));
    NumberRead(m[1..], id, End);
    EndsAreHandled(s.conn, m[1..]);
    OneEvent(c, s, m, s.conn.(channels := s.conn.channels - {id}), ChannelClosed(id));
  }

  lemma EndsAreHandled(conn: Connection.Conn, r: Bytes)
    ensures Connection.OnMessage(conn, Channel.MSG_CHANNEL_EOF, r) == Connection.OnEof(conn, r)
    ensures Connection.OnMessage(conn, Channel.MSG_CHANNEL_CLOSE, r) == Connection.OnClose(conn, r)
  {
    hide Connection.OnEof, Connection.OnClose;
  }

  // ---- opening (section 5.1) -----------------------------------------------------------------------------

  /** A refused open is reported with its reason and description, and the channel is forgotten. */
  lemma OpenFailureIsReported(c: Suite, s: State, m: Bytes, id: U32, reason: U32, description: Bytes, language: Bytes)
    requires Reads(m, Octet(92, Number(id, Number(reason, Text(description, Text(language, End))))))
    ensures |m| > 0
    ensures Dispatch(c, s, m) == Fine(Raise(s.(conn := s.conn.(channels := s.conn.channels - {id})),
                                            ChannelOpenFailed(id, reason, if Utf8.Valid(description) then description else [])))
  {
    hide Reads, GetU32, GetUtf8, Dispatch, Connection.OnMessage, Utf8.Valid;
    var f := Text(description, Text(language, End));
    OctetRead(m, 92, Number(id, Number(reason, f)));
    NumberRead(m[1..], id, Number(reason, f));
    NumberRead(m[1..][4..], reason, f);
    var _ := TextRead(m[1..][4..][4..], description, Text(language, End));
    OpenFailureIsHandled(s.conn, m[1..]);
    OneEvent(c, s, m, s.conn.(channels := s.conn.channels - {id}),
             ChannelOpenFailed(id, reason, if Utf8.Valid(description) then description else []));
  }

  lemma OpenFailureIsHandled(conn: Connection.Conn, r: Bytes)
    ensures Connection.OnMessage(conn, Channel.MSG_CHANNEL_OPEN_FAILURE, r) == Connection.OnOpenFailure(conn, r)
    ensures Connection.OnMessage(conn, Channel.MSG_CHANNEL_WINDOW_ADJUST, r) == Connection.OnAdjust(conn, r)
    ensures Connection.OnMessage(conn, Channel.MSG_CHANNEL_OPEN_CONFIRMATION, r) == Connection.OnConfirmationAndSetup(conn, r)
  {
    hide Connection.OnOpenFailure, Connection.OnAdjust, Connection.OnConfirmationAndSetup;
  }

  /** A window adjust adds to the window of that channel alone, up to the u32 ceiling, silently. */
  lemma AdjustIsTaken(c: Suite, s: State, m: Bytes, id: U32, add: U32)
    requires Reads(m, Octet(93, Number(id, Number(add, End)))) && id in s.conn.channels
    ensures |m| > 0
    ensures var ch := s.conn.channels[id];
            Dispatch(c, s, m)
            == Fine(s.(conn := s.conn.(channels :=
                 s.conn.channels[id := ch.(remoteWindow := Min(ch.remoteWindow + add, U32_MAX))])))
  {
    hide Reads, GetU32, Dispatch, Connection.OnMessage;
    OctetRead(m, 93, Number(id, Number(add, End)));
    NumberRead(m[1..], id, Number(add, End));
    NumberRead(m[1..][4..], add, End);
    OpenFailureIsHandled(s.conn, m[1..]);
    ChannelMessageIsReact(c, s, m);
    SilentReaction(c, s, Connection.OnAdjust(s.conn, m[1..]).conn);
  }

  /** What a confirmation makes of a channel: the server's id, window and packet size (at least 1). */
  predicate ConfirmedAs(ch: Channel.Channel, sender: U32, window: U32, maxPacket: U32) {
    && ch.remoteId == Some(sender) && ch.remoteWindow == window && ch.lifecycle == Channel.Open
    && ch.remoteMaxPacket == if maxPacket == 0 then 1 else maxPacket
  }

  lemma ConfirmationIsParsed(m: Bytes, id: U32, sender: U32, window: U32, maxPacket: U32)
    requires Reads(m, Octet(91, Number(id, Number(sender, Number(window, Number(maxPacket, End))))))
    ensures |m| > 0 && m[0] == Channel.MSG_CHANNEL_OPEN_CONFIRMATION
    ensures Connection.ParseConfirmation(m[1..]) == Ok(Connection.OpenConfirmation(id, sender, window, maxPacket))
  {
    hide Reads, GetU32;
    OctetRead(m, 91, Number(id, Number(sender, Number(window, Number(maxPacket, End)))));
    NumberRead(m[1..], id, Number(sender, Number(window, Number(maxPacket, End))));
    NumberRead(m[1..][4..], sender, Number(window, Number(maxPacket, End)));
    NumberRead(m[1..][4..][4..], window, Number(maxPacket, End));
    NumberRead(m[1..][4..][4..][4..], maxPacket, End);
  }

  /** What is left to ask for: the stored command or terminal, or their defaults (a second confirmation finds them
      gone). */
  function CommandFor(conn: Connection.Conn, id: U32): Bytes { if id in conn.pendingExec then conn.pendingExec[id] else [] }

  function TerminalFor(conn: Connection.Conn, id: U32): Connection.Pty {
    if id in conn.pendingPty then conn.pendingPty[id] else Connection.Pty(Ascii("xterm-256color"), 80, 24, 0, 0)
  }

  lemma ConfirmedReaction(conn: Connection.Conn, m: Bytes, id: U32, sender: U32, window: U32, maxPacket: U32)
    returns (next: Connection.Conn)
    requires Reads(m, Octet(91, Number(id, Number(sender, Number(window, Number(maxPacket, End))))))
    requires id in conn.channels && id in conn.setup
    requires !conn.setup[id].AwaitingShellReply?
    ensures |m| > 0 && m[0] == Channel.MSG_CHANNEL_OPEN_CONFIRMATION
    ensures id in next.channels && ConfirmedAs(next.channels[id], sender, window, maxPacket)
    ensures Connection.OnMessage(conn, m[0], m[1..])
            == Connection.Reacted(next,
                                  [if conn.setup[id].AwaitingExecReply? then Connection.ExecRequest(sender, CommandFor(conn, id))
                                   else Connection.PtyRequest(sender, TerminalFor(conn, id))],
                                  [ChannelOpened(id)])
  {
    hide Reads, Connection.ParseConfirmation, Connection.OnMessage, Connection.ExecRequest, Connection.PtyRequest;
    ConfirmationIsParsed(m, id, sender, window, maxPacket);
    OpenFailureIsHandled(conn, m[1..]);
    assert [] + [ChannelOpened(id)] == [ChannelOpened(id)];
    next := Connection.OnConfirmationAndSetup(conn, m[1..]).conn;
  }

  /** The confirmation of a channel that was opened for a command: the channel takes on the server's numbers, the
      host is told, and one exec request with the stored command goes to the server's id. */
  lemma ConfirmationRunsCommand(c: Suite, s: State, m: Bytes, id: U32, sender: U32, window: U32, maxPacket: U32)
    requires Reads(m, Octet(91, Number(id, Number(sender, Number(window, Number(maxPacket, End))))))
    requires id in s.conn.channels && id in s.conn.setup && s.conn.setup[id].AwaitingExecReply? && s.out.cs.Some?
    requires |CommandFor(s.conn, id)| < U32_LIMIT
    ensures |m| > 0 && Dispatch(c, s, m).Fine?
    ensures var t := Dispatch(c, s, m).s;
            && t.events == s.events + [ChannelOpened(id)]
            && id in t.conn.channels && ConfirmedAs(t.conn.channels[id], sender, window, maxPacket)
            && Says(s, t, Request(sender, Ascii("exec"), true, Text(CommandFor(s.conn, id), End)))
  {
    hide Reads, Dispatch, Connection.OnMessage, Connection.ExecRequest, Connection.PtyRequest, React, Ascii, Says,
         ConfirmedAs, Request, CommandFor;
    var next := ConfirmedReaction(s.conn, m, id, sender, window, maxPacket);
    ChannelMessageIsReact(c, s, m);
    var command := CommandFor(s.conn, id);
    ExecIsRead(sender, command);
    OneReply(c, s, next, Connection.ExecRequest(sender, command), [ChannelOpened(id)],
             Request(sender, Ascii("exec"), true, Text(command, End)));
  }

  /** Likewise for a shell: pty-req with the stored terminal. */
  lemma ConfirmationAsksForTerminal(c: Suite, s: State, m: Bytes, id: U32, sender: U32, window: U32, maxPacket: U32)
    requires Reads(m, Octet(91, Number(id, Number(sender, Number(window, Number(maxPacket, End))))))
    requires id in s.conn.channels && id in s.conn.setup && s.conn.setup[id].AwaitingPtyReply? && s.out.cs.Some?
    requires |TerminalFor(s.conn, id).term| < U32_LIMIT
    ensures |m| > 0 && Dispatch(c, s, m).Fine?
    ensures var t := Dispatch(c, s, m).s; var pty := TerminalFor(s.conn, id);
            && t.events == s.events + [ChannelOpened(id)]
            && id in t.conn.channels && ConfirmedAs(t.conn.channels[id], sender, window, maxPacket)
            && Says(s, t, Request(sender, Ascii("pty-req"), true, Text(pty.term, PtySize(pty))))
  {
    hide Reads, Dispatch, Connection.OnMessage, Connection.ExecRequest, Connection.PtyRequest, React, Ascii, Says,
         ConfirmedAs, Request, PtySize, TerminalFor;
    var next := ConfirmedReaction(s.conn, m, id, sender, window, maxPacket);
    ChannelMessageIsReact(c, s, m);
    var pty := TerminalFor(s.conn, id);
    PtyIsRead(sender, pty);
    OneReply(c, s, next, Connection.PtyRequest(sender, pty), [ChannelOpened(id)],
             Request(sender, Ascii("pty-req"), true, Text(pty.term, PtySize(pty))));
  }

  // ---- answers to our requests (section 5.4) ---------------------------------------------------------------

  lemma AnswersAreHandled(conn: Connection.Conn, r: Bytes)
    ensures Connection.OnMessage(conn, Channel.MSG_CHANNEL_SUCCESS, r) == Connection.OnReply(conn, r, true)
    ensures Connection.OnMessage(conn, Channel.MSG_CHANNEL_FAILURE, r) == Connection.OnReply(conn, r, false)
  {
    hide Connection.OnReply;
  }

  lemma GrantedReaction(conn: Connection.Conn, m: Bytes, id: U32)
    requires Reads(m, Octet(99, Number(id, End)))
    requires id in conn.setup && id in conn.channels && conn.channels[id].remoteId.Some?
    ensures |m| > 0 && m[0] == Channel.MSG_CHANNEL_SUCCESS
    ensures Connection.OnMessage(conn, m[0], m[1..])
            == if conn.setup[id].AwaitingPtyReply?
               then Connection.Reacted(conn.(setup := conn.setup[id := Connection.AwaitingShellReply]),
                                       [Connection.ShellRequest(conn.channels[id].remoteId.value)], [])
               else Connection.Reacted(conn.(setup := conn.setup - {id}), [], [])
  {
    hide Reads, GetU32, Connection.OnMessage, Connection.ShellRequest, Connection.ExecRequest, Connection.PtyRequest,
         Connection.DefaultPty;
    OctetRead(m, 99, Number(id, End));
    NumberRead(m[1..], id, End);
    AnswersAreHandled(conn, m[1..]);
  }

  /** A granted terminal is followed by the request for a shell; with the shell or the command granted, setup is
      over and nothing is said. */
  lemma GrantGoesOn(c: Suite, s: State, m: Bytes, id: U32)
    requires Reads(m, Octet(99, Number(id, End)))
    requires id in s.conn.setup && id in s.conn.channels && s.conn.channels[id].remoteId.Some? && s.out.cs.Some?
    ensures |m| > 0 && Dispatch(c, s, m).Fine?
    ensures var t := Dispatch(c, s, m).s;
            if s.conn.setup[id].AwaitingPtyReply?
            then
              && Says(s, t, Request(s.conn.channels[id].remoteId.value, Ascii("shell"), true, End))
              && t.events == s.events && t.conn == s.conn.(setup := s.conn.setup[id := Connection.AwaitingShellReply])
            else t == s.(conn := s.conn.(setup := s.conn.setup - {id}))
  {
    hide Reads, Dispatch, Connection.OnMessage, Connection.ShellRequest, React, Ascii, Says, Request;
    GrantedReaction(s.conn, m, id);
    ChannelMessageIsReact(c, s, m);
    var remote := s.conn.channels[id].remoteId.value;
    if s.conn.setup[id].AwaitingPtyReply? {
      ShellIsRead(remote);
      OneReply(c, s, s.conn.(setup := s.conn.setup[id := Connection.AwaitingShellReply]),
               Connection.ShellRequest(remote), [],
               Request(remote, Ascii("shell"), true, End));
      assert s.events + [] == s.events;
    } else {
      SilentReaction(c, s, s.conn.(setup := s.conn.setup - {id}));
    }
  }

  lemma SilentReaction(c: Suite, s: State, conn: Connection.Conn)
    ensures React(c, s, Connection.Reacted(conn, [], [])) == Fine(s.(conn := conn))
  {
    SendEachNone(c, s.out);
    assert s.events + [] == s.events;
  }

  /** A refused request closes the channel towards the server, forgets it, and tells the host why. */
  lemma RefusalIsReported(c: Suite, s: State, m: Bytes, id: U32)
    requires Reads(m, Octet(100, Number(id, End)))
    requires id in s.conn.setup && id in s.conn.channels && s.conn.channels[id].remoteId.Some? && s.out.cs.Some?
    ensures |m| > 0 && Dispatch(c, s, m).Fine?
    ensures var t := Dispatch(c, s, m).s;
            && Says(s, t, Octet(97, Number(s.conn.channels[id].remoteId.value, End)))
            && t.events == s.events + [ChannelOpenFailed(id, 0, Connection.ClosedDescription())]
            && t.conn == s.conn.(setup := s.conn.setup - {id}, channels := s.conn.channels - {id})
  {
    hide Reads, GetU32, Dispatch, Connection.OnMessage, React, Ascii, Says, Channel.IdMessage;
    OctetRead(m, 100, Number(id, End));
    NumberRead(m[1..], id, End);
    AnswersAreHandled(s.conn, m[1..]);
    ChannelMessageIsReact(c, s, m);
    var remote := s.conn.channels[id].remoteId.value;
    DataIsRead(remote, [], 0);
    OneReply(c, s, s.conn.(setup := s.conn.setup - {id}, channels := s.conn.channels - {id}),
             Channel.IdMessage(Channel.MSG_CHANNEL_CLOSE, remote),
             [ChannelOpenFailed(id, 0, Connection.ClosedDescription())], Octet(97, Number(remote, End)));
  }
}
