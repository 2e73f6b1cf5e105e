/** The channel table (ssh-core/src/connection/mod.rs) and the multi-step channel setup that
    ssh-core/src/session.rs drives on top of it. */
module Connection {
  import opened Prelude
  import opened Wire
  import opened Events
  import opened Channel

  datatype SetupStep = AwaitingExecReply | AwaitingPtyReply | AwaitingShellReply

  datatype Pty = Pty(term: Bytes, cols: U32, rows: U32, pixelWidth: U32, pixelHeight: U32)

  function DefaultPty(): Pty { Pty(Ascii("xterm-256color"), 80, 24, 0, 0) }

  /** `channels`, `next_id`, and the session's three setup maps. */
  datatype Conn = Conn(
    channels: map<U32, Channel>,
    nextId: U32,
    setup: map<U32, SetupStep>,
    pendingExec: map<U32, Bytes>,
    pendingPty: map<U32, Pty>)

  const EMPTY := Conn(map[], 0, map[], map[], map[])

  /** What a handler does: new tables, messages to send and events to raise; or a fatal error; or a
      panic. Errors and panics happen before the tables change. */
  datatype Reaction =
    | Reacted(conn: Conn, sends: seq<Bytes>, events: seq<Event>)
    | Refused(error: SshError)
    | Panicked

  // ---- request messages (exec.rs, pty.rs) ----------------------------------------------------------

  function NameExec(): Bytes { Ascii("exec") }
  function NamePty(): Bytes { Ascii("pty-req") }
  function NameShell(): Bytes { Ascii("shell") }
  function NameWindowChange(): Bytes { Ascii("window-change") }
  function NameExitStatus(): Bytes { Ascii("exit-status") }
  function NameExitSignal(): Bytes { Ascii("exit-signal") }

  function ExecRequest(remoteId: U32, command: Bytes): Bytes {
    RequestMessage(remoteId, NameExec(), true, Str(command))
  }

  function PtyRequest(remoteId: U32, pty: Pty): Bytes {
    RequestMessage(remoteId, NamePty(), true,
      Str(pty.term) + (U32Be(pty.cols) + (U32Be(pty.rows) + (U32Be(pty.pixelWidth) + (U32Be(pty.pixelHeight) + Str([]))))))
  }

  function ShellRequest(remoteId: U32): Bytes { RequestMessage(remoteId, NameShell(), true, []) }

  function WindowChangeRequest(remoteId: U32, cols: U32, rows: U32): Bytes {
    RequestMessage(remoteId, NameWindowChange(), false, U32Be(cols) + (U32Be(rows) + (U32Be(0) + U32Be(0))))
  }

  // ---- host calls ----------------------------------------------------------------------------------

  /** `ChannelTable::open`: the id wraps, and an old entry under it is replaced. */
  function Opened(conn: Conn, kind: Kind): Conn {
    conn.(channels := conn.channels[conn.nextId := New(conn.nextId, kind)],
          nextId := (conn.nextId + 1) % U32_LIMIT)
  }

  function OpenExec(conn: Conn, command: Bytes): Conn {
    Opened(conn, Exec).(setup := conn.setup[conn.nextId := AwaitingExecReply],
                        pendingExec := conn.pendingExec[conn.nextId := command])
  }

  function OpenShell(conn: Conn, pty: Pty): Conn {
    Opened(conn, Shell).(setup := conn.setup[conn.nextId := AwaitingPtyReply],
                         pendingPty := conn.pendingPty[conn.nextId := pty])
  }

  function ChannelSend(conn: Conn, id: U32, data: Bytes): Reaction {
    if id !in conn.channels then Reacted(conn, [], [])
    else
      match SendData(conn.channels[id], data)
      case None => Panicked
      case Some(s) =>
        Reacted(conn.(channels := conn.channels[id := s.ch]), s.messages,
                if s.consumed < |data| then [ChannelWindowFull(id)] else [])
  }

  /** What `channel_send` returns. */
  function Accepted(conn: Conn, id: U32, data: Bytes): nat {
    if id !in conn.channels then 0
    else match SendData(conn.channels[id], data) case None => 0 case Some(s) => s.consumed
  }

  function RemoteId(conn: Conn, id: U32): Option<U32> {
    if id in conn.channels then conn.channels[id].remoteId else None
  }

  function ResizePty(conn: Conn, id: U32, cols: U32, rows: U32): Reaction {
    match RemoteId(conn, id)
    case None => Reacted(conn, [], [])
    case Some(remote) => Reacted(conn, [WindowChangeRequest(remote, cols, rows)], [])
  }

  function CloseChannel(conn: Conn, id: U32): Reaction {
    match RemoteId(conn, id)
    case None => Reacted(conn, [], [])
    case Some(remote) => Reacted(conn, [IdMessage(MSG_CHANNEL_CLOSE, remote)], [])
  }

  // ---- `ChannelTable::handle_message`, one function per message ----------------------------------------

  datatype OpenConfirmation = OpenConfirmation(id: U32, sender: U32, window: U32, maxPacket: U32)

  /** Fields behind the message type. */
  function ParseConfirmation(r: Bytes): Result<OpenConfirmation> {
    var (id, r1) :- GetU32(r);
    var (sender, r2) :- GetU32(r1);
    var (window, r3) :- GetU32(r2);
    var (maxPacket, _) :- GetU32(r3);
    Ok(OpenConfirmation(id, sender, window, maxPacket))
  }

  function OnConfirmation(conn: Conn, r: Bytes): Reaction {
    match ParseConfirmation(r)
    case Err(e) => Refused(e)
    case Ok(m) =>
      if m.id !in conn.channels then Refused(ChannelError)
      else
        var ch := OnOpenConfirmation(conn.channels[m.id], m.sender, m.window, m.maxPacket);
        Reacted(conn.(channels := conn.channels[m.id := ch]), [], [ChannelOpened(m.id)])
  }

  /** An optional trailing description: anything unreadable becomes the empty string. */
  function DescriptionOr(r: Bytes): Bytes {
    match GetUtf8(r) case Ok((s, _)) => s case Err(_) => []
  }

  /** A channel id and a number, and what follows them. */
  function ParseIdAndNumber(r: Bytes): Result<(U32, U32, Bytes)> {
    var (id, r1) :- GetU32(r);
    var (n, r2) :- GetU32(r1);
    Ok((id, n, r2))
  }

  function OnOpenFailure(conn: Conn, r: Bytes): Reaction {
    match ParseIdAndNumber(r)
    case Err(e) => Refused(e)
    case Ok((id, reason, r2)) =>
      Reacted(conn.(channels := conn.channels - {id}), [], [ChannelOpenFailed(id, reason, DescriptionOr(r2))])
  }

  function OnAdjust(conn: Conn, r: Bytes): Reaction {
    match ParseIdAndNumber(r)
    case Err(e) => Refused(e)
    case Ok((id, add, _)) =>
      if id !in conn.channels then Refused(ChannelError)
      else Reacted(conn.(channels := conn.channels[id := OnWindowAdjust(conn.channels[id], add)]), [], [])
  }

  /** Data for a known channel: deliver it and replenish the window when the threshold is crossed. */
  function Deliver(conn: Conn, id: U32, stream: DataStream, data: Bytes): Reaction {
    if id !in conn.channels then Refused(ChannelError)
    else
      match OnDataConsumed(conn.channels[id], |data| % U32_LIMIT)
      case DeliveryPanic => Panicked
      case Quiet(ch) =>
        Reacted(conn.(channels := conn.channels[id := ch]), [], [ChannelData(id, stream, data)])
      case Replenished(ch, add, remote) =>
        Reacted(conn.(channels := conn.channels[id := ch]), [AdjustMessage(remote, add)],
                [ChannelData(id, stream, data)])
  }

  function ParseIdAndData(r: Bytes): (p: Result<(U32, Bytes)>)
    ensures p.Ok? ==> |p.value.1| <= |r|
  {
    var (id, r1) :- GetU32(r);
    var (data, _) :- GetString(r1);
    Ok((id, data))
  }

  function OnData(conn: Conn, r: Bytes): Reaction {
    match ParseIdAndData(r)
    case Err(e) => Refused(e)
    case Ok((id, data)) => Deliver(conn, id, Stdout, data)
  }

  function ParseExtended(r: Bytes): (p: Result<(U32, U32, Bytes)>)
    ensures p.Ok? ==> |p.value.2| <= |r|
  {
    var (id, code, r2) :- ParseIdAndNumber(r);
    var (data, _) :- GetString(r2);
    Ok((id, code, data))
  }

  function StreamOf(code: U32): DataStream { if code == SSH_EXTENDED_DATA_STDERR then Stderr else Stdout }

  function OnExtendedData(conn: Conn, r: Bytes): Reaction {
    match ParseExtended(r)
    case Err(e) => Refused(e)
    case Ok((id, code, data)) => Deliver(conn, id, StreamOf(code), data)
  }

  function OnEof(conn: Conn, r: Bytes): Reaction {
    match GetU32(r)
    case Err(e) => Refused(e)
    case Ok((id, _)) =>
      if id !in conn.channels then Refused(ChannelError)
      else Reacted(conn.(channels := conn.channels[id := conn.channels[id].(lifecycle := EofSent)]), [], [ChannelEof(id)])
  }

  function OnClose(conn: Conn, r: Bytes): Reaction {
    match GetU32(r)
    case Err(e) => Refused(e)
    case Ok((id, _)) => Reacted(conn.(channels := conn.channels - {id}), [], [ChannelClosed(id)])
  }

  datatype ServerRequest = ServerRequest(id: U32, name: Bytes, wantReply: bool, fields: Bytes)

  function ParseServerRequest(r: Bytes): Result<ServerRequest> {
    var (id, r1) :- GetU32(r);
    var (name, r2) :- GetUtf8(r1);
    var (wantReply, r3) :- GetBool(r2);
    Ok(ServerRequest(id, name, wantReply, r3))
  }

  function OnRequest(conn: Conn, r: Bytes): Reaction {
    match ParseServerRequest(r)
    case Err(e) => Refused(e)
    case Ok(m) =>
      if m.id !in conn.channels then Refused(ChannelError)
      else if m.name == NameExitStatus() then
        match GetU32(m.fields)
        case Err(e) => Refused(e)
        case Ok((code, _)) => Reacted(conn, [], [ChannelExitStatus(m.id, Some(code), None)])
      else if m.name == NameExitSignal() then
        match GetUtf8(m.fields)
        case Err(e) => Refused(e)
        case Ok((signal, _)) => Reacted(conn, [], [ChannelExitStatus(m.id, None, Some(signal))])
      else if !m.wantReply then Reacted(conn, [], [])
      else
        match conn.channels[m.id].remoteId
        case None => Panicked
        case Some(remote) => Reacted(conn, [IdMessage(MSG_CHANNEL_FAILURE, remote)], [])
  }

  // ---- channel setup -----------------------------------------------------------------------------------

  function ClosedDescription(): Bytes { Ascii("channel setup request failed") }

  /** A refused setup request: the channel is dropped, closed towards the peer, and reported. */
  function Abandon(conn: Conn, id: U32): Reaction {
    Reacted(conn.(setup := conn.setup - {id}, channels := conn.channels - {id}),
            match RemoteId(conn, id)
            case None => []
            case Some(remote) => [IdMessage(MSG_CHANNEL_CLOSE, remote)],
            [ChannelOpenFailed(id, 0, ClosedDescription())])
  }

  /** `continue_channel_setup`: `None` right after the confirmation, `Some(success)` for a reply. */
  function ContinueSetup(conn: Conn, id: U32, reply: Option<bool>): Reaction {
    if id !in conn.setup then Reacted(conn, [], [])
    else if reply == Some(false) then Abandon(conn, id)
    else
      match RemoteId(conn, id)
      case None => Panicked
      case Some(remote) =>
        match conn.setup[id]
        case AwaitingExecReply =>
          if reply.None? then
            Reacted(conn.(pendingExec := conn.pendingExec - {id}),
                    [ExecRequest(remote, if id in conn.pendingExec then conn.pendingExec[id] else [])], [])
          else Reacted(conn.(setup := conn.setup - {id}), [], [])
        case AwaitingPtyReply =>
          if reply.None? then
            Reacted(conn.(pendingPty := conn.pendingPty - {id}),
                    [PtyRequest(remote, if id in conn.pendingPty then conn.pendingPty[id] else DefaultPty())], [])
          else Reacted(conn.(setup := conn.setup[id := AwaitingShellReply]), [ShellRequest(remote)], [])
        case AwaitingShellReply => Reacted(conn.(setup := conn.setup - {id}), [], [])
  }

  /** CHANNEL_SUCCESS / CHANNEL_FAILURE. */
  function OnReply(conn: Conn, r: Bytes, success: bool): Reaction {
    match GetU32(r)
    case Err(e) => Refused(e)
    case Ok((id, _)) => ContinueSetup(conn, id, Some(success))
  }

  /** A confirmation is followed at once by the first setup request. */
  function OnConfirmationAndSetup(conn: Conn, r: Bytes): Reaction {
    match OnConfirmation(conn, r)
    case Reacted(conn', _, events) =>
      (match ContinueSetup(conn', ParseConfirmation(r).value.id, None)
       case Reacted(conn'', sends, more) => Reacted(conn'', sends, more + events)
       case other => other)
    case other => other
  }

  predicate IsChannelMessage(msg: Byte) { MSG_CHANNEL_OPEN_CONFIRMATION <= msg <= MSG_CHANNEL_FAILURE }

  /** Every channel message the session dispatches; `r` is the payload behind the message type. */
  function OnMessage(conn: Conn, msg: Byte, r: Bytes): Reaction
    requires IsChannelMessage(msg)
  {
    if msg == MSG_CHANNEL_OPEN_CONFIRMATION then OnConfirmationAndSetup(conn, r)
    else if msg == MSG_CHANNEL_OPEN_FAILURE then OnOpenFailure(conn, r)
    else if msg == MSG_CHANNEL_WINDOW_ADJUST then OnAdjust(conn, r)
    else if msg == MSG_CHANNEL_DATA then OnData(conn, r)
    else if msg == MSG_CHANNEL_EXTENDED_DATA then OnExtendedData(conn, r)
    else if msg == MSG_CHANNEL_EOF then OnEof(conn, r)
    else if msg == MSG_CHANNEL_CLOSE then OnClose(conn, r)
    else if msg == MSG_CHANNEL_REQUEST then OnRequest(conn, r)
    else OnReply(conn, r, msg == MSG_CHANNEL_SUCCESS)
  }

  // ---- what every peer keeps -----------------------------------------------------------------------------

  predicate AllSound(conn: Conn) {
    forall id | id in conn.channels :: Sound(conn.channels[id]) && conn.channels[id].localId == id
  }

  lemma DeliverKeepsSound(conn: Conn, id: U32, stream: DataStream, data: Bytes)
    requires AllSound(conn) && |data| <= MAX_DATA
    ensures Deliver(conn, id, stream, data).Reacted? ==> AllSound(Deliver(conn, id, stream, data).conn)
  {
    if id in conn.channels {
      DeliveryConserves(conn.channels[id], |data|);
    }
  }

  ghost predicate SoundAfter(r: Reaction) { r.Reacted? ==> AllSound(r.conn) }

  lemma SetupKeepsSound(conn: Conn, id: U32, reply: Option<bool>)
    requires AllSound(conn)
    ensures SoundAfter(ContinueSetup(conn, id, reply))
  {
    hide ExecRequest, PtyRequest, ShellRequest, IdMessage, Ascii, DefaultPty;
  }

  lemma ConfirmationKeepsSound(conn: Conn, r: Bytes)
    requires AllSound(conn)
    ensures SoundAfter(OnConfirmationAndSetup(conn, r))
  {
    hide ParseConfirmation, ContinueSetup;
    match ParseConfirmation(r)
    case Err(_) =>
    case Ok(m) =>
      if m.id in conn.channels {
        var ch := OnOpenConfirmation(conn.channels[m.id], m.sender, m.window, m.maxPacket);
        assert Sound(ch);
        SetupKeepsSound(conn.(channels := conn.channels[m.id := ch]), m.id, None);
      }
  }

  lemma TableMessageKeepsSound(conn: Conn, r: Bytes)
    requires AllSound(conn)
    ensures SoundAfter(OnOpenFailure(conn, r)) && SoundAfter(OnAdjust(conn, r))
    ensures SoundAfter(OnEof(conn, r)) && SoundAfter(OnClose(conn, r))
  {
    hide ParseIdAndNumber, GetU32, DescriptionOr;
  }

  lemma RequestKeepsSound(conn: Conn, r: Bytes)
    requires AllSound(conn)
    ensures SoundAfter(OnRequest(conn, r))
  {
    hide ParseServerRequest, GetU32, GetUtf8, IdMessage, NameExitStatus, NameExitSignal, AllSound;
  }

  lemma DataKeepsSound(conn: Conn, r: Bytes)
    requires AllSound(conn) && |r| <= MAX_DATA
    ensures SoundAfter(OnData(conn, r)) && SoundAfter(OnExtendedData(conn, r))
  {
    hide Deliver, ParseIdAndData, ParseExtended;
    match ParseIdAndData(r) {
      case Err(_) =>
      case Ok((id, data)) => DeliverKeepsSound(conn, id, Stdout, data);
    }
    match ParseExtended(r) {
      case Err(_) =>
      case Ok((id, code, data)) => DeliverKeepsSound(conn, id, StreamOf(code), data);
    }
  }

  /** Any message from any peer, no longer than a packet, keeps every channel sound. */
  lemma MessageKeepsSound(conn: Conn, msg: Byte, r: Bytes)
    requires AllSound(conn) && IsChannelMessage(msg) && |r| <= MAX_DATA
    ensures SoundAfter(OnMessage(conn, msg, r))
  {
    hide SoundAfter, ContinueSetup, OnConfirmationAndSetup, OnOpenFailure, OnAdjust, OnEof, OnClose, OnRequest, OnData,
         OnExtendedData, AllSound;
    ConfirmationKeepsSound(conn, r);
    TableMessageKeepsSound(conn, r);
    DataKeepsSound(conn, r);
    RequestKeepsSound(conn, r);
    ReplyKeepsSound(conn, r, msg == MSG_CHANNEL_SUCCESS);
  }

  lemma ReplyKeepsSound(conn: Conn, r: Bytes, success: bool)
    requires AllSound(conn)
    ensures SoundAfter(OnReply(conn, r, success))
  {
    hide ContinueSetup, GetU32;
    match GetU32(r)
    case Err(_) =>
    case Ok((id, _)) => SetupKeepsSound(conn, id, Some(success));
  }

  lemma ChannelSendKeepsSound(conn: Conn, id: U32, data: Bytes)
    requires AllSound(conn)
    ensures ChannelSend(conn, id, data).Reacted? && AllSound(ChannelSend(conn, id, data).conn)
  {
    hide SendData;
    if id in conn.channels {
      SendDataExact(conn.channels[id], data);
    }
  }

  // ---- what is sent --------------------------------------------------------------------------------------

  predicate AboutChannels(m: Bytes) { |m| > 0 && MSG_CHANNEL_OPEN <= m[0] <= MSG_CHANNEL_FAILURE }

  predicate AllAboutChannels(sends: seq<Bytes>) { forall i :: 0 <= i < |sends| ==> AboutChannels(sends[i]) }

  ghost predicate SendsAboutChannels(r: Reaction) { r.Reacted? ==> AllAboutChannels(r.sends) }

  lemma SetupSends(conn: Conn, id: U32, reply: Option<bool>)
    ensures SendsAboutChannels(ContinueSetup(conn, id, reply))
  {
    hide Str, Ascii, DefaultPty, NameExec, NamePty, NameShell;
  }

  lemma TableSends(conn: Conn, r: Bytes)
    ensures SendsAboutChannels(OnOpenFailure(conn, r)) && SendsAboutChannels(OnAdjust(conn, r))
    ensures SendsAboutChannels(OnEof(conn, r)) && SendsAboutChannels(OnClose(conn, r))
    ensures SendsAboutChannels(OnData(conn, r)) && SendsAboutChannels(OnExtendedData(conn, r))
    ensures SendsAboutChannels(OnRequest(conn, r))
  {
    hide ParseIdAndNumber, ParseIdAndData, ParseExtended, ParseServerRequest, DescriptionOr, OnDataConsumed, GetU32,
         GetUtf8, NameExitStatus, NameExitSignal;
  }

  /** Whatever a peer says about channels is answered with messages about channels only. */
  lemma MessageSends(conn: Conn, msg: Byte, r: Bytes)
    requires IsChannelMessage(msg)
    ensures SendsAboutChannels(OnMessage(conn, msg, r))
  {
    hide OnOpenFailure, OnAdjust, OnEof, OnClose, OnData, OnExtendedData, OnRequest, ContinueSetup, OnConfirmation;
    TableSends(conn, r);
    ConfirmationSends(conn, r);
    ReplySends(conn, r, msg == MSG_CHANNEL_SUCCESS);
  }

  lemma ConfirmationSends(conn: Conn, r: Bytes)
    ensures SendsAboutChannels(OnConfirmationAndSetup(conn, r))
  {
    hide ContinueSetup, ParseConfirmation;
    if OnConfirmation(conn, r).Reacted? {
      SetupSends(OnConfirmation(conn, r).conn, ParseConfirmation(r).value.id, None);
    }
  }

  lemma ReplySends(conn: Conn, r: Bytes, success: bool)
    ensures SendsAboutChannels(OnReply(conn, r, success))
  {
    hide ContinueSetup, GetU32;
    match GetU32(r)
    case Err(_) =>
    case Ok((id, _)) => SetupSends(conn, id, Some(success));
  }

  /** So are the host's calls on a channel. */
  lemma CallSends(conn: Conn, id: U32, data: Bytes, cols: U32, rows: U32)
    ensures SendsAboutChannels(ChannelSend(conn, id, data)) && SendsAboutChannels(ResizePty(conn, id, cols, rows))
    ensures SendsAboutChannels(CloseChannel(conn, id))
  {
    hide SendData;
    if id in conn.channels { DataSends(conn.channels[id], data); }
  }

  lemma {:induction false} DataSends(ch: Channel, data: Bytes)
    ensures SendData(ch, data).Some? ==> AllAboutChannels(SendData(ch, data).value.messages)
    decreases |data|
  {
    var n := ChunkLen(ch, |data|);
    if n > 0 { DataSends(ch.(remoteWindow := ch.remoteWindow - n), data[n..]); }
  }
}
