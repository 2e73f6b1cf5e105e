/** Flow-control accounts over whole runs of the connection layer, for any peer and any host. */
module ChannelLedgers {
  import opened Prelude
  import opened Wire
  import opened Events
  import opened Channel
  import opened Connection

  /** Everything that happens at the connection layer: a channel message, or a host call. */
  datatype Action =
    | Message(msg: Byte, rest: Bytes)
    | HostExec(command: Bytes)
    | HostShell(pty: Pty)
    | HostSend(id: U32, data: Bytes)
    | HostResize(id: U32, cols: U32, rows: U32)
    | HostClose(id: U32)

  /** A message that fits into a packet. */
  predicate WellSized(a: Action) { a.Message? ==> IsChannelMessage(a.msg) && |a.rest| <= MAX_DATA }

  function ReactionTo(conn: Conn, a: Action): Reaction
    requires WellSized(a)
  {
    match a
    case Message(msg, rest) => OnMessage(conn, msg, rest)
    case HostExec(command) => Reacted(OpenExec(conn, command), [OpenMessage(conn.nextId)], [])
    case HostShell(pty) => Reacted(OpenShell(conn, pty), [OpenMessage(conn.nextId)], [])
    case HostSend(id, data) => ChannelSend(conn, id, data)
    case HostResize(id, cols, rows) => ResizePty(conn, id, cols, rows)
    case HostClose(id) => CloseChannel(conn, id)
  }

  // ---- what the peer reads -------------------------------------------------------------------------

  /** Window granted by one message to the peer's channel `remote`, as the peer parses it. */
  function GrantIn(m: Bytes, remote: U32): nat {
    if |m| > 0 && m[0] == MSG_CHANNEL_WINDOW_ADJUST then
      match ParseIdAndNumber(m[1..])
      case Ok((id, add, _)) => if id == remote then add else 0
      case Err(_) => 0
    else 0
  }

  /** Data bytes carried by one message to the peer's channel `remote`. */
  function DataIn(m: Bytes, remote: U32): nat {
    if |m| > 0 && m[0] == MSG_CHANNEL_DATA then
      match ParseData(m)
      case Ok((id, data)) => if id == remote then |data| else 0
      case Err(_) => 0
    else if |m| > 0 && m[0] == MSG_CHANNEL_EXTENDED_DATA then
      match ParseExtended(m[1..])
      case Ok((id, _, data)) => if id == remote then |data| else 0
      case Err(_) => 0
    else 0
  }

  /** The window announced by one message for the opener's channel `id`. */
  function WindowIn(m: Bytes, id: U32): nat {
    if |m| > 0 && m[0] == MSG_CHANNEL_OPEN then
      match ParseOpening(m)
      case Ok(o) => if o.sender == id then o.window else 0
      case Err(_) => 0
    else 0
  }

  function Announced(sends: seq<Bytes>, id: U32): nat {
    if sends == [] then 0 else WindowIn(sends[0], id) + Announced(sends[1..], id)
  }

  function Granted(sends: seq<Bytes>, remote: U32): nat {
    if sends == [] then 0 else GrantIn(sends[0], remote) + Granted(sends[1..], remote)
  }

  function Carried(sends: seq<Bytes>, remote: U32): nat {
    if sends == [] then 0 else DataIn(sends[0], remote) + Carried(sends[1..], remote)
  }

  /** The most data bytes that any one message carries to the peer's channel `remote`. */
  function Largest(sends: seq<Bytes>, remote: U32): nat {
    if sends == [] then 0 else Max(DataIn(sends[0], remote), Largest(sends[1..], remote))
  }

  // ---- the account -----------------------------------------------------------------------------------

  /** One channel's account. Receiving side: the window announced in the OPEN, data bytes that arrived, and
      bytes granted back in WINDOW_ADJUST messages addressed to the channel's peer. Sending side, since the
      last confirmation: data bytes in messages addressed to the channel's peer, in all and at most in one of
      them; what the peer allowed (its initial window plus its adjusts) and the packet size it announced;
      `capped` records that an adjust hit the u32 ceiling. */
  datatype Account = Account(announced: nat, received: nat, granted: nat, sent: nat, largest: nat, allowed: nat, limit: nat,
                             capped: bool)

  const NEW_ACCOUNT := Account(0, 0, 0, 0, 0, 0, 0, false)

  /** The channel whose data an action moves. */
  function Mover(a: Action): Option<U32> {
    match a
    case HostSend(id, _) => Some(id)
    case Message(msg, rest) =>
      if msg == MSG_CHANNEL_DATA then match ParseIdAndData(rest) case Ok((id, _)) => Some(id) case Err(_) => None
      else if msg == MSG_CHANNEL_EXTENDED_DATA then match ParseExtended(rest) case Ok((id, _, _)) => Some(id) case Err(_) => None
      else None
    case _ => None
  }

  /** The peer id under which messages count for channel `id`. A peer may have given two channels the same
      id; then what an action moves on the other channel is the other's. */
  function Address(conn: Conn, id: U32, a: Action): Option<U32> {
    if Mover(a).Some? && Mover(a).value != id && RemoteId(conn, Mover(a).value) == RemoteId(conn, id) then None
    else RemoteId(conn, id)
  }

  function Credited(acct: Account, address: Option<U32>, sends: seq<Bytes>): Account {
    match address
    case None => acct
    case Some(remote) =>
      acct.(granted := acct.granted + Granted(sends, remote), sent := acct.sent + Carried(sends, remote),
            largest := Max(acct.largest, Largest(sends, remote)))
  }

  /** A confirmation starts the sending side afresh. */
  function Renewed(acct: Account, m: OpenConfirmation): Account {
    acct.(sent := 0, largest := 0, allowed := m.window, limit := m.maxPacket, capped := false)
  }

  /** The peer's side of one action. */
  function Heard(conn: Conn, id: U32, acct: Account, a: Action): Account {
    match a
    case Message(msg, rest) =>
      if msg == MSG_CHANNEL_OPEN_CONFIRMATION then
        match ParseConfirmation(rest)
        case Ok(m) => if m.id == id then Renewed(acct, m) else acct
        case Err(_) => acct
      else if msg == MSG_CHANNEL_WINDOW_ADJUST then
        match ParseIdAndNumber(rest)
        case Ok((to, add, _)) =>
          if to == id && to in conn.channels
          then acct.(allowed := acct.allowed + add, capped := acct.capped || conn.channels[to].remoteWindow + add > U32_MAX)
          else acct
        case Err(_) => acct
      else if msg == MSG_CHANNEL_DATA then
        match ParseIdAndData(rest)
        case Ok((to, data)) => if to == id then acct.(received := acct.received + |data|) else acct
        case Err(_) => acct
      else if msg == MSG_CHANNEL_EXTENDED_DATA then
        match ParseExtended(rest)
        case Ok((to, _, data)) => if to == id then acct.(received := acct.received + |data|) else acct
        case Err(_) => acct
      else acct
    case _ => acct
  }

  /** The host opens channel `id`. */
  predicate Begins(conn: Conn, id: U32, a: Action) { (a.HostExec? || a.HostShell?) && conn.nextId == id }

  /** Keep the account of channel `id` through one action: credit whatever was sent, whatever the action
      was, and then note what was heard. The account begins with what the OPEN for the channel announces. */
  function Book(conn: Conn, id: U32, acct: Account, a: Action): Account
    requires WellSized(a)
  {
    var r := ReactionTo(conn, a);
    if !r.Reacted? then acct
    else if Begins(conn, id, a) then NEW_ACCOUNT.(announced := Announced(r.sends, id))
    else Heard(conn, id, Credited(acct, Address(conn, id, a), r.sends), a)
  }

  /** The sending side balances: bytes sent and the remaining window never exceed what was allowed, with
      equality exactly when no adjust was capped, and no message carries more than the peer's packet size
      (at least 1). */
  ghost predicate SendingBalanced(ch: Channel, acct: Account) {
    && acct.sent + ch.remoteWindow <= acct.allowed
    && (acct.sent + ch.remoteWindow == acct.allowed <==> !acct.capped)
    && acct.largest <= Max(acct.limit, 1) == ch.remoteMaxPacket
  }

  /** The accounts balance. Receiving: announced + granted - received is the local window. */
  ghost predicate Balanced(conn: Conn, id: U32, acct: Account) {
    id in conn.channels ==>
      var ch := conn.channels[id];
      && acct.announced == INITIAL_WINDOW_SIZE
      && acct.announced + acct.granted - acct.received == ch.localWindow
      && (ch.remoteId.Some? ==> SendingBalanced(ch, acct))
  }

  // ---- messages that move no window --------------------------------------------------------------------

  predicate Moves(m: Bytes) { |m| > 0 && MSG_CHANNEL_WINDOW_ADJUST <= m[0] <= MSG_CHANNEL_EXTENDED_DATA }

  predicate Still(sends: seq<Bytes>) { forall i :: 0 <= i < |sends| ==> !Moves(sends[i]) }

  lemma {:induction false} StillCreditsNothing(acct: Account, address: Option<U32>, sends: seq<Bytes>)
    requires Still(sends)
    ensures Credited(acct, address, sends) == acct
  {
    if address.Some? && sends != [] {
      assert !Moves(sends[0]);
      forall i | 0 <= i < |sends[1..]| ensures !Moves(sends[1..][i]) { assert sends[1..][i] == sends[i + 1]; }
      StillCreditsNothing(acct, address, sends[1..]);
    }
  }

  lemma AdjustIsGranted(remote: U32, add: U32, to: U32)
    ensures Granted([AdjustMessage(remote, add)], to) == (if to == remote then add else 0)
    ensures Carried([AdjustMessage(remote, add)], to) == 0 && Largest([AdjustMessage(remote, add)], to) == 0
  {
    hide U32Be, GetU32;
    var m := AdjustMessage(remote, add);
    assert m[1..] == U32Be(remote) + U32Be(add);
    assert U32Be(add) + [] == U32Be(add);
    U32RoundTrip(remote, U32Be(add));
    U32RoundTrip(add, []);
    assert [m][1..] == [];
  }

  /** Data messages count in full for the channel they are addressed to, and not at all for others. */
  lemma {:induction false} ChunksAreCarried(messages: seq<Bytes>, remote: U32, max: nat, to: U32)
    requires CarriesChunks(messages, remote, max) && max < U32_LIMIT
    ensures Granted(messages, to) == 0
    ensures Carried(messages, to) == if to == remote then |Flatten(Chunks(messages))| else 0
    ensures Largest(messages, to) <= if to == remote then max else 0
    decreases |messages|
  {
    hide DataMessage, ParseData;
    if messages != [] {
      var chunk := Chunks(messages)[0];
      assert messages[0] == DataMessage(remote, chunk);
      assert Chunks(messages)[1..] == Chunks(messages[1..]);
      DataRoundTrip(remote, chunk);
      DataMessageType(remote, chunk);
      forall i | 0 <= i < |messages[1..]|
        ensures 1 <= |Chunks(messages[1..])[i]| <= max && messages[1..][i] == DataMessage(remote, Chunks(messages[1..])[i])
      {
        assert messages[1..][i] == messages[i + 1] && Chunks(messages[1..])[i] == Chunks(messages)[i + 1];
      }
      ChunksAreCarried(messages[1..], remote, max, to);
    }
  }

  lemma DataMessageType(remote: U32, chunk: Bytes)
    ensures |DataMessage(remote, chunk)| > 0 && DataMessage(remote, chunk)[0] == MSG_CHANNEL_DATA
  {
  }

  // ---- one action ----------------------------------------------------------------------------------------

  lemma DeliverBalances(conn: Conn, id: U32, acct: Account, to: U32, stream: DataStream, data: Bytes)
    requires AllSound(conn) && Balanced(conn, id, acct) && |data| <= MAX_DATA
    requires Deliver(conn, to, stream, data).Reacted?
    ensures var r := Deliver(conn, to, stream, data);
            var address := if to != id && RemoteId(conn, to) == RemoteId(conn, id) then None else RemoteId(conn, id);
            var credited := Credited(acct, address, r.sends);
            Balanced(r.conn, id, if to == id then credited.(received := credited.received + |data|) else credited)
  {
    hide AdjustMessage, OnDataConsumed, Granted, Carried, Largest;
    var address := if to != id && RemoteId(conn, to) == RemoteId(conn, id) then None else RemoteId(conn, id);
    DeliveryConserves(conn.channels[to], |data|);
    DeliveryKeepsRemote(conn.channels[to], |data|);
    match OnDataConsumed(conn.channels[to], |data|)
    case Quiet(_) => StillCreditsNothing(acct, address, []);
    case Replenished(_, add, remote) => if address.Some? { AdjustIsGranted(remote, add, address.value); }
    case DeliveryPanic =>
  }

  predicate SameRemote(ch: Channel, d: Channel) {
    d.remoteId == ch.remoteId && d.remoteWindow == ch.remoteWindow && d.remoteMaxPacket == ch.remoteMaxPacket
  }

  lemma DeliveryKeepsRemote(ch: Channel, len: U32)
    ensures match OnDataConsumed(ch, len)
            case Quiet(d) => SameRemote(ch, d)
            case Replenished(d, _, _) => SameRemote(ch, d)
            case DeliveryPanic => true
  {
  }

  lemma DataBalances(conn: Conn, id: U32, acct: Account, msg: Byte, rest: Bytes)
    requires AllSound(conn) && Balanced(conn, id, acct) && |rest| <= MAX_DATA
    requires msg == MSG_CHANNEL_DATA || msg == MSG_CHANNEL_EXTENDED_DATA
    requires OnMessage(conn, msg, rest).Reacted?
    ensures Balanced(OnMessage(conn, msg, rest).conn, id, Book(conn, id, acct, Message(msg, rest)))
  {
    hide Balanced, AllSound, Deliver, ParseIdAndData, ParseExtended, Credited, RemoteId;
    if msg == MSG_CHANNEL_DATA {
      var (to, data) := ParseIdAndData(rest).value;
      DeliverBalances(conn, id, acct, to, Stdout, data);
    } else {
      var (to, code, data) := ParseExtended(rest).value;
      DeliverBalances(conn, id, acct, to, StreamOf(code), data);
    }
  }

  lemma SetupKeepsWindows(conn: Conn, id: U32, acct: Account, at: U32, reply: Option<bool>)
    requires Balanced(conn, id, acct)
    ensures var r := ContinueSetup(conn, at, reply); r.Reacted? ==> Balanced(r.conn, id, acct) && Still(r.sends)
  {
    hide Str, Ascii, DefaultPty, NameExec, NamePty, NameShell;
  }

  lemma ConfirmedBalances(conn: Conn, id: U32, acct: Account, rest: Bytes)
    requires Balanced(conn, id, acct) && |rest| <= MAX_DATA
    requires OnMessage(conn, MSG_CHANNEL_OPEN_CONFIRMATION, rest).Reacted?
    ensures Balanced(OnMessage(conn, MSG_CHANNEL_OPEN_CONFIRMATION, rest).conn, id,
                     Book(conn, id, acct, Message(MSG_CHANNEL_OPEN_CONFIRMATION, rest)))
  {
    hide ParseConfirmation, ContinueSetup, Credited, RemoteId;
    var m := ParseConfirmation(rest).value;
    var conn' := OnConfirmation(conn, rest).conn;
    var acct' := if m.id == id then Renewed(acct, m) else acct;
    assert Balanced(conn', id, acct');
    SetupKeepsWindows(conn', id, acct', m.id, None);
    StillCreditsNothing(acct, RemoteId(conn, id), OnMessage(conn, MSG_CHANNEL_OPEN_CONFIRMATION, rest).sends);
  }

  lemma OthersBalance(conn: Conn, id: U32, acct: Account, msg: Byte, rest: Bytes)
    requires Balanced(conn, id, acct) && |rest| <= MAX_DATA && IsChannelMessage(msg)
    requires msg != MSG_CHANNEL_DATA && msg != MSG_CHANNEL_EXTENDED_DATA && msg != MSG_CHANNEL_OPEN_CONFIRMATION
    requires OnMessage(conn, msg, rest).Reacted?
    ensures Balanced(OnMessage(conn, msg, rest).conn, id, Book(conn, id, acct, Message(msg, rest)))
  {
    hide ParseIdAndNumber, ContinueSetup, GetU32, DescriptionOr, OnRequest, ParseServerRequest, Credited, RemoteId;
    if msg == MSG_CHANNEL_SUCCESS || msg == MSG_CHANNEL_FAILURE {
      SetupKeepsWindows(conn, id, acct, GetU32(rest).value.0, Some(msg == MSG_CHANNEL_SUCCESS));
    } else if msg == MSG_CHANNEL_REQUEST {
      RequestKeepsTable(conn, rest);
    }
    StillCreditsNothing(acct, RemoteId(conn, id), OnMessage(conn, msg, rest).sends);
  }

  lemma RequestKeepsTable(conn: Conn, rest: Bytes)
    ensures OnRequest(conn, rest).Reacted? ==> OnRequest(conn, rest).conn == conn && Still(OnRequest(conn, rest).sends)
  {
    hide ParseServerRequest, GetU32, GetUtf8, NameExitStatus, NameExitSignal;
  }

  lemma SendBalances(conn: Conn, id: U32, acct: Account, to: U32, data: Bytes)
    requires AllSound(conn) && Balanced(conn, id, acct) && ChannelSend(conn, to, data).Reacted?
    ensures Balanced(ChannelSend(conn, to, data).conn, id, Book(conn, id, acct, HostSend(to, data)))
  {
    hide SendData, Flatten, Chunks, Granted, Carried, Largest, CarriesChunks, Still;
    ChannelSendKeepsSound(conn, to, data);
    var address := Address(conn, id, HostSend(to, data));
    NothingIsStill();
    StillCreditsNothing(acct, address, []);
    if to in conn.channels {
      var ch := conn.channels[to];
      SendDataExact(ch, data);
      if ch.remoteId.Some? && address.Some? {
        ChunksAreCarried(SendData(ch, data).value.messages, ch.remoteId.value, ch.remoteMaxPacket, address.value);
      }
    }
  }

  lemma NothingIsStill() ensures Still([]) {}

  lemma OpenIsAnnounced(id: U32)
    ensures Announced([OpenMessage(id)], id) == INITIAL_WINDOW_SIZE
  {
    hide Str, U32Be, SessionName, ParseOpening;
    OpenRoundTrip(id);
    assert [OpenMessage(id)][1..] == [];
  }

  lemma HostBalances(conn: Conn, id: U32, acct: Account, a: Action)
    requires WellSized(a) && !a.Message? && !a.HostSend? && Balanced(conn, id, acct)
    ensures ReactionTo(conn, a).Reacted? && Balanced(ReactionTo(conn, a).conn, id, Book(conn, id, acct, a))
  {
    hide Credited, Str, Ascii, NameWindowChange, SessionName, Announced;
    OpenIsAnnounced(conn.nextId);
    StillCreditsNothing(acct, Address(conn, id, a), ReactionTo(conn, a).sends);
  }

  lemma HostKeepsSound(conn: Conn, a: Action)
    requires WellSized(a) && !a.Message? && AllSound(conn)
    ensures ReactionTo(conn, a).Reacted? && AllSound(ReactionTo(conn, a).conn)
  {
    hide ChannelSend, OpenMessage, WindowChangeRequest, IdMessage;
    if a.HostSend? { ChannelSendKeepsSound(conn, a.id, a.data); }
  }

  /** One action keeps every channel's accounts balanced and every channel sound. */
  lemma ActionBalances(conn: Conn, id: U32, acct: Account, a: Action)
    requires WellSized(a) && AllSound(conn) && Balanced(conn, id, acct)
    ensures var r := ReactionTo(conn, a);
            r.Reacted? ==> AllSound(r.conn) && Balanced(r.conn, id, Book(conn, id, acct, a))
  {
    hide OnMessage, ChannelSend, Balanced, Book, AllSound, OpenExec, OpenShell, OpenMessage, ResizePty, CloseChannel;
    if a.Message? {
      MessageKeepsSound(conn, a.msg, a.rest);
      if OnMessage(conn, a.msg, a.rest).Reacted? {
        if a.msg == MSG_CHANNEL_DATA || a.msg == MSG_CHANNEL_EXTENDED_DATA {
          DataBalances(conn, id, acct, a.msg, a.rest);
        } else if a.msg == MSG_CHANNEL_OPEN_CONFIRMATION {
          ConfirmedBalances(conn, id, acct, a.rest);
        } else {
          OthersBalance(conn, id, acct, a.msg, a.rest);
        }
      }
    } else {
      HostKeepsSound(conn, a);
      if a.HostSend? {
        SendBalances(conn, id, acct, a.id, a.data);
      } else {
        HostBalances(conn, id, acct, a);
      }
    }
  }

  // ---- runs ----------------------------------------------------------------------------------------

  /** A handler that refuses or panics ends the session before the table changes. */
  function Next(conn: Conn, a: Action): Conn
    requires WellSized(a)
  {
    var r := ReactionTo(conn, a);
    if r.Reacted? then r.conn else conn
  }

  function RunConn(conn: Conn, actions: seq<Action>): Conn
    requires forall i :: 0 <= i < |actions| ==> WellSized(actions[i])
    decreases |actions|
  {
    if actions == [] then conn
    else
      assert WellSized(actions[0]);
      RunConn(Next(conn, actions[0]), actions[1..])
  }

  function RunBook(conn: Conn, id: U32, acct: Account, actions: seq<Action>): Account
    requires forall i :: 0 <= i < |actions| ==> WellSized(actions[i])
    decreases |actions|
  {
    if actions == [] then acct
    else
      assert WellSized(actions[0]);
      RunBook(Next(conn, actions[0]), id, Book(conn, id, acct, actions[0]), actions[1..])
  }

  lemma {:induction false} RunBalances(conn: Conn, id: U32, acct: Account, actions: seq<Action>)
    requires forall i :: 0 <= i < |actions| ==> WellSized(actions[i])
    requires AllSound(conn) && Balanced(conn, id, acct)
    ensures var end := RunConn(conn, actions);
            AllSound(end) && Balanced(end, id, RunBook(conn, id, acct, actions))
    decreases |actions|
  {
    hide Balanced, AllSound, Book, ReactionTo;
    if actions != [] {
      assert WellSized(actions[0]);
      ActionBalances(conn, id, acct, actions[0]);
      RefusedKeepsBook(conn, id, acct, actions[0]);
      RunBalances(Next(conn, actions[0]), id, Book(conn, id, acct, actions[0]), actions[1..]);
    }
  }

  lemma RefusedKeepsBook(conn: Conn, id: U32, acct: Account, a: Action)
    requires WellSized(a)
    ensures !ReactionTo(conn, a).Reacted? ==> Book(conn, id, acct, a) == acct
  {
    hide ReactionTo;
  }

  /** Flow control over every run, any peer and any host: on each channel, the receive window always
      equals the window announced in its OPEN plus everything granted to its peer minus everything received,
      and stays above 1 MiB; and since its confirmation the bytes sent to its peer plus the remaining send
      window never exceed the peer's initial window plus its adjusts, with equality exactly when no adjust ran
      into the u32 ceiling, in messages of at most the packet size the peer announced. What is announced,
      granted and sent is read from the messages sent. */
  lemma FlowControl(actions: seq<Action>, id: U32)
    requires forall i :: 0 <= i < |actions| ==> WellSized(actions[i])
    requires id in RunConn(EMPTY, actions).channels
    ensures var ch := RunConn(EMPTY, actions).channels[id];
            var acct := RunBook(EMPTY, id, NEW_ACCOUNT, actions);
            && acct.announced == ch.localWindow + ch.unadvertised == 0x20_0000
            && ch.localWindow == acct.announced + acct.granted - acct.received
            && ch.localWindow > 0x10_0000
            && (ch.remoteId.Some? ==> SendingBalanced(ch, acct))
  {
    hide RunConn, RunBook;
    RunBalances(EMPTY, id, NEW_ACCOUNT, actions);
  }
}
