/**
  Channel setup sequencing over whole runs, with any number of interleaved channels and a server that
  answers each open and each request once.

  The monitor reads every message sent, whatever it was sent in answer to, and files each CHANNEL_OPEN,
  CHANNEL_REQUEST and CHANNEL_CLOSE under the channel it names; a message that names none is a stray.
 */
module ChannelSetup {
  import opened Prelude
  import opened Wire
  import opened Events
  import opened Channel
  import opened Connection
  import opened ChannelLedgers

  /** What the host asked for when it opened a channel. */
  datatype Plan = RunCommand(command: Bytes) | RunShell(pty: Pty)

  /** Where a channel stands, by the messages exchanged about it. */
  datatype Stage =
    | Requested                 // CHANNEL_OPEN sent, not answered
    | AskedFirst(remote: U32)   // confirmed; exec or pty-req sent, not answered
    | AskedShell(remote: U32)   // pty-req granted; shell sent, not answered
    | Ready(remote: U32)        // every request granted
    | Declined(remote: U32)     // a request was refused
    | OpenRefused               // the open was refused
    | Ended(declined: bool)     // closed by the server, perhaps after it had refused a request

  /** One channel's record: the setup messages sent for it (`log`), every other CLOSE and window-change
      sent for it (`extras`), what the host asked for and a refusal requires of the latter (`due`), and the
      number of ChannelOpenFailed events raised for it. */
  datatype Entry = Entry(plan: Plan, stage: Stage, log: seq<Bytes>, extras: seq<Bytes>, due: seq<Bytes>, failures: nat)

  datatype Track = Track(conn: Conn, entries: map<U32, Entry>, stray: seq<Bytes>)

  const NO_CHANNELS := Track(EMPTY, map[], [])

  function First(plan: Plan, remote: U32): Bytes {
    match plan case RunCommand(command) => ExecRequest(remote, command) case RunShell(pty) => PtyRequest(remote, pty)
  }

  /** The whole setup conversation: [OPEN, exec(command)] or [OPEN, pty-req(options), shell]. */
  function Script(id: U32, plan: Plan, remote: U32): seq<Bytes> {
    [OpenMessage(id), First(plan, remote)] + if plan.RunShell? then [ShellRequest(remote)] else []
  }

  // ---- reading what is sent ----------------------------------------------------------------------------

  predicate Relevant(m: Bytes) {
    |m| > 0 && (m[0] == MSG_CHANNEL_OPEN || m[0] == MSG_CHANNEL_CLOSE || m[0] == MSG_CHANNEL_REQUEST)
  }

  /** The channel a CHANNEL_OPEN asks for. */
  function OpenedId(m: Bytes): Result<U32> {
    var o :- ParseOpening(m);
    Ok(o.sender)
  }

  /** The channel any other message is addressed to, and what follows. */
  function Recipient(m: Bytes): Result<(U32, Bytes)> {
    var (_, r0) :- GetU8(m);
    GetU32(r0)
  }

  function RequestName(m: Bytes): Result<Bytes> {
    var (_, r1) :- Recipient(m);
    var (name, _) :- GetString(r1);
    Ok(name)
  }

  /** CHANNEL_OPEN, or a request other than window-change. */
  predicate IsSetup(m: Bytes) {
    && Relevant(m)
    && (m[0] == MSG_CHANNEL_OPEN || (m[0] == MSG_CHANNEL_REQUEST && RequestName(m) != Ok(NameWindowChange())))
  }

  predicate AddressedTo(m: Bytes, remote: U32) { Recipient(m).Ok? && Recipient(m).value.0 == remote }

  /** Whether a message names channel `id`, which the server knows as `remote`. */
  predicate Names(m: Bytes, id: U32, remote: Option<U32>) {
    && Relevant(m)
    && (if m[0] == MSG_CHANNEL_OPEN then OpenedId(m) == Ok(id) else remote.Some? && AddressedTo(m, remote.value))
  }

  /** The messages that name the channel: its setup messages, or the others. */
  function Mine(sends: seq<Bytes>, id: U32, remote: Option<U32>, setup: bool): seq<Bytes> {
    if sends == [] then []
    else
      (if Names(sends[0], id, remote) && IsSetup(sends[0]) == setup then [sends[0]] else [])
      + Mine(sends[1..], id, remote, setup)
  }

  function FailuresFor(id: U32, events: seq<Event>): nat {
    if events == [] then 0
    else (if events[0].ChannelOpenFailed? && events[0].id == id then 1 else 0) + FailuresFor(id, events[1..])
  }

  // ---- the monitor -----------------------------------------------------------------------------------

  /** The channel a setup message of the server is about. */
  function Subject(msg: Byte, rest: Bytes): Option<U32> {
    if msg == MSG_CHANNEL_OPEN_CONFIRMATION then
      match ParseConfirmation(rest) case Ok(m) => Some(m.id) case Err(_) => None
    else if msg == MSG_CHANNEL_OPEN_FAILURE then
      match ParseIdAndNumber(rest) case Ok((id, _, _)) => Some(id) case Err(_) => None
    else if msg == MSG_CHANNEL_SUCCESS || msg == MSG_CHANNEL_FAILURE || msg == MSG_CHANNEL_CLOSE then
      match GetU32(rest) case Ok((id, _)) => Some(id) case Err(_) => None
    else None
  }

  /** The server's name for a channel, while it stands for that channel. */
  function RemoteOf(stage: Stage): Option<U32> {
    match stage
    case AskedFirst(r) => Some(r)
    case AskedShell(r) => Some(r)
    case Ready(r) => Some(r)
    case Declined(r) => Some(r)
    case _ => None
  }

  predicate Asked(stage: Stage) { stage.AskedFirst? || stage.AskedShell? }

  /** The server answers each open once and each request once, in order, and does not give two channels
      the same name at the same time; channel ids are not reused (fewer than 2^32 opens). Everything else
      it may send at any time. */
  predicate Legal(t: Track, a: Action) {
    match a
    case HostExec(_) => t.conn.nextId !in t.entries
    case HostShell(_) => t.conn.nextId !in t.entries
    case Message(msg, rest) =>
      (match Subject(msg, rest)
       case None => true
       case Some(id) =>
         if msg == MSG_CHANNEL_CLOSE then true
         else if msg == MSG_CHANNEL_OPEN_CONFIRMATION then
           && id in t.entries && t.entries[id].stage.Requested?
           && NameIsFree(t, ParseConfirmation(rest).value.sender)
         else if msg == MSG_CHANNEL_OPEN_FAILURE then id in t.entries && t.entries[id].stage.Requested?
         else id in t.entries && Asked(t.entries[id].stage))
    case _ => true
  }

  predicate NameIsFree(t: Track, remote: U32) {
    forall k :: k in t.entries ==> RemoteOf(t.entries[k].stage) != Some(remote)
  }

  function NextStage(e: Entry, id: U32, a: Action): Stage {
    match a
    case Message(msg, rest) =>
      if Subject(msg, rest) != Some(id) then e.stage
      else if msg == MSG_CHANNEL_OPEN_CONFIRMATION then AskedFirst(ParseConfirmation(rest).value.sender)
      else if msg == MSG_CHANNEL_OPEN_FAILURE then OpenRefused
      else if msg == MSG_CHANNEL_CLOSE then
        if e.stage.OpenRefused? then OpenRefused else Ended(e.stage.Declined? || (e.stage.Ended? && e.stage.declined))
      else
        (match e.stage
         case AskedFirst(r) =>
           if msg == MSG_CHANNEL_FAILURE then Declined(r) else if e.plan.RunShell? then AskedShell(r) else Ready(r)
         case AskedShell(r) => if msg == MSG_CHANNEL_FAILURE then Declined(r) else Ready(r)
         case _ => e.stage)
    case _ => e.stage
  }

  /** CLOSE and window-change messages that an action calls for: one CLOSE after a refused request, and
      whatever the host asks for on a confirmed channel. */
  function DueFor(e: Entry, id: U32, a: Action): seq<Bytes> {
    match a
    case Message(msg, rest) =>
      if msg == MSG_CHANNEL_FAILURE && Subject(msg, rest) == Some(id) && Asked(e.stage)
      then [IdMessage(MSG_CHANNEL_CLOSE, e.stage.remote)] else []
    case HostClose(to) =>
      if to == id && (Asked(e.stage) || e.stage.Ready?) then [IdMessage(MSG_CHANNEL_CLOSE, e.stage.remote)] else []
    case HostResize(to, cols, rows) =>
      if to == id && (Asked(e.stage) || e.stage.Ready?) then [WindowChangeRequest(e.stage.remote, cols, rows)] else []
    case _ => []
  }

  /** A record after an action: everything that was sent and names the channel, and every failure raised. */
  function Updated(e: Entry, id: U32, a: Action, sends: seq<Bytes>, events: seq<Event>): Entry {
    var stage := NextStage(e, id, a);
    Entry(e.plan, stage,
          e.log + Mine(sends, id, RemoteOf(stage), true),
          e.extras + Mine(sends, id, RemoteOf(stage), false),
          e.due + DueFor(e, id, a),
          e.failures + FailuresFor(id, events))
  }

  function NewEntry(plan: Plan, id: U32, sends: seq<Bytes>, events: seq<Event>): Entry {
    Entry(plan, Requested, Mine(sends, id, None, true), Mine(sends, id, None, false), [], FailuresFor(id, events))
  }

  predicate Filed(m: Bytes, entries: map<U32, Entry>) {
    exists id :: id in entries && Names(m, id, RemoteOf(entries[id].stage))
  }

  /** Messages that name no channel. */
  function Strays(sends: seq<Bytes>, entries: map<U32, Entry>): seq<Bytes> {
    if sends == [] then []
    else (if Relevant(sends[0]) && !Filed(sends[0], entries) then [sends[0]] else []) + Strays(sends[1..], entries)
  }

  function Entries(t: Track, a: Action, r: Reaction): map<U32, Entry>
    requires r.Reacted?
  {
    var moved := map id | id in t.entries :: Updated(t.entries[id], id, a, r.sends, r.events);
    match a
    case HostExec(command) => moved[t.conn.nextId := NewEntry(RunCommand(command), t.conn.nextId, r.sends, r.events)]
    case HostShell(pty) => moved[t.conn.nextId := NewEntry(RunShell(pty), t.conn.nextId, r.sends, r.events)]
    case _ => moved
  }

  function Step(t: Track, a: Action): Track
    requires WellSized(a)
  {
    var r := ReactionTo(t.conn, a);
    if !r.Reacted? then t
    else
      var entries := Entries(t, a, r);
      Track(r.conn, entries, t.stray + Strays(r.sends, entries))
  }

  // ---- what the client keeps ---------------------------------------------------------------------------

  /** All that setup depends on, for one channel. */
  datatype View = View(open: bool, remote: Option<U32>, step: Option<SetupStep>, command: Option<Bytes>, pty: Option<Pty>)

  function Look<T>(m: map<U32, T>, id: U32): Option<T> { if id in m then Some(m[id]) else None }

  function ViewOf(conn: Conn, id: U32): View {
    View(id in conn.channels, RemoteId(conn, id), Look(conn.setup, id), Look(conn.pendingExec, id), Look(conn.pendingPty, id))
  }

  function InitialStep(plan: Plan): SetupStep { if plan.RunCommand? then AwaitingExecReply else AwaitingPtyReply }

  predicate Stored(v: View, plan: Plan) {
    match plan
    case RunCommand(command) => v.command == Some(command)
    case RunShell(pty) => v.pty == Some(pty)
  }

  /** A nonempty beginning of the script, for some name of the channel. */
  ghost predicate Begins(id: U32, plan: Plan, log: seq<Bytes>) {
    exists remote: U32, n: nat :: 1 <= n <= |Script(id, plan, remote)| && log == Script(id, plan, remote)[..n]
  }

  /** What the stage of a channel says about everything sent and raised for it. */
  ghost predicate Recorded(id: U32, e: Entry) {
    && e.extras == e.due
    && match e.stage
       case Requested => e.log == [OpenMessage(id)] && e.failures == 0
       case AskedFirst(r) => e.log == [OpenMessage(id), First(e.plan, r)] && e.failures == 0
       case AskedShell(r) => e.plan.RunShell? && e.log == Script(id, e.plan, r) && e.failures == 0
       case Ready(r) => e.log == Script(id, e.plan, r) && e.failures == 0
       case Declined(r) =>
         (e.log == [OpenMessage(id), First(e.plan, r)] || e.log == Script(id, e.plan, r)) && e.failures == 1
       case OpenRefused => e.log == [OpenMessage(id)] && e.extras == [] && e.failures == 1
       case Ended(declined) => Begins(id, e.plan, e.log) && e.failures == if declined then 1 else 0
  }

  ghost predicate Placed(v: View, e: Entry) {
    match e.stage
    case Requested => v.open && v.remote.None? && v.step == Some(InitialStep(e.plan)) && Stored(v, e.plan) && e.extras == []
    case AskedFirst(r) => v.open && v.remote == Some(r) && v.step == Some(InitialStep(e.plan))
    case AskedShell(r) => v.open && v.remote == Some(r) && v.step == Some(AwaitingShellReply)
    case Ready(r) => v.open && v.remote == Some(r) && v.step.None?
    case _ => !v.open
  }

  ghost predicate EntryOk(v: View, id: U32, e: Entry) { Recorded(id, e) && Placed(v, e) }

  predicate Distinct(entries: map<U32, Entry>) {
    forall i, j :: i in entries && j in entries && i != j && RemoteOf(entries[i].stage).Some? ==>
      RemoteOf(entries[i].stage) != RemoteOf(entries[j].stage)
  }

  ghost predicate TrackOk(t: Track) {
    && (forall id | id in t.entries :: EntryOk(ViewOf(t.conn, id), id, t.entries[id]))
    && (forall id | id in t.conn.channels :: id in t.entries)
    && Distinct(t.entries)
    && t.stray == []
  }

  // ---- how the client's messages read ---------------------------------------------------------------------

  lemma NamesAreShort()
    ensures |SessionName()| < 100 && |NameExec()| == 4 && |NamePty()| == 7 && |NameShell()| == 5 && |NameWindowChange()| == 13
  {
  }

  lemma OpenReads(id: U32)
    ensures IsSetup(OpenMessage(id)) && OpenMessage(id)[0] == MSG_CHANNEL_OPEN && OpenedId(OpenMessage(id)) == Ok(id)
  {
    hide Str, U32Be, SessionName, ParseOpening;
    OpenRoundTrip(id);
  }

  lemma RequestReads(remote: U32, name: Bytes, wantReply: bool, fields: Bytes)
    requires |name| < U32_LIMIT
    ensures var m := RequestMessage(remote, name, wantReply, fields);
            && Relevant(m) && m[0] == MSG_CHANNEL_REQUEST && AddressedTo(m, remote)
            && RequestName(m) == Ok(name)
  {
    hide Str, GetU8, GetString, GetU32, U32Be;
    var rest := Str(name) + (Bool(wantReply) + fields);
    U8RoundTrip(MSG_CHANNEL_REQUEST, U32Be(remote) + rest);
    U32RoundTrip(remote, rest);
    StrRoundTrip(name, Bool(wantReply) + fields);
  }

  /** A message for the server's channel `remote`, setup or not. */
  predicate Reads(m: Bytes, remote: U32, setup: bool) {
    Relevant(m) && m[0] != MSG_CHANNEL_OPEN && AddressedTo(m, remote) && IsSetup(m) == setup
  }

  lemma SetupReads(remote: U32, plan: Plan)
    ensures Reads(First(plan, remote), remote, true) && Reads(ShellRequest(remote), remote, true)
  {
    hide RequestMessage, Str, U32Be, NameExec, NamePty, NameShell, NameWindowChange, Recipient, RequestName;
    NamesAreShort();
    match plan
    case RunCommand(command) =>
      RequestReads(remote, NameExec(), true, Str(command));
      RequestReads(remote, NameShell(), true, []);
    case RunShell(pty) =>
      RequestReads(remote, NamePty(), true,
        Str(pty.term) + (U32Be(pty.cols) + (U32Be(pty.rows) + (U32Be(pty.pixelWidth) + (U32Be(pty.pixelHeight) + Str([]))))));
      RequestReads(remote, NameShell(), true, []);
  }

  lemma ExtrasRead(remote: U32, cols: U32, rows: U32)
    ensures Reads(IdMessage(MSG_CHANNEL_CLOSE, remote), remote, false)
    ensures Reads(WindowChangeRequest(remote, cols, rows), remote, false)
  {
    hide RequestMessage, Str, U32Be, NameWindowChange, GetU32, GetU8, RequestName;
    NamesAreShort();
    RequestReads(remote, NameWindowChange(), false, U32Be(cols) + (U32Be(rows) + (U32Be(0) + U32Be(0))));
    U8RoundTrip(MSG_CHANNEL_CLOSE, U32Be(remote));
    U32RoundTrip(remote, []);
    assert U32Be(remote) + [] == U32Be(remote);
  }

  // ---- filing ----------------------------------------------------------------------------------------------

  predicate Silent(sends: seq<Bytes>) { forall i :: 0 <= i < |sends| ==> !Relevant(sends[i]) }

  lemma {:induction false} SilentFiles(sends: seq<Bytes>, id: U32, remote: Option<U32>, setup: bool, entries: map<U32, Entry>)
    requires Silent(sends)
    ensures Mine(sends, id, remote, setup) == [] && Strays(sends, entries) == []
  {
    if sends != [] {
      assert !Relevant(sends[0]);
      forall i | 0 <= i < |sends[1..]| ensures !Relevant(sends[1..][i]) { assert sends[1..][i] == sends[i + 1]; }
      SilentFiles(sends[1..], id, remote, setup, entries);
    }
  }

  lemma OneFiles(m: Bytes, id: U32, remote: Option<U32>, setup: bool, entries: map<U32, Entry>)
    ensures Mine([m], id, remote, setup) == if Names(m, id, remote) && IsSetup(m) == setup then [m] else []
    ensures Strays([m], entries) == if Relevant(m) && !Filed(m, entries) then [m] else []
  {
    hide Names, IsSetup, Filed, Relevant;
    assert [m][1..] == [];
  }

  /** A message read as meant for `remote` is filed there and nowhere else. */
  lemma ReadFiles(m: Bytes, r: U32, id: U32, remote: Option<U32>, setup: bool)
    requires Reads(m, r, setup)
    ensures Mine([m], id, remote, setup) == (if remote == Some(r) then [m] else [])
    ensures Mine([m], id, remote, !setup) == []
  {
    hide IsSetup, Recipient;
    OneFiles(m, id, remote, setup, map[]);
    OneFiles(m, id, remote, !setup, map[]);
  }

  lemma FiledNoStray(m: Bytes, r: U32, setup: bool, id: U32, entries: map<U32, Entry>)
    requires Reads(m, r, setup) && id in entries && RemoteOf(entries[id].stage) == Some(r)
    ensures Strays([m], entries) == []
  {
    hide IsSetup, Recipient;
    OneFiles(m, id, Some(r), setup, entries);
    assert Names(m, id, RemoteOf(entries[id].stage));
  }

  // ---- a message about one channel leaves the others alone ------------------------------------------------

  /** A reply for one channel never advances another. */
  lemma OthersUntouched(conn: Conn, msg: Byte, rest: Bytes, k: U32)
    requires IsChannelMessage(msg) && Subject(msg, rest) != Some(k) && |rest| <= MAX_DATA
    requires OnMessage(conn, msg, rest).Reacted?
    ensures ViewOf(OnMessage(conn, msg, rest).conn, k) == ViewOf(conn, k)
  {
    hide ParseConfirmation, ParseIdAndNumber, GetU32, ContinueSetup, Deliver, ParseIdAndData, ParseExtended,
         DescriptionOr, OnRequest;
    if msg == MSG_CHANNEL_OPEN_CONFIRMATION {
      var m := ParseConfirmation(rest).value;
      SetupTouchesOne(OnConfirmation(conn, rest).conn, m.id, None, k);
    } else if msg == MSG_CHANNEL_SUCCESS || msg == MSG_CHANNEL_FAILURE {
      SetupTouchesOne(conn, GetU32(rest).value.0, Some(msg == MSG_CHANNEL_SUCCESS), k);
    } else if msg == MSG_CHANNEL_DATA {
      var (id, data) := ParseIdAndData(rest).value;
      DeliverKeepsView(conn, id, Stdout, data, k);
    } else if msg == MSG_CHANNEL_EXTENDED_DATA {
      var (id, code, data) := ParseExtended(rest).value;
      DeliverKeepsView(conn, id, StreamOf(code), data, k);
    } else if msg == MSG_CHANNEL_REQUEST {
      RequestKeepsTable(conn, rest);
    }
  }

  lemma SetupTouchesOne(conn: Conn, id: U32, reply: Option<bool>, k: U32)
    requires id != k
    ensures var r := ContinueSetup(conn, id, reply); r.Reacted? ==> ViewOf(r.conn, k) == ViewOf(conn, k)
  {
    hide ExecRequest, PtyRequest, ShellRequest, IdMessage, Ascii, DefaultPty;
  }

  lemma DeliverKeepsView(conn: Conn, id: U32, stream: DataStream, data: Bytes, k: U32)
    ensures var r := Deliver(conn, id, stream, data); r.Reacted? ==> ViewOf(r.conn, k) == ViewOf(conn, k)
  {
    hide AdjustMessage, OnDataConsumed;
    if id in conn.channels {
      DeliveryKeepsRemote(conn.channels[id], |data| % U32_LIMIT);
    }
  }

  lemma SendKeepsView(conn: Conn, id: U32, data: Bytes, k: U32)
    ensures var r := ChannelSend(conn, id, data); r.Reacted? ==> ViewOf(r.conn, k) == ViewOf(conn, k)
  {
    hide SendData;
    if id in conn.channels {
      SendKeepsRemote(conn.channels[id], data);
    }
  }

  lemma {:induction false} SendKeepsRemote(ch: Channel, data: Bytes)
    ensures SendData(ch, data).Some? ==> SendData(ch, data).value.ch.remoteId == ch.remoteId
    ensures SendData(ch, data).Some? ==> Silent(SendData(ch, data).value.messages)
    decreases |data|
  {
    var n := ChunkLen(ch, |data|);
    if n > 0 {
      SendKeepsRemote(ch.(remoteWindow := ch.remoteWindow - n), data[n..]);
    }
  }

  // ---- actions that are no part of any setup ---------------------------------------------------------------

  predicate NoFailures(events: seq<Event>) { forall i :: 0 <= i < |events| ==> !events[i].ChannelOpenFailed? }

  lemma {:induction false} NoFailuresCount(id: U32, events: seq<Event>)
    requires NoFailures(events)
    ensures FailuresFor(id, events) == 0
  {
    if events != [] {
      assert !events[0].ChannelOpenFailed?;
      forall i | 0 <= i < |events[1..]| ensures !events[1..][i].ChannelOpenFailed? { assert events[1..][i] == events[i + 1]; }
      NoFailuresCount(id, events[1..]);
    }
  }

  lemma OneFailure(id: U32, e: Event)
    ensures FailuresFor(id, [e]) == if e.ChannelOpenFailed? && e.id == id then 1 else 0
  {
    assert [e][1..] == [];
  }

  /** An action that sends nothing of interest and raises no failure. */
  predicate Uneventful(r: Reaction) { r.Reacted? && Silent(r.sends) && NoFailures(r.events) }

  lemma RequestIsUneventful(conn: Conn, rest: Bytes)
    ensures OnRequest(conn, rest).Reacted? ==> Uneventful(OnRequest(conn, rest))
  {
    hide ParseServerRequest, GetU32, GetUtf8, NameExitStatus, NameExitSignal, Relevant;
    forall remote: U32 ensures !Relevant(IdMessage(MSG_CHANNEL_FAILURE, remote)) { FailureIsIrrelevant(remote); }
  }

  lemma FailureIsIrrelevant(remote: U32)
    ensures !Relevant(IdMessage(MSG_CHANNEL_FAILURE, remote))
    ensures forall add :: !Relevant(AdjustMessage(remote, add))
  {
  }

  lemma DataIsUneventful(conn: Conn, id: U32, stream: DataStream, data: Bytes)
    ensures Deliver(conn, id, stream, data).Reacted? ==> Uneventful(Deliver(conn, id, stream, data))
  {
    hide OnDataConsumed, AdjustMessage, Relevant;
    forall remote: U32, add: U32 ensures !Relevant(AdjustMessage(remote, add)) { FailureIsIrrelevant(remote); }
  }

  lemma NoSubjectIsUneventful(conn: Conn, msg: Byte, rest: Bytes)
    requires IsChannelMessage(msg) && OnMessage(conn, msg, rest).Reacted?
    ensures Subject(msg, rest).None? || msg == MSG_CHANNEL_CLOSE ==> Uneventful(OnMessage(conn, msg, rest))
  {
    hide ParseConfirmation, ParseIdAndNumber, GetU32, Deliver, ParseIdAndData, ParseExtended, DescriptionOr, OnRequest;
    if msg == MSG_CHANNEL_DATA {
      var (id, data) := ParseIdAndData(rest).value;
      DataIsUneventful(conn, id, Stdout, data);
    } else if msg == MSG_CHANNEL_EXTENDED_DATA {
      var (id, code, data) := ParseExtended(rest).value;
      DataIsUneventful(conn, id, StreamOf(code), data);
    } else if msg == MSG_CHANNEL_REQUEST {
      RequestIsUneventful(conn, rest);
    }
  }

  /** A bystander of an action: nothing sent names it, nothing raised is about it, and nothing in the
      client's tables changes for it. */
  lemma BystanderOk(v: View, v': View, k: U32, e: Entry, a: Action, sends: seq<Bytes>, events: seq<Event>)
    requires EntryOk(v, k, e) && v' == v && NextStage(e, k, a) == e.stage && DueFor(e, k, a) == []
    requires Mine(sends, k, RemoteOf(e.stage), true) == [] && Mine(sends, k, RemoteOf(e.stage), false) == []
    requires FailuresFor(k, events) == 0
    ensures Updated(e, k, a, sends, events) == e && EntryOk(v', k, Updated(e, k, a, sends, events))
  {
    hide EntryOk, NextStage, DueFor, Mine, FailuresFor;
    assert e.log + [] == e.log && e.extras + [] == e.extras && e.due + [] == e.due;
  }

  // ---- the subject ---------------------------------------------------------------------------------------

  lemma ConfirmedOk(conn: Conn, rest: Bytes, id: U32, e: Entry)
    requires EntryOk(ViewOf(conn, id), id, e) && e.stage.Requested?
    requires Subject(MSG_CHANNEL_OPEN_CONFIRMATION, rest) == Some(id)
    ensures var r := OnConfirmationAndSetup(conn, rest);
            var sender := ParseConfirmation(rest).value.sender;
            && r.Reacted? && r.sends == [First(e.plan, sender)] && NoFailures(r.events)
            && EntryOk(ViewOf(r.conn, id), id, e.(stage := AskedFirst(sender), log := e.log + r.sends))
  {
    hide ParseConfirmation, OpenMessage, ExecRequest, PtyRequest, ShellRequest;
  }

  lemma OpenRefusedOk(conn: Conn, rest: Bytes, id: U32, e: Entry)
    requires EntryOk(ViewOf(conn, id), id, e) && e.stage.Requested?
    requires Subject(MSG_CHANNEL_OPEN_FAILURE, rest) == Some(id)
    ensures var r := OnOpenFailure(conn, rest);
            && r.Reacted? && r.sends == [] && |r.events| == 1 && r.events[0].ChannelOpenFailed? && r.events[0].id == id
            && EntryOk(ViewOf(r.conn, id), id, e.(stage := OpenRefused, failures := e.failures + 1))
  {
    hide ParseIdAndNumber, OpenMessage, ExecRequest, PtyRequest, ShellRequest, DescriptionOr;
  }

  lemma SuccessOk(conn: Conn, rest: Bytes, id: U32, e: Entry)
    requires EntryOk(ViewOf(conn, id), id, e) && Asked(e.stage)
    requires Subject(MSG_CHANNEL_SUCCESS, rest) == Some(id)
    ensures var r := OnReply(conn, rest, true);
            var more := if e.stage.AskedFirst? && e.plan.RunShell? then [ShellRequest(e.stage.remote)] else [];
            && r.Reacted? && r.sends == more && r.events == []
            && EntryOk(ViewOf(r.conn, id), id,
                       e.(stage := if more != [] then AskedShell(e.stage.remote) else Ready(e.stage.remote), log := e.log + more))
  {
    hide GetU32, OpenMessage, ExecRequest, PtyRequest, ShellRequest;
    assert e.log + [] == e.log;
    if e.stage.AskedFirst? && e.plan.RunCommand? { assert e.log == Script(id, e.plan, e.stage.remote); }
  }

  lemma FailureOk(conn: Conn, rest: Bytes, id: U32, e: Entry)
    requires EntryOk(ViewOf(conn, id), id, e) && Asked(e.stage)
    requires Subject(MSG_CHANNEL_FAILURE, rest) == Some(id)
    ensures var r := OnReply(conn, rest, false);
            var last := [IdMessage(MSG_CHANNEL_CLOSE, e.stage.remote)];
            && r.Reacted? && r.sends == last && |r.events| == 1 && r.events[0].ChannelOpenFailed? && r.events[0].id == id
            && EntryOk(ViewOf(r.conn, id), id,
                       e.(stage := Declined(e.stage.remote), extras := e.extras + last, due := e.due + last,
                          failures := e.failures + 1))
  {
    hide GetU32, OpenMessage, ExecRequest, PtyRequest, ShellRequest, Ascii, IdMessage;
  }

  lemma ClosedOk(conn: Conn, rest: Bytes, id: U32, e: Entry)
    requires EntryOk(ViewOf(conn, id), id, e)
    requires Subject(MSG_CHANNEL_CLOSE, rest) == Some(id)
    ensures var r := OnClose(conn, rest);
            && r.Reacted?
            && EntryOk(ViewOf(r.conn, id), id, e.(stage := NextStage(e, id, Message(MSG_CHANNEL_CLOSE, rest))))
  {
    hide GetU32, OpenMessage, ExecRequest, PtyRequest, ShellRequest, Begins;
    LogBegins(id, e);
  }

  /** Whatever the stage, the setup messages sent are a beginning of the script. */
  lemma LogBegins(id: U32, e: Entry)
    requires Recorded(id, e)
    ensures Begins(id, e.plan, e.log)
  {
    hide OpenMessage, ExecRequest, PtyRequest, ShellRequest, IdMessage;
    var plan := e.plan;
    match e.stage
    case AskedFirst(r) => assert e.log == Script(id, plan, r)[..2];
    case AskedShell(r) => assert e.log == Script(id, plan, r)[..3];
    case Ready(r) => assert e.log == Script(id, plan, r)[..|Script(id, plan, r)|];
    case Declined(r) => assert e.log == Script(id, plan, r)[..|e.log|];
    case Ended(_) =>
    case _ =>
      var r: U32 := 0;
      assert e.log == Script(id, plan, r)[..1];
  }

  // ---- one step --------------------------------------------------------------------------------------------

  /** Uneventful actions: every record stays as it is. */
  lemma UneventfulOk(t: Track, a: Action)
    requires TrackOk(t) && WellSized(a) && Uneventful(ReactionTo(t.conn, a)) && !a.HostExec? && !a.HostShell?
    requires forall k :: k in t.entries ==>
               && ViewOf(ReactionTo(t.conn, a).conn, k) == ViewOf(t.conn, k)
               && NextStage(t.entries[k], k, a) == t.entries[k].stage && DueFor(t.entries[k], k, a) == []
    requires forall k :: k in ReactionTo(t.conn, a).conn.channels ==> k in t.conn.channels
    ensures TrackOk(Step(t, a))
  {
    hide EntryOk, NextStage, DueFor, Mine, Strays, ReactionTo, ViewOf, Silent, NoFailures, Updated, Distinct;
    var r := ReactionTo(t.conn, a);
    var entries := Entries(t, a, r);
    forall k | k in t.entries ensures entries[k] == t.entries[k] && EntryOk(ViewOf(r.conn, k), k, entries[k]) {
      var e := t.entries[k];
      SilentFiles(r.sends, k, RemoteOf(e.stage), true, entries);
      SilentFiles(r.sends, k, RemoteOf(e.stage), false, entries);
      NoFailuresCount(k, r.events);
      BystanderOk(ViewOf(t.conn, k), ViewOf(r.conn, k), k, e, a, r.sends, r.events);
    }
    SilentFiles(r.sends, 0, None, true, entries);
    assert entries == t.entries;
  }

  /** An action with one subject: its record moves on, and the others stay as they are. `sends` is nothing,
      or one message for the name the subject has afterwards. */
  lemma SubjectMoves(t: Track, a: Action, id: U32, e': Entry)
    requires TrackOk(t) && WellSized(a) && ReactionTo(t.conn, a).Reacted? && !a.HostExec? && !a.HostShell?
    requires id in t.entries && e' == Updated(t.entries[id], id, a, ReactionTo(t.conn, a).sends, ReactionTo(t.conn, a).events)
    requires EntryOk(ViewOf(ReactionTo(t.conn, a).conn, id), id, e')
    requires var sends := ReactionTo(t.conn, a).sends;
             sends == [] || (|sends| == 1 && RemoteOf(e'.stage).Some?
                             && exists setup :: Reads(sends[0], RemoteOf(e'.stage).value, setup))
    requires forall k :: k in t.entries && k != id ==>
               && ViewOf(ReactionTo(t.conn, a).conn, k) == ViewOf(t.conn, k)
               && NextStage(t.entries[k], k, a) == t.entries[k].stage && DueFor(t.entries[k], k, a) == []
               && FailuresFor(k, ReactionTo(t.conn, a).events) == 0
               && (RemoteOf(e'.stage).Some? ==> RemoteOf(t.entries[k].stage) != RemoteOf(e'.stage))
    requires forall k :: k in ReactionTo(t.conn, a).conn.channels ==> k in t.conn.channels
    ensures TrackOk(Step(t, a))
  {
    hide EntryOk, NextStage, DueFor, Mine, Strays, ReactionTo, ViewOf, NoFailures, Reads, Updated, FailuresFor, RemoteOf;
    var r := ReactionTo(t.conn, a);
    var entries := Entries(t, a, r);
    forall k | k in t.entries && k != id ensures entries[k] == t.entries[k] && EntryOk(ViewOf(r.conn, k), k, entries[k]) {
      NotMine(r.sends, RemoteOf(e'.stage), k, RemoteOf(t.entries[k].stage));
      BystanderOk(ViewOf(t.conn, k), ViewOf(r.conn, k), k, t.entries[k], a, r.sends, r.events);
    }
    if r.sends == [] {
      SilentFiles([], 0, None, true, entries);
    } else {
      var setup :| Reads(r.sends[0], RemoteOf(e'.stage).value, setup);
      FiledNoStray(r.sends[0], RemoteOf(e'.stage).value, setup, id, entries);
      assert r.sends == [r.sends[0]];
    }
    assert entries == t.entries[id := e'];
  }

  lemma NotMine(sends: seq<Bytes>, owner: Option<U32>, k: U32, remote: Option<U32>)
    requires sends == [] || (|sends| == 1 && owner.Some? && exists setup :: Reads(sends[0], owner.value, setup))
    requires owner.Some? ==> remote != owner
    ensures Mine(sends, k, remote, true) == [] && Mine(sends, k, remote, false) == []
  {
    hide Reads, Names, IsSetup;
    if sends != [] {
      var setup :| Reads(sends[0], owner.value, setup);
      ReadFiles(sends[0], owner.value, k, remote, setup);
      assert sends == [sends[0]];
    }
  }

  lemma OpenFiles(m: Bytes, asked: U32, id: U32, remote: Option<U32>)
    requires IsSetup(m) && m[0] == MSG_CHANNEL_OPEN && OpenedId(m) == Ok(asked)
    ensures Mine([m], id, remote, true) == (if id == asked then [m] else [])
    ensures Mine([m], id, remote, false) == []
  {
    hide Recipient, OpenedId, RequestName;
    OneFiles(m, id, remote, true, map[]);
    OneFiles(m, id, remote, false, map[]);
  }

  lemma NewEntryOk(conn: Conn, plan: Plan)
    ensures var id := conn.nextId;
            var after := if plan.RunCommand? then OpenExec(conn, plan.command) else OpenShell(conn, plan.pty);
            && EntryOk(ViewOf(after, id), id, NewEntry(plan, id, [OpenMessage(id)], []))
            && NewEntry(plan, id, [OpenMessage(id)], []).stage == Requested
            && (forall k: U32 | k != id :: ViewOf(after, k) == ViewOf(conn, k))
            && (forall k: U32 :: k in after.channels <==> k in conn.channels || k == id)
  {
    hide OpenMessage, OpenedId, Mine;
    OpenReads(conn.nextId);
    OpenFiles(OpenMessage(conn.nextId), conn.nextId, conn.nextId, None);
  }

  lemma OpeningLeaves(v: View, k: U32, e: Entry, a: Action, id: U32)
    requires EntryOk(v, k, e) && (a.HostExec? || a.HostShell?) && k != id
    ensures Updated(e, k, a, [OpenMessage(id)], []) == e
  {
    hide EntryOk, Mine, OpenMessage, OpenedId, IsSetup, FailuresFor;
    OpenReads(id);
    OpenFiles(OpenMessage(id), id, k, RemoteOf(e.stage));
    NoEvents(k);
    BystanderOk(v, v, k, e, a, [OpenMessage(id)], []);
  }

  function PlanOf(a: Action): Plan
    requires a.HostExec? || a.HostShell?
  {
    if a.HostExec? then RunCommand(a.command) else RunShell(a.pty)
  }

  lemma OpeningEntries(t: Track, a: Action)
    requires TrackOk(t) && WellSized(a) && Legal(t, a) && (a.HostExec? || a.HostShell?)
    ensures var r, id := ReactionTo(t.conn, a), t.conn.nextId;
            && id !in t.entries && r.Reacted? && r.sends == [OpenMessage(id)] && r.events == []
            && Entries(t, a, r) == t.entries[id := NewEntry(PlanOf(a), id, r.sends, r.events)]
  {
    hide EntryOk, Updated, ViewOf, OpenExec, OpenShell, OpenMessage, NewEntry, Distinct;
    var r := ReactionTo(t.conn, a);
    forall k | k in t.entries ensures Updated(t.entries[k], k, a, r.sends, r.events) == t.entries[k] {
      OpeningLeaves(ViewOf(t.conn, k), k, t.entries[k], a, t.conn.nextId);
    }
  }

  lemma OpenIsFiled(id: U32, entries: map<U32, Entry>)
    requires id in entries
    ensures Strays([OpenMessage(id)], entries) == []
  {
    hide OpenMessage, Names, OpenedId, IsSetup;
    OpenReads(id);
    OneFiles(OpenMessage(id), id, None, true, entries);
    OpenIsNamed(OpenMessage(id), id, RemoteOf(entries[id].stage));
  }

  lemma OpeningOk(t: Track, a: Action)
    requires TrackOk(t) && WellSized(a) && Legal(t, a) && (a.HostExec? || a.HostShell?)
    ensures TrackOk(Step(t, a))
  {
    hide EntryOk, Strays, ViewOf, OpenExec, OpenShell, OpenMessage, NewEntry, Entries;
    OpeningEntries(t, a);
    NewEntryOk(t.conn, PlanOf(a));
    OpenIsFiled(t.conn.nextId, Entries(t, a, ReactionTo(t.conn, a)));
  }

  lemma OpenIsNamed(m: Bytes, id: U32, remote: Option<U32>)
    requires IsSetup(m) && m[0] == MSG_CHANNEL_OPEN && OpenedId(m) == Ok(id)
    ensures Names(m, id, remote)
  {
  }

  lemma SendingOk(t: Track, a: Action)
    requires TrackOk(t) && WellSized(a) && a.HostSend?
    ensures TrackOk(Step(t, a))
  {
    hide EntryOk, ViewOf, SendData;
    if ReactionTo(t.conn, a).Reacted? {
      if a.id in t.conn.channels { SendKeepsRemote(t.conn.channels[a.id], a.data); }
      forall k ensures ViewOf(ReactionTo(t.conn, a).conn, k) == ViewOf(t.conn, k) { SendKeepsView(t.conn, a.id, a.data, k); }
      UneventfulOk(t, a);
    }
  }

  /** The host closes or resizes: exactly the message it asked for, if the channel has a name. */
  lemma HostAsksOk(t: Track, a: Action)
    requires TrackOk(t) && WellSized(a) && (a.HostClose? || a.HostResize?)
    ensures TrackOk(Step(t, a))
  {
    hide Mine, Strays, WindowChangeRequest, IdMessage, OpenMessage, First, Script, Updated, Entries, Distinct, Silent,
         NoFailures, Reads;
    var r := ReactionTo(t.conn, a);
    assert r.Reacted? && r.conn == t.conn && r.events == [];
    NoFailuresCount(0, []);
    if RemoteId(t.conn, a.id).None? {
      NothingIsUneventful(r);
      UneventfulOk(t, a);
    } else {
      var remote := RemoteId(t.conn, a.id).value;
      var e := t.entries[a.id];
      assert EntryOk(ViewOf(t.conn, a.id), a.id, e);
      assert RemoteOf(e.stage) == Some(remote);
      HostAskedOk(t, a, remote, e);
    }
  }

  lemma NothingIsUneventful(r: Reaction)
    requires r.Reacted? && r.sends == [] && r.events == []
    ensures Uneventful(r)
  {
  }

  lemma HostAskedOk(t: Track, a: Action, remote: U32, e: Entry)
    requires TrackOk(t) && WellSized(a) && (a.HostClose? || a.HostResize?)
    requires RemoteId(t.conn, a.id) == Some(remote) && a.id in t.entries && t.entries[a.id] == e
    requires RemoteOf(e.stage) == Some(remote) && (Asked(e.stage) || e.stage.Ready?)
    ensures TrackOk(Step(t, a))
  {
    hide Mine, Strays, WindowChangeRequest, IdMessage, OpenMessage, First, Script, Reads, EntryOk, ViewOf;
    var r := ReactionTo(t.conn, a);
    var m := r.sends[0];
    ExtrasRead(remote, if a.HostResize? then a.cols else 0, if a.HostResize? then a.rows else 0);
    assert r.sends == [m] && Reads(m, remote, false);
    ReadFiles(m, remote, a.id, Some(remote), false);
    var e' := Updated(e, a.id, a, r.sends, r.events);
    assert e.log + [] == e.log;
    assert e' == e.(extras := e.extras + [m], due := e.due + [m]);
    MoreExtras(ViewOf(t.conn, a.id), a.id, e, m);
    forall k | k in t.entries ensures FailuresFor(k, r.events) == 0 {}
    SubjectMoves(t, a, a.id, e');
  }

  lemma MoreExtras(v: View, id: U32, e: Entry, m: Bytes)
    requires EntryOk(v, id, e) && (Asked(e.stage) || e.stage.Ready?)
    ensures EntryOk(v, id, e.(extras := e.extras + [m], due := e.due + [m]))
  {
    hide OpenMessage, First, Script;
  }

  /** A subject's record has moved on well: `sends` is nothing, or one message for the name it now has,
      and no other channel failed. */
  ghost predicate MovedOn(r: Reaction, id: U32, e: Entry, a: Action) {
    && r.Reacted?
    && var e' := Updated(e, id, a, r.sends, r.events);
       && EntryOk(ViewOf(r.conn, id), id, e')
       && (r.sends == [] || (|r.sends| == 1 && RemoteOf(e'.stage).Some?
                             && exists setup :: Reads(r.sends[0], RemoteOf(e'.stage).value, setup)))
       && forall k :: k != id ==> FailuresFor(k, r.events) == 0
  }

  lemma ConfirmedMoves(conn: Conn, rest: Bytes, id: U32, e: Entry)
    requires EntryOk(ViewOf(conn, id), id, e) && e.stage.Requested?
    requires Subject(MSG_CHANNEL_OPEN_CONFIRMATION, rest) == Some(id)
    ensures MovedOn(OnConfirmationAndSetup(conn, rest), id, e, Message(MSG_CHANNEL_OPEN_CONFIRMATION, rest))
  {
    hide EntryOk, ViewOf, OnConfirmationAndSetup, Mine, First, Reads, NoFailures, FailuresFor, ParseConfirmation;
    var a, r := Message(MSG_CHANNEL_OPEN_CONFIRMATION, rest), OnConfirmationAndSetup(conn, rest);
    ConfirmedOk(conn, rest, id, e);
    var sender := ParseConfirmation(rest).value.sender;
    SetupReads(sender, e.plan);
    ReadFiles(First(e.plan, sender), sender, id, Some(sender), true);
    forall k: U32 ensures FailuresFor(k, r.events) == 0 { NoFailuresCount(k, r.events); }
    assert e.extras + [] == e.extras && e.due + [] == e.due;
    assert Updated(e, id, a, r.sends, r.events) == e.(stage := AskedFirst(sender), log := e.log + r.sends);
    assert Reads(r.sends[0], sender, true);
  }

  lemma RefusedMoves(conn: Conn, rest: Bytes, id: U32, e: Entry)
    requires EntryOk(ViewOf(conn, id), id, e) && e.stage.Requested?
    requires Subject(MSG_CHANNEL_OPEN_FAILURE, rest) == Some(id)
    ensures MovedOn(OnOpenFailure(conn, rest), id, e, Message(MSG_CHANNEL_OPEN_FAILURE, rest))
  {
    hide EntryOk, ViewOf, OnOpenFailure, Reads, FailuresFor, Subject;
    var a, r := Message(MSG_CHANNEL_OPEN_FAILURE, rest), OnOpenFailure(conn, rest);
    OpenRefusedOk(conn, rest, id, e);
    OneFailureFor(r.events, id);
    assert e.log + [] == e.log && e.extras + [] == e.extras && e.due + [] == e.due;
    assert Updated(e, id, a, r.sends, r.events) == e.(stage := OpenRefused, failures := e.failures + 1);
  }

  lemma SuccessMoves(conn: Conn, rest: Bytes, id: U32, e: Entry)
    requires EntryOk(ViewOf(conn, id), id, e) && Asked(e.stage)
    requires Subject(MSG_CHANNEL_SUCCESS, rest) == Some(id)
    ensures MovedOn(OnReply(conn, rest, true), id, e, Message(MSG_CHANNEL_SUCCESS, rest))
  {
    hide EntryOk, ViewOf, OnReply, Mine, ShellRequest, Reads, FailuresFor, Subject;
    var a, r, remote := Message(MSG_CHANNEL_SUCCESS, rest), OnReply(conn, rest, true), e.stage.remote;
    SuccessOk(conn, rest, id, e);
    SetupReads(remote, e.plan);
    ReadFiles(ShellRequest(remote), remote, id, Some(remote), true);
    SilentFiles([], id, Some(remote), true, map[]);
    SilentFiles([], id, Some(remote), false, map[]);
    forall k: U32 ensures FailuresFor(k, r.events) == 0 { NoEvents(k); }
    assert e.extras + [] == e.extras && e.due + [] == e.due;
    var stage := if r.sends != [] then AskedShell(remote) else Ready(remote);
    assert Updated(e, id, a, r.sends, r.events) == e.(stage := stage, log := e.log + r.sends);
    assert r.sends != [] ==> Reads(r.sends[0], remote, true);
  }

  lemma FailureMoves(conn: Conn, rest: Bytes, id: U32, e: Entry)
    requires EntryOk(ViewOf(conn, id), id, e) && Asked(e.stage)
    requires Subject(MSG_CHANNEL_FAILURE, rest) == Some(id)
    ensures MovedOn(OnReply(conn, rest, false), id, e, Message(MSG_CHANNEL_FAILURE, rest))
  {
    hide EntryOk, ViewOf, OnReply, Mine, IdMessage, Reads, FailuresFor, Subject;
    var a, r, remote := Message(MSG_CHANNEL_FAILURE, rest), OnReply(conn, rest, false), e.stage.remote;
    var last := IdMessage(MSG_CHANNEL_CLOSE, remote);
    FailureOk(conn, rest, id, e);
    ExtrasRead(remote, 0, 0);
    ReadFiles(last, remote, id, Some(remote), false);
    OneFailureFor(r.events, id);
    assert e.log + [] == e.log;
    assert Updated(e, id, a, r.sends, r.events)
        == e.(stage := Declined(remote), extras := e.extras + [last], due := e.due + [last], failures := e.failures + 1);
    assert Reads(r.sends[0], remote, false);
  }

  lemma ClosedMoves(conn: Conn, rest: Bytes, id: U32, e: Entry)
    requires EntryOk(ViewOf(conn, id), id, e)
    requires Subject(MSG_CHANNEL_CLOSE, rest) == Some(id)
    ensures MovedOn(OnClose(conn, rest), id, e, Message(MSG_CHANNEL_CLOSE, rest))
  {
    hide EntryOk, ViewOf, OnClose, Reads, FailuresFor, Subject, NextStage;
    var a, r := Message(MSG_CHANNEL_CLOSE, rest), OnClose(conn, rest);
    ClosedOk(conn, rest, id, e);
    ClosingIsQuiet(conn, rest, id);
    assert e.log + [] == e.log && e.extras + [] == e.extras && e.due + [] == e.due;
    assert Updated(e, id, a, r.sends, r.events) == e.(stage := NextStage(e, id, a));
  }

  /** What a message of the server does to its subject's record. */
  lemma SubjectOk(conn: Conn, msg: Byte, rest: Bytes, id: U32, e: Entry)
    requires IsChannelMessage(msg) && Subject(msg, rest) == Some(id) && EntryOk(ViewOf(conn, id), id, e)
    requires msg == MSG_CHANNEL_OPEN_CONFIRMATION || msg == MSG_CHANNEL_OPEN_FAILURE ==> e.stage.Requested?
    requires msg == MSG_CHANNEL_SUCCESS || msg == MSG_CHANNEL_FAILURE ==> Asked(e.stage)
    ensures MovedOn(OnMessage(conn, msg, rest), id, e, Message(msg, rest))
  {
    hide EntryOk, ViewOf, MovedOn, OnConfirmationAndSetup, OnOpenFailure, OnReply, OnClose;
    if msg == MSG_CHANNEL_OPEN_CONFIRMATION {
      ConfirmedMoves(conn, rest, id, e);
    } else if msg == MSG_CHANNEL_OPEN_FAILURE {
      RefusedMoves(conn, rest, id, e);
    } else if msg == MSG_CHANNEL_SUCCESS {
      SuccessMoves(conn, rest, id, e);
    } else if msg == MSG_CHANNEL_FAILURE {
      FailureMoves(conn, rest, id, e);
    } else {
      ClosedMoves(conn, rest, id, e);
    }
  }

  lemma NoEvents(k: U32) ensures FailuresFor(k, []) == 0 {}

  lemma OneFailureFor(events: seq<Event>, id: U32)
    requires |events| == 1 && events[0].ChannelOpenFailed? && events[0].id == id
    ensures forall k :: FailuresFor(k, events) == if k == id then 1 else 0
  {
    forall k ensures FailuresFor(k, events) == if k == id then 1 else 0 {
      OneFailure(k, events[0]);
      assert events == [events[0]];
    }
  }

  lemma ClosingIsQuiet(conn: Conn, rest: Bytes, id: U32)
    requires Subject(MSG_CHANNEL_CLOSE, rest) == Some(id)
    ensures OnClose(conn, rest).Reacted? && OnClose(conn, rest).sends == []
    ensures forall k :: FailuresFor(k, OnClose(conn, rest).events) == 0
  {
    hide GetU32;
    var events := OnClose(conn, rest).events;
    forall k: U32 ensures FailuresFor(k, events) == 0 { NoFailuresCount(k, events); }
  }

  /** A message about a channel that was opened. */
  lemma SubjectStepOk(t: Track, msg: Byte, rest: Bytes, id: U32)
    requires TrackOk(t) && WellSized(Message(msg, rest)) && Legal(t, Message(msg, rest))
    requires Subject(msg, rest) == Some(id) && id in t.entries
    ensures OnMessage(t.conn, msg, rest).Reacted?
    ensures TrackOk(Step(t, Message(msg, rest)))
  {
    hide EntryOk, ViewOf, OnMessage, Mine, Strays, Reads, Updated, FailuresFor, First;
    var a, e, r := Message(msg, rest), t.entries[id], OnMessage(t.conn, msg, rest);
    SubjectOk(t.conn, msg, rest, id, e);
    NoNewChannels(t.conn, msg, rest);
    forall k | k in t.entries && k != id ensures ViewOf(r.conn, k) == ViewOf(t.conn, k) { OthersUntouched(t.conn, msg, rest, k); }
    SubjectKeepsNames(t, msg, rest, id);
    SubjectMoves(t, a, id, Updated(e, id, a, r.sends, r.events));
  }

  /** The name a subject has afterwards is its own. */
  lemma SubjectKeepsNames(t: Track, msg: Byte, rest: Bytes, id: U32)
    requires Distinct(t.entries) && WellSized(Message(msg, rest)) && Legal(t, Message(msg, rest))
    requires Subject(msg, rest) == Some(id) && id in t.entries
    ensures var named := RemoteOf(NextStage(t.entries[id], id, Message(msg, rest)));
            forall k :: k in t.entries && k != id && named.Some? ==> RemoteOf(t.entries[k].stage) != named
    ensures forall sends, events ::
              Updated(t.entries[id], id, Message(msg, rest), sends, events).stage == NextStage(t.entries[id], id, Message(msg, rest))
  {
    hide Subject, ParseConfirmation, Mine, FailuresFor, DueFor;
  }

  lemma NoNewChannels(conn: Conn, msg: Byte, rest: Bytes)
    requires IsChannelMessage(msg) && OnMessage(conn, msg, rest).Reacted?
    ensures forall k :: k in OnMessage(conn, msg, rest).conn.channels ==> k in conn.channels
  {
    hide ParseConfirmation, ParseIdAndNumber, GetU32, ParseIdAndData, ParseExtended, ParseServerRequest, DescriptionOr,
         Str, Ascii, DefaultPty, GetUtf8, OnDataConsumed, AdjustMessage, IdMessage, ExecRequest, PtyRequest,
         ShellRequest;
  }

  lemma MessageOk(t: Track, msg: Byte, rest: Bytes)
    requires TrackOk(t) && WellSized(Message(msg, rest)) && Legal(t, Message(msg, rest))
    ensures TrackOk(Step(t, Message(msg, rest)))
  {
    hide EntryOk, ViewOf, OnMessage, Subject, Silent, NoFailures, Entries;
    var s := Subject(msg, rest);
    if s.Some? && s.value in t.entries {
      SubjectStepOk(t, msg, rest, s.value);
    } else if OnMessage(t.conn, msg, rest).Reacted? {
      NoSubjectIsUneventful(t.conn, msg, rest);
      NoNewChannels(t.conn, msg, rest);
      forall k | k in t.entries ensures ViewOf(OnMessage(t.conn, msg, rest).conn, k) == ViewOf(t.conn, k) {
        OthersUntouched(t.conn, msg, rest, k);
      }
      UneventfulOk(t, Message(msg, rest));
    }
  }

  lemma StepOk(t: Track, a: Action)
    requires TrackOk(t) && WellSized(a) && Legal(t, a)
    ensures TrackOk(Step(t, a))
  {
    hide TrackOk, Step, Legal;
    match a
    case HostExec(_) => OpeningOk(t, a);
    case HostShell(_) => OpeningOk(t, a);
    case HostSend(_, _) => SendingOk(t, a);
    case HostResize(_, _, _) => HostAsksOk(t, a);
    case HostClose(_) => HostAsksOk(t, a);
    case Message(msg, rest) => MessageOk(t, msg, rest);
  }

  /** No legal open or reply panics. */
  lemma LegalNeverPanics(t: Track, msg: Byte, rest: Bytes)
    requires TrackOk(t) && WellSized(Message(msg, rest)) && Legal(t, Message(msg, rest))
    requires Subject(msg, rest).Some? && Subject(msg, rest).value in t.entries
    ensures OnMessage(t.conn, msg, rest).Reacted?
  {
    hide TrackOk, OnMessage, Subject, Legal, Step;
    SubjectStepOk(t, msg, rest, Subject(msg, rest).value);
  }

  // ---- runs --------------------------------------------------------------------------------------------------

  predicate LegalRun(t: Track, actions: seq<Action>)
    decreases |actions|
  {
    actions == []
    || (WellSized(actions[0]) && Legal(t, actions[0]) && LegalRun(Step(t, actions[0]), actions[1..]))
  }

  function RunTrack(t: Track, actions: seq<Action>): Track
    requires LegalRun(t, actions)
    decreases |actions|
  {
    if actions == [] then t else RunTrack(Step(t, actions[0]), actions[1..])
  }

  lemma {:induction false} RunOk(t: Track, actions: seq<Action>)
    requires TrackOk(t) && LegalRun(t, actions)
    ensures TrackOk(RunTrack(t, actions))
    decreases |actions|
  {
    hide TrackOk, Step, Legal;
    if actions != [] {
      StepOk(t, actions[0]);
      RunOk(Step(t, actions[0]), actions[1..]);
    }
  }

  lemma NothingOpened()
    ensures TrackOk(NO_CHANNELS)
  {
  }

  /** Setup sequencing: over every run with any number of interleaved channels and a server that answers
      each open and request once. Every CHANNEL_OPEN, CHANNEL_REQUEST and CHANNEL_CLOSE sent in the whole
      run names a channel. On each channel the setup messages are a beginning of [OPEN, exec(command)] or
      [OPEN, pty-req(options), shell] with the stored argument, each sent once, as far as its stage says;
      the CLOSE and window-change messages are exactly those the host asked for and one CLOSE after a
      refused request; and there is exactly one ChannelOpenFailed if the open or a request was refused,
      and none otherwise. */
  lemma SetupSequencing(actions: seq<Action>, id: U32)
    requires LegalRun(NO_CHANNELS, actions) && id in RunTrack(NO_CHANNELS, actions).entries
    ensures var t := RunTrack(NO_CHANNELS, actions);
            t.stray == [] && Recorded(id, t.entries[id]) && Begins(id, t.entries[id].plan, t.entries[id].log)
  {
    hide LegalRun, RunTrack, Recorded, Begins, Placed, ViewOf, Distinct;
    NothingOpened();
    RunOk(NO_CHANNELS, actions);
    var t := RunTrack(NO_CHANNELS, actions);
    assert EntryOk(ViewOf(t.conn, id), id, t.entries[id]);
    LogBegins(id, t.entries[id]);
  }
}
