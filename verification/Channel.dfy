/** Channel messages and flow control, ssh-core/src/connection/channel.rs (section 5.2 of RFC 4254). */
module Channel {
  import opened Prelude
  import opened Wire

  const MSG_CHANNEL_OPEN: Byte := 90
  const MSG_CHANNEL_OPEN_CONFIRMATION: Byte := 91
  const MSG_CHANNEL_OPEN_FAILURE: Byte := 92
  const MSG_CHANNEL_WINDOW_ADJUST: Byte := 93
  const MSG_CHANNEL_DATA: Byte := 94
  const MSG_CHANNEL_EXTENDED_DATA: Byte := 95
  const MSG_CHANNEL_EOF: Byte := 96
  const MSG_CHANNEL_CLOSE: Byte := 97
  const MSG_CHANNEL_REQUEST: Byte := 98
  const MSG_CHANNEL_SUCCESS: Byte := 99
  const MSG_CHANNEL_FAILURE: Byte := 100

  const SSH_EXTENDED_DATA_STDERR: U32 := 1
  const INITIAL_WINDOW_SIZE: U32 := 2 * 1024 * 1024
  const MAX_PACKET_SIZE: U32 := 32 * 1024
  const WINDOW_ADJUST_THRESHOLD: U32 := 1024 * 1024

  datatype Kind = Exec | Shell
  datatype Lifecycle = OpenRequested | Open | EofSent | CloseSent | Closed

  datatype Channel = Channel(
    localId: U32,
    remoteId: Option<U32>,
    kind: Kind,
    lifecycle: Lifecycle,
    localWindow: U32,
    unadvertised: U32,
    remoteWindow: U32,
    remoteMaxPacket: U32)

  function New(localId: U32, kind: Kind): Channel {
    Channel(localId, None, kind, OpenRequested, INITIAL_WINDOW_SIZE, 0, 0, 0)
  }

  function SaturatingAdd(a: U32, b: U32): U32 { Min(a + b, U32_MAX) }
  function SaturatingSub(a: U32, b: U32): U32 { Max(a - b, 0) }

  // ---- messages ----------------------------------------------------------------------------------

  function SessionName(): Bytes { Ascii("session") }

  function OpenMessage(localId: U32): Bytes {
    [MSG_CHANNEL_OPEN]
    + (Str(SessionName()) + (U32Be(localId) + (U32Be(INITIAL_WINDOW_SIZE) + U32Be(MAX_PACKET_SIZE))))
  }

  /** What a peer learns from CHANNEL_OPEN: the channel type, and the opener's id, window and packet size. */
  datatype Opening = Opening(kind: Bytes, sender: U32, window: U32, maxPacket: U32)

  function ParseOpening(payload: Bytes): Result<Opening> {
    var (_, r0) :- GetU8(payload);
    var (kind, r1) :- GetString(r0);
    var (sender, r2) :- GetU32(r1);
    var (window, r3) :- GetU32(r2);
    var (maxPacket, _) :- GetU32(r3);
    Ok(Opening(kind, sender, window, maxPacket))
  }

  lemma SessionNameShort() ensures |SessionName()| <= 100 {}

  /** Every OPEN announces a window of 2 MiB and packets of 32 KiB. */
  lemma OpenRoundTrip(id: U32)
    ensures ParseOpening(OpenMessage(id)) == Ok(Opening(SessionName(), id, 0x20_0000, 0x8000))
  {
    hide Str, GetU8, GetString, GetU32, U32Be, SessionName;
    SessionNameShort();
    var w, m := U32Be(INITIAL_WINDOW_SIZE), U32Be(MAX_PACKET_SIZE);
    U8RoundTrip(MSG_CHANNEL_OPEN, Str(SessionName()) + (U32Be(id) + (w + m)));
    StrRoundTrip(SessionName(), U32Be(id) + (w + m));
    U32RoundTrip(id, w + m);
    U32RoundTrip(INITIAL_WINDOW_SIZE, m);
    U32RoundTrip(MAX_PACKET_SIZE, []);
    assert m + [] == m;
  }

  function DataMessage(remoteId: U32, chunk: Bytes): Bytes { [MSG_CHANNEL_DATA] + (U32Be(remoteId) + Str(chunk)) }

  function AdjustMessage(remoteId: U32, add: U32): Bytes {
    [MSG_CHANNEL_WINDOW_ADJUST] + (U32Be(remoteId) + U32Be(add))
  }

  function IdMessage(msg: Byte, remoteId: U32): Bytes { [msg] + U32Be(remoteId) }

  function RequestMessage(remoteId: U32, name: Bytes, wantReply: bool, fields: Bytes): Bytes {
    [MSG_CHANNEL_REQUEST] + (U32Be(remoteId) + (Str(name) + (Bool(wantReply) + fields)))
  }

  /** How a peer reads CHANNEL_DATA: the recipient id and the data. */
  function ParseData(payload: Bytes): Result<(U32, Bytes)> {
    var (_, r0) :- GetU8(payload);
    var (id, r1) :- GetU32(r0);
    var (data, _) :- GetString(r1);
    Ok((id, data))
  }

  lemma DataRoundTrip(remoteId: U32, chunk: Bytes)
    requires |chunk| < U32_LIMIT
    ensures ParseData(DataMessage(remoteId, chunk)) == Ok((remoteId, chunk))
  {
    hide U32Be, Str, GetU32, GetString, GetU8;
    U8RoundTrip(MSG_CHANNEL_DATA, U32Be(remoteId) + Str(chunk));
    U32RoundTrip(remoteId, Str(chunk));
    LastStr(chunk);
  }

  // ---- opening -----------------------------------------------------------------------------------

  function OnOpenConfirmation(ch: Channel, sender: U32, window: U32, maxPacket: U32): Channel {
    ch.(remoteId := Some(sender), lifecycle := Open, remoteWindow := window, remoteMaxPacket := Max(maxPacket, 1))
  }

  // ---- sending -----------------------------------------------------------------------------------

  /** What one `channel_send` did: the bytes consumed and the messages that carry them. */
  datatype Sending = Sending(ch: Channel, consumed: nat, messages: seq<Bytes>)

  function ChunkLen(ch: Channel, n: nat): (len: nat)
    ensures len <= n && len <= ch.remoteMaxPacket && len <= ch.remoteWindow
  {
    Min(Min(n, ch.remoteMaxPacket), ch.remoteWindow)
  }

  /** `build_data_messages`; `None` is the panic of `remote_id_or_panic`. */
  function SendData(ch: Channel, data: Bytes): (r: Option<Sending>)
    ensures r.Some? ==> r.value.consumed <= |data|
    decreases |data|
  {
    var n := ChunkLen(ch, |data|);
    if n == 0 then Some(Sending(ch, 0, []))
    else if ch.remoteId.None? then None
    else
      var rest :- SendData(ch.(remoteWindow := ch.remoteWindow - n), data[n..]);
      Some(Sending(rest.ch, n + rest.consumed, [DataMessage(ch.remoteId.value, data[..n])] + rest.messages))
  }

  /** A sending whose first part is already known. */
  function After(consumed: nat, messages: seq<Bytes>, tail: Option<Sending>): Option<Sending> {
    match tail
    case None => None
    case Some(t) => Some(Sending(t.ch, consumed + t.consumed, messages + t.messages))
  }

  lemma AfterNothing(tail: Option<Sending>)
    ensures After(0, [], tail) == tail
  {
    if tail.Some? { assert [] + tail.value.messages == tail.value.messages; }
  }

  lemma AfterStep(consumed: nat, messages: seq<Bytes>, n: nat, message: Bytes, tail: Option<Sending>)
    ensures After(consumed, messages, After(n, [message], tail)) == After(consumed + n, messages + [message], tail)
  {
    if tail.Some? {
      assert messages + ([message] + tail.value.messages) == (messages + [message]) + tail.value.messages;
    }
  }

  lemma SendDataStep(ch: Channel, data: Bytes)
    requires ChunkLen(ch, |data|) > 0 && ch.remoteId.Some?
    ensures var n := ChunkLen(ch, |data|);
            SendData(ch, data)
            == After(n, [DataMessage(ch.remoteId.value, data[..n])],
                     SendData(ch.(remoteWindow := ch.remoteWindow - n), data[n..]))
  {
    hide DataMessage;
  }

  lemma SendDataEnds(ch: Channel, data: Bytes)
    ensures ChunkLen(ch, |data|) == 0 ==> SendData(ch, data) == Some(Sending(ch, 0, []))
    ensures ChunkLen(ch, |data|) > 0 && ch.remoteId.None? ==> SendData(ch, data).None?
  {
  }

  /** The code. */
  method BuildDataMessages(ch: Channel, data: Bytes) returns (r: Option<Sending>)
    ensures r == SendData(ch, data)
  {
    hide DataMessage, After, SendData, ChunkLen;
    var cur := ch;
    var consumed := 0;
    var messages: seq<Bytes> := [];
    AfterNothing(SendData(ch, data));
    assert data[0..] == data;
    while consumed < |data| && cur.remoteWindow > 0
      invariant consumed <= |data|
      invariant SendData(ch, data) == After(consumed, messages, SendData(cur, data[consumed..]))
      decreases |data| - consumed
    {
      var chunkLen := ChunkLen(cur, |data| - consumed);
      SendDataEnds(cur, data[consumed..]);
      if chunkLen == 0 {
        break;
      }
      if cur.remoteId.None? {
        AfterPanic(consumed, messages);
        return None;
      }
      var chunk := data[consumed..consumed + chunkLen];
      var message := DataMessage(cur.remoteId.value, chunk);
      SendDataStep(cur, data[consumed..]);
      assert chunk == data[consumed..][..chunkLen];
      assert data[consumed..][chunkLen..] == data[consumed + chunkLen..];
      cur := cur.(remoteWindow := cur.remoteWindow - chunkLen);
      AfterStep(consumed, messages, chunkLen, message, SendData(cur, data[consumed + chunkLen..]));
      messages := messages + [message];
      consumed := consumed + chunkLen;
    }
    SendDataEnds(cur, data[consumed..]);
    AfterEnd(cur, consumed, messages);
    r := Some(Sending(cur, consumed, messages));
  }

  lemma AfterPanic(consumed: nat, messages: seq<Bytes>)
    ensures After(consumed, messages, None).None?
  {
  }

  lemma AfterEnd(ch: Channel, consumed: nat, messages: seq<Bytes>)
    ensures After(consumed, messages, Some(Sending(ch, 0, []))) == Some(Sending(ch, consumed, messages))
  {
    assert messages + [] == messages;
  }

  // ---- receiving ---------------------------------------------------------------------------------

  /** The outcome of `on_data_consumed`. */
  datatype Delivery = Quiet(ch: Channel) | Replenished(ch: Channel, add: U32, remoteId: U32) | DeliveryPanic

  function OnDataConsumed(ch: Channel, len: U32): Delivery {
    var taken := ch.(localWindow := SaturatingSub(ch.localWindow, len),
                     unadvertised := SaturatingAdd(ch.unadvertised, len));
    if taken.unadvertised < WINDOW_ADJUST_THRESHOLD then Quiet(taken)
    else
      match ch.remoteId
      case None => DeliveryPanic
      case Some(remote) =>
        Replenished(taken.(localWindow := SaturatingAdd(taken.localWindow, taken.unadvertised), unadvertised := 0),
                    taken.unadvertised, remote)
  }

  function OnWindowAdjust(ch: Channel, add: U32): Channel {
    ch.(remoteWindow := SaturatingAdd(ch.remoteWindow, add))
  }

  // ---- what every peer keeps ---------------------------------------------------------------------

  /** Holds of every channel in every run: nothing can be sent before confirmation, a confirmed
      channel can always make progress, and the receive window is conserved. */
  predicate Sound(ch: Channel) {
    && (ch.remoteId.None? <==> ch.remoteMaxPacket == 0)
    && ch.localWindow + ch.unadvertised == INITIAL_WINDOW_SIZE
    && ch.unadvertised < WINDOW_ADJUST_THRESHOLD
  }

  /** No received string is longer than a packet. */
  const MAX_DATA := 256 * 1024

  /** Receive-window conservation: the saturating operations never saturate, every byte taken from the
      window is either still unadvertised or granted back, and the window stays above 1 MiB. */
  lemma DeliveryConserves(ch: Channel, len: U32)
    requires Sound(ch) && len <= MAX_DATA
    ensures SaturatingSub(ch.localWindow, len) == ch.localWindow - len
    ensures SaturatingAdd(ch.unadvertised, len) == ch.unadvertised + len
    ensures match OnDataConsumed(ch, len)
            case Quiet(c) => Sound(c) && c.localWindow > WINDOW_ADJUST_THRESHOLD
                             && c.localWindow == ch.localWindow - len
            case Replenished(c, add, remote) => Sound(c) && c.localWindow == INITIAL_WINDOW_SIZE
                             && c.localWindow == ch.localWindow - len + add
                             && ch.remoteId == Some(remote)
            case DeliveryPanic => ch.remoteId.None?
  {
  }

  function Sum(ns: seq<int>): int { if ns == [] then 0 else ns[0] + Sum(ns[1..]) }

  /** The chunk each message carries, as the peer parses it. */
  function Chunks(messages: seq<Bytes>): seq<Bytes> {
    if messages == [] then []
    else [match ParseData(messages[0]) case Ok((_, data)) => data case Err(_) => []] + Chunks(messages[1..])
  }

  /** Every message is CHANNEL_DATA for `remoteId` with a chunk of 1..max bytes. */
  predicate CarriesChunks(messages: seq<Bytes>, remoteId: U32, max: nat) {
    && |Chunks(messages)| == |messages|
    && forall i :: 0 <= i < |messages| ==>
         1 <= |Chunks(messages)[i]| <= max && messages[i] == DataMessage(remoteId, Chunks(messages)[i])
  }

  lemma ChunksCons(remoteId: U32, max: nat, chunk: Bytes, rest: seq<Bytes>)
    requires 1 <= |chunk| <= max < U32_LIMIT && CarriesChunks(rest, remoteId, max)
    ensures CarriesChunks([DataMessage(remoteId, chunk)] + rest, remoteId, max)
    ensures Flatten(Chunks([DataMessage(remoteId, chunk)] + rest)) == chunk + Flatten(Chunks(rest))
  {
    hide DataMessage, ParseData;
    var all := [DataMessage(remoteId, chunk)] + rest;
    DataRoundTrip(remoteId, chunk);
    assert all[1..] == rest;
    assert Chunks(all) == [chunk] + Chunks(rest);
    assert Chunks(all)[1..] == Chunks(rest);
  }

  /** Send flow control for one call: exactly min(len, remote_window) bytes once confirmed and none
      before, in chunks of 1..remote_max_packet bytes addressed to the peer's id, which parse back
      and concatenate to the consumed prefix; `remote_id_or_panic` is unreachable. */
  lemma {:induction false} SendDataExact(ch: Channel, data: Bytes)
    requires Sound(ch)
    ensures SendData(ch, data).Some?
    ensures var s := SendData(ch, data).value;
            && s.consumed == (if ch.remoteId.Some? then Min(|data|, ch.remoteWindow) else 0)
            && s.ch == ch.(remoteWindow := ch.remoteWindow - s.consumed)
            && Flatten(Chunks(s.messages)) == data[..s.consumed]
            && (if ch.remoteId.Some? then CarriesChunks(s.messages, ch.remoteId.value, ch.remoteMaxPacket)
                else s.messages == [])
    decreases |data|
  {
    hide DataMessage, CarriesChunks, Flatten, Chunks;
    var n := ChunkLen(ch, |data|);
    if n == 0 {
      NoChunks(if ch.remoteId.Some? then ch.remoteId.value else 0, ch.remoteMaxPacket);
    } else {
      var next := ch.(remoteWindow := ch.remoteWindow - n);
      SendDataExact(next, data[n..]);
      var t := SendData(next, data[n..]).value;
      ChunksCons(ch.remoteId.value, ch.remoteMaxPacket, data[..n], t.messages);
      assert data[..n] + data[n..][..t.consumed] == data[..n + t.consumed];
    }
  }

  lemma NoChunks(remoteId: U32, max: nat)
    ensures CarriesChunks([], remoteId, max) && Flatten(Chunks([])) == []
  {
  }
}
