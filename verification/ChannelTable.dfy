/** `ChannelTable` of ssh-core/src/connection/mod.rs: a map of channels that every message updates in place. */
module ChannelTable {
  import opened Prelude
  import opened Wire
  import opened Events
  import opened Channel
  import C = Connection

  /** The messages `handle_message` itself acts on; replies to setup requests are the session's. */
  predicate IsTableMessage(msg: Byte) { MSG_CHANNEL_OPEN_CONFIRMATION <= msg <= MSG_CHANNEL_REQUEST }

  function OnTableMessage(conn: C.Conn, msg: Byte, r: Bytes): C.Reaction
    requires IsTableMessage(msg)
  {
    if msg == MSG_CHANNEL_OPEN_CONFIRMATION then C.OnConfirmation(conn, r) else C.OnMessage(conn, msg, r)
  }

  /** `Result<(Vec<Event>, Vec<Vec<u8>>)>`, or a panic. */
  datatype Handled = Handled(events: seq<Event>, outgoing: seq<Bytes>) | Refused(error: SshError) | Panicked

  class ChannelTable {
    var channels: map<U32, Channel>
    var nextId: U32

    /** The whole connection state, given the session's part of it. */
    ghost function Within(rest: C.Conn): C.Conn
      reads this
    {
      rest.(channels := channels, nextId := nextId)
    }

    /** The table has done what the reaction says. */
    ghost predicate Did(rest: C.Conn, h: Handled, r: C.Reaction)
      reads this
    {
      match r
      case Reacted(conn, sends, events) => h == Handled(events, sends) && Within(rest) == conn
      case Refused(e) => h == Refused(e) && Within(rest) == rest
      case Panicked => h == Panicked
    }

    constructor ()
      ensures channels == map[] && nextId == 0
    {
      channels, nextId := map[], 0;
    }

    method Open(kind: Kind) returns (id: U32, msg: Bytes)
      modifies this
      ensures id == old(nextId) && msg == OpenMessage(id)
      ensures forall rest :: Within(rest) == C.Opened(old(Within(rest)), kind)
    {
      id := nextId;
      nextId := (nextId + 1) % U32_LIMIT;
      var channel := New(id, kind);
      msg := OpenMessage(channel.localId);
      channels := channels[id := channel];
    }

    method Remove(id: U32)
      modifies this`channels
      ensures channels == old(channels) - {id}
    {
      channels := channels - {id};
    }

    /** `build_data_messages` on a channel of the table. */
    method Send(id: U32, data: Bytes) returns (r: Option<(nat, seq<Bytes>)>)
      requires id in channels
      modifies this`channels
      ensures match SendData(old(channels[id]), data)
              case None => r == None && channels == old(channels)
              case Some(s) => r == Some((s.consumed, s.messages)) && channels == old(channels)[id := s.ch]
    {
      var sending := BuildDataMessages(channels[id], data);
      match sending
      case None => r := None;
      case Some(s) =>
        channels := channels[id := s.ch];
        r := Some((s.consumed, s.messages));
    }

    /** `on_data_consumed` on a channel of the table, and the data event. */
    method Consume(id: U32, stream: DataStream, data: Bytes, ghost rest: C.Conn) returns (h: Handled)
      requires rest == Within(rest)
      modifies this`channels
      ensures Did(rest, h, C.Deliver(rest, id, stream, data))
    {
      if id !in channels {
        return Refused(ChannelError);
      }
      var delivery := OnDataConsumed(channels[id], |data| % U32_LIMIT);
      match delivery
      case DeliveryPanic =>
        h := Panicked;
      case Quiet(ch) =>
        channels := channels[id := ch];
        h := Handled([ChannelData(id, stream, data)], []);
      case Replenished(ch, add, remote) =>
        channels := channels[id := ch];
        h := Handled([ChannelData(id, stream, data)], [AdjustMessage(remote, add)]);
    }

    method HandleChannelRequest(fields: Bytes, ghost rest: C.Conn) returns (h: Handled)
      requires rest == Within(rest)
      modifies this`channels
      ensures Did(rest, h, C.OnRequest(rest, fields))
    {
      hide IdMessage, GetU32, GetUtf8, C.NameExitStatus, C.NameExitSignal;
      var request := C.ParseServerRequest(fields);
      if request.Err? {
        return Refused(request.error);
      }
      var m := request.value;
      if m.id !in channels {
        return Refused(ChannelError);
      }
      if m.name == C.NameExitStatus() {
        match GetU32(m.fields)
        case Err(e) => h := Refused(e);
        case Ok((code, _)) => h := Handled([ChannelExitStatus(m.id, Some(code), None)], []);
      } else if m.name == C.NameExitSignal() {
        match GetUtf8(m.fields)
        case Err(e) => h := Refused(e);
        case Ok((signal, _)) => h := Handled([ChannelExitStatus(m.id, None, Some(signal))], []);
      } else if !m.wantReply {
        h := Handled([], []);
      } else {
        match channels[m.id].remoteId
        case None => h := Panicked;
        case Some(remote) => h := Handled([], [IdMessage(MSG_CHANNEL_FAILURE, remote)]);
      }
    }

    /** `handle_message`: the table, the events and the replies are the specification's, and a refused
        message leaves the table as it was. */
    method HandleMessage(msg: Byte, fields: Bytes, ghost rest: C.Conn) returns (h: Handled)
      requires IsTableMessage(msg) && rest == Within(rest)
      modifies this`channels
      ensures Did(rest, h, OnTableMessage(rest, msg, fields))
    {
      hide GetU32, C.ParseConfirmation, C.ParseIdAndNumber, C.ParseIdAndData, C.ParseExtended, C.Deliver, C.OnRequest,
           C.DescriptionOr, C.StreamOf, OnOpenConfirmation, OnWindowAdjust;
      if msg == MSG_CHANNEL_OPEN_CONFIRMATION {
        var m := C.ParseConfirmation(fields);
        if m.Err? {
          return Refused(m.error);
        }
        if m.value.id !in channels {
          return Refused(ChannelError);
        }
        channels := channels[m.value.id := OnOpenConfirmation(channels[m.value.id], m.value.sender, m.value.window,
                                                              m.value.maxPacket)];
        h := Handled([ChannelOpened(m.value.id)], []);
      } else if msg == MSG_CHANNEL_OPEN_FAILURE {
        var m := C.ParseIdAndNumber(fields);
        if m.Err? {
          return Refused(m.error);
        }
        var (id, reason, more) := m.value;
        Remove(id);
        h := Handled([ChannelOpenFailed(id, reason, C.DescriptionOr(more))], []);
      } else if msg == MSG_CHANNEL_WINDOW_ADJUST {
        var m := C.ParseIdAndNumber(fields);
        if m.Err? {
          return Refused(m.error);
        }
        var (id, add, _) := m.value;
        if id !in channels {
          return Refused(ChannelError);
        }
        channels := channels[id := OnWindowAdjust(channels[id], add)];
        h := Handled([], []);
      } else if msg == MSG_CHANNEL_DATA {
        var m := C.ParseIdAndData(fields);
        if m.Err? {
          return Refused(m.error);
        }
        h := Consume(m.value.0, Stdout, m.value.1, rest);
      } else if msg == MSG_CHANNEL_EXTENDED_DATA {
        var m := C.ParseExtended(fields);
        if m.Err? {
          return Refused(m.error);
        }
        h := Consume(m.value.0, C.StreamOf(m.value.1), m.value.2, rest);
      } else if msg == MSG_CHANNEL_EOF {
        var m := GetU32(fields);
        if m.Err? {
          return Refused(m.error);
        }
        if m.value.0 !in channels {
          return Refused(ChannelError);
        }
        channels := channels[m.value.0 := channels[m.value.0].(lifecycle := EofSent)];
        h := Handled([ChannelEof(m.value.0)], []);
      } else if msg == MSG_CHANNEL_CLOSE {
        var m := GetU32(fields);
        if m.Err? {
          return Refused(m.error);
        }
        Remove(m.value.0);
        h := Handled([ChannelClosed(m.value.0)], []);
      } else {
        h := HandleChannelRequest(fields, rest);
      }
    }
  }
}
