/** Host-facing events, ssh-core/src/event.rs. Strings are their UTF-8 bytes. */
module Events {
  import opened Prelude

  datatype DataStream = Stdout | Stderr

  datatype Event =
    | HostKeyVerify(algorithm: Bytes, fingerprint: Bytes, rawBlob: Bytes)
    | ReadyForAuth
    | AuthFailure(remainingMethods: seq<Bytes>)
    | AuthSuccess
    | ChannelOpened(id: U32)
    | ChannelOpenFailed(id: U32, reasonCode: U32, description: Bytes)
    | ChannelData(id: U32, stream: DataStream, data: Bytes)
    | ChannelWindowFull(id: U32)
    | ChannelExitStatus(id: U32, code: Option<U32>, signal: Option<Bytes>)
    | ChannelEof(id: U32)
    | ChannelClosed(id: U32)
    | Disconnected(reasonCode: U32, description: Bytes)
    | Unrecoverable(error: SshError)

  predicate IsTerminal(e: Event) { e.Disconnected? || e.Unrecoverable? }

  function Terminals(es: seq<Event>): nat {
    if es == [] then 0 else (if IsTerminal(es[0]) then 1 else 0) + Terminals(es[1..])
  }

  lemma {:induction false} TerminalsAppend(a: seq<Event>, b: seq<Event>)
    ensures Terminals(a + b) == Terminals(a) + Terminals(b)
  {
    if a == [] {
      assert a + b == b;
    } else {
      assert (a + b)[1..] == a[1..] + b;
      TerminalsAppend(a[1..], b);
    }
  }

  predicate IsChannelEvent(e: Event) {
    e.ChannelOpened? || e.ChannelOpenFailed? || e.ChannelData? || e.ChannelWindowFull? || e.ChannelExitStatus? || e.ChannelEof?
    || e.ChannelClosed?
  }

  function IfChannelEvent(e: Event): seq<Event> { if IsChannelEvent(e) then [e] else [] }

  function ChannelEvents(es: seq<Event>): seq<Event> {
    if es == [] then [] else IfChannelEvent(es[0]) + ChannelEvents(es[1..])
  }

  lemma {:induction false} ChannelEventsAppend(a: seq<Event>, b: seq<Event>)
    ensures ChannelEvents(a + b) == ChannelEvents(a) + ChannelEvents(b)
  {
    if a == [] {
      assert a + b == b;
    } else {
      hide IfChannelEvent;
      assert (a + b)[1..] == a[1..] + b;
      ChannelEventsAppend(a[1..], b);
      var x, y, z := IfChannelEvent(a[0]), ChannelEvents(a[1..]), ChannelEvents(b);
      assert (x + y) + z == x + (y + z);
    }
  }

  lemma OneMore(es: seq<Event>, e: Event)
    ensures ChannelEvents(es + [e]) == ChannelEvents(es) + if IsChannelEvent(e) then [e] else []
  {
    ChannelEventsAppend(es, [e]);
    assert [e][1..] == [];
  }
}
