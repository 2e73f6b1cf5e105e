/** What rejecting a host key does, for any peer and any host: it is the end of the session. */
module Rejection {
  import opened Prelude
  import opened Primitives
  import opened PacketStream
  import opened Events
  import opened SessionModel
  import opened SessionSafety
  import opened SessionRuns
  import Channel
  import Connection
  import Packet
  import H = HostKeyProof

  /** An over session that no cipher protects does nothing more, except perhaps panic. */
  predicate Frozen(s: State, t: State) { Over(t.phase) && t == s.(phase := t.phase) }

  /** An over session that still has a cipher: the key exchange stays as it is, and the sending cipher is the
      same one, some packets on. */
  ghost predicate Ending(s: State, t: State) {
    && Over(t.phase) && t.kex == s.kex && H.Moved(s.out.cs, t.out.cs)
    && (s.out.cs.None? ==> Frozen(s, t))
  }

  lemma EndingReflexive(s: State)
    requires Over(s.phase)
    ensures Ending(s, s)
  {
    hide H.Moved;
    H.MovedOnce(s.out.cs);
  }

  lemma EndingTransitive(s: State, t: State, u: State)
    requires Ending(s, t) && Ending(t, u)
    ensures Ending(s, u)
  {
    hide H.Moved;
    MovedKeepsNone(s.out.cs, t.out.cs);
    H.MovedTwice(s.out.cs, t.out.cs, u.out.cs);
  }

  lemma MovedKeepsNone(k: Option<Packet.Cipher>, k': Option<Packet.Cipher>)
    requires H.Moved(k, k')
    ensures k.None? <==> k'.None?
  {
  }

  lemma HaltedEnds(s: State)
    requires Over(s.phase)
    ensures Ending(s, Halt(s))
  {
    hide H.Moved;
    H.MovedOnce(s.out.cs);
  }

  lemma SentEnds(c: Suite, s: State, conn: Connection.Conn, payload: Bytes)
    requires Over(s.phase)
    ensures Ending(s, SendOrHalt(c, s, s.(conn := conn), payload))
  {
    hide H.Moved, SendCiphered;
    HaltedEnds(s);
    H.CipheredMoves(c, s.out, payload);
    CipheredGrows(c, s.out, payload);
  }

  /** With no cipher there is no channel, and nothing to say about one. */
  lemma NoChannelNoTalk(conn: Connection.Conn, id: U32, data: Bytes, cols: U32, rows: U32)
    requires conn.channels == map[]
    ensures Connection.ChannelSend(conn, id, data) == Connection.Reacted(conn, [], [])
    ensures Connection.ResizePty(conn, id, cols, rows) == Connection.Reacted(conn, [], [])
    ensures Connection.CloseChannel(conn, id) == Connection.Reacted(conn, [], [])
  {
  }

  lemma ReactEnds(c: Suite, s: State, r: Connection.Reaction)
    requires Over(s.phase) && !r.Refused?
    requires s.out.cs.None? ==> r == Connection.Reacted(s.conn, [], [])
    ensures Ending(s, Settle(s, React(c, s, r)))
  {
    hide H.Moved, SendEach;
    HaltedEnds(s);
    if r.Reacted? {
      H.EachMoves(c, s.out, r.sends);
      SendEachNone(c, s.out);
      assert s.events + [] == s.events;
    }
  }

  lemma ChannelCallEnds(c: Suite, s: State, i: Input)
    requires Always(s) && Over(s.phase) && (i.SendData? || i.Resize? || i.CloseChannel?)
    ensures Ending(s, HostCall(c, s, i))
  {
    hide Always, React, Connection.ChannelSend, Connection.ResizePty, Connection.CloseChannel, Ending;
    NoCipherNoChannel(s);
    var data := if i.SendData? then i.data else [];
    var cols := if i.Resize? then i.cols else 0;
    var rows := if i.Resize? then i.rows else 0;
    NoRefusal(s.conn, i.id, data, cols, rows);
    if s.out.cs.None? { NoChannelNoTalk(s.conn, i.id, data, cols, rows); }
    match i
    case SendData(id, data) => ReactEnds(c, s, Connection.ChannelSend(s.conn, id, data));
    case Resize(id, cols, rows) => ReactEnds(c, s, Connection.ResizePty(s.conn, id, cols, rows));
    case CloseChannel(id) => ReactEnds(c, s, Connection.CloseChannel(s.conn, id));
  }

  lemma NoCipherNoChannel(s: State)
    requires Always(s)
    ensures s.out.cs.None? ==> s.conn.channels == map[]
  {
  }

  lemma DoEnds(c: Suite, x: Session, i: Input)
    requires Always(x.core) && Over(x.core.phase)
    ensures Ending(x.core, Do(c, x, i).core)
  {
    hide Always, Ending, SendOrHalt, React, Connection.OpenExec, Connection.OpenShell, Channel.OpenMessage;
    EndingReflexive(x.core);
    var m := Channel.OpenMessage(x.core.conn.nextId);
    if x.core.phase != Halted {
      match i
      case Exec(command) => SentEnds(c, x.core, Connection.OpenExec(x.core.conn, command), m);
      case Shell(pty) => SentEnds(c, x.core, Connection.OpenShell(x.core.conn, pty), m);
      case SendData(_, _) => ChannelCallEnds(c, x.core, i);
      case Resize(_, _, _) => ChannelCallEnds(c, x.core, i);
      case CloseChannel(_) => ChannelCallEnds(c, x.core, i);
      case _ =>
    }
  }

  lemma {:induction false} RunEnds(c: Suite, x: Session, inputs: seq<Input>)
    requires LawfulAead(c) && Always(x.core) && Over(x.core.phase)
    ensures Ending(x.core, Run(c, x, inputs).core)
    decreases |inputs|
  {
    hide Always, Ending, Do, LawfulAead, Grows, Gated, Accepts;
    EndingReflexive(x.core);
    if inputs != [] {
      var y := Do(c, x, inputs[0]);
      DoEnds(c, x, inputs[0]);
      DoKeeps(c, x, inputs[0]);
      EndingIsOver(x.core, y.core);
      RunEnds(c, y, inputs[1..]);
      EndingTransitive(x.core, y.core, Run(c, y, inputs[1..]).core);
    }
  }

  lemma EndingIsOver(s: State, t: State)
    requires Ending(s, t)
    ensures Over(t.phase)
  {
  }

  // ---- the decision ------------------------------------------------------------------------------------

  /** The state after rejecting. */
  lemma RejectedIs(c: Suite, x: Session)
    requires x.core.phase == AwaitingHostKeyDecision
    ensures var y := Do(c, x, ProvideHostKeyDecision(false));
            && y.incoming == x.incoming && y.core.phase == Closed
            && y.core == x.core.(phase := Closed, events := x.core.events + [Unrecoverable(HostKeyRejected)])
  {
    hide Drive, Accepted;
  }

  /** Rejecting, after any run, any peer and any host: the session is closed, exactly one event has been
      raised, nothing has been sent. And whatever is fed or called from then on: no cipher becomes active in
      either direction, the one that sends (if any) being the one that did before, and the refused ones wait
      for ever; and if there was none, as always before a first acceptance, nothing is sent and nothing raised,
      nor does anything else change but that opening a channel may panic. */
  lemma RejectionIsFinal(c: Suite, inputs: seq<Input>, more: seq<Input>)
    requires LawfulAead(c) && Run(c, START, inputs).core.phase == AwaitingHostKeyDecision
    ensures var s := Run(c, START, inputs).core;
            var y := Do(c, Run(c, START, inputs), ProvideHostKeyDecision(false));
            var t := Run(c, y, more).core;
            && y.core.phase == Closed
            && y.core.events == s.events + [Unrecoverable(HostKeyRejected)]
            && y.core.out == s.out
            && Over(t.phase)
            && t.kex == s.kex && H.Moved(s.out.cs, t.out.cs)
            && (s.out.cs.None? ==> t.out == s.out && t.events == y.core.events && t == y.core.(phase := t.phase))
            && (NeverAccepts(c, START, inputs) ==> s.out.cs.None?)
  {
    hide Run, Always, Grows, Do, LawfulAead, NeverAccepts, H.Moved, Accepts;
    var x := Run(c, START, inputs);
    ReachableStates(c, inputs);
    RejectedIs(c, x);
    DoKeeps(c, x, ProvideHostKeyDecision(false));
    RunEnds(c, Do(c, x, ProvideHostKeyDecision(false)), more);
    if NeverAccepts(c, START, inputs) { HostKeyGate(c, inputs); }
  }

  /** When exactly rejecting silences a session for good: when no cipher was active. In a second exchange one
      is, and a closed session still opens channels under it. */
  lemma RejectionSilences(c: Suite, x: Session)
    requires LawfulAead(c) && Always(x.core) && x.core.phase == AwaitingHostKeyDecision
    ensures var y := Do(c, x, ProvideHostKeyDecision(false));
            (forall more: seq<Input> :: Run(c, y, more).core.out.sent == x.core.out.sent) <==> x.core.out.cs.None?
  {
    hide Run, Always, Grows, Do, LawfulAead, Gated, Accepts, H.Moved;
    var y := Do(c, x, ProvideHostKeyDecision(false));
    RejectedIs(c, x);
    DoKeeps(c, x, ProvideHostKeyDecision(false));
    forall more: seq<Input> | x.core.out.cs.None? ensures Run(c, y, more).core.out.sent == x.core.out.sent {
      RunEnds(c, y, more);
    }
    if x.core.out.cs.Some? {
      OpeningStillSends(c, y);
      assert Run(c, y, [Exec([])]).core.out.sent != x.core.out.sent;
    }
  }

  lemma OpeningStillSends(c: Suite, y: Session)
    requires y.core.phase == Closed && y.core.out.cs.Some?
    ensures |Run(c, y, [Exec([])]).core.out.sent| == |y.core.out.sent| + 1
  {
    hide Channel.OpenMessage, Connection.OpenExec;
    var z := Do(c, y, Exec([]));
    assert [Exec([])][1..] == [];
    assert Run(c, y, [Exec([])]) == Run(c, z, []) == z;
    EmitGrows(c, y.core.out, y.core.out.cs, Channel.OpenMessage(y.core.conn.nextId));
  }
}
