/**
  What two-party runs guarantee, for every delivery schedule: neither side fails, ciphers stay in step
  with the packets handled, nothing deadlocks, and one exec channel is exactly what `FakeServer`'s
  answers allow.
 */
module Handshake {
  import opened Prelude
  import opened Primitives
  import opened Packet
  import opened PacketStream
  import opened SessionModel
  import opened FakeServer
  import opened HandshakeScript
  import opened Dialogue
  import opened TwoParty
  import opened TwoPartySteps
  import SessionSafety
  import SessionRuns
  import Events
  import Ident

  /** A run of the whole system in which the host keeps to what it may do. */
  ghost predicate Behaved(c: Suite, cfg: Config, acts: seq<Action>) {
    Setting(c, cfg) && AllPermitted(c, cfg, Opening(c), acts) && Execs(acts) + 1 < U32_LIMIT
  }

  function After(c: Suite, cfg: Config, acts: seq<Action>): Net { RunNet(c, cfg, Opening(c), acts) }

  lemma Reaches(c: Suite, cfg: Config, acts: seq<Action>) returns (x: Script, w: Account)
    requires Behaved(c, cfg, acts)
    ensures IsScript(c, cfg, x) && Holds(c, cfg, x, After(c, cfg, acts), w) && Begun(w) == Execs(acts)
    ensures Execs(acts) > 0 ==> CommandOf(w) == FirstCommand(acts)
  {
    hide Setting, IsScript, Holds, AllPermitted, Opening;
    x := ScriptExists(c, cfg);
    OpeningHolds(c, cfg, x);
    w := RunHolds(c, cfg, x, Opening(c), acts, Greeting(0, 0));
  }

  // ---- nobody fails --------------------------------------------------------------------------------------

  lemma ClosedNeedsTwo(c: Suite, cfg: Config, x: Script, s: State, v: Server, w: Account)
    requires InStep(c, cfg, x, s, v, w)
    ensures s.phase != Halted && (s.phase == SessionModel.Closed ==> Begun(w) >= 2)
  {
    hide AllSay, ServerAt, ChannelTalk, AuthTalk, Carries;
    if w.Greeting? { GreetingPhases(c, x, s, w.heardC); }
  }

  /** In every schedule the server answers everything and the client never panics; and with at most one
      exec channel the client stays open. */
  lemma NobodyFails(c: Suite, cfg: Config, acts: seq<Action>)
    requires Behaved(c, cfg, acts)
    ensures var net := After(c, cfg, acts);
            && !net.server.core.phase.Trapped?
            && net.client.core.phase != Halted
            && (Execs(acts) <= 1 ==> net.client.core.phase != SessionModel.Closed)
  {
    hide InStep, After, IsScript, Behaved, PipesHold, Drained;
    var x, w := Reaches(c, cfg, acts);
    var net := After(c, cfg, acts);
    ServerPhases(c, cfg, x, net.client.core, net.server.core, w);
    ClosedNeedsTwo(c, cfg, x, net.client.core, net.server.core, w);
  }

  // ---- ciphers in step -------------------------------------------------------------------------------------

  /** The sequence number of a cipher that is in place is the number of packets before it: the items of
      the log after its line, plaintext packets included. */
  predicate Counts(k: Option<Cipher>, items: nat) { k.Some? ==> items > 0 && k.value.seqNo == (items - 1) % U32_LIMIT }

  /** One direction: `heard` items have been handled, what is buffered and in flight is the rest, both
      ciphers count the packets on their side, and the next packet opens to what was sealed. */
  ghost predicate DirectionInStep(c: Suite, sent: seq<Sent>, heard: nat, skip: nat, waiting: Bytes, sending: Option<Cipher>,
                                  receiving: Option<Cipher>, paused: bool) {
    && Remaining(c, sent, heard, skip, waiting)
    && Counts(sending, |sent|)
    && Counts(receiving, heard)
    && (0 < heard < |sent| && !paused ==>
          && sent[heard].Sealed?
          && var wire := WireOf(c, sent[heard]);
             NextFrame(c, receiving, wire) == Got(|wire|, AdvanceOpt(receiving), sent[heard].payload))
  }

  lemma {:induction false} CarriesCounts(k: Cipher, items: seq<Sent>, payloads: seq<Bytes>, end: Cipher, n: nat)
    requires Carries(k, items, payloads, end) && n > 0 && k.seqNo == (n - 1) % U32_LIMIT
    ensures end.seqNo == (n + |items| - 1) % U32_LIMIT
    decreases |items|
  {
    hide Says, Advance;
    if items != [] {
      NextSeqCounts(n, k);
      CarriesCounts(Advance(k), items[1..], payloads[1..], end, n + 1);
    }
  }

  lemma ClientCounts(c: Suite, cfg: Config, x: Script, s: State, heard: nat)
    requires ClientOn(c, x, s, heard)
    ensures Counts(s.kex.sc, heard) && Counts(s.out.cs, |s.out.sent|)
  {
    hide ClientScript, Keys, MidLine, OwnC, OwnS, Negotiated, AfterCookie;
    GreetingPhases(c, x, s, heard);
    ServerSaidSizes(c, cfg, x);
    KeysStartAtThree(c, x);
    SaidSize(s.out.sent, ClientScript(c, x), ClientSaid(heard, s.phase == ServiceRequest));
  }

  lemma ServerCounts(c: Suite, cfg: Config, x: Script, v: Server, heard: nat)
    requires ServerOn(c, cfg, x, v, heard)
    ensures Counts(v.cs, heard) && Counts(v.out.cs, |v.out.sent|)
  {
    hide ServerScript, Keys, OwnC, OwnS, AfterCookie;
    ServerSaidSizes(c, cfg, x);
    KeysStartAtThree(c, x);
    SaidSize(v.out.sent, ServerScript(c, cfg, x), ServerSaid(heard));
  }

  lemma GreetingCounts(c: Suite, cfg: Config, x: Script, s: State, v: Server, w: Account)
    requires InStep(c, cfg, x, s, v, w) && w.Greeting?
    ensures Counts(s.kex.sc, w.heardC) && Counts(v.cs, w.heardS)
    ensures Counts(s.out.cs, |s.out.sent|) && Counts(v.out.cs, |v.out.sent|)
  {
    hide ClientOn, ServerOn, Counts;
    ClientCounts(c, cfg, x, s, w.heardC);
    ServerCounts(c, cfg, x, v, w.heardS);
  }

  lemma ConversingCounts(c: Suite, cfg: Config, s: State, v: Server, w: Account)
    requires w.Conversing? && InDialogue(c, cfg, s, v, w)
    ensures Counts(s.kex.sc, w.heardC) && Counts(v.cs, w.heardS)
    ensures Counts(s.out.cs, |s.out.sent|) && Counts(v.out.cs, |v.out.sent|)
  {
    hide Talking, Carries;
    CarriesCounts(s.kex.sc.value, v.out.sent[w.heardC..], Encodes(cfg, w.ps), v.out.cs.value, w.heardC);
    CarriesCounts(v.cs.value, s.out.sent[w.heardS..], Puts(w.qs), s.out.cs.value, w.heardS);
  }

  lemma OpensAlone(c: Suite, item: Sent, k: Option<Cipher>)
    requires LawfulAead(c) && OpensUnder(item, k)
    ensures item.Sealed?
    ensures NextFrame(c, k, WireOf(c, item)) == Got(|WireOf(c, item)|, AdvanceOpt(k), item.payload)
  {
    hide NextFrame, WireOf, LawfulAead;
    var wire := WireOf(c, item);
    assert wire + wire[|wire|..] == wire;
    NextOpens(c, item, k, wire);
  }

  lemma ToClientInStep(c: Suite, cfg: Config, x: Script, net: Net, w: Account)
    requires Setting(c, cfg) && LawfulAead(c) && IsScript(c, cfg, x) && Holds(c, cfg, x, net, w)
    ensures var s, v := net.client.core, net.server.core;
            DirectionInStep(c, v.out.sent, w.heardC, Skip(s), net.client.incoming + net.toClient, v.out.cs, s.kex.sc,
                            Idle(s.phase))
  {
    hide Setting, IsScript, InStep, Drained, NextFrame, WireOf, Counts, LawfulAead, OpensUnder;
    var s, v := net.client.core, net.server.core;
    Counted(c, cfg, x, s, v, w);
    if 0 < w.heardC < |v.out.sent| && !Idle(s.phase) {
      PastVersions(c, cfg, x, s, v, w);
      var _ := ClientItem(c, cfg, x, s, v, w);
      OpensAlone(c, v.out.sent[w.heardC], s.kex.sc);
    }
  }

  lemma ToServerInStep(c: Suite, cfg: Config, x: Script, net: Net, w: Account)
    requires Setting(c, cfg) && LawfulAead(c) && IsScript(c, cfg, x) && Holds(c, cfg, x, net, w)
    ensures var s, v := net.client.core, net.server.core;
            DirectionInStep(c, s.out.sent, w.heardS, 0, net.server.incoming + net.toServer, s.out.cs, v.cs, false)
  {
    hide Setting, IsScript, InStep, Drained, NextFrame, WireOf, Counts, LawfulAead, OpensUnder;
    var s, v := net.client.core, net.server.core;
    Counted(c, cfg, x, s, v, w);
    assert Render(c, s.out.sent[w.heardS..])[0..] == Render(c, s.out.sent[w.heardS..]);
    if 0 < w.heardS < |s.out.sent| {
      var _ := ServerItem(c, cfg, x, s, v, w);
      OpensAlone(c, s.out.sent[w.heardS], v.cs);
    }
  }

  /** In every reachable state each direction is in step: the bytes buffered and in flight are exactly
      the items not yet handled, every active cipher's sequence number is the number of packets sent or
      handled on that side, plaintext ones included, modulo 2^32, and the next packet opens to exactly
      the payload sealed. */
  lemma CiphersInStep(c: Suite, cfg: Config, acts: seq<Action>) returns (heardC: nat, heardS: nat)
    requires Behaved(c, cfg, acts)
    ensures var net := After(c, cfg, acts); var s, v := net.client.core, net.server.core;
            && DirectionInStep(c, v.out.sent, heardC, Skip(s), net.client.incoming + net.toClient, v.out.cs, s.kex.sc,
                               Idle(s.phase))
            && DirectionInStep(c, s.out.sent, heardS, 0, net.server.incoming + net.toServer, s.out.cs, v.cs, false)
  {
    hide After, Behaved, Setting, IsScript, Holds, DirectionInStep, LawfulAead;
    var x, w := Reaches(c, cfg, acts);
    heardC, heardS := w.heardC, w.heardS;
    BehavedIsLawful(c, cfg, acts);
    ToClientInStep(c, cfg, x, After(c, cfg, acts), w);
    ToServerInStep(c, cfg, x, After(c, cfg, acts), w);
  }

  lemma BehavedIsLawful(c: Suite, cfg: Config, acts: seq<Action>)
    requires Behaved(c, cfg, acts)
    ensures Setting(c, cfg) && LawfulAead(c)
  {
  }

  lemma Counted(c: Suite, cfg: Config, x: Script, s: State, v: Server, w: Account)
    requires InStep(c, cfg, x, s, v, w)
    ensures Counts(s.kex.sc, w.heardC) && Counts(v.cs, w.heardS)
    ensures Counts(s.out.cs, |s.out.sent|) && Counts(v.out.cs, |v.out.sent|)
  {
    hide InDialogue, ClientOn, ServerOn, Counts;
    if w.Greeting? {
      GreetingCounts(c, cfg, x, s, v, w);
    } else {
      ConversingCounts(c, cfg, s, v, w);
    }
  }

  lemma PastVersions(c: Suite, cfg: Config, x: Script, s: State, v: Server, w: Account)
    requires InStep(c, cfg, x, s, v, w) && w.heardC > 0
    ensures s.phase != VersionExchange
  {
    hide InStep;
    if s.phase == VersionExchange { GreetingFacts(c, cfg, x, s, v, w); }
  }

  // ---- nothing left in flight ------------------------------------------------------------------------------

  lemma NothingWaits(c: Suite, buf: Bytes, sent: seq<Sent>, heard: nat)
    requires heard < |sent| && buf == Render(c, sent[heard..]) && LessThanNext(c, buf, sent[heard..])
    ensures WireOf(c, sent[heard]) == []
  {
    hide WireOf;
    RenderNext(c, sent, heard);
  }

  /** How a session can stand when every byte has been delivered. */
  predicate AtRest(s: State) {
    || s.phase == AwaitingHostKeyDecision
    || (s.phase == UserAuth && s.pendingAuth == None)
    || (s.phase == SessionModel.Connected && s.pendingAuth == None)
  }

  lemma GreetingRests(c: Suite, cfg: Config, x: Script, s: State, v: Server, w: Account)
    requires InStep(c, cfg, x, s, v, w) && w.Greeting?
    requires w.heardS == |s.out.sent| && (Idle(s.phase) || w.heardC == |v.out.sent|)
    ensures s.phase == AwaitingHostKeyDecision
  {
    hide AllSay, ServerAt, ClientAt, ServerScript, ClientScript;
    GreetingPhases(c, x, s, w.heardC);
    ServerSaidSizes(c, cfg, x);
    SaidSize(v.out.sent, ServerScript(c, cfg, x), ServerSaid(w.heardS));
    SaidSize(s.out.sent, ClientScript(c, x), ClientSaid(w.heardC, s.phase == ServiceRequest));
  }

  lemma NoRangeLeft(i: nat, j: nat)
    requires i <= j <= U32_LIMIT && Range(i, j) == []
    ensures i == j
  {
    RangeSize(i, j);
  }

  lemma FlightRests(g: Progress)
    requires InFlight([], [], g)
    ensures g.begun == g.confirmed == g.closed <= 1
  {
    hide ExecReplies;
    NoRangeLeft(g.confirmed, g.offered);
    NoRangeLeft(g.offered, g.begun);
    assert |Answers(g.tail, g.blocks)| == g.tail + |Blocks(g.blocks)|;
    BlocksSize(g.blocks);
  }

  lemma {:induction false} BlocksSize(n: nat)
    ensures |Blocks(n)| == 5 * n
  {
    if n > 0 { BlocksSize(n - 1); }
  }

  lemma ConversingRests(c: Suite, cfg: Config, s: State, v: Server, w: Account)
    requires w.Conversing? && InDialogue(c, cfg, s, v, w) && w.heardS == |s.out.sent|
    requires s.phase == SessionModel.Closed || w.heardC == |v.out.sent|
    ensures s.phase != SessionModel.Closed ==> AtRest(s) && w.g.begun <= 1
    ensures s.phase == SessionModel.Connected ==> s.conn.channels == map[]
  {
    hide Carries, InFlight, UsableKey, Waiting, Encodes, Puts;
    CarriesSizes(v.cs.value, s.out.sent[w.heardS..], Puts(w.qs), s.out.cs.value);
    PutsSize(w.qs);
    if s.phase != SessionModel.Closed {
      CarriesSizes(s.kex.sc.value, v.out.sent[w.heardC..], Encodes(cfg, w.ps), v.out.cs.value);
      EncodesSize(cfg, w.ps);
      if s.phase == SessionModel.Connected {
        FlightRests(w.g);
        assert forall id :: id !in s.conn.channels;
      }
    }
  }

  lemma LineWire(c: Suite, text: Bytes) ensures WireOf(c, Line(text)) == text {}

  lemma ServerRests(c: Suite, cfg: Config, x: Script, net: Net, w: Account)
    requires Setting(c, cfg) && IsScript(c, cfg, x) && Holds(c, cfg, x, net, w) && net.toServer == []
    ensures w.heardS == |net.client.core.out.sent|
  {
    hide Setting, IsScript, InStep, Render, WireOf, Lawful, LessThanNext, OpensUnder, Ident.CLIENT_IDENT;
    var s, v := net.client.core, net.server.core;
    SettingIsLawful(c, cfg);
    if w.heardS < |s.out.sent| {
      assert net.server.incoming + [] == net.server.incoming;
      NothingWaits(c, net.server.incoming, s.out.sent, w.heardS);
      if w.heardS == 0 {
        ServerGreetingFacts(c, cfg, x, s, v, w);
        LineWire(c, Ident.CLIENT_IDENT_LINE);
      } else {
        var _ := ServerItem(c, cfg, x, s, v, w);
        OpensSealed(s.out.sent[w.heardS], v.cs);
        WireIsLong(c, s.out.sent[w.heardS]);
      }
      assert false;
    }
  }

  lemma ClientRests(c: Suite, cfg: Config, x: Script, net: Net, w: Account)
    requires Setting(c, cfg) && IsScript(c, cfg, x) && Holds(c, cfg, x, net, w) && net.toClient == []
    requires !Idle(net.client.core.phase)
    ensures w.heardC == |net.server.core.out.sent|
  {
    hide Setting, IsScript, InStep, Render, WireOf, Lawful, LessThanNext, OpensUnder, IdentLine;
    var s, v := net.client.core, net.server.core;
    SettingIsLawful(c, cfg);
    assert net.client.incoming + [] == net.client.incoming;
    if s.phase == VersionExchange {
      GreetingFacts(c, cfg, x, s, v, w);
      RenderNext(c, v.out.sent, 0);
      LineWire(c, IdentLine());
      assert false;
    } else if w.heardC < |v.out.sent| {
      assert Render(c, v.out.sent[w.heardC..])[0..] == Render(c, v.out.sent[w.heardC..]);
      NothingWaits(c, net.client.incoming, v.out.sent, w.heardC);
      var _ := ClientItem(c, cfg, x, s, v, w);
      OpensSealed(v.out.sent[w.heardC], s.kex.sc);
      WireIsLong(c, v.out.sent[w.heardC]);
      assert false;
    }
  }

  /** No deadlock, and the exact limit of the test server. Whenever every byte sent has been delivered,
      the session is closed if and only if the host has opened two or more exec channels (the server
      addresses every answer to its own channel id 0); otherwise it is waiting for the host: for the
      key decision, for an authentication attempt, or connected with every channel it opened opened,
      answered and closed again. */
  lemma RestsUnlessTwoChannels(c: Suite, cfg: Config, acts: seq<Action>)
    requires Behaved(c, cfg, acts)
    requires After(c, cfg, acts).toServer == [] && After(c, cfg, acts).toClient == []
    ensures var s := After(c, cfg, acts).client.core;
            && (s.phase == SessionModel.Closed <==> Execs(acts) >= 2)
            && (Execs(acts) <= 1 ==> AtRest(s))
            && (s.phase == SessionModel.Connected ==> s.conn.channels == map[])
  {
    hide After, Behaved, IsScript, InStep, AtRest, PipesHold, Drained, Setting;
    var x, w := Reaches(c, cfg, acts);
    BehavedIsLawful(c, cfg, acts);
    var net := After(c, cfg, acts);
    ServerRests(c, cfg, x, net, w);
    if !Idle(net.client.core.phase) { ClientRests(c, cfg, x, net, w); }
    ClosedNeedsTwo(c, cfg, x, net.client.core, net.server.core, w);
    Rests(c, cfg, x, net.client.core, net.server.core, w);
  }

  lemma Rests(c: Suite, cfg: Config, x: Script, s: State, v: Server, w: Account)
    requires InStep(c, cfg, x, s, v, w)
    requires w.heardS == |s.out.sent| && (Idle(s.phase) || w.heardC == |v.out.sent|)
    ensures s.phase != SessionModel.Closed ==> AtRest(s) && Begun(w) <= 1
    ensures s.phase == SessionModel.Connected ==> s.conn.channels == map[]
  {
    hide InDialogue, ClientOn, ServerOn;
    if w.Greeting? {
      GreetingRests(c, cfg, x, s, v, w);
    } else {
      TalkingNotPaused(c, cfg, s, v, w);
      ConversingRests(c, cfg, s, v, w);
    }
  }

  lemma TalkingNotPaused(c: Suite, cfg: Config, s: State, v: Server, w: Account)
    requires w.Conversing? && InDialogue(c, cfg, s, v, w)
    ensures s.phase == UserAuth || s.phase == SessionModel.Connected || s.phase == SessionModel.Closed
  {
    hide Carries, ChannelTalk, AuthTalk;
  }

  // ---- the command that runs -----------------------------------------------------------------------------

  lemma ConversingRan(c: Suite, cfg: Config, s: State, v: Server, w: Account)
    requires w.Conversing? && InDialogue(c, cfg, s, v, w) && w.g.begun == 1
    requires w.heardS == |s.out.sent| && w.heardC == |v.out.sent|
    ensures s.phase == SessionModel.Connected && s.username == Some(cfg.username)
    ensures Events.ChannelEvents(s.events) == ExecEvents(cfg) && v.lastExec == Some(w.g.command)
  {
    hide Carries, InFlight, UsableKey, Waiting, Encodes, Puts, ExecEvents, Events.ChannelEvents;
    CarriesSizes(v.cs.value, s.out.sent[w.heardS..], Puts(w.qs), s.out.cs.value);
    PutsSize(w.qs);
    CarriesSizes(s.kex.sc.value, v.out.sent[w.heardC..], Encodes(cfg, w.ps), v.out.cs.value);
    EncodesSize(cfg, w.ps);
    FlightRests(w.g);
    assert ExecEvents(cfg)[..5] == ExecEvents(cfg);
  }

  /** One exec channel does its job. When everything has been delivered, the server has run exactly the
      command the host asked for, in a session authenticated as the server's own user, and the host has
      been told, once each and in order: opened, the command's output, the exit status, end of file,
      closed. */
  lemma OneCommandRuns(c: Suite, cfg: Config, acts: seq<Action>)
    requires Behaved(c, cfg, acts) && Execs(acts) == 1
    requires After(c, cfg, acts).toServer == [] && After(c, cfg, acts).toClient == []
    ensures var net := After(c, cfg, acts);
            && net.client.core.phase == SessionModel.Connected
            && net.client.core.username == Some(cfg.username)
            && net.server.core.lastExec == Some(FirstCommand(acts))
            && Events.ChannelEvents(net.client.core.events) == ExecEvents(cfg)
  {
    hide After, Behaved, IsScript, InDialogue, ClientOn, ServerOn, PipesHold, Drained, Setting, ExecEvents,
         Events.ChannelEvents;
    var x, w := Reaches(c, cfg, acts);
    BehavedIsLawful(c, cfg, acts);
    var net := After(c, cfg, acts);
    ServerRests(c, cfg, x, net, w);
    ClosedNeedsTwo(c, cfg, x, net.client.core, net.server.core, w);
    TalkingNotPaused(c, cfg, net.client.core, net.server.core, w);
    ClientRests(c, cfg, x, net, w);
    ConversingRan(c, cfg, net.client.core, net.server.core, w);
  }

  // ---- every exchange comes to rest ------------------------------------------------------------------------

  predicate OnlyDeliveries(acts: seq<Action>) { forall a | a in acts :: !a.Host? }

  /** Deliver everything now in flight, first to the server and then to the client. */
  function Round(c: Suite, cfg: Config, net: Net): seq<Action> {
    var first := DeliverToServer(|net.toServer|);
    [first, DeliverToClient(|Next(c, cfg, net, first).toClient|)]
  }

  lemma {:induction false} RunAppends(c: Suite, cfg: Config, net: Net, a: seq<Action>, b: seq<Action>)
    ensures RunNet(c, cfg, net, a + b) == RunNet(c, cfg, RunNet(c, cfg, net, a), b)
    ensures AllPermitted(c, cfg, net, a) && AllPermitted(c, cfg, RunNet(c, cfg, net, a), b) ==> AllPermitted(c, cfg, net, a + b)
    ensures Execs(a + b) == Execs(a) + Execs(b)
    decreases |a|
  {
    hide Next, Permitted;
    if a == [] {
      assert a + b == b;
    } else {
      assert (a + b)[0] == a[0] && (a + b)[1..] == a[1..] + b;
      RunAppends(c, cfg, Next(c, cfg, net, a[0]), a[1..], b);
    }
  }

  lemma {:induction false} DeliveriesArePermitted(c: Suite, cfg: Config, net: Net, acts: seq<Action>)
    requires OnlyDeliveries(acts)
    ensures AllPermitted(c, cfg, net, acts) && Execs(acts) == 0
    decreases |acts|
  {
    hide Next;
    if acts != [] {
      assert acts[0] in acts;
      forall a | a in acts[1..] ensures a in acts {}
      DeliveriesArePermitted(c, cfg, Next(c, cfg, net, acts[0]), acts[1..]);
    }
  }

  lemma DeliveredAll(c: Suite, cfg: Config, net: Net)
    ensures Next(c, cfg, net, DeliverToClient(|net.toClient|)).toClient == []
    ensures Next(c, cfg, net, DeliverToServer(|net.toServer|)).toServer == []
  {
    hide Drive, Serve, Render;
  }

  /** After a round nothing is in flight, or there is strictly less left to say. */
  lemma RoundHelps(c: Suite, cfg: Config, x: Script, net: Net, w: Account) returns (w': Account)
    requires Setting(c, cfg) && IsScript(c, cfg, x) && Holds(c, cfg, x, net, w)
    ensures var y := RunNet(c, cfg, net, Round(c, cfg, net));
            && Holds(c, cfg, x, y, w')
            && y.toClient == []
            && (y.toServer == [] || Load(w') < Load(w))
            && OnCourse(cfg, net.client.core, w, y.client.core, w')
            && SameTask(w, w')
  {
    hide Setting, IsScript, Holds, Next, Load;
    var first := DeliverToServer(|net.toServer|);
    var one := Next(c, cfg, net, first);
    var second := DeliverToClient(|one.toClient|);
    DeliveredAll(c, cfg, net);
    DeliveredAll(c, cfg, one);
    var mid := BytesToServer(c, cfg, x, net, |net.toServer|, w);
    w' := BytesToClient(c, cfg, x, one, |one.toClient|, mid);
    RunTwo(c, cfg, net, first, second);
  }

  lemma RunTwo(c: Suite, cfg: Config, net: Net, a: Action, b: Action)
    ensures RunNet(c, cfg, net, [a, b]) == Next(c, cfg, Next(c, cfg, net, a), b)
  {
    hide Next;
    assert [a, b][1..] == [b] && [b][1..] == [];
    assert RunNet(c, cfg, Next(c, cfg, net, a), [b]) == Next(c, cfg, Next(c, cfg, net, a), b);
  }

  lemma LoadIsNat(c: Suite, cfg: Config, x: Script, net: Net, w: Account)
    requires Holds(c, cfg, x, net, w)
    ensures Load(w) >= 0
  {
    hide InDialogue, ClientOn, ServerOn, PipesHold, Drained;
  }

  lemma {:induction false} Settles(c: Suite, cfg: Config, x: Script, net: Net, w: Account)
    returns (acts: seq<Action>, w': Account)
    requires Setting(c, cfg) && IsScript(c, cfg, x) && Holds(c, cfg, x, net, w)
    ensures OnlyDeliveries(acts)
    ensures RunNet(c, cfg, net, acts).toServer == [] && RunNet(c, cfg, net, acts).toClient == []
    ensures Holds(c, cfg, x, RunNet(c, cfg, net, acts), w') && SameTask(w, w')
    ensures OnCourse(cfg, net.client.core, w, RunNet(c, cfg, net, acts).client.core, w')
    decreases Load(w)
  {
    hide Setting, IsScript, Holds, Next, Load;
    var round := Round(c, cfg, net);
    var y := RunNet(c, cfg, net, round);
    LoadIsNat(c, cfg, x, net, w);
    var mid := RoundHelps(c, cfg, x, net, w);
    if y.toServer == [] {
      acts, w' := round, mid;
    } else {
      LoadIsNat(c, cfg, x, y, mid);
      var more, last := Settles(c, cfg, x, y, mid);
      RunAppends(c, cfg, net, round, more);
      acts, w' := round + more, last;
    }
  }

  /** No livelock: whatever has happened, delivering bytes alone brings the system to rest, with nothing
      in flight in either direction; so what is said above of systems at rest is where every exchange
      ends. */
  lemma EveryExchangeSettles(c: Suite, cfg: Config, acts: seq<Action>) returns (more: seq<Action>)
    requires Behaved(c, cfg, acts)
    ensures OnlyDeliveries(more) && Behaved(c, cfg, acts + more)
    ensures var net := After(c, cfg, acts + more); net.toServer == [] && net.toClient == []
    ensures Execs(acts + more) == Execs(acts)
  {
    hide Setting, IsScript, Holds, Opening, OnlyDeliveries;
    var x, w := Reaches(c, cfg, acts);
    var last;
    more, last := Settles(c, cfg, x, After(c, cfg, acts), w);
    DeliveriesArePermitted(c, cfg, After(c, cfg, acts), more);
    RunAppends(c, cfg, Opening(c), acts, more);
  }

  // ---- the first rest ---------------------------------------------------------------------------------------

  lemma {:induction false} DeliveriesKeepGate(c: Suite, cfg: Config, net: Net, acts: seq<Action>)
    requires LawfulAead(c) && OnlyDeliveries(acts)
    requires SessionSafety.Always(net.client.core) && SessionSafety.Gated(net.client.core)
    ensures SessionSafety.Gated(RunNet(c, cfg, net, acts).client.core)
    decreases |acts|
  {
    hide SessionSafety.Always, SessionSafety.Gated, LawfulAead, FeedServer, Do;
    if acts != [] {
      assert acts[0] in acts;
      forall a | a in acts[1..] ensures a in acts {}
      if acts[0].DeliverToClient? {
        var m := Min(acts[0].n, |net.toClient|);
        SessionRuns.DoKeeps(c, net.client, FeedIncoming(net.toClient[..m]));
      }
      DeliveriesKeepGate(c, cfg, Next(c, cfg, net, acts[0]), acts[1..]);
    }
  }

  /** Without the host, the exchange gets exactly as far as the question about the server's key: however
      the bytes are delivered, once they all are the session waits for the decision, with no cipher in
      place. */
  lemma DeliveriesReachTheQuestion(c: Suite, cfg: Config, acts: seq<Action>)
    requires Setting(c, cfg) && OnlyDeliveries(acts)
    requires After(c, cfg, acts).toServer == [] && After(c, cfg, acts).toClient == []
    ensures var s := After(c, cfg, acts).client.core; s.phase == AwaitingHostKeyDecision && s.out.cs == None
  {
    hide AllPermitted, InStep, IsScript, Setting, PipesHold, Drained, OnlyDeliveries, SessionSafety.Always;
    DeliveriesArePermitted(c, cfg, Opening(c), acts);
    var x, w := Reaches(c, cfg, acts);
    var net := After(c, cfg, acts);
    SettingIsLawful(c, cfg);
    SessionRuns.StartIsAlways();
    DeliveriesKeepGate(c, cfg, Opening(c), acts);
    RestsUnlessTwoChannels(c, cfg, acts);
    NoCipherNoDialogue(c, cfg, x, net.client.core, net.server.core, w);
  }

  lemma NoCipherNoDialogue(c: Suite, cfg: Config, x: Script, s: State, v: Server, w: Account)
    requires InStep(c, cfg, x, s, v, w) && s.out.cs == None
    ensures s.phase != UserAuth && s.phase != SessionModel.Connected
  {
    hide Talking, Carries, AllSay, ServerAt;
    if w.Greeting? { GreetingPhases(c, x, s, w.heardC); }
  }

  // ---- a run that succeeds -----------------------------------------------------------------------------------

  lemma AtRestFacts(c: Suite, cfg: Config, x: Script, net: Net, w: Account)
    requires Setting(c, cfg) && IsScript(c, cfg, x) && Holds(c, cfg, x, net, w)
    requires net.toServer == [] && net.toClient == [] && Begun(w) < 2
    ensures var s := net.client.core;
            && AtRest(s)
            && (Quiet(s) && s.out.cs.Some? ==> s.phase == UserAuth)
            && (Hopeful(cfg, s, w) ==> s.phase == SessionModel.Connected)
  {
    hide Setting, IsScript, InStep, AtRest, PipesHold, Drained, Quiet;
    var s, v := net.client.core, net.server.core;
    ServerRests(c, cfg, x, net, w);
    if !Idle(s.phase) { ClientRests(c, cfg, x, net, w); }
    ClosedNeedsTwo(c, cfg, x, s, v, w);
    Rests(c, cfg, x, s, v, w);
    if Quiet(s) && s.out.cs.Some? { QuietRests(c, cfg, x, s, v, w); }
    if Hopeful(cfg, s, w) { HopefulRests(c, cfg, x, s, v, w); }
  }

  lemma QuietRests(c: Suite, cfg: Config, x: Script, s: State, v: Server, w: Account)
    requires InStep(c, cfg, x, s, v, w) && AtRest(s) && Quiet(s) && s.out.cs.Some?
    ensures s.phase == UserAuth
  {
    hide InStep;
    if s.phase == AwaitingHostKeyDecision { AwaitingMeansThree(c, cfg, x, s, v, w); }
  }

  lemma HopefulRests(c: Suite, cfg: Config, x: Script, s: State, v: Server, w: Account)
    requires InStep(c, cfg, x, s, v, w) && Hopeful(cfg, s, w)
    requires w.heardS == |s.out.sent| && (Idle(s.phase) || w.heardC == |v.out.sent|)
    ensures s.phase == SessionModel.Connected
  {
    hide Talking, Carries, Encodes, Puts, Verdict;
    if s.phase == UserAuth {
      CarriesSizes(v.cs.value, s.out.sent[w.heardS..], Puts(w.qs), s.out.cs.value);
      PutsSize(w.qs);
      CarriesSizes(s.kex.sc.value, v.out.sent[w.heardC..], Encodes(cfg, w.ps), v.out.cs.value);
      EncodesSize(cfg, w.ps);
      VerdictIsOne(cfg, true);
    }
  }

  /** One host call, and then deliveries until nothing is in flight. */
  lemma CallAndSettle(c: Suite, cfg: Config, x: Script, net: Net, w: Account, i: Input) returns (acts: seq<Action>, w': Account)
    requires Setting(c, cfg) && IsScript(c, cfg, x) && Holds(c, cfg, x, net, w)
    requires Permitted(c, net, Host(i)) && Begun(w) + 1 < U32_LIMIT
    ensures AllPermitted(c, cfg, net, acts) && Execs(acts) == (if i.Exec? then 1 else 0)
    ensures i.Exec? ==> FirstCommand(acts) == i.command
    ensures var y := RunNet(c, cfg, net, acts);
            && y.toServer == [] && y.toClient == [] && Holds(c, cfg, x, y, w') && Task(w, w', Host(i))
            && (i.ProvideHostKeyDecision? && net.client.core.phase == AwaitingHostKeyDecision ==>
                  Quiet(y.client.core) && y.client.core.out.cs.Some?)
            && (i == Password(cfg.username, cfg.password) && net.client.core.phase == UserAuth ==>
                  Hopeful(cfg, y.client.core, w'))
  {
    hide Setting, IsScript, Holds, Permitted, ClientDoes, OnlyDeliveries, Begun, CommandOf;
    var mid := HostActs(c, cfg, x, net, i, w);
    if i.ProvideHostKeyDecision? && net.client.core.phase == AwaitingHostKeyDecision {
      AcceptingIsTrue(c, net, i);
      var _ := HostDecides(c, cfg, x, net, w);
    }
    NextIsHost(c, cfg, net, i);
    var y := Next(c, cfg, net, Host(i));
    var more, last := Settles(c, cfg, x, y, mid);
    DeliveriesArePermitted(c, cfg, y, more);
    acts, w' := [Host(i)] + more, last;
    assert acts[0] == Host(i) && acts[1..] == more;
  }

  lemma AcceptingIsTrue(c: Suite, net: Net, i: Input)
    requires Permitted(c, net, Host(i)) && i.ProvideHostKeyDecision?
    ensures i == ProvideHostKeyDecision(true)
  {
  }

  lemma MayAct(c: Suite, cfg: Config, net: Net, command: Bytes)
    requires Short(cfg.username) && Short(cfg.password) && Short(command)
    ensures Permitted(c, net, Host(ProvideHostKeyDecision(true)))
    ensures net.client.core.pendingAuth == None ==> Permitted(c, net, Host(Password(cfg.username, cfg.password)))
    ensures net.client.core.phase == SessionModel.Connected ==> Permitted(c, net, Host(Exec(command)))
  {
    hide Short;
  }

  lemma {:induction false} FirstOfAppend(a: seq<Action>, b: seq<Action>)
    requires Execs(a) == 0
    ensures FirstCommand(a + b) == FirstCommand(b)
  {
    if a == [] {
      assert a + b == b;
    } else {
      assert (a + b)[0] == a[0] && (a + b)[1..] == a[1..] + b;
      FirstOfAppend(a[1..], b);
    }
  }

  lemma InitialAsk(c: Suite, cfg: Config, x: Script) returns (acts: seq<Action>, w: Account)
    requires Setting(c, cfg) && IsScript(c, cfg, x)
    ensures AllPermitted(c, cfg, Opening(c), acts) && Execs(acts) == 0
    ensures var y := RunNet(c, cfg, Opening(c), acts);
            y.client.core.phase == AwaitingHostKeyDecision && Holds(c, cfg, x, y, w) && Begun(w) == 0
  {
    hide Setting, IsScript, Holds, Opening, OnlyDeliveries, CommandOf;
    OpeningHolds(c, cfg, x);
    acts, w := Settles(c, cfg, x, Opening(c), Greeting(0, 0));
    DeliveriesArePermitted(c, cfg, Opening(c), acts);
    DeliveriesReachTheQuestion(c, cfg, acts);
  }

  /** The whole story can happen, in every setting: accepting the key, trying the server's own password and
      opening one exec channel, with nothing but deliveries between, is a behaved schedule that comes to
      rest with the command run and all of it reported. */
  lemma SomeRunSucceeds(c: Suite, cfg: Config, command: Bytes) returns (acts: seq<Action>)
    requires Setting(c, cfg) && Short(cfg.username) && Short(cfg.password) && Short(command)
    ensures Behaved(c, cfg, acts) && Execs(acts) == 1
    ensures var net := After(c, cfg, acts);
            && net.toServer == [] && net.toClient == []
            && net.client.core.phase == SessionModel.Connected
            && net.server.core.lastExec == Some(command)
            && Events.ChannelEvents(net.client.core.events) == ExecEvents(cfg)
  {
    hide Setting, IsScript, Holds, Opening, Permitted, Short, ExecEvents, Events.ChannelEvents, Hopeful, Next;
    var x := ScriptExists(c, cfg);
    var a0, w0 := InitialAsk(c, cfg, x);
    var n0 := RunNet(c, cfg, Opening(c), a0);
    MayAct(c, cfg, n0, command);
    var a1, w1 := CallAndSettle(c, cfg, x, n0, w0, ProvideHostKeyDecision(true));
    var n1 := RunNet(c, cfg, n0, a1);
    AtRestFacts(c, cfg, x, n1, w1);
    MayAct(c, cfg, n1, command);
    var a2, w2 := CallAndSettle(c, cfg, x, n1, w1, Password(cfg.username, cfg.password));
    var n2 := RunNet(c, cfg, n1, a2);
    AtRestFacts(c, cfg, x, n2, w2);
    MayAct(c, cfg, n2, command);
    var a3, w3 := CallAndSettle(c, cfg, x, n2, w2, Exec(command));
    RunAppends(c, cfg, n1, a2, a3);
    RunAppends(c, cfg, n0, a1, a2 + a3);
    RunAppends(c, cfg, Opening(c), a0, a1 + (a2 + a3));
    FirstOfAppend(a2, a3);
    FirstOfAppend(a1, a2 + a3);
    FirstOfAppend(a0, a1 + (a2 + a3));
    acts := a0 + (a1 + (a2 + a3));
    OneCommandRuns(c, cfg, acts);
  }

  lemma OnePermitted(c: Suite, cfg: Config, net: Net, i: Input)
    requires Permitted(c, net, Host(i))
    ensures AllPermitted(c, cfg, net, [Host(i)]) && Execs([Host(i)]) == if i.Exec? then 1 else 0
  {
    hide Permitted, Next;
    assert [Host(i)][1..] == [];
    assert AllPermitted(c, cfg, Next(c, cfg, net, Host(i)), []);
  }

  /** And the limit is met, in every setting: after such a run a second exec channel, delivered to the end,
      closes the session. */
  lemma SecondChannelCloses(c: Suite, cfg: Config, command: Bytes) returns (acts: seq<Action>)
    requires Setting(c, cfg) && Short(cfg.username) && Short(cfg.password) && Short(command)
    ensures Behaved(c, cfg, acts) && Execs(acts) == 2
    ensures var net := After(c, cfg, acts);
            net.toServer == [] && net.toClient == [] && net.client.core.phase == SessionModel.Closed
  {
    hide Setting, Opening, Permitted, Short, Next, OnlyDeliveries;
    var first := SomeRunSucceeds(c, cfg, command);
    var open := [Host(Exec(command))];
    MayAct(c, cfg, After(c, cfg, first), command);
    OnePermitted(c, cfg, After(c, cfg, first), Exec(command));
    RunAppends(c, cfg, Opening(c), first, open);
    var more := EveryExchangeSettles(c, cfg, first + open);
    acts := first + open + more;
    RestsUnlessTwoChannels(c, cfg, acts);
  }

  /** The hypotheses can be met: a suite that satisfies every law, and a server for it. */
  lemma SettingExists() returns (c: Suite, cfg: Config)
    ensures Setting(c, cfg)
  {
    var zeros16: Bytes16 := seq(16, _ => 0);
    var zeros32: Bytes32 := seq(32, _ => 0);
    var zeros256: Bytes256 := seq(256, _ => 0);
    var entropy := (n: nat) => 0 as Byte;
    c := Suite(
      entropy,
      (b: Bytes) => zeros32,
      (k: Bytes, n: Bytes, b: Bytes4) => b,
      (a: Alg, k: Bytes, n: Bytes, aad: Bytes, text: Bytes) => text,
      (a: Alg, k: Bytes, n: Bytes, aad: Bytes, text: Bytes) => zeros16,
      (a: Alg, k: Bytes, n: Bytes, aad: Bytes, text: Bytes, tag: Bytes16) => Some(text),
      (b: Bytes) => zeros32,
      (a: Bytes, b: Bytes32) => Some(zeros32),
      (b: Bytes) => zeros256,
      (a: Bytes, b: Bytes) => Ok(zeros256),
      (b: Bytes) => true,
      (b: Bytes) => [],
      (b: Bytes) => [],
      (b: Bytes) => true,
      (b: Bytes, m: Bytes, s: Bytes) => true,
      (k: PrivateKey) => None,
      (k: PrivateKey) => [],
      (k: PrivateKey, m: Bytes) => Some([]));
    cfg := Config(entropy, [], [], [], [], 0, false);
  }
}
