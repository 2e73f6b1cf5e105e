/**
  Every action of the two-party system keeps its invariant: items, then bytes, then host calls, then
  whole schedules.
 */
module TwoPartySteps {
  import opened Prelude
  import opened Primitives
  import opened Wire
  import opened Packet
  import opened PacketStream
  import opened SessionModel
  import opened SessionChunks
  import opened FakeServer
  import opened HandshakeScript
  import opened Dialogue
  import opened DialogueSteps
  import opened TwoParty
  import Ident
  import Auth
  import Channel
  import Connection
  import Events
  import Exchange
  import Utf8

  // ---- sizes -------------------------------------------------------------------------------------------

  lemma MethodSizes()
    ensures |Auth.MethodPassword()| <= 20 && |Auth.MethodPublickey()| <= 20 && |Auth.ServiceConnection()| <= 20
    ensures |Auth.ServiceUserauth()| <= 20 && |Channel.SessionName()| <= 20 && |Connection.NameExec()| <= 20
    ensures |Connection.NameExitStatus()| <= 20 && |RemainingMethods()| <= 20 && |GlobalRequestName()| <= 40
  {
  }

  lemma PutFits(c: Suite, q: Ask)
    requires Fair(c, q)
    ensures |Put(q)| <= MAX_PACKET_LENGTH - 20
  {
    hide U32Be, Auth.MethodPassword, Auth.MethodPublickey, Auth.ServiceConnection, Channel.SessionName,
         Connection.NameExec, Utf8.Valid;
    MethodSizes();
  }

  lemma EncodeFits(cfg: Config, p: Reply)
    requires FairReply(p) && |cfg.execOutput| <= SHORT
    ensures |Encode(cfg, p)| <= MAX_PACKET_LENGTH - 20
  {
    hide U32Be, Auth.ServiceUserauth, RemainingMethods, GlobalRequestName, Connection.NameExitStatus, Utf8.Valid;
    MethodSizes();
  }

  lemma {:induction false} PutsFit(c: Suite, qs: seq<Ask>)
    requires AllFair(c, qs)
    ensures EachFits(Puts(qs))
    decreases |qs|
  {
    hide Put, Fair;
    if qs != [] {
      assert qs[0] in qs;
      PutFits(c, qs[0]);
      forall q | q in qs[1..] ensures q in qs {}
      PutsFit(c, qs[1..]);
    }
  }

  lemma {:induction false} EncodesFit(cfg: Config, ps: seq<Reply>)
    requires AllFairReplies(ps) && |cfg.execOutput| <= SHORT
    ensures EachFits(Encodes(cfg, ps))
    decreases |ps|
  {
    hide Encode, FairReply;
    if ps != [] {
      assert ps[0] in ps;
      EncodeFits(cfg, ps[0]);
      forall p | p in ps[1..] ensures p in ps {}
      EncodesFit(cfg, ps[1..]);
    }
  }

  lemma RepliesFair(c: Suite, cfg: Config, sessionId: Bytes, q: Ask)
    requires Fair(c, q)
    ensures AllFairReplies(Replies(c, cfg, sessionId, q))
  {
    hide Auth.SignedData, Utf8.Valid;
  }

  // ---- one item reaches the client ---------------------------------------------------------------------

  /** The item at the head of a pipe is one whole packet under the receiver's cipher. */
  predicate OpensUnder(item: Sent, k: Option<Cipher>) {
    item.Sealed? && item.k == k && |Body(item.payload, item.padding)| <= MAX_PACKET_LENGTH
  }

  lemma SaidItem(sent: seq<Sent>, script: seq<Saying>, n: nat, i: nat)
    requires n <= |script| && AllSay(sent, script[..n]) && i < n
    ensures |sent| == n && Says(sent[i], script[i])
  {
    assert script[..n][i] == script[i];
  }

  lemma SaidSize(sent: seq<Sent>, script: seq<Saying>, n: nat)
    requires n <= |script| && AllSay(sent, script[..n])
    ensures |sent| == n
  {
  }

  /** The next item of the server's script, as the log holds it. */
  lemma ServerItemSaid(c: Suite, cfg: Config, x: Script, v: Server, heardS: nat, heard: nat)
    requires ServerOn(c, cfg, x, v, heardS) && heardS <= 5 && 1 <= heard <= 4 && heard < |v.out.sent|
    ensures |v.out.sent| == ServerSaid(heardS)
    ensures ServerScript(c, cfg, x)[heard].Packet? && v.out.sent[heard].Sealed?
    ensures v.out.sent[heard].payload == ServerScript(c, cfg, x)[heard].payload
    ensures OpensUnder(v.out.sent[heard], ServerScript(c, cfg, x)[heard].k)
  {
    hide ServerAt, AllSay, ServerScript, Encode;
    ServerSaidSizes(c, cfg, x);
    SaidSize(v.out.sent, ServerScript(c, cfg, x), ServerSaid(heardS));
    SaidItem(v.out.sent, ServerScript(c, cfg, x), ServerSaid(heardS), heard);
    SayingIsPacket(c, cfg, x, heard);
  }

  lemma ClientOnAt(c: Suite, x: Script, s: State, heard: nat)
    requires ClientOn(c, x, s, heard)
    ensures ClientAt(c, x, s, heard)
  {
  }

  lemma GreetingGoesOn(c: Suite, cfg: Config, x: Script, s: State, t: State, v: Server, heard: nat, heardS: nat)
    requires ClientAt(c, x, s, heard) && ClientOn(c, x, t, heard + 1) && ServerOn(c, cfg, x, v, heardS)
    requires s.phase != AwaitingHostKeyDecision && heard < 4 && heardS <= 5
    requires heard < ServerSaid(heardS) && heardS <= ClientSaid(heard, s.phase == ServiceRequest)
    ensures InStep(c, cfg, x, t, v, Greeting(heard + 1, heardS)) && t.phase != VersionExchange && Quiet(t)
  {
    hide ClientAt, ServerAt, AllSay, ServerScript, ClientScript;
    GreetingPhases(c, x, s, heard);
    GreetingPhases(c, x, t, heard + 1);
  }

  /** What hearing the next item does to the client's side. */
  lemma GreetingHears(c: Suite, cfg: Config, x: Script, s: State, v: Server, heard: nat, heardS: nat)
    requires IsScript(c, cfg, x) && ClientOn(c, x, s, heard) && ServerOn(c, cfg, x, v, heardS) && heardS <= 5
    requires 1 <= heard <= 4 && s.phase != AwaitingHostKeyDecision && heard < |v.out.sent|
    ensures OpensUnder(v.out.sent[heard], s.kex.sc) && heard < ServerSaid(heardS) && v.out.sent[heard].Sealed?
    ensures var t := Deliver(c, s, AdvanceOpt(s.kex.sc), v.out.sent[heard].payload);
            && (if heard < 4 then ClientOn(c, x, t, heard + 1) else ClientReady(c, x, t) && t.out == s.out)
            && s.out.sent <= t.out.sent && (heard >= 3 ==> t.out == s.out)
  {
    hide IsScript, Deliver, ClientOn, ServerOn, ServerScript, ClientScript, Encode, OpensUnder, ClientReady, Keys;
    ServerItemSaid(c, cfg, x, v, heardS, heard);
    ClientHears(c, cfg, x, s, heard);
  }

  lemma GreetingClientItem(c: Suite, cfg: Config, x: Script, s: State, v: Server, w: Account) returns (w': Account)
    requires IsScript(c, cfg, x) && w.Greeting? && InStep(c, cfg, x, s, v, w)
    requires !Idle(s.phase) && s.phase != VersionExchange && w.heardC < |v.out.sent|
    ensures OpensUnder(v.out.sent[w.heardC], s.kex.sc)
    ensures var t := Deliver(c, s, AdvanceOpt(s.kex.sc), v.out.sent[w.heardC].payload);
            InStep(c, cfg, x, t, v, w') && s.out.sent <= t.out.sent && t.phase != VersionExchange && OnCourse(cfg, s, w, t, w')
    ensures w'.heardC == w.heardC + 1 && w'.heardS == w.heardS && SameTask(w, w') && Load(w') < Load(w)
  {
    hide IsScript, Deliver, ClientOn, ServerOn, OpensUnder, InDialogue, ClientReady, ClientAt;
    var heard := w.heardC;
    ClientOnAt(c, x, s, heard);
    GreetingPhases(c, x, s, heard);
    GreetingHears(c, cfg, x, s, v, heard, w.heardS);
    var t := Deliver(c, s, AdvanceOpt(s.kex.sc), v.out.sent[heard].payload);
    if heard < 4 {
      w' := Greeting(heard + 1, w.heardS);
      GreetingGoesOn(c, cfg, x, s, t, v, heard, w.heardS);
    } else {
      w' := Conversing(5, 5, [], [], NOTHING);
      DialogueStarts(c, cfg, x, s, t, v);
    }
  }

  lemma SayingIsPacket(c: Suite, cfg: Config, x: Script, i: nat)
    requires 1 <= i <= 4
    ensures ServerScript(c, cfg, x)[i].Packet? && ClientScript(c, x)[i].Packet?
  {
  }

  lemma ServerSaidSizes(c: Suite, cfg: Config, x: Script)
    ensures |ServerScript(c, cfg, x)| == 5 && |ClientScript(c, x)| == 5
  {
  }

  lemma GreetingPhases(c: Suite, x: Script, s: State, heard: nat)
    requires ClientAt(c, x, s, heard)
    ensures heard <= 4 && (s.phase == VersionExchange <==> heard == 0)
    ensures s.phase == AwaitingHostKeyDecision ==> heard == 3
    ensures s.phase == ServiceRequest ==> heard >= 3
    ensures heard == 4 ==> s.phase == ServiceRequest
    ensures heard == 3 ==> s.phase == AwaitingHostKeyDecision || s.phase == ServiceRequest
    ensures !Over(s.phase) && s.phase != UserAuth && s.phase != SessionModel.Connected && s.pendingAuth == None
    ensures s.out.cs.Some? ==> heard >= 3
  {
    hide Keys, MidLine;
  }

  /** Hearing SERVICE_ACCEPT ends the script: both sides have heard everything, under the same keys. */
  lemma DialogueStarts(c: Suite, cfg: Config, x: Script, s: State, t: State, v: Server)
    requires IsScript(c, cfg, x) && ClientOn(c, x, s, 4) && ServerOn(c, cfg, x, v, 5)
    requires ClientReady(c, x, t) && t.out == s.out
    ensures InDialogue(c, cfg, t, v, Conversing(5, 5, [], [], NOTHING)) && t.phase == UserAuth && Quiet(t)
  {
    hide IsScript, AllSay, Says, Encode, DerivePair;
    ServerSaidSizes(c, cfg, x);
    SaidItem(v.out.sent, ServerScript(c, cfg, x), 5, 0);
    SaidItem(s.out.sent, ClientScript(c, x), 5, 0);
    KeysStartAtThree(c, x);
    assert v.out.sent[5..] == [] && t.out.sent[5..] == [];
  }

  lemma KeysStartAtThree(c: Suite, x: Script)
    ensures Keys(c, x).cs.seqNo == 3 && Keys(c, x).sc.seqNo == 3
  {
  }

  lemma {:induction false} CarriesSizes(k: Cipher, items: seq<Sent>, payloads: seq<Bytes>, end: Cipher)
    requires Carries(k, items, payloads, end)
    ensures |items| == |payloads|
    decreases |items|
  {
    hide Says;
    if items != [] { CarriesSizes(Advance(k), items[1..], payloads[1..], end); }
  }

  lemma {:induction false} EncodesSize(cfg: Config, ps: seq<Reply>)
    ensures |Encodes(cfg, ps)| == |ps|
    decreases |ps|
  {
    hide Encode;
    if ps != [] { EncodesSize(cfg, ps[1..]); }
  }

  lemma {:induction false} PutsSize(qs: seq<Ask>)
    ensures |Puts(qs)| == |qs|
    decreases |qs|
  {
    hide Put;
    if qs != [] { PutsSize(qs[1..]); }
  }

  lemma NextSeqCounts(n: nat, k: Cipher)
    requires n > 0 && k.seqNo == (n - 1) % U32_LIMIT
    ensures Advance(k).seqNo == n % U32_LIMIT
  {
    hide NextGcmNonce;
  }

  /** The first reply in flight is the packet at the head of the client's pipe. */
  lemma HeadReply(c: Suite, cfg: Config, s: State, v: Server, w: Account)
    requires w.Conversing? && InDialogue(c, cfg, s, v, w) && w.heardC < |v.out.sent|
    ensures w.ps != [] && w.ps == [w.ps[0]] + w.ps[1..]
    ensures v.out.sent[w.heardC].Sealed? && v.out.sent[w.heardC].payload == Encode(cfg, w.ps[0])
    ensures OpensUnder(v.out.sent[w.heardC], s.kex.sc)
    ensures Carries(Advance(s.kex.sc.value), v.out.sent[w.heardC + 1..], Encodes(cfg, w.ps[1..]), v.out.cs.value)
    ensures Advance(s.kex.sc.value).seqNo == w.heardC % U32_LIMIT
  {
    hide Encode, Talking, Advance;
    var items := v.out.sent[w.heardC..];
    CarriesSizes(s.kex.sc.value, items, Encodes(cfg, w.ps), v.out.cs.value);
    EncodesSize(cfg, w.ps);
    assert items[0] == v.out.sent[w.heardC] && items[1..] == v.out.sent[w.heardC + 1..];
    assert w.ps == [w.ps[0]] + w.ps[1..];
    assert Encodes(cfg, w.ps)[1..] == Encodes(cfg, w.ps[1..]);
    NextSeqCounts(w.heardC, s.kex.sc.value);
  }

  lemma ConversingClientItem(c: Suite, cfg: Config, s: State, v: Server, w: Account) returns (w': Account)
    requires Setting(c, cfg) && w.Conversing? && InDialogue(c, cfg, s, v, w)
    requires !Over(s.phase) && w.heardC < |v.out.sent|
    ensures OpensUnder(v.out.sent[w.heardC], s.kex.sc)
    ensures var t := Deliver(c, s, AdvanceOpt(s.kex.sc), v.out.sent[w.heardC].payload);
            && w'.Conversing? && InDialogue(c, cfg, t, v, w') && s.out.sent <= t.out.sent && t.phase != VersionExchange
            && OnCourse(cfg, s, w, t, w')
    ensures w'.heardC == w.heardC + 1 && w'.heardS == w.heardS && SameTask(w, w') && Load(w') < Load(w)
  {
    hide Deliver, Encode, Encodes, Puts, Talking, Setting, Advance, Carries, OpensUnder;
    HeadReply(c, cfg, s, v, w);
    var k := s.kex.sc.value;
    var p, ps := w.ps[0], w.ps[1..];
    var asks, g' := ClientTakes(c, cfg, s, Advance(k), p, ps, w.qs, w.g);
    w' := Conversing(w.heardC + 1, w.heardS, ps, w.qs + asks, g');
    var t := Deliver(c, s, AdvanceOpt(s.kex.sc), v.out.sent[w.heardC].payload);
    AsksAreCarried(c, cfg, s, t, v.cs.value, w.heardS, w.qs, asks, ps, g');
    CourseOfReplies(c, cfg, s, w, p, ps);
    ReplyLoadsAppend([p], ps);
    AskLoadsAppend(w.qs, asks);
    AsksAppend(w.qs, asks);
    TalkingIsPastGreeting(c, cfg, t, ps, w.qs + asks, g');
  }

  /** A quiet client has nothing coming; a hopeful one, nothing but its success. */
  lemma CourseOfReplies(c: Suite, cfg: Config, s: State, w: Account, p: Reply, ps: seq<Reply>)
    requires w.Conversing? && w.ps == [p] + ps && Talking(c, cfg, s, w.ps, w.qs, w.g)
    ensures !Quiet(s)
    ensures Hopeful(cfg, s, w) && s.phase == UserAuth ==> p.AuthSuccess?
  {
    hide ChannelTalk, Credible, Events.ChannelEvents, AllFair, UsableKey;
    assert w.ps[0] == p;
  }

  /** The right password is answered with success. */
  lemma CourseOfAsks(c: Suite, cfg: Config, sessionId: Bytes, s: State, w: Account, q: Ask, qs: seq<Ask>, w': Account)
    requires w.Conversing? && w.qs == [q] + qs && w'.Conversing? && w'.g.begun == w.g.begun
    requires w'.qs == qs && w'.ps == w.ps + Replies(c, cfg, sessionId, q)
    ensures OnCourse(cfg, s, w, s, w')
  {
    hide Verdict, Auth.SignedData;
    assert w.qs[0] == q && w.qs[1..] == qs;
    assert [] + Replies(c, cfg, sessionId, q) == Replies(c, cfg, sessionId, q);
  }

  lemma TalkingIsPastGreeting(c: Suite, cfg: Config, s: State, ps: seq<Reply>, qs: seq<Ask>, g: Progress)
    requires Talking(c, cfg, s, ps, qs, g)
    ensures s.phase != VersionExchange && s.phase != Halted && s.out.cs.Some? && s.kex.sc.Some? && AllFair(c, qs)
  {
  }

  /** What the client sends next joins the end of its pipe. */
  lemma AsksAreCarried(c: Suite, cfg: Config, s: State, t: State, k: Cipher, heard: nat, qs: seq<Ask>, asks: seq<Ask>, ps: seq<Reply>,
                       g: Progress)
    requires s.out.cs.Some? && heard <= |s.out.sent| && Carries(k, s.out.sent[heard..], Puts(qs), s.out.cs.value)
    requires Talking(c, cfg, t, ps, qs + asks, g) && SendEach(c, s.out, Puts(asks)) == Some(t.out)
    ensures t.out.cs.Some? && s.out.sent <= t.out.sent && |t.out.sent| == |s.out.sent| + |asks|
    ensures Carries(k, t.out.sent[heard..], Puts(qs + asks), t.out.cs.value)
  {
    hide Put, Talking, Carries, AllFair;
    TalkingIsPastGreeting(c, cfg, t, ps, qs + asks, g);
    LastFair(c, qs, asks);
    PutsFit(c, asks);
    var items := SendEachCarries(c, s.out, Puts(asks));
    CarriesMore(k, s.out.sent[heard..], Puts(qs), s.out.cs.value, items, Puts(asks), t.out.cs.value);
    PutsAppend(qs, asks);
    assert t.out.sent[heard..] == s.out.sent[heard..] + items;
    CarriesSizes(s.out.cs.value, items, Puts(asks), t.out.cs.value);
    PutsSize(asks);
  }

  lemma LastFair(c: Suite, qs: seq<Ask>, asks: seq<Ask>)
    requires AllFair(c, qs + asks)
    ensures AllFair(c, asks)
  {
    hide Fair;
    forall q | q in asks ensures q in qs + asks {}
  }

  /** The client handles the next item of its pipe, whatever it is. */
  lemma ClientItem(c: Suite, cfg: Config, x: Script, s: State, v: Server, w: Account) returns (w': Account)
    requires Setting(c, cfg) && IsScript(c, cfg, x) && InStep(c, cfg, x, s, v, w)
    requires !Idle(s.phase) && s.phase != VersionExchange && w.heardC < |v.out.sent|
    ensures OpensUnder(v.out.sent[w.heardC], s.kex.sc)
    ensures var t := Deliver(c, s, AdvanceOpt(s.kex.sc), v.out.sent[w.heardC].payload);
            InStep(c, cfg, x, t, v, w') && s.out.sent <= t.out.sent && t.phase != VersionExchange && OnCourse(cfg, s, w, t, w')
    ensures w'.heardC == w.heardC + 1 && w'.heardS == w.heardS && SameTask(w, w') && Load(w') < Load(w)
  {
    hide Deliver, Setting, IsScript, InDialogue, ClientOn, ServerOn, OpensUnder;
    if w.Greeting? {
      w' := GreetingClientItem(c, cfg, x, s, v, w);
    } else {
      w' := ConversingClientItem(c, cfg, s, v, w);
    }
  }

  // ---- one item reaches the server -----------------------------------------------------------------------

  lemma GreetingServerItem(c: Suite, cfg: Config, x: Script, s: State, v: Server, w: Account) returns (w': Account)
    requires IsScript(c, cfg, x) && w.Greeting? && InStep(c, cfg, x, s, v, w)
    requires 0 < w.heardS < |s.out.sent|
    ensures OpensUnder(s.out.sent[w.heardS], v.cs)
    ensures match Handle(c, cfg, v.(cs := AdvanceOpt(v.cs)), s.out.sent[w.heardS].payload)
            case None => false
            case Some(u) => InStep(c, cfg, x, s, u, w') && v.out.sent <= u.out.sent && OnCourse(cfg, s, w, s, w')
    ensures w'.heardS == w.heardS + 1 && w'.heardC == w.heardC && SameTask(w, w') && Load(w') < Load(w)
  {
    hide IsScript, Handle, ClientAt, ServerAt, Talking, AllSay, ServerScript, ClientScript, Keys, Encode;
    var heard := w.heardS;
    GreetingPhases(c, x, s, w.heardC);
    ServerSaidSizes(c, cfg, x);
    SaidSize(s.out.sent, ClientScript(c, x), ClientSaid(w.heardC, s.phase == ServiceRequest));
    SaidItem(s.out.sent, ClientScript(c, x), ClientSaid(w.heardC, s.phase == ServiceRequest), heard);
    ServerHears(c, cfg, x, v, heard);
    SayingIsPacket(c, cfg, x, heard);
    w' := Greeting(w.heardC, heard + 1);
  }

  lemma NotedOut(v: Server, q: Ask)
    ensures var u := Noted(v, q);
            u.out == v.out && u.cs == v.cs && u.sessionId == v.sessionId
            && (u.phase == v.phase || u.phase == ServerPhase.Connected)
  {
  }

  /** The first request in flight is the packet at the head of the server's pipe. */
  lemma HeadAsk(c: Suite, cfg: Config, s: State, v: Server, w: Account)
    requires w.Conversing? && InDialogue(c, cfg, s, v, w) && w.heardS < |s.out.sent|
    ensures w.qs != [] && w.qs == [w.qs[0]] + w.qs[1..]
    ensures s.out.sent[w.heardS].Sealed? && s.out.sent[w.heardS].payload == Put(w.qs[0])
    ensures OpensUnder(s.out.sent[w.heardS], v.cs)
    ensures Carries(Advance(v.cs.value), s.out.sent[w.heardS + 1..], Puts(w.qs[1..]), s.out.cs.value)
    ensures Advance(v.cs.value).seqNo == w.heardS % U32_LIMIT
  {
    hide Put, Talking, Advance;
    var items := s.out.sent[w.heardS..];
    CarriesSizes(v.cs.value, items, Puts(w.qs), s.out.cs.value);
    PutsSize(w.qs);
    assert items[0] == s.out.sent[w.heardS] && items[1..] == s.out.sent[w.heardS + 1..];
    assert w.qs == [w.qs[0]] + w.qs[1..];
    assert Puts(w.qs)[1..] == Puts(w.qs[1..]);
    NextSeqCounts(w.heardS, v.cs.value);
  }

  lemma ConversingServerItem(c: Suite, cfg: Config, s: State, v: Server, w: Account) returns (w': Account)
    requires Setting(c, cfg) && w.Conversing? && InDialogue(c, cfg, s, v, w) && w.heardS < |s.out.sent|
    ensures OpensUnder(s.out.sent[w.heardS], v.cs)
    ensures match Handle(c, cfg, v.(cs := AdvanceOpt(v.cs)), s.out.sent[w.heardS].payload)
            case None => false
            case Some(u) =>
              w'.Conversing? && InDialogue(c, cfg, s, u, w') && v.out.sent <= u.out.sent && OnCourse(cfg, s, w, s, w')
    ensures w'.heardS == w.heardS + 1 && w'.heardC == w.heardC && SameTask(w, w') && Load(w') < Load(w)
  {
    hide Handle, Encode, Encodes, Put, Puts, Talking, Setting, Advance, Noted, Replies, SealReplies, Served, Carries,
         OpensUnder;
    HeadAsk(c, cfg, s, v, w);
    var k := v.cs.value;
    var q, qs := w.qs[0], w.qs[1..];
    var v1 := v.(cs := Some(Advance(k)));
    var replies := Replies(c, cfg, v.sessionId, q);
    ServerTakes(c, cfg, v.sessionId, s, w.ps, q, qs, w.g);
    ServerAnswers(c, cfg, v1, q);
    NotedOut(v1, q);
    var u := Answer(c, cfg, Noted(v1, q), replies);
    RepliesAreCarried(c, cfg, s.kex.sc.value, v.out, w.heardC, w.ps, q, v.sessionId);
    w' := Conversing(w.heardC, w.heardS + 1, w.ps + replies, qs, Served(w.g, q));
    ServedBegun(w.g, q);
    CourseOfAsks(c, cfg, v.sessionId, s, w, q, qs, w');
    ReplyLoadsAppend(w.ps, replies);
    RepliesAreLighter(c, cfg, v.sessionId, q);
    RunsTheCommand(c, cfg, s, v1, w.ps, q, qs, w.g);
    AnswerOut(c, cfg, Noted(v1, q), replies);
  }

  lemma AnswerOut(c: Suite, cfg: Config, v: Server, replies: seq<Reply>)
    ensures Answer(c, cfg, v, replies).lastExec == v.lastExec
  {
  }

  lemma RunsTheCommand(c: Suite, cfg: Config, s: State, v: Server, ps: seq<Reply>, q: Ask, qs: seq<Ask>, g: Progress)
    requires Talking(c, cfg, s, ps, [q] + qs, g) && Ran(v.lastExec, [q] + qs, g)
    ensures Ran(Noted(v, q).lastExec, qs, Served(g, q))
  {
    hide ChannelTalk, AuthTalk, Credible, ExecEvents, Events.ChannelEvents, Fair;
    FirstAsk(q, qs);
    assert ([q] + qs)[0] == q;
  }

  lemma ServedBegun(g: Progress, q: Ask) ensures Served(g, q).begun == g.begun && Served(g, q).command == g.command {}

  /** What the server sends next joins the end of its pipe. */
  lemma RepliesAreCarried(c: Suite, cfg: Config, k: Cipher, o: Out, heard: nat, ps: seq<Reply>, q: Ask, sessionId: Bytes)
    requires Setting(c, cfg) && Fair(c, q)
    requires o.cs.Some? && heard <= |o.sent| && Carries(k, o.sent[heard..], Encodes(cfg, ps), o.cs.value)
    ensures var replies := Replies(c, cfg, sessionId, q); var o' := SealReplies(c, cfg, o, replies);
            && o'.cs.Some? && o.sent <= o'.sent
            && Carries(k, o'.sent[heard..], Encodes(cfg, ps + replies), o'.cs.value)
  {
    hide Encode, Carries, Replies, SealReplies, Fair, Lawful, Seeded;
    var replies := Replies(c, cfg, sessionId, q);
    RepliesFair(c, cfg, sessionId, q);
    EncodesFit(cfg, replies);
    SealRepliesIsSendEach(c, cfg, o, replies);
    var items := SendEachCarries(Seeded(c, cfg), o, Encodes(cfg, replies));
    var o' := SealReplies(c, cfg, o, replies);
    CarriesMore(k, o.sent[heard..], Encodes(cfg, ps), o.cs.value, items, Encodes(cfg, replies), o'.cs.value);
    EncodesAppend(cfg, ps, replies);
    assert o'.sent[heard..] == o.sent[heard..] + items;
  }

  lemma ServerItem(c: Suite, cfg: Config, x: Script, s: State, v: Server, w: Account) returns (w': Account)
    requires Setting(c, cfg) && IsScript(c, cfg, x) && InStep(c, cfg, x, s, v, w)
    requires 0 < w.heardS < |s.out.sent|
    ensures OpensUnder(s.out.sent[w.heardS], v.cs)
    ensures match Handle(c, cfg, v.(cs := AdvanceOpt(v.cs)), s.out.sent[w.heardS].payload)
            case None => false
            case Some(u) => InStep(c, cfg, x, s, u, w') && v.out.sent <= u.out.sent && OnCourse(cfg, s, w, s, w')
    ensures w'.heardS == w.heardS + 1 && w'.heardC == w.heardC && SameTask(w, w') && Load(w') < Load(w)
  {
    hide Handle, Setting, IsScript, InDialogue, ClientOn, ServerOn, OpensUnder;
    if w.Greeting? {
      w' := GreetingServerItem(c, cfg, x, s, v, w);
    } else {
      w' := ConversingServerItem(c, cfg, s, v, w);
    }
  }

  // ---- bytes reach the client ------------------------------------------------------------------------------

  lemma PrefixOf(buf: Bytes, future: Bytes, head: Bytes, rest: Bytes)
    requires buf + future == head + rest
    ensures |buf| < |head| ==> buf == head[..|buf|]
    ensures |buf| >= |head| ==> buf == head + buf[|head|..] && buf[|head|..] + future == rest
  {
    assert forall i :: 0 <= i < |buf| ==> buf[i] == (buf + future)[i] == (head + rest)[i];
    if |buf| >= |head| {
      var more := buf[|head|..];
      assert forall i :: 0 <= i < |more + future| ==> (more + future)[i] == (buf + future)[|head| + i] == rest[i];
    }
  }

  lemma RenderNext(c: Suite, sent: seq<Sent>, i: nat)
    requires i < |sent|
    ensures Render(c, sent[i..]) == WireOf(c, sent[i]) + Render(c, sent[i + 1..])
  {
    assert sent[i..][1..] == sent[i + 1..];
  }

  lemma RenderEnd(c: Suite, sent: seq<Sent>)
    ensures Render(c, sent[|sent|..]) == []
  {
  }

  /** A packet under the receiver's cipher: waited for until complete, then opened to what was sealed. */
  lemma NextOpens(c: Suite, item: Sent, k: Option<Cipher>, buf: Bytes)
    requires LawfulAead(c) && OpensUnder(item, k)
    ensures |buf| < |WireOf(c, item)| && buf == WireOf(c, item)[..|buf|] ==> NextFrame(c, k, buf).Wait?
    ensures |buf| >= |WireOf(c, item)| && buf == WireOf(c, item) + buf[|WireOf(c, item)|..] ==>
              NextFrame(c, k, buf) == Got(|WireOf(c, item)|, AdvanceOpt(k), item.payload)
  {
    hide NextFrame, SealWire, LawfulAead;
    if |buf| < |WireOf(c, item)| {
      FrameOfPartial(c, k, item.payload, item.padding, |buf|);
    } else {
      FrameOfSealed(c, k, item.payload, item.padding, buf[|WireOf(c, item)|..]);
    }
  }

  /** The client's turn at a packet. */
  lemma PacketTurnTaken(c: Suite, s: State, item: Sent, buf: Bytes)
    requires LawfulAead(c) && OpensUnder(item, s.kex.sc) && s.phase != VersionExchange
    ensures |buf| < |WireOf(c, item)| && buf == WireOf(c, item)[..|buf|] ==> Turn(c, s, buf).None?
    ensures |buf| >= |WireOf(c, item)| && buf == WireOf(c, item) + buf[|WireOf(c, item)|..] ==>
              Turn(c, s, buf) == Some((|WireOf(c, item)|, Deliver(c, s, AdvanceOpt(s.kex.sc), item.payload)))
  {
    hide NextFrame, WireOf, Deliver, LawfulAead, OpensUnder;
    NextOpens(c, item, s.kex.sc, buf);
  }

  lemma WireIsLong(c: Suite, item: Sent)
    requires LawfulAead(c) && item.Sealed?
    ensures |WireOf(c, item)| > 4
  {
    SealedLength(c, item.k, item.payload, item.padding);
  }

  lemma OpensSealed(item: Sent, k: Option<Cipher>)
    requires OpensUnder(item, k)
    ensures item.Sealed?
  {
  }

  /** What one drive of the client achieves. */
  ghost predicate ClientDriven(c: Suite, cfg: Config, x: Script, s: State, v: Server, w: Account, future: Bytes, y: Session,
                               w': Account) {
    && InStep(c, cfg, x, y.core, v, w') && w'.heardS == w.heardS
    && s.out.sent <= y.core.out.sent
    && w'.heardC <= |v.out.sent|
    && Skip(y.core) <= |Render(c, v.out.sent[w'.heardC..])|
    && y.incoming + future == Render(c, v.out.sent[w'.heardC..])[Skip(y.core)..]
    && (Idle(y.core.phase) || (if y.core.phase == VersionExchange then y.incoming == []
                               else LessThanNext(c, y.incoming, v.out.sent[w'.heardC..])))
  }

  /** `bytes` are what is left of a log from item `heard` on, `skip` bytes into it. */
  predicate Remaining(c: Suite, sent: seq<Sent>, heard: nat, skip: nat, bytes: Bytes) {
    heard <= |sent| && skip <= |Render(c, sent[heard..])| && bytes == Render(c, sent[heard..])[skip..]
  }

  /** `bytes` are what is left of the server's line for a client in the middle of it, and all that follows. */
  predicate RestOfLine(c: Suite, s: State, v: Server, bytes: Bytes) {
    |v.out.sent| > 0 && s.ident.total < |IdentLine()| && bytes == (IdentLine() + Render(c, v.out.sent[1..]))[s.ident.total..]
  }

  lemma {:induction false} ClientDrives(c: Suite, cfg: Config, x: Script, s: State, v: Server, w: Account, buf: Bytes,
                                        future: Bytes) returns (w': Account)
    requires Setting(c, cfg) && IsScript(c, cfg, x) && InStep(c, cfg, x, s, v, w) && s.phase != VersionExchange
    requires Remaining(c, v.out.sent, w.heardC, 0, buf + future)
    ensures ClientDriven(c, cfg, x, s, v, w, future, Drive(c, s, buf), w') && SameTask(w, w') && Lighter(w, w')
    ensures OnCourse(cfg, s, w, Drive(c, s, buf).core, w')
    ensures w'.heardC == w.heardC ==> Drive(c, s, buf).core.out == s.out
    decreases |v.out.sent| - w.heardC
  {
    hide Setting, IsScript, InStep, Drive, Turn, Deliver, OpensUnder, WireOf, Lawful, Render, Load;
    SettingIsLawful(c, cfg);
    var sent, heard := v.out.sent, w.heardC;
    assert Render(c, sent[heard..])[0..] == Render(c, sent[heard..]);
    if Idle(s.phase) {
      w' := w;
      DriveIdle(c, s, buf);
    } else if heard == |sent| {
      w' := w;
      RenderEnd(c, sent);
      assert buf == [];
      NothingToDo(c, s);
    } else {
      var next := ClientItem(c, cfg, x, s, v, w);
      var item := sent[heard];
      var wire := WireOf(c, item);
      RenderNext(c, sent, heard);
      PrefixOf(buf, future, wire, Render(c, sent[heard + 1..]));
      PacketTurnTaken(c, s, item, buf);
      if |buf| < |wire| {
        w' := w;
        DriveStuck(c, s, buf);
      } else {
        OpensSealed(item, s.kex.sc);
        var t := Deliver(c, s, AdvanceOpt(s.kex.sc), item.payload);
        DriveTurn(c, s, buf);
        w' := ClientDrives(c, cfg, x, t, v, next, buf[|wire|..], future);
      }
    }
  }

  lemma SettingIsLawful(c: Suite, cfg: Config)
    requires Setting(c, cfg)
    ensures LawfulAead(c) && LawfulKeys(c)
  {
  }

  /** The same, from any phase: the version exchange comes first. */
  lemma ClientDrivesAll(c: Suite, cfg: Config, x: Script, s: State, v: Server, w: Account, buf: Bytes, future: Bytes)
    returns (w': Account)
    requires Setting(c, cfg) && IsScript(c, cfg, x) && InStep(c, cfg, x, s, v, w)
    requires Remaining(c, v.out.sent, w.heardC, Skip(s), buf + future)
    ensures ClientDriven(c, cfg, x, s, v, w, future, Drive(c, s, buf), w') && SameTask(w, w') && Lighter(w, w')
    ensures OnCourse(cfg, s, w, Drive(c, s, buf).core, w')
    ensures w'.heardC == w.heardC ==> Drive(c, s, buf).core.out == s.out
  {
    hide Setting, IsScript, InStep, Drive, Turn, ClientDriven;
    if s.phase != VersionExchange {
      w' := ClientDrives(c, cfg, x, s, v, w, buf, future);
    } else if buf == [] {
      w' := w;
      NothingToDo(c, s);
      ClientWaits(c, cfg, x, s, v, w, future);
    } else {
      w' := ClientHearsGreeting(c, cfg, x, s, v, w, buf, future);
    }
  }

  lemma ClientWaits(c: Suite, cfg: Config, x: Script, s: State, v: Server, w: Account, future: Bytes)
    requires InStep(c, cfg, x, s, v, w) && s.phase == VersionExchange
    requires Remaining(c, v.out.sent, w.heardC, Skip(s), [] + future)
    ensures ClientDriven(c, cfg, x, s, v, w, future, Session(s, []), w)
  {
    hide InStep;
  }

  /** Everything the invariant says of a client still in the version exchange. */
  lemma GreetingFacts(c: Suite, cfg: Config, x: Script, s: State, v: Server, w: Account)
    requires InStep(c, cfg, x, s, v, w) && s.phase == VersionExchange
    ensures w.Greeting? && w.heardC == 0 && w.heardS <= 1 && ClientOn(c, x, s, 0) && ServerOn(c, cfg, x, v, w.heardS)
    ensures s.ident.total < |IdentLine()|
    ensures |v.out.sent| > 0 && v.out.sent[0] == Line(IdentLine())
  {
    hide Talking, AllSay, ServerScript, IdentLine, Ident.Scan;
    if w.Conversing? {
      TalkingIsPastGreeting(c, cfg, s, w.ps, w.qs, w.g);
    } else {
      GreetingPhases(c, x, s, w.heardC);
      ServerFirst(c, cfg, x, v, w.heardS);
    }
  }

  lemma ServerFirst(c: Suite, cfg: Config, x: Script, v: Server, heard: nat)
    requires ServerOn(c, cfg, x, v, heard) && heard <= 5
    ensures |v.out.sent| > 0 && v.out.sent[0] == Line(IdentLine())
  {
    hide IdentLine, Encode, ReplyPayload, Keys, ServerAt, OwnS;
    ServerSaidSizes(c, cfg, x);
    SaidItem(v.out.sent, ServerScript(c, cfg, x), ServerSaid(heard), 0);
  }

  lemma HeldBack(line: Bytes, k: nat, rest: Bytes, buf: Bytes, future: Bytes)
    requires k < |line| && buf + future == (line + rest)[k..]
    ensures k + |buf| <= |line + rest| && (line + rest)[k + |buf|..] == future
  {
    assert (buf + future)[|buf|..] == future;
  }

  lemma ClientHearsSome(c: Suite, cfg: Config, x: Script, s: State, v: Server, w: Account, buf: Bytes, future: Bytes)
    requires InStep(c, cfg, x, s, v, w) && s.phase == VersionExchange && buf != []
    requires |buf| < |IdentLine()| - s.ident.total
    requires RestOfLine(c, s, v, buf + future)
    ensures ClientDriven(c, cfg, x, s, v, w, future, Drive(c, s, buf), w) && Drive(c, s, buf).core.out == s.out
    ensures OnCourse(cfg, s, w, Drive(c, s, buf).core, w)
  {
    hide Drive, Turn, ClientDriven, ClientOn, ServerOn, IdentLine, Deliver, Render, WireOf, InStep;
    GreetingFacts(c, cfg, x, s, v, w);
    var rest := Render(c, v.out.sent[1..]);
    FirstLine(c, v.out.sent);
    MidLineSplits(IdentLine(), s.ident.total, rest, buf, future);
    HeldBack(IdentLine(), s.ident.total, rest, buf, future);
    ClientHearsPart(c, x, s, buf);
    var s' := Turn(c, s, buf).value.1;
    DriveTurn(c, s, buf);
    assert buf[|buf|..] == [] && [] + future == future;
    NothingToDo(c, s');
    GreetingIsHeld(c, cfg, x, s', v, w);
    GreetingIsQuiet(c, x, s', 0);
    ClientWaits(c, cfg, x, s', v, w, future);
    DrivenFrom(c, cfg, x, s, s', v, w, w, future, Session(s', []), w);
  }

  lemma FirstLine(c: Suite, sent: seq<Sent>)
    requires |sent| > 0 && sent[0] == Line(IdentLine())
    ensures Render(c, sent[0..]) == IdentLine() + Render(c, sent[1..])
  {
    hide IdentLine, Render;
    RenderNext(c, sent, 0);
  }

  lemma ClientHearsRestOf(c: Suite, cfg: Config, x: Script, s: State, v: Server, w: Account, buf: Bytes, future: Bytes)
    returns (w': Account)
    requires Setting(c, cfg) && IsScript(c, cfg, x) && InStep(c, cfg, x, s, v, w) && s.phase == VersionExchange && buf != []
    requires |buf| >= |IdentLine()| - s.ident.total
    requires RestOfLine(c, s, v, buf + future)
    ensures ClientDriven(c, cfg, x, s, v, w, future, Drive(c, s, buf), w') && SameTask(w, w') && Lighter(w, w')
    ensures OnCourse(cfg, s, w, Drive(c, s, buf).core, w')
    ensures w'.heardC > 0
  {
    hide Setting, IsScript, Drive, Turn, ClientDriven, ClientOn, ServerOn, IdentLine, Deliver, Render, InStep;
    GreetingFacts(c, cfg, x, s, v, w);
    MidLineSplits(IdentLine(), s.ident.total, Render(c, v.out.sent[1..]), buf, future);
    ClientHearsRest(c, cfg, x, s, buf);
    var (n, s') := Turn(c, s, buf).value;
    var next := Greeting(1, w.heardS);
    DriveTurn(c, s, buf);
    GreetingMovesOn(c, cfg, x, s', v, w.heardS);
    GreetingIsQuiet(c, x, s', 1);
    GreetingIsQuiet(c, x, s, 0);
    w' := ClientDrives(c, cfg, x, s', v, next, buf[n..], future);
    DrivenFrom(c, cfg, x, s, s', v, w, next, future, Drive(c, s', buf[n..]), w');
  }

  lemma ClientHearsGreeting(c: Suite, cfg: Config, x: Script, s: State, v: Server, w: Account, buf: Bytes, future: Bytes)
    returns (w': Account)
    requires Setting(c, cfg) && IsScript(c, cfg, x) && InStep(c, cfg, x, s, v, w) && s.phase == VersionExchange && buf != []
    requires Remaining(c, v.out.sent, w.heardC, Skip(s), buf + future)
    ensures ClientDriven(c, cfg, x, s, v, w, future, Drive(c, s, buf), w') && SameTask(w, w') && Lighter(w, w')
    ensures OnCourse(cfg, s, w, Drive(c, s, buf).core, w')
    ensures w'.heardC == w.heardC ==> Drive(c, s, buf).core.out == s.out
  {
    hide Setting, IsScript, Drive, ClientDriven, ClientOn, ServerOn, IdentLine, Render, InStep;
    GreetingFacts(c, cfg, x, s, v, w);
    FirstLine(c, v.out.sent);
    if |buf| < |IdentLine()| - s.ident.total {
      w' := w;
      ClientHearsSome(c, cfg, x, s, v, w, buf, future);
    } else {
      w' := ClientHearsRestOf(c, cfg, x, s, v, w, buf, future);
    }
  }

  lemma GreetingIsQuiet(c: Suite, x: Script, s: State, heard: nat)
    requires ClientOn(c, x, s, heard)
    ensures Quiet(s) && (s.out.cs.Some? ==> heard >= 3)
  {
    hide ClientAt;
    GreetingPhases(c, x, s, heard);
  }

  lemma GreetingIsHeld(c: Suite, cfg: Config, x: Script, s: State, v: Server, w: Account)
    requires w == Greeting(0, w.heardS) && w.heardS <= 1 && ClientOn(c, x, s, 0) && ServerOn(c, cfg, x, v, w.heardS)
    ensures InStep(c, cfg, x, s, v, w) && s.phase == VersionExchange && s.ident.total < |IdentLine()|
  {
    hide AllSay, ServerAt, IdentLine, Ident.Scan;
  }

  lemma GreetingMovesOn(c: Suite, cfg: Config, x: Script, s: State, v: Server, heardS: nat)
    requires ClientOn(c, x, s, 1) && ServerOn(c, cfg, x, v, heardS) && heardS <= 1
    ensures InStep(c, cfg, x, s, v, Greeting(1, heardS)) && s.phase != VersionExchange
  {
    hide AllSay, ServerAt, IdentLine;
  }

  lemma DrivenFrom(c: Suite, cfg: Config, x: Script, s: State, s': State, v: Server, w: Account, next: Account, future: Bytes,
                   y: Session, w': Account)
    requires ClientDriven(c, cfg, x, s', v, next, future, y, w')
    requires s.out.sent <= s'.out.sent && next.heardS == w.heardS
    ensures ClientDriven(c, cfg, x, s, v, w, future, y, w')
  {
    hide InStep, Render, LessThanNext;
  }

  // ---- bytes reach the server ------------------------------------------------------------------------------

  ghost predicate ServerServed(c: Suite, cfg: Config, x: Script, s: State, v: Server, w: Account, future: Bytes, p: Peer,
                               w': Account) {
    && InStep(c, cfg, x, s, p.core, w') && w'.heardC == w.heardC && SameTask(w, w') && Lighter(w, w')
    && OnCourse(cfg, s, w, s, w')
    && v.out.sent <= p.core.out.sent
    && w'.heardS <= |s.out.sent|
    && p.incoming + future == Render(c, s.out.sent[w'.heardS..])
    && LessThanNext(c, p.incoming, s.out.sent[w'.heardS..])
  }

  lemma ServeBlocked(c: Suite, cfg: Config, v: Server, buf: Bytes)
    requires v.phase.Trapped? || ServerStep(c, cfg, v, buf).Blocked?
    ensures Serve(c, cfg, v, buf) == Peer(v, buf)
  {
    hide ServerStep;
  }

  lemma ServeGoes(c: Suite, cfg: Config, v: Server, buf: Bytes)
    requires !v.phase.Trapped? && ServerStep(c, cfg, v, buf).Went?
    ensures var step := ServerStep(c, cfg, v, buf); Serve(c, cfg, v, buf) == Serve(c, cfg, step.v, buf[step.n..])
  {
    hide ServerStep;
  }

  lemma NothingToServe(c: Suite, cfg: Config, v: Server)
    ensures Serve(c, cfg, v, []) == Peer(v, [])
  {
  }

  /** The server's step at a packet. */
  lemma PacketStepTaken(c: Suite, cfg: Config, v: Server, item: Sent, buf: Bytes)
    requires LawfulAead(c) && OpensUnder(item, v.cs) && !v.phase.AwaitingIdent?
    ensures |buf| < |WireOf(c, item)| && buf == WireOf(c, item)[..|buf|] ==> ServerStep(c, cfg, v, buf).Blocked?
    ensures |buf| >= |WireOf(c, item)| && buf == WireOf(c, item) + buf[|WireOf(c, item)|..] ==>
              match Handle(c, cfg, v.(cs := AdvanceOpt(v.cs)), item.payload)
              case None => true
              case Some(u) => ServerStep(c, cfg, v, buf) == Went(|WireOf(c, item)|, u)
  {
    hide NextFrame, WireOf, Handle, LawfulAead, OpensUnder;
    NextOpens(c, item, v.cs, buf);
  }

  lemma ServerPhases(c: Suite, cfg: Config, x: Script, s: State, v: Server, w: Account)
    requires InStep(c, cfg, x, s, v, w)
    ensures !v.phase.Trapped? && (v.phase.AwaitingIdent? <==> w.heardS == 0)
  {
    hide Talking, ClientOn, AllSay, Carries;
  }

  lemma {:induction false} ServerServes(c: Suite, cfg: Config, x: Script, s: State, v: Server, w: Account, buf: Bytes,
                                        future: Bytes) returns (w': Account)
    requires Setting(c, cfg) && IsScript(c, cfg, x) && InStep(c, cfg, x, s, v, w) && w.heardS > 0
    requires w.heardS <= |s.out.sent| && buf + future == Render(c, s.out.sent[w.heardS..])
    ensures ServerServed(c, cfg, x, s, v, w, future, Serve(c, cfg, v, buf), w')
    decreases |s.out.sent| - w.heardS
  {
    hide Setting, IsScript, InStep, Serve, ServerStep, Handle, OpensUnder, WireOf, Lawful, Render, Load;
    SettingIsLawful(c, cfg);
    ServerPhases(c, cfg, x, s, v, w);
    var sent, heard := s.out.sent, w.heardS;
    if heard == |sent| {
      w' := w;
      RenderEnd(c, sent);
      assert buf == [];
      NothingToServe(c, cfg, v);
    } else {
      var next := ServerItem(c, cfg, x, s, v, w);
      var item := sent[heard];
      var wire := WireOf(c, item);
      RenderNext(c, sent, heard);
      PrefixOf(buf, future, wire, Render(c, sent[heard + 1..]));
      PacketStepTaken(c, cfg, v, item, buf);
      if |buf| < |wire| {
        w' := w;
        ServeBlocked(c, cfg, v, buf);
      } else {
        OpensSealed(item, v.cs);
        var u := Handle(c, cfg, v.(cs := AdvanceOpt(v.cs)), item.payload).value;
        ServeGoes(c, cfg, v, buf);
        w' := ServerServes(c, cfg, x, s, u, next, buf[|wire|..], future);
      }
    }
  }

  lemma ServerGreetingFacts(c: Suite, cfg: Config, x: Script, s: State, v: Server, w: Account)
    requires InStep(c, cfg, x, s, v, w) && w.heardS == 0
    ensures w.Greeting? && ServerOn(c, cfg, x, v, 0)
    ensures |s.out.sent| > 0 && s.out.sent[0] == Line(Ident.CLIENT_IDENT_LINE)
  {
    hide Talking, AllSay, ServerScript, IdentLine, Ident.Scan, Keys, OwnC, Auth.ServiceRequest, Ident.CLIENT_IDENT,
         Carries, Exchange.CurveInit;
    ServerSaidSizes(c, cfg, x);
    GreetingPhases(c, x, s, w.heardC);
    SaidItem(s.out.sent, ClientScript(c, x), ClientSaid(w.heardC, s.phase == ServiceRequest), 0);
  }

  lemma ServerIdentified(c: Suite, cfg: Config, x: Script, s: State, v: Server, w: Account, v': Server)
    requires InStep(c, cfg, x, s, v, w) && w.heardS == 0 && ServerOn(c, cfg, x, v', 1) && v'.out == v.out
    ensures InStep(c, cfg, x, s, v', Greeting(w.heardC, 1))
  {
    hide Talking, AllSay, ServerScript, IdentLine, Ident.Scan, Keys, Carries;
    ServerGreetingFacts(c, cfg, x, s, v, w);
    GreetingPhases(c, x, s, w.heardC);
  }

  lemma ServerServesAll(c: Suite, cfg: Config, x: Script, s: State, v: Server, w: Account, buf: Bytes, future: Bytes)
    returns (w': Account)
    requires Setting(c, cfg) && IsScript(c, cfg, x) && InStep(c, cfg, x, s, v, w)
    requires w.heardS <= |s.out.sent| && buf + future == Render(c, s.out.sent[w.heardS..])
    ensures ServerServed(c, cfg, x, s, v, w, future, Serve(c, cfg, v, buf), w')
  {
    hide Setting, IsScript, InStep, Serve, ServerStep, ServerOn, Ident.CLIENT_IDENT;
    if w.heardS > 0 {
      w' := ServerServes(c, cfg, x, s, v, w, buf, future);
    } else {
      ServerGreetingFacts(c, cfg, x, s, v, w);
      ServerPhases(c, cfg, x, s, v, w);
      var line := Ident.CLIENT_IDENT_LINE;
      var rest := Render(c, s.out.sent[1..]);
      RenderNext(c, s.out.sent, 0);
      ServerHearsLine(c, cfg, x, v, buf, future, rest);
      if |buf| < |line| {
        w' := w;
        ServeBlocked(c, cfg, v, buf);
      } else {
        var v' := ServerStep(c, cfg, v, buf).v;
        var next := Greeting(w.heardC, 1);
        ServeGoes(c, cfg, v, buf);
        ServerIdentified(c, cfg, x, s, v, w, v');
        w' := ServerServes(c, cfg, x, s, v', next, buf[|line|..], future);
      }
    }
  }

  // ---- one action --------------------------------------------------------------------------------------------

  lemma MoreInPipe(c: Suite, before: seq<Sent>, after: seq<Sent>, heard: nat, skip: nat, buf: Bytes, pipe: Bytes)
    requires before <= after && heard <= |before| && skip <= |Render(c, before[heard..])|
    requires buf + pipe == Render(c, before[heard..])[skip..]
    ensures heard <= |after| && skip <= |Render(c, after[heard..])|
    ensures buf + (pipe + Render(c, Gained(before, after))) == Render(c, after[heard..])[skip..]
  {
    hide Render;
    var more := Gained(before, after);
    var r, e := Render(c, before[heard..]), Render(c, more);
    assert after[heard..] == before[heard..] + more;
    RenderAppend(c, before[heard..], more);
    assert (r + e)[skip..] == r[skip..] + e;
    assert buf + (pipe + e) == (buf + pipe) + e;
  }

  lemma StillLess(c: Suite, buf: Bytes, before: seq<Sent>, after: seq<Sent>, heard: nat)
    requires before <= after && heard <= |before| && LessThanNext(c, buf, before[heard..])
    ensures LessThanNext(c, buf, after[heard..])
  {
    if heard < |before| { assert before[heard..][0] == after[heard..][0]; }
  }

  /** The client has moved: its new output joins the pipe to the server. */
  lemma ClientMoved(c: Suite, cfg: Config, x: Script, net: Net, w: Account, toClient: Bytes, y: Session, w': Account)
    requires Holds(c, cfg, x, net, w)
    requires ClientDriven(c, cfg, x, net.client.core, net.server.core, w, toClient, y, w')
    ensures Holds(c, cfg, x, Net(y, net.server, net.toServer + Render(c, Gained(net.client.core.out.sent, y.core.out.sent)),
                                 toClient), w')
  {
    hide InStep, Render, LessThanNext;
    var before, after := net.client.core.out.sent, y.core.out.sent;
    assert Render(c, before[w.heardS..])[0..] == Render(c, before[w.heardS..]);
    MoreInPipe(c, before, after, w.heardS, 0, net.server.incoming, net.toServer);
    assert Render(c, after[w.heardS..])[0..] == Render(c, after[w.heardS..]);
    StillLess(c, net.server.incoming, before, after, w.heardS);
  }

  lemma ServerMoved(c: Suite, cfg: Config, x: Script, net: Net, w: Account, toServer: Bytes, p: Peer, w': Account)
    requires Holds(c, cfg, x, net, w)
    requires ServerServed(c, cfg, x, net.client.core, net.server.core, w, toServer, p, w')
    ensures Holds(c, cfg, x, Net(net.client, p, toServer,
                                 net.toClient + Render(c, Gained(net.server.core.out.sent, p.core.out.sent))), w')
  {
    hide InStep, Render, LessThanNext;
    var before, after := net.server.core.out.sent, p.core.out.sent;
    MoreInPipe(c, before, after, w.heardC, Skip(net.client.core), net.client.incoming, net.toClient);
    if !Idle(net.client.core.phase) && net.client.core.phase != VersionExchange {
      StillLess(c, net.client.incoming, before, after, w.heardC);
    }
  }

  lemma TakenApart(buf: Bytes, pipe: Bytes, m: nat)
    requires m <= |pipe|
    ensures (buf + pipe[..m]) + pipe[m..] == buf + pipe
  {
  }

  lemma HostIsHeard(c: Suite, cfg: Config, x: Script, s: State, v: Server, w: Account)
    requires InStep(c, cfg, x, s, v, w)
    ensures s.phase != Halted
  {
    hide Talking, AllSay, ServerAt;
    if w.Greeting? {
      GreetingPhases(c, x, s, w.heardC);
    } else {
      TalkingIsPastGreeting(c, cfg, s, w.ps, w.qs, w.g);
    }
  }

  lemma BytesToClient(c: Suite, cfg: Config, x: Script, net: Net, n: nat, w: Account) returns (w': Account)
    requires Setting(c, cfg) && IsScript(c, cfg, x) && Holds(c, cfg, x, net, w)
    ensures Holds(c, cfg, x, Next(c, cfg, net, DeliverToClient(n)), w') && SameTask(w, w') && Lighter(w, w')
    ensures OnCourse(cfg, net.client.core, w, Next(c, cfg, net, DeliverToClient(n)).client.core, w')
    ensures w'.heardC == w.heardC ==> Next(c, cfg, net, DeliverToClient(n)).toServer == net.toServer
  {
    hide Setting, IsScript, InStep, Drive, ClientDriven, Drained;
    var m := Min(n, |net.toClient|);
    HostIsHeard(c, cfg, x, net.client.core, net.server.core, w);
    TakenApart(net.client.incoming, net.toClient, m);
    w' := ClientDrivesAll(c, cfg, x, net.client.core, net.server.core, w, net.client.incoming + net.toClient[..m],
                          net.toClient[m..]);
    ClientMoved(c, cfg, x, net, w, net.toClient[m..], Feed(c, net.client, net.toClient[..m]), w');
  }

  lemma BytesToServer(c: Suite, cfg: Config, x: Script, net: Net, n: nat, w: Account) returns (w': Account)
    requires Setting(c, cfg) && IsScript(c, cfg, x) && Holds(c, cfg, x, net, w)
    ensures Holds(c, cfg, x, Next(c, cfg, net, DeliverToServer(n)), w') && SameTask(w, w') && Lighter(w, w')
    ensures OnCourse(cfg, net.client.core, w, Next(c, cfg, net, DeliverToServer(n)).client.core, w')
  {
    hide Setting, IsScript, InStep, Serve, Drained, LessThanNext;
    var m := Min(n, |net.toServer|);
    TakenApart(net.server.incoming, net.toServer, m);
    w' := ServerServesAll(c, cfg, x, net.client.core, net.server.core, w, net.server.incoming + net.toServer[..m],
                          net.toServer[m..]);
    ServerMoved(c, cfg, x, net, w, net.toServer[m..], FeedServer(c, cfg, net.server, net.toServer[..m]), w');
  }

  // the host's calls

  /** What an action does to the task. */
  predicate Task(w: Account, w': Account, act: Action) {
    if IsExec(act) then Begun(w') == Begun(w) + 1 && CommandOf(w') == if Begun(w) == 0 then act.input.command else CommandOf(w)
    else SameTask(w, w')
  }

  lemma SameClient(c: Suite, cfg: Config, x: Script, net: Net, w: Account)
    requires Holds(c, cfg, x, net, w)
    ensures Holds(c, cfg, x, Net(net.client, net.server,
                                 net.toServer + Render(c, Gained(net.client.core.out.sent, net.client.core.out.sent)),
                                 net.toClient), w)
  {
    hide InStep;
    var sent := net.client.core.out.sent;
    assert Gained(sent, sent) == [] && net.toServer + [] == net.toServer;
  }

  /** A host call that only asks something. */
  lemma HostAsks(c: Suite, cfg: Config, x: Script, net: Net, w: Account, t: State, asks: seq<Ask>, g: Progress)
    returns (w': Account)
    requires w.Conversing? && Holds(c, cfg, x, net, w)
    requires Talking(c, cfg, t, w.ps, w.qs + asks, g) && SendEach(c, net.client.core.out, Puts(asks)) == Some(t.out)
    requires t.kex == net.client.core.kex && t.phase == net.client.core.phase
    requires Ran(net.server.core.lastExec, w.qs + asks, g)
    ensures Holds(c, cfg, x, Net(net.client.(core := t), net.server,
                                 net.toServer + Render(c, Gained(net.client.core.out.sent, t.out.sent)), net.toClient), w')
    ensures Begun(w') == g.begun && CommandOf(w') == g.command
    ensures w'.Conversing? && w'.ps == w.ps && w'.qs == w.qs + asks && w'.g == g
  {
    hide Talking, Carries, Render, LessThanNext, Puts, Encodes, SendEach, Ran;
    var s, v := net.client.core, net.server.core;
    w' := Conversing(w.heardC, w.heardS, w.ps, w.qs + asks, g);
    AsksAreCarried(c, cfg, s, t, v.cs.value, w.heardS, w.qs, asks, w.ps, g);
    TalkingIsPastGreeting(c, cfg, t, w.ps, w.qs + asks, g);
    ClientMoved(c, cfg, x, net, w, net.toClient, net.client.(core := t), w');
  }

  lemma HostDecides(c: Suite, cfg: Config, x: Script, net: Net, w: Account) returns (w': Account)
    requires Setting(c, cfg) && IsScript(c, cfg, x) && Holds(c, cfg, x, net, w)
    ensures Holds(c, cfg, x, ClientDoes(c, net, ProvideHostKeyDecision(true)), w') && SameTask(w, w')
    ensures net.client.core.phase == AwaitingHostKeyDecision ==>
              var y := ClientDoes(c, net, ProvideHostKeyDecision(true)).client.core; Quiet(y) && y.out.cs.Some?
  {
    hide Setting, IsScript, Drive, ClientDriven, Accepted, AllSay, ServerAt, LessThanNext, Keys, Talking, Carries, Render;
    var s, v := net.client.core, net.server.core;
    HostIsHeard(c, cfg, x, s, v, w);
    if s.phase != AwaitingHostKeyDecision {
      w' := w;
      SameClient(c, cfg, x, net, w);
    } else {
      AwaitingMeansThree(c, cfg, x, s, v, w);
      var t := Accepted(c, s);
      ClientAccepts(c, cfg, x, s);
      GreetingIsQuiet(c, x, t, 3);
      AcceptedCipher(c, x, t);
      w' := ClientDrivesAll(c, cfg, x, t, v, w, net.client.incoming, net.toClient);
      DrivenFrom(c, cfg, x, s, t, v, w, w, net.toClient, Drive(c, t, net.client.incoming), w');
      ClientMoved(c, cfg, x, net, w, net.toClient, Drive(c, t, net.client.incoming), w');
    }
  }

  lemma AcceptedCipher(c: Suite, x: Script, t: State)
    requires ClientOn(c, x, t, 3) && t.phase == ServiceRequest
    ensures t.out.cs.Some?
  {
    hide Keys, AllSay;
  }

  lemma AwaitingMeansThree(c: Suite, cfg: Config, x: Script, s: State, v: Server, w: Account)
    requires InStep(c, cfg, x, s, v, w) && s.phase == AwaitingHostKeyDecision
    ensures w.Greeting? && w.heardC == 3 && ClientOn(c, x, s, 3) && s.out.cs == None
    ensures ServerOn(c, cfg, x, v, w.heardS) && 3 <= ServerSaid(w.heardS) && w.heardS <= 3
  {
    hide AllSay, ServerAt;
    if w.Greeting? { GreetingPhases(c, x, s, w.heardC); }
  }

  lemma UserAuthMeansTalking(c: Suite, cfg: Config, x: Script, s: State, v: Server, w: Account)
    requires InStep(c, cfg, x, s, v, w) && (s.phase == UserAuth || s.phase == SessionModel.Connected)
    ensures w.Conversing? && Talking(c, cfg, s, w.ps, w.qs, w.g)
  {
    hide AllSay, ServerAt, Talking;
    if w.Greeting? { GreetingPhases(c, x, s, w.heardC); }
  }

  lemma HostActs(c: Suite, cfg: Config, x: Script, net: Net, i: Input, w: Account) returns (w': Account)
    requires Setting(c, cfg) && IsScript(c, cfg, x) && Holds(c, cfg, x, net, w)
    requires Permitted(c, net, Host(i)) && Begun(w) + 1 < U32_LIMIT
    ensures Holds(c, cfg, x, ClientDoes(c, net, i), w') && Task(w, w', Host(i))
    ensures i == Password(cfg.username, cfg.password) && net.client.core.phase == UserAuth ==>
              Hopeful(cfg, ClientDoes(c, net, i).client.core, w')
  {
    hide Setting, IsScript, InStep, Drained, PipesHold, Talking, UsableKey, Short, Render, AuthenticatePassword,
         AuthenticatePublickey, OpenExec, Puts, SendEach;
    var s, v := net.client.core, net.server.core;
    HostIsHeard(c, cfg, x, s, v, w);
    match i
    case ProvideHostKeyDecision(_) => w' := HostDecides(c, cfg, x, net, w);
    case Password(user, password) =>
      if s.phase == UserAuth {
        UserAuthMeansTalking(c, cfg, x, s, v, w);
        var asks := HostTriesPassword(c, cfg, s, user, password, w.ps, w.qs, w.g);
        NothingRanYet(c, cfg, s, v.lastExec, w, asks);
        w' := HostAsks(c, cfg, x, net, w, AuthenticatePassword(c, s, user, password), asks, w.g);
      } else {
        w' := w;
        AuthIgnored(c, s, user, password, []);
        SameClient(c, cfg, x, net, w);
      }
    case PublicKey(user, key) =>
      if s.phase == UserAuth {
        UserAuthMeansTalking(c, cfg, x, s, v, w);
        var asks := HostTriesKey(c, cfg, s, user, key, w.ps, w.qs, w.g);
        NothingRanYet(c, cfg, s, v.lastExec, w, asks);
        w' := HostAsks(c, cfg, x, net, w, AuthenticatePublickey(c, s, user, key), asks, w.g);
      } else {
        w' := w;
        AuthIgnored(c, s, user, [], key);
        SameClient(c, cfg, x, net, w);
      }
    case Exec(command) =>
      UserAuthMeansTalking(c, cfg, x, s, v, w);
      var q := HostOpensExec(c, cfg, s, command, w.ps, w.qs, w.g);
      NothingRunsYet(c, cfg, s, v.lastExec, w, q, command);
      w' := HostAsks(c, cfg, x, net, w, OpenExec(c, s, command), [q], Extended(w.g, command));
  }

  lemma NothingRanYet(c: Suite, cfg: Config, s: State, lastExec: Option<Bytes>, w: Account, asks: seq<Ask>)
    requires w.Conversing? && Talking(c, cfg, s, w.ps, w.qs, w.g) && s.phase == UserAuth
    ensures Ran(lastExec, w.qs + asks, w.g)
  {
    hide ChannelTalk, AuthTalk, Credible, AllFair, Events.ChannelEvents;
  }

  lemma NothingRunsYet(c: Suite, cfg: Config, s: State, lastExec: Option<Bytes>, w: Account, q: Ask, command: Bytes)
    requires w.Conversing? && Talking(c, cfg, s, w.ps, w.qs, w.g) && s.phase == SessionModel.Connected
    ensures Ran(lastExec, w.qs + [q], Extended(w.g, command))
  {
    hide ChannelTalk, AuthTalk, Credible, AllFair, Events.ChannelEvents, Faithful;
    TalkBounds(s.conn, w.ps, w.qs, w.g);
  }

  lemma AuthIgnored(c: Suite, s: State, user: Bytes, password: Bytes, key: PrivateKey)
    requires s.phase != UserAuth
    ensures AuthenticatePassword(c, s, user, password) == s && AuthenticatePublickey(c, s, user, key) == s
  {
  }

  lemma NextHolds(c: Suite, cfg: Config, x: Script, net: Net, act: Action, w: Account) returns (w': Account)
    requires Setting(c, cfg) && IsScript(c, cfg, x) && Holds(c, cfg, x, net, w)
    requires Permitted(c, net, act) && Begun(w) + 1 < U32_LIMIT
    ensures Holds(c, cfg, x, Next(c, cfg, net, act), w') && Task(w, w', act)
  {
    hide Setting, IsScript, Holds, Permitted, Next;
    match act
    case DeliverToServer(n) => w' := BytesToServer(c, cfg, x, net, n, w);
    case DeliverToClient(n) => w' := BytesToClient(c, cfg, x, net, n, w);
    case Host(i) =>
      w' := HostActs(c, cfg, x, net, i, w);
      NextIsHost(c, cfg, net, i);
  }

  lemma NextIsHost(c: Suite, cfg: Config, net: Net, i: Input)
    ensures Next(c, cfg, net, Host(i)) == ClientDoes(c, net, i)
  {
  }

  // ---- every schedule ----------------------------------------------------------------------------------------

  lemma {:induction false} RunHolds(c: Suite, cfg: Config, x: Script, net: Net, acts: seq<Action>, w: Account)
    returns (w': Account)
    requires Setting(c, cfg) && IsScript(c, cfg, x) && Holds(c, cfg, x, net, w)
    requires AllPermitted(c, cfg, net, acts) && Begun(w) + Execs(acts) + 1 < U32_LIMIT
    ensures Holds(c, cfg, x, RunNet(c, cfg, net, acts), w') && Begun(w') == Begun(w) + Execs(acts)
    ensures CommandOf(w') == if Begun(w) == 0 && Execs(acts) > 0 then FirstCommand(acts) else CommandOf(w)
    decreases |acts|
  {
    hide Setting, IsScript, Holds, Permitted, Next, Begun, CommandOf;
    if acts == [] {
      w' := w;
    } else {
      var next := NextHolds(c, cfg, x, net, acts[0], w);
      w' := RunHolds(c, cfg, x, Next(c, cfg, net, acts[0]), acts[1..], next);
    }
  }

  lemma OpeningHolds(c: Suite, cfg: Config, x: Script)
    ensures Holds(c, cfg, x, Opening(c), Greeting(0, 0))
  {
    hide IdentLine, Ident.CLIENT_IDENT, OwnC, OwnS, ReplyPayload, Encode, Keys, Exchange.CurveInit, Auth.ServiceRequest;
    IdentSize();
    var s, v := START.core, NewServer();
    assert IdentLine()[..0] == [];
    assert s.out.sent[0..] == s.out.sent && v.out.sent[0..] == v.out.sent;
    assert AllSay(s.out.sent, ClientScript(c, x)[..1]);
    assert AllSay(v.out.sent, ServerScript(c, cfg, x)[..1]);
    var r := Render(c, v.out.sent);
    assert r[0..] == r && [] + r == r;
    assert [] + Render(c, s.out.sent) == Render(c, s.out.sent);
  }
}
