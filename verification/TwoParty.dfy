/**
  `Session` and `FakeServer` joined by two byte pipes, under every delivery schedule.

  The host accepts the key, keeps at most one authentication attempt outstanding, and opens exec
  channels once authenticated; all strings are short. Bytes arrive in any amounts, in any order
  between the two directions.
 */
module TwoParty {
  import opened Prelude
  import opened Primitives
  import opened Packet
  import opened SessionModel
  import opened FakeServer
  import opened HandshakeScript
  import opened Dialogue

  // ---- the system ------------------------------------------------------------------------------------

  /** Both ends, and the bytes sent but not yet delivered. */
  datatype Net = Net(client: Session, server: Peer, toServer: Bytes, toClient: Bytes)

  function Opening(c: Suite): Net {
    Net(START, Peer(NewServer(), []), Render(c, START.core.out.sent), Render(c, NewServer().out.sent))
  }

  datatype Action =
    | DeliverToServer(n: nat)
    | DeliverToClient(n: nat)
    | Host(input: Input)

  /** What a log gained. */
  function Gained(before: seq<Sent>, after: seq<Sent>): seq<Sent> {
    if |before| <= |after| then after[|before|..] else []
  }

  function ClientDoes(c: Suite, net: Net, i: Input): Net {
    var y := Do(c, net.client, i);
    net.(client := y, toServer := net.toServer + Render(c, Gained(net.client.core.out.sent, y.core.out.sent)))
  }

  function Next(c: Suite, cfg: Config, net: Net, act: Action): Net {
    match act
    case DeliverToServer(n) =>
      var m := Min(n, |net.toServer|);
      var p := FeedServer(c, cfg, net.server, net.toServer[..m]);
      net.(server := p, toServer := net.toServer[m..],
           toClient := net.toClient + Render(c, Gained(net.server.core.out.sent, p.core.out.sent)))
    case DeliverToClient(n) =>
      var m := Min(n, |net.toClient|);
      ClientDoes(c, net.(toClient := net.toClient[m..]), FeedIncoming(net.toClient[..m]))
    case Host(i) => ClientDoes(c, net, i)
  }

  /** What the host may do. */
  ghost predicate Permitted(c: Suite, net: Net, act: Action) {
    var s := net.client.core;
    act.Host? ==>
      match act.input
      case ProvideHostKeyDecision(accept) => accept
      case Password(user, password) => s.pendingAuth == None && Short(user) && Short(password)
      case PublicKey(user, key) => s.pendingAuth == None && Short(user) && UsableKey(c, key)
      case Exec(command) => s.phase == SessionModel.Connected && Short(command)
      case _ => false
  }

  ghost predicate AllPermitted(c: Suite, cfg: Config, net: Net, acts: seq<Action>)
    decreases |acts|
  {
    acts == [] || (Permitted(c, net, acts[0]) && AllPermitted(c, cfg, Next(c, cfg, net, acts[0]), acts[1..]))
  }

  function RunNet(c: Suite, cfg: Config, net: Net, acts: seq<Action>): Net
    decreases |acts|
  {
    if acts == [] then net else RunNet(c, cfg, Next(c, cfg, net, acts[0]), acts[1..])
  }

  predicate IsExec(act: Action) { act.Host? && act.input.Exec? }

  /** How many exec channels a schedule opens. */
  function Execs(acts: seq<Action>): nat {
    if acts == [] then 0 else (if IsExec(acts[0]) then 1 else 0) + Execs(acts[1..])
  }

  /** The command of the first. */
  function FirstCommand(acts: seq<Action>): Bytes {
    if acts == [] then [] else if IsExec(acts[0]) then acts[0].input.command else FirstCommand(acts[1..])
  }

  // ---- logs and their bytes ----------------------------------------------------------------------------

  /** `items` carry `payloads` under consecutive states of one cipher, from `k` to `end`. */
  predicate Carries(k: Cipher, items: seq<Sent>, payloads: seq<Bytes>, end: Cipher)
    decreases |items|
  {
    if items == [] then payloads == [] && k == end
    else
      && payloads != []
      && Says(items[0], Packet(Some(k), payloads[0]))
      && Carries(Advance(k), items[1..], payloads[1..], end)
  }

  lemma {:induction false} CarriesMore(k: Cipher, items: seq<Sent>, payloads: seq<Bytes>, mid: Cipher,
                                       more: seq<Sent>, morePayloads: seq<Bytes>, end: Cipher)
    requires Carries(k, items, payloads, mid) && Carries(mid, more, morePayloads, end)
    ensures Carries(k, items + more, payloads + morePayloads, end)
    decreases |items|
  {
    hide Says, Advance;
    if items == [] {
      assert items + more == more && payloads + morePayloads == morePayloads;
    } else {
      assert (items + more)[1..] == items[1..] + more && (payloads + morePayloads)[1..] == payloads[1..] + morePayloads;
      CarriesMore(Advance(k), items[1..], payloads[1..], mid, more, morePayloads, end);
    }
  }

  predicate EachFits(payloads: seq<Bytes>) { forall p | p in payloads :: |p| <= MAX_PACKET_LENGTH - 20 }

  lemma EmitsOne(c: Suite, o: Out, k: Option<Cipher>, payload: Bytes)
    requires |payload| <= MAX_PACKET_LENGTH - 20
    ensures var o' := Emit(c, o, k, payload);
            && |o'.sent| == |o.sent| + 1
            && o'.sent == o.sent + [o'.sent[|o.sent|]]
            && Says(o'.sent[|o.sent|], Packet(k, payload))
  {
  }

  /** Sealing payloads one after the other adds items that carry them. */
  lemma {:induction false} SendEachCarries(c: Suite, o: Out, payloads: seq<Bytes>) returns (items: seq<Sent>)
    requires o.cs.Some? && EachFits(payloads)
    ensures SendEach(c, o, payloads).Some?
    ensures var o' := SendEach(c, o, payloads).value;
            && o'.cs.Some? && o'.sent == o.sent + items && Carries(o.cs.value, items, payloads, o'.cs.value)
    decreases |payloads|
  {
    hide Says, Emit, Advance;
    if payloads == [] {
      items := [];
    } else {
      assert payloads[0] in payloads;
      EmitsOne(c, o, o.cs, payloads[0]);
      var o1 := SendCiphered(c, o, payloads[0]).value;
      var item := o1.sent[|o.sent|];
      forall p | p in payloads[1..] ensures p in payloads {}
      var rest := SendEachCarries(c, o1, payloads[1..]);
      items := [item] + rest;
      assert o.sent + items == (o.sent + [item]) + rest;
      assert items[1..] == rest;
    }
  }

  function Encodes(cfg: Config, ps: seq<Reply>): seq<Bytes>
    decreases |ps|
  {
    if ps == [] then [] else [Encode(cfg, ps[0])] + Encodes(cfg, ps[1..])
  }

  lemma {:induction false} SealRepliesIsSendEach(c: Suite, cfg: Config, o: Out, ps: seq<Reply>)
    requires o.cs.Some?
    ensures SendEach(Seeded(c, cfg), o, Encodes(cfg, ps)) == Some(SealReplies(c, cfg, o, ps))
    decreases |ps|
  {
    hide Encode, Emit;
    if ps != [] {
      assert Encodes(cfg, ps)[1..] == Encodes(cfg, ps[1..]);
      SealRepliesIsSendEach(c, cfg, SendPlainOrCiphered(Seeded(c, cfg), o, Encode(cfg, ps[0])), ps[1..]);
    }
  }

  lemma {:induction false} EncodesAppend(cfg: Config, a: seq<Reply>, b: seq<Reply>)
    ensures Encodes(cfg, a + b) == Encodes(cfg, a) + Encodes(cfg, b)
    decreases |a|
  {
    hide Encode;
    if a == [] {
      assert a + b == b;
    } else {
      assert (a + b)[1..] == a[1..] + b;
      EncodesAppend(cfg, a[1..], b);
    }
  }

  lemma {:induction false} PutsAppend(a: seq<Ask>, b: seq<Ask>)
    ensures Puts(a + b) == Puts(a) + Puts(b)
    decreases |a|
  {
    hide Put;
    if a == [] {
      assert a + b == b;
    } else {
      assert (a + b)[1..] == a[1..] + b;
      PutsAppend(a[1..], b);
    }
  }

  // ---- the invariant -----------------------------------------------------------------------------------

  /** How many items of the other side's log each side has handled, and how their dialogue stands. */
  datatype Account =
    | Greeting(heardC: nat, heardS: nat)
    | Conversing(heardC: nat, heardS: nat, ps: seq<Reply>, qs: seq<Ask>, g: Progress)

  /** Exec channels opened, and what the first is for. */
  function Begun(w: Account): nat { if w.Greeting? then 0 else w.g.begun }
  function CommandOf(w: Account): Bytes { if w.Greeting? then [] else w.g.command }

  predicate SameTask(w: Account, w': Account) { Begun(w') == Begun(w) && CommandOf(w') == CommandOf(w) }

  /** With one exec channel: once its command has been taken by the server, that is what ran. */
  predicate Ran(lastExec: Option<Bytes>, qs: seq<Ask>, g: Progress) {
    g.begun == 1 && g.confirmed == 1 && Commands(qs) == 0 ==> lastExec == Some(g.command)
  }

  /** A bound on the items still to be handled. */
  function Load(w: Account): int {
    if w.Greeting? then 10 - w.heardC - w.heardS else ReplyLoads(w.ps) + AskLoads(w.qs)
  }

  /** Handling an item brings the end nearer. */
  predicate Lighter(w: Account, w': Account) {
    w'.heardC >= w.heardC && w'.heardS >= w.heardS
    && Load(w') <= Load(w) && (w'.heardC + w'.heardS > w.heardC + w.heardS ==> Load(w') < Load(w))
  }

  /** No authentication has been attempted, or none is outstanding and none has succeeded. */
  predicate Quiet(s: State) { s.pendingAuth == None && s.phase != SessionModel.Connected && !Over(s.phase) }

  /** The right password is on its way, or its success is, or the client is connected. */
  predicate Hopeful(cfg: Config, s: State, w: Account) {
    w.Conversing? && w.g.begun < 2
    && (s.phase == SessionModel.Connected
        || (s.phase == UserAuth
            && ((w.ps == [] && w.qs == [AskPassword(cfg.username, cfg.password)])
                || (w.ps == Verdict(cfg, true) && w.qs == []))))
  }

  /** Deliveries alone change none of this for the worse. */
  predicate OnCourse(cfg: Config, s: State, w: Account, t: State, w': Account) {
    (Quiet(s) ==> Quiet(t)) && (Hopeful(cfg, s, w) ==> Hopeful(cfg, t, w')) && (s.out.cs.Some? ==> t.out.cs.Some?)
  }

  ghost predicate InDialogue(c: Suite, cfg: Config, s: State, v: Server, w: Account)
    requires w.Conversing?
  {
    && Talking(c, cfg, s, w.ps, w.qs, w.g)
    && s.kex.sc.Some? && s.out.cs.Some?
    && Ran(v.lastExec, w.qs, w.g)
    && !v.phase.Trapped? && !v.phase.AwaitingIdent?
    && v.cs.Some? && v.out.cs.Some? && s.kex.sessionId == Some(v.sessionId)
    && 0 < w.heardC <= |v.out.sent| && 0 < w.heardS <= |s.out.sent|
    && Carries(s.kex.sc.value, v.out.sent[w.heardC..], Encodes(cfg, w.ps), v.out.cs.value)
    && Carries(v.cs.value, s.out.sent[w.heardS..], Puts(w.qs), s.out.cs.value)
    && s.kex.sc.value.seqNo == (w.heardC - 1) % U32_LIMIT
    && v.cs.value.seqNo == (w.heardS - 1) % U32_LIMIT
  }

  ghost predicate InStep(c: Suite, cfg: Config, x: Script, s: State, v: Server, w: Account) {
    match w
    case Greeting(heardC, heardS) =>
      && heardC <= 4 && heardS <= 5
      && ClientOn(c, x, s, heardC) && ServerOn(c, cfg, x, v, heardS)
      && heardC <= ServerSaid(heardS) && heardS <= ClientSaid(heardC, s.phase == ServiceRequest)
    case Conversing(_, _, _, _, _) => InDialogue(c, cfg, s, v, w)
  }

  /** Bytes of the server's first line that the client's scanner has already taken. */
  function Skip(s: State): nat { if s.phase == VersionExchange then s.ident.total else 0 }

  predicate HeardIn(s: State, v: Server, w: Account) { w.heardC <= |v.out.sent| && w.heardS <= |s.out.sent| }

  /** Buffered and in flight together are exactly what has been sent and not yet handled. */
  predicate PipesHold(c: Suite, net: Net, w: Account) {
    var s, v := net.client.core, net.server.core;
    && HeardIn(s, v, w)
    && Skip(s) <= |Render(c, v.out.sent[w.heardC..])|
    && net.client.incoming + net.toClient == Render(c, v.out.sent[w.heardC..])[Skip(s)..]
    && net.server.incoming + net.toServer == Render(c, s.out.sent[w.heardS..])
  }

  /** A buffer that holds less than the next item. */
  predicate LessThanNext(c: Suite, buf: Bytes, items: seq<Sent>) {
    buf == [] || (items != [] && |buf| < |WireOf(c, items[0])|)
  }

  predicate Drained(c: Suite, net: Net, w: Account) {
    var s, v := net.client.core, net.server.core;
    && HeardIn(s, v, w)
    && (Idle(s.phase) || (if s.phase == VersionExchange then net.client.incoming == []
                          else LessThanNext(c, net.client.incoming, v.out.sent[w.heardC..])))
    && LessThanNext(c, net.server.incoming, s.out.sent[w.heardS..])
  }

  ghost predicate Holds(c: Suite, cfg: Config, x: Script, net: Net, w: Account) {
    && InStep(c, cfg, x, net.client.core, net.server.core, w)
    && PipesHold(c, net, w)
    && Drained(c, net, w)
  }
}
