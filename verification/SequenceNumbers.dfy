/**
  Sequence numbers against packet counts, for any peer and any host.

  Section 6.4 of RFC 4253 counts every packet of a direction from the first, in the clear or not. The
  engine instead starts each new cipher at the constant 3. Both directions are counted here over whole
  runs, and the two agree exactly when the cipher replaced the third packet.
 */
module SequenceNumbers {
  import opened Prelude
  import opened Primitives
  import opened Packet
  import opened PacketStream
  import opened SessionModel
  import opened SessionTrace
  import Auth
  import Channel
  import Connection
  import Exchange
  import Ident
  import Kdf
  import KexInit
  import SessionRuns
  import SessionSafety
  import Wire

  // ---- counting packets ----------------------------------------------------------------------------

  predicate Is(payload: Bytes, msg: Byte) { |payload| > 0 && payload[0] == msg }

  function Count(ps: seq<Bytes>, msg: Byte): (n: nat)
    ensures n <= |ps|
  {
    if ps == [] then 0 else Count(ps[..|ps| - 1], msg) + if Is(ps[|ps| - 1], msg) then 1 else 0
  }

  /** The number of packets up to and including the last NEWKEYS; 0 if there is none. */
  function AtNewkeys(ps: seq<Bytes>): (n: nat)
    ensures n <= |ps|
    ensures n > 0 <==> exists i :: 0 <= i < |ps| && Is(ps[i], KexInit.MSG_NEWKEYS)
  {
    if ps == [] then 0
    else if Is(ps[|ps| - 1], KexInit.MSG_NEWKEYS) then |ps|
    else
      assert ps == ps[..|ps| - 1] + [ps[|ps| - 1]];
      AtNewkeys(ps[..|ps| - 1])
  }

  /** KEXINIT, one key-exchange message and NEWKEYS, and nothing else. */
  predicate OneExchange(ps: seq<Bytes>, middle: Byte) {
    |ps| == 3 && Is(ps[0], KexInit.MSG_KEXINIT) && Is(ps[1], middle) && Is(ps[2], KexInit.MSG_NEWKEYS)
  }

  lemma OneMore(ps: seq<Bytes>, p: Bytes)
    ensures forall msg :: Count(ps + [p], msg) == Count(ps, msg) + if Is(p, msg) then 1 else 0
    ensures AtNewkeys(ps + [p]) == if Is(p, KexInit.MSG_NEWKEYS) then |ps| + 1 else AtNewkeys(ps)
  {
    assert (ps + [p])[..|ps|] == ps;
  }

  lemma CountOne(ps: seq<Bytes>, msg: Byte)
    requires |ps| == 1
    ensures Count(ps, msg) == if Is(ps[0], msg) then 1 else 0
  {
    assert ps[..0] == [];
  }

  /** A direction's cipher came with its last NEWKEYS, as packet 3 at the earliest, and has counted from
      3 since then; if it came as packet 3, the packets before were one exchange. */
  predicate Numbered(k: Option<Cipher>, ps: seq<Bytes>, middle: Byte) {
    var n := AtNewkeys(ps);
    && (k.Some? <==> n > 0)
    && (k.Some? ==>
          && n >= 3
          && (n == 3 ==> OneExchange(ps[..n], middle))
          && k.value.seqNo == (3 + (|ps| - n)) % U32_LIMIT)
  }

  /** One more packet of another kind through a direction. */
  lemma NumberedMoves(k: Option<Cipher>, ps: seq<Bytes>, middle: Byte, p: Bytes)
    requires Numbered(k, ps, middle) && !Is(p, KexInit.MSG_NEWKEYS)
    ensures Numbered(AdvanceOpt(k), ps + [p], middle)
  {
    hide AtNewkeys, NextGcmNonce;
    OneMore(ps, p);
    var n := AtNewkeys(ps);
    assert (ps + [p])[..n] == ps[..n];
  }

  /** A new cipher, at the constant. */
  lemma NumberedRenewed(k: Cipher, ps: seq<Bytes>, middle: Byte, p: Bytes)
    requires Is(p, KexInit.MSG_NEWKEYS) && k.seqNo == 3
    requires |ps| >= 2 && (|ps| == 2 ==> Is(ps[0], KexInit.MSG_KEXINIT) && Is(ps[1], middle))
    ensures Numbered(Some(k), ps + [p], middle)
  {
    hide AtNewkeys;
    OneMore(ps, p);
    assert (ps + [p])[..|ps| + 1] == ps + [p];
  }

  lemma InStepMod(n: nat, total: nat)
    requires n <= total
    ensures (3 + (total - n)) % U32_LIMIT == total % U32_LIMIT <==> n % U32_LIMIT == 3
  {
    if (3 + (total - n)) % U32_LIMIT == total % U32_LIMIT {
      var d := total - (3 + (total - n));
      assert d == n - 3 && d % U32_LIMIT == 0;
    }
  }

  // ---- what is sent ----------------------------------------------------------------------------------

  lemma EmitAdds(c: Suite, o: Out, k: Option<Cipher>, payload: Bytes)
    ensures var o' := Emit(c, o, k, payload); Payloads(o'.sent) == Payloads(o.sent) + [payload] && o'.cs == o.cs
  {
    var item := Emit(c, o, k, payload).sent[|o.sent|];
    PayloadsAppend(o.sent, [item]);
    assert [item][1..] == [];
  }

  /** Before any cipher: our KEXINIT, and then one key-exchange message for each KEXINIT of the peer. */
  predicate Clear(ps: seq<Bytes>) {
    forall i :: 0 <= i < |ps| ==> Is(ps[i], if i == 0 then KexInit.MSG_KEXINIT else Exchange.MSG_KEX_INIT)
  }

  predicate SentOk(o: Out) {
    var ps := Payloads(o.sent);
    Numbered(o.cs, ps, Exchange.MSG_KEX_INIT) && (o.cs.None? ==> Clear(ps))
  }

  lemma {:induction false} ClearCounts(ps: seq<Bytes>)
    requires Clear(ps)
    ensures Count(ps, Exchange.MSG_KEX_INIT) == if ps == [] then 0 else |ps| - 1
    ensures AtNewkeys(ps) == 0
  {
    if ps != [] {
      ClearCounts(ps[..|ps| - 1]);
      assert Is(ps[|ps| - 1], if |ps| == 1 then KexInit.MSG_KEXINIT else Exchange.MSG_KEX_INIT);
    }
  }

  /** `t` has sent more than `s`, but nothing of the key exchange. */
  predicate Talked(o: Out, o': Out) {
    && SentOk(o')
    && (Payloads(o'.sent) == [] <==> Payloads(o.sent) == [])
    && Count(Payloads(o'.sent), Exchange.MSG_KEX_INIT) == Count(Payloads(o.sent), Exchange.MSG_KEX_INIT)
  }

  lemma SendCipheredTalks(c: Suite, o: Out, payload: Bytes)
    requires SentOk(o) && SendCiphered(c, o, payload).Some?
    requires !Is(payload, KexInit.MSG_NEWKEYS) && !Is(payload, Exchange.MSG_KEX_INIT)
    ensures Talked(o, SendCiphered(c, o, payload).value)
  {
    hide Numbered, Count, AtNewkeys, Emit, Is, Payloads, Clear, AdvanceOpt;
    var ps := Payloads(o.sent);
    CipherAfterPackets(o.cs, ps);
    EmitAdds(c, o, o.cs, payload);
    OneMore(ps, payload);
    NumberedMoves(o.cs, ps, Exchange.MSG_KEX_INIT, payload);
    AdvanceOptIs(o.cs);
  }

  lemma CipherAfterPackets(k: Option<Cipher>, ps: seq<Bytes>)
    requires Numbered(k, ps, Exchange.MSG_KEX_INIT)
    ensures k.Some? ==> ps != []
  {
  }

  lemma AdvanceOptIs(k: Option<Cipher>) ensures AdvanceOpt(k).Some? == k.Some? {}

  lemma {:induction false} SendEachTalks(c: Suite, o: Out, payloads: seq<Bytes>)
    requires SentOk(o) && SendEach(c, o, payloads).Some? && Connection.AllAboutChannels(payloads)
    ensures Talked(o, SendEach(c, o, payloads).value)
    decreases |payloads|
  {
    hide SentOk, SendCiphered, Payloads, Count;
    if payloads != [] {
      var o1 := SendCiphered(c, o, payloads[0]).value;
      assert Connection.AboutChannels(payloads[0]);
      SendCipheredTalks(c, o, payloads[0]);
      forall i | 0 <= i < |payloads[1..]| ensures Connection.AboutChannels(payloads[1..][i]) {
        assert payloads[1..][i] == payloads[i + 1];
      }
      SendEachTalks(c, o1, payloads[1..]);
    }
  }

  // ---- the account -------------------------------------------------------------------------------------

  /** A KEXINIT and then a reply have been heard. */
  predicate Replied(heard: seq<Bytes>) {
    Count(heard, KexInit.MSG_KEXINIT) >= 1
    && |heard| >= 2 && (|heard| == 2 ==> Is(heard[0], KexInit.MSG_KEXINIT) && Is(heard[1], Exchange.MSG_KEX_REPLY))
  }

  predicate AtConstant(k: Cipher) { k.seqNo == PLAINTEXT_PACKETS_BEFORE_NEWKEYS }

  /** The key exchange against what has been heard. */
  predicate KexOk(kex: Kex, heard: seq<Bytes>) {
    && (kex.active.Some? ==> Count(heard, KexInit.MSG_KEXINIT) >= 1)
    && (kex.pendingCiphers.Some? || kex.pendingSc.Some? ==> Replied(heard))
    && (kex.pendingCiphers.Some? ==> AtConstant(kex.pendingCiphers.value.cs) && AtConstant(kex.pendingCiphers.value.sc))
    && (kex.pendingSc.Some? ==> AtConstant(kex.pendingSc.value))
  }

  /** What holds of every open session that has heard `heard`. */
  predicate Counted(s: State, heard: seq<Bytes>) {
    && SentOk(s.out)
    && KexOk(s.kex, heard)
    && Numbered(s.kex.sc, heard, Exchange.MSG_KEX_REPLY)
    && Count(Payloads(s.out.sent), Exchange.MSG_KEX_INIT) == Count(heard, KexInit.MSG_KEXINIT)
    && (s.phase == VersionExchange <==> Payloads(s.out.sent) == [])
  }

  predicate CountedUnlessOver(s: State, heard: seq<Bytes>) { Over(s.phase) || Counted(s, heard) }

  /** The account in the middle of a packet: it has been opened, and is about to be dispatched. */
  predicate Opened(s: State, heard: seq<Bytes>, p: Bytes) {
    && p != [] && s.phase != VersionExchange && !Idle(s.phase)
    && SentOk(s.out)
    && KexOk(s.kex, heard)
    && (!Is(p, KexInit.MSG_NEWKEYS) ==> Numbered(s.kex.sc, heard + [p], Exchange.MSG_KEX_REPLY))
    && Count(Payloads(s.out.sent), Exchange.MSG_KEX_INIT) == Count(heard, KexInit.MSG_KEXINIT)
    && Payloads(s.out.sent) != []
  }

  lemma KexMoves(kex: Kex, heard: seq<Bytes>, p: Bytes)
    requires KexOk(kex, heard)
    ensures KexOk(kex, heard + [p])
  {
    OneMore(heard, p);
  }

  /** A handler that leaves the key exchange alone. */
  lemma TalkCounts(s: State, t: State, heard: seq<Bytes>, p: Bytes)
    requires Opened(s, heard, p) && !Is(p, KexInit.MSG_NEWKEYS) && !Is(p, KexInit.MSG_KEXINIT)
    requires t.kex == s.kex && t.phase != VersionExchange && Talked(s.out, t.out)
    ensures Counted(t, heard + [p])
  {
    hide KexOk, SentOk, Numbered, Count, Payloads, Is, AtNewkeys;
    KexMoves(s.kex, heard, p);
    OneMore(heard, p);
  }

  lemma SilenceTalks(o: Out)
    requires SentOk(o)
    ensures Talked(o, o)
  {
  }

  lemma KexinitCounts(c: Suite, s: State, p: Bytes, heard: seq<Bytes>)
    requires Opened(s, heard, p) && Is(p, KexInit.MSG_KEXINIT) && HandlePeerKexinit(c, s, p).Fine?
    ensures Counted(HandlePeerKexinit(c, s, p).s, heard + [p])
  {
    hide Opened, Counted, KexInit.Parse, KexInit.NegotiateAll, SendKexInit;
    var s1 := s.(kex := s.kex.(peerPayload := p));
    var n := KexInit.NegotiateAll(KexInit.Parse(s.kex.ownPayload).value, KexInit.Parse(p).value).value;
    if n.kex == KexInit.CURVE25519 {
      var secret := Draw(c, s.out.drawn, 32);
      InitCounts(c, s, n, Curve25519(secret), 32, Exchange.CurveInit(c.x25519Public(secret)), p, heard);
    } else {
      var secret := Draw(c, s.out.drawn, 256);
      InitCounts(c, s, n, Group14(secret), 256, Exchange.Group14Init(c.group14Public(secret)), p, heard);
    }
  }

  lemma InitCounts(c: Suite, s: State, n: KexInit.Negotiated, active: ActiveKex, drawn: nat, msg: Bytes, p: Bytes, heard: seq<Bytes>)
    requires Opened(s, heard, p) && Is(p, KexInit.MSG_KEXINIT) && Is(msg, Exchange.MSG_KEX_INIT)
    ensures Counted(SendKexInit(c, s.(kex := s.kex.(peerPayload := p)), n, active, drawn, msg), heard + [p])
  {
    hide Numbered, Count, Payloads, AtNewkeys, Emit, AdvanceOpt;
    var o := s.out.(drawn := s.out.drawn + drawn);
    var ps := Payloads(s.out.sent);
    EmitAdds(c, o, o.cs, msg);
    OneMore(ps, msg);
    OneMore(heard, p);
    NumberedMoves(o.cs, ps, Exchange.MSG_KEX_INIT, msg);
    AdvanceOptIs(o.cs);
  }

  lemma ReplyCounts(c: Suite, s: State, p: Bytes, heard: seq<Bytes>)
    requires Opened(s, heard, p) && Is(p, Exchange.MSG_KEX_REPLY) && HandleKexReply(c, s, p).Fine?
    ensures Counted(HandleKexReply(c, s, p).s, heard + [p])
  {
    hide Opened, Counted, OnKexResult, Exchange.ParseReply, Exchange.ParseCurveReply, VerifyReply, Exchange.CurveHash,
         Exchange.Group14Hash, TranscriptOf;
    var s1 := s.(kex := s.kex.(active := None));
    forall hostKey, h, shared | OnKexResult(c, s1, hostKey, h, shared).Fine?
      ensures s.kex.active.Some? ==> Counted(OnKexResult(c, s1, hostKey, h, shared).s, heard + [p])
    {
      if s.kex.active.Some? { ResultCounts(c, s, hostKey, h, shared, p, heard); }
    }
  }

  lemma ResultCounts(c: Suite, s: State, hostKey: Bytes, h: Bytes, shared: Bytes, p: Bytes, heard: seq<Bytes>)
    requires Opened(s, heard, p) && Is(p, Exchange.MSG_KEX_REPLY) && s.kex.active.Some?
    requires OnKexResult(c, s.(kex := s.kex.(active := None)), hostKey, h, shared).Fine?
    ensures Counted(OnKexResult(c, s.(kex := s.kex.(active := None)), hostKey, h, shared).s, heard + [p])
  {
    hide Numbered, Count, Payloads, AtNewkeys, FromName, Kdf.Derive, Kdf.Mpint, SentOk;
    OneMore(heard, p);
    if |heard| == 1 { CountOne(heard, KexInit.MSG_KEXINIT); }
  }

  lemma NewkeysCounts(s: State, p: Bytes, heard: seq<Bytes>)
    requires Opened(s, heard, p) && Is(p, KexInit.MSG_NEWKEYS) && HandleNewkeys(s).Fine?
    ensures Counted(HandleNewkeys(s).s, heard + [p])
  {
    hide Numbered, Count, Payloads, AtNewkeys, SentOk;
    OneMore(heard, p);
    NumberedRenewed(s.kex.pendingSc.value, heard, Exchange.MSG_KEX_REPLY, p);
  }

  lemma PkOkCounts(c: Suite, s: State, p: Bytes, heard: seq<Bytes>)
    requires Opened(s, heard, p) && Is(p, Auth.MSG_USERAUTH_PK_OK) && HandlePkOk(c, s, p).Fine?
    ensures Counted(HandlePkOk(c, s, p).s, heard + [p])
  {
    hide Opened, Counted, SentOk, Talked, Auth.ParsePkOk, Auth.SignedData, SendCiphered, Wire.Str, Auth.ServiceConnection,
         Auth.MethodPublickey;
    var q := s.pendingAuth.value;
    var signature := c.sign(q.key, Auth.SignedData(s.kex.sessionId.value, q.user, q.algorithm, q.blob)).value;
    OpenedSent(s, heard, p);
    SendCipheredTalks(c, s.out, Auth.SignedRequest(q.user, q.algorithm, q.blob, signature));
    TalkCounts(s, HandlePkOk(c, s, p).s, heard, p);
  }

  lemma OpenedSent(s: State, heard: seq<Bytes>, p: Bytes)
    requires Opened(s, heard, p)
    ensures SentOk(s.out) && s.phase != VersionExchange && |p| > 0
  {
  }

  lemma GlobalRequestCounts(c: Suite, s: State, p: Bytes, heard: seq<Bytes>)
    requires Opened(s, heard, p) && Is(p, MSG_GLOBAL_REQUEST) && HandleGlobalRequest(c, s, p).Fine?
    ensures Counted(HandleGlobalRequest(c, s, p).s, heard + [p])
  {
    hide Opened, Counted, SentOk, Talked, ParseGlobalRequest, SendCiphered;
    OpenedSent(s, heard, p);
    SilenceTalks(s.out);
    if SendCiphered(c, s.out, [MSG_REQUEST_FAILURE]).Some? { SendCipheredTalks(c, s.out, [MSG_REQUEST_FAILURE]); }
    TalkCounts(s, HandleGlobalRequest(c, s, p).s, heard, p);
  }

  lemma ChannelCounts(c: Suite, s: State, p: Bytes, heard: seq<Bytes>)
    requires Opened(s, heard, p) && Connection.IsChannelMessage(p[0])
    requires React(c, s, Connection.OnMessage(s.conn, p[0], p[1..])).Fine?
    ensures Counted(React(c, s, Connection.OnMessage(s.conn, p[0], p[1..])).s, heard + [p])
  {
    hide Opened, Counted, SentOk, Talked, Connection.OnMessage, SendEach;
    OpenedSent(s, heard, p);
    var r := Connection.OnMessage(s.conn, p[0], p[1..]);
    Connection.MessageSends(s.conn, p[0], p[1..]);
    SendEachTalks(c, s.out, r.sends);
    TalkCounts(s, React(c, s, r).s, heard, p);
  }

  /** Handlers that send nothing and leave the key exchange alone. */
  lemma QuietCounts(c: Suite, s: State, p: Bytes, heard: seq<Bytes>)
    requires Opened(s, heard, p)
    ensures HandleServiceAccept(s, p).Fine? && Is(p, Auth.MSG_SERVICE_ACCEPT) ==> Counted(HandleServiceAccept(s, p).s, heard + [p])
    ensures HandleUserauthFailure(s, p).Fine? && Is(p, Auth.MSG_USERAUTH_FAILURE) ==>
              Counted(HandleUserauthFailure(s, p).s, heard + [p])
    ensures Is(p, Auth.MSG_USERAUTH_SUCCESS) ==> Counted(HandleUserauthSuccess(s).s, heard + [p])
    ensures 2 <= p[0] <= 4 ==> Counted(s, heard + [p])
  {
    hide Opened, Counted, SentOk, Talked, Auth.ParseServiceAccept, Auth.ServiceUserauth, Auth.ParseFailure;
    OpenedSent(s, heard, p);
    SilenceTalks(s.out);
    if p[0] != KexInit.MSG_KEXINIT && p[0] != KexInit.MSG_NEWKEYS {
      TalkCounts(s, s, heard, p);
      if HandleServiceAccept(s, p).Fine? { TalkCounts(s, HandleServiceAccept(s, p).s, heard, p); }
      if HandleUserauthFailure(s, p).Fine? { TalkCounts(s, HandleUserauthFailure(s, p).s, heard, p); }
      TalkCounts(s, HandleUserauthSuccess(s).s, heard, p);
    }
  }

  lemma DisconnectIsOver(s: State, p: Bytes)
    requires |p| > 0
    ensures HandleDisconnect(s, p).Fine? ==> Over(HandleDisconnect(s, p).s.phase)
  {
    hide ParseDisconnect;
  }

  lemma DispatchCounts(c: Suite, s: State, p: Bytes, heard: seq<Bytes>)
    requires Opened(s, heard, p)
    ensures CountedUnlessOver(Settle(s, Dispatch(c, s, p)), heard + [p])
  {
    hide Opened, Counted, HandleDisconnect, HandlePeerKexinit, HandleKexReply, HandleNewkeys, HandleServiceAccept,
         HandleUserauthFailure, HandleUserauthSuccess, HandlePkOk, HandleGlobalRequest, React, Connection.OnMessage;
    OpenedSent(s, heard, p);
    if Dispatch(c, s, p).Fine? {
      var msg := p[0];
      if msg == 1 { DisconnectIsOver(s, p); }
      else if msg == KexInit.MSG_KEXINIT { KexinitCounts(c, s, p, heard); }
      else if msg == Exchange.MSG_KEX_REPLY { ReplyCounts(c, s, p, heard); }
      else if msg == KexInit.MSG_NEWKEYS { NewkeysCounts(s, p, heard); }
      else if msg == Auth.MSG_USERAUTH_PK_OK { PkOkCounts(c, s, p, heard); }
      else if Connection.IsChannelMessage(msg) { ChannelCounts(c, s, p, heard); }
      else if msg == MSG_GLOBAL_REQUEST { GlobalRequestCounts(c, s, p, heard); }
      else { QuietCounts(c, s, p, heard); }
    }
  }

  // ---- turns -------------------------------------------------------------------------------------------

  lemma OpenAdvances(c: Suite, k: Option<Cipher>, buf: Bytes)
    ensures NextFrame(c, k, buf).Got? ==> NextFrame(c, k, buf).k == AdvanceOpt(k)
  {
    hide ClearLength, BodyKey, BodyNonce, Advance, PeekTotal;
  }

  lemma PacketTurnCounts(c: Suite, s: State, buf: Bytes, heard: seq<Bytes>)
    requires Counted(s, heard) && !Idle(s.phase) && s.phase != VersionExchange && PacketTurn(c, s, buf).Some?
    ensures CountedUnlessOver(PacketTurn(c, s, buf).value.1, heard + TurnHears(c, s, buf))
  {
    hide NextFrame, Dispatch, SentOk, KexOk, Numbered, Count, Payloads, AtNewkeys;
    OpenAdvances(c, s.kex.sc, buf);
    match NextFrame(c, s.kex.sc, buf)
    case Got(_, k, p) =>
      if p != [] {
        var s1 := WithSc(s, k);
        if !Is(p, KexInit.MSG_NEWKEYS) { NumberedMoves(s.kex.sc, heard, Exchange.MSG_KEX_REPLY, p); }
        KexIgnoresSc(s.kex, k, heard);
        DispatchCounts(c, s1, p, heard);
      }
    case _ =>
  }

  lemma KexIgnoresSc(kex: Kex, k: Option<Cipher>, heard: seq<Bytes>)
    requires KexOk(kex, heard)
    ensures KexOk(kex.(sc := k), heard)
  {
  }

  lemma IdentTurnCounts(c: Suite, s: State, buf: Bytes, heard: seq<Bytes>)
    requires Counted(s, heard) && s.phase == VersionExchange && IdentTurn(c, s, buf).Some?
    ensures CountedUnlessOver(IdentTurn(c, s, buf).value.1, heard)
  {
    hide Ident.Scan, SentOk, KexOk, Numbered, Count, Payloads, AtNewkeys, BeginKex;
    match Ident.Scan(s.ident, buf)
    case More(_) =>
    case Done(_, i) => BeginKexCounts(c, s.(ident := i), heard);
    case Bad(_) =>
  }

  lemma BeginKexCounts(c: Suite, s: State, heard: seq<Bytes>)
    requires Counted(s, heard) && s.phase == VersionExchange
    ensures Counted(BeginKex(c, s), heard)
  {
    hide Count, Payloads, AtNewkeys, KexInit.Payload, KexInit.Ours, Emit;
    var cookie: Bytes16 := Draw(c, s.out.drawn, 16);
    var payload := KexInit.Payload(KexInit.Ours(cookie));
    KexInit.OurPayloadSize(cookie);
    EmitAdds(c, s.out.(drawn := s.out.drawn + 16), None, payload);
    OneMore([], payload);
    assert [] + [payload] == [payload];
  }

  lemma TurnCounts(c: Suite, s: State, buf: Bytes, heard: seq<Bytes>)
    requires Counted(s, heard) && !Idle(s.phase) && Turn(c, s, buf).Some?
    ensures CountedUnlessOver(Turn(c, s, buf).value.1, heard + TurnHears(c, s, buf))
  {
    hide Counted, IdentTurn, PacketTurn;
    if s.phase == VersionExchange {
      IdentTurnCounts(c, s, buf, heard);
      assert heard + [] == heard;
    } else {
      PacketTurnCounts(c, s, buf, heard);
    }
  }

  lemma {:induction false} DriveCounts(c: Suite, s: State, buf: Bytes, heard: seq<Bytes>)
    requires CountedUnlessOver(s, heard)
    ensures CountedUnlessOver(Drive(c, s, buf).core, heard + DriveHears(c, s, buf))
    decreases |buf|, if Over(s.phase) then 0 else 1
  {
    hide Counted, Turn, TurnHears;
    if Idle(s.phase) || Turn(c, s, buf).None? {
      assert heard + [] == heard;
    } else {
      var (n, s') := Turn(c, s, buf).value;
      var now := heard + TurnHears(c, s, buf);
      TurnCounts(c, s, buf, heard);
      DriveCounts(c, s', buf[n..], now);
      assert now + DriveHears(c, s', buf[n..]) == heard + (TurnHears(c, s, buf) + DriveHears(c, s', buf[n..]));
    }
  }

  // ---- calls -------------------------------------------------------------------------------------------

  /** Accepting: NEWKEYS goes out in the clear, and the new cipher starts at 3. */
  lemma AcceptedCounts(c: Suite, s: State, heard: seq<Bytes>)
    requires Counted(s, heard) && s.phase == AwaitingHostKeyDecision && s.kex.pendingCiphers.Some?
    ensures CountedUnlessOver(Accepted(c, s), heard)
  {
    hide Count, Payloads, AtNewkeys, Emit, Numbered, Advance, Auth.ServiceUserauth;
    var ps, newkeys := Payloads(s.out.sent), [KexInit.MSG_NEWKEYS];
    var pair := s.kex.pendingCiphers.value;
    EmitAdds(c, s.out, None, newkeys);
    OneMore(ps, newkeys);
    AcceptedAfterTwo(s, heard);
    NumberedRenewed(pair.cs, ps, Exchange.MSG_KEX_INIT, newkeys);
    var out := SendPlain(c, s.out, newkeys).(cs := Some(pair.cs));
    SendCipheredTalks(c, out, Auth.ServiceRequest(Auth.ServiceUserauth()));
  }

  lemma AcceptedAfterTwo(s: State, heard: seq<Bytes>)
    requires Counted(s, heard) && s.phase == AwaitingHostKeyDecision && s.kex.pendingCiphers.Some?
    ensures var ps := Payloads(s.out.sent);
            && |ps| >= 2
            && (|ps| == 2 ==> Is(ps[0], KexInit.MSG_KEXINIT) && Is(ps[1], Exchange.MSG_KEX_INIT))
            && (s.out.cs.None? ==> |ps| == 1 + Count(heard, KexInit.MSG_KEXINIT))
  {
    hide Count, Payloads, AtNewkeys;
    var ps := Payloads(s.out.sent);
    if s.out.cs.None? { ClearCounts(ps); }
  }

  lemma SendOrHaltCounts(c: Suite, s: State, t: State, payload: Bytes, heard: seq<Bytes>)
    requires Counted(s, heard) && t.kex == s.kex && t.phase == s.phase && t.out == s.out
    requires !Is(payload, KexInit.MSG_NEWKEYS) && !Is(payload, Exchange.MSG_KEX_INIT)
    ensures CountedUnlessOver(SendOrHalt(c, s, t, payload), heard)
  {
    hide SentOk, Payloads, Count, KexOk, Numbered, SendCiphered;
    if SendCiphered(c, s.out, payload).Some? { SendCipheredTalks(c, s.out, payload); }
  }

  lemma ReactCounts(c: Suite, s: State, r: Connection.Reaction, heard: seq<Bytes>)
    requires Counted(s, heard) && Connection.SendsAboutChannels(r)
    ensures CountedUnlessOver(Settle(s, React(c, s, r)), heard)
  {
    hide SentOk, Payloads, Count, KexOk, Numbered, SendEach;
    if r.Reacted? && SendEach(c, s.out, r.sends).Some? { SendEachTalks(c, s.out, r.sends); }
  }

  lemma HostCallCounts(c: Suite, s: State, i: Input, heard: seq<Bytes>)
    requires Counted(s, heard) && !i.FeedIncoming? && !i.ProvideHostKeyDecision?
    ensures CountedUnlessOver(HostCall(c, s, i), heard)
  {
    hide Counted, SendOrHalt, React, Wire.Str, Auth.ServiceConnection, Auth.MethodPassword, Auth.MethodPublickey,
         Connection.OpenExec, Connection.OpenShell, Connection.ChannelSend, Connection.ResizePty, Connection.CloseChannel,
         Channel.SessionName;
    match i
    case NotifyTransportClosed =>
    case Password(user, password) =>
      SendOrHaltCounts(c, s, s.(username := Some(user), pendingAuth := Some(PasswordSent)),
                       Auth.PasswordRequest(user, password), heard);
    case PublicKey(user, key) =>
      UsernameCounts(s, Some(user), heard);
      if c.userAlgorithm(key).Some? {
        var algorithm, blob := c.userAlgorithm(key).value, c.publicBlob(key);
        SendOrHaltCounts(c, s, s.(username := Some(user), pendingAuth := Some(PublicKeyQuery(user, algorithm, blob, key))),
                         Auth.KeyQuery(user, algorithm, blob), heard);
      }
    case Exec(command) =>
      SendOrHaltCounts(c, s, s.(conn := Connection.OpenExec(s.conn, command)), Channel.OpenMessage(s.conn.nextId), heard);
    case Shell(pty) =>
      SendOrHaltCounts(c, s, s.(conn := Connection.OpenShell(s.conn, pty)), Channel.OpenMessage(s.conn.nextId), heard);
    case SendData(id, data) =>
      Connection.CallSends(s.conn, id, data, 0, 0);
      ReactCounts(c, s, Connection.ChannelSend(s.conn, id, data), heard);
    case Resize(id, cols, rows) =>
      Connection.CallSends(s.conn, id, [], cols, rows);
      ReactCounts(c, s, Connection.ResizePty(s.conn, id, cols, rows), heard);
    case CloseChannel(id) =>
      Connection.CallSends(s.conn, id, [], 0, 0);
      ReactCounts(c, s, Connection.CloseChannel(s.conn, id), heard);
  }

  lemma UsernameCounts(s: State, user: Option<Bytes>, heard: seq<Bytes>)
    requires Counted(s, heard)
    ensures Counted(s.(username := user), heard)
  {
  }

  lemma OverStays(c: Suite, x: Session, i: Input)
    requires Over(x.core.phase)
    ensures Over(Do(c, x, i).core.phase)
  {
    hide Connection.OpenExec, Connection.OpenShell, Connection.ChannelSend, Connection.ResizePty, Connection.CloseChannel,
         SendEach, SendCiphered, Channel.OpenMessage;
  }

  lemma DoCounts(c: Suite, x: Session, i: Input, heard: seq<Bytes>)
    requires SessionSafety.Always(x.core) && CountedUnlessOver(x.core, heard)
    ensures CountedUnlessOver(Do(c, x, i).core, heard + DoHears(c, x, i))
  {
    hide Counted, Drive, DriveHears, HostCall, Accepted, Over;
    assert heard + [] == heard;
    if Over(x.core.phase) {
      OverStays(c, x, i);
    } else {
      match i
      case FeedIncoming(b) => DriveCounts(c, x.core, x.incoming + b, heard);
      case ProvideHostKeyDecision(accept) =>
        FailIsOver(x.core);
        if x.core.phase == AwaitingHostKeyDecision && accept {
          PendingIsThere(x.core);
          AcceptedCounts(c, x.core, heard);
          DriveCounts(c, Accepted(c, x.core), x.incoming, heard);
        }
      case _ => HostCallCounts(c, x.core, i, heard);
    }
  }

  lemma FailIsOver(s: State) ensures Over(Fail(s, HostKeyRejected).phase) {}

  lemma PendingIsThere(s: State)
    requires SessionSafety.Always(s) && s.phase == AwaitingHostKeyDecision
    ensures s.kex.pendingCiphers.Some?
  {
  }

  // ---- runs --------------------------------------------------------------------------------------------

  lemma {:induction false} RunCounts(c: Suite, x: Session, inputs: seq<Input>, heard: seq<Bytes>)
    requires LawfulAead(c) && SessionSafety.Always(x.core) && CountedUnlessOver(x.core, heard)
    ensures CountedUnlessOver(Run(c, x, inputs).core, heard + RunHears(c, x, inputs))
    decreases |inputs|
  {
    hide CountedUnlessOver, SessionSafety.Always, SessionSafety.Gated, SessionSafety.Grows, Do, DoHears, LawfulAead;
    if inputs == [] {
      assert heard + [] == heard;
    } else {
      var y, now := Do(c, x, inputs[0]), heard + DoHears(c, x, inputs[0]);
      SessionRuns.DoKeeps(c, x, inputs[0]);
      DoCounts(c, x, inputs[0], heard);
      RunCounts(c, y, inputs[1..], now);
      assert now + RunHears(c, y, inputs[1..]) == heard + (DoHears(c, x, inputs[0]) + RunHears(c, y, inputs[1..]));
    }
  }

  lemma StartCounts()
    ensures Counted(START.core, [])
  {
    assert START.core.out.sent[1..] == [];
  }

  lemma RunIsCounted(c: Suite, inputs: seq<Input>)
    requires LawfulAead(c)
    ensures CountedUnlessOver(Run(c, START, inputs).core, RunHears(c, START, inputs))
  {
    hide Counted, SessionSafety.Always, SessionSafety.Gated, Run, RunHears;
    StartCounts();
    SessionRuns.StartIsAlways();
    RunCounts(c, START, inputs, []);
    assert [] + RunHears(c, START, inputs) == RunHears(c, START, inputs);
  }

  /** One direction of an open session: it is under a cipher exactly once its NEWKEYS has passed; the
      cipher's number is the number of packets passed, mod 2^32, exactly when that NEWKEYS was packet 3
      mod 2^32; and it was packet 3 exactly when what passed until then was KEXINIT, one key-exchange
      message and NEWKEYS. */
  predicate InStepExactly(k: Option<Cipher>, ps: seq<Bytes>, middle: Byte) {
    var n := AtNewkeys(ps);
    && (k.Some? <==> n > 0)
    && (k.Some? ==>
          && (k.value.seqNo == |ps| % U32_LIMIT <==> n % U32_LIMIT == 3)
          && (n == 3 <==> OneExchange(ps[..n], middle)))
  }

  lemma NumberedInStep(k: Option<Cipher>, ps: seq<Bytes>, middle: Byte)
    requires Numbered(k, ps, middle)
    ensures InStepExactly(k, ps, middle)
  {
    InStepMod(AtNewkeys(ps), |ps|);
  }

  /** Any peer, any host: in every open session both directions are in step with their packet counts
      exactly when their last NEWKEYS ended a key exchange of three packets, the first of the connection
      (or 2^32 packets further on). We send one key-exchange message for every KEXINIT of the peer. */
  lemma SequenceNumbers(c: Suite, inputs: seq<Input>)
    requires LawfulAead(c) && !Over(Run(c, START, inputs).core.phase)
    ensures var s, heard := Run(c, START, inputs).core, RunHears(c, START, inputs);
            && InStepExactly(s.kex.sc, heard, Exchange.MSG_KEX_REPLY)
            && InStepExactly(s.out.cs, Payloads(s.out.sent), Exchange.MSG_KEX_INIT)
            && Count(Payloads(s.out.sent), Exchange.MSG_KEX_INIT) == Count(heard, KexInit.MSG_KEXINIT)
  {
    hide Numbered, Run, RunHears, Count, Payloads, InStepExactly, KexOk;
    RunIsCounted(c, inputs);
    var s, heard := Run(c, START, inputs).core, RunHears(c, START, inputs);
    NumberedInStep(s.kex.sc, heard, Exchange.MSG_KEX_REPLY);
    NumberedInStep(s.out.cs, Payloads(s.out.sent), Exchange.MSG_KEX_INIT);
  }

  /** At the first acceptance the sending direction is in step exactly when one KEXINIT of the peer has
      been handled (mod 2^32). */
  lemma FirstAcceptance(c: Suite, inputs: seq<Input>)
    requires LawfulAead(c)
    requires var s := Run(c, START, inputs).core; s.phase == AwaitingHostKeyDecision && s.out.cs.None?
    ensures var t := Accepted(c, Run(c, START, inputs).core);
            && t.out.cs.Some?
            && (t.out.cs.value.seqNo == |Payloads(t.out.sent)| % U32_LIMIT
                <==> Count(RunHears(c, START, inputs), KexInit.MSG_KEXINIT) % U32_LIMIT == 1)
  {
    hide Run, RunHears, SessionSafety.Gated, Accepted, Counted, Count, Payloads;
    SessionRuns.ReachableStates(c, inputs);
    PendingIsThere(Run(c, START, inputs).core);
    RunIsCounted(c, inputs);
    AcceptingInStep(c, Run(c, START, inputs).core, RunHears(c, START, inputs));
  }

  lemma AcceptingInStep(c: Suite, s: State, heard: seq<Bytes>)
    requires Counted(s, heard) && s.phase == AwaitingHostKeyDecision && s.kex.pendingCiphers.Some? && s.out.cs.None?
    ensures var t := Accepted(c, s);
            && t.out.cs.Some?
            && (t.out.cs.value.seqNo == |Payloads(t.out.sent)| % U32_LIMIT <==> Count(heard, KexInit.MSG_KEXINIT) % U32_LIMIT == 1)
  {
    hide Count, Payloads, Accepted, Counted;
    AcceptedAfterTwo(s, heard);
    PendingAtConstant(s, heard);
    AcceptedSends(c, s);
    InStepMod(Count(heard, KexInit.MSG_KEXINIT) + 2, Count(heard, KexInit.MSG_KEXINIT) + 3);
  }

  lemma PendingAtConstant(s: State, heard: seq<Bytes>)
    requires Counted(s, heard) && s.kex.pendingCiphers.Some?
    ensures AtConstant(s.kex.pendingCiphers.value.cs)
  {
  }

  /** Accepting sends two packets, and the second is the new cipher's first. */
  lemma AcceptedSends(c: Suite, s: State)
    requires s.kex.pendingCiphers.Some? && AtConstant(s.kex.pendingCiphers.value.cs)
    ensures var t := Accepted(c, s);
            t.out.cs.Some? && t.out.cs.value.seqNo == 4 && |Payloads(t.out.sent)| == |Payloads(s.out.sent)| + 2
  {
    hide Payloads, Emit, NextGcmNonce, Auth.ServiceUserauth, Auth.ServiceRequest;
    var newkeys, request := [KexInit.MSG_NEWKEYS], Auth.ServiceRequest(Auth.ServiceUserauth());
    EmitAdds(c, s.out, None, newkeys);
    var out := SendPlain(c, s.out, newkeys).(cs := Some(s.kex.pendingCiphers.value.cs));
    EmitAdds(c, out, out.cs, request);
  }

  /** `dispatch` does not consult the phase, so USERAUTH_SUCCESS connects a session at any time. A
      connected session is under ciphers in both directions exactly when the peer's NEWKEYS has been
      heard. */
  lemma ConnectedIsCiphered(c: Suite, inputs: seq<Input>)
    requires LawfulAead(c) && Run(c, START, inputs).core.phase == Connected
    ensures var s := Run(c, START, inputs).core;
            s.out.cs.Some? && s.kex.sc.Some?
            <==> exists i :: 0 <= i < |RunHears(c, START, inputs)| && Is(RunHears(c, START, inputs)[i], KexInit.MSG_NEWKEYS)
  {
    hide Run, RunHears, SessionSafety.Gated;
    SequenceNumbers(c, inputs);
    SessionRuns.ReachableStates(c, inputs);
    assert AtNewkeys(RunHears(c, START, inputs)) > 0 <==> Run(c, START, inputs).core.kex.sc.Some?;
  }
}
