/**
  What stands behind the host key that the host is shown, and behind the ciphers it then lets in, for any
  peer and any host: an exchange whose hash covers this session's own view of everything said so far, signed
  with that key.
 */
module HostKeyProof {
  import opened Prelude
  import opened Primitives
  import opened Packet
  import opened PacketStream
  import opened Events
  import opened SessionModel
  import opened Exchange
  import Auth
  import Channel
  import Connection
  import Ident
  import KexInit
  import Negotiation
  import SequenceNumbers
  import SessionRuns
  import SessionSafety

  // ---- an exchange that was completed --------------------------------------------------------------------

  /** A completed key exchange: what was hashed, the hash H, the shared secret K, the signature over H, and the
      cipher and session id that keys were derived for. */
  datatype Agreed = Agreed(t: Transcript, hash: Bytes, shared: Bytes, signature: Bytes, alg: Alg, sid: Bytes)

  ghost predicate Drawn(c: Suite, secret: Bytes, n: nat) { exists at: nat :: secret == Draw(c, at, n) }

  ghost predicate ByCurve(c: Suite, a: Agreed, secret: Bytes, q: Bytes32, k: Bytes32) {
    && Drawn(c, secret, 32) && c.x25519Shared(secret, q) == Some(k) && a.shared == k
    && a.hash == CurveHash(c, a.t, c.x25519Public(secret), q, k)
  }

  ghost predicate ByGroup14(c: Suite, a: Agreed, secret: Bytes, f: Bytes, k: Bytes256) {
    && Drawn(c, secret, 256) && c.group14Shared(secret, f) == Ok(k) && a.shared == k
    && a.hash == Group14Hash(c, a.t, c.group14Public(secret), f, k)
  }

  /** K and H come from one exchange with a secret of our own, and the key verified the signature over H. */
  ghost predicate Vouched(c: Suite, a: Agreed) {
    && c.keyParses(a.t.kS) && c.signatureParses(a.signature) && c.verifies(a.t.kS, a.hash, a.signature)
    && (|| (exists secret: Bytes, q: Bytes32, k: Bytes32 :: ByCurve(c, a, secret, q, k))
        || (exists secret: Bytes, f: Bytes, k: Bytes256 :: ByGroup14(c, a, secret, f, k)))
  }

  /** Both identification lines and our own KEXINIT are this session's, and the host was shown the key. */
  predicate OfSession(c: Suite, s: State, a: Agreed) {
    && a.t.vC == Ident.CLIENT_IDENT && a.t.vS == s.peerIdent && a.t.iC == s.kex.ownPayload
    && HostKeyVerify(c.keyName(a.t.kS), c.fingerprint(a.t.kS), a.t.kS) in s.events
  }

  ghost predicate Agreement(c: Suite, s: State, a: Agreed) { Vouched(c, a) && OfSession(c, s, a) }

  function PairOf(c: Suite, a: Agreed): CipherPair { DerivePair(c, a.alg, a.shared, a.hash, a.sid) }

  // ---- what holds of a session -----------------------------------------------------------------------------

  /** The question before the host is about the key of a completed exchange over this session's transcript,
      the peer's KEXINIT included, and the waiting ciphers are those of that exchange. */
  ghost predicate Question(c: Suite, s: State, a: Agreed) {
    && Agreement(c, s, a) && a.t.iS == s.kex.peerPayload
    && s.kex.pendingHostKey == Some(a.t.kS)
    && s.kex.pendingCiphers == Some(PairOf(c, a))
    && s.kex.sessionId == Some(a.sid)
    && s.kex.negotiated.Some? && FromName(s.kex.negotiated.value.encryptionCs) == Some(a.alg)
  }

  /** The sending cipher is that of an exchange, `n` packets on; a receiving one that waits is its other half. */
  ghost predicate SendsUnder(c: Suite, s: State, a: Agreed, n: nat) {
    && Agreement(c, s, a) && s.out.cs == Some(AdvanceBy(PairOf(c, a).cs, n))
    && (s.kex.pendingSc.Some? ==> s.kex.pendingSc == Some(PairOf(c, a).sc))
  }

  ghost predicate ReceivesUnder(c: Suite, s: State, a: Agreed, n: nat) {
    Agreement(c, s, a) && s.kex.sc == Some(AdvanceBy(PairOf(c, a).sc, n))
  }

  /** The session id is the hash of a completed exchange, the first. */
  ghost predicate Named(c: Suite, s: State, a: Agreed) {
    Agreement(c, s, a) && s.kex.sessionId == Some(a.hash) && a.sid == a.hash
  }

  ghost predicate OwnSecret(c: Suite, kex: Kex) {
    match kex.active
    case None => true
    case Some(Curve25519(secret)) => Drawn(c, secret, 32)
    case Some(Group14(secret)) => Drawn(c, secret, 256)
  }

  predicate NoKeysYet(s: State) {
    s.out.cs.None? && s.kex.sc.None? && s.kex.pendingSc.None? && s.kex.active.None? && s.kex.sessionId.None?
    && s.kex.negotiated.None?
  }

  /** The algorithms in use were chosen, by our lists, from the KEXINIT of the peer that the transcript covers. */
  ghost predicate OfLists(s: State) {
    && (s.phase != VersionExchange ==> SessionSafety.OwnKexinit(s.kex.ownPayload))
    && (s.kex.negotiated.Some? ==> ChosenFrom(s.kex.negotiated.value, s.kex.peerPayload))
  }

  predicate ChosenFrom(n: KexInit.Negotiated, peerPayload: Bytes) {
    KexInit.Parse(peerPayload).Ok? && Negotiation.Chosen(n, KexInit.Parse(peerPayload).value)
  }

  ghost predicate Proven(c: Suite, s: State) {
    && (s.phase == AwaitingHostKeyDecision ==> exists a: Agreed :: Question(c, s, a))
    && (s.out.cs.Some? ==> exists a: Agreed, n: nat :: SendsUnder(c, s, a, n))
    && (s.kex.sc.Some? ==> exists a: Agreed, n: nat :: ReceivesUnder(c, s, a, n))
    && (s.kex.sessionId.Some? ==> exists a: Agreed :: Named(c, s, a))
    && (s.kex.pendingSc.Some? ==> s.out.cs.Some?)
    && OwnSecret(c, s.kex)
    && OfLists(s)
    && (s.phase == VersionExchange ==> NoKeysYet(s))
  }

  ghost predicate ProvenUnlessOver(c: Suite, s: State) { Over(s.phase) || Proven(c, s) }

  // ---- steps that leave the key exchange alone -------------------------------------------------------------

  lemma {:induction false} AdvanceTwice(k: Cipher, n: nat, m: nat)
    ensures AdvanceBy(AdvanceBy(k, n), m) == AdvanceBy(k, n + m)
  {
    hide Advance;
    if m > 0 { AdvanceTwice(k, n, m - 1); }
  }

  ghost predicate Moved(k: Option<Cipher>, k': Option<Cipher>) {
    if k.None? then k'.None? else exists n: nat :: k' == Some(AdvanceBy(k.value, n))
  }

  lemma MovedOnce(k: Option<Cipher>)
    ensures Moved(k, AdvanceOpt(k)) && Moved(k, k)
  {
    hide Advance;
    if k.Some? {
      assert AdvanceBy(k.value, 0) == k.value && AdvanceBy(k.value, 1) == Advance(k.value);
    }
  }

  lemma MovedTwice(k: Option<Cipher>, k': Option<Cipher>, k'': Option<Cipher>)
    requires Moved(k, k') && Moved(k', k'')
    ensures Moved(k, k'')
  {
    hide Advance, AdvanceBy;
    if k.Some? {
      var n: nat :| k' == Some(AdvanceBy(k.value, n));
      var m: nat :| k'' == Some(AdvanceBy(k'.value, m));
      AdvanceTwice(k.value, n, m);
    }
  }

  /** Nothing an agreement refers to is lost. */
  predicate Onward(s: State, t: State) {
    t.peerIdent == s.peerIdent && t.kex.ownPayload == s.kex.ownPayload && s.events <= t.events
  }

  lemma AgreementStays(c: Suite, s: State, t: State, a: Agreed)
    requires Agreement(c, s, a) && Onward(s, t)
    ensures Agreement(c, t, a)
  {
    hide Vouched;
    var e := HostKeyVerify(c.keyName(a.t.kS), c.fingerprint(a.t.kS), a.t.kS);
    var i :| 0 <= i < |s.events| && s.events[i] == e;
    assert t.events[i] == e;
  }

  lemma SendingStays(c: Suite, s: State, t: State)
    requires s.out.cs.Some? ==> exists a: Agreed, n: nat :: SendsUnder(c, s, a, n)
    requires Onward(s, t) && Moved(s.out.cs, t.out.cs)
    requires t.kex.pendingSc == s.kex.pendingSc || t.kex.pendingSc.None?
    ensures t.out.cs.Some? ==> exists a: Agreed, n: nat :: SendsUnder(c, t, a, n)
  {
    hide Agreement, AdvanceBy, PairOf;
    if t.out.cs.Some? {
      var a: Agreed, n: nat :| SendsUnder(c, s, a, n);
      var m: nat :| t.out.cs == Some(AdvanceBy(s.out.cs.value, m));
      AdvanceTwice(PairOf(c, a).cs, n, m);
      AgreementStays(c, s, t, a);
      assert SendsUnder(c, t, a, n + m);
    }
  }

  lemma ReceivingStays(c: Suite, s: State, t: State)
    requires (s.kex.sc.Some? ==> exists a: Agreed, n: nat :: ReceivesUnder(c, s, a, n)) && Onward(s, t) && Moved(s.kex.sc, t.kex.sc)
    ensures t.kex.sc.Some? ==> exists a: Agreed, n: nat :: ReceivesUnder(c, t, a, n)
  {
    hide Agreement, AdvanceBy, PairOf;
    if t.kex.sc.Some? {
      var a: Agreed, n: nat :| ReceivesUnder(c, s, a, n);
      var m: nat :| t.kex.sc == Some(AdvanceBy(s.kex.sc.value, m));
      AdvanceTwice(PairOf(c, a).sc, n, m);
      AgreementStays(c, s, t, a);
      assert ReceivesUnder(c, t, a, n + m);
    }
  }

  lemma NameStays(c: Suite, s: State, t: State)
    requires (s.kex.sessionId.Some? ==> exists a: Agreed :: Named(c, s, a)) && Onward(s, t) && t.kex.sessionId == s.kex.sessionId
    ensures t.kex.sessionId.Some? ==> exists a: Agreed :: Named(c, t, a)
  {
    hide Agreement;
    if t.kex.sessionId.Some? {
      var a: Agreed :| Named(c, s, a);
      AgreementStays(c, s, t, a);
      assert Named(c, t, a);
    }
  }

  lemma QuestionStays(c: Suite, s: State, t: State)
    requires (exists a: Agreed :: Question(c, s, a)) && Onward(s, t) && t.kex == s.kex
    ensures exists a: Agreed :: Question(c, t, a)
  {
    hide Agreement, PairOf;
    var a: Agreed :| Question(c, s, a);
    AgreementStays(c, s, t, a);
    assert Question(c, t, a);
  }

  /** A step that says and raises more, and leaves the key exchange as it is. */
  lemma TalkProves(c: Suite, s: State, t: State)
    requires Proven(c, s) && Onward(s, t) && t.kex == s.kex && Moved(s.out.cs, t.out.cs)
    requires t.phase == AwaitingHostKeyDecision ==> s.phase == AwaitingHostKeyDecision
    requires t.phase == VersionExchange <==> s.phase == VersionExchange
    ensures Proven(c, t)
  {
    hide Question, SendsUnder, ReceivesUnder, Named, OwnSecret, AdvanceBy, ChosenFrom, SessionSafety.OwnKexinit;
    MovedOnce(s.kex.sc);
    SendingStays(c, s, t);
    ReceivingStays(c, s, t);
    NameStays(c, s, t);
    if t.phase == AwaitingHostKeyDecision { QuestionStays(c, s, t); }
  }

  // ---- what is sent ------------------------------------------------------------------------------------------

  lemma CipheredMoves(c: Suite, o: Out, payload: Bytes)
    ensures SendCiphered(c, o, payload).Some? ==> Moved(o.cs, SendCiphered(c, o, payload).value.cs)
    ensures Moved(o.cs, SendPlainOrCiphered(c, o, payload).cs)
  {
    hide Moved, AdvanceOpt;
    MovedOnce(o.cs);
  }

  lemma {:induction false} EachMoves(c: Suite, o: Out, payloads: seq<Bytes>)
    ensures SendEach(c, o, payloads).Some? ==> Moved(o.cs, SendEach(c, o, payloads).value.cs)
    decreases |payloads|
  {
    hide Moved, SendCiphered;
    MovedOnce(o.cs);
    if payloads != [] && SendCiphered(c, o, payloads[0]).Some? {
      var o1 := SendCiphered(c, o, payloads[0]).value;
      CipheredMoves(c, o, payloads[0]);
      EachMoves(c, o1, payloads[1..]);
      if SendEach(c, o1, payloads[1..]).Some? { MovedTwice(o.cs, o1.cs, SendEach(c, o1, payloads[1..]).value.cs); }
    }
  }

  // ---- the key exchange ----------------------------------------------------------------------------------------

  lemma KexinitProves(c: Suite, s: State, p: Bytes)
    requires Proven(c, s) && !Idle(s.phase) && s.phase != VersionExchange && HandlePeerKexinit(c, s, p).Fine?
    ensures Proven(c, HandlePeerKexinit(c, s, p).s)
  {
    hide KexInit.Parse, KexInit.NegotiateAll, SendPlainOrCiphered, Proven, Negotiation.Chosen, Negotiation.Agreeable,
         Negotiation.InitSent, SessionSafety.OwnKexinit;
    OwnIsSent(c, s);
    Negotiation.PeerKexinitHandled(c, s, p);
    var s1 := s.(kex := s.kex.(peerPayload := p));
    var n := KexInit.NegotiateAll(KexInit.Parse(s.kex.ownPayload).value, KexInit.Parse(p).value).value;
    if n.kex == KexInit.CURVE25519 {
      var secret := Draw(c, s.out.drawn, 32);
      InitProves(c, s, n, p, Curve25519(secret), 32, CurveInit(c.x25519Public(secret)));
    } else {
      var secret := Draw(c, s.out.drawn, 256);
      InitProves(c, s, n, p, Group14(secret), 256, Group14Init(c.group14Public(secret)));
    }
  }

  lemma OwnIsSent(c: Suite, s: State)
    requires Proven(c, s) && s.phase != VersionExchange
    ensures SessionSafety.OwnKexinit(s.kex.ownPayload)
  {
    hide SessionSafety.OwnKexinit;
  }

  lemma InitProves(c: Suite, s: State, n: KexInit.Negotiated, p: Bytes, active: ActiveKex, drawn: nat, msg: Bytes)
    requires Proven(c, s) && !Idle(s.phase) && s.phase != VersionExchange
    requires active == (if active.Curve25519? then Curve25519(Draw(c, s.out.drawn, 32)) else Group14(Draw(c, s.out.drawn, 256)))
    requires ChosenFrom(n, p)
    ensures Proven(c, SendKexInit(c, s.(kex := s.kex.(peerPayload := p)), n, active, drawn, msg))
  {
    hide Question, SendsUnder, ReceivesUnder, Named, Moved, SendPlainOrCiphered, Draw, ChosenFrom,
         SessionSafety.OwnKexinit;
    var t := SendKexInit(c, s.(kex := s.kex.(peerPayload := p)), n, active, drawn, msg);
    CipheredMoves(c, s.out.(drawn := s.out.drawn + drawn), msg);
    CsKept(c, s.out.(drawn := s.out.drawn + drawn), msg);
    MovedOnce(s.kex.sc);
    SendingStays(c, s, t);
    ReceivingStays(c, s, t);
    NameStays(c, s, t);
  }

  lemma CsKept(c: Suite, o: Out, payload: Bytes)
    ensures SendPlainOrCiphered(c, o, payload).cs.Some? == o.cs.Some?
  {
  }

  /** A verified reply: the exchange is complete, and the host is asked. */
  lemma ResultProves(c: Suite, s: State, a: Agreed)
    requires Proven(c, s) && !Idle(s.phase) && s.phase != VersionExchange
    requires Vouched(c, a) && a.t == TranscriptOf(s, a.t.kS)
    requires a.sid == (if s.kex.sessionId.Some? then s.kex.sessionId.value else a.hash)
    requires s.kex.negotiated.Some? && FromName(s.kex.negotiated.value.encryptionCs) == Some(a.alg)
    ensures var o := OnKexResult(c, s.(kex := s.kex.(active := None)), a.t.kS, a.hash, a.shared); o.Fine? && Proven(c, o.s)
  {
    hide Vouched, SendsUnder, ReceivesUnder, FromName, DerivePair, Moved, AdvanceBy, ChosenFrom, SessionSafety.OwnKexinit;
    var t := OnKexResult(c, s.(kex := s.kex.(active := None)), a.t.kS, a.hash, a.shared).s;
    MovedOnce(s.out.cs);
    MovedOnce(s.kex.sc);
    SendingStays(c, s, t);
    ReceivingStays(c, s, t);
    var shown := HostKeyVerify(c.keyName(a.t.kS), c.fingerprint(a.t.kS), a.t.kS);
    assert t.events[|s.events|] == shown;
    assert Question(c, t, a);
    if s.kex.sessionId.Some? {
      NameStays(c, s, t);
    } else {
      assert Named(c, t, a);
    }
  }

  lemma CurveReplyProves(c: Suite, s: State, secret: Bytes, p: Bytes)
    requires Proven(c, s) && !Idle(s.phase) && s.phase != VersionExchange && s.kex.active == Some(Curve25519(secret))
    requires HandleCurveReply(c, s, secret, p).Fine?
    ensures Proven(c, HandleCurveReply(c, s, secret, p).s)
  {
    hide Proven, ParseCurveReply, CurveHash, OnKexResult, FromName, Drawn;
    ActiveIsDrawn(c, s);
    var r := ParseCurveReply(p).value;
    var q: Bytes32 := r.peerPublic;
    var k := c.x25519Shared(secret, q).value;
    var t := TranscriptOf(s, r.hostKey);
    var h := CurveHash(c, t, c.x25519Public(secret), q, k);
    FineHasAlg(c, s, r.hostKey, h, k);
    var alg := FromName(s.kex.negotiated.value.encryptionCs).value;
    var a := Agreed(t, h, k, r.signature, alg, if s.kex.sessionId.Some? then s.kex.sessionId.value else h);
    assert ByCurve(c, a, secret, q, k);
    ResultProves(c, s, a);
  }

  lemma Group14ReplyProves(c: Suite, s: State, secret: Bytes, p: Bytes)
    requires Proven(c, s) && !Idle(s.phase) && s.phase != VersionExchange && s.kex.active == Some(Group14(secret))
    requires HandleGroup14Reply(c, s, secret, p).Fine?
    ensures Proven(c, HandleGroup14Reply(c, s, secret, p).s)
  {
    hide Proven, ParseReply, Group14Hash, OnKexResult, FromName, Drawn;
    ActiveIsDrawn(c, s);
    var r := ParseReply(p).value;
    var k := c.group14Shared(secret, r.peerPublic).value;
    var t := TranscriptOf(s, r.hostKey);
    var h := Group14Hash(c, t, c.group14Public(secret), r.peerPublic, k);
    FineHasAlg(c, s, r.hostKey, h, k);
    var alg := FromName(s.kex.negotiated.value.encryptionCs).value;
    var a := Agreed(t, h, k, r.signature, alg, if s.kex.sessionId.Some? then s.kex.sessionId.value else h);
    assert ByGroup14(c, a, secret, r.peerPublic, k);
    ResultProves(c, s, a);
  }

  lemma ActiveIsDrawn(c: Suite, s: State)
    requires Proven(c, s)
    ensures OwnSecret(c, s.kex)
  {
  }

  lemma FineHasAlg(c: Suite, s: State, hostKey: Bytes, h: Bytes, shared: Bytes)
    requires OnKexResult(c, s.(kex := s.kex.(active := None)), hostKey, h, shared).Fine?
    ensures s.kex.negotiated.Some? && FromName(s.kex.negotiated.value.encryptionCs).Some?
  {
    hide FromName, DerivePair;
  }

  lemma KexReplyProves(c: Suite, s: State, p: Bytes)
    requires Proven(c, s) && !Idle(s.phase) && s.phase != VersionExchange && HandleKexReply(c, s, p).Fine?
    ensures Proven(c, HandleKexReply(c, s, p).s)
  {
    hide Proven, HandleCurveReply, HandleGroup14Reply;
    match s.kex.active
    case Some(Curve25519(secret)) => CurveReplyProves(c, s, secret, p);
    case Some(Group14(secret)) => Group14ReplyProves(c, s, secret, p);
    case None =>
  }

  lemma NewkeysProves(c: Suite, s: State)
    requires Proven(c, s) && !Idle(s.phase) && s.phase != VersionExchange && HandleNewkeys(s).Fine?
    ensures Proven(c, HandleNewkeys(s).s)
  {
    hide Question, ReceivesUnder, Named, Moved, PairOf, Agreement;
    var t := HandleNewkeys(s).s;
    MovedOnce(s.out.cs);
    SendingStays(c, s, t);
    NameStays(c, s, t);
    var a: Agreed, n: nat :| SendsUnder(c, s, a, n);
    AgreementStays(c, s, t, a);
    FreshReceives(c, t, a);
  }

  lemma FreshReceives(c: Suite, t: State, a: Agreed)
    requires Agreement(c, t, a) && t.kex.sc == Some(PairOf(c, a).sc)
    ensures ReceivesUnder(c, t, a, 0)
  {
    hide Agreement, PairOf;
  }

  // ---- dispatch --------------------------------------------------------------------------------------------------

  lemma SentProves(c: Suite, s: State, t: State, payload: Bytes)
    requires Proven(c, s) && !Over(s.phase) && SendCiphered(c, s.out, payload).Some?
    requires t.out == SendCiphered(c, s.out, payload).value && t.kex == s.kex && t.peerIdent == s.peerIdent
    requires t.phase == s.phase && t.events == s.events
    ensures Proven(c, t)
  {
    hide Proven, Moved, SendCiphered;
    CipheredMoves(c, s.out, payload);
    TalkProves(c, s, t);
  }

  lemma QuietProves(c: Suite, s: State, t: State)
    requires Proven(c, s) && t.kex == s.kex && t.peerIdent == s.peerIdent && t.out == s.out && s.events <= t.events
    requires t.phase == AwaitingHostKeyDecision ==> s.phase == AwaitingHostKeyDecision
    requires t.phase == VersionExchange <==> s.phase == VersionExchange
    ensures Proven(c, t)
  {
    hide Proven, Moved;
    MovedOnce(s.out.cs);
    TalkProves(c, s, t);
  }

  lemma OthersProve(c: Suite, s: State, p: Bytes)
    requires Proven(c, s) && !Idle(s.phase) && s.phase != VersionExchange && |p| > 0
    ensures HandleDisconnect(s, p).Fine? ==> ProvenUnlessOver(c, HandleDisconnect(s, p).s)
    ensures HandleServiceAccept(s, p).Fine? ==> Proven(c, HandleServiceAccept(s, p).s)
    ensures HandleUserauthFailure(s, p).Fine? ==> Proven(c, HandleUserauthFailure(s, p).s)
    ensures Proven(c, HandleUserauthSuccess(s).s)
    ensures HandlePkOk(c, s, p).Fine? ==> Proven(c, HandlePkOk(c, s, p).s)
    ensures HandleGlobalRequest(c, s, p).Fine? ==> Proven(c, HandleGlobalRequest(c, s, p).s)
  {
    hide Proven, ParseDisconnect, Auth.ParseServiceAccept, Auth.ServiceUserauth, Auth.ParseFailure, Auth.ParsePkOk,
         Auth.SignedData, Auth.SignedRequest, SendCiphered, ParseGlobalRequest;
    if HandleServiceAccept(s, p).Fine? { QuietProves(c, s, HandleServiceAccept(s, p).s); }
    if HandleUserauthFailure(s, p).Fine? { QuietProves(c, s, HandleUserauthFailure(s, p).s); }
    QuietProves(c, s, HandleUserauthSuccess(s).s);
    if HandlePkOk(c, s, p).Fine? {
      var q := s.pendingAuth.value;
      var signature := c.sign(q.key, Auth.SignedData(s.kex.sessionId.value, q.user, q.algorithm, q.blob)).value;
      SentProves(c, s, HandlePkOk(c, s, p).s, Auth.SignedRequest(q.user, q.algorithm, q.blob, signature));
    }
    if HandleGlobalRequest(c, s, p).Fine? && HandleGlobalRequest(c, s, p).s != s {
      SentProves(c, s, HandleGlobalRequest(c, s, p).s, [MSG_REQUEST_FAILURE]);
    }
  }

  lemma ReactProves(c: Suite, s: State, r: Connection.Reaction)
    requires Proven(c, s) && React(c, s, r).Fine?
    ensures Proven(c, React(c, s, r).s)
  {
    hide Proven, SendEach, Moved;
    EachMoves(c, s.out, r.sends);
    TalkProves(c, s, React(c, s, r).s);
  }

  lemma DispatchProves(c: Suite, s: State, p: Bytes)
    requires Proven(c, s) && !Idle(s.phase) && s.phase != VersionExchange && |p| > 0
    ensures ProvenUnlessOver(c, Settle(s, Dispatch(c, s, p)))
  {
    hide Proven, HandleDisconnect, HandlePeerKexinit, HandleKexReply, HandleNewkeys, HandleServiceAccept,
         HandleUserauthFailure, HandleUserauthSuccess, HandlePkOk, HandleGlobalRequest, React, Connection.OnMessage;
    if Dispatch(c, s, p).Fine? {
      OthersProve(c, s, p);
      if p[0] == KexInit.MSG_KEXINIT {
        KexinitProves(c, s, p);
      } else if p[0] == MSG_KEX_REPLY {
        KexReplyProves(c, s, p);
      } else if p[0] == KexInit.MSG_NEWKEYS {
        NewkeysProves(c, s);
      } else if Connection.IsChannelMessage(p[0]) {
        ReactProves(c, s, Connection.OnMessage(s.conn, p[0], p[1..]));
      }
    }
  }

  // ---- turns -------------------------------------------------------------------------------------------------------

  lemma WithScProves(c: Suite, s: State)
    requires Proven(c, s) && s.phase != AwaitingHostKeyDecision
    ensures Proven(c, WithSc(s, AdvanceOpt(s.kex.sc)))
  {
    hide Question, SendsUnder, ReceivesUnder, Named, Moved, AdvanceOpt;
    var t := WithSc(s, AdvanceOpt(s.kex.sc));
    MovedOnce(s.kex.sc);
    MovedOnce(s.out.cs);
    SendingStays(c, s, t);
    ReceivingStays(c, s, t);
    NameStays(c, s, t);
    NoneStaysNone(s.kex.sc);
  }

  lemma NoneStaysNone(k: Option<Cipher>) ensures AdvanceOpt(k).None? == k.None? {}

  lemma BeginProves(c: Suite, s: State)
    requires Proven(c, s) && s.phase == VersionExchange
    ensures Proven(c, BeginKex(c, s))
  {
    hide KexInit.Payload, KexInit.Ours, Emit;
    var cookie: Bytes16 := Draw(c, s.out.drawn, 16);
    EmitKeepsCipher(c, s.out.(drawn := s.out.drawn + 16), KexInit.Payload(KexInit.Ours(cookie)));
  }

  lemma EmitKeepsCipher(c: Suite, o: Out, payload: Bytes)
    ensures SendPlain(c, o, payload).cs == o.cs
  {
  }

  lemma TurnProves(c: Suite, s: State, buf: Bytes)
    requires Proven(c, s) && !Idle(s.phase) && Turn(c, s, buf).Some?
    ensures ProvenUnlessOver(c, Turn(c, s, buf).value.1)
  {
    hide Proven, NextFrame, Dispatch, Ident.Scan, BeginKex, WithSc;
    if s.phase == VersionExchange {
      var i := Ident.Scan(s.ident, buf).s;
      QuietProves(c, s, s.(ident := i));
      BeginProves(c, s.(ident := i));
    } else {
      SequenceNumbers.OpenAdvances(c, s.kex.sc, buf);
      WithScProves(c, s);
      match NextFrame(c, s.kex.sc, buf)
      case Got(_, k, p) =>
        SamePhase(s, k);
        if p != [] { DispatchProves(c, WithSc(s, k), p); }
      case _ =>
    }
  }

  lemma SamePhase(s: State, k: Option<Cipher>) ensures WithSc(s, k).phase == s.phase {}

  lemma {:induction false} DriveProves(c: Suite, s: State, buf: Bytes)
    requires ProvenUnlessOver(c, s)
    ensures ProvenUnlessOver(c, Drive(c, s, buf).core)
    decreases |buf|, if Over(s.phase) then 0 else 1
  {
    hide Proven, Turn;
    if !Idle(s.phase) && Turn(c, s, buf).Some? {
      var (n, s') := Turn(c, s, buf).value;
      TurnProves(c, s, buf);
      DriveProves(c, s', buf[n..]);
    }
  }

  // ---- calls ---------------------------------------------------------------------------------------------------------

  /** Accepting puts the ciphers of the question in place. */
  lemma AcceptedSendsUnder(c: Suite, s: State, a: Agreed)
    requires Question(c, s, a)
    ensures Accepted(c, s).phase == ServiceRequest && SendsUnder(c, Accepted(c, s), a, 1)
  {
    hide Vouched, Emit, DerivePair, Auth.ServiceRequest, Auth.ServiceUserauth, Advance, AdvanceBy;
    AgreementStays(c, s, Accepted(c, s), a);
    FirstIsOne(PairOf(c, a).cs);
  }

  lemma AcceptedProves(c: Suite, s: State)
    requires Proven(c, s) && s.phase == AwaitingHostKeyDecision
    ensures Proven(c, Accepted(c, s))
  {
    hide Question, SendsUnder, ReceivesUnder, Named, Moved, Emit, DerivePair, Auth.ServiceRequest,
         Auth.ServiceUserauth, Advance;
    var t := Accepted(c, s);
    var a: Agreed :| Question(c, s, a);
    AcceptedSendsUnder(c, s, a);
    AcceptedHasCipher(c, s);
    MovedOnce(s.kex.sc);
    ReceivingStays(c, s, t);
    NameStays(c, s, t);
  }

  lemma AcceptedHasCipher(c: Suite, s: State)
    ensures Accepted(c, s).phase == ServiceRequest && s.phase != ServiceRequest ==> Accepted(c, s).out.cs.Some?
  {
    hide Emit, Auth.ServiceRequest, Auth.ServiceUserauth, Advance;
  }

  lemma FirstIsOne(k: Cipher)
    ensures AdvanceBy(k, 1) == Advance(k)
  {
    hide Advance;
    assert AdvanceBy(k, 0) == k;
  }

  lemma SendOrHaltProves(c: Suite, s: State, t: State, payload: Bytes)
    requires Proven(c, s) && !Over(s.phase)
    requires t.out == s.out && t.kex == s.kex && t.peerIdent == s.peerIdent && t.phase == s.phase && t.events == s.events
    ensures ProvenUnlessOver(c, SendOrHalt(c, s, t, payload))
  {
    hide Proven, SendCiphered;
    if SendCiphered(c, s.out, payload).Some? { SentProves(c, s, t.(out := SendCiphered(c, s.out, payload).value), payload); }
  }

  lemma HostCallProves(c: Suite, s: State, i: Input)
    requires Proven(c, s) && !Over(s.phase) && !i.FeedIncoming? && !i.ProvideHostKeyDecision?
    ensures ProvenUnlessOver(c, HostCall(c, s, i))
  {
    hide Proven, SendOrHalt, React, Auth.PasswordRequest, Auth.KeyQuery, Connection.OpenExec, Connection.OpenShell,
         Connection.ChannelSend, Connection.ResizePty, Connection.CloseChannel, Channel.OpenMessage;
    match i
    case NotifyTransportClosed =>
    case Password(user, password) =>
      SendOrHaltProves(c, s, s.(username := Some(user), pendingAuth := Some(PasswordSent)), Auth.PasswordRequest(user, password));
    case PublicKey(user, key) =>
      QuietProves(c, s, s.(username := Some(user)));
      if c.userAlgorithm(key).Some? {
        var algorithm, blob := c.userAlgorithm(key).value, c.publicBlob(key);
        SendOrHaltProves(c, s, s.(username := Some(user), pendingAuth := Some(PublicKeyQuery(user, algorithm, blob, key))),
                         Auth.KeyQuery(user, algorithm, blob));
      }
    case Exec(command) =>
      SendOrHaltProves(c, s, s.(conn := Connection.OpenExec(s.conn, command)), Channel.OpenMessage(s.conn.nextId));
    case Shell(pty) =>
      SendOrHaltProves(c, s, s.(conn := Connection.OpenShell(s.conn, pty)), Channel.OpenMessage(s.conn.nextId));
    case SendData(id, data) => SettledProves(c, s, Connection.ChannelSend(s.conn, id, data));
    case Resize(id, cols, rows) => SettledProves(c, s, Connection.ResizePty(s.conn, id, cols, rows));
    case CloseChannel(id) => SettledProves(c, s, Connection.CloseChannel(s.conn, id));
  }

  lemma SettledProves(c: Suite, s: State, r: Connection.Reaction)
    requires Proven(c, s)
    ensures ProvenUnlessOver(c, Settle(s, React(c, s, r)))
  {
    hide Proven, React;
    if React(c, s, r).Fine? { ReactProves(c, s, r); }
  }

  lemma DoProves(c: Suite, x: Session, i: Input)
    requires ProvenUnlessOver(c, x.core)
    ensures ProvenUnlessOver(c, Do(c, x, i).core)
  {
    hide Proven, Drive, HostCall, Accepted, Over;
    if Over(x.core.phase) {
      SequenceNumbers.OverStays(c, x, i);
    } else {
      match i
      case FeedIncoming(b) => DriveProves(c, x.core, x.incoming + b);
      case ProvideHostKeyDecision(accept) =>
        SequenceNumbers.FailIsOver(x.core);
        if x.core.phase == AwaitingHostKeyDecision && accept {
          AcceptedProves(c, x.core);
          DriveProves(c, Accepted(c, x.core), x.incoming);
        }
      case _ => HostCallProves(c, x.core, i);
    }
  }

  lemma {:induction false} RunProves(c: Suite, x: Session, inputs: seq<Input>)
    requires ProvenUnlessOver(c, x.core)
    ensures ProvenUnlessOver(c, Run(c, x, inputs).core)
    decreases |inputs|
  {
    hide ProvenUnlessOver, Do;
    if inputs != [] {
      DoProves(c, x, inputs[0]);
      RunProves(c, Do(c, x, inputs[0]), inputs[1..]);
    }
  }

  // ---- what the host can rely on -----------------------------------------------------------------------------------

  /** Any peer, any host. While a session waits for the host-key decision: an exchange has been completed
      whose hash covers both identification lines and both KEXINITs as this session sent and received them, our
      secret is one we drew, the key that the host was shown verified the signature over that hash, and the
      ciphers and the session id that wait are those of that exchange; and the cipher, like the other three
      choices, is the earliest of our names in the peer's KEXINIT that the hash covers. */
  lemma ShownKeyIsProven(c: Suite, inputs: seq<Input>) returns (a: Agreed)
    requires Run(c, START, inputs).core.phase == AwaitingHostKeyDecision
    ensures Question(c, Run(c, START, inputs).core, a)
    ensures ChosenFrom(Run(c, START, inputs).core.kex.negotiated.value, a.t.iS)
  {
    hide Run, Agreement, SendsUnder, ReceivesUnder, Named, ChosenFrom, PairOf;
    RunProves(c, START, inputs);
    a :| Question(c, Run(c, START, inputs).core, a);
  }

  /** Any peer, any host. The sending cipher of an open session is that of a completed exchange whose key the
      host was shown, some number of packets on (`AcceptedSendsUnder`: of the one it accepted). */
  lemma SendingIsProven(c: Suite, inputs: seq<Input>) returns (a: Agreed, n: nat)
    requires var s := Run(c, START, inputs).core; !Over(s.phase) && s.out.cs.Some?
    ensures SendsUnder(c, Run(c, START, inputs).core, a, n)
  {
    hide Run, Question, SendsUnder, ReceivesUnder, Named;
    RunProves(c, START, inputs);
    a, n :| SendsUnder(c, Run(c, START, inputs).core, a, n);
  }

  /** And so is the receiving cipher; and the session id is the hash of the first of these exchanges. */
  lemma ReceivingIsProven(c: Suite, inputs: seq<Input>) returns (a: Agreed, n: nat, first: Agreed)
    requires LawfulAead(c)
    requires var s := Run(c, START, inputs).core; !Over(s.phase) && s.kex.sc.Some?
    ensures ReceivesUnder(c, Run(c, START, inputs).core, a, n) && Named(c, Run(c, START, inputs).core, first)
  {
    hide Run, Question, SendsUnder, ReceivesUnder, Named, SessionSafety.Gated, SessionSafety.KexInOrder;
    RunProves(c, START, inputs);
    SessionRuns.ReachableStates(c, inputs);
    a, n :| ReceivesUnder(c, Run(c, START, inputs).core, a, n);
    first :| Named(c, Run(c, START, inputs).core, first);
  }

  /** Agreement on the transcript: whoever computed the hash of a curve25519 exchange over a transcript of its
      own, and did not find a collision, saw what this session saw. */
  lemma TranscriptsAgree(c: Suite, a: Agreed, secret: Bytes, q: Bytes32, k: Bytes32,
                         theirs: Transcript, qC: Bytes32, qS: Bytes32, k': Bytes32)
    requires ByCurve(c, a, secret, q, k) && Bounded(a.t) && Bounded(theirs)
    requires CurveHash(c, theirs, qC, qS, k') == a.hash
    requires var ours := CurvePreimage(a.t, c.x25519Public(secret), q, k);
             c.hash(ours) == c.hash(CurvePreimage(theirs, qC, qS, k')) ==> ours == CurvePreimage(theirs, qC, qS, k')
    ensures theirs == a.t && qC == c.x25519Public(secret) && qS == q && k' == k
  {
    hide CurvePreimage, Bounded;
    CurvePreimageUnique(a.t, c.x25519Public(secret), q, k, theirs, qC, qS, k');
  }
}
