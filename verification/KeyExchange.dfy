/**
  What is hashed and what becomes of the hash, as the RFCs write it down: the exchange hash of RFC 8731 and of
  section 8 of RFC 4253, and the keys of section 7.2 of RFC 4253.
 */
module KeyExchange {
  import opened Prelude
  import opened Primitives
  import opened Wire
  import opened Layouts
  import opened Kdf
  import opened Exchange
  import opened SessionModel
  import Events
  import H = HostKeyProof
  import Packet

  // ---- the exchange hash -----------------------------------------------------------------------------------

  /** V_C, V_S, I_C, I_S and K_S. */
  function Hashed(t: Transcript, more: Fields): Fields {
    Text(t.vC, Text(t.vS, Text(t.iC, Text(t.iS, Text(t.kS, more)))))
  }

  lemma TranscriptIsRead(t: Transcript, rest: Bytes, more: Fields)
    requires Bounded(t) && Reads(rest, more)
    ensures Reads(PutTranscript(t, rest), Hashed(t, more))
  {
    hide Str, Reads;
    var f := Text(t.kS, more);
    TextReads(t.kS, rest, more);
    TextReads(t.iS, Str(t.kS) + rest, f);
    TextReads(t.iC, Str(t.iS) + (Str(t.kS) + rest), Text(t.iS, f));
    TextReads(t.vS, Str(t.iC) + (Str(t.iS) + (Str(t.kS) + rest)), Text(t.iC, Text(t.iS, f)));
    TextReads(t.vC, Str(t.vS) + (Str(t.iC) + (Str(t.iS) + (Str(t.kS) + rest))), Text(t.vS, Text(t.iC, Text(t.iS, f))));
  }

  /** V_C, V_S, I_C, I_S, K_S, then both public values and the shared secret, the last as an `mpint`. */
  lemma CurvePreimageIsRead(t: Transcript, qC: Bytes32, qS: Bytes32, k: Bytes32)
    requires Bounded(t)
    ensures Reads(CurvePreimage(t, qC, qS, k), Hashed(t, Text(qC, Text(qS, Text(MpintBody(k), End)))))
  {
    hide Str, Reads, MpintBody, PutTranscript;
    BodySize(k);
    LastReads(0, false, MpintBody(k));
    TextReads(qS, Mpint(k), Text(MpintBody(k), End));
    TextReads(qC, Str(qS) + Mpint(k), Text(qS, Text(MpintBody(k), End)));
    TranscriptIsRead(t, Str(qC) + (Str(qS) + Mpint(k)), Text(qC, Text(qS, Text(MpintBody(k), End))));
  }

  lemma BodySize(b: Bytes)
    ensures |MpintBody(b)| <= |b| + 1
  {
  }

  /** The same with e, f and K as `mpint`s. */
  lemma Group14PreimageIsRead(t: Transcript, e: Bytes256, f: Bytes, k: Bytes256)
    requires Bounded(t) && |f| < U32_LIMIT - 1
    ensures Reads(Group14Preimage(t, e, f, k), Hashed(t, Text(MpintBody(e), Text(MpintBody(f), Text(MpintBody(k), End)))))
  {
    hide Str, Reads, MpintBody, PutTranscript;
    BodySize(e);
    BodySize(f);
    BodySize(k);
    LastReads(0, false, MpintBody(k));
    TextReads(MpintBody(f), Mpint(k), Text(MpintBody(k), End));
    TextReads(MpintBody(e), Mpint(f) + Mpint(k), Text(MpintBody(f), Text(MpintBody(k), End)));
    TranscriptIsRead(t, Mpint(e) + (Mpint(f) + Mpint(k)), Text(MpintBody(e), Text(MpintBody(f), Text(MpintBody(k), End))));
  }

  /** The server's reply: K_S, its public value, its signature. */
  lemma ReplyIsParsed(m: Bytes, hostKey: Bytes, peerPublic: Bytes, signature: Bytes)
    requires Reads(m, Octet(31, Text(hostKey, Text(peerPublic, Text(signature, End)))))
    ensures ParseReply(m) == Ok(Reply(hostKey, peerPublic, signature))
    ensures ParseCurveReply(m) == if |peerPublic| == 32 then ParseReply(m) else Err(Framing)
  {
    hide Reads, GetU8, GetString;
    OctetRead(m, 31, Text(hostKey, Text(peerPublic, Text(signature, End))));
    var r1 := TextRead(m[1..], hostKey, Text(peerPublic, Text(signature, End)));
    var r2 := TextRead(r1, peerPublic, Text(signature, End));
    var _ := TextRead(r2, signature, End);
  }

  // ---- the keys ----------------------------------------------------------------------------------------------

  /** The first hash for a letter: HASH(K || H || letter || session_id). */
  function First(c: Suite, k: Bytes, h: Bytes, letter: Byte, sid: Bytes): Bytes32 { c.hash(k + h + [letter] + sid) }

  /** What section 7.2 derives for a letter: up to 32 bytes of the first hash, or 64 with the hash over K, H and
      the first. */
  predicate Derived(c: Suite, material: Bytes, k: Bytes, h: Bytes, letter: Byte, sid: Bytes) {
    var first := First(c, k, h, letter, sid);
    && |material| <= 64
    && if |material| <= 32 then material == first[..|material|]
       else material == (first + c.hash(k + h + first))[..|material|]
  }

  lemma DeriveIsDerived(c: Suite, k: Bytes, h: Bytes, sid: Bytes, letter: Byte, n: nat)
    requires n <= 64
    ensures Derived(c, Derive(c, k, h, sid, letter, n), k, h, letter, sid)
  {
    var first := First(c, k, h, letter, sid);
    assert Blocks(c, k, h, sid, letter, 1) == first;
    if n > 32 {
      assert BlocksFor(n) == 2;
      assert Blocks(c, k, h, sid, letter, 2) == first + c.hash(k + h + first);
    } else {
      assert BlocksFor(n) == 1;
    }
  }

  /** Both directions' keys and initial IVs, by the letters of section 7.2: A and C from client to server, B and D
      from server to client. */
  predicate AsWritten(c: Suite, pair: CipherPair, k: Bytes, h: Bytes, sid: Bytes) {
    && Derived(c, pair.cs.nonce, k, h, 'A' as int, sid) && Derived(c, pair.sc.nonce, k, h, 'B' as int, sid)
    && Derived(c, pair.cs.key, k, h, 'C' as int, sid) && Derived(c, pair.sc.key, k, h, 'D' as int, sid)
  }

  lemma PairIsAsWritten(c: Suite, alg: Alg, shared: Bytes, h: Bytes, sid: Bytes)
    ensures AsWritten(c, DerivePair(c, alg, shared, h, sid), Mpint(shared), h, sid)
  {
    hide Derive, Derived, Mpint;
    var k := Mpint(shared);
    DeriveIsDerived(c, k, h, sid, 'C' as int, Packet.KeyLen(alg));
    DeriveIsDerived(c, k, h, sid, 'D' as int, Packet.KeyLen(alg));
    DeriveIsDerived(c, k, h, sid, 'A' as int, Packet.IvLen(alg));
    DeriveIsDerived(c, k, h, sid, 'B' as int, Packet.IvLen(alg));
  }

  /** The ciphers that wait for the host's decision are keyed so, from the shared secret and the hash of the exchange
      that the host is asked about; the algorithm is the one negotiated, and both directions start at 3. */
  lemma WaitingCiphersAreAsWritten(c: Suite, s: State, a: H.Agreed)
    requires H.Question(c, s, a)
    ensures var pair := s.kex.pendingCiphers.value;
            && AsWritten(c, pair, Mpint(a.shared), a.hash, a.sid)
            && pair.cs.alg == pair.sc.alg == a.alg
            && pair.cs.seqNo == 3 && pair.sc.seqNo == 3
  {
    hide H.Agreement, AsWritten, Derive, Mpint;
    PairIsAsWritten(c, a.alg, a.shared, a.hash, a.sid);
  }

  lemma CipherNamesDiffer(a: Bytes, b: Bytes)
    requires Packet.FromName(a).Some? && Packet.FromName(a) == Packet.FromName(b)
    ensures a == b
  {
  }

  /** The code takes the name for client to server for both directions. So the sending cipher that waits is always the
      one negotiated, and the receiving one exactly when both directions came to have one name. */
  lemma CiphersAreNegotiated(c: Suite, s: State, a: H.Agreed)
    requires H.Question(c, s, a)
    ensures var n, pair := s.kex.negotiated.value, s.kex.pendingCiphers.value;
            && Packet.FromName(n.encryptionCs) == Some(pair.cs.alg)
            && (Packet.FromName(n.encryptionSc) == Some(pair.sc.alg) <==> n.encryptionSc == n.encryptionCs)
  {
    hide H.Agreement, Derive, Packet.FromName;
    var n := s.kex.negotiated.value;
    if Packet.FromName(n.encryptionSc) == Some(a.alg) { CipherNamesDiffer(n.encryptionCs, n.encryptionSc); }
  }

  // ---- the reply ---------------------------------------------------------------------------------------------

  /** What is wrong with a key and its signature over a hash, if anything: section 8 of RFC 4253 wants it verified
      before the key is shown to anyone. */
  function Flaw(c: Suite, hostKey: Bytes, signature: Bytes, h: Bytes): Option<SshError> {
    if !c.keyParses(hostKey) || !c.signatureParses(signature) then Some(KeyError)
    else if !c.verifies(hostKey, h, signature) then Some(HostKeySignatureInvalid)
    else None
  }

  /** The host is asked about the key, once, and nothing is said; or the session fails, saying nothing. */
  predicate Asks(c: Suite, s: State, o: Outcome, hostKey: Bytes) {
    && o.Fine? && o.s.phase == AwaitingHostKeyDecision && o.s.out == s.out && o.s.conn == s.conn
    && o.s.kex.active.None? && o.s.kex.pendingHostKey == Some(hostKey)
    && o.s.events == s.events + [Events.HostKeyVerify(c.keyName(hostKey), c.fingerprint(hostKey), hostKey)]
  }

  predicate Fails(s: State, o: Outcome, e: SshError) {
    o.Failed? && o.error == e && o.s.out == s.out && o.s.events == s.events
  }

  /** The reply to a curve25519 exchange: the host is asked exactly when the public value has 32 bytes and gives a
      secret, and the key verifies the signature over the hash; otherwise the session fails, with the reason. */
  lemma CurveReplyOutcome(c: Suite, s: State, m: Bytes, secret: Bytes, hostKey: Bytes, q: Bytes, signature: Bytes)
    requires Reads(m, Octet(31, Text(hostKey, Text(q, Text(signature, End))))) && s.kex.active == Some(Curve25519(secret))
    requires s.kex.negotiated.Some? && Packet.FromName(s.kex.negotiated.value.encryptionCs).Some?
    ensures var o := HandleKexReply(c, s, m);
            if |q| != 32 then Fails(s, o, Framing)
            else if c.x25519Shared(secret, q).None? then Fails(s, o, Negotiation)
            else
              var h := CurveHash(c, TranscriptOf(s, hostKey), c.x25519Public(secret), q, c.x25519Shared(secret, q).value);
              match Flaw(c, hostKey, signature, h)
              case Some(e) => Fails(s, o, e)
              case None => Asks(c, s, o, hostKey)
  {
    hide Reads, ParseReply, ParseCurveReply, CurveHash, TranscriptOf, Packet.FromName, DerivePair;
    ReplyIsParsed(m, hostKey, q, signature);
  }

  /** The same for group 14, whose public value the exponentiation judges. */
  lemma Group14ReplyOutcome(c: Suite, s: State, m: Bytes, secret: Bytes, hostKey: Bytes, f: Bytes, signature: Bytes)
    requires Reads(m, Octet(31, Text(hostKey, Text(f, Text(signature, End))))) && s.kex.active == Some(Group14(secret))
    requires s.kex.negotiated.Some? && Packet.FromName(s.kex.negotiated.value.encryptionCs).Some?
    ensures var o := HandleKexReply(c, s, m);
            if c.group14Shared(secret, f).Err? then Fails(s, o, c.group14Shared(secret, f).error)
            else
              var k := c.group14Shared(secret, f).value;
              var h := Group14Hash(c, TranscriptOf(s, hostKey), c.group14Public(secret), f, k);
              match Flaw(c, hostKey, signature, h)
              case Some(e) => Fails(s, o, e)
              case None => Asks(c, s, o, hostKey)
  {
    hide Reads, ParseReply, ParseCurveReply, Group14Hash, TranscriptOf, Packet.FromName, DerivePair;
    ReplyIsParsed(m, hostKey, f, signature);
  }
}
