/** Key-exchange messages and exchange-hash preimages: ssh-core/src/transport/kex_curve25519.rs and
    kex_dh_group14.rs. */
module Exchange {
  import opened Prelude
  import opened Primitives
  import opened Wire
  import opened Kdf

  const MSG_KEX_INIT: Byte := 30
  const MSG_KEX_REPLY: Byte := 31

  function CurveInit(qC: Bytes32): Bytes { [MSG_KEX_INIT] + Str(qC) }
  function Group14Init(e: Bytes256): Bytes { [MSG_KEX_INIT] + Mpint(e) }

  /** K_S, Q_S (or f) and the signature. */
  datatype Reply = Reply(hostKey: Bytes, peerPublic: Bytes, signature: Bytes)

  function PutReply(r: Reply): Bytes { [MSG_KEX_REPLY] + Str(r.hostKey) + Str(r.peerPublic) + Str(r.signature) }

  function ParseReply(payload: Bytes): Result<Reply> {
    var (msg, r0) :- GetU8(payload);
    if msg != MSG_KEX_REPLY then Err(UnexpectedMessage(msg))
    else
      var (hostKey, r1) :- GetString(r0);
      var (peerPublic, r2) :- GetString(r1);
      var (signature, _) :- GetString(r2);
      Ok(Reply(hostKey, peerPublic, signature))
  }

  /** As `ParseReply`, but Q_S must be exactly 32 bytes. */
  function ParseCurveReply(payload: Bytes): Result<Reply> {
    var (msg, r0) :- GetU8(payload);
    if msg != MSG_KEX_REPLY then Err(UnexpectedMessage(msg))
    else
      var (hostKey, r1) :- GetString(r0);
      var (peerPublic, r2) :- GetString(r1);
      if |peerPublic| != 32 then Err(Framing)
      else
        var (signature, _) :- GetString(r2);
        Ok(Reply(hostKey, peerPublic, signature))
  }

  lemma CurveReplyRoundTrip(r: Reply)
    requires |r.hostKey| < U32_LIMIT && |r.peerPublic| == 32 && |r.signature| < U32_LIMIT
    ensures ParseCurveReply(PutReply(r)) == Ok(r)
  {
    hide Str;
    var p := PutReply(r);
    assert p[1..] == Str(r.hostKey) + (Str(r.peerPublic) + (Str(r.signature) + []));
    StrRoundTrip(r.hostKey, Str(r.peerPublic) + (Str(r.signature) + []));
    StrRoundTrip(r.peerPublic, Str(r.signature) + []);
    StrRoundTrip(r.signature, []);
  }

  // ---- what is hashed ----------------------------------------------------------------------------

  /** The fields both exchanges hash first: V_C, V_S, I_C, I_S and K_S. */
  datatype Transcript = Transcript(vC: Bytes, vS: Bytes, iC: Bytes, iS: Bytes, kS: Bytes)

  predicate Bounded(t: Transcript) {
    && |t.vC| < U32_LIMIT && |t.vS| < U32_LIMIT && |t.iC| < U32_LIMIT && |t.iS| < U32_LIMIT
    && |t.kS| < U32_LIMIT
  }

  function PutTranscript(t: Transcript, rest: Bytes): Bytes {
    Str(t.vC) + (Str(t.vS) + (Str(t.iC) + (Str(t.iS) + (Str(t.kS) + rest))))
  }

  function CurvePreimage(t: Transcript, qC: Bytes32, qS: Bytes32, k: Bytes32): Bytes {
    PutTranscript(t, Str(qC) + (Str(qS) + Mpint(k)))
  }

  function Group14Preimage(t: Transcript, e: Bytes256, f: Bytes, k: Bytes256): Bytes {
    PutTranscript(t, Mpint(e) + (Mpint(f) + Mpint(k)))
  }

  function CurveHash(c: Suite, t: Transcript, qC: Bytes32, qS: Bytes32, k: Bytes32): Bytes32 {
    c.hash(CurvePreimage(t, qC, qS, k))
  }

  function Group14Hash(c: Suite, t: Transcript, e: Bytes256, f: Bytes, k: Bytes256): Bytes32 {
    c.hash(Group14Preimage(t, e, f, k))
  }

  lemma TranscriptUnique(t: Transcript, restT: Bytes, u: Transcript, restU: Bytes)
    requires Bounded(t) && Bounded(u)
    requires PutTranscript(t, restT) == PutTranscript(u, restU)
    ensures t == u && restT == restU
  {
    hide Str;
    StrUnique(t.vC, Str(t.vS) + (Str(t.iC) + (Str(t.iS) + (Str(t.kS) + restT))),
              u.vC, Str(u.vS) + (Str(u.iC) + (Str(u.iS) + (Str(u.kS) + restU))));
    StrUnique(t.vS, Str(t.iC) + (Str(t.iS) + (Str(t.kS) + restT)),
              u.vS, Str(u.iC) + (Str(u.iS) + (Str(u.kS) + restU)));
    StrUnique(t.iC, Str(t.iS) + (Str(t.kS) + restT), u.iC, Str(u.iS) + (Str(u.kS) + restU));
    StrUnique(t.iS, Str(t.kS) + restT, u.iS, Str(u.kS) + restU);
    StrUnique(t.kS, restT, u.kS, restU);
  }

  /** Equal preimages of the curve25519 exchange hash have equal fields. */
  lemma CurvePreimageUnique(
      t: Transcript, qC: Bytes32, qS: Bytes32, k: Bytes32,
      t': Transcript, qC': Bytes32, qS': Bytes32, k': Bytes32)
    requires Bounded(t) && Bounded(t')
    requires CurvePreimage(t, qC, qS, k) == CurvePreimage(t', qC', qS', k')
    ensures t == t' && qC == qC' && qS == qS' && k == k'
  {
    hide Str, Mpint, PutTranscript;
    TranscriptUnique(t, Str(qC) + (Str(qS) + Mpint(k)), t', Str(qC') + (Str(qS') + Mpint(k')));
    StrUnique(qC, Str(qS) + Mpint(k), qC', Str(qS') + Mpint(k'));
    StrUnique(qS, Mpint(k), qS', Mpint(k'));
    assert Mpint(k) + [] == Mpint(k) && Mpint(k') + [] == Mpint(k');
    MpintUnique(k, [], k', []);
  }

  /** Equal preimages of the group14 exchange hash have equal fields; the peer's f, whose raw bytes
      are re-encoded, is determined as a number. */
  lemma Group14PreimageUnique(
      t: Transcript, e: Bytes256, f: Bytes, k: Bytes256,
      t': Transcript, e': Bytes256, f': Bytes, k': Bytes256)
    requires Bounded(t) && Bounded(t') && |f| < U32_LIMIT - 1 && |f'| < U32_LIMIT - 1
    requires Group14Preimage(t, e, f, k) == Group14Preimage(t', e', f', k')
    ensures t == t' && e == e' && NatOf(f) == NatOf(f') && k == k'
  {
    hide Mpint, PutTranscript;
    TranscriptUnique(t, Mpint(e) + (Mpint(f) + Mpint(k)), t', Mpint(e') + (Mpint(f') + Mpint(k')));
    MpintUnique(e, Mpint(f) + Mpint(k), e', Mpint(f') + Mpint(k'));
    MpintUnique(f, Mpint(k), f', Mpint(k'));
    assert Mpint(k) + [] == Mpint(k) && Mpint(k') + [] == Mpint(k');
    MpintUnique(k, [], k', []);
  }
}
