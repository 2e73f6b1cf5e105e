/** `PacketCipher` and plaintext framing as ssh-core/src/transport/packet.rs runs them, updating the
    sequence number and the GCM nonce in place. */
module PacketCipher {
  import opened Prelude
  import opened Primitives
  import opened Wire
  import opened Packet
  import opened PacketStream
  import Peer = PacketPeer

  /** A `SecureRandom` handle: how far into the suite's random stream it has read. */
  class Rng {
    const suite: Suite
    var drawn: nat

    constructor (suite: Suite)
      ensures this.suite == suite && drawn == 0
    {
      this.suite := suite;
      drawn := 0;
    }

    method Fill(n: nat) returns (b: Bytes)
      modifies this
      ensures b == Draw(suite, old(drawn), n) && drawn == old(drawn) + n
    {
      b := Draw(suite, drawn, n);
      drawn := drawn + n;
    }
  }

  // ---- padding -----------------------------------------------------------------------------------

  /** `pad_payload_with_prefix`. */
  method PadPayload(payload: Bytes, blockSize: nat, prefixLen: nat, rng: Rng) returns (body: Bytes)
    requires blockSize == 8 || blockSize == 16
    modifies rng
    ensures var pad := PadLen(|payload|, blockSize, prefixLen);
            && pad < 0x100
            && rng.drawn == old(rng.drawn) + pad
            && body == Body(payload, Draw(rng.suite, old(rng.drawn), pad))
            && (prefixLen + |body|) % blockSize == 0
  {
    var unpaddedLen := 1 + |payload|;
    var paddingLen := blockSize - (prefixLen + unpaddedLen) % blockSize;
    if paddingLen < MIN_PADDING {
      paddingLen := paddingLen + blockSize;
    }
    PadLenBounds(|payload|, blockSize, prefixLen);
    body := [paddingLen];
    body := body + payload;
    var padding := rng.Fill(paddingLen);
    body := body + padding;
  }

  /** `strip_padding`. */
  method StripPaddingOf(body: Bytes) returns (r: Result<Bytes>)
    ensures r == StripPadding(body) && (r.Err? ==> r.error == Framing)
    ensures forall payload: Bytes, padding: Bytes | |padding| < 0x100 && body == Body(payload, padding) :: r == Ok(payload)
  {
    forall payload: Bytes, padding: Bytes | |padding| < 0x100 && body == Body(payload, padding)
      ensures StripPadding(body) == Ok(payload)
    {
      StripUndoesPad(payload, padding);
    }
    if body == [] {
      return Err(Framing);
    }
    var paddingLen := body[0];
    if 1 + paddingLen > |body| {
      return Err(Framing);
    }
    var b := body[..|body| - paddingLen];
    r := Ok(b[1..]);
  }

  // ---- cipher `none` -------------------------------------------------------------------------------

  method SealPlaintext(payload: Bytes, rng: Rng) returns (wire: Bytes)
    modifies rng
    ensures rng.drawn == old(rng.drawn) + PadFor(None, |payload|)
    ensures wire == SealWire(rng.suite, None, payload, Draw(rng.suite, old(rng.drawn), PadFor(None, |payload|)))
  {
    var body := PadPayload(payload, 8, 4, rng);
    wire := U32Be(|body| % U32_LIMIT);
    wire := wire + body;
  }

  method PeekPlaintextLength(c: Suite, first4: Bytes4) returns (r: Result<nat>)
    ensures r == PeekTotal(c, None, first4)
  {
    var packetLength: nat := U32Of(first4);
    if packetLength == 0 || packetLength > MAX_PACKET_LENGTH {
      return Err(Framing);
    }
    r := Ok(4 + packetLength);
  }

  /** `open_plaintext` slices the length field off without a check, so its caller owes four bytes. */
  method OpenPlaintext(c: Suite, wire: Bytes) returns (r: Result<Bytes>)
    requires |wire| >= 4
    ensures OpenWire(c, None, wire) == (None, r)
  {
    var packetLength: nat := U32Of(wire[..4]);
    if |wire| != 4 + packetLength {
      return Err(Framing);
    }
    r := StripPaddingOf(wire[4..]);
  }

  // ---- the GCM invocation counter --------------------------------------------------------------------

  /** `increment_gcm_nonce`, in place. */
  method IncrementGcmNonce(nonce: array<Byte>)
    requires nonce.Length == 12
    modifies nonce
    ensures nonce[..] == NextGcmNonce(old(nonce[..]))
  {
    ghost var was := nonce[..];
    var counter := U64Of(nonce[4..]);
    var bytes := U64Be((counter + 1) % U64_LIMIT);
    assert was[4..] == nonce[4..];
    for i := 0 to 8
      invariant nonce[..4] == was[..4]
      invariant forall j :: 0 <= j < i ==> nonce[4 + j] == bytes[j]
    {
      nonce[4 + i] := bytes[i];
    }
    assert nonce[4..] == bytes;
    assert nonce[..] == nonce[..4] + nonce[4..];
  }

  // ---- one direction -----------------------------------------------------------------------------------

  class PacketCipher {
    const suite: Suite
    const alg: Alg
    const key: Bytes
    const nonce: array<Byte>
    var seqNo: U32

    ghost predicate Valid()
      reads this, nonce
    {
      |key| == KeyLen(alg) && nonce.Length == IvLen(alg)
    }

    ghost function State(): Cipher
      reads this, nonce
      requires Valid()
    {
      CipherState(alg, key, nonce[..], seqNo)
    }

    /** `with_initial_seq` asserts the key and IV lengths; a ChaCha20 cipher ignores its IV. */
    constructor WithInitialSeq(suite: Suite, alg: Alg, encKey: Bytes, iv: Bytes, initialSeq: U32)
      requires |encKey| == KeyLen(alg) && (alg.Aes256Gcm? ==> |iv| == IvLen(alg))
      ensures Valid() && fresh(nonce) && this.suite == suite
      ensures State() == CipherState(alg, encKey, if alg.Aes256Gcm? then iv else [], initialSeq)
    {
      this.suite := suite;
      this.alg := alg;
      key := encKey;
      var start := if alg.Aes256Gcm? then iv else [];
      nonce := new Byte[|start|](i requires 0 <= i < |start| => start[i]);
      seqNo := initialSeq;
      new;
      assert nonce[..] == start;
    }

    /** Whatever this cipher seals, a peer with the same keys opens; and the other way round. */
    lemma PeerWillOpen(k: Cipher, payload: Bytes, padding: Bytes)
      requires |padding| == PadFor(Some(k), |payload|)
      ensures LawfulAead(suite) && Fits(Some(k), payload) ==>
                forall p | Peer.Shares(Some(k), p) ::
                  Peer.Ready(p) && Peer.Opens(suite, p, SealWire(suite, Some(k), payload, padding), payload)
    {
      hide LawfulAead, Fits, PadFor, SealWire, Peer.Opens, Peer.Shares, Peer.Ready;
      forall p | LawfulAead(suite) && Fits(Some(k), payload) && Peer.Shares(Some(k), p)
        ensures Peer.Ready(p) && Peer.Opens(suite, p, SealWire(suite, Some(k), payload, padding), payload)
      {
        Peer.PeerOpensSealed(suite, Some(k), p, payload, padding);
      }
    }

    /** A packet that a peer with the same keys sealed. */
    ghost predicate PeerSealed(k: Cipher, p: Peer.Peer, i: Peer.Item, wire: Bytes) {
      && Peer.Shares(Some(k), p) && Peer.Ready(p) && Peer.Plausible(i)
      && wire == Peer.Seals(suite, p, i.payload, i.padding)
    }

    lemma OpensPeer(k: Cipher, wire: Bytes)
      ensures LawfulAead(suite) ==>
                forall p, i | PeerSealed(k, p, i, wire) ::
                  && OpenWire(suite, Some(k), wire) == (Some(Advance(k)), Ok(i.payload))
                  && Peer.Shares(Some(Advance(k)), Peer.Next(p))
    {
      hide LawfulAead, OpenWire, Advance, Peer.Shares, Peer.Seals, Peer.Next;
      forall p, i | LawfulAead(suite) && PeerSealed(k, p, i, wire)
        ensures OpenWire(suite, Some(k), wire) == (Some(Advance(k)), Ok(i.payload))
        ensures Peer.Shares(Some(Advance(k)), Peer.Next(p))
      {
        Peer.OpensPeerSealed(suite, Some(k), p, i.payload, i.padding);
        Peer.BothMoveOn(Some(k), p);
      }
    }

    /** Frames and encrypts one packet under the present state, and moves the state on. */
    method Seal(payload: Bytes, rng: Rng) returns (wire: Bytes)
      requires Valid() && rng.suite == suite
      modifies this, nonce, rng
      ensures Valid() && State() == Advance(old(State()))
      ensures var pad := PadFor(Some(old(State())), |payload|);
              && rng.drawn == old(rng.drawn) + pad
              && wire == SealWire(suite, Some(old(State())), payload, Draw(suite, old(rng.drawn), pad))
      ensures LawfulAead(suite) && Fits(Some(old(State())), payload) ==>
                forall p | Peer.Shares(Some(old(State())), p) :: Peer.Ready(p) && Peer.Opens(suite, p, wire, payload)
    {
      ghost var k := State();
      ghost var padding := Draw(suite, rng.drawn, PadFor(Some(k), |payload|));
      PeerWillOpen(k, payload, padding);
      var body := PadPayload(payload, BlockSize(alg), 0, rng);
      var sequence := seqNo;
      seqNo := (seqNo + 1) % U32_LIMIT;
      match alg
      case ChaCha20Poly1305 =>
        var bodyNonce := ChaChaNonce(sequence);
        var lenBytes := suite.lengthMask(key[32..], bodyNonce, U32Be(|body| % U32_LIMIT));
        wire := lenBytes + suite.encrypt(alg, key[..32], bodyNonce, lenBytes, body)
                + suite.tag(alg, key[..32], bodyNonce, lenBytes, body);
      case Aes256Gcm =>
        var thisNonce := nonce[..];
        var lenBytes := U32Be(|body| % U32_LIMIT);
        wire := lenBytes + suite.encrypt(alg, key, thisNonce, lenBytes, body) + suite.tag(alg, key, thisNonce, lenBytes, body);
        IncrementGcmNonce(nonce);
    }

    method PeekTotalLength(first4: Bytes4) returns (r: Result<nat>)
      requires Valid()
      ensures r == PeekTotal(suite, Some(State()), first4)
    {
      var packetLength: nat :=
        if alg.ChaCha20Poly1305? then U32Of(suite.lengthMask(key[32..], ChaChaNonce(seqNo), first4)) else U32Of(first4);
      if packetLength == 0 || packetLength > MAX_PACKET_LENGTH {
        return Err(Framing);
      }
      r := Ok(4 + packetLength + TAG_LEN);
    }

    /** Decrypts one whole packet; the state moves on exactly when the tag was right. */
    method Open(wire: Bytes) returns (r: Result<Bytes>)
      requires Valid() && |wire| >= 4
      modifies this, nonce
      ensures Valid() && OpenWire(suite, Some(old(State())), wire) == (Some(State()), r)
      ensures (r.Ok? ==> State() == Advance(old(State()))) && (r == Err(Mac) ==> State() == old(State()))
      ensures LawfulAead(suite) ==>
                forall p, i | PeerSealed(old(State()), p, i, wire) ::
                  r == Ok(i.payload) && Peer.Shares(Some(State()), Peer.Next(p))
    {
      hide StripPadding, NextGcmNonce, ChaChaNonce, U32Of, PeerSealed, LawfulAead, Peer.Shares, Peer.Next;
      ghost var k := State();
      OpensPeer(k, wire);
      var encLen := wire[..4];
      var packetLength: nat :=
        if alg.ChaCha20Poly1305? then U32Of(suite.lengthMask(key[32..], ChaChaNonce(seqNo), encLen)) else U32Of(encLen);
      if |wire| != 4 + packetLength + TAG_LEN {
        return Err(Framing);
      }
      var body := wire[4..4 + packetLength];
      var tag := wire[4 + packetLength..];
      var plaintext: Option<Bytes>;
      match alg {
        case ChaCha20Poly1305 =>
          plaintext := suite.decrypt(alg, key[..32], ChaChaNonce(seqNo), encLen, body, tag);
        case Aes256Gcm =>
          var thisNonce := nonce[..];
          plaintext := suite.decrypt(alg, key, thisNonce, encLen, body, tag);
          if plaintext.Some? {
            IncrementGcmNonce(nonce);
          }
      }
      match plaintext
      case None =>
        r := Err(Mac);
      case Some(text) =>
        seqNo := (seqNo + 1) % U32_LIMIT;
        r := StripPaddingOf(text);
    }
  }
}
