/**
  The other end of the packet layer, as the documents that define the ciphers describe it: section 6 of
  RFC 4253 for packets in the clear, PROTOCOL.chacha20poly1305 of OpenSSH, and RFC 5647 for AES-GCM. It
  keeps its keys and counters apart, lays out its own nonces, and shares nothing with `Packet` but the
  primitives. Whatever either end seals, the other opens, packet after packet.
 */
module PacketPeer {
  import opened Prelude
  import opened Primitives
  import opened Packet
  import opened PacketStream
  import Nonces
  import Wire

  // ---- numbers ---------------------------------------------------------------------------------------

  /** Four bytes, most significant first. */
  function Four(n: U32): Bytes4 { [n / 0x100_0000, n / 0x1_0000 % 0x100, n / 0x100 % 0x100, n % 0x100] }

  function Value(b: Bytes4): nat {
    b[0] as int * 0x100_0000 + b[1] as int * 0x1_0000 + b[2] as int * 0x100 + b[3] as int
  }

  /** Eight bytes, most significant first. */
  function Eight(n: nat): Bytes
    requires n < U64_LIMIT
  {
    Four(n / 0x1_0000_0000) + Four(n % 0x1_0000_0000)
  }

  // ---- the peer --------------------------------------------------------------------------------------

  /** OpenSSH: `main` seals bodies and `header` hides length fields (K_2 and K_1 of the document), and the
      nonce is the packet's sequence number. AES-GCM: the nonce is four fixed bytes and a counter. */
  datatype Peer =
    | InTheClear
    | OpenSsh(main: Bytes, header: Bytes, seqNo: U32)
    | Gcm(key: Bytes, salt: Bytes, counter: nat)

  predicate Ready(p: Peer) { p.Gcm? ==> p.counter < U64_LIMIT }

  function Next(p: Peer): Peer {
    match p
    case InTheClear => p
    case OpenSsh(main, header, seqNo) => OpenSsh(main, header, if seqNo == U32_MAX then 0 else seqNo + 1)
    case Gcm(key, salt, counter) => Gcm(key, salt, if counter + 1 == U64_LIMIT then 0 else counter + 1)
  }

  function Nonce(p: Peer): Bytes
    requires Ready(p)
  {
    match p
    case InTheClear => []
    case OpenSsh(_, _, seqNo) => [0, 0, 0, 0] + Four(seqNo)
    case Gcm(_, salt, counter) => salt + Eight(counter)
  }

  /** The length field, hidden or revealed. */
  function Header(c: Suite, p: Peer, b: Bytes4): Bytes4
    requires Ready(p)
  {
    if p.OpenSsh? then c.lengthMask(p.header, Nonce(p), b) else b
  }

  function TagSize(p: Peer): nat { if p.InTheClear? then 0 else 16 }

  /** At least four bytes of padding; with the length field where that is in the clear and unauthenticated,
      and otherwise without it, the packet fills whole blocks. */
  predicate Padded(p: Peer, payload: Bytes, padding: Bytes) {
    && 4 <= |padding| < 0x100
    && match p
       case InTheClear => (4 + 1 + |payload| + |padding|) % 8 == 0
       case OpenSsh(_, _, _) => (1 + |payload| + |padding|) % 8 == 0
       case Gcm(_, _, _) => (1 + |payload| + |padding|) % 16 == 0
  }

  function Seals(c: Suite, p: Peer, payload: Bytes, padding: Bytes): Bytes
    requires Ready(p) && |padding| < 0x100 && 1 + |payload| + |padding| <= MAX_PACKET_LENGTH
  {
    var body := [|padding|] + payload + padding;
    var header := Header(c, p, Four(|body|));
    match p
    case InTheClear => header + body
    case OpenSsh(main, _, _) =>
      header
      + c.encrypt(ChaCha20Poly1305, main, Nonce(p), header, body)
      + c.tag(ChaCha20Poly1305, main, Nonce(p), header, body)
    case Gcm(key, _, _) =>
      header
      + c.encrypt(Aes256Gcm, key, Nonce(p), header, body)
      + c.tag(Aes256Gcm, key, Nonce(p), header, body)
  }

  /** The body of one whole packet, if it is one. */
  function BodyOf(c: Suite, p: Peer, wire: Bytes): Option<Bytes>
    requires Ready(p)
  {
    if |wire| < 4 then None
    else
      var n := Value(Header(c, p, wire[..4]));
      if n > MAX_PACKET_LENGTH || |wire| != 4 + n + TagSize(p) then None
      else
        match p
        case InTheClear => Some(wire[4..])
        case OpenSsh(main, _, _) => c.decrypt(ChaCha20Poly1305, main, Nonce(p), wire[..4], wire[4..4 + n], wire[4 + n..])
        case Gcm(key, _, _) => c.decrypt(Aes256Gcm, key, Nonce(p), wire[..4], wire[4..4 + n], wire[4 + n..])
  }

  /** The peer takes `wire` for a packet that carries `payload`. */
  predicate Opens(c: Suite, p: Peer, wire: Bytes, payload: Bytes)
    requires Ready(p)
  {
    match BodyOf(c, p, wire)
    case None => false
    case Some(body) =>
      && |body| > 0 && body[0] < |body|
      && payload == body[1..|body| - body[0]]
      && Padded(p, payload, body[|body| - body[0]..])
  }

  // ---- two ends of one direction -----------------------------------------------------------------------

  /** Both ends have the same keys and counters: the first half of ChaCha20 material is the peer's main key
      and the second its header key, and a GCM nonce is salt and counter. */
  predicate Shares(k: Option<Cipher>, p: Peer) {
    match k
    case None => p.InTheClear?
    case Some(key) =>
      match key.alg
      case ChaCha20Poly1305 =>
        && p.OpenSsh? && |p.main| == 32 && |p.header| == 32
        && key.key == p.main + p.header && key.seqNo == p.seqNo
      case Aes256Gcm =>
        && p.Gcm? && |p.salt| == 4 && p.counter < U64_LIMIT
        && key.key == p.key && key.nonce == p.salt + Eight(p.counter)
  }

  lemma FourIsU32Be(n: U32, b: Bytes4)
    ensures Wire.U32Be(n) == Four(n) && Wire.U32Of(b) == Value(b)
  {
  }

  lemma EightIsU64Be(n: nat)
    requires n < U64_LIMIT
    ensures U64Be(n) == Eight(n)
  {
    hide Four, Wire.U32Be;
    FourIsU32Be(n / U32_LIMIT, [0, 0, 0, 0]);
    FourIsU32Be(n % U32_LIMIT, [0, 0, 0, 0]);
  }

  lemma NoncesAgree(k: Cipher, p: Peer)
    requires Shares(Some(k), p)
    ensures BodyNonce(k) == Nonce(p)
  {
    hide Four, Eight, Wire.U32Be;
    FourIsU32Be(k.seqNo, [0, 0, 0, 0]);
  }

  lemma HeadersAgree(c: Suite, k: Option<Cipher>, p: Peer, b: Bytes4)
    requires Shares(k, p)
    ensures ClearLength(c, k, b) == Value(Header(c, p, b))
    ensures k.Some? ==> MaskLength(c, k.value, b) == Header(c, p, b)
  {
    hide Nonce, BodyNonce, Value, Wire.U32Of, Eight;
    FourIsU32Be(0, Header(c, p, b));
    if k.Some? && p.OpenSsh? {
      NoncesAgree(k.value, p);
      MasksAgree(c, k.value, p, b);
    }
  }

  lemma MasksAgree(c: Suite, k: Cipher, p: Peer, b: Bytes4)
    requires Shares(Some(k), p) && p.OpenSsh?
    ensures MaskLength(c, k, b) == Header(c, p, b)
  {
    hide Four, Wire.U32Be;
    FourIsU32Be(k.seqNo, [0, 0, 0, 0]);
    assert k.key[32..] == p.header;
  }

  lemma BodyKeysAgree(k: Cipher, p: Peer)
    requires Shares(Some(k), p)
    ensures BodyKey(k) == if p.OpenSsh? then p.main else p.key
  {
    if p.OpenSsh? { assert k.key[..32] == p.main; }
  }

  /** The two ends stay together. */
  lemma BothMoveOn(k: Option<Cipher>, p: Peer)
    requires Shares(k, p)
    ensures Shares(AdvanceOpt(k), Next(p))
  {
    hide Four, U64Be, U64Of;
    if k.Some? && p.Gcm? {
      var n := if p.counter + 1 == U64_LIMIT then 0 else p.counter + 1;
      EightIsU64Be(p.counter);
      EightIsU64Be(n);
      Nonces.U64RoundTrip(p.counter);
      assert k.value.nonce[..4] == p.salt && k.value.nonce[4..] == Eight(p.counter);
    }
  }

  /** What the code writes is what the peer would write. */
  lemma SealsAgree(c: Suite, k: Option<Cipher>, p: Peer, payload: Bytes, padding: Bytes)
    requires Shares(k, p) && |padding| < 0x100 && 1 + |payload| + |padding| <= MAX_PACKET_LENGTH
    ensures SealWire(c, k, payload, padding) == Seals(c, p, payload, padding)
  {
    hide Shares, Nonce, BodyNonce, MaskLength, Header, BodyKey, Four, Wire.U32Be;
    var body := Body(payload, padding);
    FourIsU32Be(|body|, [0, 0, 0, 0]);
    SameKind(k, p);
    if k.None? {
      ClearHeader(c, p, Four(|body|));
    } else {
      NoncesAgree(k.value, p);
      BodyKeysAgree(k.value, p);
      HeadersAgree(c, k, p, LengthBytes(body));
    }
  }

  lemma SameKind(k: Option<Cipher>, p: Peer)
    requires Shares(k, p)
    ensures Ready(p)
    ensures k.None? <==> p.InTheClear?
    ensures k.Some? ==> (k.value.alg.ChaCha20Poly1305? <==> p.OpenSsh?) && (k.value.alg.Aes256Gcm? <==> p.Gcm?)
    ensures TagLen(k) == TagSize(p)
  {
  }

  lemma ClearHeader(c: Suite, p: Peer, b: Bytes4)
    requires p.InTheClear?
    ensures Header(c, p, b) == b
  {
  }

  // ---- one packet --------------------------------------------------------------------------------------

  /** The peer opens every packet that the code seals, and finds nothing to object to. */
  lemma PeerOpensSealed(c: Suite, k: Option<Cipher>, p: Peer, payload: Bytes, padding: Bytes)
    requires LawfulAead(c) && Shares(k, p) && Fits(k, payload) && |padding| == PadFor(k, |payload|)
    ensures Ready(p) && Opens(c, p, SealWire(c, k, payload, padding), payload)
  {
    hide Shares, Nonce, BodyNonce, MaskLength, Header, BodyKey, Four, Value, LawfulAead, SealWire, ClearLength, Padded,
         PadFor;
    SameKind(k, p);
    PadForIsPadded(k, p, payload, padding);
    var body := Body(payload, padding);
    var wire := SealWire(c, k, payload, padding);
    PeekSealed(c, k, payload, padding);
    SealedLength(c, k, payload, padding);
    HeadersAgree(c, k, p, wire[..4]);
    BodyIsThere(c, k, p, payload, padding);
    assert body[1..|body| - body[0]] == payload;
    assert body[|body| - body[0]..] == padding;
  }

  lemma PadForIsPadded(k: Option<Cipher>, p: Peer, payload: Bytes, padding: Bytes)
    requires Shares(k, p) && Fits(k, payload) && |padding| == PadFor(k, |payload|)
    ensures |padding| < 0x100 && Padded(p, payload, padding) && 1 + |payload| + |padding| <= MAX_PACKET_LENGTH
  {
    hide PadLen;
    match k
    case None => PadLenBounds(|payload|, 8, 4);
    case Some(key) => PadLenBounds(|payload|, BlockSize(key.alg), 0);
  }

  lemma BodyIsThere(c: Suite, k: Option<Cipher>, p: Peer, payload: Bytes, padding: Bytes)
    requires LawfulAead(c) && Shares(k, p) && |padding| < 0x100 && 1 + |payload| + |padding| <= MAX_PACKET_LENGTH
    requires Ready(p)
    ensures BodyOf(c, p, SealWire(c, k, payload, padding)) == Some(Body(payload, padding))
  {
    hide Shares, Nonce, BodyNonce, MaskLength, Header, BodyKey, Four, Value, ClearLength;
    SameKind(k, p);
    var body := Body(payload, padding);
    var wire := SealWire(c, k, payload, padding);
    PeekSealed(c, k, payload, padding);
    SealedLength(c, k, payload, padding);
    HeadersAgree(c, k, p, wire[..4]);
    SealsAgree(c, k, p, payload, padding);
    var header := Header(c, p, Four(|body|));
    assert wire[..4] == header;
    assert wire[4..4 + |body|] + wire[4 + |body|..] == wire[4..];
    if p.OpenSsh? {
      assert wire[4..4 + |body|] == c.encrypt(ChaCha20Poly1305, p.main, Nonce(p), header, body);
      assert wire[4 + |body|..] == c.tag(ChaCha20Poly1305, p.main, Nonce(p), header, body);
    } else if p.Gcm? {
      assert wire[4..4 + |body|] == c.encrypt(Aes256Gcm, p.key, Nonce(p), header, body);
      assert wire[4 + |body|..] == c.tag(Aes256Gcm, p.key, Nonce(p), header, body);
    }
  }

  /** The code opens every packet that the peer seals, with whatever padding. */
  lemma OpensPeerSealed(c: Suite, k: Option<Cipher>, p: Peer, payload: Bytes, padding: Bytes)
    requires LawfulAead(c) && Shares(k, p) && |padding| < 0x100 && 1 + |payload| + |padding| <= MAX_PACKET_LENGTH
    ensures Ready(p)
    ensures var wire := Seals(c, p, payload, padding);
            && |wire| >= 4
            && PeekTotal(c, k, wire[..4]) == Ok(|wire|)
            && OpenWire(c, k, wire) == (AdvanceOpt(k), Ok(payload))
  {
    hide Shares, SealWire, OpenWire, PeekTotal, AdvanceOpt, Seals, LawfulAead;
    SameKind(k, p);
    SealsAgree(c, k, p, payload, padding);
    PeekSealed(c, k, payload, padding);
    OpenSealed(c, k, payload, padding);
  }

  // ---- whole streams -------------------------------------------------------------------------------------

  /** The size of the packet that begins with these bytes. */
  function SizeOf(c: Suite, p: Peer, first: Bytes4): nat
    requires Ready(p)
  {
    4 + Value(Header(c, p, first)) + TagSize(p)
  }

  /** The peer reads these bytes, to the last one, as packets that carry these payloads. */
  predicate ReadsAll(c: Suite, p: Peer, buf: Bytes, payloads: seq<Bytes>)
    requires Ready(p)
    decreases |payloads|
  {
    if payloads == [] then buf == []
    else
      && |buf| >= 4
      && var n := SizeOf(c, p, buf[..4]);
         n <= |buf| && Opens(c, p, buf[..n], payloads[0]) && ReadsAll(c, Next(p), buf[n..], payloads[1..])
  }

  lemma SizeOfSealed(c: Suite, k: Option<Cipher>, p: Peer, payload: Bytes, padding: Bytes)
    requires LawfulAead(c) && Shares(k, p) && |padding| < 0x100 && 1 + |payload| + |padding| <= MAX_PACKET_LENGTH
    ensures var wire := SealWire(c, k, payload, padding); |wire| >= 4 && Ready(p) && SizeOf(c, p, wire[..4]) == |wire|
  {
    hide Shares, SealWire, LawfulAead, Header, Value, ClearLength;
    SameKind(k, p);
    PeekSealed(c, k, payload, padding);
    SealedLength(c, k, payload, padding);
    HeadersAgree(c, k, p, SealWire(c, k, payload, padding)[..4]);
  }

  /** Everything the code sends in one direction, the peer reads: every list of payloads that fit. */
  lemma {:induction false} PeerReadsStream(c: Suite, k: Option<Cipher>, p: Peer, payloads: seq<Bytes>, at: nat)
    requires LawfulAead(c) && Shares(k, p)
    requires forall i :: 0 <= i < |payloads| ==> Fits(k, payloads[i])
    ensures Ready(p) && ReadsAll(c, p, SealAll(c, k, payloads, at), payloads)
    decreases |payloads|
  {
    hide Shares, SealWire, LawfulAead, PadFor, Opens, SizeOf, Fits, AdvanceOpt, Next;
    SameKind(k, p);
    if payloads != [] {
      var pad := PadFor(k, |payloads[0]|);
      var padding := Draw(c, at, pad);
      var wire := SealWire(c, k, payloads[0], padding);
      var rest := SealAll(c, AdvanceOpt(k), payloads[1..], at + pad);
      FitsAtOnce(k, payloads[0], padding);
      PeerOpensSealed(c, k, p, payloads[0], padding);
      SizeOfSealed(c, k, p, payloads[0], padding);
      assert (wire + rest)[..4] == wire[..4];
      assert (wire + rest)[..|wire|] == wire && (wire + rest)[|wire|..] == rest;
      BothMoveOn(k, p);
      forall i | 0 <= i < |payloads[1..]| ensures Fits(AdvanceOpt(k), payloads[1..][i]) { FitsAdvanced(k, payloads[i + 1]); }
      PeerReadsStream(c, AdvanceOpt(k), Next(p), payloads[1..], at + pad);
    }
  }

  lemma FitsAtOnce(k: Option<Cipher>, payload: Bytes, padding: Bytes)
    requires Fits(k, payload) && |padding| == PadFor(k, |payload|)
    ensures |padding| < 0x100 && 1 + |payload| + |padding| <= MAX_PACKET_LENGTH
  {
  }

  /** A payload and the padding that its sender chose for it. */
  datatype Item = Item(payload: Bytes, padding: Bytes)

  predicate Plausible(i: Item) { |i.padding| < 0x100 && 1 + |i.payload| + |i.padding| <= MAX_PACKET_LENGTH }

  function SealsAll(c: Suite, p: Peer, items: seq<Item>): Bytes
    requires Ready(p) && forall i :: 0 <= i < |items| ==> Plausible(items[i])
    decreases |items|
  {
    if items == [] then []
    else
      assert Plausible(items[0]);
      Seals(c, p, items[0].payload, items[0].padding) + SealsAll(c, Next(p), items[1..])
  }

  function PayloadsOf(items: seq<Item>): seq<Bytes> {
    if items == [] then [] else [items[0].payload] + PayloadsOf(items[1..])
  }

  /** And everything the peer sends, with padding of its own choice and in any chunks, the code receives. */
  lemma {:induction false} ReceivesPeerStream(c: Suite, k: Option<Cipher>, p: Peer, items: seq<Item>)
    requires LawfulAead(c) && Shares(k, p) && Ready(p)
    requires forall i :: 0 <= i < |items| ==> Plausible(items[i])
    ensures Receive(c, k, SealsAll(c, p, items)) == Inbox(PayloadsOf(items), AdvanceOptBy(k, |items|), [], false)
    decreases |items|
  {
    hide Shares, Seals, LawfulAead, AdvanceOpt, NextFrame, Next;
    if items == [] {
      FrameOfNothing(c, k);
    } else {
      assert Plausible(items[0]);
      BothMoveOn(k, p);
      SameKind(AdvanceOpt(k), Next(p));
      var wire := Seals(c, p, items[0].payload, items[0].padding);
      var rest := SealsAll(c, Next(p), items[1..]);
      FrameOfPeers(c, k, p, items[0], rest);
      assert (wire + rest)[|wire|..] == rest;
      ReceivesPeerStream(c, AdvanceOpt(k), Next(p), items[1..]);
    }
  }

  lemma FrameOfPeers(c: Suite, k: Option<Cipher>, p: Peer, i: Item, rest: Bytes)
    requires LawfulAead(c) && Shares(k, p) && Ready(p) && Plausible(i)
    ensures var wire := Seals(c, p, i.payload, i.padding);
            NextFrame(c, k, wire + rest) == Got(|wire|, AdvanceOpt(k), i.payload)
  {
    hide Shares, SealWire, Seals, NextFrame, AdvanceOpt, LawfulAead;
    SealsAgree(c, k, p, i.payload, i.padding);
    FrameOfSealed(c, k, i.payload, i.padding, rest);
  }

  /** The same, cut into any chunks. */
  lemma ReceivesPeerChunks(c: Suite, k: Option<Cipher>, p: Peer, items: seq<Item>, chunks: seq<Bytes>)
    requires LawfulAead(c) && Shares(k, p) && Ready(p)
    requires forall i :: 0 <= i < |items| ==> Plausible(items[i])
    requires Flatten(chunks) == SealsAll(c, p, items)
    ensures FeedAll(c, Inbox([], k, [], false), chunks) == Inbox(PayloadsOf(items), AdvanceOptBy(k, |items|), [], false)
  {
    hide Shares, Receive, LawfulAead, SealsAll, Next;
    ReceiveChunks(c, k, [], chunks);
    NothingReceived(c, k);
    assert [] + Flatten(chunks) == Flatten(chunks);
    ReceivesPeerStream(c, k, p, items);
  }

  lemma NothingReceived(c: Suite, k: Option<Cipher>)
    ensures Receive(c, k, []) == Inbox([], k, [], false)
  {
    FrameOfNothing(c, k);
  }
}
