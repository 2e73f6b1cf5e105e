/** Streams of sealed packets: what the receiving loop makes of them, in any chunks. */
module PacketStream {
  import opened Prelude
  import opened Primitives
  import opened Wire
  import opened Packet

  function AdvanceOpt(k: Option<Cipher>): Option<Cipher> {
    match k case None => None case Some(key) => Some(Advance(key))
  }

  /** Padding length under cipher `none` (aligned with the length field) or an AEAD (without it). */
  function PadFor(k: Option<Cipher>, n: nat): (pad: nat)
    ensures MIN_PADDING <= pad <= 19
  {
    match k
    case None => PadLenBounds(n, 8, 4); PlainPadLen(n)
    case Some(key) => PadLenBounds(n, BlockSize(key.alg), 0); CipherPadLen(key, n)
  }

  function SealWire(c: Suite, k: Option<Cipher>, payload: Bytes, padding: Bytes): Bytes
    requires |padding| < 0x100
  {
    match k case None => PlainWire(payload, padding) case Some(key) => CipherWire(c, key, payload, padding)
  }

  /** The padded body respects the receiver's limit. */
  predicate Fits(k: Option<Cipher>, payload: Bytes) {
    1 + |payload| + PadFor(k, |payload|) <= MAX_PACKET_LENGTH
  }

  lemma FitsAdvanced(k: Option<Cipher>, payload: Bytes)
    ensures Fits(AdvanceOpt(k), payload) == Fits(k, payload)
    ensures PadFor(AdvanceOpt(k), |payload|) == PadFor(k, |payload|)
  {
  }

  lemma FitsIsBody(k: Option<Cipher>, payload: Bytes, padding: Bytes)
    requires Fits(k, payload) && |padding| == PadFor(k, |payload|)
    ensures |padding| < 0x100 && |Body(payload, padding)| <= MAX_PACKET_LENGTH
  {
  }

  lemma LengthRoundTrip(body: Bytes)
    requires |body| < U32_LIMIT
    ensures U32Of(LengthBytes(body)) == |body|
  {
    U32RoundTrip(|body|, []);
  }

  lemma SealedLength(c: Suite, k: Option<Cipher>, payload: Bytes, padding: Bytes)
    requires LawfulAead(c) && |padding| < 0x100
    ensures |SealWire(c, k, payload, padding)| == 4 + |Body(payload, padding)| + TagLen(k)
  {
  }

  /** The length field of a sealed packet announces the packet's own size. */
  lemma PeekSealed(c: Suite, k: Option<Cipher>, payload: Bytes, padding: Bytes)
    requires LawfulAead(c) && |padding| < 0x100
    requires |Body(payload, padding)| <= MAX_PACKET_LENGTH
    ensures var wire := SealWire(c, k, payload, padding);
            && |wire| >= 4
            && ClearLength(c, k, wire[..4]) == |Body(payload, padding)|
            && PeekTotal(c, k, wire[..4]) == Ok(|wire|)
  {
    var body := Body(payload, padding);
    var wire := SealWire(c, k, payload, padding);
    SealedLength(c, k, payload, padding);
    LengthRoundTrip(body);
    match k
    case None => assert wire[..4] == LengthBytes(body);
    case Some(key) =>
      assert wire[..4] == MaskLength(c, key, LengthBytes(body));
      assert MaskLength(c, key, MaskLength(c, key, LengthBytes(body))) == LengthBytes(body);
  }

  /** Opening what an equal-state cipher sealed returns the payload and the next state. */
  lemma OpenSealed(c: Suite, k: Option<Cipher>, payload: Bytes, padding: Bytes)
    requires LawfulAead(c) && |padding| < 0x100
    requires |Body(payload, padding)| <= MAX_PACKET_LENGTH
    ensures OpenWire(c, k, SealWire(c, k, payload, padding)) == (AdvanceOpt(k), Ok(payload))
  {
    var body := Body(payload, padding);
    var wire := SealWire(c, k, payload, padding);
    PeekSealed(c, k, payload, padding);
    SealedLength(c, k, payload, padding);
    StripUndoesPad(payload, padding);
    match k
    case None => assert wire[4..] == body;
    case Some(key) =>
      var aad := MaskLength(c, key, LengthBytes(body));
      assert wire[..4] == aad;
      assert wire[4..4 + |body|] == c.encrypt(key.alg, BodyKey(key), BodyNonce(key), aad, body);
      assert wire[4 + |body|..] == c.tag(key.alg, BodyKey(key), BodyNonce(key), aad, body);
  }

  lemma FrameOfSealed(c: Suite, k: Option<Cipher>, payload: Bytes, padding: Bytes, rest: Bytes)
    requires LawfulAead(c) && |padding| < 0x100
    requires |Body(payload, padding)| <= MAX_PACKET_LENGTH
    ensures var wire := SealWire(c, k, payload, padding);
            NextFrame(c, k, wire + rest) == Got(|wire|, AdvanceOpt(k), payload)
  {
    var wire := SealWire(c, k, payload, padding);
    PeekSealed(c, k, payload, padding);
    OpenSealed(c, k, payload, padding);
    assert (wire + rest)[..4] == wire[..4];
    assert (wire + rest)[..|wire|] == wire;
  }

  /** A packet that has only partly arrived is waited for, never rejected. */
  lemma FrameOfPartial(c: Suite, k: Option<Cipher>, payload: Bytes, padding: Bytes, n: nat)
    requires LawfulAead(c) && |padding| < 0x100
    requires |Body(payload, padding)| <= MAX_PACKET_LENGTH
    requires n < |SealWire(c, k, payload, padding)|
    ensures NextFrame(c, k, SealWire(c, k, payload, padding)[..n]).Wait?
  {
    PeekSealed(c, k, payload, padding);
    if n >= 4 {
      assert SealWire(c, k, payload, padding)[..n][..4] == SealWire(c, k, payload, padding)[..4];
    }
  }

  lemma FrameOfNothing(c: Suite, k: Option<Cipher>)
    ensures NextFrame(c, k, []).Wait?
  {
  }

  // ---- whole streams ---------------------------------------------------------------------------

  /** What the receiving loop has delivered, where its cipher stands, and what it still buffers. */
  datatype Inbox = Inbox(payloads: seq<Bytes>, k: Option<Cipher>, rest: Bytes, failed: bool)

  function Receive(c: Suite, k: Option<Cipher>, buf: Bytes): Inbox
    decreases |buf|
  {
    match NextFrame(c, k, buf)
    case Wait => Inbox([], k, buf, false)
    case Reject => Inbox([], k, buf, true)
    case Torn(total, k', _) => Inbox([], k', buf[total..], true)
    case Got(total, k', payload) =>
      var tail := Receive(c, k', buf[total..]);
      tail.(payloads := [payload] + tail.payloads)
  }

  /** One `feed`: a failed receiver only buffers. */
  function FeedInbox(c: Suite, b: Inbox, chunk: Bytes): Inbox {
    if b.failed then b.(rest := b.rest + chunk)
    else
      var more := Receive(c, b.k, b.rest + chunk);
      more.(payloads := b.payloads + more.payloads)
  }

  function FeedAll(c: Suite, b: Inbox, chunks: seq<Bytes>): Inbox
    decreases |chunks|
  {
    if chunks == [] then b else FeedAll(c, FeedInbox(c, b, chunks[0]), chunks[1..])
  }

  lemma {:induction false} ReceiveSplit(c: Suite, k: Option<Cipher>, x: Bytes, y: Bytes)
    ensures FeedInbox(c, Receive(c, k, x), y) == Receive(c, k, x + y)
    decreases |x|
  {
    hide NextFrame;
    match NextFrame(c, k, x)
    case Wait =>
    case Reject => FrameIgnoresMore(c, k, x, y);
    case Torn(total, _, _) =>
      FrameIgnoresMore(c, k, x, y);
      assert (x + y)[total..] == x[total..] + y;
    case Got(total, k', payload) =>
      FrameIgnoresMore(c, k, x, y);
      assert (x + y)[total..] == x[total..] + y;
      ReceiveSplit(c, k', x[total..], y);
      var head := Receive(c, k', x[total..]);
      if !head.failed {
        var more := Receive(c, head.k, head.rest + y);
        assert ([payload] + head.payloads) + more.payloads == [payload] + (head.payloads + more.payloads);
      }
  }

  lemma {:induction false} ReceiveChunks(c: Suite, k: Option<Cipher>, x: Bytes, chunks: seq<Bytes>)
    ensures FeedAll(c, Receive(c, k, x), chunks) == Receive(c, k, x + Flatten(chunks))
    decreases |chunks|
  {
    hide Receive, FeedInbox;
    if chunks == [] {
      assert x + Flatten(chunks) == x;
    } else {
      ReceiveSplit(c, k, x, chunks[0]);
      ReceiveChunks(c, k, x + chunks[0], chunks[1..]);
      assert (x + chunks[0]) + Flatten(chunks[1..]) == x + Flatten(chunks);
    }
  }

  function AdvanceOptBy(k: Option<Cipher>, n: nat): Option<Cipher>
    decreases n
  {
    if n == 0 then k else AdvanceOptBy(AdvanceOpt(k), n - 1)
  }

  /** Seal every payload in turn, drawing padding from the random stream. */
  function SealAll(c: Suite, k: Option<Cipher>, payloads: seq<Bytes>, at: nat): Bytes
    decreases |payloads|
  {
    if payloads == [] then []
    else
      var pad := PadFor(k, |payloads[0]|);
      SealWire(c, k, payloads[0], Draw(c, at, pad))
      + SealAll(c, AdvanceOpt(k), payloads[1..], at + pad)
  }

  lemma {:induction false} ReceiveSealAll(c: Suite, k: Option<Cipher>, payloads: seq<Bytes>, at: nat)
    requires LawfulAead(c)
    requires forall i :: 0 <= i < |payloads| ==> Fits(k, payloads[i])
    ensures Receive(c, k, SealAll(c, k, payloads, at)) == Inbox(payloads, AdvanceOptBy(k, |payloads|), [], false)
    decreases |payloads|
  {
    hide SealWire, NextFrame, PadFor, AdvanceOpt, Fits;
    if payloads == [] {
      FrameOfNothing(c, k);
    } else {
      var pad := PadFor(k, |payloads[0]|);
      var wire := SealWire(c, k, payloads[0], Draw(c, at, pad));
      var rest := SealAll(c, AdvanceOpt(k), payloads[1..], at + pad);
      FitsIsBody(k, payloads[0], Draw(c, at, pad));
      FrameOfSealed(c, k, payloads[0], Draw(c, at, pad), rest);
      assert (wire + rest)[|wire|..] == rest;
      forall i | 0 <= i < |payloads[1..]| ensures Fits(AdvanceOpt(k), payloads[1..][i]) {
        FitsAdvanced(k, payloads[i + 1]);
      }
      ReceiveSealAll(c, AdvanceOpt(k), payloads[1..], at + pad);
    }
  }

  /** Packet-stream round trip: every list of fitting payloads, under cipher `none` or either AEAD,
      cut into any chunks, is received exactly, with nothing left over and both ends in step. */
  lemma StreamRoundTrip(c: Suite, k: Option<Cipher>, payloads: seq<Bytes>, at: nat, chunks: seq<Bytes>)
    requires LawfulAead(c)
    requires forall i :: 0 <= i < |payloads| ==> Fits(k, payloads[i])
    requires Flatten(chunks) == SealAll(c, k, payloads, at)
    ensures FeedAll(c, Inbox([], k, [], false), chunks)
            == Inbox(payloads, AdvanceOptBy(k, |payloads|), [], false)
  {
    ReceiveChunks(c, k, [], chunks);
    assert [] + Flatten(chunks) == Flatten(chunks);
    ReceiveSealAll(c, k, payloads, at);
  }
}
