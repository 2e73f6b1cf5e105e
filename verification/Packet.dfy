/** The binary packet layer of ssh-core/src/transport/packet.rs (section 6 of RFC 4253). */
module Packet {
  import opened Prelude
  import opened Primitives
  import opened Wire

  const MAX_PACKET_LENGTH := 256 * 1024
  const TAG_LEN := 16
  const MIN_PADDING := 4

  const CHACHA_NAME := Ascii("chacha20-poly1305@openssh.com")
  const GCM_NAME := Ascii("aes256-gcm@openssh.com")

  function FromName(name: Bytes): Option<Alg> {
    if name == CHACHA_NAME then Some(ChaCha20Poly1305)
    else if name == GCM_NAME then Some(Aes256Gcm)
    else None
  }

  function KeyLen(alg: Alg): nat { if alg.ChaCha20Poly1305? then 64 else 32 }
  function IvLen(alg: Alg): nat { if alg.ChaCha20Poly1305? then 0 else 12 }
  function BlockSize(alg: Alg): nat { if alg.ChaCha20Poly1305? then 8 else 16 }

  /** One direction's cipher. `nonce` is the running GCM nonce and is empty for ChaCha20. */
  datatype CipherState = CipherState(alg: Alg, key: Bytes, nonce: Bytes, seqNo: U32)

  predicate WellKeyed(k: CipherState) { |k.key| == KeyLen(k.alg) && |k.nonce| == IvLen(k.alg) }

  type Cipher = k: CipherState | WellKeyed(k)
    witness CipherState(ChaCha20Poly1305, seq(64, _ => 0), [], 0)

  // ---- nonces ----------------------------------------------------------------------------------

  function NextSeq(n: U32): U32 { (n + 1) % U32_LIMIT }

  function ChaChaNonce(seqNo: U32): Bytes { [0, 0, 0, 0] + U32Be(seqNo) }

  const U64_LIMIT := 0x1_0000_0000_0000_0000

  function U64Of(b: Bytes): (n: nat)
    requires |b| == 8
    ensures n < U64_LIMIT
  {
    U32Of(b[..4]) as int * U32_LIMIT + U32Of(b[4..])
  }

  function U64Be(n: nat): (b: Bytes)
    requires n < U64_LIMIT
    ensures |b| == 8
  {
    U32Be(n / U32_LIMIT) + U32Be(n % U32_LIMIT)
  }

  /** `increment_gcm_nonce`: the last eight bytes are a big-endian counter that wraps. */
  function NextGcmNonce(nonce: Bytes): (next: Bytes)
    requires |nonce| == 12
    ensures |next| == 12
  {
    nonce[..4] + U64Be((U64Of(nonce[4..]) + 1) % U64_LIMIT)
  }

  /** The state of a direction after one more packet went through it. */
  function Advance(k: Cipher): Cipher {
    CipherState(k.alg, k.key, if k.alg.Aes256Gcm? then NextGcmNonce(k.nonce) else k.nonce, NextSeq(k.seqNo))
  }

  function AdvanceBy(k: Cipher, n: nat): Cipher {
    if n == 0 then k else Advance(AdvanceBy(k, n - 1))
  }

  /** The body key: the first half of the ChaCha20 material, or the whole GCM key. */
  function BodyKey(k: Cipher): Bytes { if k.alg.ChaCha20Poly1305? then k.key[..32] else k.key }

  function BodyNonce(k: Cipher): Bytes { if k.alg.ChaCha20Poly1305? then ChaChaNonce(k.seqNo) else k.nonce }

  /** ChaCha20 hides the length field with the second half of its material; GCM sends it in clear. */
  function MaskLength(c: Suite, k: Cipher, len: Bytes4): Bytes4 {
    if k.alg.ChaCha20Poly1305? then c.lengthMask(k.key[32..], ChaChaNonce(k.seqNo), len) else len
  }

  // ---- padding ---------------------------------------------------------------------------------

  /** `pad_payload_with_prefix`: how many padding bytes a payload of `n` bytes gets. */
  function PadLen(n: nat, block: nat, prefix: nat): nat
    requires block == 8 || block == 16
  {
    var pad := block - (prefix + 1 + n) % block;
    if pad < MIN_PADDING then pad + block else pad
  }

  /** Padding is between 4 and block + 3 bytes and aligns the packet (section 6 of RFC 4253). */
  lemma PadLenBounds(n: nat, block: nat, prefix: nat)
    requires block == 8 || block == 16
    ensures MIN_PADDING <= PadLen(n, block, prefix) <= block + 3
    ensures (prefix + 1 + n + PadLen(n, block, prefix)) % block == 0
  {
  }

  function PlainPadLen(n: nat): nat { PadLen(n, 8, 4) }
  function CipherPadLen(k: Cipher, n: nat): nat { PadLen(n, BlockSize(k.alg), 0) }

  function Body(payload: Bytes, padding: Bytes): Bytes
    requires |padding| < 0x100
  {
    [|padding|] + payload + padding
  }

  function StripPadding(body: Bytes): Result<Bytes> {
    if |body| == 0 then Err(Framing)
    else
      var pad := body[0] as int;
      if 1 + pad > |body| then Err(Framing) else Ok(body[1..|body| - pad])
  }

  lemma StripUndoesPad(payload: Bytes, padding: Bytes)
    requires |padding| < 0x100
    ensures StripPadding(Body(payload, padding)) == Ok(payload)
  {
    assert Body(payload, padding)[1..1 + |payload|] == payload;
  }

  // ---- sealing ---------------------------------------------------------------------------------

  /** The four length bytes of a body; `body.len() as u32` truncates. */
  function LengthBytes(body: Bytes): Bytes4 { U32Be(|body| % U32_LIMIT) }

  function PlainWire(payload: Bytes, padding: Bytes): Bytes
    requires |padding| < 0x100
  {
    LengthBytes(Body(payload, padding)) + Body(payload, padding)
  }

  function CipherWire(c: Suite, k: Cipher, payload: Bytes, padding: Bytes): Bytes
    requires |padding| < 0x100
  {
    var body := Body(payload, padding);
    var aad := MaskLength(c, k, LengthBytes(body));
    aad
    + c.encrypt(k.alg, BodyKey(k), BodyNonce(k), aad, body)
    + c.tag(k.alg, BodyKey(k), BodyNonce(k), aad, body)
  }

  // ---- opening ---------------------------------------------------------------------------------

  /** The clear value of the length field, under cipher `none` or an active cipher. */
  function ClearLength(c: Suite, k: Option<Cipher>, first4: Bytes4): U32 {
    match k
    case None => U32Of(first4)
    case Some(key) => U32Of(MaskLength(c, key, first4))
  }

  function TagLen(k: Option<Cipher>): nat { if k.None? then 0 else TAG_LEN }

  /** `peek_plaintext_length` / `peek_total_length`. */
  function PeekTotal(c: Suite, k: Option<Cipher>, first4: Bytes4): (r: Result<nat>)
    ensures r.Ok? ==> 4 + TagLen(k) < r.value <= 4 + MAX_PACKET_LENGTH + TagLen(k)
  {
    var n := ClearLength(c, k, first4);
    if n == 0 || n > MAX_PACKET_LENGTH then Err(Framing) else Ok(4 + n + TagLen(k))
  }

  /** `open_plaintext` / `open`: the direction's state afterwards, and the payload or an error.
      The state moves on exactly when decryption succeeded. */
  function OpenWire(c: Suite, k: Option<Cipher>, wire: Bytes): (Option<Cipher>, Result<Bytes>) {
    if |wire| < 4 then (k, Err(Framing))
    else
      var n := ClearLength(c, k, wire[..4]);
      if |wire| != 4 + n + TagLen(k) then (k, Err(Framing))
      else
        match k
        case None => (None, StripPadding(wire[4..]))
        case Some(key) =>
          match c.decrypt(key.alg, BodyKey(key), BodyNonce(key), wire[..4], wire[4..4 + n], wire[4 + n..])
          case None => (k, Err(Mac))
          case Some(body) => (Some(Advance(key)), StripPadding(body))
  }

  // ---- the peek / buffer / open step shared by both ends -----------------------------------------

  datatype Frame =
    | Wait                                             // not enough bytes yet
    | Reject                                           // implausible length, nothing consumed
    | Torn(total: nat, k: Option<Cipher>, error: SshError)  // consumed, failed to open
    | Got(total: nat, k: Option<Cipher>, payload: Bytes)

  function NextFrame(c: Suite, k: Option<Cipher>, buf: Bytes): (f: Frame)
    ensures f.Got? ==> 4 < f.total <= |buf|
    ensures f.Torn? ==> 4 < f.total <= |buf|
  {
    if |buf| < 4 then Wait
    else
      match PeekTotal(c, k, buf[..4])
      case Err(_) => Reject
      case Ok(total) =>
        if |buf| < total then Wait
        else
          var (k', r) := OpenWire(c, k, buf[..total]);
          match r
          case Ok(payload) => Got(total, k', payload)
          case Err(e) => Torn(total, k', e)
  }

  /** More bytes behind a decided frame change nothing. */
  lemma FrameIgnoresMore(c: Suite, k: Option<Cipher>, buf: Bytes, more: Bytes)
    requires !NextFrame(c, k, buf).Wait?
    ensures NextFrame(c, k, buf + more) == NextFrame(c, k, buf)
  {
    assert (buf + more)[..4] == buf[..4];
    match PeekTotal(c, k, buf[..4])
    case Err(_) =>
    case Ok(total) => assert (buf + more)[..total] == buf[..total];
  }
}
