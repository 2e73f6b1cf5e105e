/** Nonce discipline of the packet ciphers: how a direction's state moves over n packets. */
module Nonces {
  import opened Prelude
  import opened Primitives
  import opened Wire
  import opened Packet

  // ---- modular steps, one per modulus so that the arithmetic stays linear -----------------------

  lemma Step32(x: nat, n: nat)
    ensures ((x + n) % U32_LIMIT + 1) % U32_LIMIT == (x + (n + 1)) % U32_LIMIT
  {
  }

  lemma Step64(x: nat, n: nat)
    ensures ((x + n) % U64_LIMIT + 1) % U64_LIMIT == (x + (n + 1)) % U64_LIMIT
  {
  }

  lemma Cancel32(s: nat, i: nat, j: nat)
    ensures (s + i) % U32_LIMIT == (s + j) % U32_LIMIT <==> i % U32_LIMIT == j % U32_LIMIT
  {
  }

  lemma Cancel64(s: nat, i: nat, j: nat)
    ensures (s + i) % U64_LIMIT == (s + j) % U64_LIMIT <==> i % U64_LIMIT == j % U64_LIMIT
  {
  }

  // ---- the eight-byte counter ------------------------------------------------------------------

  lemma U64RoundTrip(n: nat)
    requires n < U64_LIMIT
    ensures U64Of(U64Be(n)) == n
  {
    hide U32Be, U32Of;
    U32RoundTrip(n / U32_LIMIT, []);
    U32RoundTrip(n % U32_LIMIT, []);
    assert U64Be(n)[..4] == U32Be(n / U32_LIMIT) && U64Be(n)[4..] == U32Be(n % U32_LIMIT);
  }

  lemma U64Unique(a: Bytes, b: Bytes)
    requires |a| == 8 && |b| == 8
    ensures U64Of(a) == U64Of(b) <==> a == b
  {
    hide U32Be, U32Of;
    if U64Of(a) == U64Of(b) {
      U32BeOf(a[..4]);
      U32BeOf(a[4..]);
      U32BeOf(b[..4]);
      U32BeOf(b[4..]);
      assert U32Of(a[..4]) == U32Of(b[..4]) && U32Of(a[4..]) == U32Of(b[4..]);
      assert a == a[..4] + a[4..] && b == b[..4] + b[4..];
    }
  }

  lemma GcmCounterStep(nonce: Bytes)
    requires |nonce| == 12
    ensures NextGcmNonce(nonce)[..4] == nonce[..4]
    ensures U64Of(NextGcmNonce(nonce)[4..]) == (U64Of(nonce[4..]) + 1) % U64_LIMIT
  {
    hide U64Be, U64Of;
    var count := (U64Of(nonce[4..]) + 1) % U64_LIMIT;
    U64RoundTrip(count);
    assert NextGcmNonce(nonce)[4..] == U64Be(count);
  }

  // ---- n packets -------------------------------------------------------------------------------

  /** After n packets the sequence number has moved by n mod 2^32; a GCM nonce keeps its first four
      bytes and its last eight encode start + n mod 2^64 (section 7.1 of RFC 5647). */
  lemma {:induction false} StateAfter(k: Cipher, n: nat)
    ensures var m := AdvanceBy(k, n);
            && m.alg == k.alg && m.key == k.key
            && m.seqNo == (k.seqNo + n) % U32_LIMIT
            && (k.alg.ChaCha20Poly1305? ==> m.nonce == k.nonce)
            && (k.alg.Aes256Gcm? ==> m.nonce[..4] == k.nonce[..4]
                                     && U64Of(m.nonce[4..]) == (U64Of(k.nonce[4..]) + n) % U64_LIMIT)
  {
    hide U64Be, U64Of, NextGcmNonce;
    if n > 0 {
      StateAfter(k, n - 1);
      Step32(k.seqNo, n - 1);
      if k.alg.Aes256Gcm? {
        GcmCounterStep(AdvanceBy(k, n - 1).nonce);
        Step64(U64Of(k.nonce[4..]), n - 1);
      }
    }
  }

  /** Starting a ChaCha20 direction at n is the same as having passed n packets through it from 0. */
  lemma InitialSeqIsPacketsAlreadySent(key: Bytes, n: U32)
    requires |key| == 64
    ensures AdvanceBy(CipherState(ChaCha20Poly1305, key, [], 0), n) == CipherState(ChaCha20Poly1305, key, [], n)
  {
    StateAfter(CipherState(ChaCha20Poly1305, key, [], 0), n);
  }

  lemma ChaChaNonceUnique(a: U32, b: U32)
    ensures ChaChaNonce(a) == ChaChaNonce(b) <==> a == b
  {
    hide U32Be, U32Of;
    U32RoundTrip(a, []);
    U32RoundTrip(b, []);
    assert ChaChaNonce(a)[4..] == U32Be(a) && ChaChaNonce(b)[4..] == U32Be(b);
  }

  /** Two packets of one ChaCha20 direction share a nonce exactly when they are a multiple of 2^32 apart. */
  lemma ChaChaNonceReuse(k: Cipher, i: nat, j: nat)
    requires k.alg.ChaCha20Poly1305?
    ensures BodyNonce(AdvanceBy(k, i)) == BodyNonce(AdvanceBy(k, j)) <==> i % U32_LIMIT == j % U32_LIMIT
  {
    hide ChaChaNonce, AdvanceBy;
    StateAfter(k, i);
    StateAfter(k, j);
    Cancel32(k.seqNo, i, j);
    ChaChaNonceUnique(AdvanceBy(k, i).seqNo, AdvanceBy(k, j).seqNo);
  }

  /** Two packets of one GCM direction share a nonce exactly when they are a multiple of 2^64 apart. */
  lemma GcmNonceReuse(k: Cipher, i: nat, j: nat)
    requires k.alg.Aes256Gcm?
    ensures BodyNonce(AdvanceBy(k, i)) == BodyNonce(AdvanceBy(k, j)) <==> i % U64_LIMIT == j % U64_LIMIT
  {
    hide U64Of, AdvanceBy;
    StateAfter(k, i);
    StateAfter(k, j);
    Cancel64(U64Of(k.nonce[4..]), i, j);
    var a, b := AdvanceBy(k, i).nonce, AdvanceBy(k, j).nonce;
    U64Unique(a[4..], b[4..]);
    assert a == a[..4] + a[4..] && b == b[..4] + b[4..];
  }
}
