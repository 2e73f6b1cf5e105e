/**
  The cryptographic libraries and the random source, as an uninterpreted suite of functions.
  Everything else in the model is parametric in the suite; `Lawful` collects the only algebraic laws
  the proofs use.
 */
module Primitives {
  import opened Prelude

  type Bytes4 = b: Bytes | |b| == 4 witness [0, 0, 0, 0]
  type Bytes16 = b: Bytes | |b| == 16 witness seq(16, _ => 0)
  type Bytes32 = b: Bytes | |b| == 32 witness seq(32, _ => 0)
  type Bytes256 = b: Bytes | |b| == 256 witness seq(256, _ => 0)

  datatype Alg = ChaCha20Poly1305 | Aes256Gcm

  /** A private key is whatever bytes the key libraries make of it. */
  type PrivateKey = Bytes

  datatype Suite = Suite(
    // The endless byte stream behind `SecureRandom::fill`.
    entropy: nat -> Byte,
    hash: Bytes -> Bytes32,
    // Raw ChaCha20 keystream applied to the four length bytes: (key, nonce, bytes).
    lengthMask: (Bytes, Bytes, Bytes4) -> Bytes4,
    // AEAD: (algorithm, key, nonce, associated data, text).
    encrypt: (Alg, Bytes, Bytes, Bytes, Bytes) -> Bytes,
    tag: (Alg, Bytes, Bytes, Bytes, Bytes) -> Bytes16,
    decrypt: (Alg, Bytes, Bytes, Bytes, Bytes, Bytes16) -> Option<Bytes>,
    // Diffie-Hellman: public value of a secret, shared secret from a secret and a peer value.
    x25519Public: Bytes -> Bytes32,
    x25519Shared: (Bytes, Bytes32) -> Option<Bytes32>,
    group14Public: Bytes -> Bytes256,
    group14Shared: (Bytes, Bytes) -> Result<Bytes256>,
    // Keys and signatures: public blobs, and (blob, message, signature) verification.
    keyParses: Bytes -> bool,
    keyName: Bytes -> Bytes,
    fingerprint: Bytes -> Bytes,
    signatureParses: Bytes -> bool,
    verifies: (Bytes, Bytes, Bytes) -> bool,
    userAlgorithm: PrivateKey -> Option<Bytes>,
    publicBlob: PrivateKey -> Bytes,
    sign: (PrivateKey, Bytes) -> Option<Bytes>
  )

  ghost predicate LawfulAead(c: Suite) {
    && (forall a, k, n, aad, text :: |c.encrypt(a, k, n, aad, text)| == |text|)
    && (forall a, k, n, aad, text ::
          c.decrypt(a, k, n, aad, c.encrypt(a, k, n, aad, text), c.tag(a, k, n, aad, text)) == Some(text))
    && (forall a, k, n, aad, text, tag ::
          c.decrypt(a, k, n, aad, text, tag).Some? ==> |c.decrypt(a, k, n, aad, text, tag).value| == |text|)
    && (forall k, n, b: Bytes4 :: c.lengthMask(k, n, c.lengthMask(k, n, b)) == b)
  }

  ghost predicate LawfulKeys(c: Suite) {
    && (forall a, b :: c.x25519Shared(a, c.x25519Public(b)).Some?)
    && (forall a, b :: c.x25519Shared(a, c.x25519Public(b)) == c.x25519Shared(b, c.x25519Public(a)))
    && (forall k :: c.keyParses(c.publicBlob(k)))
    && (forall k, m :: c.sign(k, m).Some? ==>
          && c.signatureParses(c.sign(k, m).value)
          && c.verifies(c.publicBlob(k), m, c.sign(k, m).value))
  }

  ghost predicate Lawful(c: Suite) { LawfulAead(c) && LawfulKeys(c) }

  /** `n` bytes drawn from the random stream, starting `at` bytes into it. */
  function Draw(c: Suite, at: nat, n: nat): (b: Bytes)
    ensures |b| == n
  {
    seq<Byte>(n, (i: nat) => c.entropy(at + i))
  }
}
