/** Key derivation and `mpint` encoding of ssh-core/src/transport/kdf.rs (section 7.2 of RFC 4253). */
module Kdf {
  import opened Prelude
  import opened Primitives
  import opened Wire

  const HASH_LEN := 32

  // ---- the recursive definition ------------------------------------------------------------------

  /** K1 || ... || Kn: the first block hashes the tag and session id, each later one hashes K, H and
      every block before it. */
  function Blocks(c: Suite, k: Bytes, h: Bytes, sessionId: Bytes, tag: Byte, n: nat): (b: Bytes)
    ensures |b| == HASH_LEN * n
    decreases n
  {
    if n == 0 then []
    else if n == 1 then c.hash(k + h + [tag] + sessionId)
    else
      var earlier := Blocks(c, k, h, sessionId, tag, n - 1);
      earlier + c.hash(k + h + earlier)
  }

  /** How many blocks the code produces: at least one, and enough for the request. */
  function BlocksFor(needed: nat): (n: nat)
    ensures n >= 1 && needed <= HASH_LEN * n
  {
    Max(1, (needed + HASH_LEN - 1) / HASH_LEN)
  }

  function Derive(c: Suite, k: Bytes, h: Bytes, sessionId: Bytes, tag: Byte, needed: nat): (b: Bytes)
    ensures |b| == needed
  {
    Blocks(c, k, h, sessionId, tag, BlocksFor(needed))[..needed]
  }

  lemma {:induction false} BlocksArePrefixes(c: Suite, k: Bytes, h: Bytes, sessionId: Bytes, tag: Byte, m: nat, n: nat)
    requires m <= n
    ensures Blocks(c, k, h, sessionId, tag, m) == Blocks(c, k, h, sessionId, tag, n)[..HASH_LEN * m]
  {
    if m < n {
      BlocksArePrefixes(c, k, h, sessionId, tag, m, n - 1);
    }
  }

  /** A shorter request is a prefix of a longer one with the same inputs. */
  lemma DeriveIsPrefix(c: Suite, k: Bytes, h: Bytes, sessionId: Bytes, tag: Byte, m: nat, n: nat)
    requires m <= n
    ensures Derive(c, k, h, sessionId, tag, m) == Derive(c, k, h, sessionId, tag, n)[..m]
  {
    hide Blocks;
    BlocksArePrefixes(c, k, h, sessionId, tag, BlocksFor(m), BlocksFor(n));
  }

  /** Block i of any request long enough to hold it is the hash over K, H and all earlier blocks;
      block 0 is the hash over K, H, the tag and the session id. */
  lemma DeriveBlock(c: Suite, k: Bytes, h: Bytes, sessionId: Bytes, tag: Byte, needed: nat, i: nat)
    requires HASH_LEN * (i + 1) <= needed
    ensures var out := Derive(c, k, h, sessionId, tag, needed);
            out[HASH_LEN * i..HASH_LEN * (i + 1)]
            == if i == 0 then c.hash(k + h + [tag] + sessionId) else c.hash(k + h + out[..HASH_LEN * i])
  {
    var n := BlocksFor(needed);
    var a, b := HASH_LEN * i, HASH_LEN * (i + 1);
    var all := Blocks(c, k, h, sessionId, tag, n);
    BlocksArePrefixes(c, k, h, sessionId, tag, i, n);
    BlocksArePrefixes(c, k, h, sessionId, tag, i + 1, n);
    LastBlock(c, k, h, sessionId, tag, i);
    hide Blocks;
    assert all[..needed][a..b] == all[a..b] == all[..b][a..];
    assert all[..needed][..a] == all[..a];
  }

  lemma LastBlock(c: Suite, k: Bytes, h: Bytes, sessionId: Bytes, tag: Byte, i: nat)
    ensures Blocks(c, k, h, sessionId, tag, i + 1)[HASH_LEN * i..]
            == if i == 0 then c.hash(k + h + [tag] + sessionId)
               else c.hash(k + h + Blocks(c, k, h, sessionId, tag, i))
  {
  }

  /** The code: hash the first block, extend while short, truncate. */
  method DeriveKey(c: Suite, k: Bytes, h: Bytes, sessionId: Bytes, tag: Byte, needed: nat) returns (out: Bytes)
    ensures out == Derive(c, k, h, sessionId, tag, needed)
  {
    out := c.hash(k + h + [tag] + sessionId);
    ghost var n := 1;
    while |out| < needed
      invariant 1 <= n <= BlocksFor(needed)
      invariant out == Blocks(c, k, h, sessionId, tag, n)
      decreases needed - |out|
    {
      out := out + c.hash(k + h + out);
      n := n + 1;
    }
    out := out[..needed];
  }

  // ---- mpint -------------------------------------------------------------------------------------

  function TrimZeros(b: Bytes): (t: Bytes)
    ensures |t| <= |b| && (t != [] ==> t[0] != 0)
  {
    if b != [] && b[0] == 0 then TrimZeros(b[1..]) else b
  }

  function MpintBody(b: Bytes): Bytes {
    var t := TrimZeros(b);
    if t != [] && t[0] >= 0x80 then [0] + t else t
  }

  /** `encode_mpint`: an unsigned big-endian integer in the signed `mpint` representation. */
  function Mpint(b: Bytes): Bytes { Str(MpintBody(b)) }

  function NatOf(b: Bytes): nat
    decreases |b|
  {
    if b == [] then 0 else NatOf(b[..|b| - 1]) * 0x100 + b[|b| - 1]
  }

  lemma {:induction false} NatOfLeadingZero(b: Bytes)
    ensures NatOf([0] + b) == NatOf(b)
    decreases |b|
  {
    var z: Bytes := [0];
    if b == [] {
      assert z + b == [0];
      assert z[..0] == [];
    } else {
      assert (z + b)[..|z + b| - 1] == z + b[..|b| - 1];
      NatOfLeadingZero(b[..|b| - 1]);
    }
  }

  lemma {:induction false} TrimKeepsValue(b: Bytes)
    ensures NatOf(TrimZeros(b)) == NatOf(b)
  {
    if b != [] && b[0] == 0 {
      assert [0] + b[1..] == b;
      NatOfLeadingZero(b[1..]);
      TrimKeepsValue(b[1..]);
    }
  }

  /** Section 5 of RFC 4251: the value is unchanged, the sign bit is clear, and there is no
      unnecessary leading zero byte. */
  lemma MpintCanonical(b: Bytes)
    ensures NatOf(MpintBody(b)) == NatOf(b)
    ensures var body := MpintBody(b);
            body != [] ==> body[0] < 0x80 && (body[0] == 0 ==> |body| > 1 && body[1] >= 0x80)
  {
    TrimKeepsValue(b);
    NatOfLeadingZero(TrimZeros(b));
  }

  lemma {:induction false} TrimDetermines(a: Bytes, b: Bytes)
    requires |a| == |b| && TrimZeros(a) == TrimZeros(b)
    ensures a == b
  {
    if a != [] && a[0] == 0 && b[0] == 0 {
      TrimDetermines(a[1..], b[1..]);
      assert a == [a[0]] + a[1..] && b == [b[0]] + b[1..];
    }
  }

  lemma BodyDetermines(a: Bytes, b: Bytes)
    requires MpintBody(a) == MpintBody(b)
    ensures TrimZeros(a) == TrimZeros(b)
  {
    var s, t := TrimZeros(a), TrimZeros(b);
    assert ([0] + s)[1..] == s && ([0] + t)[1..] == t;
  }

  /** An `mpint` field followed by anything is uniquely decodable, as a number; and as a byte string
      among byte strings of one length. */
  lemma MpintUnique(a: Bytes, restA: Bytes, b: Bytes, restB: Bytes)
    requires |a| < U32_LIMIT - 1 && |b| < U32_LIMIT - 1
    requires Mpint(a) + restA == Mpint(b) + restB
    ensures restA == restB && NatOf(a) == NatOf(b)
    ensures |a| == |b| ==> a == b
  {
    StrUnique(MpintBody(a), restA, MpintBody(b), restB);
    BodyDetermines(a, b);
    TrimKeepsValue(a);
    TrimKeepsValue(b);
    if |a| == |b| {
      TrimDetermines(a, b);
    }
  }
}
