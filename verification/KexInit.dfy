/** `SSH_MSG_KEXINIT` and algorithm negotiation, ssh-core/src/transport/kexinit.rs (section 7.1 of RFC 4253). */
module KexInit {
  import opened Prelude
  import opened Primitives
  import opened Wire
  import Packet
  import Utf8

  const MSG_KEXINIT: Byte := 20
  const MSG_NEWKEYS: Byte := 21
  const COMMA: Byte := 0x2C

  type Names = seq<Bytes>

  const CURVE25519 := Ascii("curve25519-sha256")
  const GROUP14 := Ascii("diffie-hellman-group14-sha256")

  const KEX_ALGORITHMS: Names := [CURVE25519, GROUP14]
  const HOST_KEY_ALGORITHMS: Names := [Ascii("ssh-ed25519"), Ascii("rsa-sha2-512"), Ascii("rsa-sha2-256")]
  const ENCRYPTION_ALGORITHMS: Names := [Packet.CHACHA_NAME, Packet.GCM_NAME]
  const MAC_ALGORITHMS: Names := [Ascii("hmac-sha2-256")]
  const COMPRESSION_ALGORITHMS: Names := [Ascii("none")]

  datatype KexInit = KexInit(
    cookie: Bytes16,
    kex: Names,
    hostKey: Names,
    encryptionCs: Names,
    encryptionSc: Names,
    macCs: Names,
    macSc: Names,
    compressionCs: Names,
    compressionSc: Names,
    languagesCs: Names,
    languagesSc: Names,
    firstFollows: bool)

  function Ours(cookie: Bytes16): KexInit {
    KexInit(cookie, KEX_ALGORITHMS, HOST_KEY_ALGORITHMS, ENCRYPTION_ALGORITHMS, ENCRYPTION_ALGORITHMS,
            MAC_ALGORITHMS, MAC_ALGORITHMS, COMPRESSION_ALGORITHMS, COMPRESSION_ALGORITHMS, [], [], false)
  }

  // ---- name-lists --------------------------------------------------------------------------------

  function Join(names: Names): Bytes {
    if names == [] then []
    else if |names| == 1 then names[0]
    else names[0] + [COMMA] + Join(names[1..])
  }

  /** Rust's `split(',')`: never empty. */
  function Split(b: Bytes): (names: Names)
    ensures |names| > 0
    decreases |b|
  {
    if b == [] then [[]]
    else if b[0] == COMMA then [[]] + Split(b[1..])
    else
      var rest := Split(b[1..]);
      [[b[0]] + rest[0]] + rest[1..]
  }

  function NamesOf(joined: Bytes): Names { if joined == [] then [] else Split(joined) }

  function PutNames(names: Names): Bytes { Str(Join(names)) }

  function GetNames(b: Bytes): Result<(Names, Bytes)> {
    match GetUtf8(b)
    case Ok((joined, rest)) => Ok((NamesOf(joined), rest))
    case Err(_) => Err(Encoding)
  }

  predicate CommaFree(names: Names) { forall n | n in names :: COMMA !in n }

  lemma {:induction false} SplitOne(b: Bytes)
    requires COMMA !in b
    ensures Split(b) == [b]
    decreases |b|
  {
    if b != [] {
      SplitOne(b[1..]);
      assert [b[0]] + b[1..] == b;
    }
  }

  lemma {:induction false} SplitAtComma(name: Bytes, rest: Bytes)
    requires COMMA !in name
    ensures Split(name + [COMMA] + rest) == [name] + Split(rest)
    decreases |name|
  {
    var all := name + [COMMA] + rest;
    if name == [] {
      assert all[0] == COMMA && all[1..] == rest;
    } else {
      assert all[0] == name[0] && all[1..] == name[1..] + [COMMA] + rest;
      SplitAtComma(name[1..], rest);
      assert [name[0]] + name[1..] == name;
    }
  }

  lemma {:induction false} SplitUndoesJoin(names: Names)
    requires CommaFree(names) && names != []
    ensures Split(Join(names)) == names
    decreases |names|
  {
    if |names| == 1 {
      SplitOne(names[0]);
    } else {
      SplitUndoesJoin(names[1..]);
      SplitAtComma(names[0], Join(names[1..]));
      assert [names[0]] + names[1..] == names;
    }
  }

  lemma {:induction false} SplitIsCommaFree(b: Bytes)
    ensures CommaFree(Split(b))
    decreases |b|
  {
    if b != [] {
      SplitIsCommaFree(b[1..]);
      var rest := Split(b[1..]);
      assert rest[0] in rest;
      forall n | n in Split(b) ensures COMMA !in n {
        if b[0] != COMMA && n != [b[0]] + rest[0] {
          assert n in rest[1..];
        }
      }
    }
  }

  lemma {:induction false} JoinEmpty(names: Names)
    requires Join(names) == []
    ensures names == [] || names == [[]]
  {
  }

  /** A name-list survives the wire exactly when no name holds a comma and it is not the single
      empty name. */
  lemma NamesRoundTrip(names: Names, rest: Bytes)
    requires Utf8.Valid(Join(names)) && |Join(names)| < U32_LIMIT
    ensures GetNames(PutNames(names) + rest) == Ok((names, rest)) <==> CommaFree(names) && names != [[]]
  {
    Utf8RoundTrip(Join(names), rest);
    SplitIsCommaFree(Join(names));
    if Join(names) == [] {
      JoinEmpty(names);
    } else if CommaFree(names) {
      SplitUndoesJoin(names);
    }
  }

  // ---- the message -------------------------------------------------------------------------------

  function Payload(k: KexInit): Bytes {
    [MSG_KEXINIT] + k.cookie + Lists(k) + Bool(k.firstFollows) + U32Be(0)
  }

  function Lists(k: KexInit): Bytes {
    PutNames(k.kex) + (PutNames(k.hostKey) + (PutNames(k.encryptionCs) + (PutNames(k.encryptionSc)
    + (PutNames(k.macCs) + (PutNames(k.macSc) + (PutNames(k.compressionCs) + (PutNames(k.compressionSc)
    + (PutNames(k.languagesCs) + PutNames(k.languagesSc)))))))))
  }

  function Parse(payload: Bytes): Result<KexInit> {
    if |payload| < 1 then Err(Encoding)
    else if payload[0] != MSG_KEXINIT then Err(UnexpectedMessage(payload[0]))
    else if |payload| < 17 then Err(Encoding)
    else
      var cookie := payload[1..17];
      var (kex, r0) :- GetNames(payload[17..]);
      var (hostKey, r1) :- GetNames(r0);
      var (encryptionCs, r2) :- GetNames(r1);
      var (encryptionSc, r3) :- GetNames(r2);
      var (macCs, r4) :- GetNames(r3);
      var (macSc, r5) :- GetNames(r4);
      var (compressionCs, r6) :- GetNames(r5);
      var (compressionSc, r7) :- GetNames(r6);
      var (languagesCs, r8) :- GetNames(r7);
      var (languagesSc, r9) :- GetNames(r8);
      if |r9| < 1 then Err(Encoding)
      else
        Ok(KexInit(cookie, kex, hostKey, encryptionCs, encryptionSc, macCs, macSc,
                   compressionCs, compressionSc, languagesCs, languagesSc, r9[0] != 0))
  }

  predicate Sendable(names: Names) {
    Utf8.Valid(Join(names)) && |Join(names)| < U32_LIMIT && CommaFree(names) && names != [[]]
  }

  predicate AllSendable(k: KexInit) {
    && Sendable(k.kex) && Sendable(k.hostKey)
    && Sendable(k.encryptionCs) && Sendable(k.encryptionSc)
    && Sendable(k.macCs) && Sendable(k.macSc)
    && Sendable(k.compressionCs) && Sendable(k.compressionSc)
    && Sendable(k.languagesCs) && Sendable(k.languagesSc)
  }

  lemma NextNames(names: Names, more: Bytes, rest: Bytes)
    requires Sendable(names)
    ensures GetNames((PutNames(names) + more) + rest) == Ok((names, more + rest))
  {
    NamesRoundTrip(names, more + rest);
    assert (PutNames(names) + more) + rest == PutNames(names) + (more + rest);
  }

  /** Parsing undoes serialising, whatever the cookie and lists. */
  lemma PayloadRoundTrip(k: KexInit)
    requires AllSendable(k)
    ensures Parse(Payload(k)) == Ok(k)
  {
    hide PutNames, GetNames, Sendable, U32Be;
    var end := Bool(k.firstFollows) + U32Be(0);
    assert Payload(k) == [MSG_KEXINIT] + k.cookie + (Lists(k) + end);
    assert Payload(k)[1..17] == k.cookie && Payload(k)[17..] == Lists(k) + end;
    var l9 := PutNames(k.languagesSc);
    var l8 := PutNames(k.languagesCs) + l9;
    var l7 := PutNames(k.compressionSc) + l8;
    var l6 := PutNames(k.compressionCs) + l7;
    var l5 := PutNames(k.macSc) + l6;
    var l4 := PutNames(k.macCs) + l5;
    var l3 := PutNames(k.encryptionSc) + l4;
    var l2 := PutNames(k.encryptionCs) + l3;
    var l1 := PutNames(k.hostKey) + l2;
    NextNames(k.kex, l1, end);
    NextNames(k.hostKey, l2, end);
    NextNames(k.encryptionCs, l3, end);
    NextNames(k.encryptionSc, l4, end);
    NextNames(k.macCs, l5, end);
    NextNames(k.macSc, l6, end);
    NextNames(k.compressionCs, l7, end);
    NextNames(k.compressionSc, l8, end);
    NextNames(k.languagesCs, l9, end);
    NextNames(k.languagesSc, [], end);
    assert l9 + [] == l9 && [] + end == end;
  }

  // ---- negotiation -------------------------------------------------------------------------------

  /** The first name of the client's list that the server also offers. */
  function Negotiate(client: Names, server: Names): Result<Bytes> {
    if client == [] then Err(Negotiation)
    else if client[0] in server then Ok(client[0])
    else Negotiate(client[1..], server)
  }

  /** Negotiation picks the earliest client name the server offers, and fails only when there is none. */
  lemma {:induction false} NegotiateIsFirst(client: Names, server: Names)
    ensures match Negotiate(client, server)
            case Ok(name) => exists i :: 0 <= i < |client| && client[i] == name && name in server
                               && forall j :: 0 <= j < i ==> client[j] !in server
            case Err(e) => e == Negotiation && forall i :: 0 <= i < |client| ==> client[i] !in server
  {
    if client != [] && client[0] !in server {
      NegotiateIsFirst(client[1..], server);
      match Negotiate(client[1..], server)
      case Ok(name) =>
        var i :| 0 <= i < |client| - 1 && client[1..][i] == name && name in server
                 && forall j :: 0 <= j < i ==> client[1..][j] !in server;
        forall j | 0 <= j < i + 1 ensures client[j] !in server {
          if j > 0 { assert client[1..][j - 1] == client[j]; }
        }
        assert client[i + 1] == name;
      case Err(_) =>
        forall i | 0 <= i < |client| ensures client[i] !in server {
          if i > 0 { assert client[1..][i - 1] == client[i]; }
        }
    }
  }

  datatype Negotiated = Negotiated(kex: Bytes, hostKey: Bytes, encryptionCs: Bytes, encryptionSc: Bytes)

  function NegotiateAll(ours: KexInit, theirs: KexInit): Result<Negotiated> {
    var kex :- Negotiate(ours.kex, theirs.kex);
    var hostKey :- Negotiate(ours.hostKey, theirs.hostKey);
    var encryptionCs :- Negotiate(ours.encryptionCs, theirs.encryptionCs);
    var encryptionSc :- Negotiate(ours.encryptionSc, theirs.encryptionSc);
    Ok(Negotiated(kex, hostKey, encryptionCs, encryptionSc))
  }

  // ---- our own message ---------------------------------------------------------------------------

  predicate Plain(name: Bytes) {
    0 < |name| <= 40 && forall i :: 0 <= i < |name| ==> name[i] < 0x80 && name[i] != COMMA
  }

  lemma AsciiIsPlain(s: string)
    requires 0 < |s| <= 40 && forall i :: 0 <= i < |s| ==> s[i] as int < 0x80 && s[i] != ','
    ensures Plain(Ascii(s))
  {
  }

  lemma KexNamesPlain()
    ensures Plain(CURVE25519) && Plain(GROUP14)
  {
    AsciiIsPlain("curve25519-sha256");
    AsciiIsPlain("diffie-hellman-group14-sha256");
  }

  lemma HostKeyNamesPlain()
    ensures forall n | n in HOST_KEY_ALGORITHMS :: Plain(n)
  {
    AsciiIsPlain("ssh-ed25519");
    AsciiIsPlain("rsa-sha2-512");
    AsciiIsPlain("rsa-sha2-256");
  }

  lemma EncryptionNamesPlain()
    ensures Plain(Packet.CHACHA_NAME) && Plain(Packet.GCM_NAME)
  {
    AsciiIsPlain("chacha20-poly1305@openssh.com");
    AsciiIsPlain("aes256-gcm@openssh.com");
  }

  lemma OtherNamesPlain()
    ensures Plain(Ascii("hmac-sha2-256")) && Plain(Ascii("none"))
  {
    AsciiIsPlain("hmac-sha2-256");
    AsciiIsPlain("none");
  }

  lemma OurListsSendable()
    ensures Sendable(KEX_ALGORITHMS) && Sendable(HOST_KEY_ALGORITHMS) && Sendable(ENCRYPTION_ALGORITHMS)
    ensures Sendable(MAC_ALGORITHMS) && Sendable(COMPRESSION_ALGORITHMS) && Sendable([])
    ensures |Join(KEX_ALGORITHMS)| + |Join(HOST_KEY_ALGORITHMS)| + |Join(ENCRYPTION_ALGORITHMS)|
            + |Join(MAC_ALGORITHMS)| + |Join(COMPRESSION_ALGORITHMS)| <= 1000
  {
    hide Plain, Sendable, Join, Ascii;
    KexNamesPlain();
    HostKeyNamesPlain();
    EncryptionNamesPlain();
    OtherNamesPlain();
    PlainNames(KEX_ALGORITHMS);
    PlainNames(HOST_KEY_ALGORITHMS);
    PlainNames(ENCRYPTION_ALGORITHMS);
    PlainNames(MAC_ALGORITHMS);
    PlainNames(COMPRESSION_ALGORITHMS);
    PlainNames([]);
  }

  /** Short lists of plain ASCII names are sendable. */
  lemma PlainNames(names: Names)
    requires forall n | n in names :: Plain(n)
    ensures |Join(names)| <= 41 * |names|
    ensures |names| <= 1000 ==> Sendable(names)
  {
    JoinAscii(names);
    Utf8.AsciiIsValid(Join(names));
    if names != [] { assert names[0] in names; }
  }

  lemma {:induction false} JoinAscii(names: Names)
    requires forall n | n in names :: |n| <= 40 && forall i :: 0 <= i < |n| ==> n[i] < 0x80
    ensures |Join(names)| <= 41 * |names|
    ensures forall i :: 0 <= i < |Join(names)| ==> Join(names)[i] < 0x80
    decreases |names|
  {
    if names != [] {
      assert names[0] in names;
      JoinAscii(names[1..]);
    }
  }

  lemma OurPayloadSize(cookie: Bytes16)
    ensures 17 < |Payload(Ours(cookie))| <= 3000 && Payload(Ours(cookie))[0] == MSG_KEXINIT
  {
    hide Join, U32Be;
    OurListsSendable();
    EmptyJoin();
    var k := Ours(cookie);
    assert |Lists(k)| == 40 + |Join(k.kex)| + |Join(k.hostKey)| + |Join(k.encryptionCs)| + |Join(k.encryptionSc)|
      + |Join(k.macCs)| + |Join(k.macSc)| + |Join(k.compressionCs)| + |Join(k.compressionSc)|;
  }

  lemma EmptyJoin() ensures Join([]) == [] {}

  /** Our own payload parses back to our constant lists. */
  lemma OurPayloadParses(cookie: Bytes16)
    ensures Parse(Payload(Ours(cookie))) == Ok(Ours(cookie))
  {
    hide Sendable, Payload, Parse;
    OurListsSendable();
    PayloadRoundTrip(Ours(cookie));
  }

  /** Whatever the peer offers, a successful negotiation against our lists names one of the two key
      exchanges and one of the two ciphers that are implemented. */
  lemma NegotiatedIsImplemented(cookie: Bytes16, theirs: KexInit)
    requires NegotiateAll(Ours(cookie), theirs).Ok?
    ensures var n := NegotiateAll(Ours(cookie), theirs).value;
            && (n.kex == CURVE25519 || n.kex == GROUP14)
            && Packet.FromName(n.encryptionCs).Some?
            && Packet.FromName(n.encryptionSc).Some?
  {
    NegotiateIsFirst(KEX_ALGORITHMS, theirs.kex);
    NegotiateIsFirst(ENCRYPTION_ALGORITHMS, theirs.encryptionCs);
    NegotiateIsFirst(ENCRYPTION_ALGORITHMS, theirs.encryptionSc);
  }
}
