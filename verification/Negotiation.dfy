/**
  Algorithm negotiation in a session, as section 7.1 of RFC 4253 has it: what the two KEXINITs say to
  whoever reads them, whose preference counts, and which message opens the exchange.
 */
module Negotiation {
  import opened Prelude
  import opened Primitives
  import opened Wire
  import opened Layouts
  import opened KexInit
  import opened SessionModel
  import opened SessionSafety
  import Exchange
  import Kdf
  import Packet

  // ---- the message -----------------------------------------------------------------------------------

  /** Names separated by commas (section 5 of RFC 4251). */
  function Listed(names: Names): Bytes {
    if |names| == 0 then [] else if |names| == 1 then names[0] else names[0] + Ascii(",") + Listed(names[1..])
  }

  lemma {:induction false} JoinIsListed(names: Names)
    ensures Join(names) == Listed(names)
    decreases |names|
  {
    if |names| > 1 {
      JoinIsListed(names[1..]);
      assert Ascii(",") == [COMMA];
    }
  }

  /** A KEXINIT as anyone reads it: type and cookie; the ten name-lists, in the order of the RFC, each as one
      string; `first_kex_packet_follows`; and a reserved 0. */
  predicate IsKexinit(payload: Bytes, cookie: Bytes, l: seq<Bytes>, follows: bool)
    requires |l| == 10
  {
    && |payload| >= 17 && payload[0] == 20 && payload[1..17] == cookie
    && Reads(payload[17..], Behind(l, follows))
  }

  function Behind(l: seq<Bytes>, follows: bool): Fields
    requires |l| == 10
  {
    Text(l[0], Text(l[1], Text(l[2], Text(l[3], Text(l[4], Text(l[5], Text(l[6], Text(l[7], Text(l[8], Text(l[9],
      Flag(follows, Number(0, End))))))))))))
  }

  lemma NamesRead(names: Names, rest: Bytes, end: Bytes, more: Fields)
    requires Reads(rest + end, more) && |Listed(names)| < U32_LIMIT
    ensures Reads((PutNames(names) + rest) + end, Text(Listed(names), more))
  {
    hide Reads, Str, Join, Listed;
    JoinIsListed(names);
    TextReads(Listed(names), rest + end, more);
    assert (PutNames(names) + rest) + end == PutNames(names) + (rest + end);
  }

  /** The lists of a KEXINIT, in the order of the RFC. */
  function ListsOf(k: KexInit): (l: seq<Bytes>)
    ensures |l| == 10
  {
    [Listed(k.kex), Listed(k.hostKey), Listed(k.encryptionCs), Listed(k.encryptionSc), Listed(k.macCs), Listed(k.macSc),
     Listed(k.compressionCs), Listed(k.compressionSc), Listed(k.languagesCs), Listed(k.languagesSc)]
  }

  lemma SendableIsShort(names: Names)
    requires Sendable(names)
    ensures |Listed(names)| < U32_LIMIT
  {
    hide Listed, Join;
    JoinIsListed(names);
  }

  lemma AllShort(k: KexInit)
    requires AllSendable(k)
    ensures |Listed(k.kex)| < U32_LIMIT && |Listed(k.hostKey)| < U32_LIMIT
    ensures |Listed(k.encryptionCs)| < U32_LIMIT && |Listed(k.encryptionSc)| < U32_LIMIT
    ensures |Listed(k.macCs)| < U32_LIMIT && |Listed(k.macSc)| < U32_LIMIT
    ensures |Listed(k.compressionCs)| < U32_LIMIT && |Listed(k.compressionSc)| < U32_LIMIT
    ensures |Listed(k.languagesCs)| < U32_LIMIT && |Listed(k.languagesSc)| < U32_LIMIT
  {
    hide Sendable, Listed;
    SendableIsShort(k.kex);
    SendableIsShort(k.hostKey);
    SendableIsShort(k.encryptionCs);
    SendableIsShort(k.encryptionSc);
    SendableIsShort(k.macCs);
    SendableIsShort(k.macSc);
    SendableIsShort(k.compressionCs);
    SendableIsShort(k.compressionSc);
    SendableIsShort(k.languagesCs);
    SendableIsShort(k.languagesSc);
  }

  /** What `to_payload` writes. */
  lemma PayloadIsRead(k: KexInit)
    requires AllSendable(k)
    ensures IsKexinit(Payload(k), k.cookie, ListsOf(k), k.firstFollows)
  {
    hide PutNames, Reads, U32Be, Listed, AllSendable;
    AllShort(k);
    var end := Bool(k.firstFollows) + U32Be(0);
    LastReads(0, false, []);
    FlagReads(k.firstFollows, U32Be(0), Number(0, End));
    assert Payload(k) == [MSG_KEXINIT] + k.cookie + (Lists(k) + end);
    assert Payload(k)[1..17] == k.cookie && Payload(k)[17..] == Lists(k) + end;
    var f0 := Flag(k.firstFollows, Number(0, End));
    var l9 := PutNames(k.languagesSc);
    assert l9 + [] == l9 && [] + end == end;
    NamesRead(k.languagesSc, [], end, f0);
    var f1 := Text(Listed(k.languagesSc), f0);
    var l8 := PutNames(k.languagesCs) + l9;
    NamesRead(k.languagesCs, l9, end, f1);
    var f2 := Text(Listed(k.languagesCs), f1);
    var l7 := PutNames(k.compressionSc) + l8;
    NamesRead(k.compressionSc, l8, end, f2);
    var f3 := Text(Listed(k.compressionSc), f2);
    var l6 := PutNames(k.compressionCs) + l7;
    NamesRead(k.compressionCs, l7, end, f3);
    var f4 := Text(Listed(k.compressionCs), f3);
    var l5 := PutNames(k.macSc) + l6;
    NamesRead(k.macSc, l6, end, f4);
    var f5 := Text(Listed(k.macSc), f4);
    var l4 := PutNames(k.macCs) + l5;
    NamesRead(k.macCs, l5, end, f5);
    var f6 := Text(Listed(k.macCs), f5);
    var l3 := PutNames(k.encryptionSc) + l4;
    NamesRead(k.encryptionSc, l4, end, f6);
    var f7 := Text(Listed(k.encryptionSc), f6);
    var l2 := PutNames(k.encryptionCs) + l3;
    NamesRead(k.encryptionCs, l3, end, f7);
    var f8 := Text(Listed(k.encryptionCs), f7);
    var l1 := PutNames(k.hostKey) + l2;
    NamesRead(k.hostKey, l2, end, f8);
    NamesRead(k.kex, l1, end, Text(Listed(k.hostKey), f8));
  }

  /** What `parse` makes of any KEXINIT with these lists: the lists. */
  lemma KexinitIsParsed(payload: Bytes, k: KexInit)
    requires AllSendable(k) && IsKexinit(payload, k.cookie, ListsOf(k), k.firstFollows)
    ensures Parse(payload) == Ok(k)
  {
    hide Parse, Payload, AllSendable, ListsOf;
    PayloadIsRead(k);
    PayloadRoundTrip(k);
    var f := Behind(ListsOf(k), k.firstFollows);
    SameAsItself(f);
    ReadsOneWay(payload[17..], f, Payload(k)[17..], f);
    assert payload == [payload[0]] + payload[1..17] + payload[17..];
    assert Payload(k) == [Payload(k)[0]] + Payload(k)[1..17] + Payload(k)[17..];
  }

  /** Our preferences, in order: exchanges and ciphers. */
  lemma OurPreferences()
    ensures KEX_ALGORITHMS == [Ascii("curve25519-sha256"), Ascii("diffie-hellman-group14-sha256")]
    ensures ENCRYPTION_ALGORITHMS == [Ascii("chacha20-poly1305@openssh.com"), Ascii("aes256-gcm@openssh.com")]
  {
  }

  /** And host keys. */
  lemma OurHostKeys()
    ensures HOST_KEY_ALGORITHMS == [Ascii("ssh-ed25519"), Ascii("rsa-sha2-512"), Ascii("rsa-sha2-256")]
  {
  }

  /** Our own KEXINIT, list by list. */
  lemma OursIsRead(cookie: Bytes16)
    ensures IsKexinit(Payload(Ours(cookie)), cookie, ListsOf(Ours(cookie)), false)
  {
    hide Ascii, IsKexinit, ListsOf, Payload, Sendable;
    OurListsSendable();
    PayloadIsRead(Ours(cookie));
  }

  // ---- the choice --------------------------------------------------------------------------------------

  /** The first of our names, in our order, that the peer offers. */
  predicate Earliest(name: Bytes, ours: Names, offered: Names) {
    exists i :: 0 <= i < |ours| && ours[i] == name && name in offered && forall j :: 0 <= j < i ==> ours[j] !in offered
  }

  predicate Common(ours: Names, offered: Names) { exists i :: 0 <= i < |ours| && ours[i] in offered }

  /** All four choices go by our lists. */
  predicate Chosen(n: Negotiated, theirs: KexInit) {
    && Earliest(n.kex, KEX_ALGORITHMS, theirs.kex)
    && Earliest(n.hostKey, HOST_KEY_ALGORITHMS, theirs.hostKey)
    && Earliest(n.encryptionCs, ENCRYPTION_ALGORITHMS, theirs.encryptionCs)
    && Earliest(n.encryptionSc, ENCRYPTION_ALGORITHMS, theirs.encryptionSc)
  }

  predicate Agreeable(theirs: KexInit) {
    && Common(KEX_ALGORITHMS, theirs.kex)
    && Common(HOST_KEY_ALGORITHMS, theirs.hostKey)
    && Common(ENCRYPTION_ALGORITHMS, theirs.encryptionCs)
    && Common(ENCRYPTION_ALGORITHMS, theirs.encryptionSc)
  }

  lemma NegotiateIsEarliest(ours: Names, offered: Names)
    ensures Negotiate(ours, offered).Ok? <==> Common(ours, offered)
    ensures Negotiate(ours, offered).Ok? ==> Earliest(Negotiate(ours, offered).value, ours, offered)
    ensures Negotiate(ours, offered).Err? ==> Negotiate(ours, offered).error == Negotiation
  {
    hide Negotiate;
    NegotiateIsFirst(ours, offered);
  }

  lemma AllEarliest(cookie: Bytes16, theirs: KexInit)
    ensures var r := NegotiateAll(Ours(cookie), theirs);
            && (r.Ok? <==> Agreeable(theirs))
            && (r.Ok? ==> Chosen(r.value, theirs))
            && (r.Err? ==> r.error == Negotiation)
  {
    hide Negotiate, Earliest, Common, Ascii;
    NegotiateIsEarliest(KEX_ALGORITHMS, theirs.kex);
    NegotiateIsEarliest(HOST_KEY_ALGORITHMS, theirs.hostKey);
    NegotiateIsEarliest(ENCRYPTION_ALGORITHMS, theirs.encryptionCs);
    NegotiateIsEarliest(ENCRYPTION_ALGORITHMS, theirs.encryptionSc);
  }

  /** One more item has been sent: the init of the exchange that was chosen, with the public value of the secret
      that is kept for the reply. */
  predicate InitSent(c: Suite, s: State, t: State) {
    && |t.out.sent| == |s.out.sent| + 1 && s.out.sent <= t.out.sent
    && var item := t.out.sent[|s.out.sent|];
       && item.Sealed? && item.k == s.out.cs
       && t.kex.negotiated.Some?
       && match t.kex.active
          case Some(Curve25519(secret)) =>
            && t.kex.negotiated.value.kex == Ascii("curve25519-sha256")
            && Reads(item.payload, Octet(30, Text(c.x25519Public(secret), End)))
          case Some(Group14(secret)) =>
            && t.kex.negotiated.value.kex == Ascii("diffie-hellman-group14-sha256")
            && Reads(item.payload, Octet(30, Text(Kdf.MpintBody(c.group14Public(secret)), End)))
          case None => false
  }

  lemma InitsAreRead(q: Bytes32, e: Bytes256)
    ensures Reads(Exchange.CurveInit(q), Octet(30, Text(q, End)))
    ensures Reads(Exchange.Group14Init(e), Octet(30, Text(Kdf.MpintBody(e), End)))
  {
    hide Str, Reads, Kdf.TrimZeros;
    LastReads(0, false, q);
    LastReads(0, false, Kdf.MpintBody(e));
    OctetReads(30, Str(q), Text(q, End));
    OctetReads(30, Str(Kdf.MpintBody(e)), Text(Kdf.MpintBody(e), End));
  }

  lemma StartSends(c: Suite, s: State, n: Negotiated)
    requires n.kex == CURVE25519 || n.kex == GROUP14
    ensures StartKex(c, s, n).Fine? && InitSent(c, s, StartKex(c, s, n).s) && StartKex(c, s, n).s.kex.negotiated == Some(n)
  {
    hide Reads, Exchange.CurveInit, Exchange.Group14Init, Emit, Draw, Kdf.MpintBody, Ascii;
    var o := s.out.(drawn := s.out.drawn + if n.kex == CURVE25519 then 32 else 256);
    if n.kex == CURVE25519 {
      var q := c.x25519Public(Draw(c, s.out.drawn, 32));
      InitsAreRead(q, seq(256, _ => 0));
      EmitGrows(c, o, o.cs, Exchange.CurveInit(q));
    } else {
      var e := c.group14Public(Draw(c, s.out.drawn, 256));
      InitsAreRead(seq(32, _ => 0), e);
      EmitGrows(c, o, o.cs, Exchange.Group14Init(e));
    }
  }

  /** A peer's KEXINIT, in any session that has sent its own: it is handled well if and only if each of
      the four lists that count holds one of our names; then each choice is the earliest of our names that
      the peer offers, and the init of the chosen exchange goes out. Otherwise the session fails, saying
      nothing. */
  lemma PeerKexinitHandled(c: Suite, s: State, payload: Bytes)
    requires OwnKexinit(s.kex.ownPayload)
    ensures var o := HandlePeerKexinit(c, s, payload);
            match Parse(payload)
            case Err(e) => o.Failed? && o.error == e && o.s.out == s.out
            case Ok(theirs) =>
              if Agreeable(theirs) then
                && o.Fine? && InitSent(c, s, o.s) && o.s.kex.peerPayload == payload
                && Chosen(o.s.kex.negotiated.value, theirs)
              else o.Failed? && o.error == Negotiation && o.s.out == s.out
  {
    hide Parse, Payload, NegotiateAll, StartKex, InitSent, Chosen, Agreeable;
    var cookie: Bytes16 :| s.kex.ownPayload == Payload(Ours(cookie));
    OurPayloadParses(cookie);
    var s1 := s.(kex := s.kex.(peerPayload := payload));
    match Parse(payload)
    case Err(_) =>
    case Ok(theirs) =>
      AllEarliest(cookie, theirs);
      if Agreeable(theirs) {
        var n := NegotiateAll(Ours(cookie), theirs).value;
        NegotiatedIsImplemented(cookie, theirs);
        StartSends(c, s1, n);
        SameOut(c, s, s1, StartKex(c, s1, n).s);
        StartKeepsPeer(c, s1, n);
      }
  }

  lemma SameOut(c: Suite, s: State, s1: State, t: State)
    requires InitSent(c, s1, t) && s1.out == s.out
    ensures InitSent(c, s, t)
  {
  }

  lemma StartKeepsPeer(c: Suite, s: State, n: Negotiated)
    requires StartKex(c, s, n).Fine?
    ensures StartKex(c, s, n).s.kex.peerPayload == s.kex.peerPayload
  {
  }

  // ---- two ciphers, one name -----------------------------------------------------------------------------

  /** A peer that offers one cipher for each direction, and otherwise our lists. */
  function OneWayEach(cookie: Bytes16): KexInit {
    Ours(cookie).(encryptionCs := [Packet.CHACHA_NAME], encryptionSc := [Packet.GCM_NAME])
  }

  lemma OneWayEachIsAgreeable(cookie: Bytes16)
    ensures AllSendable(OneWayEach(cookie)) && Agreeable(OneWayEach(cookie))
  {
    hide Sendable, Plain, Ascii;
    OurListsSendable();
    EncryptionNamesPlain();
    PlainNames([Packet.CHACHA_NAME]);
    PlainNames([Packet.GCM_NAME]);
    assert KEX_ALGORITHMS[0] in KEX_ALGORITHMS && HOST_KEY_ALGORITHMS[0] in HOST_KEY_ALGORITHMS;
    assert ENCRYPTION_ALGORITHMS[0] == Packet.CHACHA_NAME && ENCRYPTION_ALGORITHMS[1] == Packet.GCM_NAME;
  }

  /** The two directions may come to have different names: such a peer is answered, and the names are these. */
  lemma DirectionsMayDiffer(c: Suite, s: State, cookie: Bytes16)
    requires OwnKexinit(s.kex.ownPayload)
    ensures var o := HandlePeerKexinit(c, s, Payload(OneWayEach(cookie)));
            && o.Fine? && o.s.kex.negotiated.Some?
            && o.s.kex.negotiated.value.encryptionCs == Packet.CHACHA_NAME
            && o.s.kex.negotiated.value.encryptionSc == Packet.GCM_NAME
  {
    hide HandlePeerKexinit, Payload, Parse, AllSendable, Agreeable, Ascii, Reads, OwnKexinit;
    OneWayEachIsAgreeable(cookie);
    PayloadRoundTrip(OneWayEach(cookie));
    PeerKexinitHandled(c, s, Payload(OneWayEach(cookie)));
  }
}
