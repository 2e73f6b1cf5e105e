/**
  `Session` of ssh-core/src/session.rs as it runs: fields updated in place, a driving loop over the
  input buffer, an outgoing buffer and an event queue that the host drains. Every method is proved to
  do what the function of the same name in `SessionModel` says, so everything proved about runs of the
  model holds of this class.

  A Rust panic is a method that ends with `phase == Halted`; nothing else is said of the object then.
 */
module Session {
  import opened Prelude
  import opened Primitives
  import opened Packet
  import opened PacketStream
  import opened Events
  import opened PacketCipher
  import opened SessionChunks
  import M = SessionModel
  import Ident
  import Kdf
  import KexInit
  import Exchange
  import Auth
  import Channel
  import Connection
  import ChannelTable
  import Wire

  /** `Result<()>`, or a panic. */
  datatype Flow = Done | Raised(error: SshError) | Panicked

  /** `Result<bool>` of one pass of the loop, or a panic. */
  datatype Progress = Progressed | Stuck | Erred(error: SshError) | Died

  /** A handler that leaves the session in `now` ended as the model's did. */
  ghost predicate Ended(f: Flow, now: M.State, o: M.Outcome) {
    match o
    case Fine(s) => f == Done && now == s
    case Failed(s, e) => f == Raised(e) && now == s
    case Panic => f == Panicked
  }

  /** The object stands where the model's session does, or both have panicked. */
  ghost predicate Agree(now: M.State, incoming: Bytes, y: M.Session) {
    if y.core.phase == M.Halted then now.phase == M.Halted else now == y.core && incoming == y.incoming
  }

  /** A pass that handled something left the session in `now`, on the way to the model's `s`. */
  ghost predicate Passed(p: Progress, now: M.State, s: M.State) {
    match p
    case Progressed => now == s
    case Erred(e) => s == M.Fail(now, e)
    case Died => s.phase == M.Halted
    case Stuck => false
  }

  class Session {
    const rng: Rng
    const ident: Ident.IdentExchange
    const channels: ChannelTable.ChannelTable

    var phase: M.Phase
    var incoming: Bytes
    var outgoing: Bytes
    var events: seq<Event>

    var peerIdentLine: Bytes
    // The fields of the key exchange, from `own_kexinit_payload` to `pending_sc_cipher`, and `sc_cipher`.
    var kex: M.Kex
    var csCipher: Option<Cipher>

    var username: Option<Bytes>
    var pendingAuth: Option<M.PendingAuth>

    var channelSetup: map<U32, Connection.SetupStep>
    var pendingExec: map<U32, Bytes>
    var pendingPty: map<U32, Connection.Pty>

    // Everything ever sent and raised, and how much of it the host has taken.
    ghost var sent: seq<M.Sent>
    ghost var taken: nat
    ghost var raised: seq<Event>
    ghost var polled: nat

    /** What is buffered is exactly what has been produced and not yet taken. */
    ghost predicate Valid()
      reads this`outgoing, this`sent, this`taken, this`events, this`raised, this`polled
    {
      && taken <= |M.Render(rng.suite, sent)| && outgoing == M.Render(rng.suite, sent)[taken..]
      && polled <= |raised| && events == raised[polled..]
    }

    ghost function Core(): M.State
      reads this, rng, ident, channels
    {
      M.State(phase, M.Out(rng.drawn, sent, csCipher), raised,
              Ident.Scanner(ident.scanBuf, ident.totalScanned, ident.serverIdent), peerIdentLine,
              kex, username, pendingAuth,
              Connection.Conn(channels.channels, channels.nextId, channelSetup, pendingExec, pendingPty))
    }

    constructor (suite: Suite)
      ensures Valid() && Core() == M.INITIAL && incoming == [] && rng.suite == suite
      ensures outgoing == Ident.CLIENT_IDENT_LINE && events == []
      ensures fresh(rng) && fresh(ident) && fresh(channels)
    {
      rng := new Rng(suite);
      ident := new Ident.IdentExchange();
      channels := new ChannelTable.ChannelTable();
      phase := M.VersionExchange;
      incoming, events := [], [];
      peerIdentLine := [];
      kex := M.NO_KEX;
      csCipher, username, pendingAuth := None, None, None;
      channelSetup, pendingExec, pendingPty := map[], map[], map[];
      outgoing := Ident.CLIENT_IDENT_LINE;
      sent, taken, raised, polled := [M.Line(Ident.CLIENT_IDENT_LINE)], 0, [], 0;
      new;
      assert M.Render(suite, sent) == Ident.CLIENT_IDENT_LINE + [] by { assert sent[1..] == []; }
    }

    // ---- host-facing drains ------------------------------------------------------------------------

    /** The oldest event not yet polled; polling changes nothing else. */
    method PollEvent() returns (e: Option<Event>)
      requires Valid()
      modifies this`events, this`polled
      ensures Valid() && Core() == old(Core()) && incoming == old(incoming)
      ensures if old(polled) < |raised| then e == Some(raised[old(polled)]) && polled == old(polled) + 1
              else e == None && polled == old(polled)
    {
      if events == [] {
        return None;
      }
      e := Some(events[0]);
      events := events[1..];
      polled := polled + 1;
    }

    /** All bytes not yet taken, in order; taking them changes nothing else. */
    method TakeOutgoing() returns (out: Bytes)
      requires Valid()
      modifies this`outgoing, this`taken
      ensures Valid() && Core() == old(Core()) && incoming == old(incoming)
      ensures out == M.Render(rng.suite, sent)[old(taken)..] && taken == |M.Render(rng.suite, sent)| && outgoing == []
    {
      out := outgoing;
      outgoing := [];
      taken := |M.Render(rng.suite, sent)|;
    }

    // ---- producing -----------------------------------------------------------------------------------

    method PushEvent(e: Event)
      requires Valid()
      modifies this`events, this`raised
      ensures Valid() && raised == old(raised) + [e]
    {
      events := events + [e];
      raised := raised + [e];
    }

    method PushEvents(es: seq<Event>)
      requires Valid()
      modifies this`events, this`raised
      ensures Valid() && raised == old(raised) + es
    {
      var i := 0;
      assert raised + es[..0] == raised;
      while i < |es|
        invariant i <= |es| && Valid() && raised == old(raised) + es[..i]
      {
        PushEvent(es[i]);
        assert (old(raised) + es[..i]) + [es[i]] == old(raised) + es[..i + 1];
        i := i + 1;
      }
      assert es[..|es|] == es;
    }

    /** Append the bytes of one more item to the outgoing buffer. */
    method Transmit(wire: Bytes, ghost item: M.Sent)
      requires Valid() && wire == M.WireOf(rng.suite, item)
      modifies this`outgoing, this`sent
      ensures Valid() && sent == old(sent) + [item]
    {
      M.RenderAppend(rng.suite, sent, [item]);
      assert M.Render(rng.suite, [item]) == wire + [] by { assert [item][1..] == []; }
      outgoing := outgoing + wire;
      sent := sent + [item];
    }

    method SendPlaintext(payload: Bytes)
      requires Valid()
      modifies this`outgoing, this`sent, rng
      ensures Valid() && M.Out(rng.drawn, sent, csCipher) == M.SendPlain(rng.suite, old(M.Out(rng.drawn, sent, csCipher)), payload)
    {
      var wire := SealPlaintext(payload, rng);
      Transmit(wire, M.Sealed(None, payload, Draw(rng.suite, old(rng.drawn), PadFor(None, |payload|))));
    }

    /** False is the panic of sending with no cipher. */
    method SendCiphered(payload: Bytes) returns (ok: bool)
      requires Valid()
      modifies this`outgoing, this`sent, this`csCipher, rng
      ensures Valid()
      ensures match M.SendCiphered(rng.suite, old(M.Out(rng.drawn, sent, csCipher)), payload)
              case None => !ok && M.Out(rng.drawn, sent, csCipher) == old(M.Out(rng.drawn, sent, csCipher))
              case Some(out) => ok && M.Out(rng.drawn, sent, csCipher) == out
    {
      hide Valid, SealWire, PadFor, Advance;
      if csCipher.None? {
        return false;
      }
      var key := csCipher.value;
      var pad := PadFor(csCipher, |payload|);
      var padding := rng.Fill(pad);
      var wire := SealWire(rng.suite, csCipher, payload, padding);
      Transmit(wire, M.Sealed(csCipher, payload, padding));
      csCipher := Some(Advance(key));
      ok := true;
    }

    method SendPlaintextOrCiphered(payload: Bytes)
      requires Valid()
      modifies this`outgoing, this`sent, this`csCipher, rng
      ensures Valid() && M.Out(rng.drawn, sent, csCipher) == M.SendPlainOrCiphered(rng.suite, old(M.Out(rng.drawn, sent, csCipher)), payload)
    {
      if csCipher.None? {
        SendPlaintext(payload);
      } else {
        var _ := SendCiphered(payload);
      }
    }

    method SendEach(payloads: seq<Bytes>) returns (ok: bool)
      requires Valid()
      modifies this`outgoing, this`sent, this`csCipher, rng
      ensures Valid()
      ensures match M.SendEach(rng.suite, old(M.Out(rng.drawn, sent, csCipher)), payloads)
              case None => !ok
              case Some(out) => ok && M.Out(rng.drawn, sent, csCipher) == out
    {
      hide Valid, M.SendCiphered;
      var i := 0;
      assert payloads[0..] == payloads;
      while i < |payloads|
        invariant i <= |payloads| && Valid()
        invariant M.SendEach(rng.suite, old(M.Out(rng.drawn, sent, csCipher)), payloads) == M.SendEach(rng.suite, M.Out(rng.drawn, sent, csCipher), payloads[i..])
      {
        assert payloads[i..][1..] == payloads[i + 1..];
        var sentOne := SendCiphered(payloads[i]);
        if !sentOne {
          return false;
        }
        i := i + 1;
      }
      ok := true;
    }

    method Fail(e: SshError)
      requires Valid()
      modifies this`phase, this`events, this`raised
      ensures Valid() && Core() == M.Fail(old(Core()), e)
    {
      phase := M.Closed;
      PushEvent(Unrecoverable(e));
    }

    // ---- version exchange ------------------------------------------------------------------------------

    method SendOwnKexinit()
      requires Valid()
      modifies this`kex, this`outgoing, this`sent, rng
      ensures Valid()
      ensures var cookie: Bytes16 := Draw(rng.suite, old(rng.drawn), 16);
              && kex == old(kex).(ownPayload := KexInit.Payload(KexInit.Ours(cookie)))
              && M.Out(rng.drawn, sent, csCipher) == M.SendPlain(rng.suite, old(M.Out(rng.drawn + 16, sent, csCipher)), kex.ownPayload)
    {
      hide Valid, KexInit.Payload, KexInit.Ours, M.Emit;
      var cookie := rng.Fill(16);
      kex := kex.(ownPayload := KexInit.Payload(KexInit.Ours(cookie)));
      SendPlaintext(kex.ownPayload);
    }

    /** The identification line has been found: move on and send our KEXINIT. */
    method StartKeyExchange()
      requires Valid() && ident.IsDone()
      modifies this, rng
      ensures Valid() && Core() == M.BeginKex(rng.suite, old(Core())) && incoming == old(incoming)
    {
      hide Valid, KexInit.Payload, KexInit.Ours, M.SendPlain, Draw;
      peerIdentLine := ident.serverIdent.value;
      phase := M.KexInProgress;
      SendOwnKexinit();
    }

    /** One pass of the version exchange. On an error the buffer is left alone. */
    method DriveVersionExchange() returns (p: Progress)
      requires Valid() && phase == M.VersionExchange
      modifies this, rng, ident
      ensures Valid()
      ensures match M.IdentTurn(rng.suite, old(Core()), old(incoming))
              case None => p == Stuck && Core() == old(Core()) && incoming == old(incoming)
              case Some((n, s)) =>
                if M.Over(s.phase) then p == Erred(Framing) && M.Fail(Core(), Framing) == s && incoming == old(incoming)
                else Core() == s && incoming == old(incoming)[n..] && (p == Progressed || (p == Stuck && incoming == []))
    {
      hide Valid, Ident.Scan, M.BeginKex;
      ghost var scanner, before := ident.State(), Core();
      forall i ensures M.BeginKex(rng.suite, before.(ident := i)).phase == M.KexInProgress {
        BeginsKex(rng.suite, before.(ident := i));
      }
      if incoming == [] { ScanNothing(scanner); }
      if ident.IsDone() {
        return Stuck;
      }
      var fed := ident.Feed(incoming);
      match fed
      case Err(e) =>
        p := Erred(e);
      case Ok(consumed) =>
        incoming := incoming[consumed..];
        if !ident.IsDone() {
          return Stuck;
        }
        StartKeyExchange();
        p := Progressed;
    }

    lemma BeginsKex(c: Suite, s: M.State)
      ensures M.BeginKex(c, s).phase == M.KexInProgress
    {
    }

    lemma ScanNothing(s: Ident.Scanner)
      ensures Ident.Scan(s, []) == Ident.More(s)
    {
    }

    // ---- key exchange ----------------------------------------------------------------------------------

    method HandlePeerKexinit(payload: Bytes) returns (f: Flow)
      requires Valid()
      modifies this, rng
      ensures Valid() && incoming == old(incoming) && Ended(f, Core(), M.HandlePeerKexinit(rng.suite, old(Core()), payload))
    {
      hide Valid, KexInit.Parse, KexInit.NegotiateAll, M.StartKex;
      kex := kex.(peerPayload := payload);
      var ours := KexInit.Parse(kex.ownPayload);
      if ours.Err? {
        return Raised(ours.error);
      }
      var theirs := KexInit.Parse(payload);
      if theirs.Err? {
        return Raised(theirs.error);
      }
      var agreed := KexInit.NegotiateAll(ours.value, theirs.value);
      if agreed.Err? {
        return Raised(agreed.error);
      }
      f := StartKex(agreed.value);
    }

    method SendKexInit(n: KexInit.Negotiated, active: M.ActiveKex, msg: Bytes)
      requires Valid()
      modifies this, rng
      ensures Valid() && incoming == old(incoming)
      ensures Core() == M.SendKexInit(rng.suite, old(Core()), n, active, 0, msg)
    {
      hide Valid, M.SendPlainOrCiphered;
      kex := kex.(active := Some(active));
      SendPlaintextOrCiphered(msg);
      kex := kex.(negotiated := Some(n));
    }

    /** Generate an ephemeral key for the negotiated exchange and send its public half. */
    method StartKex(n: KexInit.Negotiated) returns (f: Flow)
      requires Valid()
      modifies this, rng
      ensures Valid() && incoming == old(incoming) && Ended(f, Core(), M.StartKex(rng.suite, old(Core()), n))
    {
      hide Valid, Exchange.CurveInit, Exchange.Group14Init, M.SendPlainOrCiphered, Ascii, Draw;
      if n.kex == KexInit.CURVE25519 {
        var secret := rng.Fill(32);
        SendKexInit(n, M.Curve25519(secret), Exchange.CurveInit(rng.suite.x25519Public(secret)));
      } else if n.kex == KexInit.GROUP14 {
        var secret := rng.Fill(256);
        SendKexInit(n, M.Group14(secret), Exchange.Group14Init(rng.suite.group14Public(secret)));
      } else {
        return Raised(Negotiation);
      }
      f := Done;
    }

    method HandleCurve25519Reply(secret: Bytes, payload: Bytes) returns (f: Flow)
      requires Valid() && kex.active == Some(M.Curve25519(secret))
      modifies this
      ensures Valid() && incoming == old(incoming) && Ended(f, Core(), M.HandleCurveReply(rng.suite, old(Core()), secret, payload))
    {
      hide Valid, Exchange.ParseCurveReply, Exchange.CurveHash, M.VerifyReply, M.OnKexResult;
      var parsed := Exchange.ParseCurveReply(payload);
      if parsed.Err? {
        return Raised(parsed.error);
      }
      var r := parsed.value;
      kex := kex.(active := None);
      if |r.peerPublic| != 32 {
        return Raised(Framing);
      }
      var shared := rng.suite.x25519Shared(secret, r.peerPublic);
      if shared.None? {
        return Raised(Negotiation);
      }
      var transcript :=
        Exchange.Transcript(Ident.CLIENT_IDENT, peerIdentLine, kex.ownPayload, kex.peerPayload, r.hostKey);
      var h := Exchange.CurveHash(rng.suite, transcript, rng.suite.x25519Public(secret), r.peerPublic, shared.value);
      var bad := M.VerifyReply(rng.suite, r, h);
      if bad.Some? {
        return Raised(bad.value);
      }
      f := OnKexResult(r.hostKey, h, shared.value);
    }

    method HandleDhGroup14Reply(secret: Bytes, payload: Bytes) returns (f: Flow)
      requires Valid() && kex.active == Some(M.Group14(secret))
      modifies this
      ensures Valid() && incoming == old(incoming) && Ended(f, Core(), M.HandleGroup14Reply(rng.suite, old(Core()), secret, payload))
    {
      hide Valid, Exchange.ParseReply, Exchange.Group14Hash, M.VerifyReply, M.OnKexResult;
      var parsed := Exchange.ParseReply(payload);
      if parsed.Err? {
        return Raised(parsed.error);
      }
      var r := parsed.value;
      kex := kex.(active := None);
      var shared := rng.suite.group14Shared(secret, r.peerPublic);
      if shared.Err? {
        return Raised(shared.error);
      }
      var transcript :=
        Exchange.Transcript(Ident.CLIENT_IDENT, peerIdentLine, kex.ownPayload, kex.peerPayload, r.hostKey);
      var h := Exchange.Group14Hash(rng.suite, transcript, rng.suite.group14Public(secret), r.peerPublic, shared.value);
      var bad := M.VerifyReply(rng.suite, r, h);
      if bad.Some? {
        return Raised(bad.value);
      }
      f := OnKexResult(r.hostKey, h, shared.value);
    }

    /** All four secrets, each from the KDF loop. */
    static method DeriveCiphers(c: Suite, alg: Alg, shared: Bytes, h: Bytes, sid: Bytes) returns (pair: M.CipherPair)
      ensures pair == M.DerivePair(c, alg, shared, h, sid)
    {
      hide Kdf.Mpint, Kdf.Derive;
      var k := Kdf.Mpint(shared);
      var csKey := Kdf.DeriveKey(c, k, h, sid, M.TAG_KEY_CS, KeyLen(alg));
      var csIv := Kdf.DeriveKey(c, k, h, sid, M.TAG_IV_CS, IvLen(alg));
      var scKey := Kdf.DeriveKey(c, k, h, sid, M.TAG_KEY_SC, KeyLen(alg));
      var scIv := Kdf.DeriveKey(c, k, h, sid, M.TAG_IV_SC, IvLen(alg));
      pair := M.CipherPair(CipherState(alg, csKey, csIv, M.PLAINTEXT_PACKETS_BEFORE_NEWKEYS),
                           CipherState(alg, scKey, scIv, M.PLAINTEXT_PACKETS_BEFORE_NEWKEYS));
    }

    /** Derive the ciphers, and pause for the host's decision. */
    method OnKexResult(hostKey: Bytes, h: Bytes, shared: Bytes) returns (f: Flow)
      requires Valid()
      modifies this
      ensures Valid() && incoming == old(incoming) && Ended(f, Core(), M.OnKexResult(rng.suite, old(Core()), hostKey, h, shared))
    {
      hide Valid, FromName, M.DerivePair, Draw, Ascii;
      if kex.negotiated.None? {
        return Panicked;
      }
      var found := FromName(kex.negotiated.value.encryptionCs);
      if found.None? {
        return Raised(Negotiation);
      }
      var sid := if kex.sessionId.Some? then kex.sessionId.value else h;
      var pair := DeriveCiphers(rng.suite, found.value, shared, h, sid);
      AskHost(pair, sid, hostKey);
      f := Done;
    }

    method AskHost(pair: M.CipherPair, sid: Bytes, hostKey: Bytes)
      requires Valid()
      modifies this`kex, this`phase, this`events, this`raised
      ensures Valid() && phase == M.AwaitingHostKeyDecision
      ensures kex == old(kex).(pendingCiphers := Some(pair), sessionId := Some(sid), pendingHostKey := Some(hostKey))
      ensures raised == old(raised) + [HostKeyVerify(rng.suite.keyName(hostKey), rng.suite.fingerprint(hostKey), hostKey)]
    {
      kex := kex.(pendingCiphers := Some(pair), sessionId := Some(sid), pendingHostKey := Some(hostKey));
      phase := M.AwaitingHostKeyDecision;
      PushEvent(HostKeyVerify(rng.suite.keyName(hostKey), rng.suite.fingerprint(hostKey), hostKey));
    }

    method HandleNewkeys() returns (f: Flow)
      requires Valid()
      modifies this
      ensures Valid() && incoming == old(incoming) && Ended(f, Core(), M.HandleNewkeys(old(Core())))
    {
      kex := kex.(sc := kex.pendingSc, pendingSc := None);
      if csCipher.None? || kex.sc.None? {
        return Raised(UnexpectedMessage(KexInit.MSG_NEWKEYS));
      }
      f := Done;
    }

    // ---- service request and authentication --------------------------------------------------------------

    method HandleServiceAccept(payload: Bytes) returns (f: Flow)
      requires Valid()
      modifies this
      ensures Valid() && incoming == old(incoming) && Ended(f, Core(), M.HandleServiceAccept(old(Core()), payload))
    {
      hide Valid, Auth.ParseServiceAccept, Auth.ServiceUserauth;
      var service := Auth.ParseServiceAccept(payload);
      if service.Err? {
        return Raised(service.error);
      }
      if service.value != Auth.ServiceUserauth() {
        return Raised(Negotiation);
      }
      phase := M.UserAuth;
      PushEvent(ReadyForAuth);
      f := Done;
    }

    method HandleUserauthFailure(payload: Bytes) returns (f: Flow)
      requires Valid()
      modifies this
      ensures Valid() && incoming == old(incoming) && Ended(f, Core(), M.HandleUserauthFailure(old(Core()), payload))
    {
      hide Valid, Auth.ParseFailure;
      var methods := Auth.ParseFailure(payload);
      if methods.Err? {
        return Raised(methods.error);
      }
      pendingAuth := None;
      PushEvent(Event.AuthFailure(methods.value));
      f := Done;
    }

    method HandleUserauthSuccess() returns (f: Flow)
      requires Valid()
      modifies this
      ensures Valid() && incoming == old(incoming) && Ended(f, Core(), M.HandleUserauthSuccess(old(Core())))
    {
      pendingAuth := None;
      phase := M.Connected;
      PushEvent(Event.AuthSuccess);
      f := Done;
    }

    method HandleUserauthPkOk(payload: Bytes) returns (f: Flow)
      requires Valid()
      modifies this, rng
      ensures Valid() && incoming == old(incoming) && Ended(f, Core(), M.HandlePkOk(rng.suite, old(Core()), payload))
    {
      hide Valid, Auth.ParsePkOk, M.SendCiphered, Auth.SignedData, Auth.SignedRequest;
      if pendingAuth.None? || !pendingAuth.value.PublicKeyQuery? {
        return Raised(UnsupportedAuthMethod);
      }
      var q := pendingAuth.value;
      pendingAuth := None;
      var parsed := Auth.ParsePkOk(payload);
      if parsed.Err? {
        return Raised(parsed.error);
      }
      if kex.sessionId.None? {
        return Panicked;
      }
      f := SendSigned(q, kex.sessionId.value);
    }

    /** Sign, and send the signed request. */
    method SendSigned(q: M.PendingAuth, sid: Bytes) returns (f: Flow)
      requires Valid() && q.PublicKeyQuery?
      modifies this, rng
      ensures Valid() && incoming == old(incoming)
      ensures match rng.suite.sign(q.key, Auth.SignedData(sid, q.user, q.algorithm, q.blob))
              case None => f == Raised(SigningFailed) && Core() == old(Core())
              case Some(signature) =>
                match M.SendCiphered(rng.suite, old(M.Out(rng.drawn, sent, csCipher)), Auth.SignedRequest(q.user, q.algorithm, q.blob, signature))
                case None => f == Panicked
                case Some(out) => f == Done && Core() == old(Core()).(pendingAuth := Some(M.PublicKeySigned), out := out)
    {
      hide Valid, M.SendCiphered, Auth.SignedData, Auth.SignedRequest;
      var signature := rng.suite.sign(q.key, Auth.SignedData(sid, q.user, q.algorithm, q.blob));
      if signature.None? {
        return Raised(SigningFailed);
      }
      pendingAuth := Some(M.PublicKeySigned);
      var ok := SendCiphered(Auth.SignedRequest(q.user, q.algorithm, q.blob, signature.value));
      f := if ok then Done else Panicked;
    }

    // ---- connection protocol -----------------------------------------------------------------------------

    method HandleGlobalRequest(payload: Bytes) returns (f: Flow)
      requires Valid() && |payload| > 0
      modifies this, rng
      ensures Valid() && incoming == old(incoming) && Ended(f, Core(), M.HandleGlobalRequest(rng.suite, old(Core()), payload))
    {
      hide Valid, M.ParseGlobalRequest, M.SendCiphered;
      var wantReply := M.ParseGlobalRequest(payload[1..]);
      if wantReply.Err? {
        return Raised(wantReply.error);
      }
      if wantReply.value {
        var ok := SendCiphered([M.MSG_REQUEST_FAILURE]);
        return if ok then Done else Panicked;
      }
      f := Done;
    }

    /** `continue_channel_setup`. */
    method ContinueChannelSetup(id: U32, reply: Option<bool>) returns (f: Flow)
      requires Valid()
      modifies this, rng, channels
      ensures Valid() && incoming == old(incoming)
      ensures Ended(f, Core(), M.React(rng.suite, old(Core()), Connection.ContinueSetup(old(Core()).conn, id, reply)))
    {
      hide Valid, M.SendEach, Connection.Abandon, Connection.ExecRequest, Connection.PtyRequest, Connection.ShellRequest,
           Channel.IdMessage, Ascii, Connection.DefaultPty;
      M.SendEachNone(rng.suite, M.Out(rng.drawn, sent, csCipher));
      if id !in channelSetup {
        return Done;
      }
      var step := channelSetup[id];
      var remoteId := if id in channels.channels then channels.channels[id].remoteId else None;
      if reply == Some(false) {
        f := AbandonChannel(id, remoteId);
        return;
      }
      if remoteId.None? {
        return Panicked;
      }
      f := NextSetupStep(id, step, remoteId.value, reply.Some?);
    }

    /** The channel is confirmed, or its last request was granted. */
    method NextSetupStep(id: U32, step: Connection.SetupStep, remote: U32, granted: bool) returns (f: Flow)
      requires Valid()
      modifies this`channelSetup, this`pendingExec, this`pendingPty, this`outgoing, this`sent, this`csCipher, rng
      ensures Valid()
      ensures var msg := SetupMessage(step, granted, remote, old(pendingExec), old(pendingPty), id);
              match M.SendEach(rng.suite, old(M.Out(rng.drawn, sent, csCipher)), msg)
              case None => f == Panicked
              case Some(out) => f == Done && M.Out(rng.drawn, sent, csCipher) == out
      ensures pendingExec == (if step.AwaitingExecReply? && !granted then old(pendingExec) - {id} else old(pendingExec))
      ensures pendingPty == (if step.AwaitingPtyReply? && !granted then old(pendingPty) - {id} else old(pendingPty))
      ensures channelSetup == (if step.AwaitingShellReply? || (step.AwaitingExecReply? && granted) then old(channelSetup) - {id}
                               else if step.AwaitingPtyReply? && granted then
                                 old(channelSetup)[id := Connection.AwaitingShellReply]
                               else old(channelSetup))
    {
      hide Valid, M.SendEach, Connection.ExecRequest, Connection.PtyRequest, Connection.ShellRequest,
           Connection.DefaultPty;
      M.SendEachNone(rng.suite, M.Out(rng.drawn, sent, csCipher));
      f := Done;
      match step {
        case AwaitingExecReply =>
          if !granted {
            var command := if id in pendingExec then pendingExec[id] else [];
            pendingExec := pendingExec - {id};
            f := SendOne(Connection.ExecRequest(remote, command));
          } else {
            channelSetup := channelSetup - {id};
          }
        case AwaitingPtyReply =>
          if !granted {
            var pty := if id in pendingPty then pendingPty[id] else Connection.DefaultPty();
            pendingPty := pendingPty - {id};
            f := SendOne(Connection.PtyRequest(remote, pty));
          } else {
            channelSetup := channelSetup[id := Connection.AwaitingShellReply];
            f := SendOne(Connection.ShellRequest(remote));
          }
        case AwaitingShellReply =>
          channelSetup := channelSetup - {id};
      }
    }

    /** The request that a setup step sends, if any. */
    static function SetupMessage(step: Connection.SetupStep, granted: bool, remote: U32, commands: map<U32, Bytes>,
                                 ptys: map<U32, Connection.Pty>, id: U32): seq<Bytes> {
      match step
      case AwaitingExecReply =>
        if granted then [] else [Connection.ExecRequest(remote, if id in commands then commands[id] else [])]
      case AwaitingPtyReply =>
        if granted then [Connection.ShellRequest(remote)]
        else [Connection.PtyRequest(remote, if id in ptys then ptys[id] else Connection.DefaultPty())]
      case AwaitingShellReply => []
    }

    /** One ciphered message, or the panic of having no cipher. */
    method SendOne(payload: Bytes) returns (f: Flow)
      requires Valid()
      modifies this`outgoing, this`sent, this`csCipher, rng
      ensures Valid()
      ensures match M.SendEach(rng.suite, old(M.Out(rng.drawn, sent, csCipher)), [payload])
              case None => f == Panicked
              case Some(out) => f == Done && M.Out(rng.drawn, sent, csCipher) == out
    {
      hide Valid, M.SendCiphered, M.SendEach;
      M.SendEachOne(rng.suite, M.Out(rng.drawn, sent, csCipher), payload);
      var ok := SendCiphered(payload);
      f := if ok then Done else Panicked;
    }

    method AbandonChannel(id: U32, remoteId: Option<U32>) returns (f: Flow)
      requires Valid() && remoteId == Connection.RemoteId(Core().conn, id)
      modifies this, rng, channels
      ensures Valid() && incoming == old(incoming)
      ensures Ended(f, Core(), M.React(rng.suite, old(Core()), Connection.Abandon(old(Core()).conn, id)))
    {
      hide Valid, M.SendEach, Channel.IdMessage, Connection.ClosedDescription;
      channelSetup := channelSetup - {id};
      channels.Remove(id);
      f := SendIfOpen(remoteId, Channel.MSG_CHANNEL_CLOSE);
      if f == Done {
        PushEvent(ChannelOpenFailed(id, 0, Connection.ClosedDescription()));
      }
    }

    /** A message that holds only the peer's channel id, if that is known. */
    method SendIfOpen(remoteId: Option<U32>, msg: Byte) returns (f: Flow)
      requires Valid()
      modifies this`outgoing, this`sent, this`csCipher, rng
      ensures Valid()
      ensures match M.SendEach(rng.suite, old(M.Out(rng.drawn, sent, csCipher)),
                               match remoteId case None => [] case Some(remote) => [Channel.IdMessage(msg, remote)])
              case None => f == Panicked
              case Some(out) => f == Done && M.Out(rng.drawn, sent, csCipher) == out
    {
      hide Valid, M.SendEach, Channel.IdMessage;
      M.SendEachNone(rng.suite, M.Out(rng.drawn, sent, csCipher));
      f := Done;
      if remoteId.Some? {
        f := SendOne(Channel.IdMessage(msg, remoteId.value));
      }
    }

    method HandleChannelReply(payload: Bytes, success: bool) returns (f: Flow)
      requires Valid() && |payload| > 0
      modifies this, rng, channels
      ensures Valid() && incoming == old(incoming)
      ensures Ended(f, Core(), M.React(rng.suite, old(Core()), Connection.OnReply(old(Core()).conn, payload[1..], success)))
    {
      hide Valid, Wire.GetU32, Connection.ContinueSetup;
      var id := Wire.GetU32(payload[1..]);
      if id.Err? {
        return Raised(id.error);
      }
      f := ContinueChannelSetup(id.value.0, Some(success));
    }

    /** Channel messages: the table reacts first; a channel just confirmed goes on with its setup. */
    method HandleChannelMessage(msg: Byte, payload: Bytes) returns (f: Flow)
      requires Valid() && |payload| > 0 && ChannelTable.IsTableMessage(msg)
      modifies this, rng, channels
      ensures Valid() && incoming == old(incoming)
      ensures Ended(f, Core(), M.React(rng.suite, old(Core()), Connection.OnMessage(old(Core()).conn, msg, payload[1..])))
    {
      hide Valid, M.SendEach, Connection.OnMessage, Connection.OnConfirmation, Connection.ContinueSetup,
           Connection.ParseConfirmation;
      ghost var conn := Core().conn;
      OpenedOnlyByConfirmation(conn, msg, payload[1..]);
      var handled := channels.HandleMessage(msg, payload[1..], conn);
      match handled {
        case Refused(e) =>
          return Raised(e);
        case Panicked =>
          return Flow.Panicked;
        case Handled(raisedNow, outgoing) =>
          if |raisedNow| > 0 && raisedNow[0].ChannelOpened? {
            f := FinishConfirmation(raisedNow[0].id, raisedNow, payload[1..], conn);
          } else {
            PushEvents(raisedNow);
            var ok := SendEach(outgoing);
            f := if ok then Done else Flow.Panicked;
          }
      }
    }

    /** The second half of a confirmation: setup first, then the event. */
    method FinishConfirmation(id: U32, raisedNow: seq<Event>, fields: Bytes, ghost before: Connection.Conn) returns (f: Flow)
      requires Valid() && raisedNow == [ChannelOpened(id)]
      requires Connection.OnConfirmation(before, fields) == Connection.Reacted(Core().conn, [], raisedNow)
      requires Connection.ParseConfirmation(fields).Ok? && Connection.ParseConfirmation(fields).value.id == id
      modifies this, rng, channels
      ensures Valid() && incoming == old(incoming)
      ensures Ended(f, Core(), M.React(rng.suite, old(Core()).(conn := before),
                                       Connection.OnConfirmationAndSetup(before, fields)))
    {
      hide Valid, M.SendEach, Connection.OnConfirmation, Connection.ContinueSetup, Connection.ParseConfirmation;
      SetupNeverRefuses(Core().conn, id);
      f := ContinueChannelSetup(id, None);
      if f == Done {
        PushEvents(raisedNow);
        assert (old(raised) + []) + raisedNow == old(raised) + ([] + raisedNow);
      }
    }

    static lemma SetupNeverRefuses(conn: Connection.Conn, id: U32)
      ensures !Connection.ContinueSetup(conn, id, None).Refused?
      ensures Connection.ContinueSetup(conn, id, None).Reacted? ==> Connection.ContinueSetup(conn, id, None).events == []
    {
      hide Connection.ExecRequest, Connection.PtyRequest, Connection.ShellRequest, Connection.Abandon,
           Connection.DefaultPty;
    }

    static lemma OpenedOnlyByConfirmation(conn: Connection.Conn, msg: Byte, fields: Bytes)
      requires ChannelTable.IsTableMessage(msg)
      ensures var r := ChannelTable.OnTableMessage(conn, msg, fields);
              r.Reacted? ==>
                if msg == Channel.MSG_CHANNEL_OPEN_CONFIRMATION then
                  && Connection.ParseConfirmation(fields).Ok?
                  && r.events == [ChannelOpened(Connection.ParseConfirmation(fields).value.id)] && r.sends == []
                else |r.events| > 0 ==> !r.events[0].ChannelOpened?
      ensures msg != Channel.MSG_CHANNEL_OPEN_CONFIRMATION ==>
                ChannelTable.OnTableMessage(conn, msg, fields) == Connection.OnMessage(conn, msg, fields)
      ensures msg == Channel.MSG_CHANNEL_OPEN_CONFIRMATION ==>
                && ChannelTable.OnTableMessage(conn, msg, fields) == Connection.OnConfirmation(conn, fields)
                && Connection.OnMessage(conn, msg, fields) == Connection.OnConfirmationAndSetup(conn, fields)
    {
      hide Connection.ParseConfirmation, Connection.ContinueSetup, Connection.ParseIdAndNumber, Connection.ParseIdAndData,
           Connection.ParseExtended, Connection.ParseServerRequest, Wire.GetU32, Wire.GetUtf8, Connection.DescriptionOr,
           Channel.IdMessage, Channel.AdjustMessage, Connection.NameExitStatus, Connection.NameExitSignal;
    }

    // ---- dispatch and driving -------------------------------------------------------------------------

    method HandleDisconnect(payload: Bytes) returns (f: Flow)
      requires Valid() && |payload| > 0
      modifies this
      ensures Valid() && incoming == old(incoming) && Ended(f, Core(), M.HandleDisconnect(old(Core()), payload))
    {
      hide Valid, M.ParseDisconnect;
      var event := M.ParseDisconnect(payload[1..]);
      if event.Err? {
        return Raised(event.error);
      }
      phase := M.Closed;
      PushEvent(event.value);
      f := Done;
    }

    method HandleKexReply(payload: Bytes) returns (f: Flow)
      requires Valid()
      modifies this
      ensures Valid() && incoming == old(incoming) && Ended(f, Core(), M.HandleKexReply(rng.suite, old(Core()), payload))
    {
      hide Valid, M.HandleCurveReply, M.HandleGroup14Reply;
      match kex.active
      case Some(Curve25519(secret)) => f := HandleCurve25519Reply(secret, payload);
      case Some(Group14(secret)) => f := HandleDhGroup14Reply(secret, payload);
      case None => f := Raised(UnexpectedMessage(Exchange.MSG_KEX_REPLY));
    }

    method Dispatch(payload: Bytes) returns (f: Flow)
      requires Valid() && |payload| > 0
      modifies this, rng, channels
      ensures Valid() && incoming == old(incoming) && Ended(f, Core(), M.Dispatch(rng.suite, old(Core()), payload))
    {
      hide Valid, M.HandleDisconnect, M.HandlePeerKexinit, M.HandleKexReply, M.HandleNewkeys, M.HandleServiceAccept,
           M.HandleUserauthFailure, M.HandleUserauthSuccess, M.HandlePkOk, M.HandleGlobalRequest, M.React,
           Connection.OnReply;
      var msg := payload[0];
      if msg == 1 {
        f := HandleDisconnect(payload);
      } else if msg == 2 || msg == 3 || msg == 4 {
        f := Done;
      } else if msg == KexInit.MSG_KEXINIT {
        f := HandlePeerKexinit(payload);
      } else if msg == Exchange.MSG_KEX_REPLY {
        f := HandleKexReply(payload);
      } else if msg == KexInit.MSG_NEWKEYS {
        f := HandleNewkeys();
      } else if msg == Auth.MSG_SERVICE_ACCEPT {
        f := HandleServiceAccept(payload);
      } else if msg == Auth.MSG_USERAUTH_FAILURE {
        f := HandleUserauthFailure(payload);
      } else if msg == Auth.MSG_USERAUTH_SUCCESS {
        f := HandleUserauthSuccess();
      } else if msg == Auth.MSG_USERAUTH_PK_OK {
        f := HandleUserauthPkOk(payload);
      } else if ChannelTable.IsTableMessage(msg) {
        f := HandleChannelMessage(msg, payload);
      } else if msg == Channel.MSG_CHANNEL_SUCCESS || msg == Channel.MSG_CHANNEL_FAILURE {
        RepliesGoToSetup(Core().conn, msg, payload[1..]);
        f := HandleChannelReply(payload, msg == Channel.MSG_CHANNEL_SUCCESS);
      } else if msg == M.MSG_GLOBAL_REQUEST {
        f := HandleGlobalRequest(payload);
      } else {
        f := Raised(UnexpectedMessage(msg));
      }
    }

    static lemma RepliesGoToSetup(conn: Connection.Conn, msg: Byte, fields: Bytes)
      requires msg == Channel.MSG_CHANNEL_SUCCESS || msg == Channel.MSG_CHANNEL_FAILURE
      ensures Connection.OnMessage(conn, msg, fields) == Connection.OnReply(conn, fields, msg == Channel.MSG_CHANNEL_SUCCESS)
    {
      hide Connection.OnReply;
    }

    /** Take one whole packet off the buffer, open it and dispatch it. */
    method OpenPacket(total: nat) returns (p: Progress)
      requires Valid() && total <= |incoming|
      modifies this, rng, channels
      ensures Valid() && (p != Died ==> incoming == old(incoming)[total..])
      ensures var (next, plain) := OpenWire(rng.suite, old(kex.sc), old(incoming)[..total]);
              match plain
              case Ok(payload) => Passed(p, Core(), M.Deliver(rng.suite, old(Core()), next, payload))
              case Err(e) => Passed(p, Core(), M.Fail(M.WithSc(old(Core()), next), e))
    {
      hide Valid, OpenWire, M.Dispatch;
      var wire := incoming[..total];
      incoming := incoming[total..];
      var (next, plain) := OpenWire(rng.suite, kex.sc, wire);
      kex := kex.(sc := next);
      if plain.Err? {
        return Erred(plain.error);
      }
      if plain.value == [] {
        return Erred(Framing);
      }
      var f := Dispatch(plain.value);
      match f
      case Done => p := Progressed;
      case Raised(e) => p := Erred(e);
      case Panicked => p := Died;
    }

    /** One pass of the loop shared by every later phase: peek, buffer, open, dispatch. */
    method DrivePacketPhase() returns (p: Progress)
      requires Valid()
      modifies this, rng, channels
      ensures Valid()
      ensures match M.PacketTurn(rng.suite, old(Core()), old(incoming))
              case None => p == Stuck && Core() == old(Core()) && incoming == old(incoming)
              case Some((n, s)) => (p != Died ==> incoming == old(incoming)[n..]) && Passed(p, Core(), s)
    {
      hide Valid, OpenWire, PeekTotal, M.Deliver;
      if |incoming| < 4 {
        return Stuck;
      }
      var peeked := PeekTotal(rng.suite, kex.sc, incoming[..4]);
      if peeked.Err? {
        PeekFailsAsFraming(rng.suite, kex.sc, incoming[..4]);
        return Erred(Framing);
      }
      if |incoming| < peeked.value {
        return Stuck;
      }
      p := OpenPacket(peeked.value);
    }

    static lemma PeekFailsAsFraming(c: Suite, k: Option<Cipher>, first4: Bytes4)
      ensures PeekTotal(c, k, first4).Err? ==> PeekTotal(c, k, first4).error == Framing
    {
      hide ClearLength;
    }

    /** Keep making progress until the input is exhausted, the session pauses, or it is over. */
    method Drive()
      requires Valid() && phase != M.Halted
      modifies this, rng, ident, channels
      ensures Valid() && Agree(Core(), incoming, M.Drive(rng.suite, old(Core()), old(incoming)))
    {
      hide Valid, M.Drive, M.Turn, M.IdentTurn, M.PacketTurn;
      while true
        invariant Valid()
        invariant M.Drive(rng.suite, old(Core()), old(incoming)) == M.Drive(rng.suite, Core(), incoming)
        decreases |incoming|, if M.Over(phase) then 0 else 1
      {
        ghost var before, buf := Core(), incoming;
        if M.Idle(phase) {
          DriveIdle(rng.suite, before, buf);
          return;
        }
        TurnByPhase(rng.suite, before, buf);
        var p;
        if phase == M.VersionExchange {
          p := DriveVersionExchange();
        } else {
          p := DrivePacketPhase();
        }
        match p {
          case Progressed =>
            DriveTurn(rng.suite, before, buf);
          case Stuck =>
            if M.Turn(rng.suite, before, buf).None? {
              DriveStuck(rng.suite, before, buf);
            } else {
              DriveTurn(rng.suite, before, buf);
              NothingToDo(rng.suite, Core());
            }
            return;
          case Erred(e) =>
            ghost var after := M.Fail(Core(), e);
            DriveTurn(rng.suite, before, buf);
            DriveIdle(rng.suite, after, buf[M.Turn(rng.suite, before, buf).value.0..]);
            FailsUnconsumed(rng.suite, before, buf);
            Fail(e);
            return;
          case Died =>
            DriveTurn(rng.suite, before, buf);
            DriveIdle(rng.suite, M.Turn(rng.suite, before, buf).value.1, buf[M.Turn(rng.suite, before, buf).value.0..]);
            phase := M.Halted;
            return;
        }
      }
    }

    static lemma TurnByPhase(c: Suite, s: M.State, buf: Bytes)
      ensures M.Turn(c, s, buf) == if s.phase == M.VersionExchange then M.IdentTurn(c, s, buf) else M.PacketTurn(c, s, buf)
    {
      hide M.IdentTurn, M.PacketTurn;
    }

    /** A version exchange that fails has consumed nothing. */
    static lemma FailsUnconsumed(c: Suite, s: M.State, buf: Bytes)
      ensures s.phase == M.VersionExchange && M.IdentTurn(c, s, buf).Some? && M.Over(M.IdentTurn(c, s, buf).value.1.phase) ==>
                M.IdentTurn(c, s, buf).value.0 == 0 && buf[0..] == buf
    {
      hide Ident.Scan, M.BeginKex;
      forall t ensures M.BeginKex(c, t).phase == M.KexInProgress { BeginKexPhase(c, t); }
    }

    // ---- the public methods: each is the model's `Do` --------------------------------------------------

    method FeedIncoming(bytes: Bytes)
      requires Valid() && phase != M.Halted
      modifies this, rng, ident, channels
      ensures Valid()
      ensures Agree(Core(), incoming, M.Do(rng.suite, old(M.Session(Core(), incoming)), M.FeedIncoming(bytes)))
    {
      hide Valid, M.Drive;
      incoming := incoming + bytes;
      Drive();
    }

    method NotifyTransportClosed()
      requires Valid() && phase != M.Halted
      modifies this, rng, ident, channels
      ensures Valid()
      ensures Agree(Core(), incoming, M.Do(rng.suite, old(M.Session(Core(), incoming)), M.NotifyTransportClosed))
    {
      if phase != M.Closed {
        Fail(TransportClosed);
      }
    }

    /** Our sending cipher is active from here on; the receiving one waits for the peer's NEWKEYS. */
    method PromoteCiphers()
      modifies this`kex, this`csCipher
      ensures match old(kex.pendingCiphers)
              case None => csCipher == old(csCipher) && kex == old(kex).(pendingHostKey := None)
              case Some(pair) =>
                && csCipher == Some(pair.cs)
                && kex == old(kex).(pendingHostKey := None, pendingCiphers := None, pendingSc := Some(pair.sc))
    {
      kex := kex.(pendingHostKey := None);
      if kex.pendingCiphers.Some? {
        csCipher := Some(kex.pendingCiphers.value.cs);
        kex := kex.(pendingSc := Some(kex.pendingCiphers.value.sc), pendingCiphers := None);
      }
    }

    /** Our NEWKEYS in the clear, the ciphers into place, then the first ciphered packet. */
    method AcceptHostKey()
      requires Valid() && phase == M.AwaitingHostKeyDecision
      modifies this`outgoing, this`sent, this`csCipher, this`kex, this`phase, rng
      ensures Valid()
      ensures var t := M.Accepted(rng.suite, old(Core()));
              if t.phase == M.Halted then phase == M.Halted
              else phase == t.phase && kex == t.kex && M.Out(rng.drawn, sent, csCipher) == t.out
    {
      hide Valid, M.SendPlain, M.SendCiphered, Auth.ServiceRequest, Auth.ServiceUserauth;
      SendPlaintext([KexInit.MSG_NEWKEYS]);
      PromoteCiphers();
      phase := M.ServiceRequest;
      var ok := SendCiphered(Auth.ServiceRequest(Auth.ServiceUserauth()));
      if !ok {
        phase := M.Halted;
      }
    }

    /** Accepting touches the phase, the output and the key-exchange fields, nothing else. */
    static lemma AcceptedFrame(c: Suite, s: M.State)
      ensures var t := M.Accepted(c, s);
              t.phase != M.Halted ==> t == s.(phase := t.phase, out := t.out, kex := t.kex) && t.phase == M.ServiceRequest
    {
      hide M.SendPlain, M.SendCiphered, Auth.ServiceRequest, Auth.ServiceUserauth;
    }

    method ProvideHostKeyDecision(accept: bool)
      requires Valid() && phase != M.Halted
      modifies this, rng, ident, channels
      ensures Valid()
      ensures Agree(Core(), incoming, M.Do(rng.suite, old(M.Session(Core(), incoming)), M.ProvideHostKeyDecision(accept)))
    {
      hide Valid, M.Do, M.Drive, M.Accepted;
      M.DoIsDecide(rng.suite, M.Session(Core(), incoming), accept);
      if phase != M.AwaitingHostKeyDecision {
        return;
      }
      if !accept {
        Fail(HostKeyRejected);
        return;
      }
      ghost var t := M.Accepted(rng.suite, Core());
      AcceptedFrame(rng.suite, Core());
      AcceptHostKey();
      if phase == M.Halted {
        DriveIdle(rng.suite, t, incoming);
        return;
      }
      Drive();
    }

    method AuthenticatePassword(user: Bytes, password: Bytes)
      requires Valid() && phase != M.Halted
      modifies this, rng, ident, channels
      ensures Valid()
      ensures Agree(Core(), incoming, M.Do(rng.suite, old(M.Session(Core(), incoming)), M.Password(user, password)))
    {
      hide Valid, M.Do, M.HostCall, M.SendCiphered, Auth.PasswordRequest;
      M.AuthCalls(rng.suite, Core(), user, password, []);
      M.DoIsHostCall(rng.suite, M.Session(Core(), incoming), M.Password(user, password));
      if phase != M.UserAuth {
        return;
      }
      username := Some(user);
      pendingAuth := Some(M.PasswordSent);
      SendOrPanic(Auth.PasswordRequest(user, password));
    }

    method SendOrPanic(payload: Bytes)
      requires Valid()
      modifies this`outgoing, this`sent, this`csCipher, this`phase, rng
      ensures Valid()
      ensures match M.SendCiphered(rng.suite, old(M.Out(rng.drawn, sent, csCipher)), payload)
              case None => phase == M.Halted
              case Some(out) => phase == old(phase) && M.Out(rng.drawn, sent, csCipher) == out
    {
      hide Valid, M.SendCiphered;
      var ok := SendCiphered(payload);
      if !ok {
        phase := M.Halted;
      }
    }

    /** An unsupported key is reported to the caller and leaves the session open. */
    method AuthenticatePublickey(user: Bytes, key: PrivateKey) returns (r: Result<()>)
      requires Valid() && phase != M.Halted
      modifies this, rng, ident, channels
      ensures Valid()
      ensures Agree(Core(), incoming, M.Do(rng.suite, old(M.Session(Core(), incoming)), M.PublicKey(user, key)))
      ensures r.Err? <==> old(phase) == M.UserAuth && rng.suite.userAlgorithm(key).None?
    {
      hide Valid, M.Do, M.HostCall, M.SendCiphered, Auth.KeyQuery;
      M.AuthCalls(rng.suite, Core(), user, [], key);
      M.DoIsHostCall(rng.suite, M.Session(Core(), incoming), M.PublicKey(user, key));
      if phase != M.UserAuth {
        return Ok(());
      }
      username := Some(user);
      var algorithm := rng.suite.userAlgorithm(key);
      if algorithm.None? {
        return Err(UnsupportedAuthMethod);
      }
      var blob := rng.suite.publicBlob(key);
      pendingAuth := Some(M.PublicKeyQuery(user, algorithm.value, blob, key));
      SendOrPanic(Auth.KeyQuery(user, algorithm.value, blob));
      r := Ok(());
    }

    method OpenExec(command: Bytes) returns (id: U32)
      requires Valid() && phase != M.Halted
      modifies this, rng, ident, channels
      ensures Valid() && id == old(channels.nextId)
      ensures Agree(Core(), incoming, M.Do(rng.suite, old(M.Session(Core(), incoming)), M.Exec(command)))
    {
      hide Valid, M.Do, M.SendCiphered, Channel.OpenMessage, Channel.New;
      M.DoIsHostCall(rng.suite, M.Session(Core(), incoming), M.Exec(command));
      ghost var rest := Core().conn;
      var msg;
      id, msg := channels.Open(Channel.Exec);
      assert channels.Within(rest) == Connection.Opened(rest, Channel.Exec);
      channelSetup := channelSetup[id := Connection.AwaitingExecReply];
      pendingExec := pendingExec[id := command];
      SendOrPanic(msg);
    }

    method OpenShell(pty: Connection.Pty) returns (id: U32)
      requires Valid() && phase != M.Halted
      modifies this, rng, ident, channels
      ensures Valid() && id == old(channels.nextId)
      ensures Agree(Core(), incoming, M.Do(rng.suite, old(M.Session(Core(), incoming)), M.Shell(pty)))
    {
      hide Valid, M.Do, M.SendCiphered, Channel.OpenMessage, Channel.New;
      M.DoIsHostCall(rng.suite, M.Session(Core(), incoming), M.Shell(pty));
      ghost var rest := Core().conn;
      var msg;
      id, msg := channels.Open(Channel.Shell);
      assert channels.Within(rest) == Connection.Opened(rest, Channel.Shell);
      channelSetup := channelSetup[id := Connection.AwaitingPtyReply];
      pendingPty := pendingPty[id := pty];
      SendOrPanic(msg);
    }

    /** Returns how many bytes were accepted; fewer than offered also raises `ChannelWindowFull`. */
    method ChannelSend(id: U32, data: Bytes) returns (consumed: nat)
      requires Valid() && phase != M.Halted
      modifies this, rng, ident, channels
      ensures Valid() && consumed == Connection.Accepted(old(Core()).conn, id, data)
      ensures Agree(Core(), incoming, M.Do(rng.suite, old(M.Session(Core(), incoming)), M.SendData(id, data)))
    {
      hide Valid, M.Do, M.HostCall, M.SendEach, Channel.SendData;
      M.DoIsHostCall(rng.suite, M.Session(Core(), incoming), M.SendData(id, data));
      M.ChannelCalls(rng.suite, Core(), id, data, 0, 0);
      M.SendEachNone(rng.suite, M.Out(rng.drawn, sent, csCipher));
      if id !in channels.channels {
        return 0;
      }
      var sending := channels.Send(id, data);
      if sending.None? {
        phase := M.Halted;
        return 0;
      }
      consumed := sending.value.0;
      SendChunks(id, sending.value.1, consumed < |data|);
    }

    method SendChunks(id: U32, messages: seq<Bytes>, full: bool)
      requires Valid() && phase != M.Halted
      modifies this`outgoing, this`sent, this`csCipher, this`phase, this`events, this`raised, rng
      ensures Valid()
      ensures match M.SendEach(rng.suite, old(M.Out(rng.drawn, sent, csCipher)), messages)
              case None => phase == M.Halted
              case Some(out) =>
                && phase == old(phase) && M.Out(rng.drawn, sent, csCipher) == out
                && raised == old(raised) + if full then [ChannelWindowFull(id)] else []
    {
      hide Valid, M.SendEach;
      var ok := SendEach(messages);
      if !ok {
        phase := M.Halted;
      } else if full {
        PushEvent(ChannelWindowFull(id));
      }
    }

    /** At most one message, if the channel has been confirmed. */
    method SendOnChannel(remoteId: Option<U32>, msg: Bytes)
      requires Valid() && phase != M.Halted
      modifies this`outgoing, this`sent, this`csCipher, this`phase, rng
      ensures Valid()
      ensures match M.SendEach(rng.suite, old(M.Out(rng.drawn, sent, csCipher)), if remoteId.None? then [] else [msg])
              case None => phase == M.Halted
              case Some(out) => phase == old(phase) && M.Out(rng.drawn, sent, csCipher) == out
    {
      hide Valid, M.SendEach, M.SendCiphered;
      M.SendEachNone(rng.suite, M.Out(rng.drawn, sent, csCipher));
      M.SendEachOne(rng.suite, M.Out(rng.drawn, sent, csCipher), msg);
      if remoteId.Some? {
        SendOrPanic(msg);
      }
    }

    method ResizePty(id: U32, cols: U32, rows: U32)
      requires Valid() && phase != M.Halted
      modifies this, rng, ident, channels
      ensures Valid()
      ensures Agree(Core(), incoming, M.Do(rng.suite, old(M.Session(Core(), incoming)), M.Resize(id, cols, rows)))
    {
      hide Valid, M.Do, M.HostCall, M.SendEach, Connection.WindowChangeRequest;
      M.DoIsHostCall(rng.suite, M.Session(Core(), incoming), M.Resize(id, cols, rows));
      M.ChannelCalls(rng.suite, Core(), id, [], cols, rows);
      var remoteId := if id in channels.channels then channels.channels[id].remoteId else None;
      var remote := if remoteId.Some? then remoteId.value else 0;
      SendOnChannel(remoteId, Connection.WindowChangeRequest(remote, cols, rows));
    }

    method CloseChannel(id: U32)
      requires Valid() && phase != M.Halted
      modifies this, rng, ident, channels
      ensures Valid()
      ensures Agree(Core(), incoming, M.Do(rng.suite, old(M.Session(Core(), incoming)), M.CloseChannel(id)))
    {
      hide Valid, M.Do, M.HostCall, M.SendEach, Channel.IdMessage;
      M.DoIsHostCall(rng.suite, M.Session(Core(), incoming), M.CloseChannel(id));
      M.ChannelCalls(rng.suite, Core(), id, [], 0, 0);
      var remoteId := if id in channels.channels then channels.channels[id].remoteId else None;
      var remote := if remoteId.Some? then remoteId.value else 0;
      SendOnChannel(remoteId, Channel.IdMessage(Channel.MSG_CHANNEL_CLOSE, remote));
    }
  }
}
