/**
  What the client makes of the server's transport and authentication messages, each taken as sections 7 to 11
  of RFC 4253 and sections 5 to 7 of RFC 4252 lay it out.
 */
module SessionMessages {
  import opened Prelude
  import opened Primitives
  import opened Wire
  import opened Layouts
  import opened Events
  import opened SessionModel
  import opened ClientMessages
  import Auth
  import Connection
  import KexInit
  import opened Packet
  import SessionSafety
  import Utf8

  lemma Dispatched(c: Suite, s: State, m: Bytes)
    requires |m| > 0
    ensures m[0] == 1 ==> Dispatch(c, s, m) == HandleDisconnect(s, m)
    ensures m[0] == 6 ==> Dispatch(c, s, m) == HandleServiceAccept(s, m)
    ensures m[0] == 21 ==> Dispatch(c, s, m) == HandleNewkeys(s)
    ensures m[0] == 51 ==> Dispatch(c, s, m) == HandleUserauthFailure(s, m)
    ensures m[0] == 52 ==> Dispatch(c, s, m) == HandleUserauthSuccess(s)
    ensures m[0] == 60 ==> Dispatch(c, s, m) == HandlePkOk(c, s, m)
    ensures m[0] == 80 ==> Dispatch(c, s, m) == HandleGlobalRequest(c, s, m)
  {
    hide HandleDisconnect, HandlePeerKexinit, HandleKexReply, HandleNewkeys, HandleServiceAccept, HandleUserauthFailure,
         HandleUserauthSuccess, HandlePkOk, HandleGlobalRequest, React, Connection.OnMessage;
  }

  // ---- transport (RFC 4253) ------------------------------------------------------------------------------

  /** Section 11.1: a disconnect closes the session, says nothing, and reaches the host with its reason and
      description. */
  lemma DisconnectIsReported(c: Suite, s: State, m: Bytes, reason: U32, description: Bytes, language: Bytes)
    requires Reads(m, Octet(1, Number(reason, Text(description, Text(language, End)))))
    ensures |m| > 0
    ensures Dispatch(c, s, m)
            == Fine(Raise(s.(phase := Closed), Disconnected(reason, if Utf8.Valid(description) then description else [])))
  {
    hide Dispatch, Reads, GetU32, GetUtf8, Utf8.Valid;
    OctetRead(m, 1, Number(reason, Text(description, Text(language, End))));
    Dispatched(c, s, m);
    NumberRead(m[1..], reason, Text(description, Text(language, End)));
    var _ := TextRead(m[1..][4..], description, Text(language, End));
  }

  /** Sections 11.2 to 11.4: IGNORE, UNIMPLEMENTED and DEBUG change nothing. A message of any type that is not
      known ends the session, and so does a key-exchange reply when no exchange is going on. */
  lemma OthersByType(c: Suite, s: State, m: Bytes)
    requires |m| > 0
    ensures 2 <= m[0] <= 4 ==> Dispatch(c, s, m) == Fine(s)
    ensures m[0] !in {1, 2, 3, 4, 6, 20, 21, 31, 51, 52, 60, 80} && !(91 <= m[0] <= 100) ==>
              Dispatch(c, s, m) == Failed(s, UnexpectedMessage(m[0]))
    ensures m[0] == 31 && s.kex.active.None? ==> Dispatch(c, s, m) == Failed(s, UnexpectedMessage(31))
  {
  }

  /** Section 7.3: NEWKEYS puts the waiting receiving cipher in place, once; without one, or with no sending
      cipher in place, it ends the session. */
  lemma NewkeysIsTaken(c: Suite, s: State, m: Bytes)
    requires Reads(m, Octet(21, End))
    ensures |m| > 0
    ensures if s.kex.pendingSc.Some? && s.out.cs.Some?
            then Dispatch(c, s, m) == Fine(s.(kex := s.kex.(sc := s.kex.pendingSc, pendingSc := None)))
            else Dispatch(c, s, m).Failed? && Dispatch(c, s, m).error == UnexpectedMessage(21)
  {
    hide Dispatch, Reads;
    OctetRead(m, 21, End);
    Dispatched(c, s, m);
  }

  /** Section 10: only the service that was asked for goes on to authentication. */
  lemma ServiceIsAccepted(c: Suite, s: State, m: Bytes, name: Bytes)
    requires Reads(m, Octet(6, Text(name, End))) && Utf8.Valid(name)
    ensures |m| > 0
    ensures Dispatch(c, s, m) == if name == Ascii("ssh-userauth") then Fine(Raise(s.(phase := UserAuth), ReadyForAuth))
                                 else Failed(s, Negotiation)
  {
    hide Dispatch, Reads, GetUtf8, GetU8, Ascii, Utf8.Valid;
    OctetRead(m, 6, Text(name, End));
    Dispatched(c, s, m);
    var _ := TextRead(m[1..], name, End);
  }

  // ---- the end of the stream -------------------------------------------------------------------------------

  /** The transport's end closes an open session with one event, and says nothing; a session that is over does not
      notice. */
  lemma TransportCloseIsReported(c: Suite, x: Session)
    ensures var y := Do(c, x, NotifyTransportClosed);
            if Over(x.core.phase) then y == x
            else
              y == x.(core := x.core.(phase := Closed, events := x.core.events + [Unrecoverable(SshError.TransportClosed)]))
  {
  }

  /** How a session ends: closed, one more event, nothing more sent, and the ciphers waiting as before. */
  predicate EndsWith(s: State, t: State, e: SshError) {
    && t.phase == Closed && t.events == s.events + [Unrecoverable(e)] && t.out == s.out && t.conn == s.conn
    && t.kex == s.kex.(sc := t.kex.sc)
  }

  /** A length that cannot be waited for ends the session before anything is consumed. */
  lemma BadLengthEndsSession(c: Suite, s: State, buf: Bytes)
    requires !Idle(s.phase) && s.phase != VersionExchange && |buf| >= 4 && PeekTotal(c, s.kex.sc, buf[..4]).Err?
    ensures Drive(c, s, buf).incoming == buf && EndsWith(s, Drive(c, s, buf).core, Framing)
  {
    hide PeekTotal, OpenWire, Dispatch;
    assert buf[0..] == buf;
    OverIsDriven(c, Fail(s, Framing), buf);
  }

  /** A packet that does not open ends it once all of it is there, with the reason; one with nothing in it, too. */
  lemma BadPacketEndsSession(c: Suite, s: State, buf: Bytes, total: nat)
    requires !Idle(s.phase) && s.phase != VersionExchange && |buf| >= 4 && PeekTotal(c, s.kex.sc, buf[..4]) == Ok(total)
    ensures |buf| < total ==> Drive(c, s, buf) == Session(s, buf)
    ensures |buf| >= total ==>
              var result, x := OpenWire(c, s.kex.sc, buf[..total]).1, Drive(c, s, buf);
              result.Err? || result.value == [] ==>
                x.incoming == buf[total..] && EndsWith(s, x.core, if result.Err? then result.error else Framing)
  {
    hide PeekTotal, OpenWire, Dispatch;
    if |buf| >= total {
      var (k, r) := OpenWire(c, s.kex.sc, buf[..total]);
      OverIsDriven(c, Fail(WithSc(s, k), if r.Err? then r.error else Framing), buf[total..]);
    }
  }

  lemma OverIsDriven(c: Suite, s: State, buf: Bytes)
    requires Over(s.phase)
    ensures Drive(c, s, buf) == Session(s, buf)
  {
  }

  // ---- authentication (RFC 4252) ---------------------------------------------------------------------------

  /** Section 5.1: a failure reports the methods that can continue, whatever the partial-success flag, and forgets
      the attempt. */
  lemma FailureIsReported(c: Suite, s: State, m: Bytes, methods: Bytes, partial: bool)
    requires Reads(m, Octet(51, Text(methods, Flag(partial, End)))) && Utf8.Valid(methods)
    ensures |m| > 0
    ensures Dispatch(c, s, m) == Fine(Raise(s.(pendingAuth := None), AuthFailure(KexInit.NamesOf(methods))))
  {
    hide Dispatch, Reads, GetUtf8, GetU8, GetBool, Utf8.Valid, KexInit.NamesOf;
    OctetRead(m, 51, Text(methods, Flag(partial, End)));
    Dispatched(c, s, m);
    var rest := TextRead(m[1..], methods, Flag(partial, End));
    FlagRead(rest, partial, End);
  }

  lemma SuccessIsReported(c: Suite, s: State, m: Bytes)
    requires Reads(m, Octet(52, End))
    ensures |m| > 0
    ensures Dispatch(c, s, m) == Fine(Raise(s.(pendingAuth := None, phase := Connected), AuthSuccess))
  {
    hide Dispatch, Reads;
    OctetRead(m, 52, End);
    Dispatched(c, s, m);
  }

  /** Section 7: the acceptance of a queried key is answered with a request signed by it. What is signed reads: this
      session's id, and the request without its signature. Without a query outstanding it ends the session. */
  lemma AcceptedKeySigns(c: Suite, s: State, m: Bytes, algorithm: Bytes, blob: Bytes, signed: Bytes)
    requires Reads(m, Octet(60, Text(algorithm, Text(blob, End)))) && Utf8.Valid(algorithm)
    requires s.pendingAuth.Some? && s.pendingAuth.value.PublicKeyQuery? && s.kex.sessionId.Some? && s.out.cs.Some?
    requires var q := s.pendingAuth.value;
             |q.user| < U32_LIMIT && |q.algorithm| < U32_LIMIT && |q.blob| < U32_LIMIT && |s.kex.sessionId.value| < U32_LIMIT
    requires var q := s.pendingAuth.value;
             Reads(signed, Text(s.kex.sessionId.value, PublicKeyFields(q.user, q.algorithm, q.blob, true, End)))
    ensures |m| > 0
    ensures var q, o := s.pendingAuth.value, Dispatch(c, s, m);
            match c.sign(q.key, signed)
            case None => o == Failed(s.(pendingAuth := None), SigningFailed)
            case Some(signature) =>
              && o.Fine? && o.s.pendingAuth == Some(PublicKeySigned) && o.s.events == s.events && o.s.phase == s.phase
              && (|signature| < U32_LIMIT ==>
                    Says(s, o.s, PublicKeyFields(q.user, q.algorithm, q.blob, true, Text(signature, End))))
  {
    hide Dispatch, Reads, GetUtf8, GetU8, GetString, Utf8.Valid, Auth.SignedData, Auth.SignedRequest, SendCiphered,
         PublicKeyFields, Says;
    var q, sid := s.pendingAuth.value, s.kex.sessionId.value;
    KeyIsAccepted(m, algorithm, blob);
    Dispatched(c, s, m);
    KeyRequestsAreRead(sid, q.user, q.algorithm, q.blob, []);
    var f := Text(sid, PublicKeyFields(q.user, q.algorithm, q.blob, true, End));
    SameAsItself(f);
    ReadsOneWay(signed, f, Auth.SignedData(sid, q.user, q.algorithm, q.blob), f);
    match c.sign(q.key, signed)
    case None =>
    case Some(signature) =>
      var request := Auth.SignedRequest(q.user, q.algorithm, q.blob, signature);
      SessionSafety.CipheredGrows(c, s.out, request);
      if |signature| < U32_LIMIT {
        KeyRequestsAreRead(sid, q.user, q.algorithm, q.blob, signature);
        SentSays(c, s, Dispatch(c, s, m).s, request,
                 PublicKeyFields(q.user, q.algorithm, q.blob, true, Text(signature, End)));
      }
  }

  lemma KeyIsAccepted(m: Bytes, algorithm: Bytes, blob: Bytes)
    requires Reads(m, Octet(60, Text(algorithm, Text(blob, End)))) && Utf8.Valid(algorithm)
    ensures |m| > 0 && m[0] == 60 && Auth.ParsePkOk(m) == Ok((algorithm, blob))
  {
    hide Reads, GetUtf8, GetU8, GetString, Utf8.Valid;
    OctetRead(m, 60, Text(algorithm, Text(blob, End)));
    var rest := TextRead(m[1..], algorithm, Text(blob, End));
    var _ := TextRead(rest, blob, End);
  }

  // ---- global requests (section 4 of RFC 4254) ---------------------------------------------------------------

  /** A global request is refused if it wants a reply, and ignored if not. */
  lemma GlobalRequestIsRefused(c: Suite, s: State, m: Bytes, name: Bytes, wantReply: bool, more: Fields)
    requires Reads(m, Octet(80, Text(name, Flag(wantReply, more)))) && s.out.cs.Some?
    ensures |m| > 0 && Dispatch(c, s, m).Fine?
    ensures var t := Dispatch(c, s, m).s; if wantReply then Says(s, t, Octet(82, End)) && t == s.(out := t.out) else t == s
  {
    hide Dispatch, Reads, GetString, GetBool, SendCiphered, Says;
    OctetRead(m, 80, Text(name, Flag(wantReply, more)));
    Dispatched(c, s, m);
    var rest := TextRead(m[1..], name, Flag(wantReply, more));
    FlagRead(rest, wantReply, more);
    assert [MSG_REQUEST_FAILURE] + [] == [MSG_REQUEST_FAILURE];
    NothingReads();
    OctetReads(82, [], End);
    SessionSafety.CipheredGrows(c, s.out, [MSG_REQUEST_FAILURE]);
    if wantReply { SentSays(c, s, Dispatch(c, s, m).s, [MSG_REQUEST_FAILURE], Octet(82, End)); }
  }

  lemma NothingReads() ensures Reads([], End) {}
}
