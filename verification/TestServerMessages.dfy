/**
  The test server's side of the conversation, by the RFCs' layouts: what it makes of each message that a client
  may send, and how its answers read.
 */
module TestServerMessages {
  import opened Prelude
  import opened Primitives
  import opened Wire
  import opened Layouts
  import opened Packet
  import opened PacketStream
  import opened SessionModel
  import opened ClientMessages
  import opened FakeServer
  import Auth
  import Channel
  import Connection
  import MessageReading
  import ServerMessages
  import SessionSafety
  import Utf8

  // ---- how its answers read --------------------------------------------------------------------------------

  function LayoutOf(cfg: Config, r: Reply): Fields {
    match r
    case ServiceAccept => Octet(6, Text(Ascii("ssh-userauth"), End))
    case AuthSuccess => Octet(52, End)
    case AuthFailure => Octet(51, Text(Ascii("password,publickey"), Flag(false, End)))
    case KeyAcceptable(algorithm, blob) => Octet(60, Text(algorithm, Text(blob, End)))
    case GlobalRequest => Octet(80, Text(GlobalRequestName(), Flag(true, End)))
    case Confirmation(id) => Octet(91, Number(id, Number(0, Number(0x20_0000, Number(0x8000, End)))))
    case RequestSuccess(id) => Octet(99, Number(id, End))
    case RequestFailure(id) => Octet(100, Number(id, End))
    case Output(id) => Octet(94, Number(id, Text(cfg.execOutput, End)))
    case ExitStatus(id) => ServerMessages.ExitStatus(id, false, cfg.exitCode)
    case Eof(id) => Octet(96, Number(id, End))
    case Close(id) => Octet(97, Number(id, End))
  }

  /** Strings fit their length prefix. */
  predicate Sized(cfg: Config, r: Reply) {
    && |cfg.execOutput| < U32_LIMIT
    && match r case KeyAcceptable(algorithm, blob) => |algorithm| < U32_LIMIT && |blob| < U32_LIMIT case _ => true
  }

  lemma OctetAlone(byte: Byte)
    ensures Reads([byte], Octet(byte, End))
  {
  }

  lemma ConfirmationReads(cfg: Config, id: U32)
    ensures Reads(Encode(cfg, Confirmation(id)), Octet(91, Number(id, Number(0, Number(0x20_0000, Number(0x8000, End))))))
  {
    hide U32Be, Reads;
    var w, p: U32 := 0x20_0000, 0x8000;
    LastReads(p, false, []);
    NumberReads(w, U32Be(p), Number(p, End));
    NumberReads(0, U32Be(w) + U32Be(p), Number(w, Number(p, End)));
    NumberReads(id, U32Be(0) + (U32Be(w) + U32Be(p)), Number(0, Number(w, Number(p, End))));
    OctetReads(91, U32Be(id) + (U32Be(0) + (U32Be(w) + U32Be(p))), Number(id, Number(0, Number(w, Number(p, End)))));
  }

  /** Each of its messages reads as the RFCs lay it out. */
  lemma RepliesRead(cfg: Config, r: Reply)
    requires Sized(cfg, r)
    ensures Reads(Encode(cfg, r), LayoutOf(cfg, r))
  {
    hide Str, U32Be, Reads, Ascii, GlobalRequestName, Connection.NameExitStatus,
         Channel.RequestMessage, Bool;
    match r
    case ServiceAccept =>
      ServiceNamesAreShort();
      LastReads(0, true, Ascii("ssh-userauth"));
      OctetReads(6, Str(Ascii("ssh-userauth")), Text(Ascii("ssh-userauth"), End));
    case AuthSuccess => OctetAlone(52);
    case AuthFailure =>
      MessageReading.RemainingIsText();
      LastReads(0, false, []);
      TextReads(RemainingMethods(), Bool(false), Flag(false, End));
      OctetReads(51, Str(RemainingMethods()) + Bool(false), Text(RemainingMethods(), Flag(false, End)));
    case KeyAcceptable(algorithm, blob) =>
      LastReads(0, false, blob);
      TextReads(algorithm, Str(blob), Text(blob, End));
      OctetReads(60, Str(algorithm) + Str(blob), Text(algorithm, Text(blob, End)));
    case GlobalRequest =>
      MessageReading.GlobalNameShort();
      LastReads(0, true, []);
      TextReads(GlobalRequestName(), Bool(true), Flag(true, End));
      OctetReads(80, Str(GlobalRequestName()) + Bool(true), Text(GlobalRequestName(), Flag(true, End)));
    case Confirmation(id) => ConfirmationReads(cfg, id);
    case Output(id) => DataIsRead(id, cfg.execOutput, 0);
    case ExitStatus(id) =>
      ServerMessages.ExitStatusName();
      MessageReading.ExitNameIsText();
      LastReads(cfg.exitCode, false, []);
      RequestIsRead(id, Connection.NameExitStatus(), false, U32Be(cfg.exitCode), Number(cfg.exitCode, End));
    case RequestSuccess(id) => IdReads(99, id);
    case RequestFailure(id) => IdReads(100, id);
    case Eof(id) => IdReads(96, id);
    case Close(id) => IdReads(97, id);
  }

  lemma IdReads(msg: Byte, id: U32)
    ensures Reads(Channel.IdMessage(msg, id), Octet(msg, Number(id, End)))
  {
    hide U32Be, Reads;
    LastReads(id, false, []);
    OctetReads(msg, U32Be(id), Number(id, End));
  }

  // ---- what it sends -----------------------------------------------------------------------------------------

  /** The log has grown by exactly these messages, one packet each, under the sending cipher as it moves on. */
  predicate Answered(cfg: Config, v: Server, w: Server, replies: seq<Reply>) {
    && |w.out.sent| == |v.out.sent| + |replies| && v.out.sent <= w.out.sent
    && w.out.cs == AdvanceOptBy(v.out.cs, |replies|)
    && forall i :: 0 <= i < |replies| ==> Carries(w.out.sent[|v.out.sent| + i], AdvanceOptBy(v.out.cs, i), cfg, replies[i])
  }

  predicate Carries(item: Sent, k: Option<Cipher>, cfg: Config, r: Reply) {
    item.Sealed? && item.k == k && (Sized(cfg, r) ==> Reads(item.payload, LayoutOf(cfg, r)))
  }

  lemma {:induction false} RepliesAreSent(c: Suite, cfg: Config, v: Server, replies: seq<Reply>)
    ensures Answered(cfg, v, Answer(c, cfg, v, replies), replies)
    decreases |replies|
  {
    hide Encode, LayoutOf, Sized, Reads, Emit, AdvanceOpt;
    if replies != [] {
      var o := SendPlainOrCiphered(Seeded(c, cfg), v.out, Encode(cfg, replies[0]));
      var next := v.(out := o);
      OneIsSent(c, cfg, v.out, replies[0]);
      RepliesAreSent(c, cfg, next, replies[1..]);
      var w := Answer(c, cfg, v, replies);
      assert w.out == Answer(c, cfg, next, replies[1..]).out;
      forall i | 0 <= i < |replies|
        ensures Carries(w.out.sent[|v.out.sent| + i], AdvanceOptBy(v.out.cs, i), cfg, replies[i])
      {
        if i > 0 {
          assert replies[i] == replies[1..][i - 1];
          assert w.out.sent[|v.out.sent| + i] == w.out.sent[|o.sent| + (i - 1)];
        } else {
          assert w.out.sent[|v.out.sent|] == o.sent[|v.out.sent|];
        }
      }
    }
  }

  lemma OneIsSent(c: Suite, cfg: Config, o: Out, r: Reply)
    ensures var o' := SendPlainOrCiphered(Seeded(c, cfg), o, Encode(cfg, r));
            && |o'.sent| == |o.sent| + 1 && o.sent <= o'.sent && o'.cs == AdvanceOpt(o.cs)
            && Carries(o'.sent[|o.sent|], o.cs, cfg, r)
  {
    hide Encode, LayoutOf, Reads, Emit;
    SessionSafety.EmitGrows(Seeded(c, cfg), o, o.cs, Encode(cfg, r));
    if Sized(cfg, r) { RepliesRead(cfg, r); }
  }

  // ---- what it makes of what it hears --------------------------------------------------------------------------

  /** The verdict on an attempt: success, followed by a global request if the server is set up so; or failure. */
  predicate Judges(cfg: Config, v: Server, w: Server, granted: bool) {
    && w == v.(out := w.out)
    && (granted && !cfg.globalRequestAfterAuth ==> Answered(cfg, v, w, [AuthSuccess]))
    && (granted && cfg.globalRequestAfterAuth ==> Answered(cfg, v, w, [AuthSuccess, GlobalRequest]))
    && (!granted ==> Answered(cfg, v, w, [AuthFailure]))
  }

  lemma VerdictIsSent(c: Suite, cfg: Config, v: Server, granted: bool)
    ensures Judges(cfg, v, Answer(c, cfg, v, Verdict(cfg, granted)), granted)
  {
    hide SealReplies, Answered;
    RepliesAreSent(c, cfg, v, Verdict(cfg, granted));
  }

  /** The server's own user with the server's own password is let in, and nobody else. */
  lemma PasswordIsJudged(c: Suite, cfg: Config, v: Server, m: Bytes, user: Bytes, password: Bytes, change: bool)
    requires Reads(m, Userauth(user, Ascii("password"), Flag(change, Text(password, End))))
    requires Utf8.Valid(user) && Utf8.Valid(password)
    ensures Handle(c, cfg, v, m).Some?
    ensures Judges(cfg, v, Handle(c, cfg, v, m).value, user == cfg.username && password == cfg.password)
  {
    hide Reads, Ascii, Utf8.Valid, Auth.ParseRequest, Handle, Judges, Answer, Verdict;
    PasswordIsParsed(m, user, password, change);
    IsUserauth(c, cfg, v, m);
    VerdictIsSent(c, cfg, v, user == cfg.username && password == cfg.password);
  }

  lemma IsUserauth(c: Suite, cfg: Config, v: Server, m: Bytes)
    requires |m| > 0 && m[0] == 50
    ensures Handle(c, cfg, v, m) == OnUserauthRequest(c, cfg, v, m)
  {
    hide OnUserauthRequest;
  }

  /** The fields in front of a method's own. */
  lemma UserauthIsParsed(m: Bytes, user: Bytes, meth: Bytes, more: Fields)
    returns (r1: Bytes, r2: Bytes, r3: Bytes, r4: Bytes)
    requires Reads(m, Userauth(user, meth, more)) && Utf8.Valid(user) && Utf8.Valid(meth)
    ensures |m| > 0 && m[0] == 50
    ensures GetU8(m) == Ok((50, r1)) && GetUtf8(r1) == Ok((user, r2))
    ensures GetUtf8(r2) == Ok((Ascii("ssh-connection"), r3)) && GetUtf8(r3) == Ok((meth, r4)) && Reads(r4, more)
  {
    hide Reads, Ascii, Utf8.Valid, GetU8, GetUtf8;
    Auth.ConnectionIsText();
    var service := Ascii("ssh-connection");
    OctetRead(m, 50, Text(user, Text(service, Text(meth, more))));
    r1 := m[1..];
    r2 := TextRead(r1, user, Text(service, Text(meth, more)));
    r3 := TextRead(r2, service, Text(meth, more));
    r4 := TextRead(r3, meth, more);
  }

  lemma PasswordIsParsed(m: Bytes, user: Bytes, password: Bytes, change: bool)
    requires Reads(m, Userauth(user, Ascii("password"), Flag(change, Text(password, End))))
    requires Utf8.Valid(user) && Utf8.Valid(password)
    ensures |m| > 0 && m[0] == 50 && Auth.ParseRequest(m) == Ok(Auth.Password(user, password))
  {
    hide Reads, Ascii, Utf8.Valid, GetU8, GetUtf8, GetBool, Userauth;
    Auth.PasswordIsText();
    var _, _, _, r4 := UserauthIsParsed(m, user, Ascii("password"), Flag(change, Text(password, End)));
    FlagRead(r4, change, Text(password, End));
    var _ := TextRead(r4[1..], password, End);
  }

  lemma KeyIsParsed(m: Bytes, user: Bytes, algorithm: Bytes, blob: Bytes, signed: bool, more: Fields, signature: Bytes)
    requires Reads(m, PublicKeyFields(user, algorithm, blob, signed, more)) && Utf8.Valid(user) && Utf8.Valid(algorithm)
    requires signed ==> more == Text(signature, End)
    ensures |m| > 0 && m[0] == 50
    ensures Auth.ParseRequest(m)
            == Ok(if signed then Auth.Signed(user, algorithm, blob, signature) else Auth.Query(user, algorithm, blob))
  {
    hide Reads, Ascii, Utf8.Valid, GetU8, GetUtf8, GetBool, GetString, Userauth;
    Auth.ConstantsAreText();
    var _, _, _, r4 := UserauthIsParsed(m, user, Auth.MethodPublickey(), Flag(signed, Text(algorithm, Text(blob, more))));
    FlagRead(r4, signed, Text(algorithm, Text(blob, more)));
    var r5 := TextRead(r4[1..], algorithm, Text(blob, more));
    var r6 := TextRead(r5, blob, more);
    if signed { var _ := TextRead(r6, signature, End); }
  }

  /** A queried key is always acceptable. */
  lemma QueryIsAccepted(c: Suite, cfg: Config, v: Server, m: Bytes, user: Bytes, algorithm: Bytes, blob: Bytes)
    requires Reads(m, PublicKeyFields(user, algorithm, blob, false, End)) && Utf8.Valid(user) && Utf8.Valid(algorithm)
    ensures Handle(c, cfg, v, m).Some?
    ensures var w := Handle(c, cfg, v, m).value;
            Answered(cfg, v, w, [KeyAcceptable(algorithm, blob)]) && w == v.(out := w.out)
  {
    hide Reads, Ascii, Utf8.Valid, Auth.ParseRequest, Answered, SealReplies, PublicKeyFields;
    KeyIsParsed(m, user, algorithm, blob, false, End, []);
    IsUserauth(c, cfg, v, m);
    RepliesAreSent(c, cfg, v, [KeyAcceptable(algorithm, blob)]);
  }

  /** A signature is good for the server's own user, with any key that verifies it over the session id and the request
      without it, and for nobody else. */
  lemma SignatureIsJudged(c: Suite, cfg: Config, v: Server, m: Bytes, user: Bytes, algorithm: Bytes, blob: Bytes,
                          signature: Bytes, signed: Bytes)
    requires Reads(m, PublicKeyFields(user, algorithm, blob, true, Text(signature, End)))
    requires Utf8.Valid(user) && Utf8.Valid(algorithm)
    requires Reads(signed, Text(v.sessionId, PublicKeyFields(user, algorithm, blob, true, End)))
    requires |user| < U32_LIMIT && |algorithm| < U32_LIMIT && |blob| < U32_LIMIT && |v.sessionId| < U32_LIMIT
    ensures Handle(c, cfg, v, m).Some? <==> c.keyParses(blob)
    ensures c.keyParses(blob) ==>
              Judges(cfg, v, Handle(c, cfg, v, m).value,
                     c.signatureParses(signature) && c.verifies(blob, signed, signature) && user == cfg.username)
  {
    hide Reads, Ascii, Utf8.Valid, Handle, OnUserauthRequest, Judges, Answer, Verdict, PublicKeyFields,
         Auth.RebuiltSignedData, Auth.SignedData;
    KeyIsParsed(m, user, algorithm, blob, true, Text(signature, End), signature);
    IsUserauth(c, cfg, v, m);
    WhatIsSigned(v.sessionId, user, algorithm, blob, signed);
    SignatureVerdict(c, cfg, v, m, user, algorithm, blob, signature, signed);
    VerdictIsSent(c, cfg, v, c.signatureParses(signature) && c.verifies(blob, signed, signature) && user == cfg.username);
  }

  lemma SignatureVerdict(c: Suite, cfg: Config, v: Server, m: Bytes, user: Bytes, algorithm: Bytes, blob: Bytes,
                         signature: Bytes, signed: Bytes)
    requires Auth.ParseRequest(m) == Ok(Auth.Signed(user, algorithm, blob, signature))
    requires Auth.RebuiltSignedData(v.sessionId, user, algorithm, blob) == signed
    ensures OnUserauthRequest(c, cfg, v, m)
            == if !c.keyParses(blob) then None
               else
                 var granted := c.signatureParses(signature) && c.verifies(blob, signed, signature) && user == cfg.username;
                 Some(Answer(c, cfg, v, Verdict(cfg, granted)))
  {
    hide Auth.ParseRequest, Auth.RebuiltSignedData, Answer, Verdict;
  }

  /** The server rebuilds what is signed. */
  lemma WhatIsSigned(sessionId: Bytes, user: Bytes, algorithm: Bytes, blob: Bytes, signed: Bytes)
    requires Reads(signed, Text(sessionId, PublicKeyFields(user, algorithm, blob, true, End)))
    requires Utf8.Valid(user) && Utf8.Valid(algorithm)
    requires |user| < U32_LIMIT && |algorithm| < U32_LIMIT && |blob| < U32_LIMIT && |sessionId| < U32_LIMIT
    ensures Auth.RebuiltSignedData(sessionId, user, algorithm, blob) == signed
  {
    hide Reads, Ascii, Utf8.Valid, PublicKeyFields, Auth.RebuiltSignedData, Auth.SignedData, Auth.SignedRequest,
         Auth.ParseRequest;
    KeyRequestsAreRead(sessionId, user, algorithm, blob, []);
    var f := Text(sessionId, PublicKeyFields(user, algorithm, blob, true, End));
    SameAsItself(f);
    ReadsOneWay(signed, f, Auth.SignedData(sessionId, user, algorithm, blob), f);
    Auth.SignedIsRead(user, algorithm, blob, []);
    Auth.ServerRebuildsSignedData(sessionId, user, algorithm, blob, []);
  }

  /** An open is confirmed to its sender, under the server's own id 0. */
  lemma OpenIsConfirmed(c: Suite, cfg: Config, v: Server, m: Bytes, kind: Bytes, sender: U32, window: U32, maxPacket: U32)
    requires Reads(m, Octet(90, Text(kind, Number(sender, Number(window, Number(maxPacket, End))))))
    ensures Handle(c, cfg, v, m).Some?
    ensures var w := Handle(c, cfg, v, m).value;
            && Answered(cfg, v, w, [Confirmation(sender)])
            && w == v.(phase := ServerPhase.Connected, out := w.out)
  {
    hide Reads, GetU8, GetString, GetU32, Answered, SealReplies;
    OctetRead(m, 90, Text(kind, Number(sender, Number(window, Number(maxPacket, End)))));
    var r := TextRead(m[1..], kind, Number(sender, Number(window, Number(maxPacket, End))));
    NumberRead(r, sender, Number(window, Number(maxPacket, End)));
    NumberRead(r[4..], window, Number(maxPacket, End));
    NumberRead(r[4..][4..], maxPacket, End);
    IsOpen(c, cfg, v, m);
    var u := v.(phase := ServerPhase.Connected);
    RepliesAreSent(c, cfg, u, [Confirmation(sender)]);
    SameLog(cfg, v, u, Answer(c, cfg, u, [Confirmation(sender)]), [Confirmation(sender)]);
  }

  lemma IsOpen(c: Suite, cfg: Config, v: Server, m: Bytes)
    requires |m| > 0
    ensures m[0] == 90 ==> Handle(c, cfg, v, m) == OnChannelOpen(c, cfg, v, m)
    ensures m[0] == 98 ==> Handle(c, cfg, v, m) == OnChannelRequest(c, cfg, v, m)
  {
    hide OnChannelOpen, OnChannelRequest;
  }

  lemma SameLog(cfg: Config, v: Server, u: Server, w: Server, replies: seq<Reply>)
    requires Answered(cfg, u, w, replies) && u.out == v.out
    ensures Answered(cfg, v, w, replies)
  {
  }

  /** A request is answered to the id found in it: exec with success, the output, the exit status, end of file and
      close, and the command is remembered; anything else with a refusal. */
  lemma RequestIsAnswered(c: Suite, cfg: Config, v: Server, m: Bytes, id: U32, name: Bytes, wantReply: bool, command: Bytes,
                          more: Fields)
    requires Reads(m, Request(id, name, wantReply, more)) && Utf8.Valid(name)
    requires name == Ascii("exec") ==> more == Text(command, End)
    ensures Handle(c, cfg, v, m).Some? <==> name != Ascii("exec") || Utf8.Valid(command)
    ensures Handle(c, cfg, v, m).Some? ==>
              var w := Handle(c, cfg, v, m).value;
              if name == Ascii("exec") then
                && Answered(cfg, v, w, [RequestSuccess(id), Output(id), ExitStatus(id), Eof(id), Close(id)])
                && w == v.(lastExec := Some(command), out := w.out)
              else Answered(cfg, v, w, [RequestFailure(id)]) && w == v.(out := w.out)
  {
    hide Reads, GetU8, GetUtf8, GetU32, GetBool, Answered, SealReplies, Ascii, Utf8.Valid;
    OctetRead(m, 98, Number(id, Text(name, Flag(wantReply, more))));
    NumberRead(m[1..], id, Text(name, Flag(wantReply, more)));
    var r := TextRead(m[1..][4..], name, Flag(wantReply, more));
    FlagRead(r, wantReply, more);
    IsOpen(c, cfg, v, m);
    if name == Ascii("exec") {
      var _ := TextRead(r[1..], command, End);
      var u, replies := v.(lastExec := Some(command)), ExecReplies(id);
      RepliesAreSent(c, cfg, u, replies);
      SameLog(cfg, v, u, Answer(c, cfg, u, replies), replies);
    } else {
      RepliesAreSent(c, cfg, v, [RequestFailure(id)]);
    }
  }

  /** The one service it offers. */
  lemma ServiceIsOffered(c: Suite, cfg: Config, v: Server, m: Bytes, name: Bytes)
    requires Reads(m, Octet(5, Text(name, End))) && Utf8.Valid(name)
    ensures Handle(c, cfg, v, m).Some? <==> name == Ascii("ssh-userauth")
    ensures Handle(c, cfg, v, m).Some? ==>
              var w := Handle(c, cfg, v, m).value;
              Answered(cfg, v, w, [ServiceAccept]) && w == v.(phase := AwaitingUserAuth, out := w.out)
  {
    hide Reads, GetU8, GetUtf8, Answered, SealReplies, Ascii, Utf8.Valid;
    OctetRead(m, 5, Text(name, End));
    var _ := TextRead(m[1..], name, End);
    IsService(c, cfg, v, m);
    var u := v.(phase := AwaitingUserAuth);
    RepliesAreSent(c, cfg, u, [ServiceAccept]);
    SameLog(cfg, v, u, Answer(c, cfg, u, [ServiceAccept]), [ServiceAccept]);
  }

  lemma IsService(c: Suite, cfg: Config, v: Server, m: Bytes)
    requires |m| > 0 && m[0] == 5
    ensures Handle(c, cfg, v, m) == OnServiceRequest(c, cfg, v, m)
  {
    hide OnServiceRequest;
  }
}
