/**
  Everything the client says, as a peer reads it by the RFCs: the layouts of RFC 4252 (authentication),
  RFC 4253 (transport) and RFC 4254 (connection), with numbers and names written out. Each host call on a
  session with a sending cipher says exactly one such message, or nothing.
 */
module ClientMessages {
  import opened Prelude
  import opened Primitives
  import opened Wire
  import opened Layouts
  import opened SessionModel
  import Auth
  import Channel
  import Connection
  import Events
  import KexInit
  import Packet
  import PacketStream
  import SessionSafety

  // ---- the connection protocol (RFC 4254) --------------------------------------------------------------

  /** Section 5.1: a session channel with a window of 2 MiB and packets of 32 KiB. */
  function Open(id: U32): Fields { Octet(90, Text(Ascii("session"), Number(id, Number(0x20_0000, Number(0x8000, End))))) }

  lemma OpenIsRead(id: U32)
    ensures Reads(Channel.OpenMessage(id), Open(id))
  {
    hide Str, U32Be, Ascii;
    var w, m: U32 := 0x20_0000, 0x8000;
    LastReads(m, false, []);
    NumberReads(w, U32Be(m), Number(m, End));
    NumberReads(id, U32Be(w) + U32Be(m), Number(w, Number(m, End)));
    Channel.SessionNameShort();
    TextReads(Ascii("session"), U32Be(id) + (U32Be(w) + U32Be(m)), Number(id, Number(w, Number(m, End))));
    OctetReads(90, Str(Ascii("session")) + (U32Be(id) + (U32Be(w) + U32Be(m))),
               Text(Ascii("session"), Number(id, Number(w, Number(m, End)))));
  }

  /** Section 5.4. */
  function Request(remote: U32, name: Bytes, wantReply: bool, more: Fields): Fields {
    Octet(98, Number(remote, Text(name, Flag(wantReply, more))))
  }

  lemma RequestIsRead(remote: U32, name: Bytes, wantReply: bool, fields: Bytes, more: Fields)
    requires Reads(fields, more) && |name| < U32_LIMIT
    ensures Reads(Channel.RequestMessage(remote, name, wantReply, fields), Request(remote, name, wantReply, more))
  {
    hide Str, U32Be, Reads;
    FlagReads(wantReply, fields, more);
    TextReads(name, Bool(wantReply) + fields, Flag(wantReply, more));
    NumberReads(remote, Str(name) + (Bool(wantReply) + fields), Text(name, Flag(wantReply, more)));
    OctetReads(98, U32Be(remote) + (Str(name) + (Bool(wantReply) + fields)),
               Number(remote, Text(name, Flag(wantReply, more))));
  }

  lemma NamesAreShort()
    ensures |Ascii("exec")| < 100 && |Ascii("pty-req")| < 100 && |Ascii("shell")| < 100 && |Ascii("window-change")| < 100
  {
  }

  /** Section 6.5. */
  lemma ExecIsRead(remote: U32, command: Bytes)
    requires |command| < U32_LIMIT
    ensures Reads(Connection.ExecRequest(remote, command), Request(remote, Ascii("exec"), true, Text(command, End)))
  {
    hide Str, Reads, Ascii, Channel.RequestMessage;
    NamesAreShort();
    LastReads(0, true, command);
    RequestIsRead(remote, Ascii("exec"), true, Str(command), Text(command, End));
  }

  /** Section 6.2: columns, rows, width and height in pixels, in this order, and no terminal modes. */
  function PtySize(pty: Connection.Pty): Fields {
    Number(pty.cols, Number(pty.rows, Number(pty.pixelWidth, Number(pty.pixelHeight, Text([], End)))))
  }

  lemma PtyIsRead(remote: U32, pty: Connection.Pty)
    requires |pty.term| < U32_LIMIT
    ensures Reads(Connection.PtyRequest(remote, pty), Request(remote, Ascii("pty-req"), true, Text(pty.term, PtySize(pty))))
  {
    hide Str, U32Be, Reads, Ascii, Channel.RequestMessage;
    NamesAreShort();
    LastReads(0, true, []);
    var h := U32Be(pty.pixelHeight) + Str([]);
    NumberReads(pty.pixelHeight, Str([]), Text([], End));
    var w := U32Be(pty.pixelWidth) + h;
    NumberReads(pty.pixelWidth, h, Number(pty.pixelHeight, Text([], End)));
    var r := U32Be(pty.rows) + w;
    NumberReads(pty.rows, w, Number(pty.pixelWidth, Number(pty.pixelHeight, Text([], End))));
    NumberReads(pty.cols, r, Number(pty.rows, Number(pty.pixelWidth, Number(pty.pixelHeight, Text([], End)))));
    TextReads(pty.term, U32Be(pty.cols) + r, PtySize(pty));
    RequestIsRead(remote, Ascii("pty-req"), true, Str(pty.term) + (U32Be(pty.cols) + r), Text(pty.term, PtySize(pty)));
  }

  lemma ShellIsRead(remote: U32)
    ensures Reads(Connection.ShellRequest(remote), Request(remote, Ascii("shell"), true, End))
  {
    hide Ascii, Channel.RequestMessage;
    NamesAreShort();
    RequestIsRead(remote, Ascii("shell"), true, [], End);
  }

  /** Section 6.7: columns, rows, and no size in pixels. */
  function Resized(remote: U32, cols: U32, rows: U32): Fields {
    Request(remote, Ascii("window-change"), false, Number(cols, Number(rows, Number(0, Number(0, End)))))
  }

  lemma ResizeIsRead(remote: U32, cols: U32, rows: U32)
    ensures Reads(Connection.WindowChangeRequest(remote, cols, rows), Resized(remote, cols, rows))
  {
    hide Str, U32Be, Reads, Ascii, Channel.RequestMessage;
    NamesAreShort();
    LastReads(0, true, []);
    NumberReads(0, U32Be(0), Number(0, End));
    NumberReads(rows, U32Be(0) + U32Be(0), Number(0, Number(0, End)));
    NumberReads(cols, U32Be(rows) + (U32Be(0) + U32Be(0)), Number(rows, Number(0, Number(0, End))));
    RequestIsRead(remote, Ascii("window-change"), false, U32Be(cols) + (U32Be(rows) + (U32Be(0) + U32Be(0))),
                  Number(cols, Number(rows, Number(0, Number(0, End)))));
  }

  /** Sections 5.2 and 5.3: data, a window adjust, and the messages that carry only the recipient. */
  lemma DataIsRead(remote: U32, chunk: Bytes, add: U32)
    requires |chunk| < U32_LIMIT
    ensures Reads(Channel.DataMessage(remote, chunk), Octet(94, Number(remote, Text(chunk, End))))
    ensures Reads(Channel.AdjustMessage(remote, add), Octet(93, Number(remote, Number(add, End))))
    ensures Reads(Channel.IdMessage(Channel.MSG_CHANNEL_CLOSE, remote), Octet(97, Number(remote, End)))
    ensures Reads(Channel.IdMessage(Channel.MSG_CHANNEL_FAILURE, remote), Octet(100, Number(remote, End)))
  {
    hide Str, U32Be, Reads;
    LastReads(add, true, chunk);
    LastReads(remote, true, chunk);
    NumberReads(remote, Str(chunk), Text(chunk, End));
    NumberReads(remote, U32Be(add), Number(add, End));
    OctetReads(94, U32Be(remote) + Str(chunk), Number(remote, Text(chunk, End)));
    OctetReads(93, U32Be(remote) + U32Be(add), Number(remote, Number(add, End)));
    OctetReads(97, U32Be(remote), Number(remote, End));
    OctetReads(100, U32Be(remote), Number(remote, End));
  }

  // ---- authentication (RFC 4252) -------------------------------------------------------------------------

  /** Section 5: the fields in front of each method's own. */
  function Userauth(user: Bytes, meth: Bytes, more: Fields): Fields {
    Octet(50, Text(user, Text(Ascii("ssh-connection"), Text(meth, more))))
  }

  lemma ServiceNamesAreShort()
    ensures |Ascii("ssh-connection")| < 100 && |Ascii("ssh-userauth")| < 100
    ensures |Ascii("password")| < 100 && |Ascii("publickey")| < 100
  {
  }

  lemma UserauthIsRead(user: Bytes, meth: Bytes, fields: Bytes, more: Fields)
    requires Reads(fields, more) && |user| < U32_LIMIT && |meth| < U32_LIMIT
    ensures Reads(Auth.UserauthRequest(user, meth, fields), Userauth(user, meth, more))
  {
    hide Str, Reads, Ascii;
    ServiceNamesAreShort();
    var service := Ascii("ssh-connection");
    TextReads(meth, fields, more);
    TextReads(service, Str(meth) + fields, Text(meth, more));
    TextReads(user, Str(service) + (Str(meth) + fields), Text(service, Text(meth, more)));
    OctetReads(50, Str(user) + (Str(service) + (Str(meth) + fields)), Text(user, Text(service, Text(meth, more))));
  }

  lemma ServiceIsRead()
    ensures Reads(Auth.ServiceRequest(Auth.ServiceUserauth()), Octet(5, Text(Ascii("ssh-userauth"), End)))
  {
    hide Str, Reads, Ascii;
    ServiceNamesAreShort();
    LastReads(0, true, Ascii("ssh-userauth"));
    OctetReads(5, Str(Ascii("ssh-userauth")), Text(Ascii("ssh-userauth"), End));
  }

  /** Section 8. */
  lemma PasswordIsRead(user: Bytes, password: Bytes)
    requires |user| < U32_LIMIT && |password| < U32_LIMIT
    ensures Reads(Auth.PasswordRequest(user, password), Userauth(user, Ascii("password"), Flag(false, Text(password, End))))
  {
    hide Str, Reads, Ascii, Auth.UserauthRequest;
    ServiceNamesAreShort();
    LastReads(0, true, password);
    FlagReads(false, Str(password), Text(password, End));
    UserauthIsRead(user, Ascii("password"), Bool(false) + Str(password), Flag(false, Text(password, End)));
  }

  /** Section 7. */
  function PublicKeyFields(user: Bytes, algorithm: Bytes, blob: Bytes, signed: bool, more: Fields): Fields {
    Userauth(user, Ascii("publickey"), Flag(signed, Text(algorithm, Text(blob, more))))
  }

  lemma KeyIsRead(user: Bytes, algorithm: Bytes, blob: Bytes, signed: bool, rest: Bytes, more: Fields)
    requires Reads(rest, more) && |user| < U32_LIMIT && |algorithm| < U32_LIMIT && |blob| < U32_LIMIT
    ensures Reads(Auth.KeyRequest(user, algorithm, blob, signed, rest), PublicKeyFields(user, algorithm, blob, signed, more))
  {
    hide Str, Reads, Ascii, Auth.UserauthRequest;
    ServiceNamesAreShort();
    TextReads(blob, rest, more);
    TextReads(algorithm, Str(blob) + rest, Text(blob, more));
    FlagReads(signed, Str(algorithm) + (Str(blob) + rest), Text(algorithm, Text(blob, more)));
    UserauthIsRead(user, Ascii("publickey"), Bool(signed) + (Str(algorithm) + (Str(blob) + rest)),
                   Flag(signed, Text(algorithm, Text(blob, more))));
  }

  /** The query, the signed request, and what is signed: the session id and then the request without its
      signature. */
  lemma KeyRequestsAreRead(sessionId: Bytes, user: Bytes, algorithm: Bytes, blob: Bytes, signature: Bytes)
    requires |sessionId| < U32_LIMIT && |user| < U32_LIMIT && |algorithm| < U32_LIMIT && |blob| < U32_LIMIT
    requires |signature| < U32_LIMIT
    ensures Reads(Auth.KeyQuery(user, algorithm, blob), PublicKeyFields(user, algorithm, blob, false, End))
    ensures Reads(Auth.SignedRequest(user, algorithm, blob, signature),
                  PublicKeyFields(user, algorithm, blob, true, Text(signature, End)))
    ensures Reads(Auth.SignedData(sessionId, user, algorithm, blob),
                  Text(sessionId, PublicKeyFields(user, algorithm, blob, true, End)))
  {
    hide Str, Ascii, Auth.KeyRequest, Userauth;
    LastReads(0, true, signature);
    KeyIsRead(user, algorithm, blob, false, [], End);
    KeyIsRead(user, algorithm, blob, true, [], End);
    KeyIsRead(user, algorithm, blob, true, Str(signature), Text(signature, End));
    TextReads(sessionId, Auth.KeyRequest(user, algorithm, blob, true, []), PublicKeyFields(user, algorithm, blob, true, End));
  }

  // ---- what a session says -----------------------------------------------------------------------------

  /** One message has been sent, under the sending cipher, which has moved on by one packet; it reads so. */
  predicate Says(s: State, t: State, f: Fields) {
    && |t.out.sent| == |s.out.sent| + 1 && s.out.sent <= t.out.sent
    && var item := t.out.sent[|s.out.sent|];
       && item.Sealed? && item.k == s.out.cs && s.out.cs.Some? && Reads(item.payload, f)
       && t.out.cs == PacketStream.AdvanceOpt(s.out.cs)
  }

  lemma SentSays(c: Suite, s: State, t: State, payload: Bytes, f: Fields)
    requires s.out.cs.Some? && Reads(payload, f) && t.out == SendCiphered(c, s.out, payload).value
    ensures Says(s, t, f)
  {
    hide Reads, Emit;
    SessionSafety.EmitGrows(c, s.out, s.out.cs, payload);
  }

  lemma SendOrHaltSays(c: Suite, s: State, t: State, payload: Bytes, f: Fields)
    requires s.out.cs.Some? && Reads(payload, f) && t.out == s.out
    ensures var u := SendOrHalt(c, s, t, payload); Says(s, u, f) && u == t.(out := u.out)
  {
    hide Reads, SendCiphered, Says;
    SessionSafety.CipheredGrows(c, t.out, payload);
    SentSays(c, s, SendOrHalt(c, s, t, payload), payload, f);
  }

  /** Opening a channel says so, under the id that the host is given. */
  lemma OpeningSays(c: Suite, s: State, command: Bytes, pty: Connection.Pty)
    requires s.out.cs.Some?
    ensures var t := OpenExec(c, s, command); Says(s, t, Open(s.conn.nextId)) && t.events == s.events && t.phase == s.phase
    ensures var t := OpenShell(c, s, pty); Says(s, t, Open(s.conn.nextId)) && t.events == s.events && t.phase == s.phase
  {
    hide Reads, Says, SendOrHalt, Channel.OpenMessage, Connection.OpenExec, Connection.OpenShell, Open;
    OpenIsRead(s.conn.nextId);
    SendOrHaltSays(c, s, s.(conn := Connection.OpenExec(s.conn, command)), Channel.OpenMessage(s.conn.nextId),
                   Open(s.conn.nextId));
    SendOrHaltSays(c, s, s.(conn := Connection.OpenShell(s.conn, pty)), Channel.OpenMessage(s.conn.nextId),
                   Open(s.conn.nextId));
  }

  /** An attempt to authenticate says who and how, when it is time to; at any other time it does nothing. */
  lemma AttemptSays(c: Suite, s: State, user: Bytes, password: Bytes, key: PrivateKey)
    requires s.out.cs.Some? && |user| < U32_LIMIT && |password| < U32_LIMIT
    requires |c.publicBlob(key)| < U32_LIMIT && (c.userAlgorithm(key).Some? ==> |c.userAlgorithm(key).value| < U32_LIMIT)
    ensures s.phase != UserAuth ==> AuthenticatePassword(c, s, user, password) == s == AuthenticatePublickey(c, s, user, key)
    ensures var t := AuthenticatePassword(c, s, user, password);
            s.phase == UserAuth ==>
            && Says(s, t, Userauth(user, Ascii("password"), Flag(false, Text(password, End))))
            && t.username == Some(user) && t.pendingAuth == Some(PasswordSent) && t.events == s.events
    ensures var t := AuthenticatePublickey(c, s, user, key);
            s.phase == UserAuth ==>
            match c.userAlgorithm(key)
            case None => t == s.(username := Some(user))
            case Some(algorithm) =>
              && Says(s, t, PublicKeyFields(user, algorithm, c.publicBlob(key), false, End))
              && t.username == Some(user) && t.events == s.events
              && t.pendingAuth == Some(PublicKeyQuery(user, algorithm, c.publicBlob(key), key))
  {
    hide Reads, Says, SendOrHalt, Auth.PasswordRequest, Auth.KeyQuery, Userauth, Ascii, PublicKeyFields;
    PasswordIsRead(user, password);
    SendOrHaltSays(c, s, s.(username := Some(user), pendingAuth := Some(PasswordSent)), Auth.PasswordRequest(user, password),
                   Userauth(user, Ascii("password"), Flag(false, Text(password, End))));
    if c.userAlgorithm(key).Some? {
      var algorithm, blob := c.userAlgorithm(key).value, c.publicBlob(key);
      KeyRequestsAreRead([], user, algorithm, blob, []);
      SendOrHaltSays(c, s, s.(username := Some(user), pendingAuth := Some(PublicKeyQuery(user, algorithm, blob, key))),
                     Auth.KeyQuery(user, algorithm, blob), PublicKeyFields(user, algorithm, blob, false, End));
    }
  }

  /** Sending on a channel: the host hears that the window is full exactly when not everything fitted, and is told
      how much did; before the confirmation that is nothing. `Channel.SendDataExact` says what is sent. */
  lemma SendingReports(conn: Connection.Conn, id: U32, data: Bytes)
    requires Connection.AllSound(conn)
    ensures var r, n := Connection.ChannelSend(conn, id, data), Connection.Accepted(conn, id, data);
            && r.Reacted?
            && n == (match Connection.RemoteId(conn, id)
                     case None => 0
                     case Some(_) => Min(|data|, conn.channels[id].remoteWindow))
            && r.events == (if id in conn.channels && n < |data| then [Events.ChannelWindowFull(id)] else [])
  {
    hide Channel.SendData;
    if id in conn.channels { Channel.SendDataExact(conn.channels[id], data); }
  }

  lemma SettledSays(c: Suite, s: State, conn: Connection.Conn, payload: Bytes, f: Fields)
    requires s.out.cs.Some? && Reads(payload, f)
    ensures var t := Settle(s, React(c, s, Connection.Reacted(conn, [payload], [])));
            Says(s, t, f) && t == s.(conn := conn, out := t.out)
  {
    hide Reads, SendCiphered, Says;
    SendEachOne(c, s.out, payload);
    SessionSafety.CipheredGrows(c, s.out, payload);
    assert s.events + [] == s.events;
    SentSays(c, s, Settle(s, React(c, s, Connection.Reacted(conn, [payload], []))), payload, f);
  }

  /** Resizing and closing a confirmed channel say so to the server's id for it; on any other channel they say
      nothing. */
  lemma ChannelCallsSay(c: Suite, s: State, id: U32, cols: U32, rows: U32)
    requires s.out.cs.Some?
    ensures match Connection.RemoteId(s.conn, id)
            case Some(remote) =>
              && Says(s, HostCall(c, s, Resize(id, cols, rows)), Resized(remote, cols, rows))
              && Says(s, HostCall(c, s, CloseChannel(id)), Octet(97, Number(remote, End)))
            case None => HostCall(c, s, Resize(id, cols, rows)) == s == HostCall(c, s, CloseChannel(id))
  {
    hide Reads, Says, React, Connection.WindowChangeRequest, Channel.IdMessage, Connection.RemoteId, Resized;
    ChannelCalls(c, s, id, [], cols, rows);
    match Connection.RemoteId(s.conn, id)
    case Some(remote) =>
      ResizeIsRead(remote, cols, rows);
      DataIsRead(remote, [], 0);
      SettledSays(c, s, s.conn, Connection.WindowChangeRequest(remote, cols, rows), Resized(remote, cols, rows));
      SettledSays(c, s, s.conn, Channel.IdMessage(Channel.MSG_CHANNEL_CLOSE, remote), Octet(97, Number(remote, End)));
    case None => NothingSaid(c, s);
  }

  lemma NothingSaid(c: Suite, s: State)
    ensures Settle(s, React(c, s, Connection.Reacted(s.conn, [], []))) == s
  {
    SendEachNone(c, s.out);
    assert s.events + [] == s.events;
  }

  /** Accepting a host key: NEWKEYS alone in the clear, and then the request for authentication, the first packet
      under the sending cipher. */
  lemma AcceptingSays(c: Suite, s: State)
    requires s.kex.pendingCiphers.Some?
    ensures var t := Accepted(c, s);
            && t.kex.pendingSc == Some(s.kex.pendingCiphers.value.sc) && t.kex.sc == s.kex.sc
            && |t.out.sent| == |s.out.sent| + 2 && s.out.sent <= t.out.sent
            && var first, second := t.out.sent[|s.out.sent|], t.out.sent[|s.out.sent| + 1];
               && first.Sealed? && first.k == None && Reads(first.payload, Octet(21, End))
               && second.Sealed? && second.k == Some(s.kex.pendingCiphers.value.cs)
               && Reads(second.payload, Octet(5, Text(Ascii("ssh-userauth"), End)))
  {
    hide Emit, Auth.ServiceRequest, Auth.ServiceUserauth, Ascii, Packet.Advance;
    ServiceIsRead();
    OctetReads(21, [], End);
    assert [KexInit.MSG_NEWKEYS] + [] == [KexInit.MSG_NEWKEYS];
    SessionSafety.EmitGrows(c, s.out, None, [KexInit.MSG_NEWKEYS]);
    var out := SendPlain(c, s.out, [KexInit.MSG_NEWKEYS]).(cs := Some(s.kex.pendingCiphers.value.cs));
    SessionSafety.EmitGrows(c, out, out.cs, Auth.ServiceRequest(Auth.ServiceUserauth()));
  }
}
