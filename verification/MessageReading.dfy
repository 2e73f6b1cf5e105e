/** Each end reads exactly what the other end wrote: the client on the test server's replies, and the
    test server on the client's requests. */
module MessageReading {
  import opened Prelude
  import opened Primitives
  import opened Wire
  import opened FakeServer
  import SessionModel
  import KexInit
  import Exchange
  import Auth
  import Channel
  import Connection

  // ---- the client reads replies ------------------------------------------------------------------

  lemma AcceptRead(cfg: Config)
    ensures Auth.ParseServiceAccept(Encode(cfg, ServiceAccept)) == Ok(Auth.ServiceUserauth())
  {
    hide Str, GetU8, GetUtf8, Auth.ServiceUserauth;
    Auth.ConstantsAreText();
    U8RoundTrip(Auth.MSG_SERVICE_ACCEPT, Str(Auth.ServiceUserauth()));
    LastStr(Auth.ServiceUserauth());
  }

  lemma RemainingIsText() ensures Auth.Text(RemainingMethods()) { Auth.AsciiIsText("password,publickey"); }

  lemma FailureRead(cfg: Config)
    ensures Auth.ParseFailure(Encode(cfg, AuthFailure)) == Ok(KexInit.NamesOf(RemainingMethods()))
  {
    hide Str, GetU8, GetUtf8, GetBool, Bool, RemainingMethods, KexInit.NamesOf;
    RemainingIsText();
    U8RoundTrip(Auth.MSG_USERAUTH_FAILURE, Str(RemainingMethods()) + Bool(false));
    Utf8RoundTrip(RemainingMethods(), Bool(false));
    BoolRoundTrip(false, []);
    assert Bool(false) + [] == Bool(false);
  }

  lemma KeyAcceptableRead(cfg: Config, algorithm: Bytes, blob: Bytes)
    requires Auth.Text(algorithm) && |blob| < U32_LIMIT
    ensures Auth.ParsePkOk(Encode(cfg, KeyAcceptable(algorithm, blob))) == Ok((algorithm, blob))
  {
    hide Str, GetU8, GetUtf8, GetString;
    U8RoundTrip(Auth.MSG_USERAUTH_PK_OK, Str(algorithm) + Str(blob));
    Utf8RoundTrip(algorithm, Str(blob));
    LastStr(blob);
  }

  lemma GlobalRead(cfg: Config)
    ensures SessionModel.ParseGlobalRequest(Encode(cfg, GlobalRequest)[1..]) == Ok(true)
  {
    hide Str, GetBool, Bool, GetString, GlobalRequestName;
    var fields := Str(GlobalRequestName()) + Bool(true);
    assert Encode(cfg, GlobalRequest)[1..] == fields;
    GlobalNameShort();
    StrRoundTrip(GlobalRequestName(), Bool(true));
    BoolRoundTrip(true, []);
    assert Bool(true) + [] == Bool(true);
  }

  lemma GlobalNameShort() ensures |GlobalRequestName()| <= 100 {}

  lemma ConfirmationRead(cfg: Config, id: U32)
    ensures Connection.ParseConfirmation(Encode(cfg, Confirmation(id))[1..])
            == Ok(Connection.OpenConfirmation(id, 0, Channel.INITIAL_WINDOW_SIZE, Channel.MAX_PACKET_SIZE))
  {
    hide U32Be, GetU32;
    var w, m := U32Be(Channel.INITIAL_WINDOW_SIZE), U32Be(Channel.MAX_PACKET_SIZE);
    assert Encode(cfg, Confirmation(id))[1..] == U32Be(id) + (U32Be(0) + (w + (m + [])));
    U32RoundTrip(id, U32Be(0) + (w + (m + [])));
    U32RoundTrip(0, w + (m + []));
    U32RoundTrip(Channel.INITIAL_WINDOW_SIZE, m + []);
    U32RoundTrip(Channel.MAX_PACKET_SIZE, []);
  }

  lemma IdRead(msg: Byte, id: U32)
    ensures GetU32(Channel.IdMessage(msg, id)[1..]) == Ok((id, []))
  {
    hide U32Be, GetU32;
    assert Channel.IdMessage(msg, id)[1..] == U32Be(id) + [];
    U32RoundTrip(id, []);
  }

  lemma OutputRead(cfg: Config, id: U32)
    requires |cfg.execOutput| < U32_LIMIT
    ensures Connection.ParseIdAndData(Encode(cfg, Output(id))[1..]) == Ok((id, cfg.execOutput))
  {
    hide U32Be, GetU32, GetString, Str;
    assert Encode(cfg, Output(id))[1..] == U32Be(id) + Str(cfg.execOutput);
    U32RoundTrip(id, Str(cfg.execOutput));
    LastStr(cfg.execOutput);
  }

  lemma ExitNameIsText() ensures Auth.Text(Connection.NameExitStatus()) { Auth.AsciiIsText("exit-status"); }

  lemma ExitStatusRead(cfg: Config, id: U32)
    ensures Connection.ParseServerRequest(Encode(cfg, ExitStatus(id))[1..])
            == Ok(Connection.ServerRequest(id, Connection.NameExitStatus(), false, U32Be(cfg.exitCode)))
    ensures GetU32(U32Be(cfg.exitCode)) == Ok((cfg.exitCode, []))
  {
    hide U32Be, GetU32, GetUtf8, GetBool, Str, Bool, Connection.NameExitStatus;
    ExitNameIsText();
    var name := Connection.NameExitStatus();
    assert Encode(cfg, ExitStatus(id))[1..] == U32Be(id) + (Str(name) + (Bool(false) + U32Be(cfg.exitCode)));
    U32RoundTrip(id, Str(name) + (Bool(false) + U32Be(cfg.exitCode)));
    Utf8RoundTrip(name, Bool(false) + U32Be(cfg.exitCode));
    BoolRoundTrip(false, U32Be(cfg.exitCode));
    U32RoundTrip(cfg.exitCode, []);
    assert U32Be(cfg.exitCode) + [] == U32Be(cfg.exitCode);
  }

  // ---- the server reads requests -----------------------------------------------------------------

  lemma CurveInitRead(qC: Bytes32)
    ensures ParseCurveInit(Exchange.CurveInit(qC)) == Ok(qC)
  {
    hide Str, GetU8, GetString;
    U8RoundTrip(Exchange.MSG_KEX_INIT, Str(qC));
    LastStr(qC);
  }

  lemma ServiceRequestRead()
    ensures ParseServiceRequest(Auth.ServiceRequest(Auth.ServiceUserauth())) == Ok(Auth.ServiceUserauth())
  {
    hide Str, GetU8, GetUtf8, Auth.ServiceUserauth;
    Auth.ConstantsAreText();
    U8RoundTrip(Auth.MSG_SERVICE_REQUEST, Str(Auth.ServiceUserauth()));
    LastStr(Auth.ServiceUserauth());
  }

  lemma ExecNameIsText() ensures Auth.Text(Connection.NameExec()) { Auth.AsciiIsText("exec"); }

  lemma ExecRead(remote: U32, command: Bytes)
    requires Auth.Text(command)
    ensures ParseChannelRequest(Connection.ExecRequest(remote, command))
            == Ok(ChannelRequest(remote, Connection.NameExec(), Str(command)))
    ensures GetUtf8(Str(command)) == Ok((command, []))
  {
    hide Str, GetU8, GetUtf8, GetU32, GetBool, Bool, U32Be, Connection.NameExec;
    ExecNameIsText();
    var name := Connection.NameExec();
    U8RoundTrip(Channel.MSG_CHANNEL_REQUEST, U32Be(remote) + (Str(name) + (Bool(true) + Str(command))));
    U32RoundTrip(remote, Str(name) + (Bool(true) + Str(command)));
    Utf8RoundTrip(name, Bool(true) + Str(command));
    BoolRoundTrip(true, Str(command));
    LastStr(command);
  }
}
