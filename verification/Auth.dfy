/** User authentication messages: ssh-core/src/auth (RFC 4252), and the server's reading of them. */
module Auth {
  import opened Prelude
  import opened Wire
  import KexInit
  import Utf8

  const MSG_SERVICE_REQUEST: Byte := 5
  const MSG_SERVICE_ACCEPT: Byte := 6
  const MSG_USERAUTH_REQUEST: Byte := 50
  const MSG_USERAUTH_FAILURE: Byte := 51
  const MSG_USERAUTH_SUCCESS: Byte := 52
  const MSG_USERAUTH_PK_OK: Byte := 60

  function ServiceUserauth(): Bytes { Ascii("ssh-userauth") }
  function ServiceConnection(): Bytes { Ascii("ssh-connection") }
  function MethodPassword(): Bytes { Ascii("password") }
  function MethodPublickey(): Bytes { Ascii("publickey") }

  // ---- client messages ---------------------------------------------------------------------------

  function ServiceRequest(name: Bytes): Bytes { [MSG_SERVICE_REQUEST] + Str(name) }

  /** `write_request_prefix`, followed by the method's own fields. */
  function UserauthRequest(user: Bytes, meth: Bytes, fields: Bytes): Bytes {
    [MSG_USERAUTH_REQUEST] + (Str(user) + (Str(ServiceConnection()) + (Str(meth) + fields)))
  }

  function PasswordRequest(user: Bytes, password: Bytes): Bytes {
    UserauthRequest(user, MethodPassword(), Bool(false) + Str(password))
  }

  /** A publickey request: the fields through the key blob, and whatever follows it. */
  function KeyRequest(user: Bytes, algorithm: Bytes, blob: Bytes, signed: bool, rest: Bytes): Bytes {
    UserauthRequest(user, MethodPublickey(), Bool(signed) + (Str(algorithm) + (Str(blob) + rest)))
  }

  function KeyQuery(user: Bytes, algorithm: Bytes, blob: Bytes): Bytes { KeyRequest(user, algorithm, blob, false, []) }

  function SignedData(sessionId: Bytes, user: Bytes, algorithm: Bytes, blob: Bytes): Bytes {
    Str(sessionId) + KeyRequest(user, algorithm, blob, true, [])
  }

  function SignedRequest(user: Bytes, algorithm: Bytes, blob: Bytes, signature: Bytes): Bytes {
    KeyRequest(user, algorithm, blob, true, Str(signature))
  }

  // ---- server messages as the client reads them ----------------------------------------------------

  function ParseServiceAccept(payload: Bytes): Result<Bytes> {
    var (msg, rest) :- GetU8(payload);
    if msg != MSG_SERVICE_ACCEPT then Err(UnexpectedMessage(msg))
    else
      var (name, _) :- GetUtf8(rest);
      Ok(name)
  }

  /** The remaining methods; the partial-success flag must be present but is not used. */
  function ParseFailure(payload: Bytes): Result<seq<Bytes>> {
    var (msg, r0) :- GetU8(payload);
    if msg != MSG_USERAUTH_FAILURE then Err(UnexpectedMessage(msg))
    else
      var (joined, r1) :- GetUtf8(r0);
      var (_, _) :- GetBool(r1);
      Ok(KexInit.NamesOf(joined))
  }

  function ParsePkOk(payload: Bytes): Result<(Bytes, Bytes)> {
    var (msg, r0) :- GetU8(payload);
    if msg != MSG_USERAUTH_PK_OK then Err(UnexpectedMessage(msg))
    else
      var (algorithm, r1) :- GetUtf8(r0);
      var (blob, _) :- GetString(r1);
      Ok((algorithm, blob))
  }

  // ---- client messages as the test server reads them -----------------------------------------------

  datatype Request =
    | Password(user: Bytes, password: Bytes)
    | Query(user: Bytes, algorithm: Bytes, blob: Bytes)
    | Signed(user: Bytes, algorithm: Bytes, blob: Bytes, signature: Bytes)
    | OtherMethod(user: Bytes)

  function ParseRequest(payload: Bytes): Result<Request> {
    var (_, r0) :- GetU8(payload);
    var (user, r1) :- GetUtf8(r0);
    var (_, r2) :- GetUtf8(r1);
    var (meth, r3) :- GetUtf8(r2);
    if meth == MethodPassword() then
      var (_, r4) :- GetBool(r3);
      var (password, _) :- GetUtf8(r4);
      Ok(Password(user, password))
    else if meth == MethodPublickey() then
      var (signed, r4) :- GetBool(r3);
      var (algorithm, r5) :- GetUtf8(r4);
      var (blob, r6) :- GetString(r5);
      if !signed then Ok(Query(user, algorithm, blob))
      else
        var (signature, _) :- GetString(r6);
        Ok(Signed(user, algorithm, blob, signature))
    else Ok(OtherMethod(user))
  }

  /** The bytes the server rebuilds, field by field, to check a signature against. */
  function RebuiltSignedData(sessionId: Bytes, user: Bytes, algorithm: Bytes, blob: Bytes): Bytes {
    Str(sessionId) + [MSG_USERAUTH_REQUEST] + Str(user) + Str(Ascii("ssh-connection")) + Str(Ascii("publickey"))
    + [1] + Str(algorithm) + Str(blob)
  }

  predicate Text(b: Bytes) { |b| < U32_LIMIT && Utf8.Valid(b) }

  lemma UserauthIsText() ensures Text(ServiceUserauth()) { AsciiIsText("ssh-userauth"); }

  lemma ConnectionIsText() ensures Text(ServiceConnection()) { AsciiIsText("ssh-connection"); }

  lemma PasswordIsText() ensures Text(MethodPassword()) { AsciiIsText("password"); }

  lemma PublickeyIsText() ensures Text(MethodPublickey()) { AsciiIsText("publickey"); }

  lemma MethodsDiffer()
    ensures MethodPassword() != MethodPublickey()
  {
    assert |MethodPassword()| != |MethodPublickey()|;
  }

  lemma ConstantsAreText()
    ensures Text(ServiceUserauth()) && Text(ServiceConnection()) && Text(MethodPassword()) && Text(MethodPublickey())
    ensures MethodPassword() != MethodPublickey()
  {
    hide ServiceUserauth, ServiceConnection, MethodPassword, MethodPublickey;
    UserauthIsText();
    ConnectionIsText();
    PasswordIsText();
    PublickeyIsText();
    MethodsDiffer();
  }

  lemma AsciiIsText(s: string)
    requires |s| < U32_LIMIT && forall i :: 0 <= i < |s| ==> s[i] as int < 0x80
    ensures Text(Ascii(s))
  {
    Utf8.AsciiIsValid(Ascii(s));
  }

  /** The fields in front of every method's own part are read back. */
  lemma RequestRead(user: Bytes, meth: Bytes, fields: Bytes)
    requires Text(user) && Text(meth)
    ensures var service := ServiceConnection();
            && GetU8(UserauthRequest(user, meth, fields))
               == Ok((MSG_USERAUTH_REQUEST, Str(user) + (Str(service) + (Str(meth) + fields))))
            && GetUtf8(Str(user) + (Str(service) + (Str(meth) + fields)))
               == Ok((user, Str(service) + (Str(meth) + fields)))
            && GetUtf8(Str(service) + (Str(meth) + fields)) == Ok((service, Str(meth) + fields))
            && GetUtf8(Str(meth) + fields) == Ok((meth, fields))
  {
    hide Str, GetUtf8, GetU8, ServiceConnection;
    ConstantsAreText();
    var service := ServiceConnection();
    U8RoundTrip(MSG_USERAUTH_REQUEST, Str(user) + (Str(service) + (Str(meth) + fields)));
    Utf8RoundTrip(user, Str(service) + (Str(meth) + fields));
    Utf8RoundTrip(service, Str(meth) + fields);
    Utf8RoundTrip(meth, fields);
  }

  lemma PasswordIsRead(user: Bytes, password: Bytes)
    requires Text(user) && Text(password)
    ensures ParseRequest(PasswordRequest(user, password)) == Ok(Password(user, password))
  {
    hide Str, GetU8, GetUtf8, GetBool, ServiceConnection, MethodPassword, MethodPublickey, UserauthRequest;
    ConstantsAreText();
    RequestRead(user, MethodPassword(), Bool(false) + Str(password));
    BoolRoundTrip(false, Str(password));
    LastStr(password);
  }

  lemma KeyFieldsRead(algorithm: Bytes, blob: Bytes, signed: bool, rest: Bytes)
    requires Text(algorithm) && |blob| < U32_LIMIT
    ensures GetBool(Bool(signed) + (Str(algorithm) + (Str(blob) + rest)))
            == Ok((signed, Str(algorithm) + (Str(blob) + rest)))
    ensures GetUtf8(Str(algorithm) + (Str(blob) + rest)) == Ok((algorithm, Str(blob) + rest))
    ensures GetString(Str(blob) + rest) == Ok((blob, rest))
  {
    hide Str, GetUtf8, GetBool, GetString;
    BoolRoundTrip(signed, Str(algorithm) + (Str(blob) + rest));
    Utf8RoundTrip(algorithm, Str(blob) + rest);
    StrRoundTrip(blob, rest);
  }

  lemma QueryIsRead(user: Bytes, algorithm: Bytes, blob: Bytes)
    requires Text(user) && Text(algorithm) && |blob| < U32_LIMIT
    ensures ParseRequest(KeyQuery(user, algorithm, blob)) == Ok(Query(user, algorithm, blob))
  {
    hide Str, GetU8, GetUtf8, GetBool, GetString, ServiceConnection, MethodPassword, MethodPublickey, UserauthRequest;
    ConstantsAreText();
    RequestRead(user, MethodPublickey(), Bool(false) + (Str(algorithm) + (Str(blob) + [])));
    KeyFieldsRead(algorithm, blob, false, []);
  }

  lemma SignedIsRead(user: Bytes, algorithm: Bytes, blob: Bytes, signature: Bytes)
    requires Text(user) && Text(algorithm) && |blob| < U32_LIMIT && |signature| < U32_LIMIT
    ensures ParseRequest(SignedRequest(user, algorithm, blob, signature))
            == Ok(Signed(user, algorithm, blob, signature))
  {
    hide Str, GetU8, GetUtf8, GetBool, GetString, ServiceConnection, MethodPassword, MethodPublickey, UserauthRequest;
    ConstantsAreText();
    RequestRead(user, MethodPublickey(), Bool(true) + (Str(algorithm) + (Str(blob) + Str(signature))));
    KeyFieldsRead(algorithm, blob, true, Str(signature));
    LastStr(signature);
  }

  /** What the server rebuilds from a parsed signed request is what the client signed, for every
      user, algorithm, key blob and session id (section 7 of RFC 4252). */
  lemma ServerRebuildsSignedData(sessionId: Bytes, user: Bytes, algorithm: Bytes, blob: Bytes, signature: Bytes)
    requires Text(user) && Text(algorithm) && |blob| < U32_LIMIT && |signature| < U32_LIMIT
    ensures match ParseRequest(SignedRequest(user, algorithm, blob, signature))
            case Ok(Signed(u, a, b, s)) =>
              s == signature && RebuiltSignedData(sessionId, u, a, b) == SignedData(sessionId, user, algorithm, blob)
            case _ => false
  {
    hide ParseRequest, SignedRequest, Str;
    SignedIsRead(user, algorithm, blob, signature);
    assert RebuiltSignedData(sessionId, user, algorithm, blob) == SignedData(sessionId, user, algorithm, blob);
  }

  /** Signed data is uniquely decodable. */
  lemma SignedDataUnique(
      sessionId: Bytes, user: Bytes, algorithm: Bytes, blob: Bytes,
      sessionId': Bytes, user': Bytes, algorithm': Bytes, blob': Bytes)
    requires |sessionId| < U32_LIMIT && |sessionId'| < U32_LIMIT
    requires Text(user) && Text(algorithm) && |blob| < U32_LIMIT
    requires Text(user') && Text(algorithm') && |blob'| < U32_LIMIT
    requires SignedData(sessionId, user, algorithm, blob) == SignedData(sessionId', user', algorithm', blob')
    ensures sessionId == sessionId' && user == user' && algorithm == algorithm' && blob == blob'
  {
    hide Str, ParseRequest;
    StrUnique(sessionId, KeyRequest(user, algorithm, blob, true, []),
              sessionId', KeyRequest(user', algorithm', blob', true, []));
    SignatureAppends(user, algorithm, blob);
    SignatureAppends(user', algorithm', blob');
    SignedIsRead(user, algorithm, blob, []);
    SignedIsRead(user', algorithm', blob', []);
  }

  lemma SignatureAppends(user: Bytes, algorithm: Bytes, blob: Bytes)
    ensures SignedRequest(user, algorithm, blob, []) == KeyRequest(user, algorithm, blob, true, []) + Str([])
  {
    hide Str;
    KeyRequestAppends(user, algorithm, blob, true, Str([]));
  }

  lemma KeyRequestAppends(user: Bytes, algorithm: Bytes, blob: Bytes, signed: bool, rest: Bytes)
    ensures KeyRequest(user, algorithm, blob, signed, rest) == KeyRequest(user, algorithm, blob, signed, []) + rest
  {
    hide Str;
    var a, b, d, e := Str(user), Str(ServiceConnection()), Str(MethodPublickey()), Bool(signed) + Str(algorithm) + Str(blob);
    assert Bool(signed) + (Str(algorithm) + (Str(blob) + rest)) == e + rest;
    assert Bool(signed) + (Str(algorithm) + (Str(blob) + [])) == e;
    assert [MSG_USERAUTH_REQUEST] + (a + (b + (d + (e + rest)))) == [MSG_USERAUTH_REQUEST] + (a + (b + (d + e))) + rest;
  }
}
