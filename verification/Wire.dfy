/** The RFC 4251 section 5 primitives of ssh-core/src/wire.rs: `uint32`, `boolean` and `string`. */
module Wire {
  import opened Prelude
  import Utf8

  // ---- writing -------------------------------------------------------------------------------

  function U32Be(v: U32): (b: Bytes)
    ensures |b| == 4
  {
    var hi, mid := v / 0x100 / 0x100, v / 0x100;
    [hi / 0x100, hi % 0x100, mid % 0x100, v % 0x100]
  }

  /** A length prefix is `data.len() as u32`, which truncates. */
  function Str(data: Bytes): Bytes { U32Be(|data| % U32_LIMIT) + data }

  function Bool(b: bool): Bytes { if b then [1] else [0] }

  // ---- reading: each getter returns the value and the unread rest ------------------------------

  function U32Of(b: Bytes): U32
    requires |b| == 4
  {
    ((b[0] as int * 0x100 + b[1] as int) * 0x100 + b[2] as int) * 0x100 + b[3] as int
  }

  /** The first four bytes, most significant first. */
  function BigEndian(b: Bytes): nat
    requires |b| >= 4
  {
    b[0] as int * 0x100_0000 + b[1] as int * 0x1_0000 + b[2] as int * 0x100 + b[3] as int
  }

  function GetU8(b: Bytes): Result<(Byte, Bytes)> {
    if |b| < 1 then Err(Framing) else Ok((b[0], b[1..]))
  }

  function GetBool(b: Bytes): Result<(bool, Bytes)> {
    var (x, rest) :- GetU8(b);
    Ok((x != 0, rest))
  }

  function GetU32(b: Bytes): Result<(U32, Bytes)> {
    if |b| < 4 then Err(Framing) else Ok((U32Of(b[..4]), b[4..]))
  }

  function GetString(b: Bytes): Result<(Bytes, Bytes)> {
    var (n, rest) :- GetU32(b);
    if |rest| < n then Err(Framing) else Ok((rest[..n], rest[n..]))
  }

  function GetUtf8(b: Bytes): Result<(Bytes, Bytes)> {
    var (s, rest) :- GetString(b);
    if Utf8.Valid(s) then Ok((s, rest)) else Err(Framing)
  }

  // ---- the getters undo the writers ------------------------------------------------------------

  lemma U32RoundTrip(v: U32, rest: Bytes)
    ensures U32Of(U32Be(v)) == v
    ensures GetU32(U32Be(v) + rest) == Ok((v, rest))
  {
    assert (U32Be(v) + rest)[..4] == U32Be(v);
    assert (U32Be(v) + rest)[4..] == rest;
  }

  lemma Digit(high: nat, low: Byte)
    ensures (high * 0x100 + low) / 0x100 == high && (high * 0x100 + low) % 0x100 == low
  {
  }

  lemma U32BeOf(b: Bytes)
    requires |b| == 4
    ensures U32Be(U32Of(b)) == b
  {
    var top := b[0] as int * 0x100 + b[1];
    Digit(b[0], b[1]);
    Digit(top, b[2]);
    Digit(top * 0x100 + b[2], b[3]);
  }

  lemma U8RoundTrip(b: Byte, rest: Bytes)
    ensures GetU8([b] + rest) == Ok((b, rest))
  {
    assert ([b] + rest)[1..] == rest;
  }

  lemma BoolRoundTrip(b: bool, rest: Bytes)
    ensures GetBool(Bool(b) + rest) == Ok((b, rest))
  {
    assert (Bool(b) + rest)[1..] == rest;
  }

  lemma StrRoundTrip(data: Bytes, rest: Bytes)
    requires |data| < U32_LIMIT
    ensures GetString(Str(data) + rest) == Ok((data, rest))
  {
    hide U32Be, U32Of;
    var n: U32 := |data|;
    assert Str(data) + rest == U32Be(n) + (data + rest);
    U32RoundTrip(n, data + rest);
    assert (data + rest)[..n] == data && (data + rest)[n..] == rest;
  }

  lemma Utf8RoundTrip(data: Bytes, rest: Bytes)
    requires |data| < U32_LIMIT && Utf8.Valid(data)
    ensures GetUtf8(Str(data) + rest) == Ok((data, rest))
  {
    StrRoundTrip(data, rest);
  }

  /** A message's last field. */
  lemma LastStr(data: Bytes)
    requires |data| < U32_LIMIT
    ensures GetString(Str(data)) == Ok((data, []))
    ensures Utf8.Valid(data) ==> GetUtf8(Str(data)) == Ok((data, []))
  {
    assert Str(data) + [] == Str(data);
    StrRoundTrip(data, []);
  }

  /** A `string` field followed by anything is uniquely decodable. */
  lemma StrUnique(a: Bytes, restA: Bytes, b: Bytes, restB: Bytes)
    requires |a| < U32_LIMIT && |b| < U32_LIMIT
    requires Str(a) + restA == Str(b) + restB
    ensures a == b && restA == restB
  {
    StrRoundTrip(a, restA);
    StrRoundTrip(b, restB);
  }

  /** What `read_string` accepts is exactly what `write_string` would have written. */
  lemma GetStringExact(b: Bytes)
    requires GetString(b).Ok?
    ensures var (s, rest) := GetString(b).value; |s| < U32_LIMIT && b == Str(s) + rest
  {
    hide U32Be, U32Of;
    var (n, rest) := GetU32(b).value;
    U32BeOf(b[..4]);
    assert Str(rest[..n]) == b[..4] + rest[..n];
    assert b == b[..4] + (rest[..n] + rest[n..]);
  }

  // ---- the cursor ------------------------------------------------------------------------------

  /** `Reader`: a cursor that every successful read advances past the field it returned. */
  class Reader {
    const buf: Bytes
    var pos: nat

    ghost predicate Valid()
      reads this
    {
      pos <= |buf|
    }

    ghost function Rest(): Bytes
      reads this
      requires Valid()
    {
      buf[pos..]
    }

    constructor (data: Bytes)
      ensures Valid() && buf == data && Rest() == data
    {
      buf := data;
      pos := 0;
    }

    method ReadU8() returns (r: Result<Byte>)
      requires Valid()
      modifies this
      ensures Valid()
      ensures match GetU8(old(Rest()))
              case Ok((v, rest)) => r == Ok(v) && Rest() == rest
              case Err(e) => r == Err(e) && pos == old(pos)
    {
      if pos >= |buf| {
        return Err(Framing);
      }
      r := Ok(buf[pos]);
      pos := pos + 1;
    }

    method ReadBool() returns (r: Result<bool>)
      requires Valid()
      modifies this
      ensures Valid()
      ensures r.Ok? ==> |old(Rest())| > 0 && (r.value <==> old(Rest())[0] != 0)
      ensures match GetBool(old(Rest()))
              case Ok((v, rest)) => r == Ok(v) && Rest() == rest
              case Err(e) => r == Err(e) && pos == old(pos)
    {
      var b := ReadU8();
      match b
      case Ok(x) => r := Ok(x != 0);
      case Err(e) => r := Err(e);
    }

    method ReadU32() returns (r: Result<U32>)
      requires Valid()
      modifies this
      ensures Valid()
      ensures r.Ok? ==> |old(Rest())| >= 4 && r.value == BigEndian(old(Rest()))
      ensures match GetU32(old(Rest()))
              case Ok((v, rest)) => r == Ok(v) && Rest() == rest
              case Err(e) => r == Err(e) && pos == old(pos)
    {
      if |buf| - pos < 4 {
        return Err(Framing);
      }
      assert buf[pos..][..4] == buf[pos..pos + 4];
      r := Ok(U32Of(buf[pos..pos + 4]));
      pos := pos + 4;
    }

    /** On a truncated body the length prefix has already been consumed. */
    method ReadString() returns (r: Result<Bytes>)
      requires Valid()
      modifies this
      ensures Valid()
      ensures r.Ok? ==> var b := old(Rest());
                        && |b| >= 4 && |b| >= 4 + BigEndian(b)
                        && r.value == b[4..4 + BigEndian(b)] && Rest() == b[4 + BigEndian(b)..]
      ensures match GetString(old(Rest()))
              case Ok((v, rest)) => r == Ok(v) && Rest() == rest
              case Err(e) => r == Err(e)
    {
      var len := ReadU32();
      match len
      case Err(e) => r := Err(e);
      case Ok(n) =>
        if |buf| - pos < n {
          return Err(Framing);
        }
        assert buf[pos..][..n] == buf[pos..pos + n];
        assert buf[pos..][n..] == buf[pos + n..];
        r := Ok(buf[pos..pos + n]);
        pos := pos + n;
    }

    method ReadUtf8String() returns (r: Result<Bytes>)
      requires Valid()
      modifies this
      ensures Valid()
      ensures match GetUtf8(old(Rest()))
              case Ok((v, rest)) => r == Ok(v) && Rest() == rest
              case Err(e) => r == Err(e)
    {
      r := ReadString();
      if r.Ok? && !Utf8.Valid(r.value) {
        r := Err(Framing);
      }
    }
  }
}
