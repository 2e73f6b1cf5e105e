/**
  Messages field by field, in the representations of section 5 of RFC 4251: what any peer that goes by the
  RFCs reads in a message, independently of the code that wrote it or will read it.
 */
module Layouts {
  import opened Prelude
  import opened Wire
  import Utf8

  /** The fields of a message, in order; `Text` is any `string`. */
  datatype Fields =
    | End
    | Octet(byte: Byte, more: Fields)
    | Number(n: U32, more: Fields)
    | Flag(on: bool, more: Fields)
    | Text(text: Bytes, more: Fields)

  /** The message consists of exactly these fields. */
  predicate Reads(b: Bytes, f: Fields)
    decreases f
  {
    match f
    case End => b == []
    case Octet(byte, more) => |b| >= 1 && b[0] == byte && Reads(b[1..], more)
    case Number(n, more) => |b| >= 4 && BigEndian(b) == n && Reads(b[4..], more)
    case Flag(on, more) => |b| >= 1 && b[0] == (if on then 1 else 0) && Reads(b[1..], more)
    case Text(text, more) =>
      && |b| >= 4
      && var n := BigEndian(b);
         |b| >= 4 + n && b[4..4 + n] == text && Reads(b[4 + n..], more)
  }

  function Size(f: Fields): nat {
    match f
    case End => 0
    case Octet(_, more) => 1 + Size(more)
    case Number(_, more) => 4 + Size(more)
    case Flag(_, more) => 1 + Size(more)
    case Text(text, more) => 4 + |text| + Size(more)
  }

  lemma {:induction false} ReadsSize(b: Bytes, f: Fields)
    requires Reads(b, f)
    ensures |b| == Size(f)
    decreases f
  {
    hide BigEndian;
    match f
    case End =>
    case Octet(_, more) => ReadsSize(b[1..], more);
    case Number(_, more) => ReadsSize(b[4..], more);
    case Flag(_, more) => ReadsSize(b[1..], more);
    case Text(text, more) => ReadsSize(b[4 + |text|..], more);
  }

  /** The same kinds of fields in the same order, up to the end. */
  predicate SameShape(f: Fields, g: Fields) {
    match (f, g)
    case (End, End) => true
    case (Octet(_, m), Octet(_, n)) => SameShape(m, n)
    case (Number(_, m), Number(_, n)) => SameShape(m, n)
    case (Flag(_, m), Flag(_, n)) => SameShape(m, n)
    case (Text(_, m), Text(_, n)) => SameShape(m, n)
    case _ => false
  }

  lemma {:induction false} SameAsItself(f: Fields)
    ensures SameShape(f, f)
    decreases f
  {
    if !f.End? { SameAsItself(f.more); }
  }

  lemma NumberOf(b: Bytes)
    requires |b| >= 4
    ensures BigEndian(b) == U32Of(b[..4])
  {
  }

  lemma SameNumber(a: Bytes, b: Bytes)
    requires |a| >= 4 && |b| >= 4 && BigEndian(a) == BigEndian(b)
    ensures a[..4] == b[..4]
  {
    hide U32Be, U32Of, BigEndian;
    NumberOf(a);
    NumberOf(b);
    U32BeOf(a[..4]);
    U32BeOf(b[..4]);
  }

  /** Two messages with the same shape are equal when their first fields and what follows are. */
  lemma SameByte(a: Bytes, b: Bytes)
    requires |a| >= 1 && |b| >= 1
    ensures a == b <==> a[0] == b[0] && a[1..] == b[1..]
  {
    assert a == [a[0]] + a[1..] && b == [b[0]] + b[1..];
  }

  lemma SameWord(a: Bytes, b: Bytes)
    requires |a| >= 4 && |b| >= 4
    ensures a == b <==> BigEndian(a) == BigEndian(b) && a[4..] == b[4..]
  {
    hide BigEndian;
    if BigEndian(a) == BigEndian(b) { SameNumber(a, b); }
    assert a == a[..4] + a[4..] && b == b[..4] + b[4..];
  }

  lemma SameText(a: Bytes, b: Bytes)
    requires |a| >= 4 && |a| >= 4 + BigEndian(a) && |b| >= 4 && |b| >= 4 + BigEndian(b)
    ensures a == b <==> a[4..4 + BigEndian(a)] == b[4..4 + BigEndian(b)] && a[4 + BigEndian(a)..] == b[4 + BigEndian(b)..]
  {
    hide BigEndian;
    var i, j := BigEndian(a), BigEndian(b);
    SameWord(a, b);
    assert |a[4..4 + i]| == i && |b[4..4 + j]| == j;
    assert a[4..] == a[4..4 + i] + a[4 + i..] && b[4..] == b[4..4 + j] + b[4 + j..];
  }

  /** A message of a known shape can be read in one way only, and the fields determine the message. */
  lemma {:induction false} ReadsOneWay(a: Bytes, f: Fields, b: Bytes, g: Fields)
    requires Reads(a, f) && Reads(b, g) && SameShape(f, g)
    ensures a == b <==> f == g
    decreases f
  {
    hide BigEndian;
    match f
    case End =>
    case Octet(_, m) =>
      SameByte(a, b);
      ReadsOneWay(a[1..], m, b[1..], g.more);
    case Flag(_, m) =>
      SameByte(a, b);
      ReadsOneWay(a[1..], m, b[1..], g.more);
    case Number(_, m) =>
      SameWord(a, b);
      ReadsOneWay(a[4..], m, b[4..], g.more);
    case Text(_, m) =>
      SameText(a, b);
      ReadsOneWay(a[4 + BigEndian(a)..], m, b[4 + BigEndian(b)..], g.more);
  }

  // ---- what the writers of `Wire` write ----------------------------------------------------------------

  lemma NumberReads(n: U32, rest: Bytes, more: Fields)
    requires Reads(rest, more)
    ensures Reads(U32Be(n) + rest, Number(n, more))
  {
    assert (U32Be(n) + rest)[4..] == rest;
  }

  lemma OctetReads(byte: Byte, rest: Bytes, more: Fields)
    requires Reads(rest, more)
    ensures Reads([byte] + rest, Octet(byte, more))
  {
    assert ([byte] + rest)[1..] == rest;
  }

  lemma FlagReads(on: bool, rest: Bytes, more: Fields)
    requires Reads(rest, more)
    ensures Reads(Bool(on) + rest, Flag(on, more))
  {
    assert (Bool(on) + rest)[1..] == rest;
  }

  lemma TextReads(text: Bytes, rest: Bytes, more: Fields)
    requires Reads(rest, more) && |text| < U32_LIMIT
    ensures Reads(Str(text) + rest, Text(text, more))
  {
    var b := Str(text) + rest;
    assert b == U32Be(|text|) + (text + rest);
    assert b[4..4 + |text|] == text && b[4 + |text|..] == rest;
  }

  /** The last field. */
  lemma LastReads(n: U32, on: bool, text: Bytes)
    ensures Reads(U32Be(n), Number(n, End)) && Reads(Bool(on), Flag(on, End))
    ensures |text| < U32_LIMIT ==> Reads(Str(text), Text(text, End))
  {
    assert U32Be(n) + [] == U32Be(n) && Bool(on) + [] == Bool(on) && Str(text) + [] == Str(text);
    NumberReads(n, [], End);
    FlagReads(on, [], End);
    if |text| < U32_LIMIT { TextReads(text, [], End); }
  }

  // ---- what the readers of `Wire` read -----------------------------------------------------------------

  lemma OctetRead(b: Bytes, byte: Byte, more: Fields)
    requires Reads(b, Octet(byte, more))
    ensures |b| > 0 && b[0] == byte && GetU8(b) == Ok((byte, b[1..])) && Reads(b[1..], more)
  {
  }

  lemma NumberRead(b: Bytes, n: U32, more: Fields)
    requires Reads(b, Number(n, more))
    ensures |b| >= 4 && GetU32(b) == Ok((n, b[4..])) && Reads(b[4..], more)
  {
  }

  lemma FlagRead(b: Bytes, on: bool, more: Fields)
    requires Reads(b, Flag(on, more))
    ensures |b| > 0 && GetBool(b) == Ok((on, b[1..])) && Reads(b[1..], more)
  {
  }

  lemma TextRead(b: Bytes, text: Bytes, more: Fields) returns (rest: Bytes)
    requires Reads(b, Text(text, more))
    ensures GetString(b) == Ok((text, rest)) && Reads(rest, more)
    ensures Utf8.Valid(text) ==> GetUtf8(b) == Ok((text, rest))
    ensures !Utf8.Valid(text) ==> GetUtf8(b) == Err(Framing)
  {
    var n := BigEndian(b);
    rest := b[4 + n..];
    assert GetU32(b) == Ok((n, b[4..]));
    assert b[4..][..n] == b[4..4 + n] && b[4..][n..] == rest;
  }
}
