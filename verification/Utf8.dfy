/** Well-formedness of UTF-8 (section 4 of RFC 3629), as Rust's `str::from_utf8` checks it. */
module Utf8 {
  import opened Prelude

  predicate Tail(b: Bytes, i: nat) { i < |b| && 0x80 <= b[i] <= 0xBF }

  /** Length of the well-formed sequence at the front of `b`, or 0 when there is none. */
  function SequenceLength(b: Bytes): (n: nat)
    requires |b| > 0
    ensures n <= |b|
  {
    var h := b[0];
    if h < 0x80 then 1
    else if 0xC2 <= h <= 0xDF && Tail(b, 1) then 2
    else if 0xE0 <= h <= 0xEF && Tail(b, 1) && Tail(b, 2)
            && (h == 0xE0 ==> b[1] >= 0xA0) && (h == 0xED ==> b[1] <= 0x9F) then 3
    else if 0xF0 <= h <= 0xF4 && Tail(b, 1) && Tail(b, 2) && Tail(b, 3)
            && (h == 0xF0 ==> b[1] >= 0x90) && (h == 0xF4 ==> b[1] <= 0x8F) then 4
    else 0
  }

  predicate Valid(b: Bytes) {
    b == [] || (var n := SequenceLength(b); n > 0 && Valid(b[n..]))
  }

  lemma {:induction false} AsciiIsValid(b: Bytes)
    requires forall i :: 0 <= i < |b| ==> b[i] < 0x80
    ensures Valid(b)
  {
    if b != [] {
      AsciiIsValid(b[1..]);
    }
  }

  lemma LengthIgnoresMore(a: Bytes, b: Bytes)
    requires a != [] && SequenceLength(a) > 0
    ensures SequenceLength(a + b) == SequenceLength(a)
  {
  }

  lemma {:induction false} ConcatIsValid(a: Bytes, b: Bytes)
    requires Valid(a) && Valid(b)
    ensures Valid(a + b)
  {
    if a == [] {
      assert a + b == b;
    } else {
      var n := SequenceLength(a);
      LengthIgnoresMore(a, b);
      hide SequenceLength;
      assert (a + b)[n..] == a[n..] + b;
      ConcatIsValid(a[n..], b);
    }
  }

  // ---- what that means -----------------------------------------------------------------------------------

  /** The table of section 3 of RFC 3629. */
  function Encoding(c: Scalar): (b: Bytes)
    ensures 1 <= |b| <= 4
  {
    if c < 0x80 then [c]
    else if c < 0x800 then [0xC0 + c / 0x40, 0x80 + c % 0x40]
    else if c < 0x1_0000 then [0xE0 + c / 0x1000, 0x80 + c / 0x40 % 0x40, 0x80 + c % 0x40]
    else [0xF0 + c / 0x4_0000, 0x80 + c / 0x1000 % 0x40, 0x80 + c / 0x40 % 0x40, 0x80 + c % 0x40]
  }

  function EncodeAll(s: seq<Scalar>): Bytes { if s == [] then [] else Encoding(s[0]) + EncodeAll(s[1..]) }

  /** Six more bits. */
  function More(high: int, b: Bytes, i: nat): int
    requires Tail(b, i)
  {
    high * 0x40 + (b[i] as int - 0x80)
  }

  /** The character at the front. */
  function FirstScalar(b: Bytes): int
    requires |b| > 0 && SequenceLength(b) > 0
  {
    var n, h := SequenceLength(b), b[0] as int;
    if n == 1 then h
    else if n == 2 then More(h - 0xC0, b, 1)
    else if n == 3 then More(More(h - 0xE0, b, 1), b, 2)
    else More(More(More(h - 0xF0, b, 1), b, 2), b, 3)
  }

  lemma MoreDivides(high: nat, b: Bytes, i: nat)
    requires Tail(b, i)
    ensures More(high, b, i) / 0x40 == high && 0x80 + More(high, b, i) % 0x40 == b[i]
  {
  }

  lemma EncodingIsFound(c: Scalar, rest: Bytes)
    ensures SequenceLength(Encoding(c) + rest) == |Encoding(c)|
  {
  }

  lemma TwoBytes(b: Bytes)
    requires |b| > 0 && SequenceLength(b) == 2
    ensures var c := FirstScalar(b); 0x80 <= c < 0x800 && Encoding(c) == b[..2]
  {
    MoreDivides(b[0] - 0xC0, b, 1);
  }

  lemma ThreeBytes(b: Bytes)
    requires |b| > 0 && SequenceLength(b) == 3
    ensures var c := FirstScalar(b); 0x800 <= c < 0x1_0000 && !(0xD800 <= c < 0xE000) && Encoding(c) == b[..3]
  {
    hide More;
    var h := b[0] - 0xE0;
    MoreRange(h, b, 1);
    MoreDivides(h, b, 1);
    MoreRange(More(h, b, 1), b, 2);
    MoreDivides(More(h, b, 1), b, 2);
  }

  lemma FourBytes(b: Bytes)
    requires |b| > 0 && SequenceLength(b) == 4
    ensures var c := FirstScalar(b); 0x1_0000 <= c < 0x11_0000 && Encoding(c) == b[..4]
  {
    hide More;
    var h := b[0] - 0xF0;
    var two := More(h, b, 1);
    var three := More(two, b, 2);
    MoreRange(h, b, 1);
    MoreDivides(h, b, 1);
    MoreRange(two, b, 2);
    MoreDivides(two, b, 2);
    MoreRange(three, b, 3);
    MoreDivides(three, b, 3);
  }

  lemma MoreRange(high: int, b: Bytes, i: nat)
    requires Tail(b, i)
    ensures More(high, b, i) == high * 0x40 + (b[i] as int - 0x80)
  {
  }

  lemma FirstIsScalar(b: Bytes)
    requires |b| > 0 && SequenceLength(b) > 0
    ensures var c := FirstScalar(b); 0 <= c < 0x11_0000 && !(0xD800 <= c < 0xE000)
    ensures Encoding(FirstScalar(b)) == b[..SequenceLength(b)]
  {
    var n := SequenceLength(b);
    if n == 2 {
      hide Encoding, FirstScalar;
      TwoBytes(b);
    } else if n == 3 {
      hide Encoding, FirstScalar;
      ThreeBytes(b);
    } else if n == 4 {
      hide Encoding, FirstScalar;
      FourBytes(b);
    }
  }

  /** Well-formed is exactly: the encoding of some characters. */
  lemma {:induction false} ValidIsEncoded(b: Bytes)
    ensures Valid(b) <==> exists s: seq<Scalar> :: EncodeAll(s) == b
    decreases |b|
  {
    hide Encoding, SequenceLength, FirstScalar;
    if Valid(b) {
      var _ := Characters(b);
    }
    forall s: seq<Scalar> | EncodeAll(s) == b ensures Valid(b) { EncodedIsValid(s); }
  }

  lemma {:induction false} EncodedIsValid(s: seq<Scalar>)
    ensures Valid(EncodeAll(s))
  {
    hide Encoding, SequenceLength;
    if s != [] {
      EncodingIsFound(s[0], EncodeAll(s[1..]));
      EncodedIsValid(s[1..]);
      assert EncodeAll(s)[|Encoding(s[0])|..] == EncodeAll(s[1..]);
    }
  }

  lemma {:induction false} Characters(b: Bytes) returns (s: seq<Scalar>)
    requires Valid(b)
    ensures EncodeAll(s) == b
    decreases |b|
  {
    hide Encoding, SequenceLength, FirstScalar;
    if b == [] {
      s := [];
    } else {
      var n := SequenceLength(b);
      FirstIsScalar(b);
      var rest := Characters(b[n..]);
      s := [FirstScalar(b)] + rest;
      assert s[1..] == rest;
      assert b == b[..n] + b[n..];
    }
  }
}
