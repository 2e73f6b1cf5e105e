/** Types shared by every layer: machine integers, byte strings, results and error kinds. */
module Prelude {

  type Byte = x: int | 0 <= x < 0x100
  type U32 = x: int | 0 <= x < 0x1_0000_0000
  type Bytes = seq<Byte>

  /** A Unicode scalar value, Rust's `char`. */
  type Scalar = x: int | 0 <= x < 0x11_0000 && !(0xD800 <= x < 0xE000)

  const U32_LIMIT := 0x1_0000_0000
  const U32_MAX: U32 := 0xFFFF_FFFF

  /** The kinds of fatal error (ssh-core/src/error.rs); message texts are not modelled. */
  datatype SshError =
    | Framing
    | Mac
    | Negotiation
    | HostKeySignatureInvalid
    | HostKeyRejected
    | UnexpectedMessage(msgType: Byte)
    | ChannelError
    | TransportClosed
    | Encoding
    | KeyError
    | SigningFailed
    | UnsupportedAuthMethod

  datatype Option<+T> = None | Some(value: T) {
    predicate IsFailure() { None? }

    function PropagateFailure<U>(): Option<U>
      requires None?
    {
      None
    }

    function Extract(): T
      requires Some?
    {
      value
    }
  }

  datatype Result<+T> = Ok(value: T) | Err(error: SshError) {
    predicate IsFailure() { Err? }

    function PropagateFailure<U>(): Result<U>
      requires Err?
    {
      Err(error)
    }

    function Extract(): T
      requires Ok?
    {
      value
    }
  }

  function Min(a: int, b: int): int { if a <= b then a else b }
  function Max(a: int, b: int): int { if a >= b then a else b }

  function Flatten(parts: seq<Bytes>): Bytes {
    if parts == [] then [] else parts[0] + Flatten(parts[1..])
  }

  lemma {:induction false} FlattenAppend(xs: seq<Bytes>, ys: seq<Bytes>)
    ensures Flatten(xs + ys) == Flatten(xs) + Flatten(ys)
  {
    if xs == [] {
      assert xs + ys == ys;
    } else {
      assert (xs + ys)[1..] == xs[1..] + ys;
      FlattenAppend(xs[1..], ys);
    }
  }

  /** The bytes of an ASCII literal. */
  function Ascii(s: string): (b: Bytes)
    requires forall i :: 0 <= i < |s| ==> s[i] as int < 0x80
    ensures |b| == |s|
    ensures forall i :: 0 <= i < |s| ==> b[i] == s[i] as int
  {
    seq(|s|, i requires 0 <= i < |s| => s[i] as int)
  }
}
