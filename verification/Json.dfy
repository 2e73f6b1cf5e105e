/**
  The JSON text of wasm-ssh-bindgen/src/lib.rs, as its reader sees it: strings by the grammar of
  section 7 of RFC 8259, decoded into UTF-16 code units the way `JSON.parse` builds a JavaScript
  string; and the pairing of `poll_event` with `take_event_data`.
 */
module Json {
  import opened Prelude
  import opened Events

  type Text = seq<Scalar>

  /** A UTF-16 code unit. */
  type Unit = x: int | 0 <= x < 0x1_0000

  const QUOTE: Scalar := 0x22
  const BACKSLASH: Scalar := 0x5C

  // ---- UTF-16 ------------------------------------------------------------------------------------

  function Units(c: Scalar): (u: seq<Unit>)
    ensures 1 <= |u| <= 2
  {
    if c < 0x1_0000 then [c] else [0xD800 + (c - 0x1_0000) / 0x400, 0xDC00 + (c - 0x1_0000) % 0x400]
  }

  function Utf16(s: Text): seq<Unit> { if s == [] then [] else Units(s[0]) + Utf16(s[1..]) }

  lemma UnitsUnique(a: Scalar, restA: seq<Unit>, b: Scalar, restB: seq<Unit>)
    requires Units(a) + restA == Units(b) + restB
    ensures a == b && restA == restB
  {
    var x, y := Units(a) + restA, Units(b) + restB;
    assert x[0] == Units(a)[0] && y[0] == Units(b)[0];
    assert |Units(a)| == |Units(b)|;
    assert |Units(a)| == 2 ==> x[1] == Units(a)[1] && y[1] == Units(b)[1];
    assert x[|Units(a)|..] == restA && y[|Units(b)|..] == restB;
  }

  /** A JavaScript string determines the Rust string it came from. */
  lemma {:induction false} Utf16Unique(s: Text, t: Text)
    requires Utf16(s) == Utf16(t)
    ensures s == t
  {
    if s != [] && t != [] {
      UnitsUnique(s[0], Utf16(s[1..]), t[0], Utf16(t[1..]));
      Utf16Unique(s[1..], t[1..]);
    }
  }

  // ---- printing ----------------------------------------------------------------------------------

  /** One lower-case hexadecimal digit. */
  function HexDigit(n: int): Scalar
    requires 0 <= n < 16
  {
    if n < 10 then 0x30 + n else 0x61 + (n - 10)
  }

  /** What `json_str` pushes for one character. */
  function Escape(c: Scalar): Text {
    if c == QUOTE then [BACKSLASH, QUOTE]
    else if c == BACKSLASH then [BACKSLASH, BACKSLASH]
    else if c == 0x0A then [BACKSLASH, 0x6E]
    else if c == 0x0D then [BACKSLASH, 0x72]
    else if c == 0x09 then [BACKSLASH, 0x74]
    else if c < 0x20 then [BACKSLASH, 0x75, 0x30, 0x30, HexDigit(c / 16), HexDigit(c % 16)]
    else [c]
  }

  function Escapes(s: Text): Text { if s == [] then [] else Escape(s[0]) + Escapes(s[1..]) }

  function JsonStr(s: Text): Text { [QUOTE] + Escapes(s) + [QUOTE] }

  /** The code. */
  method PrintString(s: Text) returns (out: Text)
    ensures out == JsonStr(s)
  {
    hide Escape;
    out := [QUOTE];
    var i := 0;
    assert s[0..] == s;
    assert [QUOTE] + Escapes(s) == out + Escapes(s[0..]);
    while i < |s|
      invariant i <= |s|
      invariant [QUOTE] + Escapes(s) == out + Escapes(s[i..])
    {
      assert s[i..][1..] == s[i + 1..];
      assert out + Escapes(s[i..]) == (out + Escape(s[i])) + Escapes(s[i + 1..]);
      out := out + Escape(s[i]);
      i := i + 1;
    }
    out := out + [QUOTE];
  }

  // ---- reading -----------------------------------------------------------------------------------

  function HexValue(c: Scalar): Option<int> {
    if 0x30 <= c <= 0x39 then Some(c - 0x30)
    else if 0x41 <= c <= 0x46 then Some(c - 0x41 + 10)
    else if 0x61 <= c <= 0x66 then Some(c - 0x61 + 10)
    else None
  }

  lemma HexReads(n: int)
    requires 0 <= n < 16
    ensures HexValue(HexDigit(n)) == Some(n)
  {
  }

  /** Four hexadecimal digits of either case. */
  function FourHex(b: Text): Option<Unit>
    requires |b| >= 4
  {
    match (HexValue(b[0]), HexValue(b[1]), HexValue(b[2]), HexValue(b[3]))
    case (Some(w), Some(x), Some(y), Some(z)) => HexUnit(w, x, y, z)
    case _ => None
  }

  function HexUnit(w: int, x: int, y: int, z: int): Option<Unit> {
    var n := ((w * 16 + x) * 16 + y) * 16 + z;
    if 0 <= n < 0x1_0000 then Some(n) else None
  }

  /** The single-character escapes. */
  function Short(c: Scalar): Option<Unit> {
    if c == QUOTE || c == BACKSLASH || c == 0x2F then Some(c)
    else if c == 0x62 then Some(0x08)
    else if c == 0x66 then Some(0x0C)
    else if c == 0x6E then Some(0x0A)
    else if c == 0x72 then Some(0x0D)
    else if c == 0x74 then Some(0x09)
    else None
  }

  /** The next `char` of a string body: its code units and what follows. */
  function ReadChar(b: Text): (r: Option<(seq<Unit>, Text)>)
    requires b != []
    ensures r.Some? ==> |r.value.1| < |b|
  {
    if b[0] < 0x20 || b[0] == QUOTE then None
    else if b[0] != BACKSLASH then Some((Units(b[0]), b[1..]))
    else if |b| < 2 then None
    else if b[1] == 0x75 then
      if |b| < 6 then None
      else match FourHex(b[2..6]) case None => None case Some(u) => Some(([u], b[6..]))
    else match Short(b[1]) case None => None case Some(u) => Some(([u], b[2..]))
  }

  /** A string body up to and including its closing quote. */
  function ReadBody(b: Text): Option<(seq<Unit>, Text)>
    decreases |b|
  {
    if b == [] then None
    else if b[0] == QUOTE then Some(([], b[1..]))
    else
      var (units, rest) :- ReadChar(b);
      var (more, after) :- ReadBody(rest);
      Some((units + more, after))
  }

  function ReadString(b: Text): Option<(seq<Unit>, Text)> {
    if b == [] || b[0] != QUOTE then None else ReadBody(b[1..])
  }

  lemma EscapeReads(c: Scalar, rest: Text)
    ensures Escape(c) != [] && Escape(c)[0] != QUOTE
    ensures ReadChar(Escape(c) + rest) == Some((Units(c), rest))
  {
    var b := Escape(c) + rest;
    if c < 0x20 && c != 0x0A && c != 0x0D && c != 0x09 {
      HexReads(c / 16);
      HexReads(c % 16);
      assert b[2..6] == [0x30, 0x30, HexDigit(c / 16), HexDigit(c % 16)];
      assert b[6..] == rest;
    } else if |Escape(c)| == 2 {
      assert b[2..] == rest;
    } else {
      assert b[1..] == rest;
    }
  }

  lemma {:induction false} BodyReads(s: Text, rest: Text)
    ensures ReadBody(Escapes(s) + ([QUOTE] + rest)) == Some((Utf16(s), rest))
    decreases |s|
  {
    hide Escape, Units, ReadChar;
    var tail := [QUOTE] + rest;
    if s == [] {
      assert Escapes(s) + tail == tail && tail[1..] == rest;
    } else {
      EscapeReads(s[0], Escapes(s[1..]) + tail);
      assert Escapes(s) + tail == Escape(s[0]) + (Escapes(s[1..]) + tail);
      BodyReads(s[1..], rest);
    }
  }

  /** Printer and parser: for every string, with anything behind it, reading what `json_str` printed
      consumes exactly that and gives back the string. */
  lemma StringRoundTrip(s: Text, rest: Text)
    ensures ReadString(JsonStr(s) + rest) == Some((Utf16(s), rest))
  {
    hide Escapes, Utf16, ReadBody;
    BodyReads(s, rest);
    assert (JsonStr(s) + rest)[1..] == Escapes(s) + ([QUOTE] + rest);
  }

  // ---- arrays of strings -------------------------------------------------------------------------

  const COMMA: Scalar := 0x2C
  const OPEN: Scalar := 0x5B
  const SHUT: Scalar := 0x5D

  /** `remaining_methods.iter().map(json_str).collect().join(",")`. */
  function Joined(names: seq<Text>): Text {
    if names == [] then []
    else if |names| == 1 then JsonStr(names[0])
    else JsonStr(names[0]) + ([COMMA] + Joined(names[1..]))
  }

  /** The emitted `remainingMethods` array. */
  function JsonArray(names: seq<Text>): Text { [OPEN] + Joined(names) + [SHUT] }

  /** One string and then either the end of the array or a comma and more. */
  function ReadItems(b: Text): Option<(seq<seq<Unit>>, Text)>
    decreases |b|
  {
    var (first, rest) :- ReadString(b);
    if rest == [] || |rest| >= |b| then None
    else if rest[0] == SHUT then Some(([first], rest[1..]))
    else if rest[0] != COMMA then None
    else
      var (more, after) :- ReadItems(rest[1..]);
      Some(([first] + more, after))
  }

  function ReadArray(b: Text): Option<(seq<seq<Unit>>, Text)> {
    if |b| < 2 || b[0] != OPEN then None
    else if b[1] == SHUT then Some(([], b[2..]))
    else ReadItems(b[1..])
  }

  function AllUtf16(names: seq<Text>): seq<seq<Unit>>
    decreases |names|
  {
    if names == [] then [] else [Utf16(names[0])] + AllUtf16(names[1..])
  }

  lemma {:induction false} ItemsRead(names: seq<Text>, rest: Text)
    requires names != []
    ensures ReadItems(Joined(names) + ([SHUT] + rest)) == Some((AllUtf16(names), rest))
    decreases |names|
  {
    hide JsonStr, ReadString, Utf16;
    var tail := [SHUT] + rest;
    assert tail[1..] == rest;
    if |names| == 1 {
      StringRoundTrip(names[0], tail);
      JsonStrSize(names[0]);
      assert names[1..] == [];
      assert AllUtf16(names) == [Utf16(names[0])] + AllUtf16(names[1..]) == [Utf16(names[0])];
    } else {
      var more := [COMMA] + (Joined(names[1..]) + tail);
      JsonStrSize(names[0]);
      assert Joined(names) + tail == JsonStr(names[0]) + more;
      assert more[1..] == Joined(names[1..]) + tail;
      StringRoundTrip(names[0], more);
      ItemsRead(names[1..], rest);
    }
  }

  lemma JsonStrSize(s: Text)
    ensures |JsonStr(s)| >= 2 && JsonStr(s)[0] == QUOTE
  {
  }

  /** The emitted array decodes to the original list, whatever quotes, commas, brackets or control
      characters its names hold. */
  lemma ArrayRoundTrip(names: seq<Text>, rest: Text)
    ensures ReadArray(JsonArray(names) + rest) == Some((AllUtf16(names), rest))
  {
    hide JsonStr, ReadString, ReadItems, Utf16;
    var all := JsonArray(names) + rest;
    if names == [] {
      assert all[2..] == rest;
    } else {
      assert all[1..] == Joined(names) + ([SHUT] + rest);
      JsonStrSize(names[0]);
      assert all[1] == Joined(names)[0] == QUOTE;
      ItemsRead(names, rest);
    }
  }

  /** And that list determines the names. */
  lemma {:induction false} AllUtf16Unique(a: seq<Text>, b: seq<Text>)
    requires AllUtf16(a) == AllUtf16(b)
    ensures a == b
    decreases |a|
  {
    hide Utf16;
    if a != [] && b != [] {
      assert AllUtf16(a)[0] == Utf16(a[0]) && AllUtf16(b)[0] == Utf16(b[0]);
      assert AllUtf16(a)[1..] == AllUtf16(a[1..]) && AllUtf16(b)[1..] == AllUtf16(b[1..]);
      Utf16Unique(a[0], b[0]);
      AllUtf16Unique(a[1..], b[1..]);
    }
  }

  // ---- events and their bulk data ------------------------------------------------------------------

  /** The bytes an event carries beside its JSON. */
  function Bulk(e: Event): Option<Bytes> {
    match e
    case HostKeyVerify(_, _, raw) => Some(raw)
    case ChannelData(_, _, data) => Some(data)
    case _ => None
  }

  /** `last_event_data` after an event has been encoded: an event without bulk data leaves it alone. */
  function Stashed(before: Bytes, e: Event): Bytes { if Bulk(e).Some? then Bulk(e).value else before }

  /** The bytes that belong to an event: the key that was shown, the data that arrived, or none. */
  predicate OwnBytes(e: Event, data: Bytes) {
    if e.HostKeyVerify? then data == e.rawBlob
    else if e.ChannelData? then data == e.data
    else data == []
  }

  /** `WasmSshSession`'s queue and its one-slot stash. */
  class Bridge {
    var queue: seq<Event>
    var lastEventData: Bytes

    constructor (events: seq<Event>)
      ensures queue == events && lastEventData == []
    {
      queue, lastEventData := events, [];
    }

    method PollEvent() returns (e: Option<Event>)
      modifies this
      ensures old(queue) == [] ==> e == None && queue == [] && lastEventData == old(lastEventData)
      ensures old(queue) != [] ==>
                && e == Some(old(queue)[0]) && queue == old(queue)[1..]
                && lastEventData == Stashed(old(lastEventData), old(queue)[0])
    {
      if queue == [] {
        return None;
      }
      var event := queue[0];
      queue := queue[1..];
      match event
      case HostKeyVerify(_, _, raw) =>
        lastEventData := raw;
        e := Some(event);
      case ChannelData(_, _, data) =>
        lastEventData := data;
        e := Some(event);
      case _ =>
        e := Some(event);
    }

    method TakeEventData() returns (data: Bytes)
      modifies this`lastEventData
      ensures data == old(lastEventData) && lastEventData == []
    {
      data := lastEventData;
      lastEventData := [];
    }

    /** The reader's loop: poll, and take at once when the JSON announces data. Every event is seen
        once, in order, with exactly its own bytes. */
    method Pump() returns (seen: seq<(Event, Bytes)>)
      requires lastEventData == []
      modifies this
      ensures queue == [] && lastEventData == []
      ensures |seen| == |old(queue)|
      ensures forall i :: 0 <= i < |seen| ==> seen[i].0 == old(queue)[i] && OwnBytes(seen[i].0, seen[i].1)
    {
      seen := [];
      ghost var all := queue;
      while queue != []
        invariant lastEventData == [] && |seen| <= |all| && queue == all[|seen|..]
        invariant forall i :: 0 <= i < |seen| ==> seen[i].0 == all[i] && OwnBytes(seen[i].0, seen[i].1)
        decreases |queue|
      {
        var e := PollEvent();
        var data: Bytes := [];
        if Bulk(e.value).Some? {
          data := TakeEventData();
        }
        seen := seen + [(e.value, data)];
      }
    }
  }
}
