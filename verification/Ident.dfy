/** The version exchange of ssh-core/src/ident.rs (section 4.2 of RFC 4253). */
module Ident {
  import opened Prelude
  import Utf8

  const MAX_SCAN_BYTES := 64 * 1024
  const LF: Byte := 0x0A
  const CR: Byte := 0x0D
  const DASH: Byte := 0x2D

  const CLIENT_IDENT := Ascii("SSH-2.0-wasmssh_0.1.0")
  const CLIENT_IDENT_LINE := CLIENT_IDENT + [CR, LF]

  const SSH_PREFIX := Ascii("SSH-")

  function StripCr(line: Bytes): Bytes {
    if |line| > 0 && line[|line| - 1] == CR then line[..|line| - 1] else line
  }

  predicate IsSshLine(line: Bytes) { |line| >= 4 && line[..4] == SSH_PREFIX }

  /** Everything before the first '-', or all of it. */
  function UpToDash(b: Bytes): Bytes {
    if b == [] || b[0] == DASH then [] else [b[0]] + UpToDash(b[1..])
  }

  /** `validate_version`: protocol 2.0, or the 1.99 compatibility marker. */
  predicate VersionOk(line: Bytes) {
    Utf8.Valid(line)
    && var rest := if IsSshLine(line) then line[4..] else line;
       UpToDash(rest) == Ascii("2.0") || UpToDash(rest) == Ascii("1.99")
  }

  // ---- the scanner -----------------------------------------------------------------------------

  /** `scan_buf`, `total_scanned` and `server_ident`. */
  datatype Scanner = Scanner(line: Bytes, total: nat, server: Option<Bytes>)

  const FRESH := Scanner([], 0, None)

  datatype Verdict =
    | More(s: Scanner)             // every byte was consumed, no identification line yet
    | Done(n: nat, s: Scanner)     // identified after consuming n bytes
    | Bad(s: Scanner)              // over the size limit, or an unsupported version

  function ScanByte(s: Scanner, b: Byte): Verdict {
    var counted := s.(total := s.total + 1);
    if counted.total > MAX_SCAN_BYTES then Bad(counted)
    else if b != LF then More(counted.(line := s.line + [b]))
    else
      var line := StripCr(s.line);
      var cleared := counted.(line := []);
      if !IsSshLine(line) then More(cleared)
      else if VersionOk(line) then Done(1, cleared.(server := Some(line)))
      else Bad(cleared)
  }

  function Scan(s: Scanner, data: Bytes): (v: Verdict)
    ensures v.Done? ==> 0 < v.n <= |data| && v.s.server.Some?
    ensures v.More? ==> v.s.server == s.server
    decreases |data|
  {
    if data == [] then More(s)
    else
      match ScanByte(s, data[0])
      case More(s') =>
        (match Scan(s', data[1..])
         case More(s'') => More(s'')
         case Done(n, s'') => Done(n + 1, s'')
         case Bad(s'') => Bad(s''))
      case Done(n, s') => Done(1, s')
      case Bad(s') => Bad(s')
  }

  /** Scanning x and then y is scanning x + y. */
  lemma {:induction false} ScanSplit(s: Scanner, x: Bytes, y: Bytes)
    ensures match Scan(s, x)
            case More(s') =>
              (match Scan(s', y)
               case More(s'') => Scan(s, x + y) == More(s'')
               case Done(n, s'') => Scan(s, x + y) == Done(|x| + n, s'')
               case Bad(s'') => Scan(s, x + y) == Bad(s''))
            case decided => Scan(s, x + y) == decided
    decreases |x|
  {
    hide ScanByte;
    if x == [] {
      assert x + y == y;
    } else {
      assert (x + y)[0] == x[0] && (x + y)[1..] == x[1..] + y;
      match ScanByte(s, x[0])
      case More(s') => ScanSplit(s', x[1..], y);
      case _ =>
    }
  }

  // ---- the declarative specification -------------------------------------------------------------

  /** 64 KiB. */
  const LIMIT := 0x1_0000

  /** `version`, and then nothing or a dash. */
  predicate Begins(line: Bytes, version: Bytes) {
    version <= line && (|line| == |version| || line[|version|] == '-' as int)
  }

  /** An identification line of protocol 2.0, or of the 1.99 that stands for it (sections 4.2 and 5.1 of RFC 4253). */
  predicate Supported(line: Bytes) {
    Utf8.Valid(line) && (Begins(line, Ascii("SSH-2.0")) || Begins(line, Ascii("SSH-1.99")))
  }

  lemma {:induction false} UpToDashIs(b: Bytes, version: Bytes)
    requires DASH !in version
    ensures UpToDash(b) == version <==> Begins(b, version)
    decreases |b|
  {
    if b != [] && version != [] && b[0] == version[0] {
      assert b == [b[0]] + b[1..] && version == [version[0]] + version[1..];
      UpToDashIs(b[1..], version[1..]);
    }
  }

  lemma VersionIsSupported(line: Bytes)
    requires IsSshLine(line)
    ensures VersionOk(line) <==> Supported(line)
  {
    hide UpToDash, Utf8.Valid;
    var rest := line[4..];
    UpToDashIs(rest, Ascii("2.0"));
    UpToDashIs(rest, Ascii("1.99"));
    assert Ascii("SSH-2.0") == SSH_PREFIX + Ascii("2.0") && Ascii("SSH-1.99") == SSH_PREFIX + Ascii("1.99");
    assert line == line[..4] + rest;
  }

  /** `data[start..end]` is a newline-terminated line: it starts the data or follows a newline, and
      holds no newline but its last byte. */
  predicate LineAt(data: Bytes, start: nat, end: nat) {
    && start < end <= |data|
    && data[end - 1] == LF
    && LF !in data[start..end - 1]
    && (start == 0 || data[start - 1] == LF)
  }

  predicate SshLineAt(data: Bytes, start: nat, end: nat) {
    LineAt(data, start, end) && IsSshLine(StripCr(data[start..end - 1]))
  }

  /** The first line that starts with `SSH-`. */
  ghost predicate FirstSshLine(data: Bytes, start: nat, end: nat) {
    && SshLineAt(data, start, end)
    && forall s: nat, e: nat | e < end :: !SshLineAt(data, s, e)
  }

  ghost predicate NoSshLineWithin(data: Bytes, limit: nat) {
    forall s: nat, e: nat | e <= limit :: !SshLineAt(data, s, e)
  }

  /** The first `SSH-` line ends at `n`, within the limit, and names a supported version; `s` holds
      it without its line ending. */
  ghost predicate Accepts(data: Bytes, n: nat, s: Scanner)
  {
    exists start: nat ::
      && FirstSshLine(data, start, n)
      && n <= LIMIT
      && Supported(StripCr(data[start..n - 1]))
      && s == Scanner([], n, Some(StripCr(data[start..n - 1])))
  }

  /** Byte 65537 has arrived without an `SSH-` line, or that line names an unsupported version. */
  ghost predicate Rejects(data: Bytes) {
    || (|data| > LIMIT && NoSshLineWithin(data, LIMIT))
    || (exists start: nat, end: nat ::
          && FirstSshLine(data, start, end)
          && end <= LIMIT
          && !Supported(StripCr(data[start..end - 1])))
  }

  /** A scanner that has consumed `seen` without finding a line. */
  ghost predicate Scanned(s: Scanner, seen: Bytes) {
    && s.server.None?
    && s.total == |seen| <= LIMIT
    && NoSshLineWithin(seen, |seen|)
    && |s.line| <= |seen|
    && s.line == seen[|seen| - |s.line|..]
    && LF !in s.line
    && (|s.line| == |seen| || seen[|seen| - |s.line| - 1] == LF)
  }

  lemma LineIsOfPrefix(data: Bytes, n: nat, s: nat, e: nat)
    requires e <= n <= |data|
    ensures SshLineAt(data[..n], s, e) == SshLineAt(data, s, e)
  {
    if s < e {
      assert data[..n][s..e - 1] == data[s..e - 1];
    }
  }

  /** A line ending at a newline just read is the pending line, whatever its start was said to be. */
  lemma LineEndingHere(seen: Bytes, line: Bytes, s: nat)
    requires |line| <= |seen| && line == seen[|seen| - |line|..] && LF !in line
    requires |line| == |seen| || seen[|seen| - |line| - 1] == LF
    requires LineAt(seen + [LF], s, |seen| + 1)
    ensures s == |seen| - |line|
  {
    var all := seen + [LF];
    assert all[s..|seen|] == seen[s..];
    assert forall i :: s <= i < |seen| ==> seen[i] == seen[s..][i - s];
    assert forall i :: 0 <= i < |line| ==> seen[|seen| - |line| + i] == line[i];
  }

  lemma OldLinesStay(seen: Bytes, b: Byte)
    requires NoSshLineWithin(seen, |seen|)
    ensures NoSshLineWithin(seen + [b], |seen|)
  {
    hide SshLineAt;
    var all := seen + [b];
    assert all[..|seen|] == seen;
    forall p: nat, e: nat | e <= |seen| ensures !SshLineAt(all, p, e) { LineIsOfPrefix(all, |seen|, p, e); }
  }

  lemma NoneBefore(data: Bytes, start: nat, end: nat)
    requires end > 0 && NoSshLineWithin(data, end - 1)
    ensures FirstSshLine(data, start, end) <==> SshLineAt(data, start, end)
    ensures (forall p: nat :: !SshLineAt(data, p, end)) ==> NoSshLineWithin(data, end)
  {
    hide SshLineAt;
  }

  /** A newline ends the pending line. */
  lemma PendingLineEnds(s: Scanner, seen: Bytes)
    requires Scanned(s, seen)
    ensures var all := seen + [LF]; var start := |seen| - |s.line|;
            && s.line == all[start..|all| - 1]
            && (FirstSshLine(all, start, |all|) <==> IsSshLine(StripCr(s.line)))
            && (!IsSshLine(StripCr(s.line)) ==> NoSshLineWithin(all, |all|))
  {
    hide IsSshLine, StripCr, NoSshLineWithin, FirstSshLine;
    var all := seen + [LF];
    var start := |seen| - |s.line|;
    OldLinesStay(seen, LF);
    NoneBefore(all, start, |all|);
    assert all[start..|seen|] == s.line;
    forall p: nat | SshLineAt(all, p, |all|) ensures p == start { LineEndingHere(seen, s.line, p); }
  }

  /** Any other byte prolongs it. */
  lemma PendingLineGrows(s: Scanner, seen: Bytes, b: Byte)
    requires Scanned(s, seen) && b != LF && |seen| < LIMIT
    ensures Scanned(s.(total := s.total + 1, line := s.line + [b]), seen + [b])
  {
    hide IsSshLine, StripCr, NoSshLineWithin;
    var all := seen + [b];
    OldLinesStay(seen, b);
    NoneBefore(all, 0, |all|);
    assert all[|seen| - |s.line|..] == s.line + [b];
  }

  lemma ScanByteExact(s: Scanner, seen: Bytes, b: Byte)
    requires Scanned(s, seen)
    ensures var all := seen + [b]; var start := |seen| - |s.line|;
            match ScanByte(s, b)
            case More(s') => Scanned(s', all)
            case Done(n, s') => |all| <= LIMIT && FirstSshLine(all, start, |all|)
                                && VersionOk(StripCr(s.line)) && s.line == all[start..|all| - 1]
                                && s' == Scanner([], |all|, Some(StripCr(s.line)))
            case Bad(_) => |all| > LIMIT
                           || (FirstSshLine(all, start, |all|) && !VersionOk(StripCr(s.line))
                               && s.line == all[start..|all| - 1])
  {
    hide IsSshLine, VersionOk, Supported, StripCr, FirstSshLine, NoSshLineWithin;
    if |seen| < LIMIT {
      if b == LF {
        PendingLineEnds(s, seen);
      } else {
        PendingLineGrows(s, seen, b);
      }
    }
  }

  lemma FirstOfPrefix(data: Bytes, n: nat, start: nat, end: nat)
    requires end <= n <= |data| && FirstSshLine(data[..n], start, end)
    ensures FirstSshLine(data, start, end)
  {
    LineIsOfPrefix(data, n, start, end);
    forall s: nat, e: nat | e < end ensures !SshLineAt(data, s, e) {
      LineIsOfPrefix(data, n, s, e);
    }
  }

  lemma AcceptedHere(data: Bytes, n: nat, start: nat)
    requires start < n <= |data| && n <= LIMIT && FirstSshLine(data[..n], start, n) && VersionOk(StripCr(data[start..n - 1]))
    ensures Accepts(data, n, Scanner([], n, Some(StripCr(data[start..n - 1]))))
  {
    hide FirstSshLine, VersionOk, Supported, IsSshLine, StripCr;
    FirstOfPrefix(data, n, start, n);
    FirstIsSsh(data, start, n);
    VersionIsSupported(StripCr(data[start..n - 1]));
  }

  lemma RejectedHere(data: Bytes, n: nat, start: nat)
    requires start < n <= |data| && n <= LIMIT && FirstSshLine(data[..n], start, n) && !VersionOk(StripCr(data[start..n - 1]))
    ensures Rejects(data)
  {
    hide FirstSshLine, VersionOk, Supported, IsSshLine, StripCr, NoSshLineWithin;
    FirstOfPrefix(data, n, start, n);
    FirstIsSsh(data, start, n);
    VersionIsSupported(StripCr(data[start..n - 1]));
  }

  lemma FirstIsSsh(data: Bytes, start: nat, end: nat)
    requires FirstSshLine(data, start, end)
    ensures start < end <= |data| && IsSshLine(StripCr(data[start..end - 1]))
  {
    hide IsSshLine, StripCr;
  }

  lemma TooLong(data: Bytes, seen: Bytes)
    requires |data| > |seen| == LIMIT && data[..|seen|] == seen && NoSshLineWithin(seen, |seen|)
    ensures Rejects(data)
  {
    hide SshLineAt, FirstSshLine, Supported, StripCr;
    forall p: nat, e: nat | e <= LIMIT ensures !SshLineAt(data, p, e) { LineIsOfPrefix(data, LIMIT, p, e); }
  }

  /** The scanner refines the declarative reading of section 4.2 of RFC 4253, wherever it stands. */
  lemma {:induction false} ScanExact(s: Scanner, seen: Bytes, data: Bytes)
    requires Scanned(s, seen)
    ensures var all := seen + data;
            match Scan(s, data)
            case More(s') => Scanned(s', all)
            case Done(n, s') => |seen| + n <= |all| && Accepts(all, |seen| + n, s')
            case Bad(_) => Rejects(all)
    decreases |data|
  {
    hide VersionOk, Supported, StripCr, IsSshLine, ScanByte, FirstSshLine, NoSshLineWithin, Accepts, Rejects;
    var all := seen + data;
    if data == [] {
      assert all == seen;
    } else {
      var next := seen + [data[0]];
      var start := |seen| - |s.line|;
      ScanByteExact(s, seen, data[0]);
      assert next + data[1..] == all && all[..|next|] == next && all[..|seen|] == seen;
      assert all[start..|next| - 1] == next[start..|next| - 1];
      match ScanByte(s, data[0])
      case More(s') => ScanExact(s', next, data[1..]);
      case Done(_, _) => AcceptedHere(all, |next|, start);
      case Bad(_) => if |next| > LIMIT { TooLong(all, seen); } else { RejectedHere(all, |next|, start); }
    }
  }

  /** There is only one first line. */
  lemma FirstIsUnique(data: Bytes, s1: nat, e1: nat, s2: nat, e2: nat)
    requires FirstSshLine(data, s1, e1) && FirstSshLine(data, s2, e2)
    ensures s1 == s2 && e1 == e2
  {
    assert e1 == e2;
    assert forall i :: s1 <= i < e1 - 1 ==> data[i] == data[s1..e1 - 1][i - s1];
    assert forall i :: s2 <= i < e1 - 1 ==> data[i] == data[s2..e1 - 1][i - s2];
  }

  /** The whole input in any number of feeds; a decided scanner leaves the rest untouched. */
  function ScanAll(s: Scanner, chunks: seq<Bytes>): Verdict
    decreases |chunks|
  {
    if chunks == [] then More(s)
    else
      match Scan(s, chunks[0])
      case More(s') =>
        (match ScanAll(s', chunks[1..])
         case Done(n, s'') => Done(|chunks[0]| + n, s'')
         case other => other)
      case decided => decided
  }

  lemma {:induction false} ScanAllIsScan(s: Scanner, chunks: seq<Bytes>)
    ensures ScanAll(s, chunks) == Scan(s, Flatten(chunks))
    decreases |chunks|
  {
    if chunks != [] {
      ScanSplit(s, chunks[0], Flatten(chunks[1..]));
      match Scan(s, chunks[0])
      case More(s') => ScanAllIsScan(s', chunks[1..]);
      case _ =>
    }
  }

  /** Ident scanning under every split of the input: accepted exactly when the first `SSH-` line ends
      within the limit and names a supported version, with consumption stopping right after its
      newline; rejected exactly when that line's version is unsupported or byte 65537 arrives
      without one; still waiting otherwise. */
  lemma ScanRefinesSpec(data: Bytes, chunks: seq<Bytes>)
    requires Flatten(chunks) == data
    ensures forall n: nat, s :: ScanAll(FRESH, chunks) == Done(n, s) <==> Accepts(data, n, s)
    ensures ScanAll(FRESH, chunks).Bad? <==> Rejects(data)
    ensures ScanAll(FRESH, chunks).More? <==> |data| <= LIMIT && NoSshLineWithin(data, |data|)
  {
    hide Scan, ScanAll, Accepts, Rejects, NoSshLineWithin, FirstSshLine;
    ScanAllIsScan(FRESH, chunks);
    FreshVerdict(data);
    VerdictsExclude(data);
  }

  lemma FreshVerdict(data: Bytes)
    ensures Scan(FRESH, data).More? ==> |data| <= LIMIT && NoSshLineWithin(data, |data|)
    ensures Scan(FRESH, data).Done? ==> Accepts(data, Scan(FRESH, data).n, Scan(FRESH, data).s)
    ensures Scan(FRESH, data).Bad? ==> Rejects(data)
  {
    hide Scan, Accepts, Rejects, FirstSshLine, SshLineAt;
    NothingScanned();
    assert [] + data == data;
    ScanExact(FRESH, [], data);
  }

  lemma NothingScanned()
    ensures Scanned(FRESH, [])
  {
  }

  /** Accepting, rejecting and waiting exclude each other, and acceptance is unique. */
  lemma VerdictsExclude(data: Bytes)
    ensures forall n: nat, s, m: nat, t :: Accepts(data, n, s) && Accepts(data, m, t) ==> n == m && s == t
    ensures forall n: nat, s :: Accepts(data, n, s) ==> !Rejects(data)
    ensures NoSshLineWithin(data, |data|) ==> forall n: nat, s :: !Accepts(data, n, s)
    ensures |data| <= LIMIT && NoSshLineWithin(data, |data|) ==> !Rejects(data)
  {
    hide Supported, StripCr, IsSshLine;
    forall s1: nat, e1: nat, s2: nat, e2: nat | FirstSshLine(data, s1, e1) && FirstSshLine(data, s2, e2)
      ensures s1 == s2 && e1 == e2
    {
      FirstIsUnique(data, s1, e1, s2, e2);
    }
  }

  // ---- the code --------------------------------------------------------------------------------

  class IdentExchange {
    var scanBuf: Bytes
    var totalScanned: nat
    var serverIdent: Option<Bytes>

    ghost function State(): Scanner
      reads this
    {
      Scanner(scanBuf, totalScanned, serverIdent)
    }

    constructor ()
      ensures State() == FRESH
    {
      scanBuf, totalScanned, serverIdent := [], 0, None;
    }

    predicate IsDone()
      reads this
    {
      serverIdent.Some?
    }

    /** Returns how many bytes were consumed, or an error after mutating the scanner up to it. */
    method Feed(data: Bytes) returns (r: Result<nat>)
      modifies this
      ensures old(IsDone()) ==> r == Ok(0) && State() == old(State())
      ensures !old(IsDone()) ==>
                match Scan(old(State()), data)
                case More(s) => r == Ok(|data|) && State() == s
                case Done(n, s) => r == Ok(n) && State() == s
                case Bad(s) => r == Err(Framing) && State() == s
    {
      if IsDone() {
        return Ok(0);
      }
      hide VersionOk, StripCr, IsSshLine;
      var consumed := 0;
      while consumed < |data|
        invariant consumed <= |data| && !IsDone()
        invariant Scan(old(State()), data) ==
                  match Scan(State(), data[consumed..])
                  case More(s) => More(s)
                  case Done(n, s) => Done(consumed + n, s)
                  case Bad(s) => Bad(s)
      {
        var byte := data[consumed];
        assert data[consumed..][1..] == data[consumed + 1..];
        consumed := consumed + 1;
        totalScanned := totalScanned + 1;
        if totalScanned > MAX_SCAN_BYTES {
          return Err(Framing);
        }
        if byte == LF {
          var line := StripCr(scanBuf);
          scanBuf := [];
          if IsSshLine(line) {
            if !VersionOk(line) {
              return Err(Framing);
            }
            serverIdent := Some(line);
            return Ok(consumed);
          }
        } else {
          scanBuf := scanBuf + [byte];
        }
      }
      r := Ok(consumed);
    }
  }
}
