/** Chunking invariance of `feed_incoming` and transparency of the host-key pause. */
module SessionChunks {
  import opened Prelude
  import opened Primitives
  import opened Packet
  import opened SessionModel
  import Ident

  /** Equal states; and equal unconsumed input, unless the session is over (an error during the
      version exchange leaves behind whatever happened to be in the last chunk). */
  predicate Same(x: Session, y: Session) {
    x.core == y.core && (!Over(x.core.phase) ==> x.incoming == y.incoming)
  }

  /** A decided packet turn is unchanged by more input. */
  lemma PacketTurnExtends(c: Suite, s: State, x: Bytes, y: Bytes)
    requires PacketTurn(c, s, x).Some?
    ensures PacketTurn(c, s, x + y) == PacketTurn(c, s, x)
  {
    hide NextFrame, Deliver;
    FrameIgnoresMore(c, s.kex.sc, x, y);
  }

  /** Feeding an already idle session only buffers. */
  lemma DriveIdle(c: Suite, s: State, buf: Bytes)
    requires Idle(s.phase)
    ensures Drive(c, s, buf) == Session(s, buf)
  {
  }

  lemma DriveTurn(c: Suite, s: State, buf: Bytes)
    requires !Idle(s.phase) && Turn(c, s, buf).Some?
    ensures var (n, s') := Turn(c, s, buf).value; Drive(c, s, buf) == Drive(c, s', buf[n..])
  {
    hide Turn;
  }

  lemma DriveStuck(c: Suite, s: State, buf: Bytes)
    requires !Idle(s.phase) && Turn(c, s, buf).None?
    ensures Drive(c, s, buf) == Session(s, buf)
  {
    hide Turn;
  }

  /** The scanner state carries everything an undecided version exchange has seen: scanning x + y
      decides what scanning y from there decides, |x| bytes later (or fails, consuming nothing). */
  lemma IdentTurnCarries(c: Suite, s: State, x: Bytes, y: Bytes)
    requires s.phase == VersionExchange && s.ident.server.None? && x != [] && y != []
    requires Ident.Scan(s.ident, x).More?
    ensures var s1 := s.(ident := Ident.Scan(s.ident, x).s);
            && IdentTurn(c, s, x) == Some((|x|, s1))
            && IdentTurn(c, s1, y).Some?
            && var (n, s') := IdentTurn(c, s1, y).value;
               IdentTurn(c, s, x + y) == Some((if Over(s'.phase) then 0 else |x| + n, s'))
  {
    hide BeginKex, Ident.Scan;
    var s1 := s.(ident := Ident.Scan(s.ident, x).s);
    Ident.ScanSplit(s.ident, x, y);
    match Ident.Scan(s1.ident, y)
    case More(i) => assert s.(ident := i) == s1.(ident := i);
    case Done(n, i) =>
      assert s.(ident := i) == s1.(ident := i);
      BeginKexPhase(c, s.(ident := i));
    case Bad(i) => assert s.(ident := i) == s1.(ident := i);
  }

  lemma BeginKexPhase(c: Suite, s: State)
    ensures BeginKex(c, s).phase == KexInProgress
  {
  }

  lemma IdentCarries(c: Suite, s: State, x: Bytes, y: Bytes)
    requires s.phase == VersionExchange && s.ident.server.None? && x != []
    requires Ident.Scan(s.ident, x).More?
    ensures var s1 := s.(ident := Ident.Scan(s.ident, x).s);
            && Turn(c, s, x) == Some((|x|, s1))
            && Same(Drive(c, s, x + y), Drive(c, s1, y))
  {
    hide IdentTurn, PacketTurn, Drive, Ident.Scan;
    var s1 := s.(ident := Ident.Scan(s.ident, x).s);
    ScanTurn(c, s, x);
    if y == [] {
      assert x + y == x && x[|x|..] == [];
      DriveTurn(c, s, x);
    } else {
      IdentTurnCarries(c, s, x, y);
      var (n, s') := IdentTurn(c, s1, y).value;
      DriveTurn(c, s, x + y);
      DriveTurn(c, s1, y);
      if Over(s'.phase) {
        DriveIdle(c, s', (x + y)[0..]);
        DriveIdle(c, s', y[n..]);
      } else {
        assert (x + y)[|x| + n..] == y[n..];
      }
    }
  }

  lemma ScanTurn(c: Suite, s: State, x: Bytes)
    requires s.phase == VersionExchange && s.ident.server.None? && x != []
    requires Ident.Scan(s.ident, x).More?
    ensures Turn(c, s, x) == Some((|x|, s.(ident := Ident.Scan(s.ident, x).s)))
  {
    hide Ident.Scan, BeginKex, PacketTurn;
  }

  /** Driving x and then, later, x's remainder and y is driving x + y. */
  lemma {:induction false} DriveSplit(c: Suite, s: State, x: Bytes, y: Bytes)
    ensures var first := Drive(c, s, x);
            Same(Drive(c, s, x + y), Drive(c, first.core, first.incoming + y))
    decreases |x|, if Over(s.phase) then 0 else 1
  {
    hide Drive, Turn;
    if Idle(s.phase) {
      DriveIdle(c, s, x);
    } else if Turn(c, s, x).None? {
      DriveStuck(c, s, x);
    } else {
      var (n, s') := Turn(c, s, x).value;
      DriveTurn(c, s, x);
      if TurnExtends(c, s, x, y) {
        DriveTurn(c, s, x + y);
        assert (x + y)[n..] == x[n..] + y;
        DriveSplit(c, s', x[n..], y);
      } else {
        Undecided(c, s, x, y);
        IdentCarries(c, s, x, y);
        assert x[|x|..] == [] && [] + y == y;
        NothingToDo(c, s');
      }
    }
  }

  ghost predicate TurnExtends(c: Suite, s: State, x: Bytes, y: Bytes) { Turn(c, s, x + y) == Turn(c, s, x) }

  /** The only turn that more input changes is an undecided scan. */
  lemma Undecided(c: Suite, s: State, x: Bytes, y: Bytes)
    requires !Idle(s.phase) && Turn(c, s, x).Some? && !TurnExtends(c, s, x, y)
    ensures s.phase == VersionExchange && s.ident.server.None? && x != [] && Ident.Scan(s.ident, x).More?
  {
    hide PacketTurn, BeginKex;
    if s.phase == VersionExchange {
      Ident.ScanSplit(s.ident, x, y);
    } else {
      PacketTurnExtends(c, s, x, y);
    }
  }

  lemma NothingToDo(c: Suite, s: State)
    ensures Drive(c, s, []) == Session(s, [])
  {
    if !Idle(s.phase) {
      NoTurn(c, s);
      DriveStuck(c, s, []);
    }
  }

  lemma NoTurn(c: Suite, s: State)
    ensures Turn(c, s, []).None?
  {
  }

  function FeedAll(c: Suite, x: Session, chunks: seq<Bytes>): Session
    decreases |chunks|
  {
    if chunks == [] then x else FeedAll(c, Feed(c, x, chunks[0]), chunks[1..])
  }

  lemma SameTransitive(x: Session, y: Session, z: Session)
    requires Same(x, y) && Same(y, z)
    ensures Same(x, z)
  {
  }

  lemma FeedKeepsSame(c: Suite, x: Session, y: Session, b: Bytes)
    requires Same(x, y)
    ensures Same(Feed(c, x, b), Feed(c, y, b))
  {
    hide Turn;
  }

  /** Chunking invariance: for any peer bytes, in any state, and any split into feeds with no host
      call between, the outgoing log, the event log, the phase and the whole rest of the state are
      those of one single feed; so is the unconsumed input while the session is not over. */
  lemma {:induction false} ChunkingInvariance(c: Suite, x: Session, first: Bytes, chunks: seq<Bytes>)
    ensures Same(FeedAll(c, Feed(c, x, first), chunks), Feed(c, x, first + Flatten(chunks)))
    decreases |chunks|
  {
    hide Drive, Same;
    if chunks == [] {
      assert first + Flatten(chunks) == first;
      SameReflexive(Feed(c, x, first));
    } else {
      var one := Feed(c, Feed(c, x, first), chunks[0]);
      FeedTwice(c, x, first, chunks[0]);
      FeedAllKeepsSame(c, one, Feed(c, x, first + chunks[0]), chunks[1..]);
      ChunkingInvariance(c, x, first + chunks[0], chunks[1..]);
      SameTransitive(FeedAll(c, one, chunks[1..]), FeedAll(c, Feed(c, x, first + chunks[0]), chunks[1..]),
                     Feed(c, x, (first + chunks[0]) + Flatten(chunks[1..])));
      assert (first + chunks[0]) + Flatten(chunks[1..]) == first + Flatten(chunks);
    }
  }

  lemma SameReflexive(x: Session) ensures Same(x, x) {}

  lemma FeedTwice(c: Suite, x: Session, a: Bytes, b: Bytes)
    ensures Same(Feed(c, Feed(c, x, a), b), Feed(c, x, a + b))
  {
    hide Drive;
    DriveSplit(c, x.core, x.incoming + a, b);
    assert (x.incoming + a) + b == x.incoming + (a + b);
  }

  lemma {:induction false} FeedAllKeepsSame(c: Suite, x: Session, y: Session, chunks: seq<Bytes>)
    requires Same(x, y)
    ensures Same(FeedAll(c, x, chunks), FeedAll(c, y, chunks))
    decreases |chunks|
  {
    hide Feed, Same;
    if chunks != [] {
      FeedKeepsSame(c, x, y, chunks[0]);
      FeedAllKeepsSame(c, Feed(c, x, chunks[0]), Feed(c, y, chunks[0]), chunks[1..]);
    }
  }

  /** Pause transparency: while the session waits for the host-key decision, feeding b and then
      accepting is the same as accepting and then feeding b, whatever is already buffered. */
  lemma PauseTransparency(c: Suite, x: Session, b: Bytes)
    requires x.core.phase == AwaitingHostKeyDecision
    ensures Same(Decide(c, Feed(c, x, b), true), Feed(c, Decide(c, x, true), b))
  {
    hide Drive, Accepted;
    DriveIdle(c, x.core, x.incoming + b);
    DriveSplit(c, Accepted(c, x.core), x.incoming, b);
  }
}
