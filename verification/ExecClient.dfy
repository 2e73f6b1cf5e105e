/**
  The exec bookkeeping of `SshClient` (src/client.ts): the `execs` map, the promises it settles, and
  the one-time close notification, over every sequence of calls and events.

  Promises are numbered in the order `exec()` creates them; `outcomes[p]` lists every settlement ever
  delivered to promise p. What each promise should receive is defined independently, by following that
  one promise through the calls (`Fate`).
 */
module ExecClient {
  import opened Prelude
  import opened Events

  /** What `exec()` resolves with, or a rejection. */
  datatype Outcome =
    | Resolved(stdout: Bytes, stderr: Bytes, exitCode: Option<U32>, exitSignal: Option<Bytes>)
    | Rejected

  /** An entry of `execs`. */
  datatype Exec = Exec(promise: nat, stdout: seq<Bytes>, stderr: seq<Bytes>, exitCode: Option<U32>, exitSignal: Option<Bytes>,
                       settled: bool)

  datatype Client = Client(execs: map<U32, Exec>, outcomes: seq<seq<Outcome>>, closed: bool, closes: nat)

  const FRESH := Client(map[], [], false, 0)

  /** A call of `exec()` for which the engine chose `id`, an event, or any of the other ways a session
      is shut down (a cancelled password, a failed key, a rejected host key). */
  datatype Call = Run(id: U32) | Handle(event: Event) | Abort

  predicate Ends(call: Call) {
    call.Abort? || (call.Handle? && IsTerminal(call.event))
  }

  // ---- the map ---------------------------------------------------------------------------------------

  function Deliver(outcomes: seq<seq<Outcome>>, p: nat, o: Outcome): seq<seq<Outcome>> {
    if p < |outcomes| then outcomes[p := outcomes[p] + [o]] else outcomes
  }

  function OnRun(c: Client, id: U32): Client {
    if c.closed then c.(outcomes := c.outcomes + [[Rejected]])
    else c.(outcomes := c.outcomes + [[]], execs := c.execs[id := Exec(|c.outcomes|, [], [], None, None, false)])
  }

  function Heard(e: Exec, stream: DataStream, data: Bytes): Exec {
    if stream == Stderr then e.(stderr := e.stderr + [data]) else e.(stdout := e.stdout + [data])
  }

  function ResultOf(e: Exec): Outcome { Resolved(Flatten(e.stdout), Flatten(e.stderr), e.exitCode, e.exitSignal) }

  /** Whether promise `p` belongs to an unsettled entry among `ids`. */
  predicate PendingIn(execs: map<U32, Exec>, ids: set<U32>, p: nat) {
    exists id :: id in ids && id in execs && execs[id].promise == p && !execs[id].settled
  }

  /** The settlements after every unsettled entry among `ids` has been rejected. */
  function Rejecting(outcomes: seq<seq<Outcome>>, execs: map<U32, Exec>, ids: set<U32>): seq<seq<Outcome>> {
    seq(|outcomes|, p requires 0 <= p < |outcomes| =>
      if PendingIn(execs, ids, p) then outcomes[p] + [Rejected] else outcomes[p])
  }

  /** Rejects every entry that has not been settled, and forgets them all. */
  function Shutdown(c: Client): Client {
    Client(map[], Rejecting(c.outcomes, c.execs, c.execs.Keys), true, if c.closed then c.closes else c.closes + 1)
  }

  function OnEvent(c: Client, event: Event): Client {
    match event
    case ChannelOpenFailed(id, _, _) =>
      if id !in c.execs then c
      else c.(outcomes := Deliver(c.outcomes, c.execs[id].promise, Rejected), execs := c.execs - {id})
    case ChannelData(id, stream, data) =>
      if id !in c.execs then c else c.(execs := c.execs[id := Heard(c.execs[id], stream, data)])
    case ChannelExitStatus(id, code, signal) =>
      if id !in c.execs then c else c.(execs := c.execs[id := c.execs[id].(exitCode := code, exitSignal := signal)])
    case ChannelClosed(id) =>
      if id !in c.execs then c
      else
        c.(outcomes := if c.execs[id].settled then c.outcomes
                       else Deliver(c.outcomes, c.execs[id].promise, ResultOf(c.execs[id])),
           execs := c.execs - {id})
    case Disconnected(_, _) => Shutdown(c)
    case Unrecoverable(_) => Shutdown(c)
    case _ => c
  }

  function Step(c: Client, call: Call): Client {
    match call
    case Run(id) => OnRun(c, id)
    case Handle(event) => OnEvent(c, event)
    case Abort => Shutdown(c)
  }

  function After(calls: seq<Call>): Client {
    if calls == [] then FRESH else Step(After(calls[..|calls| - 1]), calls[|calls| - 1])
  }

  // ---- one promise at a time -----------------------------------------------------------------------------

  /** A promise that waits for its channel, has been settled, or can never be: its channel id was given
      to a later `exec()` while it was waiting. */
  datatype Fate = Waiting(id: U32, exec: Exec) | Settled(outcome: Outcome) | Orphaned

  function Next(f: Fate, call: Call): Fate {
    if !f.Waiting? then f
    else if Ends(call) then Settled(Rejected)
    else
      match call
      case Run(id) => if id == f.id then Orphaned else f
      case Handle(ChannelOpenFailed(id, _, _)) => if id == f.id then Settled(Rejected) else f
      case Handle(ChannelData(id, stream, data)) => if id == f.id then f.(exec := Heard(f.exec, stream, data)) else f
      case Handle(ChannelExitStatus(id, code, signal)) =>
        if id == f.id then f.(exec := f.exec.(exitCode := code, exitSignal := signal)) else f
      case Handle(ChannelClosed(id)) => if id == f.id then Settled(ResultOf(f.exec)) else f
      case _ => f
  }

  /** Whether the session has been shut down. */
  predicate Ended(calls: seq<Call>) { exists call :: call in calls && Ends(call) }

  function Born(calls: seq<Call>, p: nat, id: U32): Fate {
    if Ended(calls) then Settled(Rejected) else Waiting(id, Exec(p, [], [], None, None, false))
  }

  function Moved(fates: seq<Fate>, call: Call): seq<Fate> {
    seq(|fates|, p requires 0 <= p < |fates| => Next(fates[p], call))
  }

  /** The fate of every promise, in order of creation. */
  function Fates(calls: seq<Call>): seq<Fate> {
    if calls == [] then []
    else
      var before, call := calls[..|calls| - 1], calls[|calls| - 1];
      var moved := Moved(Fates(before), call);
      if call.Run? then moved + [Born(before, |moved|, call.id)] else moved
  }

  /** The settlements a fate stands for. */
  function Settlements(f: Fate): seq<Outcome> { if f.Settled? then [f.outcome] else [] }

  // ---- the map does what each promise's own story says -----------------------------------------------------

  predicate Holds(c: Client, fates: seq<Fate>) {
    && |c.outcomes| == |fates|
    && (forall p :: 0 <= p < |fates| ==> c.outcomes[p] == Settlements(fates[p]))
    && (forall p :: 0 <= p < |fates| && fates[p].Waiting? ==>
          fates[p].id in c.execs && c.execs[fates[p].id] == fates[p].exec && fates[p].exec.promise == p)
    && (forall id :: id in c.execs ==>
          var p := c.execs[id].promise;
          p < |fates| && fates[p].Waiting? && fates[p].id == id && !c.execs[id].settled)
    && (c.closed ==> c.execs == map[])
    && c.closes == if c.closed then 1 else 0
  }

  lemma RunHolds(c: Client, fates: seq<Fate>, id: U32, before: seq<Call>)
    requires Holds(c, fates) && c.closed == Ended(before)
    ensures Holds(OnRun(c, id), Moved(fates, Run(id)) + [Born(before, |fates|, id)])
  {
    hide Ended;
    var after := Moved(fates, Run(id)) + [Born(before, |fates|, id)];
    forall p | 0 <= p < |fates| ensures after[p] == Next(fates[p], Run(id)) {}
    if c.closed {
      forall p | 0 <= p < |fates| ensures !fates[p].Waiting? {}
    }
  }

  lemma ShutdownHolds(c: Client, fates: seq<Fate>, call: Call)
    requires Holds(c, fates) && Ends(call)
    ensures Holds(Shutdown(c), Moved(fates, call))
  {
    forall p | 0 <= p < |fates| ensures Shutdown(c).outcomes[p] == Settlements(Next(fates[p], call)) {
      if fates[p].Waiting? {
        assert fates[p].id in c.execs && c.execs[fates[p].id].promise == p;
      }
    }
  }

  lemma HeardKeeps(e: Exec, stream: DataStream, data: Bytes)
    ensures Heard(e, stream, data).promise == e.promise && Heard(e, stream, data).settled == e.settled
  {
  }

  lemma SettleHolds(c: Client, fates: seq<Fate>, id: U32, o: Outcome)
    requires Holds(c, fates) && id in c.execs
    ensures var p := c.execs[id].promise;
            && p < |fates|
            && Holds(c.(outcomes := Deliver(c.outcomes, p, o), execs := c.execs - {id}), fates[p := Settled(o)])
  {
  }

  /** What an event that settles channel `id` with `o` does to the fates. */
  lemma OthersUnmoved(c: Client, fates: seq<Fate>, call: Call, id: U32)
    requires Holds(c, fates)
    requires forall p :: 0 <= p < |fates| && fates[p].Waiting? && fates[p].id != id ==> Next(fates[p], call) == fates[p]
    ensures id !in c.execs ==> Moved(fates, call) == fates
    ensures id in c.execs ==>
              var p := c.execs[id].promise;
              p < |fates| && Moved(fates, call) == fates[p := Next(fates[p], call)] && fates[p] == Waiting(id, c.execs[id])
  {
    hide Next;
    forall p | 0 <= p < |fates| && !fates[p].Waiting? ensures Next(fates[p], call) == fates[p] { DoneStays(fates[p], call); }
  }

  lemma DoneStays(f: Fate, call: Call)
    requires !f.Waiting?
    ensures Next(f, call) == f
  {
  }

  lemma EntryHolds(c: Client, fates: seq<Fate>, id: U32, e: Exec)
    requires Holds(c, fates) && id in c.execs
    requires e.promise == c.execs[id].promise && e.settled == c.execs[id].settled
    ensures e.promise < |fates| && Holds(c.(execs := c.execs[id := e]), fates[e.promise := Waiting(id, e)])
  {
  }

  /** An event that updates an entry, if there is one. */
  lemma UpdateHolds(c: Client, fates: seq<Fate>, event: Event)
    requires Holds(c, fates) && (event.ChannelData? || event.ChannelExitStatus?)
    ensures Holds(OnEvent(c, event), Moved(fates, Handle(event)))
  {
    hide Heard, Holds;
    OthersUnmoved(c, fates, Handle(event), event.id);
    if event.id in c.execs {
      var entry := c.execs[event.id];
      if event.ChannelData? {
        HeardKeeps(entry, event.stream, event.data);
        EntryHolds(c, fates, event.id, Heard(entry, event.stream, event.data));
      } else {
        EntryHolds(c, fates, event.id, entry.(exitCode := event.code, exitSignal := event.signal));
      }
    }
  }

  /** An event that settles and removes an entry, if there is one. */
  lemma RemovalHolds(c: Client, fates: seq<Fate>, event: Event)
    requires Holds(c, fates) && (event.ChannelOpenFailed? || event.ChannelClosed?)
    ensures Holds(OnEvent(c, event), Moved(fates, Handle(event)))
  {
    hide ResultOf, Holds;
    OthersUnmoved(c, fates, Handle(event), event.id);
    if event.id in c.execs {
      SettleHolds(c, fates, event.id, if event.ChannelClosed? then ResultOf(c.execs[event.id]) else Rejected);
      Unsettled(c, fates, event.id);
    }
  }

  lemma Unsettled(c: Client, fates: seq<Fate>, id: U32)
    requires Holds(c, fates) && id in c.execs
    ensures !c.execs[id].settled
  {
  }

  lemma EventHolds(c: Client, fates: seq<Fate>, event: Event)
    requires Holds(c, fates) && !IsTerminal(event)
    ensures Holds(OnEvent(c, event), Moved(fates, Handle(event)))
  {
    if event.ChannelData? || event.ChannelExitStatus? {
      UpdateHolds(c, fates, event);
    } else if event.ChannelOpenFailed? || event.ChannelClosed? {
      RemovalHolds(c, fates, event);
    } else {
      assert Moved(fates, Handle(event)) == fates;
    }
  }

  lemma ClosedIsEnded(before: seq<Call>, call: Call)
    ensures Ended(before + [call]) == (Ended(before) || Ends(call))
  {
    assert (before + [call])[|before|] == call;
    if c :| c in before && Ends(c) { assert c in before + [call]; }
  }

  lemma {:induction false} MapFollowsFates(calls: seq<Call>)
    ensures Holds(After(calls), Fates(calls)) && After(calls).closed == Ended(calls)
    decreases |calls|
  {
    hide Holds, OnRun, OnEvent, Shutdown, Moved, Born, Ended;
    if calls == [] {
      NothingYet();
    } else {
      var before, call := calls[..|calls| - 1], calls[|calls| - 1];
      assert calls == before + [call];
      MapFollowsFates(before);
      ClosedIsEnded(before, call);
      var c, fates := After(before), Fates(before);
      MovedSize(fates, call);
      StepCloses(c, call);
      match call
      case Run(id) => RunHolds(c, fates, id, before);
      case Abort => ShutdownHolds(c, fates, call);
      case Handle(event) =>
        if IsTerminal(event) {
          ShutdownHolds(c, fates, call);
          TerminalShutsDown(c, event);
        } else {
          EventHolds(c, fates, event);
        }
    }
  }

  lemma NothingYet() ensures Holds(FRESH, []) && !Ended([]) {}

  lemma MovedSize(fates: seq<Fate>, call: Call) ensures |Moved(fates, call)| == |fates| {}

  lemma TerminalShutsDown(c: Client, event: Event)
    ensures IsTerminal(event) ==> OnEvent(c, event) == Shutdown(c)
  {
    hide Shutdown;
  }

  lemma StepCloses(c: Client, call: Call)
    ensures Step(c, call).closed == (c.closed || Ends(call))
  {
  }

  // ---- what a result holds -------------------------------------------------------------------------------------

  /** The data of one stream of one channel, in order. */
  function DataOf(calls: seq<Call>, id: U32, stream: DataStream): seq<Bytes> {
    if calls == [] then []
    else IfData(calls[0], id, stream) + DataOf(calls[1..], id, stream)
  }

  function IfData(call: Call, id: U32, stream: DataStream): seq<Bytes> {
    if call.Handle? && call.event.ChannelData? && call.event.id == id && call.event.stream == stream then [call.event.data] else []
  }

  /** The last exit report of a channel, or `before` if there is none. */
  function ExitOf(before: (Option<U32>, Option<Bytes>), calls: seq<Call>, id: U32): (Option<U32>, Option<Bytes>)
    decreases |calls|
  {
    if calls == [] then before else ExitOf(IfExit(before, calls[0], id), calls[1..], id)
  }

  function IfExit(before: (Option<U32>, Option<Bytes>), call: Call, id: U32): (Option<U32>, Option<Bytes>) {
    if call.Handle? && call.event.ChannelExitStatus? && call.event.id == id then (call.event.code, call.event.signal) else before
  }

  /** What a channel has said, in the calls since its promise was born: its output, stream by stream and in
      order, and its last exit report. */
  function ResultFrom(heard: seq<Call>, id: U32): Outcome {
    var exit := ExitOf((None, None), heard, id);
    Resolved(Flatten(DataOf(heard, id, Stdout)), Flatten(DataOf(heard, id, Stderr)), exit.0, exit.1)
  }

  /** The calls that decide the fate of a waiting promise with channel `id`. */
  predicate Decides(call: Call, id: U32) {
    || Ends(call)
    || call == Run(id)
    || (call.Handle? && (call.event.ChannelOpenFailed? || call.event.ChannelClosed?) && call.event.id == id)
  }

  // ---- one promise, followed ---------------------------------------------------------------------------------

  function Follow(f: Fate, calls: seq<Call>): Fate
    decreases |calls|
  {
    if calls == [] then f else Follow(Next(f, calls[0]), calls[1..])
  }

  lemma NextHears(f: Fate, call: Call)
    requires f.Waiting?
    ensures Next(f, call).Waiting? <==> !Decides(call, f.id)
    ensures Next(f, call).Waiting? ==>
              var g := Next(f, call);
              && g.id == f.id
              && g.exec.stdout == f.exec.stdout + IfData(call, f.id, Stdout)
              && g.exec.stderr == f.exec.stderr + IfData(call, f.id, Stderr)
              && (g.exec.exitCode, g.exec.exitSignal) == IfExit((f.exec.exitCode, f.exec.exitSignal), call, f.id)
  {
  }

  lemma {:induction false} SettledStays(f: Fate, calls: seq<Call>)
    requires !f.Waiting?
    ensures Follow(f, calls) == f
    decreases |calls|
  {
    if calls != [] { SettledStays(f, calls[1..]); }
  }

  predicate NoneDecides(calls: seq<Call>, id: U32) { forall i :: 0 <= i < |calls| ==> !Decides(calls[i], id) }

  /** A promise that nothing has decided is waiting, and has gathered exactly what its channel said. */
  lemma {:induction false} WaitingHearsAll(f: Fate, calls: seq<Call>)
    requires f.Waiting? && NoneDecides(calls, f.id)
    ensures var g := Follow(f, calls);
            && g.Waiting? && g.id == f.id
            && g.exec.stdout == f.exec.stdout + DataOf(calls, f.id, Stdout)
            && g.exec.stderr == f.exec.stderr + DataOf(calls, f.id, Stderr)
            && (g.exec.exitCode, g.exec.exitSignal) == ExitOf((f.exec.exitCode, f.exec.exitSignal), calls, f.id)
    decreases |calls|
  {
    hide Next, IfData, IfExit, Decides;
    if calls != [] {
      assert !Decides(calls[0], f.id);
      NextHears(f, calls[0]);
      forall i | 0 <= i < |calls[1..]| ensures !Decides(calls[1..][i], f.id) { assert calls[1..][i] == calls[i + 1]; }
      WaitingHearsAll(Next(f, calls[0]), calls[1..]);
      assert (f.exec.stdout + IfData(calls[0], f.id, Stdout)) + DataOf(calls[1..], f.id, Stdout)
          == f.exec.stdout + DataOf(calls, f.id, Stdout);
      assert (f.exec.stderr + IfData(calls[0], f.id, Stderr)) + DataOf(calls[1..], f.id, Stderr)
          == f.exec.stderr + DataOf(calls, f.id, Stderr);
    }
  }

  /** Following one promise from its birth is what `Fates` does at its position. */
  lemma {:induction false} FatesFollow(calls: seq<Call>, more: seq<Call>, p: nat)
    requires p < |Fates(calls)|
    ensures p < |Fates(calls + more)| && Fates(calls + more)[p] == Follow(Fates(calls)[p], more)
    decreases |more|
  {
    hide Next, Born;
    if more == [] {
      assert calls + more == calls;
    } else {
      var next := calls + [more[0]];
      assert next[..|next| - 1] == calls && next[|next| - 1] == more[0];
      assert next + more[1..] == calls + more;
      FatesFollow(next, more[1..], p);
    }
  }

  // ---- the story in terms of the calls -------------------------------------------------------------------------

  function Runs(calls: seq<Call>): nat {
    if calls == [] then 0 else Runs(calls[..|calls| - 1]) + if calls[|calls| - 1].Run? then 1 else 0
  }

  /** Call `i` is the one that created promise `p`, for channel `id`. */
  predicate Creates(calls: seq<Call>, i: nat, p: nat, id: U32) { i < |calls| && calls[i] == Run(id) && Runs(calls[..i]) == p }

  lemma {:induction false} OneFateEach(calls: seq<Call>)
    ensures |Fates(calls)| == Runs(calls)
    decreases |calls|
  {
    hide Born;
    if calls != [] { OneFateEach(calls[..|calls| - 1]); }
  }

  lemma {:induction false} RunsOfPrefix(calls: seq<Call>, i: nat)
    requires i < |calls|
    ensures Runs(calls[..i]) + (if calls[i].Run? then 1 else 0) <= Runs(calls)
    decreases |calls|
  {
    var before := calls[..|calls| - 1];
    if i < |before| {
      assert before[..i] == calls[..i];
      RunsOfPrefix(before, i);
    }
  }

  /** Every promise was created by one call, and no other. */
  lemma {:induction false} CreatorOf(calls: seq<Call>, p: nat) returns (i: nat, id: U32)
    requires p < Runs(calls)
    ensures Creates(calls, i, p, id)
    decreases |calls|
  {
    var before, last := calls[..|calls| - 1], calls[|calls| - 1];
    if last.Run? && Runs(before) == p {
      i, id := |calls| - 1, last.id;
    } else {
      i, id := CreatorOf(before, p);
      assert before[..i] == calls[..i];
    }
  }

  lemma CreatorIsUnique(calls: seq<Call>, p: nat, i: nat, id: U32, j: nat, id': U32)
    requires Creates(calls, i, p, id) && Creates(calls, j, p, id')
    ensures i == j && id == id'
  {
    if i < j {
      assert calls[..j][..i] == calls[..i] && calls[..j][i] == calls[i];
      RunsOfPrefix(calls[..j], i);
    } else if j < i {
      assert calls[..i][..j] == calls[..j] && calls[..i][j] == calls[j];
      RunsOfPrefix(calls[..i], j);
    }
  }

  /** The promise created at `i` waits from there up to call `j`. */
  predicate WaitsUntil(calls: seq<Call>, i: nat, j: nat, id: U32) {
    && i < j <= |calls|
    && !Ended(calls[..i])
    && forall k :: i < k < j ==> !Decides(calls[k], id)
  }

  /** It waits until the first call that decides it, or to the end. */
  lemma {:induction false} WaitsUntilDecided(calls: seq<Call>, i: nat, id: U32, from: nat) returns (j: nat)
    requires WaitsUntil(calls, i, from, id)
    ensures WaitsUntil(calls, i, j, id) && (j < |calls| ==> Decides(calls[j], id))
    decreases |calls| - from
  {
    hide Ended, Decides;
    if from == |calls| || Decides(calls[from], id) {
      j := from;
    } else {
      j := WaitsUntilDecided(calls, i, id, from + 1);
    }
  }

  /** What a decision settles a waiting promise with, given what its channel had said. */
  function Verdict(call: Call, id: U32, heard: seq<Call>): seq<Outcome> {
    if call == Run(id) then []
    else if call == Handle(ChannelClosed(id)) then [ResultFrom(heard, id)]
    else [Rejected]
  }

  lemma {:induction false} FollowAppend(f: Fate, a: seq<Call>, b: seq<Call>)
    ensures Follow(f, a + b) == Follow(Follow(f, a), b)
    decreases |a|
  {
    hide Next;
    if a == [] {
      assert a + b == b;
    } else {
      assert (a + b)[1..] == a[1..] + b;
      FollowAppend(Next(f, a[0]), a[1..], b);
    }
  }

  lemma CreatedFate(calls: seq<Call>, i: nat, p: nat, id: U32)
    requires Creates(calls, i, p, id)
    ensures p < |Fates(calls)| && Fates(calls)[p] == Follow(Born(calls[..i], p, id), calls[i + 1..])
  {
    hide Next, Born;
    var now := calls[..i + 1];
    assert now[..|now| - 1] == calls[..i] && now[|now| - 1] == calls[i];
    OneFateEach(calls[..i]);
    MovedSize(Fates(calls[..i]), calls[i]);
    assert now + calls[i + 1..] == calls;
    FatesFollow(now, calls[i + 1..], p);
  }

  lemma DecidedIsSettled(f: Fate, call: Call, heard: seq<Call>)
    requires f.Waiting? && Decides(call, f.id) && ResultOf(f.exec) == ResultFrom(heard, f.id)
    ensures !Next(f, call).Waiting? && Settlements(Next(f, call)) == Verdict(call, f.id, heard)
  {
    hide ResultOf, ResultFrom;
  }

  lemma WaitedFate(calls: seq<Call>, i: nat, p: nat, id: U32, j: nat)
    requires Creates(calls, i, p, id) && WaitsUntil(calls, i, j, id)
    ensures var f := Follow(Born(calls[..i], p, id), calls[i + 1..j]);
            f.Waiting? && f.id == id && ResultOf(f.exec) == ResultFrom(calls[i + 1..j], id)
  {
    hide Follow, DataOf, Flatten, ExitOf, Decides, Ended;
    var heard := calls[i + 1..j];
    forall k | 0 <= k < |heard| ensures !Decides(heard[k], id) { assert heard[k] == calls[i + 1 + k]; }
    WaitingHearsAll(Born(calls[..i], p, id), heard);
    assert [] + DataOf(heard, id, Stdout) == DataOf(heard, id, Stdout);
    assert [] + DataOf(heard, id, Stderr) == DataOf(heard, id, Stderr);
  }

  /** The whole story of a promise, by the calls alone: rejected at once on a client that had ended; else
      nothing while it waits, and then the verdict of the call that decides it, for good. */
  lemma Story(calls: seq<Call>, i: nat, p: nat, id: U32)
    requires Creates(calls, i, p, id)
    ensures p < |After(calls).outcomes|
    ensures Ended(calls[..i]) ==> After(calls).outcomes[p] == [Rejected]
    ensures forall j: nat :: WaitsUntil(calls, i, j, id) ==>
              && (j < |calls| && Decides(calls[j], id) ==> After(calls).outcomes[p] == Verdict(calls[j], id, calls[i + 1..j]))
              && (j == |calls| ==> After(calls).outcomes[p] == [])
  {
    hide After, Fates, Follow, Ended, ResultFrom, Verdict, Decides;
    MapFollowsFates(calls);
    CreatedFate(calls, i, p, id);
    if Ended(calls[..i]) { SettledStays(Born(calls[..i], p, id), calls[i + 1..]); }
    forall j: nat | WaitsUntil(calls, i, j, id)
      ensures j < |calls| && Decides(calls[j], id) ==> After(calls).outcomes[p] == Verdict(calls[j], id, calls[i + 1..j])
      ensures j == |calls| ==> After(calls).outcomes[p] == []
    {
      StoryTo(calls, i, p, id, j);
    }
  }

  lemma StoryTo(calls: seq<Call>, i: nat, p: nat, id: U32, j: nat)
    requires Creates(calls, i, p, id) && WaitsUntil(calls, i, j, id)
    ensures var f := Follow(Born(calls[..i], p, id), calls[i + 1..]);
            && (j < |calls| && Decides(calls[j], id) ==> Settlements(f) == Verdict(calls[j], id, calls[i + 1..j]))
            && (j == |calls| ==> Settlements(f) == [])
  {
    hide Ended, ResultFrom, Verdict, Decides, Next, Born, ResultOf;
    var born, heard := Born(calls[..i], p, id), calls[i + 1..j];
    WaitedFate(calls, i, p, id, j);
    FollowAppend(born, heard, calls[j..]);
    assert heard + calls[j..] == calls[i + 1..];
    if j < |calls| && Decides(calls[j], id) {
      DecidedIsSettled(Follow(born, heard), calls[j], heard);
      assert calls[j..][0] == calls[j];
      SettledStays(Next(Follow(born, heard), calls[j]), calls[j..][1..]);
    }
  }

  // ---- what a caller can rely on -----------------------------------------------------------------------------

  /** Promise `p` waited until call `j`, its channel's first decision, and that call is `what`. */
  predicate DecidedBy(calls: seq<Call>, p: nat, i: nat, j: nat, id: U32, what: Call) {
    Creates(calls, i, p, id) && WaitsUntil(calls, i, j, id) && j < |calls| && calls[j] == what
  }

  /** The p-th `exec()` got an id that was given out again while it waited: before its channel closed or
      failed to open, and before the session ended. */
  ghost predicate Orphan(calls: seq<Call>, p: nat) {
    exists i: nat, j: nat, id: U32 :: DecidedBy(calls, p, i, j, id, Run(id))
  }

  /** The p-th `exec()` was followed by the close of its channel, nothing having decided it before, and `o`
      is everything the channel said in between. */
  ghost predicate Returns(calls: seq<Call>, p: nat, o: Outcome) {
    exists i: nat, j: nat, id: U32 ::
      DecidedBy(calls, p, i, j, id, Handle(ChannelClosed(id))) && o == ResultFrom(calls[i + 1..j], id)
  }

  /** A resolved result is the channel's output: over every sequence of calls and events, promise `p` has
      resolved with `o` if and only if its channel's close was the first thing to decide it, and `o` is the
      in-order concatenation, stream by stream, of that channel's data between the `exec()` and the close,
      with its last exit report. */
  lemma ResultIsChannelOutput(calls: seq<Call>, p: nat, o: Outcome)
    requires p < |After(calls).outcomes| && o.Resolved?
    ensures After(calls).outcomes[p] == [o] <==> Returns(calls, p, o)
  {
    hide After, Ended, ResultFrom, Fates;
    OutcomesCount(calls);
    var i, id := CreatorOf(calls, p);
    Story(calls, i, p, id);
    if Returns(calls, p, o) {
      var i': nat, j: nat, id': U32 :| DecidedBy(calls, p, i', j, id', Handle(ChannelClosed(id'))) && o == ResultFrom(calls[i' + 1..j], id');
      CreatorIsUnique(calls, p, i, id, i', id');
    }
    if After(calls).outcomes[p] == [o] {
      var j := WaitsUntilDecided(calls, i, id, i + 1);
      VerdictResolves(calls[j], id, calls[i + 1..j], o);
      assert DecidedBy(calls, p, i, j, id, Handle(ChannelClosed(id)));
    }
  }

  lemma VerdictResolves(call: Call, id: U32, heard: seq<Call>, o: Outcome)
    requires Verdict(call, id, heard) == [o] && o.Resolved?
    ensures call == Handle(ChannelClosed(id)) && o == ResultFrom(heard, id)
  {
    hide ResultFrom;
  }

  lemma OutcomesCount(calls: seq<Call>)
    ensures |After(calls).outcomes| == Runs(calls)
    ensures forall p :: 0 <= p < |After(calls).outcomes| ==> |After(calls).outcomes[p]| <= 1
    ensures After(calls).closes == (if After(calls).closed then 1 else 0)
    ensures After(calls).closed == Ended(calls)
  {
    hide After, Ended, Fates, Runs;
    MapFollowsFates(calls);
    OneFateEach(calls);
  }

  /** Over every sequence of calls and events: there is one promise per `exec()`; each is settled at most
      once; the close callback has fired once if the client is closed and never otherwise; and once the
      client is closed, a promise is still pending if and only if its channel id was given out again while
      it waited. */
  lemma EachPromiseSettlesOnce(calls: seq<Call>)
    ensures var c := After(calls);
            && |c.outcomes| == Runs(calls)
            && (forall p :: 0 <= p < |c.outcomes| ==> |c.outcomes[p]| <= 1)
            && c.closes == (if c.closed then 1 else 0)
            && (c.closed ==> forall p :: 0 <= p < |c.outcomes| ==> (c.outcomes[p] == [] <==> Orphan(calls, p)))
  {
    hide After, Ended, Orphan, Runs;
    OutcomesCount(calls);
    if After(calls).closed {
      forall p | 0 <= p < |After(calls).outcomes| ensures After(calls).outcomes[p] == [] <==> Orphan(calls, p) {
        PendingIsOrphan(calls, p);
      }
    }
  }

  lemma PendingIsOrphan(calls: seq<Call>, p: nat)
    requires p < |After(calls).outcomes| && Ended(calls)
    ensures After(calls).outcomes[p] == [] <==> Orphan(calls, p)
  {
    hide After, ResultFrom;
    OutcomesCount(calls);
    var i, id := CreatorOf(calls, p);
    Story(calls, i, p, id);
    if Orphan(calls, p) {
      var i': nat, j: nat, id': U32 :| DecidedBy(calls, p, i', j, id', Run(id'));
      CreatorIsUnique(calls, p, i, id, i', id');
    }
    if After(calls).outcomes[p] == [] {
      var j := WaitsUntilDecided(calls, i, id, i + 1);
      EndDecides(calls, i, j, id);
      assert DecidedBy(calls, p, i, j, id, Run(id));
    }
  }

  /** On a client that has ended no promise waits to the end. */
  lemma EndDecides(calls: seq<Call>, i: nat, j: nat, id: U32)
    requires Ended(calls) && WaitsUntil(calls, i, j, id) && calls[i].Run?
    ensures j < |calls|
  {
    NoneEnds(calls, i);
    var call :| call in calls && Ends(call);
    var k: nat :| k < |calls| && calls[k] == call;
    assert k > i;
  }

  lemma NoneEnds(calls: seq<Call>, i: nat)
    requires i <= |calls| && !Ended(calls[..i])
    ensures forall k :: 0 <= k < i ==> !Ends(calls[k])
  {
    forall k | 0 <= k < i ensures !Ends(calls[k]) { assert calls[k] in calls[..i]; }
  }

  /** No id is used twice before the session ends. */
  predicate DistinctIds(calls: seq<Call>) {
    forall i, j :: 0 <= i < j < |calls| && calls[i].Run? && calls[j].Run? && !Ended(calls[..j]) ==> calls[i].id != calls[j].id
  }

  lemma ClosedMeansNonePending(calls: seq<Call>)
    requires DistinctIds(calls) && After(calls).closed
    ensures forall p :: 0 <= p < |After(calls).outcomes| ==> |After(calls).outcomes[p]| == 1
  {
    hide Fates, After, DistinctIds, Ended;
    EachPromiseSettlesOnce(calls);
    forall p | 0 <= p < |After(calls).outcomes| ensures |After(calls).outcomes[p]| == 1 {
      if Orphan(calls, p) {
        var i: nat, j: nat, id: U32 :| DecidedBy(calls, p, i, j, id, Run(id));
        NotDistinct(calls, i, j, id);
      }
    }
  }

  lemma NotDistinct(calls: seq<Call>, i: nat, j: nat, id: U32)
    requires WaitsUntil(calls, i, j, id) && j < |calls| && calls[i] == calls[j] == Run(id)
    ensures !DistinctIds(calls)
  {
    OpenUntil(calls, i, j, id);
  }

  /** While a promise waits the session has not ended. */
  lemma OpenUntil(calls: seq<Call>, i: nat, j: nat, id: U32)
    requires WaitsUntil(calls, i, j, id) && calls[i].Run?
    ensures !Ended(calls[..j])
  {
    NoneEnds(calls, i);
    forall call | call in calls[..j] ensures !Ends(call) {
      var k :| 0 <= k < j && calls[..j][k] == call;
      assert calls[k] == call;
      if k > i { assert !Decides(calls[k], id); }
    }
  }

  /** And it does happen: two `exec()` calls with one id, and then the end. */
  lemma ReuseOrphans()
    ensures var c := After([Run(0), Run(0), Abort]); c.closed && c.outcomes == [[], [Rejected]]
  {
    hide Rejecting;
    var two, three := [Run(0), Run(0)], [Run(0), Run(0), Abort];
    assert [Run(0)][..0] == [] && two[..1] == [Run(0)] && three[..2] == two;
    var c := After(two);
    assert c == Client(map[0 := Exec(1, [], [], None, None, false)], [[], []], false, 0);
    OnlyTheSecond(c.outcomes, c.execs);
  }

  lemma OnlyTheSecond(outcomes: seq<seq<Outcome>>, execs: map<U32, Exec>)
    requires outcomes == [[], []] && execs == map[0 := Exec(1, [], [], None, None, false)]
    ensures Rejecting(outcomes, execs, execs.Keys) == [[], [Rejected]]
  {
    assert PendingIn(execs, execs.Keys, 1) by { assert 0 in execs.Keys; }
    assert !PendingIn(execs, execs.Keys, 0);
    var r := Rejecting(outcomes, execs, execs.Keys);
    assert |r| == 2;
    assert r[0] == outcomes[0] == [];
    assert r[1] == outcomes[1] + [Rejected] == [Rejected];
  }

  // ---- the code ------------------------------------------------------------------------------------------------

  /** `Uint8Array.set`: copy a chunk into the buffer at `offset`. */
  method SetAt(out: array<Byte>, offset: nat, chunk: Bytes)
    requires offset + |chunk| <= out.Length
    modifies out
    ensures out[..offset + |chunk|] == old(out[..offset]) + chunk
  {
    var j := 0;
    while j < |chunk|
      invariant j <= |chunk|
      invariant out[..offset] == old(out[..offset]) && out[offset..offset + j] == chunk[..j]
    {
      out[offset + j] := chunk[j];
      j := j + 1;
    }
    assert out[..offset + |chunk|] == out[..offset] + out[offset..offset + |chunk|];
  }

  /** `concatChunks`: one buffer of the total size, filled chunk by chunk. */
  method ConcatChunks(chunks: seq<Bytes>) returns (out: array<Byte>)
    ensures fresh(out) && out[..] == Flatten(chunks)
  {
    var total := 0;
    var i := 0;
    FlattenNone(chunks);
    while i < |chunks|
      invariant i <= |chunks| && total == |Flatten(chunks[..i])|
    {
      FlattenNext(chunks, i);
      total := total + |chunks[i]|;
      i := i + 1;
    }
    assert chunks[..|chunks|] == chunks;
    out := new Byte[total]((_: nat) => 0);
    var offset := 0;
    i := 0;
    while i < |chunks|
      invariant i <= |chunks| && offset == |Flatten(chunks[..i])| <= out.Length == |Flatten(chunks)|
      invariant out[..offset] == Flatten(chunks[..i])
    {
      FlattenNext(chunks, i);
      FlattenWhole(chunks, i + 1);
      SetAt(out, offset, chunks[i]);
      offset := offset + |chunks[i]|;
      i := i + 1;
    }
    assert out[..] == out[..offset];
  }

  lemma FlattenNone(chunks: seq<Bytes>) ensures Flatten(chunks[..0]) == [] {}

  lemma FlattenNext(chunks: seq<Bytes>, i: nat)
    requires i < |chunks|
    ensures Flatten(chunks[..i + 1]) == Flatten(chunks[..i]) + chunks[i]
  {
    assert chunks[..i + 1] == chunks[..i] + [chunks[i]];
    FlattenAppend(chunks[..i], [chunks[i]]);
    var one := [chunks[i]];
    assert one[1..] == [];
    assert Flatten(one) == chunks[i] + [];
  }

  lemma FlattenWhole(chunks: seq<Bytes>, i: nat)
    requires i <= |chunks|
    ensures |Flatten(chunks[..i])| <= |Flatten(chunks)|
  {
    assert chunks == chunks[..i] + chunks[i..];
    FlattenAppend(chunks[..i], chunks[i..]);
  }

  lemma RejectNone(outcomes: seq<seq<Outcome>>, execs: map<U32, Exec>)
    ensures Rejecting(outcomes, execs, {}) == outcomes
  {
  }

  /** Every entry belongs to one of `n` promises, its own, and has not been settled yet. */
  predicate OneEach(execs: map<U32, Exec>, n: nat) {
    && (forall id :: id in execs ==> execs[id].promise < n && !execs[id].settled)
    && (forall i, j :: i in execs && j in execs && execs[i].promise == execs[j].promise ==> i == j)
  }

  /** Rejecting one more entry touches its own promise alone. */
  lemma RejectOne(outcomes: seq<seq<Outcome>>, execs: map<U32, Exec>, ids: set<U32>, id: U32)
    requires id in execs && id !in ids && OneEach(execs, |outcomes|)
    ensures execs[id].promise < |outcomes| && !execs[id].settled
    ensures |Rejecting(outcomes, execs, ids)| == |outcomes|
    ensures Rejecting(outcomes, execs, ids + {id}) == Deliver(Rejecting(outcomes, execs, ids), execs[id].promise, Rejected)
  {
    var p := execs[id].promise;
    forall q | 0 <= q < |outcomes| && q != p ensures PendingIn(execs, ids + {id}, q) == PendingIn(execs, ids, q) {
      OtherPromise(execs, ids, id, q);
    }
    assert id in ids + {id};
    assert PendingIn(execs, ids + {id}, p);
    assert !PendingIn(execs, ids, p);
  }

  lemma OtherPromise(execs: map<U32, Exec>, ids: set<U32>, id: U32, q: nat)
    requires id in execs && execs[id].promise != q
    ensures PendingIn(execs, ids + {id}, q) == PendingIn(execs, ids, q)
  {
    if i :| i in ids && i in execs && execs[i].promise == q && !execs[i].settled { assert i in ids + {id}; }
  }

  lemma NoneEach(n: nat) ensures OneEach(map[], n) {}

  lemma NoneSettled(execs: map<U32, Exec>, n: nat)
    requires OneEach(execs, n)
    ensures forall id :: id in execs ==> !execs[id].settled
  {
  }

  lemma UpdateKeepsEach(execs: map<U32, Exec>, n: nat, id: U32, e: Exec)
    requires OneEach(execs, n) && id in execs && e.promise == execs[id].promise && e.settled == execs[id].settled
    ensures OneEach(execs[id := e], n)
  {
  }

  class SshClient {
    var execs: map<U32, Exec>
    var outcomes: seq<seq<Outcome>>
    var closed: bool
    var closes: nat

    ghost function State(): Client
      reads this
    {
      Client(execs, outcomes, closed, closes)
    }

    ghost predicate Valid()
      reads this
    {
      OneEach(execs, |outcomes|)
    }

    constructor ()
      ensures Valid() && State() == FRESH
    {
      execs, outcomes := map[], [];
      closed, closes := false, 0;
    }

    method Settle(promise: nat, o: Outcome)
      requires promise < |outcomes|
      modifies this`outcomes
      ensures outcomes == Deliver(old(outcomes), promise, o)
    {
      outcomes := outcomes[promise := outcomes[promise] + [o]];
    }

    /** `exec()`, the engine having chosen `id`; returns the new promise. */
    method Run(id: U32) returns (promise: nat)
      requires Valid()
      modifies this
      ensures Valid() && promise == |old(outcomes)| && State() == Step(old(State()), Call.Run(id))
    {
      promise := |outcomes|;
      if closed {
        outcomes := outcomes + [[Rejected]];
        return;
      }
      outcomes := outcomes + [[]];
      execs := execs[id := Exec(promise, [], [], None, None, false)];
    }

    /** `shutdown`: its loop over the map settles each entry once. */
    method ShutDown()
      requires Valid()
      modifies this
      ensures Valid() && State() == Shutdown(old(State()))
    {
      hide Rejecting, OneEach;
      ghost var all, first := execs, outcomes;
      NoneEach(|outcomes|);
      var left := execs.Keys;
      RejectNone(first, all);
      assert all.Keys - left == {};
      while left != {}
        invariant left <= all.Keys && execs == all && closed == old(closed) && closes == old(closes)
        invariant outcomes == Rejecting(first, all, all.Keys - left) && |outcomes| == |first|
        decreases |left|
      {
        var id :| id in left;
        RejectOne(first, all, all.Keys - left, id);
        assert (all.Keys - left) + {id} == all.Keys - (left - {id});
        if !execs[id].settled {
          Settle(execs[id].promise, Rejected);
        }
        left := left - {id};
      }
      assert all.Keys - left == all.Keys;
      execs := map[];
      if !closed {
        closed := true;
        closes := closes + 1;
      }
    }

    method Resolve(e: Exec)
      requires e.promise < |outcomes|
      modifies this`outcomes
      ensures outcomes == Deliver(old(outcomes), e.promise, ResultOf(e))
    {
      var stdout := ConcatChunks(e.stdout);
      var stderr := ConcatChunks(e.stderr);
      Settle(e.promise, Resolved(stdout[..], stderr[..], e.exitCode, e.exitSignal));
    }

    /** The channel never opened. */
    method FailExec(id: U32)
      requires Valid()
      modifies this`execs, this`outcomes
      ensures Valid() && execs == old(execs) - {id}
      ensures outcomes == if id in old(execs) then Deliver(old(outcomes), old(execs)[id].promise, Rejected) else old(outcomes)
    {
      if id in execs {
        Settle(execs[id].promise, Rejected);
      }
      execs := execs - {id};
    }

    /** The channel has closed: resolve with everything gathered. */
    method CloseExec(id: U32)
      requires Valid()
      modifies this`execs, this`outcomes
      ensures Valid() && execs == old(execs) - {id}
      ensures outcomes == if id in old(execs) then Deliver(old(outcomes), old(execs)[id].promise, ResultOf(old(execs)[id]))
                          else old(outcomes)
    {
      hide ResultOf;
      if id in execs && !execs[id].settled {
        Resolve(execs[id]);
      }
      execs := execs - {id};
    }

    method HandleEvent(event: Event)
      requires Valid()
      modifies this
      ensures Valid() && State() == Step(old(State()), Handle(event))
    {
      hide Shutdown, ResultOf, Heard, OneEach;
      match event
      case ChannelOpenFailed(id, _, _) =>
        FailExec(id);
      case ChannelData(id, stream, data) =>
        if id in execs {
          HeardKeeps(execs[id], stream, data);
          UpdateKeepsEach(execs, |outcomes|, id, Heard(execs[id], stream, data));
          execs := execs[id := Heard(execs[id], stream, data)];
        }
      case ChannelExitStatus(id, code, signal) =>
        if id in execs {
          UpdateKeepsEach(execs, |outcomes|, id, execs[id].(exitCode := code, exitSignal := signal));
          execs := execs[id := execs[id].(exitCode := code, exitSignal := signal)];
        }
      case ChannelClosed(id) =>
        NoneSettled(execs, |outcomes|);
        CloseExec(id);
      case Disconnected(_, _) =>
        ShutDown();
      case Unrecoverable(_) =>
        ShutDown();
      case _ =>
    }
  }
}
