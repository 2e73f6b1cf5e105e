/**
  `SshClient` on top of the session engine: the ids that `exec()` gets are the engine's, and the events it
  handles are the ones the engine raised, in order. Host calls, `exec()` calls and polls may come in any
  order.
 */
module ExecSession {
  import opened Prelude
  import opened Primitives
  import opened Events
  import opened ChannelLedgers
  import opened ChannelRuns
  import M = SessionModel
  import C = ExecClient
  import Channel
  import ChannelSetup
  import Connection
  import SessionRuns
  import SessionTrace
  import Wire

  /** An engine call other than `open_exec`, an `exec()`, handling the next event if there is one, or one of
      the other ways in which the client shuts down. */
  datatype Move = Engine(input: M.Input) | Exec(command: Bytes) | Poll | GiveUp

  /** The engine calls made, the events handled, and what the client's bookkeeping has been told. */
  datatype Work = Work(inputs: seq<M.Input>, polled: nat, calls: seq<C.Call>)

  function EngineOf(c: Suite, w: Work): M.State { M.Run(c, M.START, w.inputs).core }

  /** A closed client rejects an `exec()` without calling the engine. */
  function Step(c: Suite, w: Work, m: Move): Work {
    match m
    case Engine(i) => if i.Exec? then w else w.(inputs := w.inputs + [i])
    case Exec(command) =>
      if C.Ended(w.calls) then w.(calls := w.calls + [C.Run(0)])
      else Work(w.inputs + [M.Exec(command)], w.polled, w.calls + [C.Run(EngineOf(c, w).conn.nextId)])
    case Poll =>
      var events := EngineOf(c, w).events;
      if w.polled < |events| then w.(polled := w.polled + 1, calls := w.calls + [C.Handle(events[w.polled])]) else w
    case GiveUp => w.(calls := w.calls + [C.Abort])
  }

  function After(c: Suite, moves: seq<Move>): Work {
    if moves == [] then Work([], 0, []) else Step(c, After(c, moves[..|moves| - 1]), moves[|moves| - 1])
  }

  /** How many channels a run opens. */
  function Opens(inputs: seq<M.Input>): nat {
    if inputs == [] then 0
    else (if inputs[0].Exec? || inputs[0].Shell? then 1 else 0) + Opens(inputs[1..])
  }

  // ---- ids the engine gives out ----------------------------------------------------------------------------

  function OpensIn(actions: seq<Action>): nat {
    if actions == [] then 0
    else (if actions[0].HostExec? || actions[0].HostShell? then 1 else 0) + OpensIn(actions[1..])
  }

  lemma {:induction false} OpensInAppend(a: seq<Action>, b: seq<Action>)
    ensures OpensIn(a + b) == OpensIn(a) + OpensIn(b)
  {
    if a == [] {
      assert a + b == b;
    } else {
      assert (a + b)[1..] == a[1..] + b;
      OpensInAppend(a[1..], b);
    }
  }

  lemma {:induction false} HeardOpensNothing(payloads: seq<Bytes>)
    ensures OpensIn(HeardActions(payloads)) == 0
  {
    if payloads != [] {
      var p := payloads[0];
      HeardOpensNothing(payloads[1..]);
      OpensInAppend(HeardActions(payloads[..1]), HeardActions(payloads[1..]));
      var first := if |p| > 0 && Connection.IsChannelMessage(p[0]) then [Message(p[0], p[1..])] else [];
      OpensInAppend(first, HeardActions(payloads[1..]));
      assert first != [] ==> first[1..] == [];
    }
  }

  lemma CallOpens(i: M.Input)
    ensures OpensIn(CallActions(i)) == if i.Exec? || i.Shell? then 1 else 0
  {
    assert |CallActions(i)| == 1 ==> CallActions(i)[1..] == [];
  }

  lemma {:induction false} RunOpens(c: Suite, x: M.Session, inputs: seq<M.Input>)
    requires M.Run(c, x, inputs).core.phase != M.Halted
    ensures OpensIn(RunActions(c, x, inputs)) == Opens(inputs)
    decreases |inputs|
  {
    hide M.Do, HeardActions, CallActions, OpensIn;
    if inputs == [] {
      NoActions();
    } else {
      var i := inputs[0];
      if x.core.phase == M.Halted { HaltedStays(c, x, inputs); }
      var heard := HeardActions(SessionTrace.DoHears(c, x, i));
      HeardOpensNothing(SessionTrace.DoHears(c, x, i));
      CallOpens(i);
      OpensInAppend(heard, CallActions(i));
      OpensInAppend(heard + CallActions(i), RunActions(c, M.Do(c, x, i), inputs[1..]));
      RunOpens(c, M.Do(c, x, i), inputs[1..]);
    }
  }

  lemma NoActions() ensures OpensIn([]) == 0 {}

  lemma {:induction false} HaltedStays(c: Suite, x: M.Session, inputs: seq<M.Input>)
    requires x.core.phase == M.Halted
    ensures M.Run(c, x, inputs) == x
    decreases |inputs|
  {
    if inputs != [] { HaltedStays(c, x, inputs[1..]); }
  }

  /** What `n` opened channels leave behind: ids below n, in the table and in what is raised about data and
      exits. */
  predicate Below(l: Ledger, n: nat) {
    && l.conn.nextId == n % U32_LIMIT
    && (forall id :: id in l.conn.channels ==> id < n)
    && (forall i :: 0 <= i < |l.events| ==> AboutBelow(l.events[i], n))
  }

  predicate AboutBelow(e: Event, n: nat) { e.ChannelData? || e.ChannelExitStatus? ==> e.id < n }

  /** A reaction that gives out no id, and speaks of data and exits of open channels only. */
  ghost predicate KeepsIds(conn: Connection.Conn, r: Connection.Reaction) {
    r.Reacted? ==>
      && r.conn.nextId == conn.nextId
      && forall i :: 0 <= i < |r.events| && (r.events[i].ChannelData? || r.events[i].ChannelExitStatus?) ==>
           r.events[i].id in conn.channels
  }

  lemma DataKeepsIds(conn: Connection.Conn, id: U32, stream: DataStream, data: Bytes)
    ensures KeepsIds(conn, Connection.Deliver(conn, id, stream, data))
  {
    hide Channel.OnDataConsumed, Channel.AdjustMessage;
  }

  lemma SetupKeepsIds(conn: Connection.Conn, id: U32, reply: Option<bool>)
    ensures KeepsIds(conn, Connection.ContinueSetup(conn, id, reply))
  {
    hide Connection.ExecRequest, Connection.PtyRequest, Connection.ShellRequest, Channel.IdMessage,
         Connection.DefaultPty, Ascii;
  }

  lemma RequestKeepsIds(conn: Connection.Conn, rest: Bytes)
    ensures KeepsIds(conn, Connection.OnRequest(conn, rest))
  {
    hide Connection.ParseServerRequest, Wire.GetU32, Wire.GetUtf8, Connection.NameExitStatus, Connection.NameExitSignal,
         Channel.IdMessage;
  }

  lemma ConfirmationKeepsIds(conn: Connection.Conn, rest: Bytes)
    ensures KeepsIds(conn, Connection.OnConfirmationAndSetup(conn, rest))
  {
    hide Connection.ParseConfirmation, Connection.ContinueSetup;
    if Connection.OnConfirmation(conn, rest).Reacted? {
      var m := Connection.ParseConfirmation(rest).value;
      SetupKeepsIds(Connection.OnConfirmation(conn, rest).conn, m.id, None);
    }
  }

  lemma MessageKeepsIds(conn: Connection.Conn, msg: Byte, rest: Bytes)
    requires Connection.IsChannelMessage(msg)
    ensures KeepsIds(conn, Connection.OnMessage(conn, msg, rest))
  {
    hide Connection.ParseIdAndNumber, Wire.GetU32, Connection.ParseIdAndData, Connection.ParseExtended,
         Connection.DescriptionOr, Connection.OnConfirmationAndSetup, Connection.OnRequest, Connection.ContinueSetup,
         Connection.Deliver;
    ConfirmationKeepsIds(conn, rest);
    RequestKeepsIds(conn, rest);
    if (msg == Channel.MSG_CHANNEL_SUCCESS || msg == Channel.MSG_CHANNEL_FAILURE) && Wire.GetU32(rest).Ok? {
      SetupKeepsIds(conn, Wire.GetU32(rest).value.0, Some(msg == Channel.MSG_CHANNEL_SUCCESS));
    } else if msg == Channel.MSG_CHANNEL_DATA && Connection.ParseIdAndData(rest).Ok? {
      DataKeepsIds(conn, Connection.ParseIdAndData(rest).value.0, Stdout, Connection.ParseIdAndData(rest).value.1);
    } else if msg == Channel.MSG_CHANNEL_EXTENDED_DATA && Connection.ParseExtended(rest).Ok? {
      var (id, code, data) := Connection.ParseExtended(rest).value;
      DataKeepsIds(conn, id, Connection.StreamOf(code), data);
    }
  }

  lemma EnterBelow(l: Ledger, a: Action, n: nat)
    requires WellSized(a) && Below(l, n) && n < U32_LIMIT
    ensures Below(Enter(l, a), n + OpensIn([a]))
  {
    hide Connection.OnMessage, Channel.SendData, Channel.OpenMessage, Connection.WindowChangeRequest, Channel.IdMessage;
    assert [a][1..] == [];
    if a.Message? && ReactionTo(l.conn, a).Reacted? {
      MessageKeepsIds(l.conn, a.msg, a.rest);
      ChannelSetup.NoNewChannels(l.conn, a.msg, a.rest);
    }
  }

  lemma {:induction false} EnterAllBelow(l: Ledger, actions: seq<Action>, n: nat)
    requires AllWellSized(actions) && Below(l, n) && n + OpensIn(actions) < U32_LIMIT
    ensures Below(EnterAll(l, actions), n + OpensIn(actions))
    decreases |actions|
  {
    hide Below, Enter;
    if actions != [] {
      EnterBelow(l, actions[0], n);
      assert [actions[0]][1..] == [];
      EnterAllBelow(Enter(l, actions[0]), actions[1..], n + OpensIn([actions[0]]));
    }
  }

  lemma {:induction false} ChannelEventsHold(events: seq<Event>, e: Event)
    requires e in events && IsChannelEvent(e)
    ensures e in ChannelEvents(events)
  {
    if events[0] != e { ChannelEventsHold(events[1..], e); }
  }

  /** After fewer than 2^32 opens and no panic: the next id is the number of channels opened, and nothing has
      been raised about data or exits of any other channel. */
  lemma EngineIds(c: Suite, inputs: seq<M.Input>)
    requires LawfulAead(c) && M.Run(c, M.START, inputs).core.phase != M.Halted && Opens(inputs) < U32_LIMIT
    ensures var s := M.Run(c, M.START, inputs).core;
            && s.conn.nextId == Opens(inputs)
            && forall i :: 0 <= i < |s.events| ==> AboutBelow(s.events[i], Opens(inputs))
  {
    hide M.Run, RunActions, EnterAll, LawfulAead, OpensIn, Opens;
    var s, actions := M.Run(c, M.START, inputs).core, RunActions(c, M.START, inputs);
    SessionIsItsActions(c, inputs);
    RunOpens(c, M.START, inputs);
    EnterAllBelow(BLANK, actions, 0);
    forall i | 0 <= i < |s.events| ensures AboutBelow(s.events[i], Opens(inputs)) {
      if s.events[i].ChannelData? || s.events[i].ChannelExitStatus? { ChannelEventsHold(s.events, s.events[i]); }
    }
  }

  // ---- what the client is told ---------------------------------------------------------------------------------

  /** The events among the calls. */
  function Handled(calls: seq<C.Call>): seq<Event> {
    if calls == [] then [] else (if calls[0].Handle? then [calls[0].event] else []) + Handled(calls[1..])
  }

  function Handles(events: seq<Event>): seq<C.Call> {
    if events == [] then [] else [C.Handle(events[0])] + Handles(events[1..])
  }

  lemma {:induction false} HandledAppend(a: seq<C.Call>, b: seq<C.Call>)
    ensures Handled(a + b) == Handled(a) + Handled(b)
  {
    if a == [] {
      assert a + b == b;
    } else {
      assert (a + b)[1..] == a[1..] + b;
      HandledAppend(a[1..], b);
      var first, x, y := if a[0].Handle? then [a[0].event] else [], Handled(a[1..]), Handled(b);
      assert first + (x + y) == (first + x) + y;
    }
  }

  lemma {:induction false} HandlesAppend(a: seq<Event>, b: seq<Event>)
    ensures Handles(a + b) == Handles(a) + Handles(b)
  {
    if a == [] {
      assert a + b == b;
    } else {
      assert (a + b)[1..] == a[1..] + b;
      HandlesAppend(a[1..], b);
      var first, x, y := [C.Handle(a[0])], Handles(a[1..]), Handles(b);
      assert first + (x + y) == (first + x) + y;
    }
  }

  lemma HandledOne(call: C.Call)
    ensures Handled([call]) == if call.Handle? then [call.event] else []
  {
    assert [call][1..] == [];
  }

  /** Only the events among the calls say anything about a channel's output. */
  lemma {:induction false} OnlyEventsTell(calls: seq<C.Call>, id: U32, before: (Option<U32>, Option<Bytes>))
    ensures C.DataOf(calls, id, Stdout) == C.DataOf(Handles(Handled(calls)), id, Stdout)
    ensures C.DataOf(calls, id, Stderr) == C.DataOf(Handles(Handled(calls)), id, Stderr)
    ensures C.ExitOf(before, calls, id) == C.ExitOf(before, Handles(Handled(calls)), id)
    decreases |calls|
  {
    hide C.IfData, C.IfExit;
    if calls != [] {
      OnlyEventsTell(calls[1..], id, C.IfExit(before, calls[0], id));
      var told := Handles(Handled(calls));
      if calls[0].Handle? {
        assert Handled(calls)[0] == calls[0].event && Handled(calls)[1..] == Handled(calls[1..]);
        assert told[0] == calls[0] && told[1..] == Handles(Handled(calls[1..]));
      } else {
        assert Handled(calls) == Handled(calls[1..]);
        OthersTellNothing(calls[0], id, before);
      }
    }
  }

  lemma OthersTellNothing(call: C.Call, id: U32, before: (Option<U32>, Option<Bytes>))
    requires call.Handle? ==> NothingAbout([call.event], id)
    ensures C.IfData(call, id, Stdout) == [] && C.IfData(call, id, Stderr) == [] && C.IfExit(before, call, id) == before
  {
    assert call.Handle? ==> [call.event][0] == call.event;
  }

  predicate NothingAbout(events: seq<Event>, id: U32) {
    forall i :: 0 <= i < |events| && (events[i].ChannelData? || events[i].ChannelExitStatus?) ==> events[i].id != id
  }

  lemma {:induction false} SkipOthers(a: seq<Event>, b: seq<Event>, id: U32)
    requires NothingAbout(a, id)
    ensures C.ResultFrom(Handles(a + b), id) == C.ResultFrom(Handles(b), id)
  {
    hide C.IfData, C.IfExit, Flatten;
    if a == [] {
      assert a + b == b;
    } else {
      assert (a + b)[1..] == a[1..] + b;
      var told := Handles(a + b);
      assert told[0] == C.Handle(a[0]) && told[1..] == Handles(a[1..] + b);
      forall i | 0 <= i < |a[1..]| && (a[1..][i].ChannelData? || a[1..][i].ChannelExitStatus?) ensures a[1..][i].id != id {
        assert a[1..][i] == a[i + 1];
      }
      SkipOthers(a[1..], b, id);
      OthersTellNothing(told[0], id, (None, None));
      assert C.DataOf(told, id, Stdout) == C.DataOf(told[1..], id, Stdout);
      assert C.DataOf(told, id, Stderr) == C.DataOf(told[1..], id, Stderr);
    }
  }

  // ---- what holds of every run ---------------------------------------------------------------------------------------

  /** An `exec()` that reached the engine got an id that had been given to no channel before, and that nothing
      handled so far was about. */
  predicate FreshIds(calls: seq<C.Call>, n: nat) {
    forall k :: 0 <= k < |calls| && calls[k].Run? && !C.Ended(calls[..k]) ==>
      calls[k].id < n && NothingAbout(Handled(calls[..k]), calls[k].id)
  }

  ghost predicate Sane(c: Suite, w: Work) {
    && w.polled <= |EngineOf(c, w).events| && Handled(w.calls) == EngineOf(c, w).events[..w.polled]
    && FreshIds(w.calls, Opens(w.inputs))
    && C.DistinctIds(w.calls)
  }

  lemma {:induction false} OpensAppend(a: seq<M.Input>, b: seq<M.Input>)
    ensures Opens(a + b) == Opens(a) + Opens(b)
  {
    if a == [] {
      assert a + b == b;
    } else {
      assert (a + b)[1..] == a[1..] + b;
      OpensAppend(a[1..], b);
    }
  }

  lemma OpensOne(i: M.Input)
    ensures Opens([i]) == if i.Exec? || i.Shell? then 1 else 0
  {
    assert [i][1..] == [];
  }

  lemma MoreFresh(calls: seq<C.Call>, n: nat, call: C.Call, n': nat)
    requires FreshIds(calls, n) && n <= n'
    requires call.Run? && !C.Ended(calls) ==> call.id < n' && NothingAbout(Handled(calls), call.id)
    ensures FreshIds(calls + [call], n')
  {
    hide Handled, NothingAbout, C.Ended;
    var more := calls + [call];
    forall k | 0 <= k < |more| && more[k].Run? && !C.Ended(more[..k])
      ensures more[k].id < n' && NothingAbout(Handled(more[..k]), more[k].id)
    {
      assert more[..k] == calls[..k];
      if k == |calls| { assert calls[..k] == calls; }
    }
  }

  lemma MoreDistinct(calls: seq<C.Call>, n: nat, call: C.Call)
    requires FreshIds(calls, n) && C.DistinctIds(calls)
    requires call.Run? && !C.Ended(calls) ==> call.id >= n
    ensures C.DistinctIds(calls + [call])
  {
    hide Handled, NothingAbout;
    var more := calls + [call];
    forall i, j | 0 <= i < j < |more| && more[i].Run? && more[j].Run? && !C.Ended(more[..j]) ensures more[i].id != more[j].id {
      assert more[..j] == calls[..j];
      if j == |calls| {
        assert calls[..j] == calls;
        NotEndedBefore(calls, i);
      }
    }
  }

  lemma NotEndedBefore(calls: seq<C.Call>, i: nat)
    requires i <= |calls| && !C.Ended(calls)
    ensures !C.Ended(calls[..i])
  {
    forall call | call in calls[..i] ensures !C.Ends(call) { assert call in calls; }
  }

  /** An engine that has not panicked had not before, and has only raised more. */
  lemma EngineGrows(c: Suite, inputs: seq<M.Input>, i: M.Input)
    requires LawfulAead(c) && M.Run(c, M.START, inputs + [i]).core.phase != M.Halted
    ensures M.Run(c, M.START, inputs).core.phase != M.Halted
    ensures M.Run(c, M.START, inputs).core.events <= M.Run(c, M.START, inputs + [i]).core.events
  {
    hide M.Run, LawfulAead;
    SessionRuns.RunAppend(c, M.START, inputs, [i]);
    SessionRuns.RunsOnlyGrow(c, inputs, [i]);
    if M.Run(c, M.START, inputs).core.phase == M.Halted { HaltedStays(c, M.Run(c, M.START, inputs), [i]); }
  }

  lemma StepSane(c: Suite, w: Work, m: Move)
    requires LawfulAead(c) && Sane(c, w)
    requires EngineOf(c, Step(c, w, m)).phase != M.Halted && Opens(Step(c, w, m).inputs) < U32_LIMIT
    ensures EngineOf(c, w).phase != M.Halted && Opens(w.inputs) < U32_LIMIT && Sane(c, Step(c, w, m))
  {
    hide M.Run, LawfulAead, Opens, Handled, FreshIds, C.DistinctIds, C.Ended, NothingAbout, AboutBelow;
    match m
    case Engine(i) =>
      if !i.Exec? {
        EngineGrows(c, w.inputs, i);
        OpensAppend(w.inputs, [i]);
        WiderFresh(w.calls, Opens(w.inputs), Opens(w.inputs + [i]));
      }
    case Exec(command) =>
      var call := if C.Ended(w.calls) then C.Run(0) else C.Run(EngineOf(c, w).conn.nextId);
      var n := if C.Ended(w.calls) then Opens(w.inputs) else Opens(w.inputs) + 1;
      if !C.Ended(w.calls) {
        EngineGrows(c, w.inputs, M.Exec(command));
        OpensAppend(w.inputs, [M.Exec(command)]);
        OpensOne(M.Exec(command));
        EngineIds(c, w.inputs);
        NothingYet(EngineOf(c, w).events, w.polled, Opens(w.inputs));
      }
      SameEvents(w.calls, call);
      MoreFresh(w.calls, Opens(w.inputs), call, n);
      MoreDistinct(w.calls, Opens(w.inputs), call);
    case Poll =>
      var events := EngineOf(c, w).events;
      if w.polled < |events| {
        var call := C.Handle(events[w.polled]);
        HandledAppend(w.calls, [call]);
        HandledOne(call);
        assert events[..w.polled] + [events[w.polled]] == events[..w.polled + 1];
        MoreFresh(w.calls, Opens(w.inputs), call, Opens(w.inputs));
        MoreDistinct(w.calls, Opens(w.inputs), call);
      }
    case GiveUp =>
      SameEvents(w.calls, C.Abort);
      MoreFresh(w.calls, Opens(w.inputs), C.Abort, Opens(w.inputs));
      MoreDistinct(w.calls, Opens(w.inputs), C.Abort);
  }

  lemma SameEvents(calls: seq<C.Call>, call: C.Call)
    requires !call.Handle?
    ensures Handled(calls + [call]) == Handled(calls)
  {
    HandledAppend(calls, [call]);
    HandledOne(call);
  }

  lemma WiderFresh(calls: seq<C.Call>, n: nat, n': nat)
    requires FreshIds(calls, n) && n <= n'
    ensures FreshIds(calls, n')
  {
    hide Handled, NothingAbout, C.Ended;
  }

  lemma NothingYet(events: seq<Event>, polled: nat, n: U32)
    requires polled <= |events| && forall i :: 0 <= i < |events| ==> AboutBelow(events[i], n)
    ensures NothingAbout(events[..polled], n)
  {
  }

  lemma {:induction false} RunsAreSane(c: Suite, moves: seq<Move>)
    requires LawfulAead(c)
    requires EngineOf(c, After(c, moves)).phase != M.Halted && Opens(After(c, moves).inputs) < U32_LIMIT
    ensures Sane(c, After(c, moves))
    decreases |moves|
  {
    hide LawfulAead, Sane, Step, EngineOf, Opens;
    if moves == [] {
      NothingDone(c);
    } else {
      var w := After(c, moves[..|moves| - 1]);
      StepNotHalted(c, w, moves[|moves| - 1]);
      RunsAreSane(c, moves[..|moves| - 1]);
      StepSane(c, w, moves[|moves| - 1]);
    }
  }

  lemma StepNotHalted(c: Suite, w: Work, m: Move)
    requires LawfulAead(c) && EngineOf(c, Step(c, w, m)).phase != M.Halted && Opens(Step(c, w, m).inputs) < U32_LIMIT
    ensures EngineOf(c, w).phase != M.Halted && Opens(w.inputs) < U32_LIMIT
  {
    hide M.Run, LawfulAead, Opens;
    var inputs := Step(c, w, m).inputs;
    if inputs != w.inputs {
      assert inputs == w.inputs + [inputs[|w.inputs|]];
      EngineGrows(c, w.inputs, inputs[|w.inputs|]);
      OpensAppend(w.inputs, [inputs[|w.inputs|]]);
    }
  }

  lemma NothingDone(c: Suite)
    ensures Sane(c, Work([], 0, []))
  {
  }

  // ---- what a caller can rely on ---------------------------------------------------------------------------------------

  /** With fewer than 2^32 channels and no panic, however engine calls, `exec()` calls and polls are
      interleaved: once the client is closed every promise has been settled exactly once. */
  lemma NonePending(c: Suite, moves: seq<Move>)
    requires LawfulAead(c)
    requires EngineOf(c, After(c, moves)).phase != M.Halted && Opens(After(c, moves).inputs) < U32_LIMIT
    requires C.After(After(c, moves).calls).closed
    ensures var outcomes := C.After(After(c, moves).calls).outcomes;
            forall p :: 0 <= p < |outcomes| ==> |outcomes[p]| == 1
  {
    hide LawfulAead, After, EngineOf, Opens, C.After, Handled, FreshIds, C.DistinctIds;
    RunsAreSane(c, moves);
    C.ClosedMeansNonePending(After(c, moves).calls);
  }

  /** And a result is all that the engine has raised about its channel: if promise `p` has resolved with `o`,
      then the engine raised the close of the channel it was created for, and `o` is the in-order
      concatenation, stream by stream, of all data the engine ever raised for that channel up to its close,
      with the last exit report. */
  lemma ResultIsWhatWasRaised(c: Suite, moves: seq<Move>, p: nat, o: C.Outcome) returns (i: nat, id: U32, b: nat)
    requires LawfulAead(c)
    requires EngineOf(c, After(c, moves)).phase != M.Halted && Opens(After(c, moves).inputs) < U32_LIMIT
    requires p < |C.After(After(c, moves).calls).outcomes| && C.After(After(c, moves).calls).outcomes[p] == [o] && o.Resolved?
    ensures C.Creates(After(c, moves).calls, i, p, id)
    ensures var events := EngineOf(c, After(c, moves)).events;
            b < |events| && events[b] == ChannelClosed(id) && o == C.ResultFrom(Handles(events[..b]), id)
  {
    hide LawfulAead, After, EngineOf, Opens, C.After, Handled, FreshIds, C.DistinctIds, C.Creates, C.ResultFrom, C.Ended,
         C.Decides;
    RunsAreSane(c, moves);
    var w := After(c, moves);
    C.ResultIsChannelOutput(w.calls, p, o);
    var i': nat, j: nat, id': U32 :|
      C.DecidedBy(w.calls, p, i', j, id', C.Handle(ChannelClosed(id'))) && o == C.ResultFrom(w.calls[i' + 1..j], id');
    i, id := i', id';
    CreatesAt(w.calls, i, j, p, id);
    b := CloseRaised(w.calls, i, j, id, Opens(w.inputs));
    assert Handled(w.calls)[..b + 1] == EngineOf(c, w).events[..b + 1];
    assert EngineOf(c, w).events[..b] == Handled(w.calls)[..b];
    assert EngineOf(c, w).events[b] == Handled(w.calls)[b];
  }

  lemma CreatesAt(calls: seq<C.Call>, i: nat, j: nat, p: nat, id: U32)
    requires C.Creates(calls, i, p, id) && C.WaitsUntil(calls, i, j, id)
    ensures i < j <= |calls| && calls[i] == C.Run(id) && !C.Ended(calls[..i])
  {
  }

  /** Between `exec()` at `i` and the close at `j` the client hears all there is about the channel. */
  lemma CloseRaised(calls: seq<C.Call>, i: nat, j: nat, id: U32, n: nat) returns (b: nat)
    requires i < j < |calls| && calls[i] == C.Run(id) && calls[j] == C.Handle(ChannelClosed(id))
    requires FreshIds(calls, n) && !C.Ended(calls[..i])
    ensures b < |Handled(calls)| && Handled(calls)[b] == ChannelClosed(id)
    ensures C.ResultFrom(Handles(Handled(calls)[..b]), id) == C.ResultFrom(calls[i + 1..j], id)
  {
    hide Handled, Handles, C.Ended, NothingAbout, C.ResultFrom;
    var before, between, after := calls[..i], calls[i + 1..j], calls[j + 1..];
    assert calls == (before + [calls[i]]) + (between + ([calls[j]] + after));
    SameEvents(before, calls[i]);
    HandledAppend(before + [calls[i]], between + ([calls[j]] + after));
    HandledAppend(between, [calls[j]] + after);
    HandledAppend([calls[j]], after);
    HandledOne(calls[j]);
    var first := Handled(before) + Handled(between);
    b := |first|;
    assert Handled(calls) == first + ([ChannelClosed(id)] + Handled(after));
    assert Handled(calls)[..b] == first;
    SkipOthers(Handled(before), Handled(between), id);
    SameResult(between, id);
  }

  lemma SameResult(calls: seq<C.Call>, id: U32)
    ensures C.ResultFrom(calls, id) == C.ResultFrom(Handles(Handled(calls)), id)
  {
    hide C.DataOf, C.ExitOf, Handles, Handled;
    OnlyEventsTell(calls, id, (None, None));
  }
}
