/** What a session has been told: the payloads it opened and dispatched, in order, over whole runs. */
module SessionTrace {
  import opened Prelude
  import opened Primitives
  import opened Packet
  import opened SessionModel

  /** The payload that one turn opens, if it opens one. */
  function TurnHears(c: Suite, s: State, buf: Bytes): seq<Bytes> {
    if s.phase == VersionExchange then []
    else match NextFrame(c, s.kex.sc, buf) case Got(_, _, payload) => [payload] case _ => []
  }

  function DriveHears(c: Suite, s: State, buf: Bytes): seq<Bytes>
    decreases |buf|, if Over(s.phase) then 0 else 1
  {
    if Idle(s.phase) then []
    else
      match Turn(c, s, buf)
      case None => []
      case Some((n, s')) => TurnHears(c, s, buf) + DriveHears(c, s', buf[n..])
  }

  /** Everything opened during one call: while feeding, or when an accepted host key lets buffered
      packets through. */
  function DoHears(c: Suite, x: Session, i: Input): seq<Bytes> {
    if x.core.phase == Halted then []
    else
      match i
      case FeedIncoming(b) => DriveHears(c, x.core, x.incoming + b)
      case ProvideHostKeyDecision(accept) =>
        if x.core.phase == AwaitingHostKeyDecision && accept then DriveHears(c, Accepted(c, x.core), x.incoming) else []
      case _ => []
  }

  function RunHears(c: Suite, x: Session, inputs: seq<Input>): seq<Bytes>
    decreases |inputs|
  {
    if inputs == [] then [] else DoHears(c, x, inputs[0]) + RunHears(c, Do(c, x, inputs[0]), inputs[1..])
  }

  lemma DriveHearsTurn(c: Suite, s: State, buf: Bytes)
    ensures Idle(s.phase) || Turn(c, s, buf).None? ==> Drive(c, s, buf) == Session(s, buf) && DriveHears(c, s, buf) == []
    ensures !Idle(s.phase) && Turn(c, s, buf).Some? ==>
              var (n, s') := Turn(c, s, buf).value;
              && Drive(c, s, buf) == Drive(c, s', buf[n..])
              && DriveHears(c, s, buf) == TurnHears(c, s, buf) + DriveHears(c, s', buf[n..])
  {
    hide Turn, TurnHears;
  }

  /** A call that opens nothing. */
  lemma QuietCall(c: Suite, x: Session, i: Input)
    requires !i.FeedIncoming? && !i.ProvideHostKeyDecision?
    ensures DoHears(c, x, i) == []
  {
  }
}
