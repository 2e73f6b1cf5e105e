/**
  `FakeServer` as it runs: fields updated in place, a loop over its input buffer that collects what
  each step produces. Every method is proved to do what the function of the same name in the module
  `FakeServer` says; a panic is a method that ends with `phase == Trapped`.
 */
module TestServer {
  import opened Prelude
  import opened Primitives
  import opened Wire
  import opened Packet
  import opened PacketStream
  import opened PacketCipher
  import F = FakeServer
  import M = SessionModel
  import Ident
  import KexInit
  import Exchange
  import Auth
  import Channel
  import Connection

  /** `Option<Vec<u8>>` of one step, or a panic. */
  datatype StepResult = NoMore | More(bytes: Bytes) | Panics

  class TestServer {
    const suite: Suite
    const cfg: F.Config
    const rng: Rng

    var phase: F.ServerPhase
    var incoming: Bytes
    var peerIdentLine: Bytes
    var ownKexinitPayload: Bytes
    var peerKexinitPayload: Bytes
    var sessionId: Bytes
    var csCipher: Option<Cipher>
    var csCipherPending: Option<Cipher>
    var scCipher: Option<Cipher>
    var lastExecCommand: Option<Bytes>

    ghost var sent: seq<M.Sent>

    ghost predicate Valid() { rng.suite == F.Seeded(suite, cfg) }

    ghost function Core(): F.Server
      reads this, rng
    {
      F.Server(phase, M.Out(rng.drawn, sent, scCipher), peerIdentLine, ownKexinitPayload, peerKexinitPayload, sessionId,
               csCipher, csCipherPending, lastExecCommand)
    }

    /** What has been sent since `before`, as bytes. */
    ghost predicate Produced(before: seq<M.Sent>, out: Bytes)
      reads this
    {
      before <= sent && out == M.Render(suite, sent[|before|..])
    }

    /** A handler: a panic, or the model's new state and exactly the bytes it sent. */
    ghost predicate Answered(before: seq<M.Sent>, r: Option<Bytes>, v: Option<F.Server>)
      reads this, rng
    {
      match v
      case None => r == None
      case Some(after) => r.Some? && Core() == after && Produced(before, r.value)
    }

    constructor (suite: Suite, cfg: F.Config)
      ensures Valid() && this.suite == suite && this.cfg == cfg && Core() == F.NewServer() && incoming == [] && fresh(rng)
    {
      this.suite, this.cfg := suite, cfg;
      rng := new Rng(F.Seeded(suite, cfg));
      phase := F.AwaitingIdent;
      incoming, peerIdentLine, ownKexinitPayload, peerKexinitPayload, sessionId := [], [], [], [], [];
      csCipher, csCipherPending, scCipher, lastExecCommand := None, None, None, None;
      sent := [M.Line(F.IdentLine())];
    }

    /** The identification line, sent as soon as the server exists. */
    method InitialOutgoing() returns (out: Bytes)
      ensures out == M.Render(suite, F.NewServer().out.sent)
    {
      hide F.ServerIdent;
      out := F.ServerIdent() + [Ident.CR, Ident.LF];
      assert F.NewServer().out.sent[1..] == [];
    }

    // ---- sealing -----------------------------------------------------------------------------------

    static lemma OneMore(c: Suite, before: seq<M.Sent>, item: M.Sent)
      ensures (before + [item])[|before|..] == [item]
      ensures M.Render(c, [item]) == M.WireOf(c, item)
    {
      assert [item][1..] == [];
    }

    method SealPlain(payload: Bytes) returns (wire: Bytes)
      requires Valid()
      modifies this`sent, rng
      ensures M.Out(rng.drawn, sent, scCipher) == M.SendPlain(rng.suite, old(M.Out(rng.drawn, sent, scCipher)), payload)
      ensures Produced(old(sent), wire)
    {
      hide M.Render, SealWire, PadFor;
      var pad := PadFor(None, |payload|);
      var padding := rng.Fill(pad);
      wire := SealWire(suite, None, payload, padding);
      OneMore(suite, sent, M.Sealed(None, payload, padding));
      sent := sent + [M.Sealed(None, payload, padding)];
    }

    method Seal(payload: Bytes) returns (wire: Bytes)
      requires Valid()
      modifies this`sent, this`scCipher, rng
      ensures M.Out(rng.drawn, sent, scCipher) == M.SendPlainOrCiphered(rng.suite, old(M.Out(rng.drawn, sent, scCipher)), payload)
      ensures Produced(old(sent), wire)
    {
      hide M.Render, SealWire, PadFor, AdvanceOpt;
      var pad := PadFor(scCipher, |payload|);
      var padding := rng.Fill(pad);
      wire := SealWire(suite, scCipher, payload, padding);
      OneMore(suite, sent, M.Sealed(scCipher, payload, padding));
      sent := sent + [M.Sealed(scCipher, payload, padding)];
      scCipher := AdvanceOpt(scCipher);
    }

    static lemma Joined(c: Suite, a: seq<M.Sent>, b: seq<M.Sent>, d: seq<M.Sent>)
      requires a <= b <= d
      ensures M.Render(c, d[|a|..]) == M.Render(c, b[|a|..]) + M.Render(c, d[|b|..])
    {
      M.RenderAppend(c, b[|a|..], d[|b|..]);
      assert d[|a|..] == b[|a|..] + d[|b|..];
    }

    /** Seal every reply in turn. */
    method SealReplies(replies: seq<F.Reply>) returns (out: Bytes)
      requires Valid()
      modifies this`sent, this`scCipher, rng
      ensures M.Out(rng.drawn, sent, scCipher) == F.SealReplies(suite, cfg, old(M.Out(rng.drawn, sent, scCipher)), replies)
      ensures Produced(old(sent), out)
    {
      hide M.Render, M.SendPlainOrCiphered, F.Encode;
      out := [];
      var i := 0;
      assert replies[0..] == replies;
      assert sent[|sent|..] == [];
      RenderNothing(suite);
      while i < |replies|
        invariant i <= |replies| && Produced(old(sent), out)
        invariant F.SealReplies(suite, cfg, old(M.Out(rng.drawn, sent, scCipher)), replies)
               == F.SealReplies(suite, cfg, M.Out(rng.drawn, sent, scCipher), replies[i..])
      {
        assert replies[i..][1..] == replies[i + 1..];
        ghost var before := sent;
        var wire := Seal(F.Encode(cfg, replies[i]));
        Joined(suite, old(sent), before, sent);
        out := out + wire;
        i := i + 1;
      }
    }

    static lemma RenderNothing(c: Suite) ensures M.Render(c, []) == [] {}

    // ---- handlers ----------------------------------------------------------------------------------------

    method HandleKexinit(payload: Bytes) returns (out: Option<Bytes>)
      requires Valid()
      modifies this, rng
      ensures incoming == old(incoming) && Answered(old(sent), out, Some(F.OnKexinit(suite, cfg, old(Core()), payload)))
    {
      hide M.Render, M.SendPlain, KexInit.Payload, KexInit.Ours, Draw;
      peerKexinitPayload := payload;
      var cookie := rng.Fill(16);
      ownKexinitPayload := KexInit.Payload(KexInit.Ours(cookie));
      phase := F.AwaitingKexEcdhInit;
      var wire := SealPlain(ownKexinitPayload);
      out := Some(wire);
    }

    method HandleKexEcdhInit(payload: Bytes) returns (out: Option<Bytes>)
      requires Valid()
      modifies this, rng
      ensures incoming == old(incoming) && Answered(old(sent), out, F.OnCurveInit(suite, cfg, old(Core()), payload))
    {
      hide M.Render, M.SendPlain, F.ParseCurveInit, Exchange.CurveHash, Exchange.PutReply, M.DerivePair, Draw,
           F.ServerIdent;
      var qC := F.ParseCurveInit(payload);
      if qC.Err? {
        return None;
      }
      var secret := rng.Fill(32);
      var qS := suite.x25519Public(secret);
      CurveInitSize(payload);
      var shared := suite.x25519Shared(secret, qC.value);
      if shared.None? {
        return None;
      }
      var blob := suite.publicBlob(cfg.hostKey);
      var t := Exchange.Transcript(peerIdentLine, F.ServerIdent(), peerKexinitPayload, ownKexinitPayload, blob);
      var h := Exchange.CurveHash(suite, t, qC.value, qS, shared.value);
      var signature := suite.sign(cfg.hostKey, h);
      if signature.None? {
        return None;
      }
      var pair := M.DerivePair(suite, ChaCha20Poly1305, shared.value, h, h);
      sessionId, csCipherPending, phase := h, Some(pair.cs), F.AwaitingNewKeys;
      var bytes := ReplyAndNewkeys(Exchange.PutReply(Exchange.Reply(blob, qS, signature.value)));
      scCipher := Some(pair.sc);
      out := Some(bytes);
    }

    static lemma CurveInitSize(payload: Bytes)
      ensures F.ParseCurveInit(payload).Ok? ==> |F.ParseCurveInit(payload).value| == 32
    {
    }

    /** The reply and, at once, NEWKEYS. */
    method ReplyAndNewkeys(reply: Bytes) returns (out: Bytes)
      requires Valid()
      modifies this`sent, rng
      ensures M.Out(rng.drawn, sent, scCipher)
           == M.SendPlain(rng.suite, M.SendPlain(rng.suite, old(M.Out(rng.drawn, sent, scCipher)), reply), [KexInit.MSG_NEWKEYS])
      ensures Produced(old(sent), out)
    {
      hide M.Render, M.SendPlain;
      out := SealPlain(reply);
      ghost var before := sent;
      var more := SealPlain([KexInit.MSG_NEWKEYS]);
      Joined(suite, old(sent), before, sent);
      out := out + more;
    }

    method HandleServiceRequest(payload: Bytes) returns (out: Option<Bytes>)
      requires Valid()
      modifies this, rng
      ensures incoming == old(incoming) && Answered(old(sent), out, F.OnServiceRequest(suite, cfg, old(Core()), payload))
    {
      hide M.Render, F.SealReplies, F.ParseServiceRequest, Auth.ServiceUserauth;
      var service := F.ParseServiceRequest(payload);
      if service.Err? || service.value != Auth.ServiceUserauth() {
        return None;
      }
      phase := F.AwaitingUserAuth;
      var bytes := SealReplies([F.ServiceAccept]);
      out := Some(bytes);
    }

    method HandleUserauthRequest(payload: Bytes) returns (out: Option<Bytes>)
      requires Valid()
      modifies this, rng
      ensures incoming == old(incoming) && Answered(old(sent), out, F.OnUserauthRequest(suite, cfg, old(Core()), payload))
    {
      hide M.Render, F.SealReplies, F.Proves, Auth.ParseRequest, F.Verdict;
      var parsed := Auth.ParseRequest(payload);
      if parsed.Err? {
        return None;
      }
      var replies;
      if parsed.value.Query? {
        replies := [F.KeyAcceptable(parsed.value.algorithm, parsed.value.blob)];
      } else {
        var ok := F.Proves(suite, cfg, sessionId, parsed.value);
        if ok.None? {
          return None;
        }
        replies := F.Verdict(cfg, ok.value);
      }
      var bytes := SealReplies(replies);
      out := Some(bytes);
    }

    method HandleChannelOpen(payload: Bytes) returns (out: Option<Bytes>)
      requires Valid()
      modifies this, rng
      ensures incoming == old(incoming) && Answered(old(sent), out, F.OnChannelOpen(suite, cfg, old(Core()), payload))
    {
      hide M.Render, F.SealReplies, Channel.ParseOpening;
      var opening := Channel.ParseOpening(payload);
      if opening.Err? {
        return None;
      }
      phase := F.Connected;
      var bytes := SealReplies([F.Confirmation(opening.value.sender)]);
      out := Some(bytes);
    }

    method HandleChannelRequest(payload: Bytes) returns (out: Option<Bytes>)
      requires Valid()
      modifies this, rng
      ensures incoming == old(incoming) && Answered(old(sent), out, F.OnChannelRequest(suite, cfg, old(Core()), payload))
    {
      hide M.Render, F.SealReplies, F.ParseChannelRequest, GetUtf8, F.ExecReplies, Connection.NameExec;
      var request := F.ParseChannelRequest(payload);
      if request.Err? {
        return None;
      }
      var replies;
      if request.value.name != Connection.NameExec() {
        replies := [F.RequestFailure(request.value.recipient)];
      } else {
        var command := GetUtf8(request.value.rest);
        if command.Err? {
          return None;
        }
        lastExecCommand := Some(command.value.0);
        replies := F.ExecReplies(request.value.recipient);
      }
      var bytes := SealReplies(replies);
      out := Some(bytes);
    }

    method Handle(payload: Bytes) returns (out: Option<Bytes>)
      requires Valid()
      modifies this, rng
      ensures incoming == old(incoming) && Answered(old(sent), out, F.Handle(suite, cfg, old(Core()), payload))
    {
      hide M.Render, F.OnKexinit, F.OnCurveInit, F.OnServiceRequest, F.OnUserauthRequest, F.OnChannelOpen,
           F.OnChannelRequest;
      if payload == [] {
        return None;
      }
      var msg := payload[0];
      assert sent[|sent|..] == [];
      RenderNothing(suite);
      if msg == KexInit.MSG_KEXINIT {
        out := HandleKexinit(payload);
      } else if msg == Exchange.MSG_KEX_INIT {
        out := HandleKexEcdhInit(payload);
      } else if msg == KexInit.MSG_NEWKEYS {
        csCipher, csCipherPending := csCipherPending, None;
        out := Some([]);
      } else if msg == Auth.MSG_SERVICE_REQUEST {
        out := HandleServiceRequest(payload);
      } else if msg == Auth.MSG_USERAUTH_REQUEST {
        out := HandleUserauthRequest(payload);
      } else if msg == Channel.MSG_CHANNEL_OPEN {
        out := HandleChannelOpen(payload);
      } else if msg == Channel.MSG_CHANNEL_REQUEST {
        out := HandleChannelRequest(payload);
      } else if msg == M.MSG_REQUEST_FAILURE {
        out := Some([]);
      } else {
        out := None;
      }
    }

    // ---- stepping ------------------------------------------------------------------------------------------

    /** `position(|&b| b == b'\n')`. */
    static method FirstNewline(buf: Bytes) returns (pos: Option<nat>)
      ensures pos == F.FirstLf(buf)
    {
      var i := 0;
      assert buf[0..] == buf;
      while i < |buf|
        invariant i <= |buf|
        invariant F.FirstLf(buf) == (match F.FirstLf(buf[i..]) case None => None case Some(n) => Some(i + n))
      {
        if buf[i] == Ident.LF {
          return Some(i);
        }
        assert buf[i..][1..] == buf[i + 1..];
        i := i + 1;
      }
      pos := None;
    }

    /** One step did what the model's does. */
    ghost predicate Stepped(before: seq<M.Sent>, buf: Bytes, r: StepResult, step: F.Step)
      reads this, rng
    {
      && (step.Blocked? ==> r == NoMore && incoming == buf && sent == before)
      && (step.Lost? ==>
            r == NoMore && Core() == step.v && step.n <= |buf| && incoming == buf[step.n..] && sent == before)
      && (step.Went? ==>
            || (r == Panics && step.v.phase.Trapped?)
            || (r.More? && Core() == step.v && step.n <= |buf| && incoming == buf[step.n..] && Produced(before, r.bytes)))
    }

    method StepIdent() returns (r: StepResult)
      requires Valid() && phase == F.AwaitingIdent
      modifies this
      ensures Stepped(old(sent), old(incoming), r, F.IdentStep(old(Core()), old(incoming)))
      ensures r == NoMore ==> Core() == old(Core())
    {
      hide M.Render, Ident.IsSshLine, Ident.StripCr, F.FirstLf;
      var pos := FirstNewline(incoming);
      if pos.None? {
        return NoMore;
      }
      var line := incoming[..pos.value];
      incoming := incoming[pos.value + 1..];
      line := Ident.StripCr(line);
      if !Ident.IsSshLine(line) {
        return Panics;
      }
      peerIdentLine := line;
      phase := F.AwaitingKexInit;
      assert sent[|sent|..] == [];
      RenderNothing(suite);
      r := More([]);
    }

    method StepPacket() returns (r: StepResult)
      requires Valid()
      modifies this, rng
      ensures Stepped(old(sent), old(incoming), r, F.PacketStep(suite, cfg, old(Core()), old(incoming)))
      ensures r == NoMore && F.PacketStep(suite, cfg, old(Core()), old(incoming)).Blocked? ==> Core() == old(Core())
    {
      hide M.Render, PeekTotal, OpenWire, F.Handle;
      if |incoming| < 4 {
        return NoMore;
      }
      var total := PeekTotal(suite, csCipher, incoming[..4]);
      if total.Err? || |incoming| < total.value {
        return NoMore;
      }
      var wire := incoming[..total.value];
      incoming := incoming[total.value..];
      var (next, payload) := OpenWire(suite, csCipher, wire);
      csCipher := next;
      if payload.Err? {
        return NoMore;
      }
      var out := Handle(payload.value);
      r := if out.None? then Panics else More(out.value);
    }

    /** Everything the server says in answer to these bytes and to what was buffered before. */
    method Feed(bytes: Bytes) returns (outgoing: Bytes)
      requires Valid() && phase != F.Trapped
      modifies this, rng
      ensures F.FeedServer(suite, cfg, old(F.Peer(Core(), incoming)), bytes).core.phase.Trapped? ==> phase == F.Trapped
      ensures !F.FeedServer(suite, cfg, old(F.Peer(Core(), incoming)), bytes).core.phase.Trapped? ==>
                && F.Peer(Core(), incoming) == F.FeedServer(suite, cfg, old(F.Peer(Core(), incoming)), bytes)
                && Produced(old(sent), outgoing)
    {
      hide M.Render, F.Serve, F.ServerStep, F.IdentStep, F.PacketStep;
      incoming := incoming + bytes;
      outgoing := [];
      assert sent[|sent|..] == [];
      RenderNothing(suite);
      while phase != F.Trapped
        invariant Produced(old(sent), outgoing)
        invariant F.Serve(suite, cfg, Core(), incoming) == F.Serve(suite, cfg, old(Core()), old(incoming) + bytes)
        decreases |incoming|
      {
        ghost var v, buf, before := Core(), incoming, sent;
        StepByPhase(suite, cfg, v, buf);
        ServeUnfolds(suite, cfg, v, buf);
        var r;
        if phase == F.AwaitingIdent {
          r := StepIdent();
        } else {
          r := StepPacket();
        }
        match r {
          case NoMore =>
            return;
          case Panics =>
            phase := F.Trapped;
            ServeTrapped(suite, cfg, F.ServerStep(suite, cfg, v, buf).v, buf[F.ServerStep(suite, cfg, v, buf).n..]);
            return;
          case More(more) =>
            Joined(suite, old(sent), before, sent);
            outgoing := outgoing + more;
        }
      }
      ServeTrapped(suite, cfg, Core(), incoming);
    }

    static lemma StepByPhase(c: Suite, cfg: F.Config, v: F.Server, buf: Bytes)
      ensures F.ServerStep(c, cfg, v, buf)
              == if v.phase.AwaitingIdent? then F.IdentStep(v, buf) else F.PacketStep(c, cfg, v, buf)
    {
      hide F.IdentStep, F.PacketStep;
    }

    static lemma ServeTrapped(c: Suite, cfg: F.Config, v: F.Server, buf: Bytes)
      ensures v.phase.Trapped? ==> F.Serve(c, cfg, v, buf) == F.Peer(v, buf)
    {
      hide F.ServerStep;
    }

    static lemma ServeUnfolds(c: Suite, cfg: F.Config, v: F.Server, buf: Bytes)
      requires !v.phase.Trapped?
      ensures var step := F.ServerStep(c, cfg, v, buf);
              && (step.Blocked? ==> F.Serve(c, cfg, v, buf) == F.Peer(v, buf))
              && (step.Lost? ==> F.Serve(c, cfg, v, buf) == F.Peer(step.v, buf[step.n..]))
              && (step.Went? ==> F.Serve(c, cfg, v, buf) == F.Serve(c, cfg, step.v, buf[step.n..]))
    {
      hide F.ServerStep;
    }
  }
}
