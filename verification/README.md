# The SSH engine, verified

A Dafny model of the sans-io SSH client engine in `ssh-core`, of the in-process server of `ssh-core-testkit`
that it is exercised against, and of the two thin layers that its results pass through on the way to a
JavaScript caller (`wasm-ssh-bindgen` and `src/client.ts`).

Verify everything with `dafny verify dfyconfig.toml`.

## How it is built

Each stateful part exists twice: as functions on values, which is what runs, invariants and transformations are
stated about, and as a class or a loop in the source's own form, every method of which is proved equal to the
function of the same name.

| part | specification | code |
|---|---|---|
| session engine | `SessionModel` | class `Session.Session` |
| test server | `FakeServer` | class `TestServer.TestServer` |
| packet ciphers | `Packet` | class `PacketCipher.PacketCipher` |
| channel table, windows | `Connection`, `Channel` | class `ChannelTable.ChannelTable`, `Channel.BuildDataMessages` |
| identification | `Ident.Scan` and a declarative reading of section 4.2 of RFC 4253 | class `Ident.IdentExchange` |
| key derivation | `Kdf.Derive` | `Kdf.DeriveKey` |
| wire reader | `Wire` getters | class `Wire.Reader` |
| JSON, event bridge | `Json` | `Json.PrintString`, class `Json.Bridge` |
| exec bookkeeping | `ExecClient.Step`, and each promise's story told by the calls | class `ExecClient.SshClient` |

What a peer on the other end would make of it is said separately, and shares no code with either: `Layouts`
reads messages field by field in the representations of RFC 4251, `ClientMessages`, `ServerMessages`,
`SessionMessages`, `TestServerMessages`, `Negotiation` and `KeyExchange` give every message in the layouts of
the RFCs with its numbers and names written out, and `PacketPeer` is the other end of the packet ciphers as
OpenSSH and RFC 5647 describe it.

Cryptography is a datatype of functions, `Primitives.Suite`; `Lawful` lists the only laws used: decryption
undoes encryption and keeps lengths, the length mask is its own inverse, Diffie-Hellman agrees, and verification
accepts what was signed. `Handshake.SettingExists` exhibits a suite and a server that meet every law and
hypothesis together. Hashes have 32 bytes. Randomness is an endless byte stream that each side draws from. A
Rust panic is the phase `Halted` (`Trapped` for the server).

## Main results

- **Two parties** (`Handshake`). `Session` and `FakeServer` joined by two byte pipes, under every delivery
  schedule: nobody fails, ciphers stay in step with the packets handled, every exchange comes to rest, one exec
  channel runs exactly its command and reports exactly its output, and in every setting some schedule gets there
  (`Handshake.SomeRunSucceeds`). The limit is exact: a session in which everything has been delivered is closed
  if and only if the host opened two or more exec channels (`Handshake.SecondChannelCloses` is such a run).
  `FakeServer` answers an exec request to the channel id it finds in that request, which is its own id for the
  channel (always 0) and not the client's, so the second answer is data for a channel 0 that is already closed.
- **Any peer, any host** (`SessionRuns`). The host-key gate, cipher and session-id discipline, one terminal
  event, closed is absorbing, over every sequence of peer bytes and host calls.
- **Sequence numbers** (`SequenceNumbers`). Exactly when the constant 3 is right, in each direction, for any
  peer; and exactly when a connected session is encrypted.
- **Behind the host key** (`HostKeyProof`). What the host is asked about is the key that signed an exchange over
  this session's own transcript, and the ciphers it lets in are that exchange's; the algorithms are the earliest
  of our names in the peer's KEXINIT that the hash covers (`Negotiation`), and the keys those of section 7.2 of
  RFC 4253 (`KeyExchange`).
- **Rejecting a host key** (`Rejection`). Final, over every continuation, and exactly when it silences the
  session.
- **Every message both ways** (`ClientMessages`, `ServerMessages`, `SessionMessages`). What each host call says,
  and what each message of a server does: the event with its numbers, the answer, the state.
- **Panics** (`Panics`). The exact list of calls and packets that panic a session.
- **Channels of whole sessions** (`ChannelLedgers`, `ChannelSetup`, `ChannelRuns`). Window accounts and setup
  conversations, read off every message sent, and lifted to every session run.
- **Transformations that change nothing** (`SessionChunks`). Chunking invariance and pause transparency.
- **Packet streams and nonces** (`PacketStream`, `Nonces`), and an independent other end that opens and seals
  them (`PacketPeer`).
- **Uniquely decodable** (`Exchange`, `Auth`, `Wire`, `Kdf`, `KexInit`). What is hashed and what is signed.
- **To JavaScript** (`Json`, `ExecClient`, `ExecSession`). Printer and parser round trip, event pairing, and
  promises that settle once, with everything the engine raised for their channel.

## Where the code decides

- The header of `session.rs` lists a phase `KexInit` and a phase `NewKeys`; the code has neither, and `dispatch`
  looks at message types alone. The model follows the code.
- Some panics are within a peer's reach, before any key exchange: a global request that wants a reply
  (`Witnesses.GlobalRequestPanics`), and a SERVICE_ACCEPT that the host answers with an attempt
  (`Witnesses.PasswordPanics`). `Panics.PanicsExactly` lists all.
- A session closed before any cipher was active panics when a channel is opened on it
  (`SessionRuns.ClosedIsAbsorbing` gives the exact condition, `SessionRuns.OpeningTooLatePanics` a run).
- A name-list with a comma in a name, or the single empty name, does not survive the wire
  (`KexInit.NamesRoundTrip`, both directions).
- An `exec()` whose id is reused while it waits never settles (`ExecClient.EachPromiseSettlesOnce`, both
  directions; `ExecClient.ReuseOrphans`); the engine gives out distinct ids until 2^32 channels have been opened
  (`ExecSession.EngineIds`).
- The constant 3 counts KEXINIT, one key-exchange message and NEWKEYS. `dispatch` also tolerates, in the clear
  and before NEWKEYS, IGNORE, DEBUG, UNIMPLEMENTED, a global request that wants no reply, SERVICE_ACCEPT,
  authentication results and further KEXINITs, among others. For any peer, a direction is in step with its
  packet count if and only if its last NEWKEYS was packet 3 (mod 2^32), which is packet 3 of exactly one such
  exchange (`SequenceNumbers.SequenceNumbers`, `SequenceNumbers.FirstAcceptance`); `Witnesses` has a run for
  each direction that is out of step. A second exchange is never in step short of 2^32 packets.
- One algorithm name serves both directions. The receiving cipher is the negotiated one if and only if both
  directions came to have one name (`KeyExchange.CiphersAreNegotiated`); a server may make them differ
  (`Negotiation.DirectionsMayDiffer`).
- Rejecting the key of a second exchange closes the session, and a closed session still opens channels under the
  cipher accepted before (`Rejection.RejectionSilences`, both directions).
- `FakeServer` always reports exit status 0; the model gives it any number, so that the end-to-end result says
  that the number arrives.
- USERAUTH_SUCCESS connects a session in any phase, before any key exchange too
  (`Witnesses.ConnectedInTheClear`). A connected session is encrypted in both directions if and only if the
  peer's NEWKEYS has been heard (`SequenceNumbers.ConnectedIsCiphered`).

## Model

| member | source | states |
|---|---|---|
| Handshake.NobodyFails | ssh-core-testkit/src/lib.rs:147-413 | for every byte-delivery schedule of `Session` against `FakeServer` (host accepts the key, one authentication attempt outstanding, exec channels only, short strings): the server never panics, the client never panics, and with at most one exec channel the client never closes |
| Handshake.CiphersInStep | ssh-core/src/session.rs:376-389 | in every reachable state of both ends: what is buffered and in flight is exactly the items sent and not yet handled; every active cipher's sequence number is the number of packets sent or handled on that side, plaintext included, mod 2^32 (so the constant 3 is right); and the next packet opens to exactly the payload sealed |
| Handshake.RestsUnlessTwoChannels | ssh-core-testkit/src/lib.rs:371-413 | no deadlock, and the exact limit of the test server: with every byte delivered the session is closed if and only if two or more exec channels were opened (the server echoes its own channel id); otherwise it waits for the host, and a connected session has no channel left |
| Handshake.OneCommandRuns | ssh-core-testkit/src/lib.rs:388-413 | with one exec channel and every byte delivered: the server ran exactly the requested command, in a session of its own user, and the host was told opened, output, the server's exit status (any number here, 0 in the code), end of file, closed, once each and in that order |
| Handshake.EveryExchangeSettles | ssh-core-testkit/src/lib.rs:147-154 | no livelock: after any behaved schedule, delivering bytes alone brings both directions to rest |
| Handshake.DeliveriesReachTheQuestion | ssh-core/src/session.rs:279-402 | without the host, every complete delivery ends waiting for the host-key decision with no cipher in place |
| Handshake.SomeRunSucceeds | ssh-core-testkit/tests/end_to_end.rs:27-112 | the whole story can happen in every setting: accepting the key, the server's own password and one exec channel, with only deliveries between, is a behaved schedule that ends with the command run and everything reported |
| Handshake.SecondChannelCloses | ssh-core-testkit/src/lib.rs:388-413 | and so can the failure: in every setting some behaved schedule with a second exec channel ends closed |
| HandshakeScript.ServerLineScans | ssh-core/src/ident.rs:54-90 | every proper prefix of the server's line leaves the scanner waiting, and the whole line, whatever follows, identifies the server |
| HandshakeScript.ClientHearsReply | ssh-core/src/session.rs:316-336 | the client computes the exchange hash the server signed, verifies it, derives the server's two ciphers and pauses |
| HandshakeScript.ClientAccepts | ssh-core/src/session.rs:405-430 | accepting sends NEWKEYS in the clear and the service request as packet 3 under the derived cipher |
| HandshakeScript.ClientHears | ssh-core/src/session.rs:231-275 | each item of the server's script, in turn, moves the client to the next stage of its own script |
| HandshakeScript.ServerHearsLine | ssh-core-testkit/src/lib.rs:163-174 | the server waits for the client's whole line and then consumes exactly that |
| HandshakeScript.ServerHears | ssh-core-testkit/src/lib.rs:197-283 | each item of the client's script, in turn, makes the server say the next part of its own, under the keys the client derives |
| Dialogue.ServerAnswers | ssh-core-testkit/src/lib.rs:285-413 | every short request the client can send is answered, with exactly the listed replies |
| Dialogue.RepliesAreLighter | ssh-core-testkit/src/lib.rs:297-413 | a request's replies lead to strictly fewer further messages than the request itself (the measure behind settling) |
| DialogueSteps.ClientTakes | ssh-core/src/session.rs:499-701 | whatever reply is next in flight, the client handles it as meant, asks at most one thing, and the dialogue invariant goes on |
| DialogueSteps.HearsAnswer | ssh-core/src/connection/mod.rs:76-172 | each message of an exec answer acts on channel 0 alone; data for an already closed channel 0 is refused, which takes a second channel |
| TwoPartySteps.ClientItem | ssh-core/src/session.rs:204-229 | the item at the head of the client's pipe is one whole packet under its receiving cipher and keeps the two-party invariant |
| TwoPartySteps.ServerItem | ssh-core-testkit/src/lib.rs:176-195 | the same for the server's pipe, without a panic |
| TwoPartySteps.ClientDrives | ssh-core/src/session.rs:157-177 | any number of buffered bytes is consumed item by item, leaving less than the next item |
| TwoPartySteps.ServerServes | ssh-core-testkit/src/lib.rs:147-154 | the same for the server's `feed` loop |
| MessageReading.ExecRead | ssh-core-testkit/src/lib.rs:371-388 | the server reads the recipient and the command of every exec request the client builds |
| Channel.OpenRoundTrip | ssh-core/src/connection/channel.rs:74-82 | a peer that parses the OPEN for an id finds the type session, that id, a window of 2 MiB and packets of 32 KiB |
| MessageReading.ConfirmationRead | ssh-core/src/connection/mod.rs:81-88 | the client reads back the four fields of the server's confirmation |
| SessionChunks.DriveSplit | ssh-core/src/session.rs:157-229 | driving x and later the remainder with y is driving x followed by y |
| SessionChunks.ChunkingInvariance | ssh-core/src/session.rs:144-229 | any split of any peer bytes into feeds gives the same outgoing log, events, phase and whole state as one feed, and the same unconsumed tail while the session is not over |
| SessionChunks.PauseTransparency | ssh-core/src/session.rs:157-161 | in the host-key pause, feeding b then accepting equals accepting then feeding b, whatever is already buffered |
| SessionSafety.PeerKexinitReachesKex | ssh-core/src/session.rs:279-305 | our own KEXINIT parses and whatever is negotiated is implemented, so the fallback arm and the `from_name` failure are unreachable |
| SessionRuns.DispatchKeeps | ssh-core/src/session.rs:231-275 | any payload of any peer keeps every session invariant, only adds output and events, never changes a set session id, and keeps the host-key gate |
| SessionRuns.AcceptedKeeps | ssh-core/src/session.rs:405-430 | accepting the host key never panics, reaches ServiceRequest and keeps every invariant |
| SessionRuns.HostKeyGate | ssh-core/src/session.rs:405-461 | any peer, any host calls: until an accepting decision in the pause, only the identification line and plaintext packets of type 20 or 30 are sent and no cipher is active or waiting |
| SessionRuns.HostKeyGateOnTheWire | ssh-core/src/session.rs:405-461 | the same for an observer of the bytes: they parse to the end, under cipher none, into such packets |
| SessionRuns.ReachableStates | ssh-core/src/session.rs:231-461 | in every reachable state a receiving cipher implies a sending one and a session id, channels are sound, and exactly one terminal event has been raised if closed, none otherwise |
| SessionRuns.RunsOnlyGrow | ssh-core/src/session.rs:391-391 | over every run the session id never changes once set and nothing sent or raised is taken back |
| SessionRuns.ClosedIsAbsorbing | ssh-core/src/session.rs:149-177 | a closed session stays closed under every call with one terminal event, except that opening a channel panics exactly when no cipher was ever active |
| SessionRuns.OpeningTooLatePanics | ssh-core/src/session.rs:454-461 | that panic is reached: the transport closes first, and then the host opens a channel |
| SequenceNumbers.SequenceNumbers | ssh-core/src/session.rs:376-389 | any peer, any host: in every open session a direction is under a cipher exactly once its NEWKEYS has passed; its sequence number is the number of packets passed mod 2^32 if and only if that NEWKEYS was packet 3 mod 2^32; and it was packet 3 if and only if KEXINIT, one key-exchange message and NEWKEYS are all that passed. One key-exchange message is sent for every KEXINIT heard |
| SequenceNumbers.FirstAcceptance | ssh-core/src/session.rs:405-430 | when the host key is first accepted, the sending direction is in step if and only if exactly one KEXINIT of the peer has been handled (mod 2^32) |
| SequenceNumbers.ConnectedIsCiphered | ssh-core/src/session.rs:508-513 | a connected session is under ciphers in both directions if and only if the peer's NEWKEYS has been heard |
| Witnesses.OneIgnoreBreaksStep | ssh-core/src/session.rs:244-246 | in every setting: one IGNORE in the clear is tolerated and leaves the receiving cipher at 3 after four packets |
| Witnesses.SecondKexinitBreaksStep | ssh-core/src/session.rs:279-305 | in every setting: a second KEXINIT in the clear is tolerated and leaves the sending cipher out of step from its first packet on |
| Witnesses.ConnectedInTheClear | ssh-core/src/session.rs:508-513 | a peer that sends only its line and USERAUTH_SUCCESS connects a session with no cipher, no session id and no question to the host |
| Panics.PanicsExactly | ssh-core/src/session.rs:454-461 | any peer, any host, after any run that has not panicked: a call panics if and only if the host opens a channel or attempts to authenticate with no sending cipher in place, or a packet handled during the call is, in the state it meets, a global request that wants a reply with no sending cipher in place, the grant of a setup request on a channel never confirmed, or on an open channel never confirmed a request other than exit status or signal that wants a reply or data that fills half the window |
| Panics.DriveVisitsHears | ssh-core/src/session.rs:157-229 | the packets meant there are the packets the call hears |
| Witnesses.GlobalRequestPanics | ssh-core/src/session.rs:636-645 | any server can panic the client before key exchange: its line and one global request that wants a reply, in the clear |
| Witnesses.PasswordPanics | ssh-core/src/session.rs:475-482 | SERVICE_ACCEPT in the clear reaches UserAuth, and the host's attempt then panics |
| HostKeyProof.ShownKeyIsProven | ssh-core/src/session.rs:316-402 | any peer, any host: while the session waits for the host-key decision, an exchange has been completed whose hash covers both identification lines and both KEXINITs as this session has them, with a secret it drew; the key the host was shown verified the signature over that hash; the waiting ciphers and the session id are those of that exchange; and the cipher is the one negotiated, which like the other three choices is the earliest of our names in the KEXINIT of the peer that the hash covers |
| HostKeyProof.AcceptedSendsUnder | ssh-core/src/session.rs:405-430 | accepting puts exactly those ciphers in place |
| HostKeyProof.SendingIsProven | ssh-core/src/session.rs:454-461 | any peer, any host: the sending cipher of an open session is that of such an exchange, some number of packets on |
| HostKeyProof.ReceivingIsProven | ssh-core/src/session.rs:433-442 | any peer, any host: so is the receiving cipher, and the session id is the hash of the first such exchange |
| HostKeyProof.TranscriptsAgree | ssh-core/src/transport/kex_curve25519.rs:94-115 | whoever computed that curve25519 hash over a transcript of its own, short of a collision, has this session's transcript, public values and shared secret |
| Session.Session.constructor | ssh-core/src/session.rs:95-126 | a new session is the model's initial one, with the identification line queued |
| Session.Session.PollEvent | ssh-core/src/session.rs:131-133 | returns the oldest event not yet polled and changes nothing else |
| Session.Session.TakeOutgoing | ssh-core/src/session.rs:135-140 | returns every byte sent and not yet taken, in order, and changes nothing else |
| Session.Session.FeedIncoming | ssh-core/src/session.rs:144-147 | does what the model's feed does to the whole state and the buffer |
| Session.Session.NotifyTransportClosed | ssh-core/src/session.rs:149-153 | fails an open session, leaves a closed one alone |
| Session.Session.Drive | ssh-core/src/session.rs:157-177 | the loop equals the recursive drive of the model, from any state |
| Session.Session.DriveVersionExchange | ssh-core/src/session.rs:179-193 | one pass equals the model's; an error consumes nothing |
| Session.Session.SendOwnKexinit | ssh-core/src/session.rs:195-200 | draws the cookie, stores the payload and sends it in the clear |
| Session.Session.DrivePacketPhase | ssh-core/src/session.rs:204-229 | one pass of peek, buffer, open and dispatch equals the model's |
| Session.Session.Dispatch | ssh-core/src/session.rs:231-275 | every message type reaches the handler the source gives it, with the same outcome |
| Session.Session.HandlePeerKexinit | ssh-core/src/session.rs:279-305 | parse, negotiate and start the exchange as in the model, errors included, by our preferences (`Negotiation.PeerKexinitHandled`) |
| Session.Session.HandleCurve25519Reply | ssh-core/src/session.rs:316-336 | parse, agree, hash and verify as in the model, errors included |
| Session.Session.HandleDhGroup14Reply | ssh-core/src/session.rs:338-358 | the same for group 14 |
| Session.Session.OnKexResult | ssh-core/src/session.rs:360-402 | derives both ciphers with the KDF loop, fixes the session id and pauses |
| Session.Session.ProvideHostKeyDecision | ssh-core/src/session.rs:405-431 | rejects, which is final (`Rejection.RejectionIsFinal`), or promotes the ciphers and drives what was buffered |
| Session.Session.HandleNewkeys | ssh-core/src/session.rs:433-442 | the pending receiving cipher becomes active, or the message is refused |
| Session.Session.SendCiphered | ssh-core/src/session.rs:454-461 | seals under the sending cipher and advances it; a missing cipher is the panic |
| Session.Session.HandleServiceAccept | ssh-core/src/session.rs:465-473 | only `ssh-userauth` moves to UserAuth |
| Session.Session.AuthenticatePassword | ssh-core/src/session.rs:475-482 | acts only in UserAuth |
| Session.Session.AuthenticatePublickey | ssh-core/src/session.rs:484-497 | acts only in UserAuth; reports an unsupported key and nothing else |
| Session.Session.HandleUserauthFailure | ssh-core/src/session.rs:499-506 | forgets the attempt and reports the remaining methods |
| Session.Session.HandleUserauthPkOk | ssh-core/src/session.rs:515-536 | signs only with an outstanding query; otherwise refuses the message |
| Session.Session.OpenExec | ssh-core/src/session.rs:540-546 | takes the next id, stores the command and sends CHANNEL_OPEN |
| Session.Session.OpenShell | ssh-core/src/session.rs:548-555 | the same with the terminal options |
| Session.Session.ChannelSend | ssh-core/src/session.rs:560-572 | returns how many bytes were accepted and reports a full window |
| Session.Session.ResizePty | ssh-core/src/session.rs:574-583 | one request on a confirmed channel, nothing otherwise |
| Session.Session.CloseChannel | ssh-core/src/session.rs:585-592 | one close on a confirmed channel, nothing otherwise |
| Session.Session.HandleChannelMessage | ssh-core/src/session.rs:598-615 | the table reacts, a confirmed channel continues its setup, then events and replies |
| Session.Session.HandleChannelReply | ssh-core/src/session.rs:617-629 | a reply continues the setup of the channel it names |
| Session.Session.HandleGlobalRequest | ssh-core/src/session.rs:636-645 | answers with REQUEST_FAILURE exactly when a reply is wanted |
| Session.Session.ContinueChannelSetup | ssh-core/src/session.rs:650-701 | each step sends its stored argument, a refusal drops and reports the channel |
| Session.Session.Fail | ssh-core/src/session.rs:703-706 | closes and raises one Unrecoverable event |
| TestServer.TestServer.constructor | ssh-core-testkit/src/lib.rs:100-124 | a new server is the model's initial one |
| TestServer.TestServer.InitialOutgoing | ssh-core-testkit/src/lib.rs:140-144 | the identification line |
| TestServer.TestServer.Feed | ssh-core-testkit/src/lib.rs:147-154 | the loop equals the model's, and returns exactly the bytes of what was sent meanwhile |
| TestServer.TestServer.StepIdent | ssh-core-testkit/src/lib.rs:163-174 | one step of the identification equals the model's |
| TestServer.TestServer.StepPacket | ssh-core-testkit/src/lib.rs:176-195 | one packet step equals the model's; a packet that does not open is lost |
| TestServer.TestServer.Handle | ssh-core-testkit/src/lib.rs:197-213 | every message type reaches the handler the source gives it, panics included |
| TestServer.TestServer.Seal | ssh-core-testkit/src/lib.rs:215-220 | seals under the sending cipher, or in the clear before it |
| TestServer.TestServer.HandleKexinit | ssh-core-testkit/src/lib.rs:222-229 | stores both payloads and answers in the clear |
| TestServer.TestServer.HandleKexEcdhInit | ssh-core-testkit/src/lib.rs:231-283 | agrees, signs the exchange hash, sends the reply and NEWKEYS, and switches keys |
| TestServer.TestServer.HandleServiceRequest | ssh-core-testkit/src/lib.rs:285-295 | only `ssh-userauth` is accepted, anything else panics |
| TestServer.TestServer.HandleUserauthRequest | ssh-core-testkit/src/lib.rs:297-350 | the verdict, the key query answer and the injected global request |
| TestServer.TestServer.HandleChannelOpen | ssh-core-testkit/src/lib.rs:353-369 | confirms with server id 0 |
| TestServer.TestServer.HandleChannelRequest | ssh-core-testkit/src/lib.rs:371-413 | refuses what is not exec, and otherwise answers to the request's recipient id |
| PacketStream.StreamRoundTrip | ssh-core/src/transport/packet.rs:139-286 | every list of fitting payloads, under cipher none or either AEAD, cut into any chunks, is received exactly, with nothing left over and both ends in the same state |
| PacketStream.ReceiveSplit | ssh-core/src/session.rs:204-229 | the peek, buffer, open loop gives the same result however its input is split |
| PacketStream.OpenSealed | ssh-core/src/transport/packet.rs:182-203 | opening what an equal-state cipher sealed returns the payload and the advanced state |
| PacketStream.PeekSealed | ssh-core/src/transport/packet.rs:162-177 | the length field of a sealed packet announces the packet's own size |
| PacketStream.FrameOfPartial | ssh-core/src/session.rs:204-217 | a partly received packet is waited for, never rejected |
| Packet.PadLenBounds | ssh-core/src/transport/packet.rs:257-272 | padding is between 4 and block + 3 and aligns prefix and body |
| Packet.StripUndoesPad | ssh-core/src/transport/packet.rs:274-286 | stripping undoes padding |
| PacketCipher.PadPayload | ssh-core/src/transport/packet.rs:257-272 | the padded body, the bytes drawn for it, and its alignment |
| PacketCipher.StripPaddingOf | ssh-core/src/transport/packet.rs:274-286 | strips, refuses, and recovers every padded payload |
| PacketCipher.SealPlaintext | ssh-core/src/transport/packet.rs:208-214 | the wire form under cipher none |
| PacketCipher.PeekPlaintextLength | ssh-core/src/transport/packet.rs:216-224 | the announced size, or a refusal of an implausible one |
| PacketCipher.OpenPlaintext | ssh-core/src/transport/packet.rs:226-236 | undoes the wire form, or refuses |
| PacketCipher.IncrementGcmNonce | ssh-core/src/transport/packet.rs:400-403 | in place, the last eight bytes count up by one and wrap |
| PacketCipher.PacketCipher.Seal | ssh-core/src/transport/packet.rs:139-157 | one sealed packet, and the sequence number and nonce moved on once; every peer of `PacketPeer` with the same keys opens it to the payload |
| PacketCipher.PacketCipher.PeekTotalLength | ssh-core/src/transport/packet.rs:162-177 | the announced size with its tag, or a refusal |
| PacketCipher.PacketCipher.Open | ssh-core/src/transport/packet.rs:182-203 | opens or refuses, and the state moves on exactly when the tag was right; every packet that a peer of `PacketPeer` with the same keys seals is opened to its payload, both ends staying together |
| Nonces.StateAfter | ssh-core/src/transport/packet.rs:288-292 | after n packets the sequence number is start + n mod 2^32, and the GCM nonce keeps four bytes and counts start + n mod 2^64 |
| Nonces.InitialSeqIsPacketsAlreadySent | ssh-core/src/transport/packet.rs:103-131 | a ChaCha20 cipher started at n is one that has passed n packets from 0 |
| Nonces.ChaChaNonceReuse | ssh-core/src/transport/packet.rs:288-292 | two packets share a ChaCha20 nonce exactly when they are a multiple of 2^32 apart |
| Nonces.GcmNonceReuse | ssh-core/src/transport/packet.rs:400-403 | two packets share a GCM nonce exactly when they are a multiple of 2^64 apart |
| Channel.BuildDataMessages | ssh-core/src/connection/channel.rs:102-125 | the chunking loop equals its recursive specification, panic included |
| Channel.SendDataExact | ssh-core/src/connection/channel.rs:102-125 | consumes exactly min(len, window) once confirmed and nothing before, in chunks of 1..max that parse back to the consumed prefix; the panic is unreachable |
| Channel.DeliveryConserves | ssh-core/src/connection/channel.rs:127-142 | no saturation occurs, the receive window is conserved and stays above 1 MiB |
| Channel.DataRoundTrip | ssh-core/src/connection/channel.rs:109-119 | a data message parses back to its id and chunk |
| Connection.MessageKeepsSound | ssh-core/src/connection/mod.rs:76-185 | any channel message of any peer, up to a packet long, keeps every channel sound |
| ChannelLedgers.FlowControl | ssh-core/src/connection/channel.rs:84-146 | over every run, reading every message sent in any action: receive window = the window announced in this channel's OPEN (2 MiB) + granted to its peer - received, above 1 MiB; sent to this channel's peer + remaining send window is at most initial + adjusts, with equality exactly when no adjust hit the u32 ceiling, and no message carries more than the packet size its peer announced (at least 1) |
| ChannelRuns.SessionIsItsActions | ssh-core/src/session.rs:594-615 | any peer, any host, unless the session has panicked: the channel tables of a session, the channel messages among everything it has sent and the channel events among everything it has raised are what its actions (channel messages heard and host calls, in order) make of empty tables |
| ChannelRuns.SessionFlowControl | ssh-core/src/connection/channel.rs:84-146 | flow control as above, for whole sessions |
| ChannelRuns.SessionSetup | ssh-core/src/session.rs:540-701 | setup sequencing as below, for whole sessions |
| ChannelSetup.SetupSequencing | ssh-core/src/session.rs:540-701 | with interleaved channels, one reply per open and request, and distinct server-side names for live channels: every OPEN, REQUEST and CLOSE sent in the whole run names a channel; on each channel the setup messages are, stage by stage, a prefix of its script with the stored argument, each sent once; every other CLOSE and window-change is one the host asked for or the one CLOSE after a refused request; exactly one ChannelOpenFailed if the open or a request was refused, none otherwise |
| ChannelSetup.LegalNeverPanics | ssh-core/src/session.rs:674-678 | no such open or reply reaches the `expect` |
| ChannelSetup.OthersUntouched | ssh-core/src/session.rs:598-629 | a message about one channel leaves every other channel's setup as it was |
| ChannelTable.ChannelTable.Open | ssh-core/src/connection/mod.rs:43-50 | the id wraps, the entry is inserted, and the message is the one that `Channel.OpenRoundTrip` and `ClientMessages.OpenIsRead` read back |
| ChannelTable.ChannelTable.Send | ssh-core/src/connection/channel.rs:102-125 | chunks what the window allows and updates that channel alone |
| ChannelTable.ChannelTable.HandleChannelRequest | ssh-core/src/connection/mod.rs:187-234 | exit status and exit signal are reported as sent, anything else that wants a reply is refused; `ServerMessages` has the three from the bytes |
| ChannelTable.ChannelTable.HandleMessage | ssh-core/src/connection/mod.rs:76-185 | table, events and replies are the specification's, and a refused message changes nothing |
| Ident.ScanRefinesSpec | ssh-core/src/ident.rs:54-112 | under every split: accepted exactly when the first SSH- line ends within 64 KiB and names 2.0 or 1.99, consumption stopping after its newline; rejected exactly when that version is wrong or byte 65537 comes first; waiting otherwise |
| Ident.IdentExchange.Feed | ssh-core/src/ident.rs:54-90 | the scanning loop equals the recursive scanner, on every outcome |
| Kdf.DeriveKey | ssh-core/src/transport/kdf.rs:25-50 | the extension loop equals the recursive definition of section 7.2 of RFC 4253 |
| Kdf.DeriveBlock | ssh-core/src/transport/kdf.rs:39-46 | block i is the hash over K, H and all earlier blocks, the first over K, H, tag and session id |
| Kdf.DeriveIsPrefix | ssh-core/src/transport/kdf.rs:25-50 | a shorter request is a prefix of a longer one |
| Kdf.MpintCanonical | ssh-core/src/transport/kdf.rs:56-61 | the encoded integer has the same value and no redundant leading byte |
| Kdf.MpintUnique | ssh-core/src/transport/kdf.rs:56-61 | an mpint followed by anything is uniquely decodable |
| KexInit.NamesRoundTrip | ssh-core/src/transport/kexinit.rs:143-154 | a name-list survives the wire if and only if no name holds a comma and it is not the single empty name |
| KexInit.PayloadRoundTrip | ssh-core/src/transport/kexinit.rs:80-140 | parsing undoes serialising |
| KexInit.NegotiateIsFirst | ssh-core/src/transport/kexinit.rs:159-165 | the earliest client name the server offers, or an error exactly when there is none |
| KexInit.OurPayloadParses | ssh-core/src/transport/kexinit.rs:58-78 | our own KEXINIT parses back to our constant lists |
| KexInit.NegotiatedIsImplemented | ssh-core/src/transport/kexinit.rs:175-194 | whatever the peer offers, a successful negotiation names implemented algorithms |
| Exchange.CurveReplyRoundTrip | ssh-core/src/transport/kex_curve25519.rs:65-86 | the reply parses back to its three fields |
| Exchange.CurvePreimageUnique | ssh-core/src/transport/kex_curve25519.rs:94-115 | equal preimages of the curve25519 exchange hash have equal fields |
| Exchange.Group14PreimageUnique | ssh-core/src/transport/kex_dh_group14.rs:142-162 | equal preimages of the group 14 exchange hash have equal fields, f as a number |
| Auth.PasswordIsRead | ssh-core-testkit/src/lib.rs:297-307 | the server reads the password request back |
| Auth.SignedIsRead | ssh-core/src/auth/publickey.rs:71-103 | the server reads the signed request back |
| Auth.ServerRebuildsSignedData | ssh-core-testkit/src/lib.rs:325-336 | the bytes rebuilt from a parsed request are the bytes the client signed |
| Auth.SignedDataUnique | ssh-core/src/auth/publickey.rs:81-103 | equal signed data have equal session id, user, algorithm and key |
| Wire.StrUnique | ssh-core/src/wire.rs:18-21 | a string field followed by anything is uniquely decodable |
| Wire.GetStringExact | ssh-core/src/wire.rs:55-62 | what `read_string` accepts is exactly what `write_string` writes |
| Wire.Reader.ReadU8 | ssh-core/src/wire.rs:36-40 | reads one byte and advances past it, or fails in place |
| Wire.Reader.ReadBool | ssh-core/src/wire.rs:42-44 | any byte but zero is true |
| Wire.Reader.ReadU32 | ssh-core/src/wire.rs:47-53 | reads one field and advances past it, or fails in place |
| Wire.Reader.ReadString | ssh-core/src/wire.rs:55-62 | reads one field and advances past it, or fails |
| Wire.Reader.ReadUtf8String | ssh-core/src/wire.rs:64-69 | the same, refusing ill-formed UTF-8 |
| Json.PrintString | wasm-ssh-bindgen/src/lib.rs:194-210 | the printing loop equals the recursive printer |
| Json.StringRoundTrip | wasm-ssh-bindgen/src/lib.rs:194-210 | reading what was printed, by the grammar of section 7 of RFC 8259, consumes exactly that and returns the string |
| Json.Utf16Unique | wasm-ssh-bindgen/src/lib.rs:194-210 | the JavaScript string determines the Rust string |
| Json.ArrayRoundTrip | wasm-ssh-bindgen/src/lib.rs:150-153 | the emitted `remainingMethods` array decodes to the original list |
| Json.Bridge.PollEvent | wasm-ssh-bindgen/src/lib.rs:56-59 | pops one event and stashes its bytes; an event without bytes leaves the stash alone |
| Json.Bridge.TakeEventData | wasm-ssh-bindgen/src/lib.rs:62-64 | returns and empties the stash |
| Json.Bridge.Pump | src/client.ts:234-242 | polling and taking at once sees every event once, in order, with exactly its own bytes |
| ExecClient.MapFollowsFates | src/client.ts:290-370 | the `execs` map and its settlements are, over every call sequence, what each promise's own story says |
| ExecClient.Story | src/client.ts:140-370 | the settlements of every promise by the calls alone: rejected at once if the session had ended; else nothing until the first call that closes, fails or reuses its channel or ends the session, and then that call's verdict for good |
| ExecClient.EachPromiseSettlesOnce | src/client.ts:140-147 | one promise per call, each settled at most once; the close callback fires once if closed and never otherwise; once closed, promise p is pending if and only if its id was given to another `exec()` after it with no close or failure of that channel and no end of session between |
| ExecClient.ReuseOrphans | src/client.ts:140-147 | which does happen: two calls with one id and then the end leave the first promise pending |
| ExecClient.ClosedMeansNonePending | src/client.ts:352-367 | if no id is used twice before the session ends, a closed client has no pending promise |
| ExecClient.ResultIsChannelOutput | src/client.ts:302-340 | promise p has resolved with o if and only if its channel's close was the first thing to decide it, and o is the in-order concatenation, stream by stream, of that channel's data between the `exec()` and the close, with its last exit report |
| ExecSession.EngineIds | ssh-core/src/connection/mod.rs:43-50 | after fewer than 2^32 opens and no panic, the next id the engine gives out is the number of channels opened, and it has raised nothing about data or exits of any later channel |
| ExecSession.NonePending | src/client.ts:352-369 | the client on top of the engine, with engine calls, `exec()` calls and polls in any order: once it is closed, every promise has been settled exactly once |
| ExecSession.ResultIsWhatWasRaised | src/client.ts:302-340 | and a result is all the engine ever raised for the channel of its promise, up to that channel's close, in order and stream by stream, with the last exit report |
| ExecClient.FatesFollow | src/client.ts:290-340 | the story at a promise's position is the one followed from its birth |
| ExecClient.ConcatChunks | src/client.ts:376-385 | one fresh buffer that holds the chunks in order |
| ExecClient.SshClient.Run | src/client.ts:140-147 | a closed client rejects at once, an open one registers the promise |
| ExecClient.SshClient.HandleEvent | src/client.ts:244-349 | each event does to the map and the promises what the model says |
| ExecClient.SshClient.ShutDown | src/client.ts:352-369 | every unsettled promise is rejected once, the map emptied, the callback fired once |
| Rejection.RejectionIsFinal | ssh-core/src/session.rs:405-412 | any peer, any host: rejecting in the pause closes the session with exactly one event, Unrecoverable(HostKeyRejected), and sends nothing; over every continuation, a later acceptance included, the key exchange stays as it is and no cipher becomes active, the sending one being whichever was active before, some packets on; and if none was, as always before the first acceptance, nothing is ever sent, nothing raised and nothing changed but that opening a channel may panic |
| Rejection.RejectionSilences | ssh-core/src/session.rs:405-412 | rejecting silences a session over every continuation if and only if no cipher was active: in a second exchange a closed session still opens channels under the cipher accepted before |
| Negotiation.PeerKexinitHandled | ssh-core/src/session.rs:279-305 | a peer's KEXINIT is handled well if and only if each of the four lists that count holds one of our names; then each of the four names is the earliest of our list that the peer's holds, and one message goes out under the sending cipher: the init of the chosen exchange, with the public value of the secret kept for the reply; otherwise the session fails with Negotiation or the parse error and says nothing |
| Negotiation.OurPreferences | ssh-core/src/transport/kexinit.rs:23-31 | our exchanges and ciphers, in order |
| Negotiation.OurHostKeys | ssh-core/src/transport/kexinit.rs:25-27 | our host-key algorithms, in order |
| Negotiation.OursIsRead | ssh-core/src/transport/kexinit.rs:80-101 | our KEXINIT as anyone reads it: type, cookie, ten comma-separated lists in the order of section 7.1 of RFC 4253, no guess, reserved 0 |
| Negotiation.KexinitIsParsed | ssh-core/src/transport/kexinit.rs:103-140 | any KEXINIT that carries these ten lists, in that order, parses to exactly them |
| Negotiation.DirectionsMayDiffer | ssh-core/src/transport/kexinit.rs:175-194 | a peer with one cipher for each direction is answered, with two different names |
| KeyExchange.CiphersAreNegotiated | ssh-core/src/session.rs:360-389 | the waiting sending cipher is the one negotiated; the receiving one is if and only if both directions came to have one name |
| KeyExchange.CurvePreimageIsRead | ssh-core/src/transport/kex_curve25519.rs:94-115 | what is hashed reads, in order: V_C, V_S, I_C, I_S, K_S, Q_C, Q_S and K as an mpint |
| KeyExchange.Group14PreimageIsRead | ssh-core/src/transport/kex_dh_group14.rs:142-162 | the same with e, f and K as mpints |
| KeyExchange.WaitingCiphersAreAsWritten | ssh-core/src/session.rs:360-389 | while the host is asked, the waiting keys and IVs are those of section 7.2 of RFC 4253, letter by letter (A and C client to server, B and D server to client), from the shared secret and hash of the exchange it is asked about, and both directions start at 3 |
| KeyExchange.CurveReplyOutcome | ssh-core/src/session.rs:316-336 | any curve25519 reply laid out as in RFC 8731: the host is asked about its key if and only if the public value has 32 bytes, gives a secret, and key and signature parse and verify over this session's hash; otherwise the session fails with the reason; nothing is sent either way |
| KeyExchange.Group14ReplyOutcome | ssh-core/src/session.rs:338-358 | the same for group 14 |
| PacketPeer.PeerOpensSealed | ssh-core/src/transport/packet.rs:103-157 | an independent peer, written from PROTOCOL.chacha20poly1305, RFC 5647 and section 6 of RFC 4253, with its keys held apart (main and header key for ChaCha20), opens every packet the code seals, and finds its padding right |
| PacketPeer.OpensPeerSealed | ssh-core/src/transport/packet.rs:162-203 | the code sizes and opens every packet that peer seals, with any padding |
| PacketPeer.PeerReadsStream | ssh-core/src/transport/packet.rs:103-157 | packet after packet: the peer reads every stream of payloads the code sends, to the last byte |
| PacketPeer.ReceivesPeerChunks | ssh-core/src/session.rs:204-229 | and the code receives every stream that peer sends, with padding of its choice and in any chunks |
| Layouts.ReadsOneWay | ssh-core/src/wire.rs:1-69 | a message of a known field layout can be read in one way only, and its fields determine it |
| ClientMessages.OpenIsRead | ssh-core/src/connection/channel.rs:74-82 | CHANNEL_OPEN as section 5.1 of RFC 4254 has it: session, the id, 2 MiB, 32 KiB |
| ClientMessages.PtyIsRead | ssh-core/src/connection/pty.rs:32-42 | pty-req: terminal, columns, rows, pixel width, pixel height, no modes |
| ClientMessages.ExecIsRead | ssh-core/src/connection/exec.rs:9-13 | exec, wanting a reply, with the command |
| ClientMessages.DataIsRead | ssh-core/src/connection/channel.rs:109-146 | data, window adjust, close and refusal, to the server's id |
| ClientMessages.KeyRequestsAreRead | ssh-core/src/auth/publickey.rs:58-103 | the key query, the signed request, and what is signed: the session id and the request without its signature |
| ClientMessages.OpeningSays | ssh-core/src/session.rs:540-555 | opening a channel says one OPEN under the sending cipher, for the id the host is given |
| ClientMessages.AttemptSays | ssh-core/src/session.rs:475-497 | in UserAuth an attempt says one request with this user and password or key; at any other time nothing happens |
| ClientMessages.SendingReports | ssh-core/src/session.rs:560-572 | how much of the data fitted, and a full window reported exactly when not all of it did |
| ClientMessages.ChannelCallsSay | ssh-core/src/session.rs:574-592 | resizing and closing a confirmed channel say one window-change (columns, rows, 0, 0) or close to the server's id; otherwise nothing |
| ClientMessages.AcceptingSays | ssh-core/src/session.rs:405-430 | accepting says NEWKEYS alone in the clear and then the request for ssh-userauth as the first packet under the pending cipher |
| ServerMessages.ExitStatusIsReported | ssh-core/src/connection/mod.rs:194-203 | for every u32 code: exit-status for an open channel raises exactly ChannelExitStatus(id, that code) and does nothing else; for any other channel it ends the session |
| ServerMessages.ExitSignalIsReported | ssh-core/src/connection/mod.rs:205-214 | the same for every signal name in UTF-8 |
| ServerMessages.OtherRequestsAreRefused | ssh-core/src/connection/mod.rs:216-231 | any other request is answered with CHANNEL_FAILURE to the server's id if it wants a reply, and ignored if not |
| ServerMessages.DataIsDelivered | ssh-core/src/connection/mod.rs:113-131 | data reaches the host whole, once, as stdout; the window is granted back in one adjust to the server's id exactly when 1 MiB has been taken |
| ServerMessages.ExtendedIsDelivered | ssh-core/src/connection/mod.rs:132-156 | the same for extended data: code 1 is stderr, everything else stdout |
| ServerMessages.EofIsReported | ssh-core/src/connection/mod.rs:157-162 | end of file on an open channel is reported |
| ServerMessages.CloseIsReported | ssh-core/src/connection/mod.rs:163-168 | a close is reported and the channel forgotten |
| ServerMessages.OpenFailureIsReported | ssh-core/src/connection/mod.rs:91-105 | a refused open is reported with its reason and description |
| ServerMessages.AdjustIsTaken | ssh-core/src/connection/mod.rs:106-112 | an adjust adds to that channel's window, up to the u32 ceiling |
| ServerMessages.ConfirmationRunsCommand | ssh-core/src/session.rs:598-615 | a confirmation gives the channel the server's id, window and packet size (at least 1), is reported, and is followed by exactly one exec with the stored command |
| ServerMessages.ConfirmationAsksForTerminal | ssh-core/src/session.rs:598-615 | the same for a shell: pty-req with the stored terminal, or 80 by 24 xterm-256color |
| ServerMessages.GrantGoesOn | ssh-core/src/session.rs:680-699 | a granted terminal is followed by the shell request; a granted command or shell ends setup |
| ServerMessages.RefusalIsReported | ssh-core/src/session.rs:654-672 | a refused request closes the channel towards the server, forgets it, and is reported with reason 0 |
| ChannelRuns.AnnouncedPacketsAreTaken | ssh-core/src/transport/packet.rs:162-177 | a data message of at most the packet size announced in the OPEN, sealed by the peer with any padding under any cipher, passes the length check and opens |
| SessionMessages.DisconnectIsReported | ssh-core/src/session.rs:233-243 | DISCONNECT closes, says nothing, and is reported with its reason and description |
| SessionMessages.OthersByType | ssh-core/src/session.rs:244-275 | IGNORE, UNIMPLEMENTED and DEBUG change nothing; unknown types, and a reply to no exchange, end the session |
| SessionMessages.NewkeysIsTaken | ssh-core/src/session.rs:433-442 | NEWKEYS moves the waiting receiving cipher into place once, or ends the session |
| SessionMessages.ServiceIsAccepted | ssh-core/src/session.rs:465-473 | only ssh-userauth goes on to authentication |
| SessionMessages.FailureIsReported | ssh-core/src/session.rs:499-506 | the methods that can continue are reported as listed, and the attempt forgotten |
| SessionMessages.SuccessIsReported | ssh-core/src/session.rs:508-513 | connected, reported, and the attempt forgotten |
| SessionMessages.AcceptedKeySigns | ssh-core/src/session.rs:515-536 | an accepted key signs exactly the bytes that read: this session's id, then the request without its signature; and the signed request follows |
| SessionMessages.GlobalRequestIsRefused | ssh-core/src/session.rs:636-645 | REQUEST_FAILURE exactly when a reply is wanted |
| SessionMessages.TransportCloseIsReported | ssh-core/src/session.rs:149-153 | closes an open session with one event and nothing said; a session that is over does not notice |
| SessionMessages.BadLengthEndsSession | ssh-core/src/session.rs:204-217 | an implausible length ends the session before anything is consumed |
| SessionMessages.BadPacketEndsSession | ssh-core/src/session.rs:204-229 | an incomplete packet is waited for; one that does not open, or is empty, is consumed and ends the session with the reason, saying nothing |
| TestServerMessages.PasswordIsJudged | ssh-core-testkit/src/lib.rs:297-350 | the test server's own user and password are let in and nobody else; the answer is success (with a global request after it if set up so) or failure |
| TestServerMessages.SignatureIsJudged | ssh-core-testkit/src/lib.rs:297-350 | a signature is good for the server's own user with a key that verifies it over the session id and the request without it |
| TestServerMessages.QueryIsAccepted | ssh-core-testkit/src/lib.rs:309-321 | a key query is answered with that key |
| TestServerMessages.OpenIsConfirmed | ssh-core-testkit/src/lib.rs:353-369 | an open is confirmed to its sender under id 0, with 2 MiB and 32 KiB |
| TestServerMessages.RequestIsAnswered | ssh-core-testkit/src/lib.rs:371-413 | exec is answered with success, output, exit status, end of file and close, to the id found in it; anything else with a refusal |
| TestServerMessages.ServiceIsOffered | ssh-core-testkit/src/lib.rs:285-295 | ssh-userauth is accepted and anything else panics |
| TestServerMessages.RepliesRead | ssh-core-testkit/src/lib.rs:285-413 | each of its messages reads as the RFCs lay it out |
| Utf8.ValidIsEncoded | ssh-core/src/wire.rs:64-69 | well-formed UTF-8 is exactly the encoding of some list of Unicode scalar values, by the table of RFC 3629 |

## Left out

- Cipher, hash, curve, RSA, Ed25519 and big-integer internals, including the group 14 exponentiation and its range check: laws only.
- `Setting`, `Permitted`: the two-party results bound every string by 32 KiB, so that each message fits one packet, and schedules to fewer than 2^32 - 1 channels.
- Handshake.NobodyFails: covers exec channels only, because `FakeServer` panics on channel data, window adjusts and closes from the client; shell setup is covered for a conforming server by `ChannelSetup.SetupSequencing`.
- Session.Session.Drive: nested ciphers, channels and key-exchange fields are values that the methods reassign, where the source mutates structs it owns; what is not captured is update in place, and Rust's ownership excludes aliasing.
- ChannelTable.ChannelTable.HandleMessage: a channel is a value in the map, reassigned by each message.
- TestServer.TestServer.Handle: ciphers are values, as in the session class.
- After a panic nothing is said of an object but that it panicked; the specification keeps the state before the panicking step.
- The message builders that append to a caller's `Vec` (`write_u32`, `write_string`, the builders in `auth`, `connection` and `transport`) are functions from fields to bytes.
- Handshake.CiphersInStep: no rekeying, which the repository's README excludes and `FakeServer` does not do; sequence numbers under any number of exchanges are in `SequenceNumbers`.
- ChannelSetup.SetupSequencing: of a server that answers an open or a request twice, or gives two live channels one name, nothing is said.
- Negotiation.PeerKexinitHandled: `first_kex_packet_follows` is read and, as in the code, not acted on; nothing is said of a server that guesses.
- Layouts.ReadsOneWay: a boolean of a message is 0 or 1, as RFC 4251 wants it written; that the code takes any other byte for true is in `Wire.Reader.ReadBool`.
- `TestRng`'s generator: any byte stream stands for it.
- Error message texts and `mapEventToError`: the kinds of error are modelled, their wording is not.
- The `ssh_encoding` decoder behind `KexInit::parse` is modelled for its strings; its boolean is any non-zero byte.
- `public_key().to_bytes()` never fails in the model.
- Key file parsing, passphrases, fingerprint formatting and base64: wrappers over libraries.
- PacketCipher.PacketCipher.Seal: `Session` and `TestServer` hold the cipher as the value `Packet.Cipher`, which is what the class is proved equal to, and not as an object of the class; likewise `Wire.Reader` and the getters.
- HostKeyProof.TranscriptsAgree: strings are shorter than 2^32 bytes, and absence of a collision between the two preimages is a hypothesis.
- Json.Bridge.PollEvent: returns the event and its bytes, not the JSON object around the strings and arrays that are modelled.
- Json.Bridge.Pump: the loop's polling and taking; what is done with each event is `ExecClient`, and flushing output is I/O.
- ExecClient.SshClient.Run: here the engine's id is given, and `ExecSession` supplies it; flushing output is I/O.
- ExecClient.SshClient.HandleEvent: the branches that concern `exec()`; host-key, authentication and shell branches call the engine or the user interface.
- ExecClient.SshClient.ShutDown: rejections carry no error value, `onError` is presentation, the order in which pending promises are rejected is not modelled, and callbacks do not call back into the client.
- The password prompt, the auto-opened shell and terminal output of `src/client.ts`: presentation around the engine.
- JSON objects other than the strings and the `remainingMethods` array inside them, and white space a parser would also accept.
- Sockets, timeouts, wasm initialisation, the example and test workers.
