# LeapMux: channel, tunnel and desktop lifecycle, verified in Dafny

LeapMux multiplexes encrypted RPCs, streams and TCP tunnels over one shared WebSocket, and its desktop
sidecar owns the relays, tunnels and solo hub behind them. This project models the parts of it that are
concurrent state machines with explicit bounds, and proves what they promise over every run.

Two kinds of model stand side by side:

- **State machines.** One action per critical section or channel operation; any interleaving of the
  goroutines is a run. Invariants are proved for every action, and the theorems speak about every
  reachable state, every schedule, or every continuation. A step that fails, times out, is cancelled or
  loses a race is an action like any other.
- **Objects.** Where the source mutates fields, a class does too. A method that is one critical section is
  proved to perform exactly the action (or compute the specification function) it stands for. A method that
  spans several, `Write`, `CloseWrite`, `Read` and `onStreamMessage`, performs a run: the object carries the
  trace of the steps taken so far, other goroutines' steps are interleaved wherever the code can be overtaken,
  and the object's state is always the one that trace leads to. So what is proved over runs holds of the objects.

| file | models |
|---|---|
| `Cipher.dfy`, `Noise.dfy` | transport ciphers and the Noise_NK handshakes, classical and hybrid (sections 5.1, 5.2 and 12.3 of the Noise Protocol Framework, revision 34) |
| `NoiseScript.dfy` | the same handshakes written out over hash, HMAC, DH, AEAD, KEM and signature, for every message a peer may send |
| `ChannelWire.dfy`, `Reassembly.dfy`, `Channel.dfy`, `EndToEnd.dfy` | splitting messages into encrypted chunks, reassembling them, and the trip from one end to the other |
| `TunnelFlow.dfy`, `Upstream.dfy`, `Downstream.dfy` | the tunnel data path with the client and the worker half of its flow control |
| `WriteEnd.dfy`, `ReadEnd.dfy` | how a write stream and a Read end: honest acknowledgements, calls and closes that get through, ends that stick |
| `Draining.dfy`, `Refill.dfy` | progress of its two halves: the send window drains, the read credit comes back |
| `ConnWriter.dfy`, `ConnReader.dfy` | `tunnel.Conn` and its read credit as objects that run those machines |
| `Overtaking.dfy`, `Gaps.dfy` | exactly when a Read can report the end over data, lose order, or report a clean EOF too early |
| `OperationGate.dfy`, `Lifecycle.dfy`, `Relay.dfy` | the desktop app's admission gate, mode transitions, shutdown and relays |
| `ChannelCache.dfy` | the epoch-fenced channel cache and the tunnels beside it |
| `Teardown.dfy` | connection, both relays and tunnels together, torn down under one hold of `lifecycleMu` |
| `ProxyBudget.dfy` | the proxy's frame budget against real protobuf bytes |
| `Bytes.dfy` | byte strings, `Option`, `Result` |

`dafny verify dfyconfig.toml` checks everything.

## Where the code does not do what it says

Four promises made by comments or by the code's intent are false of the code. Each is kept as the code
has it, with a run that shows the failure and the exact condition under which the promise holds.

- **EOF after the data** (`backend/tunnel/conn.go:465-474`). Read polls `readBuf` and then `terminal` in two
  steps. A frame enqueued between them, followed by the end, makes Read report the end with the frame still
  buffered (`Downstream.EofCanOvertakeData`). For every reachable state in which a Read stands between its polls,
  `Overtaking.TerminalBeforeDrainedIff` says exactly when some interleaving does this: with the worker finished
  and the buffer just found empty, if the end is latched and a frame is in the dispatcher's hands, or a frame and
  the end behind it are both still under way to a conn that is not closed (`Overtaking.AtThePoll`). Once an end is
  latched and the dispatcher holds no frame, every later iteration drains first (`Downstream.ReadAfterEndDrains`).
- **A byte stream without gaps, and a truthful EOF** (`backend/tunnel/conn.go:414-418`). On a dead channel the
  dispatcher's select may abandon one frame and enqueue the next, or latch a clean EOF after abandoning the
  last frame (`Downstream.DeadChannelCanSkipAFrame`, `Downstream.DeadChannelCanFakeCleanEof`). While the channel
  lives both promises hold. `Gaps.InOrderIff` and `Gaps.CleanEofIff` say, of every reachable state, exactly when
  some continuation breaks them, in terms of what is missing, held, under way and still to come.
- **A relay's owner is stable once stamped** (comment at `desktop/go/app.go:371-377`). The adopt path restamps it
  (`desktop/go/channel_relay.go:322`), so a frame lost just before a takeover leaves the broken relay installed
  (`Relay.AdoptedRelayCanKeepAGap`). While the relay stays installed its teardown closes it exactly when nobody
  with a different id took it over between the emit and the teardown, and always for the restarting relay
  (`Relay.FaultClosesItsRelayIff`).
- **CloseAll closes all tunnels** (`desktop/go/tunnel.go:479-491`). Its two critical sections let a create begin or
  register in between (`ChannelCache.TunnelCanOutliveCloseAll`). Whatever interleaves, it leaves nothing behind
  exactly when its own caller holds `lifecycleMu` and every connection's lifetime is over; that somebody else holds
  the lock does not help (`ChannelCache.CloseAllLeavesNothingIff`). `disconnectLocked` meets the condition by
  stopping the connection first (`ChannelCache.DisconnectClosesAll`); `ResetTunnels`, which takes no lock, meets it
  in no reachable state (`ChannelCache.ResetTunnelsCanLeaveATunnel`).

## Model

| member | source | states |
|---|---|---|
| `Cipher.CounterKeepsLaws` | backend/internal/noise/noise.go:727-752 | the 12-byte little-endian nonce encoding turns a nonce-keyed ChaChaPoly that opens what it sealed into a counter-keyed one that does |
| `Cipher.NonceBytesInjective` | backend/internal/noise/noise.go:727-736 | two 32-bit counters with the same nonce bytes are the same counter |
| `Cipher.CipherState.EncryptNext` | backend/internal/noise/noise.go:229-242 | the object encrypts and advances exactly as the specification, error cases included |
| `Cipher.CipherState.DecryptNext` | backend/internal/noise/noise.go:245-255 | a failed decrypt leaves the counter where it was; a successful one advances it by one |
| `Cipher.NoncesAreConsecutive` | backend/internal/noise/noise.go:229-242 | over any calls, the truncated nonces actually used are the consecutive values from the starting counter, none lost to the uint32 cast |
| `Cipher.NonceNeverReused` | backend/internal/noise/noise.go:229-242 | no two encryptions of one state ever use the same nonce bytes |
| `Cipher.ExhaustedExactlyAfterSpan` | backend/internal/noise/noise.go:229-242 | a state refuses exactly after 2^32 encryptions, and for every later plaintext |
| `Cipher.RefusedWithoutTrace` | backend/internal/noise/noise.go:229-255 | encryption is refused exactly for an oversized plaintext or a spent counter, decryption exactly for a spent counter or a ciphertext that does not open, and exactly the refused calls leave the state alone |
| `Cipher.AcceptsAtMostSpan` | backend/internal/noise/noise.go:245-255 | over any stream the receive counter tells how many ciphertexts were accepted, and never passes 2^32 |
| `Cipher.LockstepDelivery` | backend/internal/noise/noise.go:229-255 | ordered ciphertexts, with any rejected garbage mixed in, decrypt to the original plaintexts and leave both counters equal |
| `Noise.HashRoundTrip` | backend/internal/noise/noise.go:166-196 | decryptAndHash undoes encryptAndHash and both ends keep equal hash, chaining key and nonce |
| `Noise.SymmetricState.Mix` | backend/internal/noise/noise.go:151-156 | mixHash on the object is the specification's |
| `Noise.SymmetricState.MixSecret` | backend/internal/noise/noise.go:158-164 | mixKey replaces chaining key and key and resets the nonce |
| `Noise.SymmetricState.Seal` | backend/internal/noise/noise.go:166-180 | encryptAndHash on the object |
| `Noise.SymmetricState.Open` | backend/internal/noise/noise.go:182-196 | decryptAndHash on the object; a failure changes nothing |
| `Noise.TurnAgrees` | backend/internal/noise/noise.go:308-335 | a message written to an honest key is read back, and the two symmetric states are equal afterwards |
| `Noise.ClassicalAgreement` | backend/internal/noise/noise.go:537-662 | for all keys and ephemerals the classical handshake succeeds and each side's send key is the other's receive key, at nonce 0 |
| `Noise.HybridAgreement` | backend/internal/noise/noise.go:308-531 | for all keys, ephemerals and coins the hybrid handshake succeeds and each side's send key is the other's receive key, at nonce 0; which keys these are is `NoiseScript.HybridKeys` |
| `NoiseScript.TurnWritten` | backend/internal/noise/noise.go:158-180 | one written message over the primitives: the two HMAC expansions that give chaining key and key, the payload sealed at nonce 0 over the hash of the ephemeral, the hash after it |
| `NoiseScript.TurnRead` | backend/internal/noise/noise.go:158-196 | one read message over the primitives: refused exactly when the DH fails or the payload does not open under that key, over that hash |
| `NoiseScript.HybridSplitKeys` | backend/internal/noise/noise.go:209-219 | over HMAC alone: the KEM secret is mixed into the chaining key first; the keys are the first 32 bytes of the two expansions, at counter 0 |
| `NoiseScript.HybridResponderIs` | backend/internal/noise/noise.go:308-412 | on any first message the exact refusal, or the exact response bytes, signature over hash, ciphertext and secret, and session keys |
| `NoiseScript.HybridInitiator1Is` | backend/internal/noise/noise.go:414-475 | the exact first message, KEM ciphertext last, and the hash, chaining key and key kept for the second |
| `NoiseScript.HybridInitiator2Is` | backend/internal/noise/noise.go:477-531 | on any second message: a wrong size, a refused DH, a tampered payload and a bad signature are refused, nothing else is, and the session keys are the exact ones |
| `NoiseScript.ClassicalResponderIs` | backend/internal/noise/noise.go:537-594 | the same for the classical responder |
| `NoiseScript.ClassicalInitiator1Is` | backend/internal/noise/noise.go:596-630 | the same for the classical first message |
| `NoiseScript.ClassicalInitiator2Is` | backend/internal/noise/noise.go:632-662 | the same for the classical second step |
| `NoiseScript.HybridKeys` | backend/internal/noise/noise.go:308-531 | in every honest hybrid handshake both ends hold the keys derived, over HMAC, from both DH outputs and the KEM secret |
| `NoiseScript.KemSecretSeparatesKeys` | backend/internal/noise/noise.go:206-219 | in some lawful suite, under every chaining key, two KEM secrets give different keys in both directions |
| `Noise.MirroredSessionsCarry` | backend/internal/noise/noise.go:277-285 | two agreed sessions carry any plaintexts in step |
| `Noise.RespondHybrid` | backend/internal/noise/noise.go:308-412 | the imperative responder computes `HybridResponder`, whose messages, keys and refusals `NoiseScript.HybridResponderIs` writes out |
| `Noise.InitiateHybrid` | backend/internal/noise/noise.go:414-475 | the imperative first message and pending state are `HybridInitiator1`'s, written out in `NoiseScript.HybridInitiator1Is` |
| `Noise.FinishHybrid` | backend/internal/noise/noise.go:477-531 | the imperative second step computes `HybridInitiator2`, whose keys and refusals `NoiseScript.HybridInitiator2Is` writes out |
| `Noise.RespondClassical` | backend/internal/noise/noise.go:537-594 | the classical responder computes `ClassicalResponder`, written out in `NoiseScript.ClassicalResponderIs` |
| `Noise.InitiateClassical` | backend/internal/noise/noise.go:596-630 | the classical first message and pending state are `ClassicalInitiator1`'s, written out in `NoiseScript.ClassicalInitiator1Is` |
| `Noise.FinishClassical` | backend/internal/noise/noise.go:632-662 | the classical second step computes `ClassicalInitiator2`, written out in `NoiseScript.ClassicalInitiator2Is` |
| `ChannelWire.FlagsOf` | backend/channelwire/wire.go:197-206 | the flag the sender writes is read back as the chunk's own MORE bit, and as valid |
| `ChannelWire.SplitMessageSpells` | backend/channelwire/wire.go:243-279 | the chunks join to the message, MORE is set on all but the last, all fit a Noise message and all but the last are full |
| `ChannelWire.TransmitOutcome` | backend/channelwire/wire.go:243-279 | a transmission succeeds exactly when no write fails and the counter lasts; otherwise a proper prefix is out; each frame opens at its own counter to its chunk |
| `ChannelWire.FrameSender.SendChannelFrames` | backend/channelwire/wire.go:243-279 | the loop over offset transmits exactly the chunks of the split message, with its failures |
| `ChannelWire.ChunkBuffer.AppendChunk` | backend/channelwire/chunkbuffer.go:41-54 | appends, keeps the total equal to the parts' sum, and reports a breach exactly beyond the limit |
| `ChannelWire.ChunkBuffer.Poison` | backend/channelwire/chunkbuffer.go:30-34 | drops the bytes and marks the buffer |
| `ChannelWire.ChunkBuffer.Join` | backend/channelwire/chunkbuffer.go:56-67 | the parts in order |
| `ChannelWire.CountByState` | backend/channelwire/chunkbuffer.go:73-83 | the number of live buffers, and of tombstones, whatever order the map is walked in |
| `Reassembly.NextKeepsInv` | backend/tunnel/channel.go:882-965 | every arrival, registration, unregistration and close keeps the joint invariant of the three maps |
| `Reassembly.RunKeepsInv` | backend/tunnel/channel.go:882-965 | over every run: each entry's id has a handler, at most four entries are live, live totals are exact and within the cap, tombstones hold nothing |
| `Reassembly.NewIdIsClean` | backend/tunnel/channel.go:651-666 | in every reachable state a newly allocated id has no handler and inherits no buffer |
| `Reassembly.DrainedStaysEmpty` | backend/tunnel/channel.go:572-590 | once Close has emptied the maps they stay empty in every continuation |
| `Reassembly.CloseIsFinal` | backend/tunnel/channel.go:572-590 | from any state, no request is registered once Close has set its flag, and after its second half no handler or buffer is left in any continuation |
| `Reassembly.UnregisteredIsDropped` | backend/tunnel/channel.go:731-752 | an unregistered id has no handler and no buffer, the other handlers stay, and a chunk that still arrives for it is dropped |
| `Reassembly.MemoryBound` | backend/tunnel/channel.go:111-144 | a peer never pins more than four messages of the cap, whatever it sends |
| `Reassembly.RunRefinesSeat` | backend/tunnel/channel.go:882-965 | seen from one id whose handler stays, the whole machine behaves like a reference automaton for that id alone |
| `Reassembly.EveryMessageJudgedOnce` | backend/tunnel/channel.go:886-964 | each message on an id gets one TooLarge error if refused or over the cap, otherwise one whole delivery at its last chunk, and the next is judged afresh |
| `Channel.FreeIdExists` | backend/tunnel/channel.go:706-721 | the pigeonhole argument for the id loop's termination |
| `Channel.Channel.AllocateReqId` | backend/tunnel/channel.go:708-721 | the 64-bit counter wraps and stops at the first nonzero unhandled id after it |
| `Channel.Channel.RegisterRequest` | backend/tunnel/channel.go:651-666 | refused exactly when closed; otherwise a fresh id is returned and exactly the handlers asked for are installed under it, with no buffer touched |
| `Channel.Channel.UnregisterRequest` | backend/tunnel/channel.go:731-752 | exactly the handlers named go, and the buffer goes with the last one |
| `Channel.Channel.LiveReassembly` | backend/tunnel/channel.go:111-116 | the number of ids with a live buffer |
| `Channel.Channel.StartPoisoned` | backend/tunnel/channel.go:131-140 | an id without an entry gets a tombstone |
| `Channel.Channel.BufferMore` | backend/tunnel/channel.go:908-943 | the MORE branch: refused, poisoned or buffered exactly as specified |
| `Channel.Channel.FinishMessage` | backend/tunnel/channel.go:945-965 | the final branch hands out the whole message once and removes the buffer first |
| `Channel.Channel.ReassembleLocked` | backend/tunnel/channel.go:882-965 | heap buffers updated in place produce the specified state and outcome |
| `Channel.Channel.ReassembleFrame` | backend/tunnel/channel.go:985-1010 | out-of-spec flags are dropped; otherwise the arrival action |
| `Channel.Channel.BeginClose` | backend/tunnel/channel.go:572-590 | only the first Close wins; the flag is set, and from then on registration is refused |
| `Channel.Channel.FinishClose` | backend/tunnel/channel.go:572-590 | the drain action: all three maps emptied |
| `EndToEnd.SentSpells` | backend/channelwire/wire.go:243-279 | what a successful send puts on the wire carries its message's chunks under consecutive counters |
| `EndToEnd.EmitSpells` | backend/tunnel/channel.go:810-826 | encrypting any schedule in transport order succeeds exactly while the counter lasts, and then every frame opens at its own counter to its chunk |
| `EndToEnd.RecvLoop` | backend/tunnel/channel.go:1019-1064 | the loop decrypts, reassembles and dispatches in order, and is still alive at the end exactly if every frame opened under the key at its own counter |
| `EndToEnd.AliveIff` | backend/tunnel/channel.go:1033-1037 | over any frames the receiver stays alive exactly as long as each frame opens at its own counter |
| `EndToEnd.FirstBadFrameIsTheLast` | backend/tunnel/channel.go:1033-1037 | at the first frame that does not open the receiver dies with what it had: whatever follows, nothing more is delivered, buffered or decrypted |
| `EndToEnd.EveryMessageDelivered` | backend/tunnel/channel.go:882-965 | for any messages within the cap, interleaved in any per-id order with at most four incomplete, encrypted and decrypted in transport order: each id receives exactly its messages, whole and in order, the two ciphers end in step and no buffer remains |
| `EndToEnd.DeliveredAtFinalFrame` | backend/tunnel/channel.go:886-964 | after any number of the encrypted frames each id has been handed exactly the messages whose last chunk is among them, and the live buffers are exactly the incomplete ones |
| `EndToEnd.SerialSendsDelivered` | backend/tunnel/channel.go:778-826 | any successful SendChannelFrames calls, one after another under the send permit, are received as exactly those messages in exactly that order across all ids |
| `EndToEnd.RegisteredReplyArrives` | backend/tunnel/channel.go:659-665 | on any channel with no message incomplete: after registering a handler of either kind, a reply within the cap on the new id is delivered whole |
| `Upstream.NextKeepsInv` | backend/tunnel/conn.go:623-716 | every client, worker and network step keeps the window, wire, byte, close, gate, flight and target invariants |
| `Upstream.NeverRejects` | backend/internal/tunnelflow/tunnelflow.go:13-18 | no frame of this client is ever one the worker's gate refuses |
| `Upstream.WindowConserved` | backend/tunnel/conn.go:582-612 | slots in use are exactly the ack waiters plus the writer's own, at most 64 frames of 32 KiB, all within the worker's lookahead |
| `Upstream.WriteStreamExact` | backend/tunnel/conn.go:522-558 | payloads on the wire are, in lock order, the bytes Write calls reported; numbers have no gap or repeat, a call's chunks are contiguous, and nothing follows the single half-close, retried or not |
| `Upstream.TargetSeesPrefix` | backend/internal/worker/service/tunnel.go:476-533 | the target has received a prefix of the wire, exactly the applied frames until a write to it fails, and its end-of-stream only after every byte |
| `Upstream.GracefulCloseCoversAll` | backend/tunnel/conn.go:304-321 | an ordered close carries the number of frames ever sent, no frame follows it in any continuation, and honouring it means the target has every byte |
| `WriteEnd.AcksAreHonest` | backend/internal/worker/service/tunnel.go:476-533 | in every reachable state an ok answer for frame i means every byte up to it reached the target, a failure answer or a latched conn means a target write failed or the worker's conn is closed, and a passed half-close has reached the target |
| `WriteEnd.NakStopsWrites` | backend/tunnel/conn.go:742-753 | once a waiter has seen a failure answer no continuation puts a frame on the wire, except the one being sent at that moment |
| `WriteEnd.CloseAsksOnce` | backend/tunnel/conn.go:756-765 | in every reachable state the remote close was asked for exactly if the conn is closed; from then on no Close asks again and a sent close stays as it is |
| `WriteEnd.CloseGetsOut` | backend/tunnel/conn.go:304-345 | from every reachable state with the conn closed and the channel alive, client steps without failures lead to a sent close, ordered and counting every frame ever sent if its number was still to be chosen |
| `WriteEnd.CallGetsThrough` | backend/tunnel/conn.go:522-716 | from every reachable healthy state with a Write or CloseWrite running, its own steps and acknowledgements lead to its return with the whole buffer reported, or the half-close sent, and worker steps then bring everything to the target |
| `WriteEnd.CloseIsHonoured` | backend/internal/worker/service/tunnel_flow.go:133-165 | from every reachable state with the close asked for and channel and worker up, a close run and then worker steps end in the graceful close, with every byte ever sent, and the end of stream, at the target unless a target write had failed |
| `Draining.WindowDrains` | backend/tunnel/conn.go:742-753 | from every reachable state with conn, channel and worker up, steps of the worker and the ack waiters alone lead to one in which only the writer's own slot is in use |
| `Downstream.NextKeepsInv` | backend/tunnel/conn.go:362-500 | every step of worker, dispatcher, reader and grant loop keeps the credit, wakeup, byte, order, ending and size invariants |
| `Downstream.CreditConserved` | backend/tunnel/read_credit.go:66-100 | the 128 units are always accounted for, none lost while the conn is open; enqueueing never waits, buffered bytes stay within 4 MiB, the worker's clamp never bites |
| `Downstream.DrainedWorkerHasCredit` | backend/tunnel/read_credit.go:66-100 | no lost wakeup: an open conn that is drained and quiet leaves the worker at least 113 credits |
| `Refill.CreditReturns` | backend/tunnel/read_credit.go:66-100 | from every open state the steps of dispatcher, reader and grant loop alone lead to one in which the worker has, or has on its way, at least 112 credits |
| `Refill.StarvedWorkerIsFed` | backend/internal/tunnelflow/tunnelflow.go:26-29 | from every reachable open state a worker at zero credit gets credit again by steps of the client and the arrival of one grant |
| `Downstream.ReadStreamExact` | backend/tunnel/conn.go:447-500 | bytes returned, then readPart, then readBuf, are what was enqueued, for any buffer sizes |
| `Overtaking.TerminalBeforeDrainedIff` | backend/tunnel/conn.go:465-474 | in every reachable state between the two polls, some interleaving makes this Read report the end over buffered data if and only if a condition on the dispatcher, the transit, the worker and the closed flag holds |
| `Overtaking.AtThePoll` | backend/tunnel/conn.go:465-474 | from the moment the buffer is found empty with the worker finished, some interleaving reports the end over data if and only if the end is latched with a frame in the dispatcher's hands, or a frame and the end are both under way to an open conn |
| `Downstream.EofCanOvertakeData` | backend/tunnel/conn.go:465-474 | a run on a live channel in which EOF overtakes a buffered frame |
| `Downstream.ReadAfterEndDrains` | backend/tunnel/conn.go:454-474 | once any end is latched and the dispatcher holds no frame, nothing more is enqueued in any continuation and every later iteration drains first |
| `ReadEnd.FirstEndSticks` | backend/tunnel/conn.go:366-390 | the end latched first is the one in force in every continuation |
| `ReadEnd.CloseEndsReads` | backend/tunnel/conn.go:454-464 | after Close, with no Read past its closed check, no continuation hands a caller another byte, and only a frame the dispatcher already held may still be buffered |
| `ReadEnd.ReadComesTo` | backend/tunnel/conn.go:447-478 | from every reachable state a Read running undisturbed on an open conn hands out the next bytes, at least one and at most n, if any are buffered, even with an end latched; otherwise it returns the end, or waits |
| `ReadEnd.ParkedReadWakes` | backend/tunnel/conn.go:480-498 | a waiting Read can take a frame as soon as one is buffered, and leaves at once on close, an end or a dead channel |
| `Downstream.InOrderWhileAlive` | backend/tunnel/conn.go:362-420 | while the channel lives, what arrived is a prefix of what was sent |
| `Gaps.InOrderIff` | backend/tunnel/conn.go:414-418 | in every reachable state, some continuation puts a gap into the byte stream if and only if one is there, a frame is missing while another is held, or enough frames can still come |
| `Downstream.DeadChannelCanSkipAFrame` | backend/tunnel/conn.go:414-418 | a run in which a dying channel delivers the second frame without the first |
| `Downstream.EofWhileAliveIsComplete` | backend/tunnel/conn.go:380-383 | while the channel lives, a clean EOF comes after every byte that was sent |
| `Gaps.CleanEofIff` | backend/tunnel/conn.go:380-418 | in every reachable state, some continuation ends in a clean EOF with bytes missing if and only if a condition on what is missing, under way and still sendable holds |
| `Downstream.DeadChannelCanFakeCleanEof` | backend/tunnel/conn.go:414-418 | a run in which Read reports a clean EOF without the last frame |
| `ConnReader.Reader.TakePending` | backend/tunnel/read_credit.go:92-95 | the loop takes all of pending, once |
| `ConnReader.Reader.GrantTurn` | backend/tunnel/read_credit.go:85-100 | one turn of the loop is a run of Downstream that grants exactly what had accrued when it looked, however much came after the signal |
| `ConnReader.Reader.CopyHead` | backend/tunnel/conn.go:425-432 | the bytes copied and the bytes parked are the frame |
| `ConnReader.Reader.Consume` | backend/tunnel/read_credit.go:66-80 | the accrual and the poke as steps of the run, with others between them |
| `ConnReader.Reader.Park` | backend/tunnel/conn.go:480-498 | each arm of the select is its step of the run; an arm that is not ready leaves Read parked |
| `ConnReader.Reader.Read` | backend/tunnel/conn.go:447-500 | the whole loop is a run of Downstream: the bytes handed over are the next of the stream, at the front of the caller's buffer, and an error hands over none |
| `ConnReader.Reader.OnStreamMessage` | backend/tunnel/conn.go:362-420 | a run of Downstream that enqueues the frame or nothing, refuses it only when conn or channel is going away, latches an end, and always finds room |
| `ConnWriter.Writer.CheckLatches` | backend/tunnel/conn.go:632-643 | refuses data after a half-close, and anything after a NAK |
| `ConnWriter.Writer.RecheckLatches` | backend/tunnel/conn.go:676-683 | the second look, close and NAK both, with the slot given back on refusal |
| `ConnWriter.Writer.SendFrameLocked` | backend/tunnel/conn.go:623-716 | a run of Upstream that puts the call's next frame on the wire, or nothing, whatever others do while it waits, holds and sends |
| `ConnWriter.Writer.Write` | backend/tunnel/conn.go:522-558 | a run of Upstream whose frames carry exactly the reported prefix, numbered on and full but the last; it fails exactly when closed or short |
| `ConnWriter.Writer.CloseWrite` | backend/tunnel/conn.go:783-822 | a run of Upstream with at most one half-close frame ever; a failed attempt leaves the wire alone and can be retried |
| `OperationGate.CounterIsExact` | desktop/go/drain.go:57-101 | the counter is the number of admitted operations whose done has not run, however often done is called; done never panics; a successful drain outlived all it sampled |
| `OperationGate.NothingAdmittedAfterClose` | desktop/go/operation_gate.go:36-58 | after the step that closes and cancels, nothing is admitted in any continuation |
| `OperationGate.CloseIsFinal` | desktop/go/operation_gate.go:51-58 | from any state, after the closing step itself nothing is admitted in any continuation, and its cancel stays |
| `OperationGate.DrainsEnd` | desktop/go/drain.go:57-101 | from every reachable state, once the admitted operations run their done funcs the counter is zero and every parked drain finds its channel closed |
| `OperationGate.DrainAfterCloseCoversAll` | desktop/go/operation_gate.go:60-71 | a drain after close that reports success means every operation ever admitted has finished |
| `OperationGate.OpenGateDrainCanMissWork` | desktop/go/drain.go:81-101 | without the close, a successful drain can leave an operation running |
| `OperationGate.WaitCounter.Done` | desktop/go/drain.go:63-79 | panics before changing anything exactly at zero; otherwise decrements and closes the channel at the crossing |
| `OperationGate.WaitCounter.DoneChan` | desktop/go/drain.go:89-101 | an already closed channel at zero, otherwise the one the next crossing closes |
| `OperationGate.Gate.BeginOperation` | desktop/go/operation_gate.go:36-46 | admits exactly while open |
| `OperationGate.Gate.Done` | desktop/go/operation_gate.go:42-45 | any number of calls counts once |
| `OperationGate.Gate.CloseGate` | desktop/go/operation_gate.go:51-58 | closes and cancels in one action, keeping the invariant |
| `OperationGate.Gate.StartDrain` | desktop/go/operation_gate.go:69-71 | the drain's channel is closed at once exactly when nothing is unfinished |
| `Lifecycle.NextKeepsInv` | desktop/go/app.go:553-735 | every section of the transitions and of Shutdown keeps the gate and runtime invariants |
| `Lifecycle.RuntimesConserved` | desktop/go/app.go:624-735 | no install overwrites a connection, one transition at a time is past the gate, and every started solo runtime is in exactly one place or was stopped exactly once |
| `Lifecycle.EverythingStopped` | desktop/go/app.go:105-143 | when Shutdown is through and all transitions have returned, every runtime was stopped exactly once and no connection is left |
| `Lifecycle.NothingInstalledAfterTeardown` | desktop/go/app.go:118-141 | after the teardown, with or without the transition gate, no step of any schedule installs a connection |
| `Lifecycle.SwitchDisconnects` | desktop/go/app.go:553-588 | from every reachable uncancelled state SwitchMode, past the gate, returns with no connection, the runtime it had stopped exactly once and no other touched |
| `Lifecycle.SoloConnects` | desktop/go/app.go:624-718 | from every such state ConnectSolo installs the runtime it started when nothing is connected, and otherwise changes nothing |
| `Lifecycle.DistributedConnects` | desktop/go/app.go:748-805 | the same for ConnectDistributed, with no runtime |
| `Lifecycle.RollBackStops` | desktop/go/app.go:724-735 | a started runtime that cannot be installed, cancelled or failed, is stopped exactly once, the connection stays as it was and the gate is released |
| `Lifecycle.ShutdownGetsThrough` | desktop/go/app.go:105-143 | from every reachable state Shutdown gets through, with the gate or without it: no connection is left, its runtime is stopped exactly once and no other is touched |
| `Lifecycle.CommitReliesOnTheGate` | desktop/go/app.go:697-718 | without the transition gate there is a run in which one solo commit overwrites another and a runtime is left running that nobody can stop |
| `Lifecycle.App.CommitSoloConnection` | desktop/go/app.go:697-718 | installs exactly when not shutting down, the config is saved and the context live, over nothing; otherwise the runtime goes to the rollback |
| `Lifecycle.App.CommitDistributedConnection` | desktop/go/app.go:775-805 | re-validates and installs exactly when not shutting down, the probe stands, the config is saved and the context live |
| `Lifecycle.App.DisconnectLocked` | desktop/go/app.go:590-615 | empties the connection and hands back its runtime |
| `Lifecycle.App.SwitchDisconnect` | desktop/go/app.go:573-575 | SwitchMode's disconnect is the disconnect action: the runtime passes into its hands |
| `Lifecycle.App.ShutdownTeardown` | desktop/go/app.go:135-137 | the teardown action, keeping the invariants |
| `Lifecycle.App.StopAndReturn` | desktop/go/app.go:724-735 | the runtime in hand goes from never stopped to stopped once, and the gate is released |
| `Teardown.NoConnectionNothingElse` | desktop/go/app.go:590-615 | in every reachable state of the whole app, no connection means no relay of either kind, no tunnel and no live lifetime of connection, relay or open; a teardown in progress can always end, and leaves exactly that |
| `Teardown.ShutdownIsFinal` | desktop/go/app.go:105-143 | after Shutdown's teardown no continuation ever has a connection, a relay, a tunnel or a relay lifetime again |
| `Relay.NextKeepsInv` | desktop/go/channel_relay.go:198-261 | every section of opens, closes, deaths, transitions and shutdown keeps the slot, socket, lifetime and owner invariants |
| `Relay.ResourcesConserved` | desktop/go/channel_relay.go:198-261 | in every reachable state the unclosed sockets are exactly the installed relay's and those of opens between dial and install, and every uncancelled lifetime is the installed relay's or that of an open in flight, on the connection that is up |
| `Relay.StopEndsLifetimes` | desktop/go/app.go:590-615 | in every reachable state stopping the connection cancels every lifetime, and a disconnect or teardown also empties slot and connection |
| `Relay.PrepareOutcome` | desktop/go/channel_relay.go:205-223 | in every reachable state with a connection: a newer owner refuses the open, an adopting policy hands a live relay to it, and otherwise the slot is emptied, its relay released, and the open dials |
| `Relay.InstallOutcome` | desktop/go/channel_relay.go:244-260 | the second decision likewise: refused or handed the live relay with both its resources released, or installed in place of the old relay |
| `Relay.DeadRelayIsReplaced` | desktop/go/channel_relay.go:314-323 | once an adopting policy's relay has died, the next open empties the slot and dials, and a dialed one installs itself, whoever owned the dead one |
| `Relay.NothingInstalledAfterTeardown` | desktop/go/app.go:506-516 | after Shutdown's teardown no step of any schedule installs a relay or a connection, or keeps a lifetime alive |
| `Relay.ForeignCloseIsNoOp` | desktop/go/channel_relay.go:80-87 | in every reachable state a close or an undeliverable-frame teardown naming another owner changes nothing; the owner's empties the slot and releases its resources |
| `Relay.ForeignClosesNeverMatter` | desktop/go/channel_relay.go:80-87 | deleting every foreign close from any schedule leaves a schedule with the same outcome |
| `Relay.NewestOwns` | desktop/go/channel_relay.go:314-346 | under both policies and every schedule of opens with successful dials, from no relay, a live one or a dead one, the relay ends owned by the largest id among them and the previous owner, who does not count where the policy adopts and its relay was dead; an adopting policy ends with a live relay |
| `Relay.OwnerKeptIff` | desktop/go/channel_relay.go:314-323 | along any run a relay's owner only grows, and stays the same exactly when no open with a different id takes the relay over |
| `Relay.FaultClosesItsRelayIff` | desktop/go/app.go:334-353 | for a frame lost in any reachable state, the later teardown closes the relay that lost it, still installed, exactly when no open with a different id took it over in between; always under restart |
| `Relay.AdoptedRelayCanKeepAGap` | desktop/go/channel_relay.go:314-323 | a run in which the relay that lost a frame stays installed |
| `Relay.RelayHost.ApplyPolicy` | desktop/go/channel_relay.go:314-323 | refuses exactly for a newer owner of a relay that counts, adopts exactly a live relay under the adopting policy, proceeds otherwise, and restamps the owner only on adoption |
| `Relay.RelayHost.PrepareOpen` | desktop/go/channel_relay.go:205-223 | the first critical section is the prepare action |
| `Relay.RelayHost.InstallOpen` | desktop/go/channel_relay.go:244-260 | the second is the install action: installed with its own id, or both its resources released |
| `Relay.RelayHost.CloseIfOwner` | desktop/go/channel_relay.go:433-449 | closes exactly for the owner, and otherwise leaves the whole state as it was |
| `Relay.RelayHost.CloseCurrent` | desktop/go/orgevents_relay.go:142-151 | cancels, closes and clears, or nothing when empty |
| `ChannelCache.NextKeepsInv` | desktop/go/tunnel.go:533-638 | every step keeps the key, single-flight, channel and tunnel invariants |
| `ChannelCache.CacheIsFenced` | desktop/go/tunnel.go:498-638 | over every run both maps hold only current keys, one open runs per key, and every channel opened is cached, in hand, handed over or closed |
| `ChannelCache.InsertNeverOverwrites` | desktop/go/tunnel.go:604-617 | caching an opened channel overwrites nothing, happens exactly under the current revision, and a stale one is handed to be closed |
| `ChannelCache.LookupIsServed` | desktop/go/tunnel.go:533-629 | from every reachable state lookups and opens that succeed lead to an open channel cached for the peer under the same revision, and a lookup then changes nothing |
| `ChannelCache.ClosedChannelLeaves` | desktop/go/tunnel.go:533-638 | a cached channel that closed leaves the cache, alone, by eviction or at the next lookup, which waits on an unfinished open of that key instead |
| `ChannelCache.DroppedGetClosed` | desktop/go/tunnel.go:498-629 | in every reachable state a channel dropped by a reset, or opened too late, can be closed and then is |
| `ChannelCache.TunnelsRegisterCurrent` | desktop/go/tunnel.go:390-407 | every tunnel a run adds was registered at a moment when the revision it was created under was current, its connection live and its request wanted |
| `ChannelCache.CloseAllLeavesNothingIff` | desktop/go/tunnel.go:480-491 | CloseAll leaves no tunnel, whatever interleaves, exactly when its own caller holds lifecycleMu and every connection lifetime is over |
| `ChannelCache.DisconnectClosesAll` | desktop/go/app.go:590-615 | disconnectLocked meets that condition from every reachable state, so nothing survives it |
| `ChannelCache.ResetTunnelsCanLeaveATunnel` | desktop/go/app.go:872-880 | ResetTunnels does not: from every reachable state, whoever else holds the lock, some interleaving leaves a tunnel |
| `ChannelCache.TunnelCanOutliveCloseAll` | desktop/go/tunnel.go:480-510 | whenever the condition fails, a create that begins and registers between the two sections leaves a tunnel of a revision that is gone |
| `ChannelCache.TunnelManager.GetOrOpenChannel` | desktop/go/tunnel.go:533-572 | a live cached channel, or the one unfinished open to wait for, or a refusal for a stale revision |
| `ChannelCache.TunnelManager.FinishOpen` | desktop/go/tunnel.go:604-629 | the finish action; no cached channel is displaced and exactly a stale success is returned to be closed |
| `ChannelCache.TunnelManager.RemoveClosedChannel` | desktop/go/tunnel.go:631-638 | removes the key exactly if it still holds that channel, and nothing else |
| `ChannelCache.TunnelManager.ResetChannels` | desktop/go/tunnel.go:498-518 | a new revision, empty maps, and every cached channel handed over to be closed |
| `ChannelCache.TunnelManager.RegisterTunnel` | desktop/go/tunnel.go:390-407 | registers exactly under the current revision with live contexts |
| `ChannelCache.TunnelManager.DeleteTunnel` | desktop/go/tunnel.go:453-466 | removes exactly that tunnel, and reports whether it was there |
| `ProxyBudget.VarintRoundTrip` | proto/leapmux/desktop/v1/frame.proto:169-186 | the varint encoding the sizes are measured on reads back |
| `ProxyBudget.ProxyResponseBodyBudget` | desktop/go/proxy.go:372-395 | the loops compute one budget whatever order the map is walked in |
| `ProxyBudget.HeaderValuesToProto` | desktop/go/proxy.go:345-354 | exactly the headers that have values |
| `ProxyBudget.ReadWithinBudget` | desktop/go/proxy.go:319-343 | the whole body exactly when it fits, otherwise the right refusal; never a truncated body |
| `ProxyBudget.AdmittedFrameFits` | desktop/go/proxy.go:356-395 | for every header map, entry order, id, status and admitted body, the encoded frame is at most maxFrameSize bytes |
| `ProxyBudget.FullBudgetFillsFrame` | desktop/go/proxy.go:356-395 | a body of exactly the budget fills the frame up to 48 bytes, 13 a header and 4 a value: the budget wastes nothing but its framing estimates |
| `ProxyBudget.NegativeBudgetCanOverflow` | desktop/go/proxy.go:320-330 | refusing a negative budget is needed: such headers can overflow the frame with no body at all |

## Modelling decisions

- A send on the shared channel (`SendRPCNoWait`) succeeds, fails without effect, or fails and kills the
  channel; in the last case the worker sees no frame. On the credit loop's context it fails only when the conn
  or the channel is going away (`backend/tunnel/channel.go:769-827`).
- The worker's half of flow control is in the repository and is modelled as it is: the write-sequence gate,
  one handler per frame in any order, the credit window with its clamp. A failed target write stays failed.
- `a.cancel` runs under the operation gate's lock, not under `lifecycleMu`, so a lifecycle section may commit
  after its shutdown check although the context was cancelled in between. Actions marked `late` are those
  sections; the teardown, which does take `lifecycleMu`, is what ends them.
- Cryptographic primitives are functions with correctness laws only; `Noise.LawfulSuiteExists` shows the laws can be met together.
- Tunnel creates carry the connection they started under; a create may name a connection that has been stopped or
  uninstalled since, and it is then never registered.
- The 64-bit request counter, the uint32 nonce cast and int32 sign extension are written out. Other Go
  integers never leave their range in any reachable state.
- A frame the worker sends after the channel died may still reach the dispatcher, since the two ends learn of the
  death separately and the dispatcher goes on with what is queued; `Gaps` counts such frames among those that can come.
- Timeouts, deadlines and context cancellations are actions that may happen whenever the code waits.

## Left out

- WebSocket, HTTP and ConnectRPC dialing, TLS and cookies: reliable ordered delivery or failure stands for them.
- Cryptographic strength: nothing is claimed about an adversary.
- Real time, logging, metrics and error texts; errors are told apart only where the code branches on them.
- The values of handlers and the dispatch in `deliverResponse` and `deliverRPCError`: handlers are modelled as sets of ids.
- Liveness under fair scheduling: progress is stated as a run that gets there from every state, not as eventual arrival.
- The desktop config file written by the transitions; whether saving it succeeds only picks a branch.
- Dialing a tunnel, accepting local connections, SOCKS5 and the accept retry delay: would add only easy members.
- Hub server, solo start-up, CLI, editors, frontend and Rust shell.
- Channel.Channel.RegisterRequest: requires that not all 2^64 - 1 ids are in use, where the source would loop forever.
- Noise.ClassicalAgreement: for honest static keys, whose public half is derived from the private one.
