# A verified model of net-mux

net-mux runs many bidirectional streams over one ordered connection. Each direction of a stream
has a credit window, a stream can be closed by halves or reset, and a session ends with a GoAway.
This project models that protocol in Dafny and proves what it guarantees in every run.

The project has four layers.

1. **Two sessions and two wires.** `Streams` has one half of a stream as a value, `Endpoints` a whole
   session, and `Network` two sessions joined by FIFO wires, as a transition system. One step is one
   user call, or one turn of a writer, reader or closer task. `Pairs`, `Network` and `Delivering` prove
   one inductive invariant: `Pairs` talks about the two halves of a single stream and the frames of
   that stream in flight, and the other two lift it to the multiplexed system. The codecs are part of it:
   a frame too long for the writer's codec is lost and shuts the session down while the rest of the queue
   still goes out, and one too long for the reader's codec makes the reader shut down. `Guarantees`, `Faults`,
   `Drops`, `Losses`, `Deadlock`, `Progress`, `Jams`, `Refusals`, `Resets`, `Pings`, `Histories`, `Handshakes`,
   `Termination` and `StreamRuns` draw the conclusions. `Scenarios`, `Counterexamples` and `Settling` build
   runs for what can happen. `Calls` says in plain numbers what each call does and returns, and `Histories`
   that the histories kept in the model are what the callers saw.
2. **Interleavings.** `IdRace`, `SendWindowRace`, `RecvWindowRace`, `Wakeups`, `EarlyEof` and `ShutdownRace`
   give every task a program counter at each atomic access, let weak exchanges fail for no reason, and assume
   sequential consistency. `Admission` splits the length check from the insert.
3. **Bytes.** `Codec` has the wire format, `Sizes` and `Wires` how long frames get and what becomes of them
   on a wire.
4. **Objects.** `StreamImpl`, `RegistryImpl`, `SessionImpl`, `DuoImpl`, `CodecImpl` and `TasksImpl` have the same
   operations the way the library runs them, as methods that update objects in place. Each method is
   proved to change the object's view by exactly the step function of layer 1 or 3. `DuoImpl` joins two
   sessions: performing any event, or any run, leaves the objects exactly where `Network` says, so
   what is proved there for all runs holds of the objects. `TasksImpl` adds the bytes in between.

Some promises turned out to hold only under a condition. For each there is a run that breaks it and
a proof of exactly when it holds.

- Conforming peers can accuse each other. `ResetCanFault` and `AccusedRun` have the runs;
  `FaultsOnlyAfterOwnReset` says exactly which frames are blamed, and `AccusedIff` between exactly which
  configurations this happens without any reset.
- Bytes that `poll_write` accepted can be lost, and bytes behind them delivered, when a frame exceeds the
  codec's ceiling of 16 MiB. `HoleRun` and `CutShortRun` have the runs; `InOrderIff`, `EofMeansAllIff` and
  `CloseMeansAllIff` say between exactly which configurations order, end of file and graceful close hold for
  everything written. For what the writer did not throw away they hold always.
- Flow control can lock up for good when the two windows differ too much: `ReachStuck` and
  `StuckForever` have the run, `DeadlockFreeIff` says exactly when. `RecoversIff` says between exactly which
  configurations a stream out of credit can always get some again, oversized frames included.
- A graceful drop can cost the peer bytes that had already arrived: `DropCanLoseData` has the run,
  `DropLosesIff` says exactly which drops can, and `ConsiderateDropsLoseNothing` that others never do.
- Below the level of whole calls, a read can report the end of the stream with bytes in its buffer
  (`EofCanComeEarly`, and `EofLeaves` says exactly how many), and payload can be queued behind the GoAway
  (`LateIff` says exactly when it still can, `AtMostOneMore` how much). `EofIsComplete`, `NothingBehindTheEnd`
  and `GracefulCloseLosesNothing` are about whole calls.

Where the documentation and the code disagree, the model follows the code. GoAway tears all streams
down at once, while docs/protocol.md lets established streams run on. A bad version byte ends the
session with `ProtocolError` (`TasksImpl.Listen`), while docs/protocol.md asks for `InvalidVersion`. `Stream::drop` is
documented as graceful, with the consequence just mentioned.

## Model

| member | source | states |
|---|---|---|
| `Delivering.StepKeeps` | src/session/reader.rs:30-191 | the invariant of the whole system (delivery, ends, credit ledger and handshake of every stream) survives every step of either endpoint, a failed write or decode included |
| `Delivering.ReachableOk` | src/session/mod.rs:87-153 | every run of two sessions, whatever their windows and frame sizes, stays within that invariant |
| `Pairs.PairLocal` | src/stream/inner.rs:222-306 | a local operation of one half keeps the joint invariant of the two halves and the frames between them |
| `Pairs.PairHears` | src/session/reader.rs:161-190 | so does taking the oldest frame of the other half |
| `Pairs.PairThins` | src/session/writer.rs:46-95 | and, for a closing half, losing any stretch of what it has queued, with the bytes kept counted without it |
| `Network.FailShuts` | src/session/writer.rs:46-53 | a failed write loses the frame and then shuts down; a shutdown that then loses the frame is the same |
| `Guarantees.OrderedDelivery` | src/stream/inner.rs:174-270 | what has been read is a prefix of what the peer wrote and its writer did not throw away; while registered, that is read + buffered + in flight, whatever other streams do; while the peer is open it is all that was written |
| `Guarantees.EofIsComplete` | src/stream/inner.rs:203-206 | end of file, unless this side began the shutdown, comes only after the last byte that the peer's writer did not throw away, and the peer can write no more |
| `Guarantees.GracefulCloseLosesNothing` | src/session/inner.rs:65-77 | a side that went down by the peer's GoAway holds, read or readable, every byte the peer ever accepted on a stream still held and not reset and did not throw away |
| `Histories.CallsTellTheTruth` | src/stream/inner.rs:174-270 | over every run, the counts that the writes of a stream returned add up to what was written on it, which is the bytes they reported as accepted, in order; and its reads returned exactly what was read |
| `Histories.ReadsFollowWrites` | src/stream/inner.rs:174-270 | so, seen from the calls alone, what the reads at one end have returned is a prefix of what the writes at the other reported as accepted, in every run, unless the writer can queue a frame beyond 16 MiB and a byte behind it |
| `Histories.EofComes` | src/stream/inner.rs:203-206 | in every run, once the peer's FIN has been taken and everything has been read, every later read reports end of file, whether or not this side still writes, unless the stream has been reset |
| `Histories.FinIsHeard` | src/session/reader.rs:183-185 | after polite use, with both sessions open and at rest, a stream whose one end has finished writing has its read half ended at the other, and reads end of file there once its buffer is empty |
| `Histories.ShutdownReleasesAll` | src/session/inner.rs:73-75 | in every run, once a session is closing no read and no write of a held stream waits, a write fails, and an `open` under way can return |
| `Resets.ResetGetsThrough` | src/stream/inner.rs:286-297 | in every run, after a reset of a stream whose FIN had not been said, or an `open` that gave up, and while both sessions are open, the RST is under way or the peer's end is reset or gone; at rest, a peer that still holds the stream finds it reset |
| `Pings.ProbesComeBack` | src/session/reader.rs:100-104 | in every run, while both sessions are open, the values one side probed are, in order, the answers it has taken, the answers on their way to it and its probes still on their way |
| `Pings.AnswersMatch` | src/session/keepalive.rs:38-66 | so the k-th answer carries the value of the k-th probe, and at rest no probe is unanswered |
| `Settling.NothingLeaks` | src/session/mod.rs:255-274 | in every run a registered stream is held and not reset, or the closer is about to remove it |
| `Guarantees.NothingBehindTheEnd` | src/session/writer.rs:31-95 | in flight no payload follows a GoAway, nor a FIN or RST of its own stream |
| `Guarantees.CreditConservation` | src/flow/window.rs:69-108 | credit at the sender, payload in flight, bytes buffered, credit pending and credit announced never exceed the sender's initial window, and add up to it while both ends are registered |
| `Guarantees.WindowBounds` | src/flow/window.rs:142-172 | pending credit stays below max(window / 2, 1), buffered plus pending within the peer's window, credit plus announcements within one's own |
| `Guarantees.WindowsAreExact` | src/stream/inner.rs:196-201 | so no grant saturates, no counter wraps and no byte count is truncated |
| `Faults.FaultsOnlyAfterOwnReset` | src/session/reader.rs:53-72 | the reader shuts down with ProtocolError on a frame if and only if the frame is too long for its codec, or carries payload for a registered stream that this side's own user has reset |
| `Faults.HonestPeersNeverFault` | src/session/reader.rs:53-72 | in every run without `Stream::reset` it does so if and only if the frame is too long |
| `Refusals.AccusedIff` | src/protocol/codec.rs:56-58 | some run without any reset makes the reader accuse its peer if and only if the smallest of the peer's window, frame size and 16 MiB exceeds the reader's frame size |
| `Refusals.AccusedRun` | src/session/reader.rs:53-60 | and the run: one write in one frame |
| `Refusals.HoleRun` | src/session/writer.rs:46-59 | a run without any reset in which what is read is not a prefix of what was written: a refused frame is lost and the byte behind it arrives |
| `Refusals.CutShortRun` | src/session/writer.rs:46-59 | a run without any reset in which a stream ends by the peer's GoAway with nothing left to read and bytes missing |
| `Refusals.InOrderIff` | src/session/writer.rs:46-95 | what is read is in every run a prefix of what was written if and only if the writer's frame size is at most 16 MiB or its window at most one byte more |
| `Refusals.EofMeansAllIff` | src/stream/inner.rs:203-206 | end of file, unless this side began the shutdown, means in every run that all that was written has been read, if and only if the smaller of the peer's window and frame size is at most 16 MiB |
| `Refusals.CloseMeansAllIff` | src/session/inner.rs:65-77 | and under exactly the same condition a side that went down by the peer's GoAway has all that was written |
| `Refusals.ClosingLogs` | src/session/writer.rs:46-95 | once a session is closing nothing more is accepted, and only its writer changes what was kept, by exactly the frames it throws away |
| `Counterexamples.ResetCanFault` | src/session/reader.rs:175-179 | for all valid configurations, a run in which a reset makes the session accuse a conforming peer and close |
| `Counterexamples.DropCanLoseData` | src/stream/inner.rs:299-306 | for all valid configurations, a run without any reset in which a drop makes the peer's arrived byte unreadable |
| `Drops.ConsiderateDropsLoseNothing` | src/stream/inner.rs:182-206 | if one stream is never reset and its handles are dropped only once their read half has ended, every byte that has arrived on it can be read, whatever is done with all other streams |
| `Drops.PoliteStreamsAreNeverReset` | src/session/reader.rs:161-169 | if in addition its `open` does not time out, the stream is never reset at an end whose peer knows it, nor is a RST for it under way |
| `Losses.DropLosesIff` | src/stream/inner.rs:299-306 | after such use, with both sessions open and the peer holding the stream, a drop can cost the peer bytes, with nobody resetting or letting go of the stream again, only if the read half is still open and the peer has not read everything, and then always unless a frame under way is too long for a codec |
| `Settling.Settle` | src/session/mod.rs:255-274 | two open sessions with no frame under way that is too long can be brought to rest by their background tasks alone, and stay open |
| `Settling.SettlesIff` | src/session/mod.rs:255-274 | in every run, two open sessions can be brought to rest so if and only if no frame under way is too long for a codec it still has to pass |
| `Settling.ReachableTidy` | src/stream/inner.rs:286-306 | in every run a stream that is reset or dropped is known to the closer, and a RST under way comes from a stream that is reset or gone |
| `Deadlock.StarvedHasRelief` | src/flow/window.rs:146-171 | with max(receiver window / 2, 1) within the sender's window, a stream without credit has payload in flight, bytes to read or credit on its way |
| `Deadlock.ReachStuck` | src/stream/inner.rs:65-71 | otherwise, in either direction, a state without credit and without any of these is reachable |
| `Deadlock.StuckForever` | src/flow/window.rs:69-86 | from such a state no continuation, whatever both users do, lets the sender write again |
| `Progress.StarvedRecovers` | src/flow/window.rs:142-172 | with the threshold within the window, sessions open, handles held and no frame under way too long, a stream out of credit has a continuation of task turns and reads that gives it credit, both sessions open |
| `Jams.RecoversIff` | src/flow/window.rs:142-172 | in every run a stream out of credit, held and open at both ends, can get credit again so, if and only if max(receiver window / 2, 1) is within the sender's window and, each way, the smaller of window and frame size is within the other's frame size and 16 MiB |
| `Jams.JammedForGood` | src/session/writer.rs:46-53 | behind a frame that is too long no credit ever comes through while both sessions are open |
| `Deadlock.DeadlockFreeIff` | src/flow/window.rs:142-172 | never stuck if and only if max(receiver window / 2, 1) is at most the sender's window |
| `Handshakes.OpenNeedsAccept` | src/session/mod.rs:190-202 | `open` can succeed only after the peer's `accept` handed out that id, and no payload is written before the ACK |
| `Handshakes.AcceptedInSynOrder` | src/session/mod.rs:209-232 | ids are accepted at most once and in the order of their SYNs, which is increasing |
| `Handshakes.AcceptorSpeaksAckFirst` | src/session/mod.rs:227-231 | an acceptor's first frame on a stream, resets aside, is its ACK |
| `Handshakes.HandlesAreRegistered` | src/session/mod.rs:183-200 | a held stream that is not reset is registered until the session closes, and a writable one always |
| `Handshakes.ClosersHitTheirOwn` | src/session/mod.rs:255-274 | a closer signal, however late or repeated, names a dropped or reset stream, whose id lies below its opener's next id and is in no SYN under way |
| `Handshakes.MemoryBound` | src/session/reader.rs:137-151 | the registry respects `max_streams`, and its streams buffer at most their number times the peer's window |
| `Admission.RegistryBound` | src/session/mod.rs:167-183 | with at most A tasks between check and insert, the registry never exceeds max_streams + A - 1 |
| `Admission.BoundIsReached` | src/session/mod.rs:167-183 | and some run does reach that number |
| `Termination.StepSpends` | src/session/reader.rs:81-114 | in any state at all, every step of a background task lowers one measure |
| `Termination.TasksFallSilent` | src/session/reader.rs:81-191 | so without user calls and keepalive ticks all background tasks stop after boundedly many steps: no RST, ping or GoAway answers itself |
| `Termination.SilenceIsEmpty` | src/session/writer.rs:80-95 | when they have stopped, nothing is queued, undispatched or waiting for the closer |
| `Termination.SilenceMeansDelivered` | src/session/reader.rs:161-188 | so everything written on a registered stream and not thrown away has been read or can be read, all that was written if the peer is open, and its window is split between the two ends |
| `StreamRuns.OneTerminalFrame` | src/stream/inner.rs:273-306 | over any sequence of calls a stream emits at most one frame among FIN and RST and no payload after it |
| `StreamRuns.FlagsOnlyClose` | src/stream/state.rs:45-63 | over any sequence of calls no flag ever reopens |
| `StreamRuns.ReadHalfSurvivesFin` | src/stream/inner.rs:273-283 | local FIN, drop, reads and writes never close the read half |
| `IdRace.Linearizes` | src/util/id.rs:53-65 | each step of any interleaving of `allocate` is invisible or one atomic allocation by the caller that returns it |
| `IdRace.IdsAreUnique` | src/util/id.rs:53-65 | ids are distinct, non-zero, of the role's parity and without gaps |
| `IdRace.ExhaustionIsPermanent` | src/util/id.rs:55-56 | after the first refusal nothing is ever issued again, and the counter does not wrap |
| `SendWindowRace.RefinesCounter` | src/flow/window.rs:69-108 | each step of takers and granters, spurious failures included, is invisible or one operation of an atomic saturating counter |
| `SendWindowRace.CreditIsConserved` | src/flow/window.rs:49-108 | the sum of what the calls returned + available + lost to saturation = initial + granted, and no call takes more than it asked for |
| `SendWindowRace.SmallGrantsLoseNothing` | src/flow/window.rs:93-106 | nothing is lost while initial + granted fits 32 bits |
| `RecvWindowRace.ReceiveAccounting` | src/flow/window.rs:142-172 | for any number of consumers, the sum of returned deltas + pending = recorded, short of 2^32 for each wrap; every delta reaches the threshold, and pending at the threshold means some task is still draining |
| `RecvWindowRace.AloneIsAtomic` | src/flow/window.rs:142-172 | a call that runs alone, wrapping or not, is the atomic step of the stream model |
| `Wakeups.NoLostWakeup` | src/flow/window.rs:49-67 | in every interleaving of the three waits, polled at any time, with their notifiers, a parked task whose condition holds is woken or about to be |
| `Wakeups.ReadLoopsAtMostTwice` | src/stream/inner.rs:182-219 | `poll_read` goes round its loop at most twice under any interference |
| `EarlyEof.EofCanComeEarly` | src/stream/inner.rs:191-206 | an interleaving in which a read reports the end of the stream with a chunk in its buffer and no reset |
| `EarlyEof.EofLeaves` | src/stream/inner.rs:191-206 | in every interleaving, a read that reports the end leaves in the buffer exactly what arrived since it found the buffer empty |
| `ShutdownRace.LateIff` | src/session/inner.rs:65-77 | in every interleaving of a shutdown with writes, payload of a stream can still come behind the GoAway if and only if there is credit, held or left, and the write under way or the next one has not met a closed flag or window |
| `ShutdownRace.AtMostOneMore` | src/stream/inner.rs:222-270 | once force_close has cleared the write flag, at most the write already under way gets through |
| `Calls.ReadOutcomes` | src/stream/inner.rs:174-220 | each of reset error, end of file, pending and data, if and only if its condition on room, reset, buffer and read half holds |
| `Calls.ReadTakes` | src/stream/recv.rs:35-54 | what a read returns leaves the front of the buffer, and nothing else does |
| `Calls.ConsumeAnnounces` | src/flow/window.rs:142-172 | within 32 bits, credit is announced if and only if something was consumed and max(window / 2, 1) is reached, and then all of it |
| `Calls.ReadAnnounces` | src/stream/inner.rs:196-201 | so a read queues a WindowUpdate with all that is pending exactly then, and nothing else ever |
| `Calls.WriteOutcomes` | src/stream/inner.rs:222-270 | each result of a write if and only if its condition on reset, write half, window, credit, data and writer holds, with the count of a successful one |
| `Calls.WriteTakes` | src/stream/inner.rs:243-267 | the count returned is what was queued, logged and paid for, and any other result leaves nothing behind |
| `Calls.FinDoes` | src/stream/inner.rs:273-283 | a FIN goes out if and only if the stream is writable and none was said, and the write half ends |
| `Calls.ResetDoes` | src/stream/inner.rs:286-297 | a RST goes out if and only if the stream was neither reset nor finished, and both halves end |
| `Calls.DropDoes` | src/stream/inner.rs:301-306 | a FIN if still writable, one signal to the closer, and the read half as it was |
| `Calls.RemoteResetDoes` | src/stream/inner.rs:111-119 | both halves and the window end, one signal to the closer, nothing is sent |
| `Calls.DataFaultIff` | src/session/reader.rs:116-180 | a data frame of any peer is a protocol error if and only if its id is zero, its SYN has this side's parity or a registered id that would be admitted, or its payload meets an ended read half |
| `Calls.DataDoes` | src/session/reader.rs:171-190 | what any other frame does to a known stream, flag by flag |
| `Calls.DataFaultDoes` | src/session/reader.rs:175-179 | payload for an ended read half resets the stream, with a RST unless one end was said before |
| `Calls.StrayDoes` | src/session/reader.rs:161-169 | a frame for an unknown stream draws a RST if and only if it has neither ACK nor RST |
| `Calls.SynDoes` | src/session/reader.rs:123-190 | a SYN, with whatever else its frame carries, is admitted with a fresh stream waiting to be accepted, or refused with a RST |
| `Calls.CreditDoes` | src/session/reader.rs:92-99 | a WindowUpdate adds to the credit of a known stream, up to 2^32 - 1, and changes nothing else |
| `Calls.PingDoes` | src/session/reader.rs:100-107 | a ping is answered with its own value, an answer with nothing |
| `Calls.GoAwayDoes` | src/session/reader.rs:108-112 | a GoAway is remembered and answered by a shutdown with its own code |
| `Calls.ShutdownDoes` | src/session/inner.rs:65-77 | the GoAway is queued last, exactly the registered streams end, without a reset and with their buffers |
| `Calls.OpenDoes` | src/session/mod.rs:163-188 | the next id, a registered stream with a full window and its SYN, if and only if the session is open, below its limit and below the last id |
| `Calls.AcceptDoes` | src/session/mod.rs:209-232 | the oldest waiting stream is handed out and its ACK queued |
| `Calls.OpenOutcomes` | src/stream/inner.rs:135-159 | a pending `open` succeeds if and only if the ACK is there, and fails if and only if it is not and the stream is reset or its write half closed |
| `Calls.GivingUpDoes` | src/session/mod.rs:192-200 | an `open` that timed out or was refused leaves the registry, the former with a RST |
| `Calls.CloserDoes` | src/session/mod.rs:266-271 | one stream leaves the registry and is otherwise left alone |
| `Calls.IdsAre` | src/util/id.rs:13-65 | odd ids from 1 for a client, even ones from 2 for a server, in steps of two as long as the one after it fits 32 bits |
| `Codec.HeaderIs` | src/protocol/header.rs:63-69 | the twelve bytes of a header in numbers: version 1, type 0 to 3, flag bits 1, 2, 4 and 8, two big-endian numbers |
| `Codec.HeaderMeans` | src/protocol/header.rs:71-88 | exactly which twelve bytes are a header and which, and what is wrong with any others |
| `Codec.CodesAre` | src/error.rs:84-98 | the number of each error code |
| `Codec.EncodingIs` | src/protocol/codec.rs:100-151 | the bytes of a whole frame of each kind, in numbers |
| `Codec.DecodingIs` | src/protocol/codec.rs:41-94 | and what such bytes decode to |
| `Codec.HeaderRoundTrip` | src/protocol/header.rs:63-88 | decoding an encoded header gives it back |
| `Codec.CodesRoundTrip` | src/error.rs:84-113 | an error code survives the wire if and only if it is not an unknown code with a known number |
| `Codec.FrameRoundTrip` | src/protocol/codec.rs:100-151 | decoding an encoded frame, with anything behind it, gives it back if and only if its error code is canonical |
| `Codec.DecodeStable` | src/protocol/codec.rs:41-94 | a frame or an error once decided is not changed by later bytes |
| `Codec.ChunkingIndependence` | src/protocol/codec.rs:41-94 | for every byte stream, valid or not, and every cutting: same frames, same first error, same remainder |
| `Codec.WireRoundTrip` | src/protocol/codec.rs:41-151 | encoded frames delivered in any chunks come out as they went in, up to the first one too long for the decoder, which is an error; without one nothing is left |
| `Wires.FrameFits` | src/stream/inner.rs:243-255 | if the smaller of the sender's window and frame size is within the receiver's frame size and 16 MiB, every frame in flight passes both codecs |
| `Wires.AllPassIff` | src/protocol/codec.rs:24-28 | every frame of every run passes both codecs if and only if the smaller of the sender's window and frame size is within the receiver's frame size and 16 MiB |
| `Wires.WireIsTransparent` | src/session/writer.rs:68-95 | in every run the bytes of a wire, in any chunks, decode to exactly the frames on it, up to the first one too long for the receiver |
| `CodecImpl.EncodeHeader` | src/protocol/header.rs:63-69 | writes the twelve header bytes in place |
| `CodecImpl.FrameCodec.constructor` | src/protocol/codec.rs:24-28 | clamps the limit |
| `CodecImpl.FrameCodec.DecodeFrom` | src/protocol/codec.rs:41-94 | advances the buffer by one frame, or leaves it alone when bytes are missing or bad |
| `CodecImpl.FrameCodec.EncodeTo` | src/protocol/codec.rs:100-151 | appends one encoding, or nothing when the payload is too long |
| `CodecImpl.FramedReader.OnBytes` | src/session/reader.rs:35-47 | a chunk is decoded as far as `Feed` says |
| `CodecImpl.FramedReader.OnAllBytes` | src/session/reader.rs:35-76 | and any sequence of chunks as `FeedAll` says |
| `StreamImpl.RecvBuffer.Push` | src/stream/recv.rs:23-27 | the chunk queue refines a flat byte queue: bytes are appended |
| `StreamImpl.RecvBuffer.IsEmpty` | src/stream/recv.rs:29-31 | empty exactly when the flat queue is |
| `StreamImpl.RecvBuffer.ReadInto` | src/stream/recv.rs:35-54 | as many bytes as fit move, in order, from the front of the flat queue to the caller's buffer |
| `StreamImpl.StreamState.CloseRead` | src/stream/state.rs:46-48 | clears one flag and reports the first transition |
| `StreamImpl.StreamState.CloseWrite` | src/stream/state.rs:51-53 | likewise for the write half |
| `StreamImpl.StreamState.MarkReset` | src/stream/state.rs:58-63 | closes both halves for good and reports the first reset |
| `StreamImpl.SendWindow.TryTake` | src/flow/window.rs:69-86 | takes the minimum of credit and wish, and nothing only when there is no credit, however often the exchange fails spuriously |
| `StreamImpl.SendWindow.PollAcquire` | src/flow/window.rs:49-67 | closed, blocked or acquired, and the credit left in each case |
| `StreamImpl.SendWindow.Grant` | src/flow/window.rs:89-108 | adds with saturation |
| `StreamImpl.RecvWindow.OnConsume` | src/flow/window.rs:142-172 | the wrapping counter, saturating sum and retry loop compute the atomic `OnConsume` |
| `StreamImpl.StreamInner.constructor` | src/stream/inner.rs:58-82 | a new stream shares nothing and views as `New` |
| `StreamImpl.StreamInner.PushData` | src/stream/inner.rs:94-100 | the payload joins the buffer |
| `StreamImpl.StreamInner.RemoteFin` | src/stream/inner.rs:103-108 | the read half ends |
| `StreamImpl.StreamInner.RemoteReset` | src/stream/inner.rs:111-119 | reset, window closed, closer signalled |
| `StreamImpl.StreamInner.GrantSendCredit` | src/stream/inner.rs:122-124 | credit grows |
| `StreamImpl.StreamInner.MarkAcked` | src/stream/inner.rs:127-130 | the stream is established |
| `StreamImpl.StreamInner.PollAcked` | src/stream/inner.rs:135-159 | which of ACK, reset and shutdown ends the wait, in this order |
| `StreamImpl.StreamInner.ForceClose` | src/stream/inner.rs:162-168 | both halves and the window close |
| `StreamImpl.StreamInner.PollRead` | src/stream/inner.rs:174-220 | stream and announced credit are those of the value-level `PollRead`; an error exactly on a reset stream, a wait exactly when nothing is there and more may come, and otherwise the caller's buffer gets what is there |
| `StreamImpl.StreamInner.PollWrite` | src/stream/inner.rs:222-270 | stream, frame and result are those of the value-level `PollWrite`, the refund included; the count returned is what was logged and paid for |
| `StreamImpl.StreamInner.LocalFin` | src/stream/inner.rs:273-283 | at most one FIN, and the write half ends |
| `StreamImpl.StreamInner.LocalReset` | src/stream/inner.rs:286-297 | at most one RST, and only on the first reset |
| `StreamImpl.StreamInner.OnUserDrop` | src/stream/inner.rs:301-306 | a FIN if the stream is still writable, and always a closer signal |
| `RegistryImpl.StreamRegistry.Insert` | src/session/manager.rs:39-46 | refuses a taken id and changes nothing then |
| `RegistryImpl.StreamRegistry.Get` | src/session/manager.rs:48-50 | finds exactly the registered streams |
| `RegistryImpl.StreamRegistry.Remove` | src/session/manager.rs:52-54 | one entry leaves the table, no stream changes |
| `RegistryImpl.StreamRegistry.Drain` | src/session/manager.rs:61-64 | the table is emptied and returned, no stream changes |
| `RegistryImpl.StreamRegistry.CloseAll` | src/session/inner.rs:73-75 | exactly the registered streams are force-closed and leave the table |
| `SessionImpl.StreamIdAllocator.Allocate` | src/util/id.rs:53-65 | the next id, or none when adding two would leave 32 bits |
| `SessionImpl.Session.constructor` | src/session/mod.rs:87-110 | a new session views as `NewEndpoint` |
| `SessionImpl.Session.InitiateShutdown` | src/session/inner.rs:65-77 | the view makes exactly the step `InitiateShutdown` |
| `SessionImpl.Session.BeginOpen` | src/session/mod.rs:163-188 | the view makes exactly the step `Open`, and a stream is returned exactly when `CanOpen` |
| `SessionImpl.Session.Launch` | src/session/mod.rs:183-188 | insert and SYN together, or no trace of either |
| `SessionImpl.Session.PollOpen` | src/session/mod.rs:190-195 | success and failure of a pending `open`, each exactly when allowed |
| `SessionImpl.Session.TimeOut` | src/session/mod.rs:196-200 | the deadline of `open`: RST and removal |
| `SessionImpl.Session.TryAccept` | src/session/mod.rs:209-232 | the view makes exactly the step `Accept`, or none; the waiting stream is returned exactly when the session is open, and the caller then holds it |
| `SessionImpl.Session.CloserTurn` | src/session/mod.rs:266-271 | the view makes exactly the step `CloserStep` |
| `SessionImpl.Session.WriterTurn` | src/session/writer.rs:44-54 | the oldest frame leaves the queue, or is lost and the session makes exactly the step `WriteFailed` |
| `SessionImpl.Session.WriterExit` | src/session/writer.rs:61-66 | the view makes exactly the step `WriterExit` |
| `SessionImpl.Session.Probe` | src/session/keepalive.rs:38-42 | a ping is queued |
| `SessionImpl.Receive` | src/session/reader.rs:171-190 | flags and payload of one frame applied to a known stream, in the order of the code |
| `SessionImpl.Session.HandleKnown` | src/session/reader.rs:161-190 | the view makes exactly the step `HandleKnown` |
| `SessionImpl.Session.Admit` | src/session/reader.rs:141-157 | a SYN enters table and accept queue, unless the id is taken |
| `SessionImpl.Session.TakeSyn` | src/session/reader.rs:126-159 | parity, GoAway, limit and duplicate checks of a SYN, in the order of the code |
| `SessionImpl.Session.HandleData` | src/session/reader.rs:116-191 | the view makes exactly the step `HandleData`, with the same verdict |
| `SessionImpl.Session.GrantCredit` | src/session/reader.rs:92-99 | a WindowUpdate reaches its stream, and is ignored for an unknown one |
| `SessionImpl.Session.Dispatch` | src/session/reader.rs:81-114 | the view makes exactly the step `Dispatch`, with the same verdict |
| `SessionImpl.Session.ReaderTurn` | src/session/reader.rs:62-72 | dispatch, and shutdown with ProtocolError when it fails |
| `SessionImpl.StreamHandle.PollRead` | src/stream/mod.rs:46-54 | the session makes exactly the step `Read`; an error exactly on a reset stream, a wait exactly when nothing is there and more may come; the caller's buffer gets what the read history gets |
| `SessionImpl.StreamHandle.PollWrite` | src/stream/mod.rs:56-63 | the session makes exactly the step `Write`, and the count returned is what the write history gets |
| `SessionImpl.StreamHandle.PollShutdown` | src/stream/mod.rs:74-77 | the session makes exactly the step `Finish` |
| `SessionImpl.StreamHandle.Reset` | src/stream/mod.rs:41-43 | the session makes exactly the step `Reset` |
| `SessionImpl.StreamHandle.Drop` | src/stream/mod.rs:80-84 | the session makes exactly the step `Drop` |
| `TasksImpl.Sink.Feed` | src/session/writer.rs:75-75 | a fed frame is pending or on the wire behind all earlier ones, and a refused one is neither |
| `TasksImpl.Sink.Flush` | src/session/writer.rs:76-76 | what was pending is on the wire |
| `TasksImpl.Writer.Turn` | src/session/writer.rs:44-54 | one round of the main loop: the frame's bytes are on the wire, or the frame is lost and the session makes exactly the step `WriteFailed` |
| `TasksImpl.Writer.Drain` | src/session/writer.rs:80-95 | without an error the whole queue is on the wire; a frame the codec refuses ends the loop before the flush, and earlier frames may stay pending |
| `TasksImpl.WritesAll` | src/session/writer.rs:80-95 | a queue within the limit is written whole |
| `TasksImpl.WriterRun` | src/session/writer.rs:31-61 | from any queue on, the bytes written are `Emission`, and the session closes if and only if the queue holds a frame the codec refuses |
| `TasksImpl.EmitsAround` | src/session/writer.rs:46-59 | which for a queue with one refused frame are the encodings of all the others and of the GoAway |
| `TasksImpl.ReaderRun` | src/session/reader.rs:38-76 | a batch of frames is dispatched one by one until the session closes |
| `TasksImpl.Listen` | src/session/reader.rs:35-76 | the reader task on any bytes in any chunks: frames are dispatched, and the first decoding error, a bad version included, shuts the session down with ProtocolError |
| `TasksImpl.HearingIsDelivering` | src/session/reader.rs:46-72 | for encoded frames that is what the transition system does frame by frame |
| `TasksImpl.Hop` | src/session/writer.rs:20-66 | writer, connection and reader composed: however the bytes are cut, the peer ends as if handed the queued frames one by one, up to one it cannot decode |
| `DuoImpl.Node.Do` | src/session/mod.rs:158-253 | a session with its users' handles makes exactly the step of any act that takes no frame; the accept queue and the handles are the streams on record |
| `DuoImpl.Node.Deliver` | src/session/reader.rs:46-72 | and of taking a frame, or failing to decode it, as long as a SYN brings a new id |
| `DuoImpl.Duo.constructor` | src/session/mod.rs:87-153 | two fresh sessions view as the initial state |
| `DuoImpl.Duo.Perform` | src/session/mod.rs:158-253 | two session objects make exactly the step of the transition system, for every event |
| `DuoImpl.Duo.Play` | src/session/mod.rs:158-253 | and end where it ends, for every run |

## Left out

- Atomic steps: in the run theorems one `poll_read`, `poll_write`, dispatch, shutdown or synchronous part of `open` is one step. The code holds no lock across them. `IdRace`, `SendWindowRace`, `RecvWindowRace`, `Wakeups`, `EarlyEof`, `ShutdownRace` and `Admission` look below this level, one structure at a time. `EarlyEof` and `ShutdownRace` show which results need whole calls.
- Framed writing: how many encodings collect before they are written without a flush is a parameter, and what is still pending when the writer shuts the connection down never leaves. In the transition system a frame is on the wire as soon as the writer has encoded it; after a second refused frame the last of these may in fact stay pending. There this is a run in which they are never delivered.
- Second looks: the class methods run without interference, so the second pass of the `poll_read` loop, after the waker is registered, is only in `Wakeups`.
- Memory orderings and the inside of `AtomicWaker`: registering and waking are single sequentially consistent steps, with one poller for each wait.
- Spurious failures in the class methods: a counter says how many of the coming weak exchanges fail, so each loop ends.
- Time: an `open` may time out at any moment while it waits, and the keepalive task is only a source of pings.
- I/O errors, end of file on the connection and the keepalive timeout: they appear as a shutdown that may happen at any moment, not with their own causes.
- The failing `accept_tx.send` branch: the receiving end lives as long as the session, so the branch cannot be reached.
- Peers that break the protocol: the codec, `Termination`, `StreamRuns`, the class methods and the interleavings range over arbitrary inputs; the run theorems are about two conforming sessions.
- Configurations: windows and frame sizes of at least one byte, and for the runs that exist at least one stream, as the builder produces them.
- Streams are looked up by id in the session's view. Conforming peers never reuse an id; for others the view keeps the latest stream of an id, and an accepted stream is held only if it is that one.
- Losses.DropLosesIff: with a frame under way that is too long for a codec, which will end a session, only one direction is stated. It is about the first drop of a stream, after polite use, while both sessions are open. During a shutdown the peer's bytes are covered by `GracefulCloseLosesNothing`.
- Wakeups.NoLostWakeup: `local_fin` notifies no waiting `open`, and is not among the notifiers; no user holds the stream at that point.
- Error texts, conversion to `io::Error`, tracing, the configuration builder, examples and benchmarks would add only easy members.
