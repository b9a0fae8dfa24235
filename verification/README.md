# Loadshear, modelled and proved in Dafny

Loadshear reads a script, compiles it into a plan, and runs that plan over sessions that are spread over
shards, one thread each. This project models the five parts of that path and proves what each promises:

- **Sessions** (`SessionMachine`, `SessionLaws`, `DrainLaws`, `Framing`, `DatagramLaws`, `TcpSessions`,
  `UdpSessions`): every posted command and every completion is one step over the session's fields and its
  outstanding operations. The laws hold in every state any interleaving of steps can reach. The classes `TcpSession`
  and `UdpSession` have the fields and methods of the two session classes; each method is proved to do the machine's
  step.
- **Payloads** (`Bytes`, `Scripts`, `Planner`, `Renderer`, `Overlay`, `SharedCounters`, `WireLaws`): SEND
  modifications become packet operations and counter steps; the payload manager renders them as slices into the
  packet and a scratch buffer. Rendering what was compiled is the packet with every field laid over its range, and
  this is so exactly for ascending, disjoint, in-bounds lists. From there, what each payload write of a session
  carries.
- **Shards** (`SessionPools`, `Shards`, `Sites`, `ClosingLaws`, `Sharding`, `Refinement`, `Fleets`, `EndingLaws`,
  `PlanRuns`, `ReconnectLaws`, `Orchestrators`, `DispatchRuns`, `MetricsRounds`): dispatch, partition, the shards'
  queues, the closing chain and the metrics rounds. Sharded execution refines one flat array of sessions under every
  interleaving; the dispatch loop is composed with those runs; and it is settled which runs can come to an end.
- **Validator** (`Validator`, `ValidatorLaws`): the action checks accept exactly the scripts whose every session
  follows an automaton; what acceptance gives the compiler and the orchestrator, and what it does not.
- **Lexer and parser** (`Lexers`, `Printers`, `Numbers`, `Grammar`, `Words`, `Parsers`, `RoundTrips`,
  `ScriptRoundTrips`, `TextRoundTrips`, `ReadableScripts`): cursor loops proved against a grammar, a round trip
  through text, and that what can be read is exactly what can be written.

`PipelineLaws` puts the five together: what follows for a script that was read and accepted.

Code that changes things step by step is a method or a class whose `ensures` names the value-level function it
computes; the laws are lemmas about those functions. `dafny verify dfyconfig.toml` checks everything.

## What the proofs found

- `do_write` starts over without end exactly when it loops over an empty payload list
  (`SessionLaws.RetriesForever`): under REPEAT, a script without SEND that floods a connected session
  (`SessionLaws.FloodNeverReturns`, `PipelineLaws.FloodWithoutSend`, `PipelineLaws.FloodOnlyAccepted`). Such a handler
  never ends, so a run has no state after it: `Enabled` asks of every step that its handler returns
  (`SessionMachine.Returns`), and the laws hold for every configuration.
- `drain` leaves a connected session at rest open exactly when writes are queued
  (`DrainLaws.DrainAtRest`, `DrainLaws.DrainMayNotClose`).
- `SessionPool::shutdown` marks the pool closed before it calls `stop_all_sessions`, which returns at once on a
  closed pool: sessions are not stopped by it. So a shard can end by itself exactly if it is at rest in a closed pool,
  no session of it is live, and in the whole run none was started while it was live (`EndingLaws.EndsExactly`); once
  the program is shut down and at rest, it comes to its end exactly if this holds of all shards, and otherwise never by
  itself (`EndingLaws.ReleasedExactly`). Only the forced stop after 30 seconds, which is left out here, ends the other
  shards.
- The script CREATE, CONNECT is accepted and, with READ off, has a run that comes to rest with its session live, so
  that the program never ends by itself (`PlanRuns.LiveSessionHolds`, `PipelineLaws.ConnectOnlyAccepted`). A script that disconnects every session
  it connects, between any two CONNECTs of it and after the last, does (`PipelineLaws.DisconnectingScriptEnds`); in an
  accepted script without DRAIN a DISCONNECT after each CONNECT is enough (`PipelineLaws.AcceptedScriptEnds`).
- A session can be live when it is connected again: drained before it could write what it was sent, it stays open. With
  READ off it is known exactly which plans have such a run (`ReconnectLaws.LeaksExactly`,
  `ReconnectLaws.PlanLeaksExactly`), and from there the program never ends by itself, whatever happens. The script
  CREATE, CONNECT, SEND, DRAIN, CONNECT is accepted and is one (`PipelineLaws.ConnectsTwiceAccepted`,
  `PipelineLaws.ScriptMayNeverEnd`).
- A latency sample is taken every SAMPLERATE + 1 writes; `docs/syntax.md` speaks of every SAMPLERATE packets.
- A UDP datagram cannot exceed the limit it is checked against (`UdpSessions.OversizeNeverSeen`).
- `insert_mod_range` compares starts with lengths. Looking at two neighbours is as good as looking at all ranges
  stored (`ValidatorLaws.ChecksPairs`), but each pair is judged wrongly in two cases (`ValidatorLaws.RangeCheckOfTwo`):
  overlaps beyond the lower range's length pass, and ranges that touch from byte 0 are rejected.
  `ValidatorLaws.ListCheck` says of every list whether it passes. Lists out of order pass too, and compile to payloads
  that cannot be rendered (`ValidatorLaws.DescendingListAccepted`, `Planner.DescendingListMisrenders`).
- Of the lists that could be rendered, the validator rejects exactly those with a counter step of 0, with a field that
  ends with its packet, or with a field in the way of a later one; if no field is empty, these last are the lists with
  two fields that touch from byte 0 (`ValidatorLaws.PlacedSendPasses`, `ValidatorLaws.FieldAtTheEndRejected`).
- An accepted script need not begin with CREATE (`ValidatorLaws.FloodBeforeCreate`), which the orchestrator relies
  on (`ValidatorLaws.PlanCreatesFirst`).
- A counter whose script step is a multiple of 65536 stands still, because plans keep 16 bits of it
  (`SharedCounters.StandsStill`).
- A quoted value can be written exactly if it does not end in a backslash (`Printers.ExpressibleValues`).

## Model

| member | source | states |
|---|---|---|
| Bytes.WriteNumeric | src/packets/payload-manager.cpp:195-232 | the 8-byte and 4-byte fast paths and the shift loop all write the positional notation of the value in the asked byte order, for every length up to 8, and no other byte |
| Bytes.WriteByShifts | src/packets/payload-manager.cpp:225-231 | byte-by-byte shifting and masking writes the same field as positional notation, at every length |
| Bytes.SwapThenCopy | src/packets/payload-manager.cpp:204-209 | byte-swapping and copying the little-endian representation gives the big-endian field |
| Bytes.DecodeEncode | src/packets/payload-manager.cpp:195-232 | decoding a field recovers the value modulo 256^length in either byte order |
| Bytes.EncodeInjective | src/packets/payload-manager.cpp:195-232 | two values below 256^length with the same field are equal |
| Scripts.MergeSnoc | src/interpreter/script-structs.h:122-144 | appending to one modification list and to the order appends to the one list they stand for |
| Scripts.ActionRecord.PushModifier | src/interpreter/script-structs.h:122-144 | pushing a modifier extends exactly its own list and the order, and thereby the list they stand for by that modifier |
| Planner.CompileSend | src/cli/execution-plan.cpp:256-394 | the modification loop over two lists and an order yields the operations and counter steps of the one merged list, or fails on an unknown time format |
| Planner.AppendOperation | src/cli/execution-plan.cpp:309-332 | appends the gap and the operation and moves to the end of the modification |
| Planner.GapArithmetic | src/cli/execution-plan.cpp:309-332 | the 64-bit gap subtraction lands on the end of the modification; a modification that starts too early is reached by a gap of almost 2^64 |
| Planner.OperationsFromExact | src/cli/execution-plan.cpp:297-394 | the operations cover exactly the packet's length with every static slice inside it if and only if the list is ascending, disjoint and in bounds |
| Planner.PayloadOperationsExact | src/cli/execution-plan.cpp:256-394 | the same for whole payloads, the empty list included |
| Planner.DescendingListMisrenders | src/cli/execution-plan.cpp:309-319 | a concrete out-of-order list compiles to a static slice past the packet |
| Planner.StepsMatchOperations | src/cli/execution-plan.cpp:294-329 | one counter step per COUNTER operation |
| Planner.StepsMatchPayload | src/cli/execution-plan.cpp:256-402 | the counter list of a planned payload has one step per COUNTER operation, so rendering stays inside it |
| Planner.CompileAction | src/cli/execution-plan.cpp:206-402 | adds one payload and one counter list per copy of a SEND, and fails exactly if the SEND does not compile |
| Planner.AppendCopies | src/cli/execution-plan.cpp:396-402 | the copy loop appends the payload and its counter list exactly as often as asked |
| Planner.PlanAction | src/cli/execution-plan.cpp:200-432 | extends the plan of the earlier actions to the plan of one action more, or fails exactly if that action does not compile |
| Planner.GeneratePlan | src/cli/execution-plan.cpp:195-435 | succeeds exactly if every action compiles; then payloads and counter lists are those of all copies in script order and descriptor i is due at the running offset |
| Planner.TotalCopiesGrows | src/cli/execution-plan.cpp:398-402 | the payload indices of one SEND's copies stay inside the plan's list |
| Planner.OffsetsArePrefixSums | src/cli/execution-plan.cpp:195-204 | with a total below 2^32 the due times are the prefix sums of the script's offsets and ascend |
| Renderer.ByteVector.Grow | src/packets/payload-manager.cpp:116-122 | growing moves the storage exactly when the capacity does not suffice, and keeps the contents |
| Renderer.PreparedPayload.Prepare | src/packets/payload-manager.cpp:66-85 | clears the payload, keeps the allocation if it is large enough, and reserves all scratch bytes |
| Renderer.PreparedPayload.AppendNumeric | src/packets/payload-manager.cpp:116-127 | writes the field behind the scratch bytes in use without moving them; what earlier slices send is unchanged |
| Renderer.PreparedPayload.AppendStatic | src/packets/payload-manager.cpp:99-105 | appends exactly the asked bytes of the packet |
| Renderer.PushScratchSlice | src/packets/payload-manager.cpp:116-127 | the scratch slices tile the bytes in use and a new one leaves what the earlier ones send as it was |
| Renderer.PushPacketSlice | src/packets/payload-manager.cpp:99-105 | a packet slice adds its bytes and keeps the scratch slices tiled |
| Renderer.TotalScratch | src/packets/payload-manager.cpp:69-79 | the sum of the lengths of the dynamic operations |
| Renderer.PayloadManager.constructor | src/packets/payload-manager.cpp:24-54 | missing counter lists become empty ones and every counter starts at zero |
| Renderer.PayloadManager.FetchAdd | src/packets/payload-manager.cpp:109-114 | reads one counter and adds its step to it alone |
| Renderer.PayloadManager.EmitOperation | src/packets/payload-manager.cpp:94-187 | one round of the rendering loop: what is emitted and what is still to be rendered stay the whole payload |
| Renderer.PayloadManager.EmitAll | src/packets/payload-manager.cpp:88-187 | the loop emits the rendering of all operations, without moving the scratch storage, and steps each counter once |
| Renderer.PayloadManager.FillPayload | src/packets/payload-manager.cpp:56-190 | fails exactly past the last payload; otherwise sends the rendering of the operations, uses exactly the scratch bytes reserved and steps each counter of the payload once |
| Overlay.CoveredRange | src/packets/payload-manager.cpp:94-187 | the range of modification k holds that modification's encoded counter or timestamp, byte for byte |
| Overlay.UncoveredByte | src/packets/payload-manager.cpp:99-105 | every other byte is the packet's own |
| Overlay.CompileThenRender | src/cli/execution-plan.cpp:297-394 | for every packet and every well-placed list, rendering the compiled operations gives the packet with every field laid over its range |
| Overlay.PlannedPayload | src/cli/execution-plan.cpp:256-402 | the planned payload of a well-formed SEND can be filled and renders to its packet overlaid with its fields |
| WireLaws.OwnerOfPayload | src/cli/execution-plan.cpp:396-402 | every payload index of a plan is a copy of exactly one SEND's payload |
| WireLaws.Deploy | src/orchestrator/orchestrator.h:39-52 | the manager of a generated plan has, at every index, the payload and the counters of the SEND that owns it, all counters at zero; there is none exactly if an action does not compile |
| WireLaws.FillPlanned | src/packets/payload-manager.cpp:56-190 | filling index i of a generated plan sends the packet of the SEND that owns i with its fields laid over it, its counters at the multiples of their steps that the earlier fills of i leave |
| WireLaws.FillTogether | src/packets/payload-manager.cpp:56-190 | fills of one index that overlap in any way each send the packet with its fields laid over it, their counters at multiples of their steps, and no multiple is used by two of them |
| WireLaws.PayloadWriteCarries | src/transports/tcp-session.cpp:371-406 | the k-th payload write of a session carries index k modulo the number of copies, which is the packet of the SEND that owns it with its fields laid over it |
| SharedCounters.RunSchedule | src/packets/payload-manager.cpp:107-131 | in any interleaving of fetches, the j-th fetch of a counter reads j times its step modulo 2^64 |
| SharedCounters.SteppedIsMultiple | src/packets/payload-structs.h:35-82 | repeated 64-bit addition of the step is multiplication modulo 2^64 |
| SharedCounters.FieldsRepeat | src/packets/payload-manager.cpp:107-131 | two fetches leave the same field exactly when the steps between them add up to a multiple of 256^length |
| SharedCounters.FieldsDistinct | src/packets/payload-manager.cpp:107-131 | no field occurs twice while the steps add up to less than 256^length |
| SharedCounters.StandsStill | src/cli/execution-plan.cpp:294-329 | the counter of a script stands still exactly if its step is a multiple of 65536, or of 256 in a one-byte field |
| SessionLaws.StepKeeps | src/transports/tcp-session.cpp:39-486 | every enabled step of a TCP or UDP session keeps all write laws and the single writer |
| SessionLaws.OneWriteAtATime | src/transports/tcp-session.cpp:285-462 | in every reachable state at most one write is outstanding, and `writing_` is set exactly if one is or one has failed |
| SessionLaws.PayloadOrder | src/transports/tcp-session.cpp:371-406 | the k-th payload write carries payload k mod n; without looping there are at most n |
| SessionLaws.NothingLost | src/transports/tcp-session.cpp:104-115 | requested writes are queued or were started while not flooding; responses leave first, in order, none lost or doubled; at most one close per start |
| SessionLaws.SampledWrites | src/transports/tcp-session.cpp:325-359 | with rate R exactly the successful writes k with k mod (R + 1) = 0 are sampled, each from its own start |
| SessionLaws.FailedStaysSilent | src/transports/tcp-session.cpp:333-339 | after a failed write the session starts no other |
| SessionLaws.RetriesForever | src/transports/tcp-session.cpp:374-383 | the write routine starts over more than once, and then without end, exactly when it loops over no payloads |
| SessionLaws.FloodReturns | src/transports/tcp-session.cpp:81-115 | on a connected session with nothing under way a flood or a send returns exactly unless it loops over no payloads |
| SessionLaws.FloodNeverReturns | src/transports/tcp-session.cpp:374-383 | a concrete run to a session whose flood starts the write routine over any number of times |
| DrainLaws.DrainBound | src/transports/tcp-session.cpp:374-395 | once draining, at most as many payload writes start as payloads were left: the list never wraps again |
| DrainLaws.DrainRank | src/transports/tcp-session.cpp:315-462 | queued responses plus payloads left decrease with every completed write of a draining session |
| DrainLaws.DrainTerminates | src/transports/tcp-session.cpp:449-458 | after that many completions and one more the draining session is closed with no write outstanding |
| DrainLaws.DrainingCloses | src/transports/tcp-session.cpp:387-395 | a session started once is live or closed once; a connected draining session without a write is open only when writes are queued and no payload is left |
| DrainLaws.NeverIdleWithWork | src/transports/tcp-session.cpp:285-303 | in every reachable state of a session started once, a live, connected session without a write under way has no response and no payload it could write |
| DrainLaws.DrainAtRest | src/transports/tcp-session.cpp:117-129 | for a connected session at rest `drain` leaves it open exactly when writes are queued |
| DrainLaws.DrainMayNotClose | src/transports/tcp-session.cpp:117-129 | a concrete run in which `drain` leaves the session open |
| Framing.DeliversFrames | src/transports/tcp-session.cpp:160-282 | in every run of a session started once, the messages given to the handler are exactly the frames of the bytes received, empty bodies, header errors and oversize bodies included; the bytes counted are those received; at most one read or message is pending, and exactly one while a connected session that reads is live; a frame over the limit has closed it |
| Framing.SplitAppend | src/transports/tcp-session.cpp:160-258 | splitting a stream into frames can be resumed where an earlier split stopped |
| DatagramLaws.DeliversDatagrams | src/transports/udp-session.cpp:160-235 | in every run of a session started once, the messages given to the handler are exactly the datagrams that arrived, whole and in order; at most one read or message is pending, and exactly one while a session that reads is live |
| TcpSessions.TcpSession.constructor | src/transports/tcp-session.cpp:19-36 | a new session is in the machine's initial state |
| TcpSessions.TcpSession.Start | src/transports/tcp-session.cpp:39-52 | `start` is the machine's start step |
| TcpSessions.TcpSession.OnConnectDone | src/transports/tcp-session.cpp:53-75 | the completion of a connect is the machine's step |
| TcpSessions.TcpSession.Flood | src/transports/tcp-session.cpp:81-101 | `flood` is the machine's step |
| TcpSessions.TcpSession.Send | src/transports/tcp-session.cpp:104-115 | `send` is the machine's step |
| TcpSessions.TcpSession.Drain | src/transports/tcp-session.cpp:117-129 | `drain` is the machine's step |
| TcpSessions.TcpSession.Stop | src/transports/tcp-session.cpp:132-137 | `stop` is the machine's close |
| TcpSessions.TcpSession.OnConnect | src/transports/tcp-session.cpp:140-157 | starts the reader if enabled and the writer if there is something to write |
| TcpSessions.TcpSession.OnHeaderDone | src/transports/tcp-session.cpp:171-202 | a header error reads the next header, an oversize length closes, anything else goes on to the body |
| TcpSessions.TcpSession.DoReadBody | src/transports/tcp-session.cpp:206-227 | an empty body is delivered at once, any other is read |
| TcpSessions.TcpSession.OnBodyDone | src/transports/tcp-session.cpp:228-256 | a completed body is delivered |
| TcpSessions.TcpSession.OnAnswered | src/transports/tcp-session.cpp:266-280 | a response that is not empty is queued and the writer tried; the next header is read in any case |
| TcpSessions.TcpSession.TryStartWrite | src/transports/tcp-session.cpp:285-303 | writes unless writing, closes if draining with nothing left |
| TcpSessions.TcpSession.DoWrite | src/transports/tcp-session.cpp:315-462 | takes the next response or payload, starting the list again at most once, or goes idle and closes if draining; it returns unless it would start over for ever |
| TcpSessions.TcpSession.OnWriteDone | src/transports/tcp-session.cpp:333-364 | a failed write closes; a successful one is recorded, sampled if due, and followed by the next |
| TcpSessions.TcpSession.CloseSession | src/transports/tcp-session.cpp:465-480 | closes and calls back once per time it was live |
| TcpSessions.TcpSession.HandleAll | src/transports/tcp-session.cpp:39-486 | any sequence of handlers on the strand ends in the state of the machine's run, so that all laws hold of the object |
| UdpSessions.UdpSession.Start | src/transports/udp-session.cpp:47-78 | opening the socket while starting is the machine's UDP start |
| UdpSessions.UdpSession.Flood | src/transports/udp-session.cpp:81-102 | `flood` is the machine's step |
| UdpSessions.UdpSession.Send | src/transports/udp-session.cpp:105-115 | `send` is the machine's step |
| UdpSessions.UdpSession.Drain | src/transports/udp-session.cpp:117-129 | `drain` is the machine's step |
| UdpSessions.UdpSession.OnAnswered | src/transports/udp-session.cpp:219-233 | a response that is not empty is queued and the writer tried; the next datagram is read in any case |
| UdpSessions.UdpSession.OnDatagram | src/transports/udp-session.cpp:171-208 | a datagram is counted and delivered whole, or closes the session |
| UdpSessions.UdpSession.DoWrite | src/transports/udp-session.cpp:258-405 | the writer of the TCP session |
| UdpSessions.UdpSession.Handle | src/transports/udp-session.cpp:47-405 | every handler of a UDP session is a step of the machine |
| UdpSessions.UdpSession.HandleAll | src/transports/udp-session.cpp:47-405 | any sequence of handlers on the strand ends in the state of the machine's run |
| UdpSessions.OversizeNeverSeen | src/transports/udp-session.cpp:37-40 | a datagram that arrives never exceeds the limit, because the buffer it was cut to does not |
| SessionPools.SessionPool.Create | src/orchestrator/session-pool.h:99-123 | creates the sessions unless there are some |
| SessionPools.SessionPool.StartRange | src/orchestrator/session-pool.h:125-141 | counts and starts exactly the sessions of the range, or nothing once closed |
| SessionPools.SessionPool.SendRange | src/orchestrator/session-pool.h:143-155 | calls `send` on exactly the sessions of the range, or nothing once closed |
| SessionPools.SessionPool.FloodRange | src/orchestrator/session-pool.h:157-169 | calls `flood` on exactly the sessions of the range, or nothing once closed |
| SessionPools.SessionPool.DrainRange | src/orchestrator/session-pool.h:171-183 | calls `drain` on exactly the sessions of the range, or nothing once closed |
| SessionPools.SessionPool.StopRange | src/orchestrator/session-pool.h:185-197 | calls `stop` on exactly the sessions of the range, or nothing once closed |
| SessionPools.SessionPool.StopAll | src/orchestrator/session-pool.h:204-207 | stops every session, or none once closed |
| SessionPools.SessionPool.Close | src/orchestrator/session-pool.h:84-97 | closes once, posts no call to any session, and notifies at once exactly if none is counted |
| SessionPools.SessionPool.OnDisconnect | src/orchestrator/session-pool.h:215-225 | counts down and notifies exactly when the last session of a closed pool is gone |
| Shards.Shard.Submit | src/orchestrator/shard.h:81-93 | queues the action behind all earlier handlers, or refuses when stopped |
| Shards.Shard.SchedulePull | src/orchestrator/shard.h:97-110 | queues a snapshot behind all earlier handlers |
| Shards.Shard.Stop | src/orchestrator/shard.h:113-128 | queues the closing of the pool once |
| Shards.Shard.HandleNext | src/orchestrator/shard.h:186-240 | runs the oldest handler: an action's pool operation, a snapshot, or the closing of the pool |
| Shards.Shard.DoAction | src/orchestrator/shard.h:186-240 | does to the pool what the kind of the action asks, on its range |
| Shards.Shard.OnSessionDisconnected | src/orchestrator/shard.h:266-278 | the guard is released exactly when the pool notifies |
| Sites.StepLife | src/transports/tcp-session.cpp:465-480 | every handler of a session starts it, closes it if live, or leaves its lifetime alone, and calls back exactly on closing |
| ClosingLaws.SessionKeeps | src/orchestrator/session-pool.h:215-225 | every handler of a session keeps the pool's count equal to the starts posted and not disconnected, and the count is positive at every disconnect: it never underflows |
| ClosingLaws.HandlerKeeps | src/orchestrator/session-pool.h:84-141 | every handler of a shard keeps the same law |
| ClosingLaws.LeakedCounts | src/transports/tcp-session.cpp:39-52 | over every run of a session, the starts that no disconnect answers are exactly those that ran while it was live |
| ClosingLaws.NotifiedMeansQuiet | src/orchestrator/session-pool.h:84-97 | the shard is told at most once, and only when the pool is closed, no session is live, no start is pending and none ran on a live session |
| ClosingLaws.NotifiedExactly | src/orchestrator/session-pool.h:215-225 | in every state a pool has told its shard exactly if it is closed, no session is live, no start is pending and none ran on a live session |
| ClosingLaws.StoppedIsGone | src/orchestrator/session-pool.h:185-225 | a session that is stopped between any two starts and after the last does not hold its pool once its calls have run |
| ClosingLaws.StartedOnceNeverLeaks | src/orchestrator/session-pool.h:125-141 | with at most one start per session the pool counts each session that is live or whose start is pending, and no start runs on a live one |
| Sharding.Partition | src/orchestrator/orchestrator.h:186-210 | the loop's ranges are i(N/K) + min(i, N mod K) to the same at i + 1, without overflow |
| Sharding.PartitionCovers | src/orchestrator/orchestrator.h:186-222 | the ranges begin at 0, end at N and meet without gap or overlap |
| Sharding.PartitionIsFair | src/orchestrator/orchestrator.h:189-202 | the first N mod K ranges hold one session more than the others |
| Sharding.OneOwner | src/orchestrator/orchestrator.h:194-210 | every session index lies in exactly one range |
| Sharding.OverlapExact | src/orchestrator/orchestrator.h:229-249 | a local index is in a shard's part of an action exactly when its global index is in the action, and the part stays inside the shard |
| Sharding.LastExitReleases | src/orchestrator/orchestrator.h:331-351 | when the shards end one by one, exactly the last of them releases the orchestrator |
| Refinement.DistributeKeeps | src/orchestrator/orchestrator.h:227-252 | submitting a shard's part of an action keeps calls made and calls queued equal to the flat array's |
| Refinement.HandleKeeps | src/orchestrator/shard.h:186-240 | so does running the shard's oldest handler |
| Refinement.HeadInside | src/orchestrator/shard.h:186-240 | the next action of a shard reaches only sessions that exist, and never a closed pool |
| Fleets.ShardingRefinesFlat | src/orchestrator/orchestrator.h:173-262 | under any interleaving of the orchestrator, the shards and the sessions, every session index belongs to one shard and has been called there with a prefix of what one flat array would have called, in script order, and with all of it once that shard's queue is empty |
| Fleets.FleetStepKeeps | src/orchestrator/orchestrator.h:173-380 | every step keeps the laws of partition, queues, pools and exits together, and every handler a shard is about to run is inside its pool |
| Fleets.ClosesInOrder | src/orchestrator/orchestrator.h:331-351 | the orchestrator is released exactly when every shard's thread has ended and never twice; a shard ends only with a closed pool, no live session and every start disconnected |
| EndingLaws.EndsExactly | src/orchestrator/shard.h:147-184 | in every reachable state the guard of a shard is gone exactly if its pool is closed, no session is live, no start is pending and in the whole run none of its sessions was started while it was live; it can end by itself exactly if it is at rest besides |
| EndingLaws.LeakNeverEnds | src/orchestrator/session-pool.h:125-141 | a session that was started while it was live holds its shard for ever: no continuation releases the orchestrator |
| EndingLaws.HeldNeverEnds | src/orchestrator/shard.h:113-128 | a shard of a stopping program that is at rest and still has its guard keeps it for ever |
| EndingLaws.ReleasedExactly | src/orchestrator/orchestrator.h:331-351 | a program that is shut down and at rest can come to its end exactly if no session is live and none was ever started while it was live |
| EndingLaws.ReleasedIfDisconnected | src/orchestrator/orchestrator.h:331-351 | a plan that disconnects every session between any two CONNECTs and after the last brings the program, shut down and at rest, to its end |
| PlanRuns.PlanHandled | src/orchestrator/orchestrator.h:173-262 | every plan that creates its sessions first can be dispatched and handled in full by any number of shards before a session runs a handler |
| PlanRuns.SessionPlays | src/orchestrator/shard.h:186-240 | whatever a session can do when its calls are run in order happens in some run of the whole program |
| PlanRuns.LiveSessionHolds | src/orchestrator/session-pool.h:84-97 | a concrete plan with a run in which no session is started while live and that comes to rest with a session live, from which the program never ends by itself |
| ReconnectLaws.LeaksExactly | src/transports/tcp-session.cpp:39-137 | calls that start a session again, after every drain since found it with something to write and without a stop, have a run that starts it while it is live; of sessions that do not read, only such calls have |
| ReconnectLaws.DrainedAndStartedAgain | src/transports/tcp-session.cpp:117-129 | a concrete run, for every configuration, that starts a session while it is live |
| ReconnectLaws.SessionOfPlan | src/orchestrator/orchestrator.h:173-262 | any run of a session on the calls a plan makes on it is part of a run of the program on that plan |
| ReconnectLaws.AgainNeverEnds | src/orchestrator/session-pool.h:125-141 | a plan that connects a session again, with no DISCONNECT between and no DRAIN before a SEND, has a run from which the program never ends by itself |
| ReconnectLaws.PlanLeaksExactly | src/orchestrator/session-pool.h:125-141 | with READ off, some run of a plan starts a live session exactly if the plan starts a session again when it may still be open; with READ on such a plan has one too |
| Orchestrators.ServeExact | src/orchestrator/orchestrator.h:134-158 | one run of the dispatch loop dispatches in order every due action up to the first that is not, and sets the timer to that one's time |
| Orchestrators.DispatchIsExact | src/orchestrator/orchestrator.h:134-171 | for any nondecreasing clock readings an action is dispatched exactly if a reading reached its offset, once, in order, at the first such reading; the shutdown comes exactly when all are |
| DispatchRuns.DispatchedByLoop | src/orchestrator/orchestrator.h:134-158 | in every run in which the orchestrator is as far as the loop at given readings, exactly the actions the loop has served have been dispatched, and the program is stopping exactly if the loop has finished; in between, a first part of the plan, and all of it once stopping |
| DispatchRuns.RunObeys | src/orchestrator/orchestrator.h:173-262 | in every run the actions dispatched are those ordered before the first shutdown |
| DispatchRuns.DispatchInFleet | src/orchestrator/orchestrator.h:134-158 | one run of the loop of the orchestrator object does to its shards what a run of the fleet with the same orders does |
| DispatchRuns.DispatchReadings | src/orchestrator/orchestrator.h:134-171 | the orchestrator object, its loop run at any clock readings, ends in the state of a run of the fleet whose orders are the loop's |
| Orchestrators.Orchestrator.DistributeAction | src/orchestrator/orchestrator.h:173-262 | computes the fair partition on CREATE and submits to every shard exactly its part |
| Orchestrators.Orchestrator.DispatchPending | src/orchestrator/orchestrator.h:134-158 | serves the agenda, gives every shard its parts of exactly the actions served, in order, and stops every shard after the last |
| Orchestrators.Orchestrator.DoShutdown | src/orchestrator/orchestrator.h:353-380 | stops every shard, once |
| Orchestrators.Orchestrator.OnShardExit | src/orchestrator/orchestrator.h:331-351 | counts an exit as the fleet's runs do, and keeps that the orchestrator is released once no shard is left and only once |
| MetricsRounds.Accumulate | src/metrics/metrics-snapshot.h:35-54 | adds every figure and every bucket with 64-bit wrap-around |
| MetricsRounds.ComputeDifference | src/metrics/metrics-snapshot.h:99-150 | subtracts every figure and every bucket as signed numbers |
| MetricsRounds.FigureByFigure | src/metrics/metrics-snapshot.h:35-150 | sums and differences hold for each of the 54 figures by itself |
| MetricsRounds.AggregateDelta | src/metrics/orchestrator-metrics.h:37-69 | the sum of all latest snapshots and its change against the sum of those before |
| MetricsRounds.MetricsCollector.RequestMetrics | src/orchestrator/orchestrator.h:279-302 | asks every shard for one snapshot and expects as many callbacks |
| MetricsRounds.MetricsCollector.Record | src/orchestrator/orchestrator.h:304-315 | records one snapshot and posts the end of the round with the last |
| MetricsRounds.MetricsCollector.CompleteRound | src/orchestrator/orchestrator.h:319-329 | reports the aggregate and sets the timer for the next round |
| MetricsRounds.OneRoundAtATime | src/orchestrator/orchestrator.h:265-329 | at most one round is timed, under way or due to be reported, and when a report is due all histories have one snapshot per round |
| MetricsRounds.ChangesTelescope | src/metrics/orchestrator-metrics.h:37-69 | for every figure the changes of all rounds add up to the latest total, if that is below 2^63 |
| Validator.VerifyActions | src/interpreter/interpreter.cpp:422-1075 | the loop over in-place session flags accepts exactly the scripts that the per-session automaton, the pool size and the SEND checks accept |
| Validator.VerifyAction | src/interpreter/interpreter.cpp:484-1071 | one action is accepted exactly if it is allowed for every session of its range, and its marks are right for what follows |
| Validator.CheckSend | src/interpreter/interpreter.cpp:549-901 | the checks of a SEND that do not look at sessions |
| Validator.CheckTimestamps | src/interpreter/interpreter.cpp:705-807 | the loop over the timestamps passes exactly if each fits its packet and none clashes |
| Validator.CheckCounters | src/interpreter/interpreter.cpp:809-901 | the loop over the counters goes on with the ranges of the timestamps |
| Validator.MarkRange | src/interpreter/interpreter.cpp:995-1016 | changes exactly the flags of the range, or fails if one of them is not as it should be |
| Validator.AllActive | src/interpreter/interpreter.cpp:904-921 | passes exactly if every session of the range is active |
| Validator.InsertModRange | src/interpreter/interpreter.cpp:1078-1106 | searching the ordered map for the two neighbours of the start rejects exactly what their comparison with lengths rejects, and stores the range in order otherwise |
| Validator.ClashAbove | src/interpreter/interpreter.cpp:1082-1089 | the entry at the lower bound decides whether any start lies between the new start and the new length |
| Validator.ClashBelow | src/interpreter/interpreter.cpp:1091-1101 | the entry before the lower bound is the nearest range below |
| Validator.AcceptedMeans | src/interpreter/interpreter.cpp:524-1071 | CONNECT needs inactive sessions, SEND, FLOOD and DRAIN active ones, DISCONNECT ones not disconnected before |
| ValidatorLaws.RangesInsidePool | src/interpreter/interpreter.cpp:437-523 | an accepted script has at most one CREATE, of at least as many sessions as shards, and every range ends inside it |
| ValidatorLaws.CreatesFirst | src/interpreter/interpreter.cpp:484-500 | before its CREATE an accepted script has only actions on an empty range at 0 |
| ValidatorLaws.PlanCreatesFirst | src/orchestrator/orchestrator.h:173-185 | the plan of an accepted script creates first and only once exactly if the script begins with CREATE, and then stays inside the pool |
| ValidatorLaws.FloodBeforeCreate | src/interpreter/interpreter.cpp:925-968 | a concrete accepted script that does not begin with CREATE |
| ValidatorLaws.ConnectsAlternate | src/interpreter/interpreter.cpp:524-1071 | every session is connected as often as drained, once more while active, and disconnected at most once |
| ValidatorLaws.AcceptedSend | src/interpreter/interpreter.cpp:549-901 | an accepted SEND compiles; as long as no range runs past 2^32 it is well formed for rendering exactly if its modifications ascend without overlap |
| ValidatorLaws.AcceptedScriptCompiles | src/interpreter/interpreter.cpp:422-1075 | the plan of an accepted script never fails |
| ValidatorLaws.RangeCheckOfTwo | src/interpreter/interpreter.cpp:1078-1106 | of two ranges the later is rejected exactly if they overlap within the lower one's length or touch from byte 0, and when that agrees with overlap |
| ValidatorLaws.ChecksPairs | src/interpreter/interpreter.cpp:1078-1106 | a list of any length passes exactly if no entry is rejected by an earlier one that is still stored |
| ValidatorLaws.ListCheck | src/interpreter/interpreter.cpp:1078-1106 | a list of ranges passes exactly if its overlapping pairs reach past the lower one's length and its other pairs do not touch from byte 0 |
| ValidatorLaws.DisjointListCheck | src/interpreter/interpreter.cpp:1078-1106 | disjoint ranges in any order and number pass exactly if none starts at byte 0 and ends where another starts |
| ValidatorLaws.PlacedSendPasses | src/interpreter/interpreter.cpp:702-901 | a list that could be rendered passes all checks exactly if no counter step is 0, no field ends with the packet and no field is in the way of a later one, which without empty fields means that no two touch from byte 0 |
| ValidatorLaws.FieldAtTheEndRejected | src/interpreter/interpreter.cpp:868-898 | a concrete list that could be rendered and is rejected because its field ends with the packet |
| ValidatorLaws.FarRangesNeverClash | src/interpreter/interpreter.cpp:1078-1106 | fields of at most 8 bytes that start past byte 8 never clash, wherever they lie |
| ValidatorLaws.OverlapAcceptedTouchRejected | src/interpreter/interpreter.cpp:1078-1106 | a concrete overlap that is accepted and a concrete touch that is rejected |
| ValidatorLaws.DescendingListAccepted | src/interpreter/interpreter.cpp:702-901 | the list that cannot be rendered passes all modification checks |
| Lexers.Lexer.Advance | src/interpreter/lexer.cpp:251-271 | moves over one character; line and column are those of the text before the cursor |
| Lexers.Lexer.SkipIgnorable | src/interpreter/lexer.h:90-126 | stops at the first character that is neither blank nor in a comment |
| Lexers.Lexer.SkipComment | src/interpreter/lexer.h:110-121 | skips to the end of the line |
| Lexers.Lexer.Collect | src/interpreter/lexer.cpp:148-204 | reads the longest word or number |
| Lexers.Lexer.QuotedChar | src/interpreter/lexer.cpp:90-106 | an escaped quote or dollar stands for itself, anything else for one character |
| Lexers.Lexer.CollectQuoted | src/interpreter/lexer.cpp:84-142 | reads a quoted text with escaped quotes and dollars, and fails exactly if it is not closed |
| Lexers.Lexer.ReadLexeme | src/interpreter/lexer.cpp:42-239 | reads the longest token at the cursor or fails on a character that starts none |
| Lexers.Lexer.Tokenize | src/interpreter/lexer.cpp:24-249 | yields exactly the tokens of the text with the line and the column each starts at, or fails exactly where the text has none |
| Printers.LexPrinted | src/interpreter/lexer.cpp:24-249 | for every list of well-formed tokens, lexing what is printed gives the list back |
| Printers.LexWellFormed | src/interpreter/lexer.cpp:24-249 | the lexer produces well-formed tokens only |
| Printers.ExpressibleValues | src/interpreter/lexer.cpp:83-142 | a value can be written in some script exactly if it does not end in a backslash |
| Numbers.NumberReadBack | src/interpreter/parser.cpp:686-708 | a printed number below 2^31 reads back, whatever follows that is not a digit |
| Numbers.TimeReadBack | src/interpreter/parser.cpp:750-797 | a printed time reads back in milliseconds, and in seconds as a product cut to 32 bits |
| Parsers.Parser.TryParseRange | src/interpreter/parser.cpp:710-748 | reads exactly the grammar's range or fails with it |
| Parsers.Parser.ParseArguments | src/interpreter/parser.h:117-174 | reads the range, the byte order and the last value that both options share |
| Parsers.Parser.TryParseSendOption | src/interpreter/parser.h:106-279 | reads exactly the grammar's COUNTER or TIMESTAMP and pushes it onto the action |
| Parsers.Parser.ParseOptions | src/interpreter/parser.cpp:483-520 | the option loop pushes exactly the grammar's list of modifications, in order |
| Parsers.Parser.ParseCopies | src/interpreter/parser.cpp:438-481 | reads the packet identifier, COPIES and their number |
| Parsers.Parser.ParseBody | src/interpreter/parser.cpp:425-593 | fills in the action exactly as the grammar of its kind says |
| Parsers.Parser.ParseOneAction | src/interpreter/parser.cpp:402-633 | reads exactly the grammar's action or fails with it |
| Parsers.Parser.TryParseOffset | src/interpreter/parser.cpp:601-630 | reads an OFFSET or gives the default of 250 ms |
| Parsers.Parser.ParseActionLines | src/interpreter/parser.cpp:400-640 | the action loop reads exactly the grammar's list of actions up to the brace |
| Parsers.Parser.ParseOrchestratorBlock | src/interpreter/parser.cpp:374-646 | reads exactly the grammar's block or fails with it |
| Parsers.Parser.ParsePacketList | src/interpreter/parser.cpp:133-183 | reads the named packets up to the brace, later ones replacing earlier ones |
| Parsers.Parser.ParseEndpointList | src/interpreter/parser.cpp:186-218 | reads the endpoints up to the brace, in order |
| Parsers.Parser.ParseNestedSetting | src/interpreter/parser.cpp:126-232 | reads the packets or the endpoints behind their keyword |
| Parsers.Parser.ParsePlainSetting | src/interpreter/parser.cpp:233-359 | reads the value of a plain setting and assigns exactly its field |
| Parsers.Parser.ParseOneSetting | src/interpreter/parser.cpp:111-359 | reads a plain or nested setting and assigns exactly its field |
| Parsers.Parser.ParseSettingsBlock | src/interpreter/parser.cpp:83-372 | the settings loop reads exactly the grammar's block or fails with it |
| Parsers.Parser.ParseScript | src/interpreter/parser.cpp:24-81 | the parser reads exactly the grammar's scripts |
| RoundTrips.MergeSplits | src/interpreter/script-structs.h:122-144 | the two lists and the order an action keeps are those of the merged list they stand for |
| RoundTrips.ModificationsReadBack | src/interpreter/parser.h:106-279 | a printed list of modifications parses to that list |
| RoundTrips.ActionReadBack | src/interpreter/parser.cpp:400-634 | a printed action line parses to that action |
| RoundTrips.OrchestratorReadBack | src/interpreter/parser.cpp:374-646 | a printed list of actions parses to that list |
| ScriptRoundTrips.FirstSettingsReadsAs | src/interpreter/parser.cpp:110-360 | printed settings, endpoints and packets parse to those settings |
| TextRoundTrips.ScriptReadBack | src/interpreter/parser.cpp:24-81 | parsing inverts printing to tokens, for every printable script |
| TextRoundTrips.ReadScript | src/interpreter/lexer.cpp:24-249 | the lexer and the parser one after the other compute the reading of a text |
| TextRoundTrips.ReadWrite | src/interpreter/parser.cpp:24-797 | reading inverts writing: every script whose names are identifiers, whose values do not end in a backslash, whose numbers are below 2^31 and whose offsets are times the parser can yield, written with escapes and read, is the same script |
| ReadableScripts.ListsMerge | src/interpreter/script-structs.h:122-144 | a modification list taken apart into two lists and an order is put together again |
| ReadableScripts.ReadIsOk | src/interpreter/parser.cpp:24-797 | whatever text is read, the script has numbers below 2^31, times the parser can yield, known formats, and names and values that can be written |
| ReadableScripts.ReadableExactly | src/interpreter/parser.cpp:24-797 | of the scripts with both blocks, the lexer and the parser yield exactly those that can be written |
| PipelineLaws.ReadAndAccepted | src/cli/execution-plan.cpp:195-435 | the plan of a script that was read and accepted never fails, and its SENDs render to their packets with their fields exactly if these ascend without overlap |
| PipelineLaws.WithoutDrainConnectsOnce | src/interpreter/interpreter.cpp:524-1071 | an accepted script without DRAIN connects no session twice |
| PipelineLaws.DisconnectingScriptEnds | src/orchestrator/orchestrator.h:331-351 | a script that disconnects every session between any two CONNECTs and after the last, dispatched by the loop, shut down and at rest, can come to its end |
| PipelineLaws.AcceptedScriptEnds | src/orchestrator/orchestrator.h:331-351 | so does an accepted script without DRAIN in which every session that is connected is disconnected later |
| PipelineLaws.ConnectOnlyAccepted | src/interpreter/interpreter.cpp:422-1075 | the script CREATE, CONNECT is accepted and compiles to the plan that need not end |
| PipelineLaws.ScriptMayNeverEnd | src/orchestrator/session-pool.h:125-141 | an accepted script that connects a session again, sent to before any DRAIN and not disconnected since, has a run from which the program never ends by itself |
| PipelineLaws.ConnectsTwiceAccepted | src/interpreter/interpreter.cpp:422-1075 | the script CREATE, CONNECT, SEND, DRAIN, CONNECT is accepted and is one |
| PipelineLaws.FloodWithoutSend | src/transports/tcp-session.cpp:374-383 | the plan of a script without SEND has no payloads, and a FLOOD of a connected idle session then returns exactly if REPEAT is off |
| PipelineLaws.FloodOnlyAccepted | src/interpreter/interpreter.cpp:422-1075 | the script CREATE, CONNECT, FLOOD is accepted |

## Left out

- Overlay.CompileThenRender: takes ascending, disjoint, in-bounds lists as a hypothesis, since `insert_mod_range` does not establish it; `Planner.OperationsFromExact` shows that the hypothesis is needed.
- Framing.DeliversFrames: for a session started once and a header size that is not 0; a second start opens a second reader.
- DrainLaws.DrainingCloses: for sessions started once, which the validator does not promise after a DRAIN.
- SessionLaws.NothingLost: `writes_queued_` and the pool's count are unbounded numbers; their 64-bit wrap-around past 2^64 requests is not modelled.
- SessionLaws.SampledWrites: the sample counter is unbounded; its 32-bit wrap-around needs a rate of 2^32 - 1, which the parser cannot read.
- MetricsRounds.ChangesTelescope: the difference of two numbers of 2^63 or more is taken over unbounded integers where the source leaves it undefined.
- TextRoundTrips.ReadWrite: action fields that a kind does not use have the initial values of the model; the source leaves them unset. Printing puts one blank behind every token.
- Planner.GeneratePlan: descriptor counts that the source leaves unset are 0; packets are byte arrays given by identifier, without the lookup of duplicates by file name.
- Validator.VerifyActions: the checks of the settings block and the resolving of files are left out; a file is its size or missing.
- Orchestrators.Orchestrator.DispatchPending: for plans that create their sessions first; before that the source reads ranges that do not exist yet, which has no defined effect. `ValidatorLaws.PlanCreatesFirst` says which accepted scripts have such plans.
- WireLaws.FillTogether: the fills that overlap are given by the places at which they fetch their counters; their scratch buffers, one per session, are those of `WireLaws.FillPlanned`.
- ReconnectLaws.LeaksExactly: of sessions that read, only that such calls have such a run; an answer of the message handler that is still to be written can hold a draining session open as well.
- EndingLaws.EndsExactly: without the forced-stop timer, which ends a shard 30 seconds after its shutdown if nothing else does.
- ReadableScripts.ReadableExactly: for scripts with both blocks; a script without one of them is read with an empty name, which no text has.
- Sockets, name resolution, threads and clocks: completions in any order, nondecreasing clock readings, and handlers in the order they were posted to one executor.
- The message handlers: the header parser is any function and the handler answers each message once; the WASM engine is not part of this model.
- The sessions inside a pool of the sharding model are the calls posted to them; the closing model adds each session's machine and runs those calls in order.
- The exception path of a shard, and an early stop between two runs of the dispatch loop.
- Which buffer a body is read into, latency buckets and the read-latency samples.
- Error messages, terminal output, command-line flags, logging, histograms and numeric display.
