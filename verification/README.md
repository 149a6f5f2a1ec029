# Verified model of the bridge runtime

This project models, in Dafny, the parts of the bridge runtime whose correctness does not
show in any single function, and proves what they promise. `dafny verify dfyconfig.toml`
checks all of it.

**Relay decoders and gates.** Three incremental parsers of the WebSocket stream (RFC 6455,
sections 5.2 to 5.5) sit on one relay: the helper's gate, the trial auth gate, which shares
its decoder, and the observer, which has its own; the helper reads server frames from its
stream with a third. Each gate and the observer is a class that changes its buffer,
fragments and tables in place. Every method is proved against a function on values
(`GateSpec`, `ObserverSpec`), and the theorems are about those functions: what a frame is,
bit by bit (`FrameLayout`); what becomes of every message, by its frames, the policy and the
open ids (`GateRules`); that the observer's records are what the messages say, one for one
(`ObserverRows`); independence from the way the stream is cut, conservation of octets,
bounds, agreement of the decoders, the auth gate as a projection that is transparent to a
second gate, and the conservation of request ids, over whole runs of a connection. JSON, UTF-8, the RPC policies and the acceptance of an upgrade header are
functions of the octets.

**Retained task.** A worker links immutable step files and then rewrites a lagging state; it
can die at any point and be resumed under the lock. The runs of this protocol are a state
machine; the lock-free inspector reads each file at its own instant of a run. It never calls
a reachable disk damaged, and each answer is the snapshot of one instant of the call; of any
other disk it reports damage exactly if something there is not intact. What a start, a step,
a stop and a resume leave is stated without the machine's own functions (`RetainedLife`).

**Batch and acknowledgement commands.** A directory of names, inodes and link counts, with a
process that dies after any number of system calls, refines an abstract step that commits
one record or none. The protocol's safety is proved on the abstract steps and carried to the
directory. What each command answers and commits is stated by its request and the records
(`BatchAnswers`).

**Delivery ledger and its consumers.** The status machine of a delivery with its one slot per
thread, the artifacts it writes as canonical text, and exactly which batches the adapter and
the two envelope checkers accept; the offline audit of captured history.

**Receipt quota.** The fields the request decoders accept and the size of what is stored of
them, the admission loop with its limits, the reservation that guarantees a later receipt,
and the delivery loop that relies on it while other sessions use the same directory.  That
digests do not collide is assumed of the prompts in play only.

**Two automata.** Owner readiness over the observer's records, and the event loop of the MCP
server. Both are characterised by their history alone: a session is ready exactly if its
records, read as a list, say so (`OwnerTrace`), and what the server has started, cancelled
and answered is what its happenings call for (`McpTrace`).

Properties one would expect of the code, and where they end; each has an input at which it
fails and the exact condition under which it holds:

- A stream accepted whole is accepted in every way of cutting it, except for a cut that lets
  more than 65536 octets pass without the header's end: `SplitAcceptedIff`, `StalledSplit`.
  The auth gate has no such cut, but takes no call, even an empty one, after a close frame:
  `AuthChunksIff`.
- What one gate of the relay lets through the next one takes, except that the auth gate may
  release held frames together with its chunk, more than the 4 MiB that a gate takes in a
  call: `ReplayFeed`, `OversizedOutput`.
- Readiness means the handshake in order, except that the client may send initialize before
  the server has answered its upgrade: `ReadyOrderIff`, `PipelinedRelay`.
- A reservation makes its receipt sure to be admitted, until a process dies between writing
  a receipt and removing its reservation: `AfterDeathAdmitsIff`, `GuaranteeFails`; a replay
  restores it (`ReplayRepairs`), and `Deliver` says what a session has of it meanwhile.
- The batches the ledger prepares can be delivered, except that it accepts thread ids up to
  128 characters and event revisions and epochs without an upper bound: `AttachIff`,
  `EnvelopeAcceptedIff`, `PreparedButUndeliverable`, `LongThreadUndeliverable`.
- A turn once recorded for a delivery stays, except that a confirmation checks it in one
  locked section and writes it in another: `ConfirmKeepsTurnIff`, `ConfirmMayReplaceTurn`.

## Model

| member | source | states |
|---|---|---|
| Bytes.UnmaskInvolution | runtime/native/owner_helper.py:396-407 | masking an octet string twice with the same four-octet mask gives it back; which mask octet masks which octet is in `FrameLayout.UnmaskBits` |
| FrameLayout.UnmaskBits | runtime/native/owner_helper.py:396-407 | bit by bit: unmasking flips in octet i exactly the bits set in mask octet i modulo 4 |
| Bytes.FindHeaderEndFirst | runtime/native/owner_helper.py:584-589 | the header end found is behind the first CR LF CR LF, and none is found only if there is none |
| Bytes.HeaderEndStable | runtime/native/proxy_observer.py:281-292 | octets that arrive later do not move a header end already found |
| GateSpec.NextFrameStable | runtime/native/owner_helper.py:514-539 | a frame or a decoding error at the head of the buffer does not depend on what arrives behind it |
| GateSpec.NextFrameRaw | runtime/native/owner_helper.py:514-539 | a decoded frame is a prefix of the buffer of at least two octets, carries at most 65535 octets and decodes alone to itself |
| GateSpec.NeedMoreBound | runtime/native/owner_helper.py:514-535 | an undecodable remainder is at most 65544 octets from the server and 65548 from the client |
| NativeGate.CutHeadFrame | runtime/native/owner_helper.py:514-539 | the in-place decoder cuts exactly the frame at the head of the buffer, or reports the same error or need for more |
| FrameLayout.FrameIff | runtime/native/owner_helper.py:514-539 | the decoder yields a frame exactly if the buffer begins with it and its fields, its length and every bit of its payload are those that section 5.2 of RFC 6455 reads off the raw octets, the mask behind the header included |
| FrameLayout.WaitsIff | runtime/native/owner_helper.py:514-539 | it waits exactly while header or payload are incomplete and nothing read so far is wrong |
| NativeGate.NativeWebSocketGate.CompleteMessage | runtime/native/owner_helper.py:541-557 | the method has exactly the state, shared id table and released frames of the gate function, a rejection included; what that decides is in `GateRules.MessageDecided` |
| GateRules.MessageDecided | runtime/native/owner_helper.py:541-557 | a whole message at the head of the buffer: if it is too large, refused by the policy, or has an id that is open (client) or not open (server) the stream ends with exactly that reason; otherwise its frames are released, its id enters or leaves the table, and the rest is drained |
| GateRules.FrameDecided | runtime/native/owner_helper.py:591-605 | a frame in the middle of a message is kept back, a good control frame passes the auth gate at once, a close ends it, and any other frame out of its place ends the stream with its reason |
| GateRules.FeedAdmits | runtime/native/owner_helper.py:541-557 | an accepted call, of either gate, has completed only messages that the policy admits |
| GateRules.RunAdmits | runtime/native/owner_helper.py:541-557 | so has every run |
| NativeGate.NativeWebSocketGate.TakeFrame | runtime/native/owner_helper.py:594-604 | for every frame and state the method has exactly the reply, state and table of the gate function |
| NativeGate.NativeWebSocketGate.Feed | runtime/native/owner_helper.py:581-605 | one call computes the gate function; while nothing was rejected all output, held frames and buffer are all input, and every message completed so far is one the policy admits |
| NativeGate.NativeWebSocketGate.Run | runtime/native/owner_helper.py:562-605 | a whole run of calls computes the fold of the gate function |
| GateTheorems.FeedWellformed | runtime/native/owner_helper.py:581-605 | after every accepted call the held frames are the front of one unfinished text message, the payload is theirs unmasked, and nothing decodable is left |
| GateTheorems.FeedBounded | runtime/native/owner_helper.py:581-605 | after an accepted call the buffer is at most 65548 octets (65544 server, 65536 before the handshake ends) and the payload at most 65535 |
| GateTheorems.FeedConserves | runtime/native/owner_helper.py:581-605 | output, then held frames, then buffer: one accepted call adds exactly the data |
| GateTheorems.RunConserves | runtime/native/owner_helper.py:581-605 | on a run without rejection all output with what is held and buffered is all input |
| GateTheorems.FeedSplit | runtime/native/owner_helper.py:581-605 | feeding a then b is feeding a followed by b, reply and state, except that a call which stalls in the handshake is rejected |
| GateTheorems.SplitAcceptedIff | runtime/native/owner_helper.py:581-605 | both halves are accepted exactly when the whole is and the first half does not stall past 65536 octets without a header end |
| GateTheorems.ChunksToWhole | runtime/native/owner_helper.py:581-605 | chunks that are accepted one by one are accepted as one chunk of at most 4 MiB with the same outcome |
| GateTheorems.WholeToChunks | runtime/native/owner_helper.py:581-605 | a whole whose header is at most 65536 octets is accepted in every way it can be cut, with the same outcome |
| GateLimits.StalledSplit | runtime/native/owner_helper.py:581-589 | a header of 65541 octets is accepted in one call and rejected when it is cut before its end |
| AuthGate.AuthWebSocketGate.CompleteAuthMessage | plugins/codex-orchestrator/lib/trial/auth_wire.py:145-154 | exactly the gate function of the auth policy, which leaves the id table empty |
| AuthGate.AuthWebSocketGate.TakeFrame | plugins/codex-orchestrator/lib/trial/auth_wire.py:208-246 | for every frame and state exactly the reply and state of the gate function with control frames |
| AuthGate.AuthWebSocketGate.FeedAuth | plugins/codex-orchestrator/lib/trial/auth_wire.py:186-249 | one call computes the gate function, including the bound on the handshake and the end at a close frame |
| AuthGate.AuthWebSocketGate.Feed | plugins/codex-orchestrator/lib/trial/auth_wire.py:159-184 | a rejection also drops all that was held; the ghost history of input frames, output frames and completed messages grows by the call, and the policy admits every completed message |
| AuthGate.ChainedGate.Call | runtime/native/activation_service.py:219-227 | an accepted chained call forwards exactly what the auth gate forwarded and the helper gate holds nothing; it refuses exactly if one of the gates does |
| AuthTheorems.ReplayFeed | plugins/codex-orchestrator/lib/trial/auth_wire.py:186-249 | the output of an accepted call, fed to a second gate that accepts it, comes out unchanged and nothing is held; the same gate accepts it exactly if it is at most 4 MiB |
| AuthTheorems.RunIdempotent | plugins/codex-orchestrator/lib/trial/auth_wire.py:186-249 | on whole runs: outputs of at most 4 MiB passed through a fresh gate return unchanged, call by call |
| AuthChunks.AuthFeedSplit | plugins/codex-orchestrator/lib/trial/auth_wire.py:186-249 | two calls of the auth gate against one: same replies and states, rejections included, except that after a call that ends with a close frame none is taken, and octets behind a close are refused |
| AuthChunks.AuthChunksIff | plugins/codex-orchestrator/lib/trial/auth_wire.py:186-249 | calls are accepted exactly if one call with all their octets is and, where that ends with a close frame, the last of them is not empty; then output, messages and state are the same |
| GateLimits.OversizedOutput | plugins/codex-orchestrator/lib/trial/auth_wire.py:208-249 | three accepted calls of the auth gate, the last of which releases more than 4 MiB, which no gate behind it accepts |
| AuthProjection.DrainTracks | plugins/codex-orchestrator/lib/trial/auth_wire.py:208-249 | data frames keep their order, control frames theirs, a control frame overtakes only frames of a message still open, nothing follows a close |
| AuthProjection.FeedExplained | plugins/codex-orchestrator/lib/trial/auth_wire.py:186-249 | every accepted call extends a history in which input and output are header and frames and the output is such a projection |
| AuthGate.ClosingShows | plugins/codex-orchestrator/lib/trial/auth_wire.py:238-246 | a call that closes the gate forwards something |
| ObserverSpec.StepShrinks | runtime/native/proxy_observer.py:352-454 | every turn of the frame loop takes at least two octets off the buffer, so the loop ends |
| Observer.ConnectionObserver.EmitEvent | runtime/native/proxy_observer.py:224-259 | exactly the emit function: an overflow ends the records with one gap and clears the whole connection |
| Observer.ConnectionObserver.RecordGap | runtime/native/proxy_observer.py:261-279 | the first gap invalidates the connection and clears its parsers and table; later ones do nothing |
| Observer.ConnectionObserver.HandleRequest | runtime/native/proxy_observer.py:534-566 | exactly the request function on the whole connection, parsers included |
| Observer.ConnectionObserver.HandleResponse | runtime/native/proxy_observer.py:658-673 | exactly the response function on the whole connection, parsers included |
| ObserverRows.RunTold | runtime/native/proxy_observer.py:534-673 | on every run the records of requests and responses are, one for one and in order, what the messages decode to: direction, id, method, and for a response ok and detail exactly if the message says success; one message at most, the last of an ended connection, has no record |
| ObserverRows.ToldBacked | runtime/native/proxy_observer.py:658-673 | so every recorded success is a success that this direction sent under that id, with the method of an open request |
| Observer.ConnectionObserver.HandleFrame | runtime/native/proxy_observer.py:403-454 | for every frame exactly the frame function, and both parsers cleared if it made the connection invalid |
| ObserverRules.FrameRuled | runtime/native/proxy_observer.py:403-454 | an illegal frame ends the connection with one gap that says what was wrong, or that the queue was full; a legal one is recorded, kept as a fragment, or completes exactly its message |
| ObserverRules.HeadRuled | runtime/native/proxy_observer.py:352-384 | the frame loop waits for a header that is lawful so far and not complete, and ends the connection at one it cannot read, with its reason and sizes |
| ObserverRules.CallRuled | runtime/native/proxy_observer.py:158-182 | a call beyond the buffer limit ends the connection with its gap; any other is parsed |
| ObserverRules.RunKept | runtime/native/proxy_observer.py:224-279 | on every run records are numbered from 1 without a hole but for the one behind an overflow, stay within the queue limit, and hold a gap exactly if the connection is not valid |
| FrameLayout.ObserverHeadIff | runtime/native/proxy_observer.py:352-402 | the observer reads a header exactly if it is lawful, with a known opcode, small whole control frames and a length within its limit |
| FrameLayout.ObserverPayload | runtime/native/proxy_observer.py:385-402 | and recovers, bit by bit, the payload laid out in the frame |
| Observer.ConnectionObserver.ParseBufferedFrames | runtime/native/proxy_observer.py:352-454 | the frame loop over the buffer computes the frame function |
| Observer.ConnectionObserver.ParseUpgradeHeader | runtime/native/proxy_observer.py:281-346 | exactly the upgrade function; parsing goes on to frames exactly if the direction is upgraded |
| ObserverRules.HeaderRuled | runtime/native/proxy_observer.py:281-346 | a header within the limit upgrades the direction, with one record, exactly if it is accepted; the server header is judged by the key that the client has offered |
| Observer.ConnectionObserver.Feed | runtime/native/proxy_observer.py:158-182 | one call computes the observer function and returns exactly the records it added |
| ObserverTheorems.ObserveSplit | runtime/native/proxy_observer.py:158-182 | two calls whose octets fit the buffer limit together are one call: same state, table, records and gap |
| ObserverTheorems.PiecesToBlock | runtime/native/proxy_observer.py:158-182 | any pieces of a block within the buffer limit are the block |
| ObserverTheorems.ParseFramesPush | runtime/native/proxy_observer.py:352-454 | octets may arrive before or after the frame loop has run over the earlier ones |
| ObserverTheorems.EventsGrow | runtime/native/proxy_observer.py:215-259 | records and the message history are only appended to |
| ObserverOrigin.ObserveOwn | runtime/native/proxy_observer.py:158-182 | a call of one direction adds records of that direction only, an upgrade only where its parser then has it |
| ObserverOrigin.UpgradesBeforeIff | runtime/native/proxy_observer.py:281-346 | both upgrades are on record before a client record exactly if the parser of the server had its upgrade when the call that brings it was made |
| DecoderAgreement.HeadsAgree | runtime/native/proxy_observer.py:352-402 | a frame cut by the gate is cut by the observer at the same place with the same fields and payload |
| DecoderAgreement.GateAndObserverAgree | runtime/native/activation_service.py:248-252 | one call: the observer fed with the output becomes what the completed messages in order make of it, and stands at a message boundary |
| RelayAgreement.RelayedAgrees | runtime/native/activation_service.py:278-287 | one call of either direction, whether or not the observer accepts the header or the block, keeps the agreement below |
| RelayAgreement.RunAgrees | runtime/native/activation_service.py:278-287 | over every interleaving of calls of both directions: the RPC layer has been handed the messages both gates completed, in order, or the first ones up to the first gap; while the connection is valid it has all and both directions stand at a boundary |
| RelayAgreement.FreshAgrees | runtime/native/activation_service.py:248-252 | a new connection has that agreement |
| DecoderAgreement.DrainAgrees | runtime/native/owner_helper.py:591-605 | the frames a drained buffer releases are, to the observer, the messages completed in it |
| DecoderAgreement.RunTextsHistory | runtime/native/proxy_observer.py:456-471 | the messages handed to the RPC layer are all of them, or the first ones up to the one that raised a gap |
| DecoderAgreement.EncodedFrameDecodes | runtime/native/owner_helper.py:396-407 | every payload up to 65535 octets is encoded, longer ones are refused; whatever follows, gate and observer cut exactly that frame and recover the payload, which `FrameLayout.FrameIff` reads off the raw octets independently |
| HelperReader.ReadServerText | runtime/native/owner_helper.py:443-457 | the reading loop computes the text function of the stream, with what it leaves unread |
| HelperReader.ReadTextIff | runtime/native/owner_helper.py:443-457 | the reader takes a text exactly if the stream begins with the frames of that message, and leaves what is behind them |
| HelperReader.FramesAgree | runtime/native/owner_helper.py:410-440 | the stream reader takes a frame exactly where the server-side gate cuts one, and the same one |
| HelperReader.ReleasedIsRead | runtime/native/owner_helper.py:443-457 | what the server-side gate releases is read back as exactly the messages it completed |
| IdConservation.PairConserves | runtime/native/activation_service.py:584-586 | in every accepted interleaving of the two directions the shared table is the open requests, no id is reused while open, and every response answers one earlier request |
| IdConservation.FeedBalanced | runtime/native/owner_helper.py:541-557 | one gated call keeps that balance |
| IdConservation.ObserveTabled | runtime/native/proxy_observer.py:534-541 | every call keeps the observer table: exactly the unanswered requests with their methods, at most 256, none reused; empty once invalid |
| IdConservation.RunTabled | runtime/native/proxy_observer.py:158-182 | so does every run of calls of both directions from a new connection |
| IdConservation.ResponseNamesItsRequest | runtime/native/proxy_observer.py:658-673 | a response is recorded with the method of the one open request it answers, or as unknown exactly if there is none |
| ObserverEvidence.ObserveEvident | runtime/native/proxy_observer.py:224-259 | nothing is recorded of a direction before its upgrade, and no response before the request it names |
| RetainedTheorems.ActSound | tools/g0-return-lab/retained.go:435-511 | every start, resume, step, state write, stop or death keeps the invariant and only moves the disk forward |
| RetainedTheorems.LinkSound | tools/g0-return-lab/retained.go:491-494 | linking a step keeps a prefix, and its name is always free |
| RetainedTheorems.ResumeSound | tools/g0-return-lab/retained.go:597-641 | a resumed worker starts from the snapshot, in a new segment, or rewrites a lagging completed state |
| RetainedTheorems.RunInvariant | tools/g0-return-lab/retained.go:435-511 | on every run: steps 1 to k, cache behind by at most one, segments non-decreasing and at most the cached one, no step published twice, state accepted |
| RetainedTheorems.RunFollows | tools/g0-return-lab/retained.go:417-430 | steps are never altered and the cached state never returns to an earlier value |
| RetainedTheorems.NoReturn | tools/g0-return-lab/retained.go:334-364 | a state seen twice was there all the time between |
| RetainedLife.StepGoesOn | tools/g0-return-lab/retained.go:474-509 | a waiting worker publishes the next step of its own segment and then the state that counts it, completed exactly with the last |
| RetainedLife.RunsToEnd | tools/g0-return-lab/retained.go:435-511 | undisturbed it publishes all steps and leaves a completed state |
| RetainedLife.StopLeaves | tools/g0-return-lab/retained.go:447-467 | stopped between steps it leaves exactly what it has counted, as interrupted, or as completed if all is |
| RetainedLife.ResumeBegins | tools/g0-return-lab/retained.go:597-641 | a resume rewrites a lagging completed state, or runs on from the snapshot in the next segment, up to 1,000,000 of them |
| RetainedLife.StoppedResumes | tools/g0-return-lab/retained.go:597-641 | stopped and resumed it goes on behind the last step it published, which is all still there |
| RetainedInspector.InspectIff | tools/g0-return-lab/retained.go:320-375 | of any disk that does not change, reachable or not: damage is reported exactly if state or steps are not intact, and otherwise the answer is the state with exactly the steps there |
| RetainedInspector.ReadOnce | tools/g0-return-lab/retained.go:320-375 | one attempt: a failed one was disturbed, an answer is a snapshot of one instant |
| RetainedInspector.ReadState | tools/g0-return-lab/retained.go:318-378 | never an invalid artifact; an answer is what one instant between the first and the last read the call did showed, its count the steps published then; giving up means it was disturbed; on a disk that does not change, any disk, it is the inspection of it |
| RetainedInspector.ReadUnderLock | tools/g0-return-lab/retained.go:602-605 | with the lock held the read is the inspection of the disk, whatever is on it, and exactly the snapshot on a reachable one |
| RetainedInspector.RunHistory | tools/g0-return-lab/retained.go:435-511 | every run of the protocol is a history the inspector may read |
| FileStore.Directory.ClearStage | tools/g0-return-lab/ack.go:187-219 | stage recovery removes a stage left at any point, keeps every published record and never refuses |
| FileStore.Directory.WriteNew | tools/g0-return-lab/main.go:305-315 | creating and writing a stage changes no published record |
| FileStore.Directory.Publish | tools/g0-return-lab/main.go:317-339 | wherever the process dies the published records are the old ones, or the old ones and the new one; an existing target is kept |
| FileStore.Directory.Replace | tools/g0-return-lab/batch.go:173-186 | a rename is all or nothing for the published records |
| FileStore.StageLinks | tools/g0-return-lab/ack.go:204-217 | a stage has one link, or two of which the other is its own target |
| FileStore.LinkedSound | tools/g0-return-lab/main.go:331-333 | linking a private stage publishes exactly its record |
| BatchStore.LoadAcks | tools/g0-return-lab/batch.go:133-147 | the acknowledgements in event order and how many are missing, or the first unreadable one |
| BatchStore.StatusCommand | tools/g0-return-lab/batch.go:195-237 | the reply is the decision on the published records, which stay as they are |
| BatchStore.PrepareCommand | tools/g0-return-lab/batch.go:247-267 | wherever it dies all or nothing of the decision; a second preparation only clears its stage |
| BatchStore.ClaimCommand | tools/g0-return-lab/batch.go:275-298 | wherever it dies all or nothing of the decision on the claim |
| BatchStore.AckCommand | tools/g0-return-lab/batch.go:307-336 | wherever it dies all or nothing of the decision; a repeated acknowledgement returns the stored one or a conflict |
| BatchAnswers.AckAnswers | tools/g0-return-lab/batch.go:307-336 | on good records: `event_mismatch` exactly if no event has the id, revision, hash and slot of the command; otherwise the stored acknowledgement, a conflict with it, or a new one of that event with the command id and decision |
| BatchAnswers.AcknowledgedNamed | tools/g0-return-lab/batch.go:314-316 | whoever gets an acknowledgement named that event of the published intent, at its revision, with this decision |
| BatchStore.RunAcknowledges | tools/g0-return-lab/batch.go:314-336 | so in every run of dying processes, on the records each process found |
| BatchAnswers.PrepareAnswers | tools/g0-return-lab/batch.go:247-267 | a preparation publishes exactly the delivery and events of its command at the current revision, once |
| BatchAnswers.ClaimAnswers | tools/g0-return-lab/batch.go:275-298 | a claim is granted exactly to a prepared, unclaimed batch with an event not yet acknowledged |
| BatchAnswers.UncertainAnswers | tools/g0-return-lab/batch.go:299-306 | marking the batch uncertain changes nothing else of the intent |
| BatchAnswers.ReviseAnswers | tools/g0-return-lab/ack.go:261-284 | the revision goes up by one, up to 1,000,000, and the task is cancelled exactly if the command says so |
| BatchAnswers.WorkAnswers | tools/g0-return-lab/main.go:452-464 | a worker publishes its job exactly if it is the first, of this task and of the thread that started it; the job names that thread at revision 1 |
| BatchAnswers.RefusedToOthers | tools/g0-return-lab/batch.go:238-246 | any other command than status from a wrong controller, on a cancelled task or a stale revision commits nothing and is refused with the first reason that applies |
| BatchAnswers.StatusAnswers | tools/g0-return-lab/batch.go:195-236 | a report has exactly the stored acknowledgements in event order and the number of those missing, and each of its three status words says of the records what it should, both ways |
| BatchStore.ReviseCommand | tools/g0-return-lab/ack.go:242-284 | the job record is checked first; wherever it dies all or nothing of the next control record |
| BatchStore.RunCommand | tools/g0-return-lab/batch.go:188-339 | a command that lives does all of its decision, one that dies all or nothing of it |
| BatchStore.WorkerCommand | tools/g0-return-lab/main.go:443-464 | wherever the worker dies all or nothing of its job record; it is refused if the control record is not the one of the start or a job is published |
| BatchStore.RunAll | tools/g0-return-lab/batch.go:188-339 | processes one after another, commands and workers, each dying anywhere: each has the exact reply of its decision on the records it found, or died with all or nothing of it; the records it found are good, stay good and evolve |
| BatchTheorems.ErrandSafe | tools/g0-return-lab/batch.go:188-339 | whether or not its commit is reached, a command or worker keeps the records good and they evolve |
| BatchTheorems.HistorySafe | tools/g0-return-lab/batch.go:188-339 | over any history of commands and workers: one job, intent, claim and acknowledgement per event, decisions fixed, intents only become uncertain, all frozen once cancelled or revised past the intent |
| BatchTheorems.CommitLawful | tools/g0-return-lab/batch.go:238-336 | what a command may commit, and under which control record |
| BatchTheorems.UncertainLawful | tools/g0-return-lab/batch.go:299-306 | marking the intent uncertain keeps its hash valid |
| BatchTheorems.StatusCounts | tools/g0-return-lab/batch.go:195-237 | a report counts every published acknowledgement once and its effects are the handled ones |
| BatchTheorems.ReadAcksGood | tools/g0-return-lab/batch.go:133-147 | reading finds every published acknowledgement exactly once and adds up the handled decisions |
| BatchTheorems.NoDamage | tools/g0-return-lab/batch.go:90-147 | on reachable records no command reports a damaged artifact |
| BatchTheorems.SendAllowedIffClaimable | tools/g0-return-lab/batch.go:234-298 | sending is reported allowed exactly when a claim at the current revision would be granted |
| BatchTheorems.StartGood | tools/g0-return-lab/ack.go:74-83 | the records a start leaves are good |
| BatchTheorems.JobPublished | tools/g0-return-lab/main.go:452-464 | nothing is revised or cancelled before a worker of the task has published its job: its check of the control record passes, and it is refused exactly if a job is there |
| BatchSizes.GoodFits | tools/g0-return-lab/main.go:286-291 | every record the commands write is within the 4096 octets that a later read takes |
| DeliveryLedger.ProjectEvents | plugins/codex-orchestrator/lib/native_bridge/bridge.py:381-403 | the projection loop computes the projection function with its errors in order |
| DeliveryTheorems.ProjectRowsGood | plugins/codex-orchestrator/lib/native_bridge/bridge.py:381-403 | projected events have safe aliases, all different, each mapped to its source; a question stays a question and nothing else becomes one |
| DeliveryAnswers.ProjectIff | plugins/codex-orchestrator/lib/native_bridge/bridge.py:381-403 | a list of events is projected exactly if each is acceptable and their aliases are apart, and then every field of each is mirrored, in order |
| DeliveryAnswers.PrepareDelivers | plugins/codex-orchestrator/lib/native_bridge/bridge.py:471-519 | a new batch is pending, its envelope holds exactly the events it was prepared for, questions as questions, and its source records keep the originals |
| DeliveryAnswers.PrepareIff | plugins/codex-orchestrator/lib/native_bridge/bridge.py:471-519 | while every batch can be read: the batch made before, a slot busy or uncertain, a dead stage, or a new batch, exactly in these cases |
| DeliveryAnswers.LoadIff | plugins/codex-orchestrator/lib/native_bridge/bridge.py:549-574 | any directory, reachable or not, is read exactly if it is within the limit and no artifact contradicts another |
| DeliveryAnswers.EffectiveIff | plugins/codex-orchestrator/lib/native_bridge/bridge.py:576-609 | a transition takes effect exactly if its arguments are well given and it is one of the nine steps of the status machine |
| DeliveryAnswers.StatusTold | plugins/codex-orchestrator/lib/native_bridge/bridge.py:576-609 | after any operations the status is where the last effective one has led, and each field what the last one that states it has stated |
| DeliveryLedger.DurableLedger.Prepare | plugins/codex-orchestrator/lib/native_bridge/bridge.py:471-519 | preparing computes the ledger function on the directory as it happens to be listed |
| DeliveryLedger.DurableLedger.Transition | plugins/codex-orchestrator/lib/native_bridge/bridge.py:576-584 | every locked status transition computes the ledger function |
| DeliveryLedger.DurableLedger.Confirm | plugins/codex-orchestrator/lib/native_bridge/bridge.py:598-605 | a confirmation with its two locked sections and any operations of others between them computes the ledger function |
| DeliveryTheorems.LoadGood | plugins/codex-orchestrator/lib/native_bridge/bridge.py:549-574 | a batch of a reachable ledger reads back, as what was prepared with its present status, exactly if its files are within 128 KiB |
| DeliverySizes.PreparedReadable | plugins/codex-orchestrator/lib/native_bridge/bridge.py:336-343 | they are whenever its numbers have at most 4300 digits and the attachment record fits |
| DeliveryTheorems.ScanOrderFree | plugins/codex-orchestrator/lib/native_bridge/bridge.py:483-487 | while every batch can be read, whether and why a preparation is refused does not depend on the order of the listing |
| DeliveryTheorems.ApplySound | plugins/codex-orchestrator/lib/native_bridge/bridge.py:471-609 | every operation keeps one blocking batch per thread and good batches, and only moves them forward |
| DeliveryTheorems.RunSafe | plugins/codex-orchestrator/lib/native_bridge/bridge.py:471-609 | every ledger of every run is sound and evolves from the first |
| DeliveryTheorems.RunEvolves | plugins/codex-orchestrator/lib/native_bridge/bridge.py:576-609 | later ledgers keep every artifact and all that a status has recorded, except a turn that a confirmation states; a status only moves up its rank |
| DeliveryTheorems.ConfirmKeepsTurnIff | plugins/codex-orchestrator/lib/native_bridge/bridge.py:598-605 | a confirmation keeps whatever turn was recorded exactly if the last turn stated between its two sections, by an acceptance or a confirmation that takes effect, is its own or there is none |
| DeliveryTheorems.ApplyAllTurn | plugins/codex-orchestrator/lib/native_bridge/bridge.py:576-605 | after any operations the turn of a batch is the last one that an effective one of them stated, or the one before |
| DeliveryTheorems.ConfirmAloneKeepsTurn | plugins/codex-orchestrator/lib/native_bridge/bridge.py:598-605 | with nothing between its sections a recorded turn is kept |
| DeliveryTheorems.ConfirmMayReplaceTurn | plugins/codex-orchestrator/lib/native_bridge/bridge.py:598-605 | an acceptance between the two sections has its turn replaced |
| DeliveryTheorems.SendingOnce | plugins/codex-orchestrator/lib/native_bridge/bridge.py:586-587 | a delivery enters sending at most once |
| DeliveryTheorems.PrepareIdempotent | plugins/codex-orchestrator/lib/native_bridge/bridge.py:477-482 | preparing the same events again at any later time changes nothing and returns the same batch exactly if it can be read |
| DeliveryTheorems.DeadStageRecovers | plugins/codex-orchestrator/lib/native_bridge/bridge.py:488-518 | a preparation that dies costs one refused attempt; the next prepares the batch, and returns it exactly if it can be read |
| DeliveryAdapter.AttachIff | runtime/native/delivery_adapter.py:300-319 | a batch of the ledger is attached exactly if it is sending, its event revisions are at most 1,000,000 and its files within 4096 octets, as they are for epochs up to 1,000,000; and then on the ledger envelope |
| DeliveryAdapter.ReconcileIff | runtime/native/delivery_adapter.py:321-334 | and it is reconciled exactly if it is sending, accepted or uncertain under the same conditions |
| DeliveryChecks.AttachAnyIff | runtime/native/delivery_adapter.py:300-319 | any directory, tampered with or not, is attached exactly if files, intent, claim and status are those of the binding and sending; and then its intent is what is sent |
| DeliveryChecks.ReconcileAnyIff | runtime/native/delivery_adapter.py:321-334 | the same for inspection, without the claim, in the three sent statuses |
| DeliveryChecks.IntentReadersAgree | runtime/native/delivery_adapter.py:183-193 | the adapter and the batch commands accept the same intents |
| DeliveryChecks.EnvelopeCheckersAgree | runtime/native/delivery_audit.py:49-66 | the helper accepts exactly the envelopes of its own thread that the auditor accepts, within its output limit |
| DeliveryChecks.AuditAcceptsIff | runtime/native/delivery_audit.py:49-66 | any envelope is accepted exactly if version, names, epoch and events are valid and apart and its hash is its own |
| DeliveryAdapter.EnvelopeAcceptedIff | runtime/native/delivery_audit.py:49-66 | both envelope checkers accept the ledger envelope exactly if event revisions and epoch are at most 1,000,000 and the thread id is a safe name |
| DeliveryAdapter.DeliverableFits | runtime/native/delivery_adapter.py:112-133 | the intent, claim and status files of a batch with such revisions and epoch are within 4096 octets |
| DeliveryAdapter.PreparedButUndeliverable | plugins/codex-orchestrator/lib/native_bridge/bridge.py:390-391 | an event revision of 1,000,001 on the empty ledger: the batch is prepared, and in every status the adapter and both envelope checkers refuse it |
| DeliveryAdapter.LongThreadUndeliverable | runtime/native/delivery_audit.py:49-66 | a thread id of 65 to 128 characters: the batch is prepared and, once sending, attached, and both envelope checkers refuse its envelope |
| HistoryAudit.Auditor.ScanEntry | runtime/native/delivery_audit.py:80-103 | exactly the scan function of one item, failure included |
| AuditRules.ScanIff | runtime/native/delivery_audit.py:80-103 | a scan succeeds exactly on items that are each good, agree where they are captures of one item, and carry the delivery under at most 32 keys; it has then gathered exactly their identities, envelopes and carriers |
| HistoryAudit.Auditor.ScanTurns | runtime/native/delivery_audit.py:105-115 | turns in order; a turn not shown in full makes the capture incomplete |
| HistoryAudit.FoldAcks | runtime/native/delivery_audit.py:169-183 | acknowledgements fold exactly if each is valid and no event has two decisions |
| AuditRules.PublishedAckTaken | runtime/native/delivery_audit.py:169-183 | every acknowledgement the batch commands publish is one the audit of that envelope takes |
| HistoryAudit.AuditRead | runtime/native/delivery_audit.py:117-164 | valid and scanned exactly if the read is; complete stays so exactly if the chain is unbroken there |
| HistoryAudit.RunAudit | runtime/native/delivery_audit.py:69-194 | the audit succeeds on exactly the acceptable captures; complete means one whole thread or one unbroken page chain; the count is the number of different keys that carry the delivery |
| HistoryAudit.Completeness | runtime/native/delivery_audit.py:117-166 | checking read by read is checking the whole chain |
| HistoryAudit.ScanMatches | runtime/native/delivery_audit.py:80-103 | matches are exactly the keys that carry the delivery id, and all of them carry the intent |
| HistoryAudit.CompleteReportCertifies | runtime/native/delivery_audit.py:69-194 | a complete report speaks of every item on every page |
| AcpRequests.ReceiptFits | tools/orchestrator/internal/contract/acp_bridge.go:72-149 | a receive request that decodes is stored in at most 64 KiB |
| AcpRequests.ReservationFits | tools/orchestrator/internal/contract/acp_bridge.go:72-149 | so is the reservation of a begin request that decodes |
| AcpQuota.Admit | tools/orchestrator/cmd/orchestrator/controller_acp_quota.go:64-117 | the admission loop admits exactly when the whole directory is within its limits, whatever the order and although at most 1026 names are listed |
| AcpQuota.TotalAdds | tools/orchestrator/cmd/orchestrator/controller_acp_quota.go:88-115 | the charge of a directory does not depend on the order of its entries |
| AcpQuota.EverythingListed | tools/orchestrator/cmd/orchestrator/controller_acp_quota.go:74-87 | a listing that counts fewer than 1024 entries was the whole directory |
| AcpQuota.AdmitsReservedIff | tools/orchestrator/cmd/orchestrator/controller_acp_quota.go:64-117 | in any directory, over quota or not, a held reservation admits a size exactly if the directory has at most 1024 entries and the size fits in place of the 64 KiB reserved |
| AcpQuota.CompletionStore.Reserve | tools/orchestrator/cmd/orchestrator/controller_acp_reservation.go:136-158 | for every directory and listing order a begin request is refused if it does not decode, else its reservation is added exactly if it was absent and admitted at 64 KiB, else nothing changes |
| AcpQuota.CompletionStore.Persist | tools/orchestrator/cmd/orchestrator/controller_acp_record.go:109-191 | for every directory: undecodable request, new receipt, replay, conflict and refusal, with the reservation released exactly on completion |
| AcpAnswers.ReserveIff | tools/orchestrator/cmd/orchestrator/controller_acp_reservation.go:136-158 | on reachable directories each of the four answers is an equivalence: undecodable, reserved before, 64 KiB free, no capacity; only the third changes anything, by its own reservation |
| AcpAnswers.PersistIff | tools/orchestrator/cmd/orchestrator/controller_acp_record.go:109-191 | on reachable directories each of the four answers is an equivalence; a completed one leaves the receipt there, the reservation gone and all else as it was |
| AcpAnswers.ReserveAnyIff | tools/orchestrator/cmd/orchestrator/controller_acp_reservation.go:136-158 | on any directory, with torn or foreign files: reserved before exactly if an intact reservation of the prompt has the name, reserved exactly if the name is free and admitted |
| AcpAnswers.PersistAnyIff | tools/orchestrator/cmd/orchestrator/controller_acp_record.go:109-191 | on any directory: a conflict or a replay only of an intact receipt, refused where the reservation or the receipt of the attempt is damaged |
| AcpAnswers.ReceiptStays | tools/orchestrator/cmd/orchestrator/controller_acp_record.go:109-191 | a stored receipt stays unaltered over every run, deaths included |
| AcpAnswers.ReservedOnce | tools/orchestrator/cmd/orchestrator/controller_acp_reservation.go:136-158 | a prompt is not reserved again while its reservation is held |
| AcpQuota.ReservationGuarantees | tools/orchestrator/cmd/orchestrator/controller_acp_record.go:117-121 | within the quota a held reservation always leaves room for its receipt |
| AcpQuota.ReservedPersists | tools/orchestrator/cmd/orchestrator/controller_acp_record.go:109-191 | a reserved attempt stores its receipt without refusal |
| AcpQuota.RunKeeps | tools/orchestrator/cmd/orchestrator/controller_acp_quota.go:64-117 | any interleaving of completed operations keeps at most 1024 entries and 16 MiB |
| AcpQuota.AfterDeathAdmitsIff | tools/orchestrator/cmd/orchestrator/controller_acp_record.go:166-191 | after a death between receipt and release, and any number of them, another reserved receipt is admitted exactly if the double count still fits |
| AcpFailure.GuaranteeFails | tools/orchestrator/cmd/orchestrator/controller_acp_record.go:166-191 | a run of completed operations to 1022 receipts and 2 reservations, one death, and the other reserved receipt is refused for capacity |
| AcpFailure.AttemptsExist | tools/orchestrator/internal/contract/acp_bridge.go:72-149 | such attempts exist: small requests that decode, of different names |
| AcpQuota.TornFileAdmitsIff | tools/orchestrator/cmd/orchestrator/controller_acp_quota.go:88-115 | with a file that a death left partly written admissions go on exactly if it has a receipt name, is not empty and its charge fits |
| AcpQuota.ReplayRepairs | tools/orchestrator/cmd/orchestrator/controller_acp_record.go:124-191 | replaying the request finishes what the dead process began |
| AcpDelivery.Deliver | tools/orchestrator/cmd/orchestrator/controller_acp.go:199-303 | whatever other sessions do in between, their deaths after a receipt included: no prompt without its own reservation, ordinals 1, 2, 3, ...; once a prompt was sent its receipt is refused only if it does not decode, if its attempt had a receipt before or twice in the run, or if the quota was exceeded at the start or by such a death; a prompt of unknown outcome keeps its reservation; uncertain exactly while the last begun batch lacks its receipt; and what was done, and why it ended, is exactly what the rounds call for |
| AcpDelivery.SendBatch | tools/orchestrator/cmd/orchestrator/controller_acp.go:243-263 | one begun batch: exactly reserved, prompted, answered under its request id and its receipt stored, or ended at the first of these that fails; of this binding no other receipt is added |
| AcpDelivery.HeldPersists | tools/orchestrator/cmd/orchestrator/controller_acp_record.go:109-191 | with its reservation held a receipt that decodes is stored unless one of the attempt is there, and refused for capacity only beyond the quota |
| AcpDelivery.OthersInterfere | tools/orchestrator/cmd/orchestrator/controller_acp_record.go:109-191 | where no two of the prompts in play share a digest, operations on prompts of another binding leave the names of this one alone, and keep the quota unless one dies after its receipt |
| AcpDelivery.DistinctPossible | tools/orchestrator/cmd/orchestrator/controller_acp_record.go:109-121 | names can tell any two prompts apart |
| OwnerSink.MetadataSink.OnData | runtime/native/activation_service.py:278-293 | ready is published exactly if the records followed are ready, the observer is valid and both directions stand at a boundary; at most once, after the whole handshake of a fresh or a resumed thread as the lease says, in which every recorded success was sent; an invalid session stays invalid |
| OwnerSink.MetadataSink.FollowChunk | runtime/native/activation_service.py:278-293 | one chunk through the observer, then exactly its new records followed |
| OwnerTrace.SessionTold | runtime/native/activation_service.py:295-366 | a session is valid exactly if each record was allowed after those before it, judged by the records alone, and then it remembers what they say |
| OwnerTrace.ReadyIff | runtime/native/activation_service.py:374-379 | a session is ready exactly if its records, read as a list, are a lawful handshake with both upgrades, a started or resumed thread and no turn |
| OwnerSink.MetadataSink.FollowRecords | runtime/native/activation_service.py:295-366 | the loop over the new records is the fold of the record function |
| OwnerReadiness.InvalidForever | runtime/native/activation_service.py:295-366 | no record makes an invalid session valid again |
| OwnerReadiness.SessionSeen | runtime/native/activation_service.py:295-366 | what a valid session remembers has happened, in order, with no gap |
| OwnerReadiness.ReadyMeansHandshake | runtime/native/activation_service.py:374-379 | ready: client upgrade, initialize, its home-matching response (after the server upgrade), initialized, thread/start with the expected directory, its accepted response, the matching thread/started; no gap and no turn |
| OwnerOrder.BothUpgradesFirstIff | runtime/native/activation_service.py:303-316 | a ready session has exactly one initialize request, and both upgrades before it exactly if the server was among the upgrades seen when that record was followed |
| OwnerRun.ReadyOrderIff | runtime/native/activation_service.py:278-316 | in every run of calls that makes a session ready one client call brings the one initialize request, and both upgrades come before it exactly if the parser of the server had its upgrade when that call was made |
| OwnerRun.PipelinedRelay | runtime/native/activation_service.py:374-379 | eight calls on a new connection, the second of which brings initialize before the server upgrade, and whose records make the session ready at a boundary of both directions |
| OwnerResume.ReadyMeansResumed | runtime/native/activation_service.py:324-353 | for a resuming lease ready means the same handshake up to initialized, then thread/resume of the expected thread, its response, and thread/started or an answered skills/list |
| OwnerResume.SessionResumes | runtime/native/activation_service.py:295-366 | what a valid session of a resuming lease remembers has happened, in order |
| ProviderMcp.RequestIdInjective | tools/orchestrator/cmd/orchestrator/provider_mcp.go:217-235 | two usable request ids have one identity only if they are the same id |
| ProviderMcp.StepAccounted | tools/orchestrator/cmd/orchestrator/provider_mcp.go:90-208 | every happening keeps one outstanding call at most, one reply per line at most, and a reply for every request but the outstanding one while input is open |
| ProviderMcp.RunAccounted | tools/orchestrator/cmd/orchestrator/provider_mcp.go:90-208 | so does every interleaving |
| McpTrace.RunTraced | tools/orchestrator/cmd/orchestrator/provider_mcp.go:77-208 | over every run, by its happenings alone: exactly the acceptable tool calls with a usable id that met a ready, idle server have started an execute; every reply is the one its line and what it met call for, with its code; a call is cancelled exactly by its own notification or the end; the loop is over exactly when something ended it |
| ProviderMcp.ExactlyOneReply | tools/orchestrator/cmd/orchestrator/provider_mcp.go:90-208 | while it serves with the input open every request but the outstanding call has exactly one reply |
| ProviderMcp.ReadyAfterHandshake | tools/orchestrator/cmd/orchestrator/provider_mcp.go:131-200 | no execute starts before initialize and then notifications/initialized |
| ProviderMcp.SendNeverBlocks | tools/orchestrator/cmd/orchestrator/provider_mcp.go:77-200 | the send of a completion finds the channel empty |
| ProviderMcp.ReturnedMeansFinished | tools/orchestrator/cmd/orchestrator/provider_mcp.go:82-89 | the server has returned only once the outstanding execute has finished |
| ProviderMcp.McpServer.OnLine | tools/orchestrator/cmd/orchestrator/provider_mcp.go:122-207 | a line takes the object to exactly the next state of the loop and keeps its accounts; the state is that of the history of happenings, of which `McpTrace.RunTraced` says what started and what was answered |
| ProviderMcp.McpServer.OnCompletion | tools/orchestrator/cmd/orchestrator/provider_mcp.go:106-121 | receiving a completion ends the call, answers it if the input is open, and keeps the accounts |
| ProviderMcp.McpServer.OnInputEnd | tools/orchestrator/cmd/orchestrator/provider_mcp.go:97-105 | the end of the input cancels the call, ends the loop on an error or if nothing is outstanding, and keeps the accounts |
| ProviderMcp.McpServer.FinishActive | tools/orchestrator/cmd/orchestrator/provider_mcp.go:82-89 | after the deferred wait the server has returned and nothing runs |

## Left out

- Sockets, processes, signals, timeouts, launch and identity checks; time is a counter where timestamps are compared.
- JSON and UTF-8 decoding, SHA-256, base64, HTTP header fields and the tables of RPC policies: functions of the text or octets.
- File owner, mode, type and symlink checks, the races inside one read, power loss; each file read is one step.
- Text of rejections: the reasons the auth gate collapses, rejection callbacks and their metadata; after a rejection a gate is not used again.
- Observer: one connection; opening, closing and reopening connections, state labels and draining the event queue.
- Observer: the extra initialize record is taken as part of the response record, so it uses no slot of the event queue of its own.
- Retained task: output, deadline and parent checks are the action that stops a worker; stage files and the check of directory names are in no state, publication and state writes are single steps there.
- Single-event `ack` and `inspect` commands, and the result record.
- BatchStore.WorkerCommand: the worker takes no lock; here its system calls come between two commands, not in the middle of one.
- AcpDelivery.Deliver: other sessions die between receipt and release only; `TornFileAdmitsIff` has what a partly written file does.
- Input and output errors of a directory other than the process's death.
- A status file left by a dead transition of the same process id.
- The control-plane client, owner capability files, `ack_confirmed` and sending of the adapter.
- ACP controller: launch, binding and metadata before the delivery loop, and the one repetition of the receive call.
- MCP server: when a cancelled call ends, and the contents of results.
- Delivery ledger: Python refuses to write or read a number of more than 4300 digits; here only the size of the file counts.
- The compaction flag and the presentation fields of the audit report.
