# Kigo: a verified model

Kigo moves files between two peers over unreliable paths and keeps a replicated notepad. This project models the
parts of it whose correctness depends on state, interleaving or arithmetic, and proves what they are for. Every
`.dfy` file is one component; `dafny verify dfyconfig.toml` checks them together.

| file | component |
|---|---|
| `Scheduler.dfy`, `Fairness.dfy` | the weighted deficit round-robin scheduler, and its fairness and starvation bounds over whole runs |
| `Resume.dfy`, `Sending.dfy`, `Receiving.dfy`, `Completion.dfy`, `WriteQueue.dfy` | the resumable transfer: negotiation, the send loop, the receive loop and how it gets to the end, the write queue in front of persistent storage |
| `RouteRace.dfy` | the commit, acknowledge and confirm protocol that picks one of two routes |
| `Reordering.dfy`, `Transport.dfy` | the transport that merges several channels into one stream |
| `Conversation.dfy` | the sender and the receiver as conversations that pass a sequence counter along and may be cut off anywhere |
| `Framing.dfy`, `SecureChannel.dfy`, `Outgoing.dfy` | binary envelopes and chunks, nonces and sequence numbers |
| `StreamPlan.dfy` | the binding of streams to items, and the tracker of opened and ended streams |
| `Document.dfy`, `Replicas.dfy` | notepad documents, their order, workspaces and their convergence |
| `NoteSession.dfy`, `NoteController.dfy` | the persistent notepad session and the controller of the local web page |
| `DirectBundle.dfy` | the handshake of a bundle of direct connections |
| `Sha256.dfy`, `Sha256Standard.dfy`, `Sha256Example.dfy`, `Tables.dfy` | incremental SHA-256, what it is made of, and the standard's worked example |
| `Crc32.dfy`, `Crc32Example.dfy`, `Zip.dfy` | table-driven CRC-32 with its check value, and the ZIP writer with a reader for it |
| `Bytes.dfy`, `Wrappers.dfy` | bytes and fixed-width integers, optional values and results |

How the model is built:

- An object that the program updates in place is a class whose methods are proved to compute a function on values;
  the properties of whole runs are proved of that function.
- JavaScript between two awaits, and Go between two locks or channel operations, is one step. Steps of different
  parties interleave freely. Timers, the network, storage failures and foreign servers are events that may happen
  at any moment or never.
- Hashes in the resume negotiation are any function that tells apart the prefixes it is used to compare
  (`Resume.NoCollision`). Encryption keeps the body as it is: only sequence numbers and nonces matter here.
- Go's `uint64` and `int64` wrap around in `Document.dfy`, because there it matters: a received document at the
  highest revision makes the next local edit fall to revision zero. The properties it breaks are stated with the
  exact condition (`Replicas.HoldsMaxExactly`, `NoteSession.WorkspaceNeverFalls`, `NoteController.RunIsConsistent`,
  `NoteController.VisibleIsMonotone`).

Three things the proofs turned up:

- A local notepad edit at revision 2^64 - 1, which any peer can bring about with a valid document, is below
  everything held before and invalid for every receiver (`Replicas.WrappedEditIsLost`). Shown on its connection it
  leaves the controller unsynced without a pending revision, so that no acknowledgement can settle it
  (`NoteController.WrappedEditBreaks`); this is the only way to break the controller
  (`NoteController.RunIsConsistent`).
- Route agreement is one-sided: the sender finishes when it sends its confirmation, and stands alone if that is lost
  (`RouteRace.SenderFinishesFirst`). The other direction, that a receiver never finishes alone, is
  `RouteRace.RouteAgreement`; when a finished sender is not alone is `RouteRace.FinishedTogether`.
- The ZIP writer refuses nothing. An archive reads back if and only if there are fewer than 65536 entries, every name
  is shorter than 65536 bytes, and the bodies and the central directory each stay below 4 GiB
  (`Zip.ReadableExactly`).

## Model

| member | source | states |
|---|---|---|
| `Scheduler.WeightedScheduler.New` | internal/mux/scheduler.go:33-58 | accepts exactly a positive quantum with distinct non-negative ids and positive weights; the new scheduler satisfies the invariant |
| `Scheduler.WeightedScheduler.Next` | internal/mux/scheduler.go:60-87 | finds the next active stream round the ring, refills its credit, offers the smaller of credit and maximum, and terminates; keeps the invariant |
| `Scheduler.WeightedScheduler.Commit` | internal/mux/scheduler.go:89-116 | settles a turn or refuses it without any change; keeps the invariant |
| `Scheduler.WeightedScheduler.Advance` | internal/mux/scheduler.go:118-123 | the cursor moves one place round the ring |
| `Scheduler.Skip` | internal/mux/scheduler.go:73-78 | the distance to the first active stream: that one is active and all before it are not |
| `Scheduler.NextKeepsValid` | internal/mux/scheduler.go:60-87 | 0 <= credit <= quantum times weight and an exact active counter survive every call; no turn is given only when no stream is active, and a given turn is positive and within the maximum |
| `Scheduler.CommitKeepsValid` | internal/mux/scheduler.go:89-116 | the same for commits; a refused commit changes nothing |
| `Scheduler.FreshIsValid` | internal/mux/scheduler.go:33-58 | an acceptable request gives a scheduler that satisfies the invariant |
| `Fairness.PlayFacts` | internal/mux/scheduler.go:60-116 | what a whole turn does to every stream's credit, service and refills |
| `Fairness.LedgerBalances` | internal/mux/scheduler.go:60-116 | for any legal use, short reads included: bytes served plus credit left equal quantum times weight times refills, for every active stream at every moment |
| `Fairness.WeightedFairness` | internal/mux/scheduler.go:60-116 | if turns use their budget unless the stream is done, two active streams have at any moment been served, per unit of weight, amounts at most one quantum apart, whatever maximum turn sizes were used |
| `Fairness.RoundsAreFair` | internal/mux/scheduler.go:79-85 | the same for any two streams in one round |
| `Fairness.StarvationBound` | internal/mux/scheduler.go:107-123 | from the cursor leaving an active stream to its next turn every other stream is served at most quantum times its weight |
| `Fairness.VisitedOnce` | internal/mux/scheduler.go:107-123 | during such a wait the turns go once round the ring and never come back to a stream they have left |
| `Fairness.BoundedWaiting` | internal/mux/scheduler.go:60-123 | such a wait lasts at most as many turns as the other streams have credit bytes, plus one for each other active stream |
| `Resume.StreamsFollowPlan` | web/app.js:655-659 | the stream ids of resume entries are those of the manifest's plan |
| `Resume.EntryIsValidExactly` | web/app.js:2326-2364 | which resume entries are valid, and what is used of their offset |
| `Resume.AnswersExactly` | web/app.js:797-827 | a valid offer is answered with its offset exactly if it has no digest or the file begins with the bytes its digest was made of, otherwise with zero; a skip is answered as it is |
| `Resume.AnswerOne` | web/app.js:797-827 | one offer is refused exactly if it is invalid, the format of its digests included; otherwise it is answered with the offset its prefix digest warrants and the digest of the whole file |
| `Resume.NegotiateSender` | web/app.js:796-828 | the sender refuses exactly if some offer is invalid; otherwise it answers each offer and remembers the offset it answered with |
| `Resume.IndexAnswers` | web/app.js:869-879 | answers are accepted exactly if each is valid, is no skip, has a digest where digests are deferred and none that conflicts with the manifest's, no file is answered twice, and as many are answered as were offered |
| `Resume.ApplyAnswers` | web/app.js:1104-1115 | succeeds exactly if the answers fit; then every resumable store is cut to its answer and the others are untouched |
| `Resume.HonestAnswer` | web/app.js:797-827 | to an honest offer the sender answers with the end of the partial if the partial is a beginning of the file, and with zero otherwise |
| `Resume.HonestAnswersFit` | web/app.js:866-880 | honest answers pass every check of the receiver |
| `Resume.TakeAnswers` | web/app.js:869-880 | the receiver accepts honest answers, and both sides then agree on every file |
| `Resume.Negotiate` | web/app.js:789-880 | from any partials, torn, stale or too long, the negotiation succeeds, both sides start every file at the same offset, and below it the receiver has exactly the sender's bytes |
| `Sending.OpenStreams` | web/app.js:688-711 | every stream is opened once, complete files are ended at once, and nothing has moved; where sending fails an honest beginning was sent |
| `Sending.UseTurn` | web/app.js:725-754 | a turn sends the next bytes of its file, ends the stream if they are the last, and is committed |
| `Sending.SendRound` | web/app.js:720-755 | each pass sends something and gets nearer to the end, or the loop stops with every file complete |
| `Sending.SendFiles` | web/app.js:688-755 | terminates; unless sending fails, the chunks of every file partition exactly its bytes from the resume offset to the end, in order; unfinished files share the link by weight after every frame; every frame gets the next sequence number; where sending fails, what was sent is an honest and fair beginning and no number was spent twice |
| `Sending.TurnMatches` | web/app.js:720-754 | the scheduler never refuses a commit of the send loop, and every turn is full or final, as fairness demands |
| `Sending.LoopIsFair` | web/app.js:712-755 | the scheduler's fairness carries over to bytes of files |
| `Sending.SmallFilesHaveMore` | web/app.js:2015-2019 | the less is left of a file the larger its share: four up to a mebibyte, one above sixteen |
| `Receiving.ChunkIsAccepted` | web/app.js:2274-2285 | an honest chunk passes the bounds check; only a store that has failed refuses it |
| `Receiving.RunInOrder` | web/app.js:900-935 | in every interleaving of arriving frames and storage steps every store has accepted exactly the source bytes sent so far |
| `Receiving.ResumedTransferIsCorrect` | web/app.js:833-935 | from any partials and in every interleaving a frame is refused only after a storage failure, and when everything has arrived and drained the stored file equals the source |
| `Completion.ReceivesNext` | web/app.js:848-850 | the receive loop takes the next frame exactly unless a frame was refused, it waits for a queue, or none is left |
| `Completion.ReceivingGoesOn` | web/app.js:900-935 | with every flush loop at rest nobody waits, and the next frame is taken without harm |
| `Completion.StorageGoesOn` | web/app.js:1314-1346 | a flush loop that runs can go on, and has less before it then |
| `Completion.TransferCanComplete` | web/app.js:833-935 | from every reached moment of an attempt that sent everything, without a refusal or a storage failure, there is a finite way to go on after which all frames are received, every queue is drained and every stored file, with its last checkpoint, equals the source |
| `Receiving.ProgressIsKept` | web/app.js:1240-1285 | an attempt cut off at any moment, in the middle of a write included, leaves a beginning of the source that holds everything committed; the next attempt resumes at its end, not before where this one began |
| `Receiving.CutsLeaveBehind` | web/app.js:1327-1334 | the file between two writes is such a beginning, and so is one in which a worker's write was done in part |
| `Receiving.TrackerAgrees` | web/app.js:2302-2324 | the receiver's tracker lets exactly those frames through that the plan's tracker allows |
| `Receiving.ResumeNeverGoesBack` | web/app.js:1089-1117 | over any number of cut-off attempts the resume offset of a file never decreases |
| `Conversation.AnswerOffers` | web/app.js:789-831 | the counter is passed in by value, counted on as a copy and handed back; numbers stay in step, the answers are those of the negotiation, and nothing is handed back if anything fails |
| `Conversation.CompareDigests` | web/app.js:757-775 | the transfer is reported as changed exactly if a file that was sent whole has another digest than the manifest gave |
| `Conversation.SendAll` | web/app.js:688-776 | succeeds exactly if sending does not fail and no file has changed; the files, the comparison and the closing notice, with the counter in step |
| `Conversation.SendTransfer` | web/app.js:610-776 | succeeds exactly if sending does not fail, the offers arrive and are valid and no file has changed; then everything was sent and message k went under number k; on every path no number is given to encryption twice and an honest, fair beginning of the files was sent |
| `Conversation.TryReceive` | web/app.js:847-1046 | the receiver's messages up to where it is done or something throws, exactly, and the counter it leaves |
| `Conversation.ReceiveTransfer` | web/app.js:833-1066 | on every path no number is spent twice, also not by the error after a completion notice whose sending failed; unless sending fails the messages are exactly the offers, and the completion notice or, if something threw before it, the error |
| `Conversation.Begin` | web/app.js:610-880 | negotiation and sending together bring about an attempt to which the results on receiving apply, and it is complete exactly if sending does not fail |
| `WriteQueue.FileState.constructor` | web/app.js:1240-1285 | a partial is cut to the item's size, or emptied if the item cannot be resumed |
| `WriteQueue.FileState.WriteChunk` | web/app.js:1442-1457 | a chunk is queued exactly if it is the next one, fits the size and no write has failed; a full queue makes the receiver wait |
| `WriteQueue.FileState.LoopHead` | web/app.js:1319-1323 | the flush loop stops, opens a stream or takes the next entry |
| `WriteQueue.FileState.WriteDone` | web/app.js:1327-1334 | a completed write advances the persisted offset, and a checkpoint follows when due |
| `WriteQueue.FileState.CheckpointDone` | web/app.js:1287-1301 | a completed checkpoint commits what is persisted |
| `WriteQueue.FileState.OperationFailed` | web/app.js:1336-1342 | a failed operation ends the loop for good and rejects whoever waits |
| `WriteQueue.FileState.Truncate` | web/app.js:1363-1380 | once its queue has drained, and not before, a store is cut back to the accepted offset |
| `WriteQueue.FileState.Finalize` | web/app.js:1458-1463 | the last drain and checkpoint |
| `WriteQueue.PushKeeps` | web/app.js:1442-1457 | an arriving chunk keeps the invariant, and is accepted exactly if it continues the file, fits and no write has failed |
| `WriteQueue.EntryIsNext` | web/app.js:1327-1330 | the worker path and the stream path write at the same position, the end of what is stored |
| `WriteQueue.HappenKeeps` | web/app.js:1287-1391 | every event keeps the invariant and accepts exactly the bytes of an accepted chunk |
| `WriteQueue.QueueRefinesFile` | web/app.js:1287-1391 | over every run: committed <= persisted <= offset <= size; offset is persisted plus in-flight plus queued bytes; the file is a prefix of the accepted bytes and holds all committed ones; the queue is bounded; a non-empty queue without error has a live loop; the uncommitted tail stays below a checkpoint |
| `WriteQueue.FinishStoresAll` | web/app.js:1458-1463 | draining and a last checkpoint leave exactly the accepted bytes |
| `WriteQueue.ProceedDrains` | web/app.js:1314-1346 | every completed operation brings the flush loop nearer to its end |
| `WriteQueue.CommittedGrows` | web/app.js:1287-1301 | nothing committed is taken back |
| `WriteQueue.WaitsExactly` | web/app.js:1451-1456 | the receive loop waits exactly if more than four mebibytes are queued |
| `WriteQueue.WakesExactly` | web/app.js:1303-1334 | a write is followed by a checkpoint exactly if the file is complete or four mebibytes are uncommitted; otherwise the waiting loop is woken exactly if at most one mebibyte is queued |
| `WriteQueue.WakesAfterCheckpoint` | web/app.js:1287-1307 | after a checkpoint everything persisted is committed, and the loop is woken likewise |
| `RouteRace.HappenKeeps` | web/webrtc-runtime.js:425-552 | every event keeps a peer in order, and a receiver finishes only on a route it holds a confirmation for |
| `RouteRace.ResumeSenderKeeps` | web/webrtc-runtime.js:461-476 | a sender that confirms a route finishes on it in the same step |
| `RouteRace.ResumeReceiverKeeps` | web/webrtc-runtime.js:485-496 | a receiver that finishes has been confirmed on that route |
| `RouteRace.FailKeeps` | web/webrtc-runtime.js:512-524 | a failing route starts the relay or hands over to it without disturbing a decision |
| `RouteRace.DeliverKeeps` | web/webrtc-runtime.js:832-844 | a control message wakes its waiter or joins the backlog, and decides nothing by itself |
| `RouteRace.RouteAgreement` | web/webrtc-runtime.js:425-552 | in every interleaving with losses, timeouts, cancellations and late frames: each side finishes at most once, a confirmation has been put on a route exactly if the sender finished on it, and a receiver that has finished is on the route the sender has finished on |
| `RouteRace.SenderFinishesExactly` | web/webrtc-runtime.js:461-476 | a sender finishes in a step exactly if, not settled, it goes on with the acknowledgement of its own commit on a route that is open and can send; the confirmation is put in that step, and no other ever is |
| `RouteRace.SenderHasConfirmed` | web/webrtc-runtime.js:461-476 | a sender has finished if and only if it took such a step |
| `RouteRace.ReceiverSendsExactly` | web/webrtc-runtime.js:485-490 | a receiver sends nothing but acknowledgements, each exactly when a commit of an open route has come while it is not settled, and then waits for the confirmation |
| `RouteRace.CommitsWhenOpen` | web/webrtc-runtime.js:498-506 | an idle sender commits to the direct route when it opens, and to the relay when it opens after the direct one has failed |
| `RouteRace.CommitsWhenTimeIsOver` | web/webrtc-runtime.js:507-510 | it commits to the relay when the time in which the direct route is preferred is over |
| `RouteRace.CommitsWhenDirectFails` | web/webrtc-runtime.js:512-522 | it commits to a relay that stands by when the direct route fails |
| `RouteRace.RelayStartsWhenDirectFails` | web/webrtc-runtime.js:518-519 | a relay that was not tried yet is tried when the direct route fails |
| `RouteRace.BrokenWaitFails` | web/webrtc-runtime.js:472-475 | a wait that timed out or was rejected makes its route fail |
| `RouteRace.SecondFailureEnds` | web/webrtc-runtime.js:446-460 | when the second route fails too the race is over without a winner |
| `RouteRace.FinishCancelsLoser` | web/webrtc-runtime.js:430-445 | finishing cancels the other route and stops the timers |
| `RouteRace.SenderFinishesFirst` | web/webrtc-runtime.js:470-471 | a run in which the sender has finished and the receiver has not |
| `RouteRace.FinishesExactly` | web/webrtc-runtime.js:491-494 | the receiver finishes in a step exactly if it is not settled and the wait after its acknowledgement was resolved by the confirmation of that route |
| `RouteRace.FinishedTogether` | web/webrtc-runtime.js:425-552 | a finished sender is not alone if and only if the receiver took such a step |
| `RouteRace.BothMayFinish` | web/webrtc-runtime.js:461-496 | a run in which both finish |
| `RouteRace.BothMayFinishOnRelay` | web/webrtc-runtime.js:485-524 | a run in which the direct route fails on both sides and both finish on the relay |
| `RouteRace.ControlExactly` | web/webrtc-runtime.js:863-873 | the transport takes for route control exactly what the race puts on the wire |
| `RouteRace.LeftoversAreDropped` | web/webrtc-runtime.js:863-873 | whatever the race leaves on a channel is route control to the transport that takes the channel over |
| `Transport.Transport.constructor` | web/webrtc-runtime.js:219-298 | takes over the frames that arrived before the handover as if it had received them |
| `Transport.Transport.Receive` | web/webrtc-runtime.js:264-291 | drops route control, passes unnumbered frames on, fails on a repeated number, and otherwise stores the frame and drains |
| `Transport.Transport.DrainPending` | web/webrtc-runtime.js:287-290 | delivers every pending frame whose turn has come |
| `Transport.Transport.Deliver` | web/webrtc-runtime.js:259-263 | hands a frame to the first waiting call, or queues it |
| `Transport.Transport.Fail` | web/webrtc-runtime.js:250-258 | closes once and rejects every waiting call |
| `Transport.Transport.Recv` | web/webrtc-runtime.js:330-334 | answers from the queue, waits, or refuses on a closed transport with an empty queue |
| `Transport.CallsSeeOneStream` | web/webrtc-runtime.js:259-334 | call number k of recv is answered with frame number k, no call is rejected, and queue and waiters are never both non-empty |
| `Transport.SessionNeverRejects` | web/app.js:1602-1627 | frames sealed with consecutive numbers and spread over any channels in any order are read in order, and the session's number check never rejects |
| `Reordering.ReorderingIsComplete` | web/webrtc-runtime.js:277-290 | without repeats, the delivered frames are numbers 0 to next - 1 and exactly the other arrived numbers are pending |
| `Reordering.ClosesOnRepeat` | web/webrtc-runtime.js:282-285 | the transport fails exactly if some number arrives twice |
| `Reordering.HandoverLosesNothing` | web/webrtc-runtime.js:298-298 | frames set aside before the handover, with route control removed, give the stream that would have resulted without a handover |
| `Reordering.DeliversPrefix` | web/webrtc-runtime.js:264-291 | at every moment the delivered frames are the longest sent prefix all of which has arrived |
| `Reordering.DeliversAll` | web/webrtc-runtime.js:264-291 | once everything sent has arrived, all of it is delivered in order and nothing is pending |
| `Framing.EnvelopeRoundTrip` | web/app.js:1638-1657 | every safe sequence number and body is restored, exactly if the body can hold an authentication tag |
| `Framing.EnvelopeReencodes` | web/app.js:1647-1657 | an accepted envelope is the encoding of what was read from it |
| `Framing.PeekAgrees` | web/webrtc-runtime.js:935-948 | the transport reads the number the session reads, on every frame the session accepts; they differ only on frames too short for a tag |
| `Framing.ChunkRoundTrip` | web/app.js:1659-1704 | every chunk the encoder accepts is restored field by field |
| `Framing.ChunkReencodes` | web/app.js:1685-1704 | an accepted chunk is the encoding of what was read from it |
| `Framing.JsonIsNotAChunk` | web/app.js:1620-1624 | a JSON object is never read as a chunk, nor a chunk as JSON |
| `Framing.EnvelopeExample` | web/app.js:1638-1645 | the bytes of an envelope: magic, number in eight bytes, body |
| `Framing.ChunkExample` | web/app.js:1659-1683 | the bytes of a chunk: magic, item, stream, offset, encoding, data |
| `SecureChannel.Nonce` | web/secure-channel.js:47-56 | the nonce is the prefix followed by the sequence number in eight bytes, most significant first |
| `SecureChannel.NonceIsInjective` | web/secure-channel.js:47-56 | different numbers below 2^64 give different nonces, as section 8.2.1 of NIST SP 800-38D requires |
| `Outgoing.Pipe.Send` | web/app.js:1589-1600 | the number passed in is spent once the message is encrypted, even if sending it then fails |
| `Outgoing.Pipe.NoNonceReuse` | web/app.js:1589-1600 | where no number is spent twice no nonce is used twice, for all numbers that the counter can count to |
| `StreamPlan.NewPlan` | internal/mux/mux.go:27-33 | item k is bound to stream k + 1; the lookup maps are inverse |
| `StreamPlan.IndexBindings` | internal/mux/mux.go:79-90 | the two lookup maps hold the bindings and nothing else |
| `StreamPlan.PlanFromManifest` | internal/mux/mux.go:35-77 | explicit bindings are accepted exactly if they are one-to-one between distinct non-negative ids and all items; missing ones are filled in; the lookup maps are inverse; the last error is never returned |
| `StreamPlan.CheckStreams` | internal/mux/mux.go:49-76 | the same for the explicit part, with the errors it can return |
| `StreamPlan.NoneLeftOut` | internal/mux/mux.go:71-75 | the pigeonhole: without double bindings every item is bound exactly if there are as many bindings as items |
| `StreamPlan.SamePlan` | internal/mux/mux.go:79-90 | a plan is determined by its bindings |
| `StreamPlan.ApplyAndReadBack` | internal/mux/mux.go:92-97 | for every positive item count a fresh plan put into the manifest is read back equal |
| `StreamPlan.FrameMatchesPlan` | internal/mux/mux.go:122-137 | a frame resolves exactly if its item and stream are one of the plan's bindings, or it names no stream where none is needed |
| `StreamPlan.Tracker.AcceptOpen` | internal/mux/mux.go:192-203 | lets a stream open exactly if it fits the plan and has not opened before |
| `StreamPlan.Tracker.AcceptEnd` | internal/mux/mux.go:205-220 | lets a stream end exactly if it fits the plan, has opened and has not ended |
| `StreamPlan.Tracker.AcceptChunk` | internal/mux/mux.go:222-239 | lets a chunk through exactly if it fits the plan and its stream has not ended, or late chunks are allowed |
| `StreamPlan.OrderlyGrows` | internal/mux/mux.go:192-239 | what the tracker allows is exactly what keeps every stream opened once, ended once after that, and without chunks behind its end |
| `Document.NormalPads` | internal/note/document.go:87-93 | normalized names are trimmed, not empty, and stay as they are |
| `Document.NormalPadsAreNamed` | internal/note/document.go:87-93 | only blanks around a name are taken away, and only a name of nothing but blanks becomes the default |
| `Document.OrderIs` | internal/note/document.go:131-148 | a document is lower exactly if its revision is, or it is of the same revision and earlier, or of the same revision and time and its text comes first: behind a common beginning it ends or has the lower byte |
| `Document.OrderIsTotal` | internal/note/document.go:131-148 | the comparison is antisymmetric, and equal only for documents that differ in the pad at most |
| `Document.OrderIsTransitive` | internal/note/document.go:131-148 | the comparison is transitive, strictly if one step is strict |
| `Document.Workspace.Snapshot` | internal/note/document.go:33-41 | the pad's document or an empty one under its normalized name |
| `Document.Workspace.Update` | internal/note/document.go:43-66 | replaces the pad's document by the edit, with wrapping counters, or refuses invalid input without a change |
| `Document.Workspace.ApplyRemote` | internal/note/document.go:72-85 | refuses exactly invalid documents, replaces exactly lower ones, and returns what is then held |
| `Replicas.Perform` | internal/note/document.go:43-85 | the workspace object follows the steps the run results are about |
| `Replicas.EditIsAbove` | internal/note/document.go:53-64 | a local edit is above what it replaces exactly if the revision is not the highest, later exactly if the timestamp is not, takes the clock's time where that is later, and passes validation exactly if neither counter is at its end |
| `Replicas.EditIsAccepted` | internal/note/document.go:43-50 | an edit is accepted exactly if the name is at most 64 bytes without forbidden characters and the text at most a mebibyte |
| `Replicas.WrappedEditIsLost` | internal/note/document.go:61-61 | a valid received document after which an edit is lower and invalid |
| `Replicas.StepKeepsMax` | internal/note/document.go:72-85 | one operation keeps the workspace at the highest document of what it was given |
| `Replicas.HoldsMaxExactly` | internal/note/document.go:43-85 | a workspace holds the highest document it authored or was given at every moment of a run if and only if it never edits at the highest revision |
| `Replicas.NewestIsHeld` | internal/note/document.go:72-85 | what a pad holds is of the highest revision of everything authored or received, the latest of that revision, and of those the one whose text comes last |
| `Replicas.Convergence` | internal/note/document.go:72-85 | workspaces that authored or received the same set of documents, in any order and however often, are equal |
| `Replicas.StepNeverDown` | internal/note/document.go:79-84 | no pad moves down |
| `Replicas.StepKeepsSound` | internal/note/document.go:115-129 | everything held stays acceptable to every receiver exactly if no edit is made with a counter at its end |
| `NoteSession.OpenedIsApplied` | internal/note/persistent.go:94-126 | an opened record is valid for the workspace, which then holds the higher of the two documents |
| `NoteSession.EditIsApplied` | internal/note/interactive.go:133-137 | a local edit changes the session's document as the session model says |
| `NoteSession.ReadDecides` | internal/note/persistent_session.go:222-261 | which messages are processed, what generation is recorded, and what happens to every other message |
| `NoteSession.PublishedIsOpened` | internal/note/persistent.go:57-126 | what one session publishes another one of the same pad opens |
| `NoteSession.OldStatesDoNothing` | internal/note/persistent_session.go:237-241 | a state of an older generation has no effect at all |
| `NoteSession.GenerationNeverFalls` | internal/note/persistent_session.go:238-242 | the recorded generation never decreases |
| `NoteSession.WorkspaceNeverFalls` | internal/note/interactive.go:105-188 | a step moves the workspace down exactly if a local edit wraps around |
| `NoteSession.TravelsOn` | internal/note/persistent_session.go:262-274 | a processed record above the workspace stays on its way until the workspace has it or the session is closed |
| `NoteSession.PutsAreKept` | internal/note/persistent_session.go:278-300 | everything published was held, and base generations are published in order |
| `NoteSession.LookDecides` | internal/note/persistent_session.go:248-274 | a higher record is handed on, above a lower one the held document is published, an equal one is acknowledged with its revision; without a record the held document is published if there is one |
| `NoteSession.EditIsPut` | internal/note/persistent_session.go:163-176 | a publishable edit is put on the session's generation; another ends the consumer |
| `NoteSession.SnapshotIsPut` | internal/note/persistent_session.go:278-300 | a publishable snapshot is put on the session's generation; another is reported |
| `NoteSession.EditsArePublished` | internal/note/interactive.go:120-142 | whenever the consumer is ready for the next line, every edit authored so far has been put, each on the generation of its moment |
| `NoteSession.SnapshotsArePublished` | internal/note/persistent_session.go:262-269 | what the reader set out to publish waits for its turn through everything else, and is then put on the generation of that moment |
| `NoteSession.BeginPublishes` | internal/note/persistent_session.go:153-158 | a session begins by publishing the held document exactly if there is one above the initial record |
| `NoteSession.BeginIsValid` | internal/note/persistent_session.go:120-161 | synchronizing keeps the higher of the local document and the initial record |
| `NoteSession.StepKeepsValid` | internal/note/persistent_session.go:222-276 | every step of reader, queue and consumer keeps the invariant |
| `NoteSession.RunKeepsValid` | internal/note/persistent_session.go:222-300 | over every run and any server behaviour the invariant holds and neither workspace nor generation moves down |
| `NoteSession.SessionCatchesUp` | internal/note/interactive.go:105-188 | once the queue is drained the workspace is at least every state record ever processed |
| `NoteSession.CanDrain` | internal/note/interactive.go:91-103 | from every open session without a failure on its way there is a way to go on without anything from outside after which everything processed has reached the workspace |
| `NoteSession.DrainedSessionsAgree` | internal/note/persistent_session.go:257-274 | drained sessions that each processed the highest document hold the same one |
| `NoteController.Controller.Start` | internal/app/local_web_note.go:220-257 | a session starts under a new id unless one is running; keeps the controller consistent |
| `NoteController.Controller.SetConnected` | internal/app/local_web_note.go:380-396 | shows the workspace's document as synced, for the current running id only |
| `NoteController.Controller.SetReconnecting` | internal/app/local_web_note.go:398-409 | drops the connection, for the current running id only |
| `NoteController.Controller.ShowRemote` | internal/app/local_web_note.go:436-446 | shows a received document, for the current running id only |
| `NoteController.Controller.HandleAck` | internal/app/local_web_note.go:454-468 | an acknowledgement settles the pending revision if it reaches it |
| `NoteController.Controller.ShowEdit` | internal/app/local_web_note.go:546-557 | shows an edit as pending, for the current connection only; consistent if its revision is not zero |
| `NoteController.Controller.Finish` | internal/app/local_web_note.go:666-730 | the end of a session leaves no connection, session, cancel function or pending revision |
| `NoteController.Controller.Leave` | internal/app/local_web_note.go:604-627 | the same when the user leaves |
| `NoteController.StaleCallbacksDoNothing` | internal/app/local_web_note.go:380-488 | nothing the goroutine of an older or finished session does changes the controller |
| `NoteController.StaleEditsAreNotShown` | internal/app/local_web_note.go:546-550 | neither does an edit begun on an older connection or in a session that is over |
| `NoteController.SoundIsKept` | internal/app/local_web_note.go:191-730 | what no interleaving breaks, wrapping edits included: not running means nothing left over, connected means running with a session, frames and edits about to be shown are what the workspace holds, and the workspace is never more than one revision ahead of what a connection shows |
| `NoteController.ConsistentExactly` | internal/app/local_web_note.go:546-557 | a step keeps "connected, then synced exactly if no revision is pending" if and only if it does not show an edit that has wrapped around to revision zero |
| `NoteController.RunIsConsistent` | internal/app/local_web_note.go:191-730 | the controller is consistent at every moment of a run if and only if the run never shows such an edit |
| `NoteController.VisibleExactly` | internal/app/local_web_note.go:380-568 | ids only grow; while the id stays, what is visible goes back in a step if and only if the step shows the document of a workspace that has fallen |
| `NoteController.HeldFallsExactly` | internal/app/local_web_note.go:539-539 | the workspace of a session falls in a step if and only if an edit of it wraps around |
| `NoteController.ZeroIsFallen` | internal/app/local_web_note.go:551-555 | showing a wrapped edit takes what is visible from one of the two highest revisions to zero |
| `NoteController.VisibleIsMonotone` | internal/app/local_web_note.go:380-568 | within one session id the visible document, and its revision, never goes back in a run if and only if the run never shows the document of a workspace that has fallen |
| `NoteController.WithoutWraps` | internal/app/local_web_note.go:191-730 | a run without an edit at the highest revision does neither |
| `NoteController.WrappedEditBreaks` | internal/app/local_web_note.go:551-555 | an edit at the highest revision, shown at once, leaves the controller connected and unsynced without a pending revision, and no acknowledgement settles it |
| `NoteController.StartsAnew` | internal/app/local_web_note.go:220-257 | a new session has the next id, shows its draft and is not connected yet; a running one is left alone |
| `NoteController.AckSettlesExactly` | internal/app/local_web_note.go:463-467 | an acknowledgement settles the pending revision exactly if it reaches it |
| `NoteController.AcksAreRemembered` | internal/app/local_web_note.go:460-462 | the highest acknowledged revision is remembered |
| `NoteController.PendingIsSettledExactly` | internal/app/local_web_note.go:380-730 | a pending revision stays pending exactly until it is acknowledged, a newer document is shown, a connection is made or the session ends |
| `NoteController.EditIsShownAndSettled` | internal/app/local_web_note.go:513-568 | an edit published while connected is held, shown and pending, and synced once it is acknowledged |
| `NoteController.FrameIsShown` | internal/app/local_web_note.go:422-446 | of a received document and the held one the higher is held and shown; a newer one settles what was pending |
| `NoteController.ComesBack` | internal/app/local_web_note.go:278-323 | a session that broke comes back connected and synced, with the higher of what it held and what it is given |
| `DirectBundle.CountsExactly` | internal/app/direct.go:606-637 | a hello is expected exactly if protocol, room, role and index are, and it asks for at most eight connections; without a count it asks for one |
| `DirectBundle.VerifyAcceptor` | internal/app/direct.go:437-492 | a hello is answered exactly if it is the one expected, with a hello of the same index and this side's count |
| `DirectBundle.VerifyDialer` | internal/app/direct.go:503-530 | a hello of this index and count is written, and the answer settles a count exactly if it is the one expected |
| `DirectBundle.AcceptPrimary` | internal/app/direct.go:91-134 | the primary connection is the first that is answered with a valid hello of index zero, found exactly if one comes before the listener stops; its answer is the only one written |
| `DirectBundle.AcceptAuxiliaries` | internal/app/direct.go:304-351 | succeeds exactly if every slot is asked for, in whatever order, before the listener stops; then each slot has a later connection that asked for it and this size; every answer written is for an auxiliary slot of this size |
| `DirectBundle.TakeArrival` | internal/app/direct.go:328-348 | one arrival is given its slot, turned away, or stops the listener, exactly |
| `DirectBundle.MakeBundle` | internal/app/direct.go:172-187 | succeeds exactly if there is a connection in every slot |
| `DirectBundle.AcceptBundle` | internal/app/direct.go:67-89 | succeeds exactly if a primary connection and then every slot of the settled size are asked for in time; the bundle has the smaller of the two counts, the primary connection first; the primary hello was answered once |
| `DirectBundle.ConnectPrimary` | internal/app/direct.go:189-267 | the primary connection is the first candidate that is confirmed, and no candidate is confirmed if there is none; all dialed candidates have written the same hello |
| `DirectBundle.ConnectAuxiliaries` | internal/app/direct.go:353-406 | succeeds exactly if every attempt is confirmed with the same size, in whatever order they finish; then every slot has its own attempt; the hello of an index is written on the attempt of that index only |
| `DirectBundle.ConnectBundle` | internal/app/direct.go:143-170 | succeeds exactly if a candidate is confirmed and so are all auxiliary attempts of the size it settles; the bundle has the smaller of the two counts, the primary connection first; what this side wrote |
| `DirectBundle.BundlesAgree` | internal/app/direct.go:67-170 | if both sides succeed, and connections carry what the other side wrote, their bundles have the same size, the smaller of the two requests, and slot by slot the two ends of one connection |
| `DirectBundle.Handshake` | internal/app/direct.go:67-170 | the same of the two procedures run against each other |
| `DirectBundle.TwoConnections` | internal/app/direct.go:67-170 | a handshake in which both sides succeed with two connections |
| `Sha256.Hasher.constructor` | web/app.js:2439-2449 | nothing has been hashed |
| `Sha256.Hasher.Update` | web/app.js:2451-2467 | the message grows by the data, unless the hasher is finished |
| `Sha256.Hasher.Mark` | web/app.js:2473-2479 | the end mark and the zeros are those of section 5.1.1 of FIPS 180-4, in one block or two |
| `Sha256.Hasher.Digest` | web/app.js:2469-2490 | the digest is that of the whole message, once |
| `Sha256.Hasher.ProcessBlock` | web/app.js:2492-2539 | one application of the compression function of section 6.2.2 of FIPS 180-4 |
| `Sha256.HashParts` | web/app.js:2438-2539 | however a message is cut into updates, the digest is the one-shot hash of the padded message |
| `Sha256.HashFile` | web/app.js:2224-2233 | hashing by slices of four mebibytes gives the same digest |
| `Sha256Standard.BigSum0` | web/app.js:2517-2517 | the sum is of the word rotated by 2, 13 and 22 single places |
| `Sha256Standard.BigSum1` | web/app.js:2514-2514 | the sum is of the word rotated by 6, 11 and 25 single places |
| `Sha256Standard.SmallSum0` | web/app.js:2499-2499 | the sum is of the word rotated by 7 and 18 places and shifted by 3 |
| `Sha256Standard.SmallSum1` | web/app.js:2500-2500 | the sum is of the word rotated by 17 and 19 places and shifted by 10 |
| `Sha256Standard.RoundIs` | web/app.js:2513-2528 | a round as section 6.2.2 of FIPS 180-4 has it, with any word that has the chosen bits and any that agrees with two of three |
| `Sha256Standard.ChosenIsOne` | web/app.js:2515-2515 | the choice is the one word with the bits of the second where the first has ones and of the third where it has zeros |
| `Sha256Standard.MajorityIsOne` | web/app.js:2518-2518 | the majority is the one word that agrees with any two wherever they agree |
| `Sha256Standard.RoundConstants` | web/app.js:2545-2554 | the constants are the first 32 fractional bits of the cube roots of the sixty-four primes listed, 2 to 311 |
| `Sha256Standard.InitialHash` | web/app.js:2439-2443 | the initial words are the first 32 fractional bits of the square roots of the first eight of them |
| `Sha256Example.ExampleSchedule` | web/app.js:2492-2502 | the message schedule of the standard's example |
| `Sha256Example.ExampleRounds` | web/app.js:2513-2528 | its sixty-four rounds, one by one |
| `Sha256Example.ExampleDigest` | web/app.js:2438-2539 | the digest of "abc" is the one FIPS 180-4 gives |
| `Crc32.ByTable` | web/app.js:2212-2222 | eight bit steps are a shift and the eight steps of the low byte |
| `Crc32.LookupIsByteStep` | web/app.js:2206-2206 | one table lookup does the work of eight bit steps |
| `Crc32.MakeTable` | web/app.js:2212-2222 | every table entry is eight bit steps of its index |
| `Crc32.ChecksumParts` | web/app.js:2202-2210 | for every way of splitting, the table-driven loop computes the bit-by-bit reflected CRC of the whole |
| `Crc32Example.CheckValue` | web/app.js:2202-2222 | the checksum of the digits 123456789 is 0xcbf43926 |
| `Zip.MakeZip` | web/app.js:2117-2183 | the archive is bodies, central directory and end record |
| `Zip.ArchiveIsReadable` | web/app.js:2117-2183 | within 32-bit sizes and 16-bit counts a reader that follows the end record to the central directory to the local headers, and checks that sizes, offsets and both headers agree (sections 4.3.7, 4.3.12 and 4.3.16 of the PKWARE APPNOTE), finds every entry in order, stored and with its name, data, checksum, time and attributes |
| `Zip.ReadableExactly` | web/app.js:2117-2183 | an archive reads back if and only if it fits: fewer than 65536 entries, names shorter than that, and less than 4 GiB of bodies and of central headers |
| `Zip.TooManyEntries` | web/app.js:2176-2177 | no archive of 65536 entries or more reads back |

## Left out

- Text items, directories and symlinks in a transfer: single chunks without resuming, which would only add easy members.
- Recovery from memory, final verification reads, download links, progress and telemetry.
- Skips in the resume negotiation: the browser receiver never offers one, and refuses them in answers.
- The JSON envelope for peers without binary chunks: it travels on one ordered channel and is not renumbered.
- Liveness and wall-clock preferences of the route race: timers are events that may happen at any moment.
- Storage that fails leaves arbitrary contents behind; the transfer results then apply to the next attempt, which starts from any partial.
- AES-GCM, HKDF, gzip, JSON, WebRTC, WebSocket and STUN are foreign code; the authenticity of a frame is not modelled.
- Counters of the browser are natural numbers; safe-integer bounds appear where frames are encoded. Scheduler credits are unbounded integers proved to stay between zero and quantum times weight. The controller's session counter does not wrap.
- Resume.NegotiateSender: an offer for a text item is not refused as such, because only files are modelled.
- Outgoing.Pipe.NoNonceReuse: numbers beyond 2^53 - 1, where a JavaScript counter stops counting, are not covered.
- Conversation.ReceiveTransfer: what makes the receive loop throw is an input; it may throw before the offers, after them, or in cleaning up.
- Replicas.EditIsAbove: pad names are sequences of characters, so names that are not valid UTF-8 are not covered.
- NoteSession: only the document of the session's pad is kept; `OpenedIsApplied` and `EditIsApplied` tie it to the workspace. The servers of notepad, signaling and relay are not modelled and may send anything.
- NoteController: draft and recents storage, and the texts of errors and warnings.
- DirectBundle.BundlesAgree: assumes that a connection carries only what the other peer wrote on it, since only the two peers know the room token, and that a hello whose writing failed was not delivered whole. Bidirectional TCP and UDP punching are not part of this model.
- The browser's own notepad comparison: it orders texts by UTF-16 units, the model follows the Go order on bytes.
- Resume entries of the native client (`ValidateResumeEntry` in internal/mux/mux.go), manifest paths, route history, path weights, configuration, command line and local web handlers.
