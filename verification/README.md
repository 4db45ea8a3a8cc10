# anvil-ring: a verified model

anvil-ring is an outbound tunnel. A hub takes callers' HTTP requests and carries
each one as a numbered stream over a single link to a tether; the tether runs one
engine pump per stream and sends the answer back. This project models that
system in Dafny and proves what the code's comments promise: no fabricated or
truncated success, no stranded caller, no orphaned engine work, no stale session
evicting its successor, and a control plane that reaches live sessions and fails
closed.

## How it is built

**The stream protocol** (`Stream`, `StreamSafety`, `StreamSettlement`,
`StreamRequest`, `StreamRuns`, `StreamInputs`, `StreamDebts`, `StreamHead`,
`StreamOutcome`, `StreamFailure`, `StreamCaller`, `StreamTether`, `StreamUpload`,
`StreamAnswer`). One stream is a state machine in which every actor of the source
takes its own small steps, one for each lock or atomic access: the thread in
`start_forward`, the upload task, the hub's frame loop, whoever closes the session,
the caller polling its body, the dropped guard, the tether's session loop and the
engine pump. `complete` and `fail` are three steps (store, abort, publish),
`poll_next` three (failure, completion, receive), `close` a drain and then the
failing. The invariants are proved step by step for each actor; the theorems in
`StreamRuns` speak of every run, that is of every interleaving. `StreamDebts` says
that what an actor still owes is paid by a bounded number of its own turns;
`StreamHead`, `StreamOutcome` and `StreamFailure` say exactly when a head is
overlooked and when an outcome is final. `StreamUpload` and `StreamAnswer` say that
nothing is in the way of a healthy stream: its engine can still get all of the
request, and its caller all of the answer; `StreamCaller` and `StreamTether` what
either end leaves behind when it goes. A link is the log of the frames queued for its
writer, how many of them the writer has written and how many of those the other end
has taken. When a writer goes, what it has not written is lost; a cut link is one from
which no more frames are taken.

**The session** (`Tunnel`, `TunnelProjection`, `TunnelRuns`, `TunnelDebts`,
`TunnelPings`, `TunnelOutcome`, `TunnelCompletion`, `TunnelBarred`, `TunnelUpload`,
`TunnelAnswer`). Many streams share a command queue with permits, the tether's queue,
two links, one frame loop at each end, the tether's 64 places, the routing lock and
the source of stream numbers. `Projection` proves that each stream's view of any run
of a session is a run of the single-stream machine. So what holds of every run of a
stream holds in every session; what says that something can still happen does not
carry over by itself, since other streams may be in the way, and is proved for
sessions separately: debts and answers (`TunnelDebts`), verdicts that may still be
replaced (`TunnelOutcome`, `TunnelCompletion`), and requests and answers that can
still be delivered (`TunnelUpload`, `TunnelAnswer`). Proved here in addition is
admission (caps, permits and numbers) and that keepalives are answered.

**The registry and router** (`RegistrySpec`, `Routing`, `Sessions`, `Hub`).
`RegistrySpec` has the tables as values, every operation as a function or a relation
on them, the history of the live table, and theorems over runs of operations. `Hub`
and `Sessions` have the source's objects as classes that update their fields; each
method is proved to do exactly what the value-level operation says, and the
registry's `Valid()` ties its tables and every session ever attached to that value. The
handling of a frame, a settled stream and a started stream are what the machine's
steps give when nothing interrupts them (`HandledIsTheMachines`).

**The ends** (`Frontend`, `TetherLoop`). The response body with its three sections, its
drain theorem and the status line; the tether's session loop with its table of pumps.
Here too small lemmas link the objects to the machine, section by section and
message by message (`SectionsAreTheMachines`, `DeliveredIsTheMachines`).

**The codecs** (`Frames`, `Chunked`, `ChunkSizes`). The binary frames of the link with
their bytes on the wire, and the incremental chunked decoder (section 7.1 of RFC 9112)
as a class over a buffer and a mode, proved against a whole-buffer meaning; which size
lines it takes, and which input it refuses, is said without reference to how it parses.

**The durable store and the refresh loop** (`StoreSpec`, `Store`, `ControlPlane`).
Transactions and the audit log as values; the store as a class whose operations may
fail at any of the points where the source can, and whose every durable moment is
recorded so that a crash at any of them is covered; and the composition of store,
refresh loop and registry as a state machine of its own.

## What the code does not promise

These are stronger than what the code keeps; the theorems are stated around them.

- A stream's outcome is not write-once. A stream that a broken upload has failed is
  still in the map, and a clean END that arrives then makes it complete
  (`FailedBecomesComplete`); a session that is closed between the two halves of END
  fails a stream that was complete (`CompleteBecomesFailed`). For a stream by itself
  `CompleteIsFinal` and `FailedIsFinal` say exactly in which states the outcome can no
  longer change. In a session the same condition decides for a complete stream
  (`SessionCompleteIsFinal`). A failed stream that may not be completed stays failed in
  every session; one that may be can be completed, whatever the other streams are doing,
  if the hub's writer is there and no frame that ends the session is on its way to the
  hub (`SessionFailedIsFinal`), and otherwise not always (`BarredStaysFailed`). The other
  theorems speak of what the caller was handed, not of the outcome.
- Waiting for the head reads the head and then the completion. When both arrive in
  between, the answer is "none" although there is a head (`HeadIsOverlooked`). That
  happens exactly if the stream is over at the second look and its head was stored
  between the two (`OverlookedExactly`, and of every run `NoAnswerComesFrom`); a head
  that is there at the first look is never overlooked (`StoredHeadIsSeen`).
- Two ids may be given one credential. The credential then leads to the later id,
  and registering that id anew locks the other one out, although it stays
  registered and active: `SharedCredentialIsLost` is such a case, and `RegisterUsable`
  says exactly when a registration leaves every credential usable. Sessions are
  therefore tied to the hash in their id's record, not to the credential index.
- A frame is not always the only encoding of itself: PING and PONG may carry a
  payload that is ignored, and WELCOME accepts a leading plus and zeros (`PaddedPing`,
  `SignedWelcome`). `ReencodeExact` says exactly which decoded frames re-encode to their bytes.
- A credential file may be left behind by a failed issuance (`CredentialIsLeft`): exactly
  if it was created and cannot be removed again.
- The header of `cargo/src/chunked.rs` requires that a partial chunk is not emitted
  early. The code emits whatever part of a chunk has arrived, and the model follows the
  code: `PartialChunkIsEmitted` is such a case, and `PartialChunksExactly` says for every
  encoding, cut anywhere and arriving in any pieces, that only whole chunks are handed
  out exactly if the cut does not fall inside a chunk's payload (`CutInside`).

## Model

| member | source | states |
|---|---|---|
| StreamRuns.NoFabricatedSuccess | cargo/src/frontend.rs:93-155 | In every interleaving: polls yield chunks, then one error or end, then ends; the chunks are a prefix of the DATA payloads in the order sent; a body that ends without an error delivered the whole of an answer the engine ended properly, and the pump's empty-reason END had been received |
| StreamRuns.HeadIsTheEngines | cargo/src/hub.rs:780-790 | The head a caller streams under is the engine's own; "no answer" is only said of a finished stream |
| StreamRuns.Conservation | cargo/src/hub.rs:1098-1141 | While the stream is in the hub's map: delivered + queued + in flight + not yet sent = the engine's body |
| StreamRuns.NoOrphanedWork | cargo/src/hub.rs:734-763 | A stream that was opened and has left the map is ended by the tether, has an END queued to it, or its session is ending, once no actor is in the middle of its steps |
| StreamDebts.DebtsArePaid | cargo/src/hub.rs:541-609 | However the others interleave, the frame loop, the upload or the guard that owes the tether an END, and the closer that has still to decide a stream, have paid after at most five turns of their own; until then their next turn is possible, whether or not the queue is full |
| StreamDebts.GuardHasPaid | cargo/src/hub.rs:734-763 | A guard that has nothing left to do has settled its stream, or the hub owes it |
| StreamDebts.OwedIsSettled | cargo/src/hub.rs:734-763 | From every state in which an END is owed, at most seven turns of those who owe it settle the stream |
| StreamDebts.DecidedIsAnswered | cargo/src/frontend.rs:93-155 | Once its stream is decided, a caller that is still there is answered by a bounded number of its own looks: no answer; an error; or, of a complete stream, exactly the chunks that are queued, in order, and then a clean end |
| StreamRuns.TetherLetsGo | cargo/src/tunnel.rs:434-436 | An END the tether has taken leaves it without a handle, and a stream is opened there at most once |
| StreamRuns.NoStrandedCaller | cargo/src/hub.rs:125-146 | A closed session holds no stream, and each one it admitted is decided for a caller that is still there once the closer is through |
| StreamRuns.UploadIsStopped | cargo/src/hub.rs:815-839 | However installing the upload interleaves with the two halves of finishing it, the upload of a finished or abandoned stream has been aborted, and one that has been aborted can stop at its next send |
| StreamRuns.RequestIsFaithful | cargo/src/tunnel.rs:493-509 | The engine reads a prefix of the caller's non-empty chunks in order, and its request body ends normally only when it has all of a body that ended properly |
| StreamHead.OverlookedExactly | cargo/src/hub.rs:780-790 | Between a caller's two looks: "no answer" with a head there exactly if the stream is over by the second look and the frame loop stored the head in between |
| StreamHead.NoAnswerComesFrom | cargo/src/hub.rs:780-790 | In every run "no answer" comes from two such looks at a stream that is over, and a head was overlooked exactly if it was stored between them |
| StreamHead.StoredHeadIsSeen | cargo/src/hub.rs:780-790 | A head that is there when the caller looks is never overlooked |
| StreamHead.HeadIsOverlooked | cargo/src/hub.rs:780-790 | A run in which a caller is told "no answer" although the head has arrived |
| StreamOutcome.DecidedForEver | cargo/src/hub.rs:824-839 | Once a finished stream is out of the map and no actor is deciding it, its outcome never changes, whatever happens |
| StreamOutcome.CompleteIsFinal | cargo/src/hub.rs:824-839 | A complete stream stays complete in every continuation exactly if it is out of the map and neither a closer nor a broken upload is in the middle of failing it |
| StreamOutcome.FailedBecomesComplete | cargo/src/hub.rs:597-608 | A run in which a stream failed by its upload is then made complete by a clean END |
| StreamOutcome.CompleteBecomesFailed | cargo/src/hub.rs:1129-1139 | A run in which a session closed between the two halves of END fails a complete stream |
| StreamFailure.FailedIsFinal | cargo/src/hub.rs:1098-1141 | A failed stream by itself stays failed in every continuation exactly if the loop is not completing it and what it holds and may still get (of a tether that has gone only what was written, of an OPEN not written when the hub's writer went nothing) does not lead to a clean END through one head and no more data than there are places for |
| StreamFailure.RemovedIsFinal | cargo/src/hub.rs:1129-1141 | A failed stream out of the map stays failed in every continuation exactly if the loop is neither completing it nor holding a clean END for which it looked the stream up before |
| StreamSafety.ResponseStep | cargo/src/tunnel.rs:387-397 | Every step of every actor keeps the response invariant: what was emitted, received, accepted and delivered |
| StreamSettlement.SettlementStep | cargo/src/hub.rs:573-609 | Every step of every actor keeps the account of who still has to be told: tether, caller and upload |
| StreamRequest.RequestStep | cargo/src/tunnel.rs:88-111 | Every step keeps the request invariant: what is on the link, in the tether's queue and consumed matches the caller's body, and the empty message ends it |
| StreamInputs.InputsAreKept | cargo/src/hub.rs:541-609 | In every run the body an upload sends is the one the caller brought, OPEN carries the caller's head, and the pump relays the answer its engine gave |
| StreamUpload.BodyIsSent | cargo/src/hub.rs:575-596 | In every run an upload that is done, of a stream that is not over and that nobody stopped, has put the whole of a properly ended body on the link in order, and HALF_END behind it |
| StreamUpload.ProperBodyNeverBreaks | cargo/src/hub.rs:597-608 | While the hub's writer is there the upload of a body that ends properly never fails its stream |
| StreamUpload.NobodyStopsIt | cargo/src/hub.rs:815-839 | The upload of a stream that is not over and whose caller is there has not been aborted and cannot be stopped |
| StreamUpload.BrokenUploadEnds | cargo/src/hub.rs:597-608 | An upload that has broken off, of a stream that is not over, fails it and settles it with the tether in at most five turns of its own |
| StreamUpload.EngineGetsTheBody | cargo/src/tunnel.rs:493-509 | From every reachable state in which the stream is in the map and not over, both ends are there and the engine reads or has not been asked, a bounded run ends the request normally with all of the caller's chunks read |
| StreamAnswer.CallerGetsTheAnswer | cargo/src/frontend.rs:93-155 | From every reachable state in which the stream is in the map and not over, loops and caller are there and nobody has ended it, a run hands the caller the whole of an answer that ends properly, however long, and a clean end |
| StreamCaller.NothingForTheGone | cargo/src/hub.rs:1115-1128 | In every run, once a caller that streamed has gone nothing is queued for it, and the next data for it fails the stream |
| StreamCaller.SeenIsNotAborted | cargo/src/hub.rs:744-749 | In every run, a caller that has seen the end of its stream, or was told there is no answer, never makes the hub abort it at the tether |
| StreamCaller.CallerLeaves | cargo/src/hub.rs:734-763 | A caller may go between any two looks; at most five steps of its guard then take the stream out of the map, stop its upload and settle it with the tether, unless the hub still owes that |
| StreamTether.NothingDroppedInSilence | cargo/src/tunnel.rs:377-436 | In every run a stream whose OPEN the tether has taken has a live pump, or an END for it is on the link, or the hub's END was taken |
| StreamTether.ReadsWhileAtIt | cargo/src/tunnel.rs:385-397 | Input is only read by a pump that has neither sent its END nor been aborted |
| StreamTether.BreaksOffWhenDropped | cargo/src/tunnel.rs:493-509 | The engine's request is broken off only once the tether has let go of the stream, and then as soon as what was queued is read |
| StreamTether.AbortIsFinal | cargo/src/tunnel.rs:113-117 | A pump without its handle can be stopped at any moment, and from then on neither reads nor sends anything in any continuation |
| TunnelProjection.Projection | cargo/src/hub.rs:1098-1141 | Each stream's view of any run of a session is a run of the single-stream machine |
| TunnelRuns.ReservationIsSafe | cargo/src/hub.rs:460-542 | Never more than 64 streams on a session, 256 frames and permits in the hub's queue or 256 frames in the tether's; a routed request that holds a reservation is refused only because the session closed |
| TunnelRuns.NumbersAreNew | cargo/src/hub.rs:517-528 | A number drawn is within 16 bits and above every number used before; no frame, handle or pump belongs to it |
| TunnelRuns.StreamsAreIsolated | cargo/src/tunnel.rs:317-321 | A frame or completion notice of one stream changes nothing another stream has, but for a session that ends |
| TunnelRuns.OpenFindsNoHandle | cargo/src/tunnel.rs:377-406 | The tether's OPEN never overwrites a handle |
| TunnelRuns.SessionNoFabricatedSuccess | cargo/src/frontend.rs:93-155 | No fabricated or truncated success on any stream of a multiplexed session |
| TunnelRuns.SessionNoOrphanedWork | cargo/src/hub.rs:541-609 | No stream of a session that left the map is left running at the tether |
| TunnelRuns.SessionNoStrandedCaller | cargo/src/hub.rs:1147-1161 | A closed session's map is empty for ever, and no caller of it stays undecided |
| TunnelRuns.SessionRequestIsFaithful | cargo/src/tunnel.rs:407-433 | Each engine reads its own caller's body, in order, and ended only if complete |
| TunnelPings.PingsAreAnswered | cargo/src/hub.rs:1073-1078 | In every run each end has answered every PING it has taken with one PONG and sent no other; the hub may owe answers only once its loop has ended |
| TunnelDebts.TurnIsAble | cargo/src/hub.rs:541-609 | In a session too the next turn of an actor that owes something is possible, with the shared queue and the shared loop as they are |
| TunnelDebts.SessionOwedIsSettled | cargo/src/hub.rs:734-763 | From every state of a session in which a stream's END is owed, at most seven turns of those who owe it settle the stream |
| TunnelDebts.SessionDecidedIsAnswered | cargo/src/frontend.rs:93-155 | In a session too a caller whose stream is decided is answered by a bounded number of its own looks, with all that is queued if it is complete |
| TunnelDebts.TeardownDecides | cargo/src/hub.rs:1147-1161 | From every state of a session the end of its loop, one close and at most three turns of the closer for each stream empty the map and decide every caller that is still there |
| TunnelOutcome.SessionCompleteIsFinal | cargo/src/hub.rs:824-839 | In a session a complete stream stays complete in every continuation exactly if it is out of the map and neither its closer nor its upload is in the middle of failing it |
| TunnelCompletion.SessionFailedIsFinal | cargo/src/hub.rs:1065-1143 | In every continuation of a session a failed stream that may not be completed stays failed; and if the hub's writer is there and nothing but PING, PONG and frames of streams is on its way to the hub, one that may be completed can be, whatever the other streams have on the links, in the loop and in the tether's places |
| TunnelBarred.BarredStaysFailed | cargo/src/hub.rs:1073-1097 | A session with a GOAWAY on its way, and one with a PING and no writer, in which a failed stream that might be completed alone stays failed in every continuation |
| TunnelUpload.SessionBodyIsSent | cargo/src/hub.rs:575-596 | In every session an upload that is done has put the whole of its own body and HALF_END on the link, in order |
| TunnelUpload.SessionEngineGetsTheBody | cargo/src/tunnel.rs:407-433 | In a session that nothing is about to end, the engine of a healthy stream can still get all of its caller's body and its end, past the frames of the other streams |
| TunnelAnswer.SessionCallerGetsTheAnswer | cargo/src/hub.rs:1098-1141 | In a session that nothing is about to end, the caller of a healthy stream can still get the whole of its engine's answer and a clean end, past the frames of the other streams |
| RegistrySpec.RegistryConsistent | cargo/src/hub.rs:248-311 | In every run of registry operations a credential leads to the id whose record holds it, and an installed session was attached under the hash its id has now, by an active record |
| RegistrySpec.StaleCannotEvict | cargo/src/hub.rs:411-428 | In every run a session holds its place exactly if it was attached there and nothing has displaced it; it is the newest; all others are closed, and cancelled unless they left by themselves |
| RegistrySpec.RegisterKeeps | cargo/src/hub.rs:248-270 | Registering keeps the registry's invariant |
| RegistrySpec.RevokeKeeps | cargo/src/hub.rs:341-363 | Revoking keeps it, whether or not anything changed |
| RegistrySpec.AttachKeeps | cargo/src/hub.rs:365-409 | Attaching keeps it: generations are unique and increasing |
| RegistrySpec.DetachKeeps | cargo/src/hub.rs:418-428 | A session's own teardown keeps it |
| RegistrySpec.ReplaceKeeps | cargo/src/hub.rs:273-311 | Applying any snapshot keeps it |
| RegistrySpec.MayAttachIs | cargo/src/hub.rs:365-385 | One may attach for an id exactly with the credential in its record and in the index, while the record is active and its expiry, if any, lies ahead |
| RegistrySpec.AuthorizedMayAttach | cargo/src/hub.rs:318-335 | Authorized exactly if one may attach with a second to spare; the grant is for the id whose active record holds the credential, is the lease or the time left, whichever is less, and never outlives the record |
| RegistrySpec.ReplacedKeeps | cargo/src/hub.rs:291-305 | A snapshot leaves exactly the sessions whose id kept its hash and expiry, is active and has not expired |
| RegistrySpec.RevokedIsRefused | cargo/src/hub.rs:337-363 | A revoked id is let in by no credential and its session is stopped |
| RegistrySpec.RotatedOut | cargo/src/hub.rs:246-270 | After registering anew only the new credential lets the id in, and the old session is stopped |
| RegistrySpec.EvictAllIs | cargo/src/hub.rs:291-305 | Evicting several sessions stops exactly those, in any order; the order shows only in the history |
| RegistrySpec.RegisterUsable | cargo/src/hub.rs:257-264 | A registration leaves every credential usable exactly if no other id depends on the index entry it drops |
| RegistrySpec.SharedCredentialIsLost | cargo/src/hub.rs:257-264 | A case of two ids with one credential in which the other one is locked out |
| RegistrySpec.ReplaceUsable | cargo/src/hub.rs:306-310 | A snapshot leaves every credential of its table usable |
| Routing.StringLessIs | cargo/src/hub.rs:490 | One id is before another exactly if it is a strict prefix or has the smaller character where they first differ |
| Routing.SortSorts | cargo/src/hub.rs:490 | After sorting, each candidate has less load than those behind it, or as much and the id that comes first; none is lost |
| Routing.Select | cargo/src/hub.rs:490-509 | The usable candidate with less load than any other usable one, or as much and the id that comes first; busy exactly if one is known to be full, nobody exactly if there is none to be had |
| Sessions.StreamState.Fail | cargo/src/hub.rs:836-839 | Failing is the machine's three steps in a row |
| Sessions.StreamState.Complete | cargo/src/hub.rs:831-834 | Completing is the machine's three steps in a row |
| Sessions.HandledIsTheMachines | cargo/src/hub.rs:1098-1141 | Undisturbed, the machine's frame loop does to a stream exactly what the frame handler of the session does |
| Sessions.LiveSession.Admit | cargo/src/hub.rs:125-135 | Gone when closed, busy when full, otherwise in the map |
| Sessions.LiveSession.Close | cargo/src/hub.rs:137-146 | Afterwards the session is closed and its map empty, and each stream it held is failed and its upload aborted |
| Sessions.LiveSession.Reserve | cargo/src/hub.rs:703-711 | Gone when the writer is, busy when the queue is full, otherwise one more permit |
| Sessions.LiveSession.HandleHead | cargo/src/hub.rs:1098-1114 | A stream gets one valid head; anything else fails it, removes it and tells the tether or ends the session |
| Sessions.LiveSession.HandleData | cargo/src/hub.rs:1115-1128 | Data is queued in order for a caller that takes it; else the stream is failed, removed and the tether told |
| Sessions.LiveSession.HandleEnd | cargo/src/hub.rs:1129-1141 | Completes or fails by the reason, then removes |
| Sessions.LiveSession.HandleControl | cargo/src/hub.rs:1073-1097 | Only PING and PONG are welcome without a stream of their own; PING is answered or ends the loop |
| Sessions.LiveSession.Handle | cargo/src/hub.rs:1065-1143 | The whole effect of a frame on its stream, the map, the command queue and the loop; only PONG proves liveness |
| Sessions.StreamGuard.Drop | cargo/src/hub.rs:734-763 | Stops the upload, deregisters, and for an unfinished stream queues END or, when the queue is full, cancels the session |
| Sessions.StartForward | cargo/src/hub.rs:512-618 | Which refusal comes first, and otherwise a fresh stream under an unused number, its OPEN last in the queue, its upload installed and its guard held |
| Sessions.Serve | cargo/src/hub.rs:454-455 | Reservation and start together leave the permits as they were |
| Hub.Registry.constructor | cargo/src/hub.rs:235-244 | A registry starts empty with a lease of at least five seconds |
| Hub.Registry.Register | cargo/src/hub.rs:248-270 | Does what the value-level operation says, keeps every session sound and as closed and cancelled as that value has it, and fails the streams of the session that lost its place |
| Hub.Registry.Revoke | cargo/src/hub.rs:341-363 | The same for revocation, and the result says whether anything changed |
| Hub.Registry.Authorize | cargo/src/hub.rs:320-335 | Grants the id of a known, usable credential with at least a second left, for the lease or what is left |
| Hub.Registry.Attach | cargo/src/hub.rs:365-409 | Installs a fresh, sound and empty session exactly if the credential still leads to the id and its record is active and unexpired, and stops its predecessor |
| Hub.Registry.Leave | cargo/src/hub.rs:1159-1161 | A session's teardown closes it, fails its streams and gives up its place only if it is its own |
| Hub.Registry.ReplaceRecords | cargo/src/hub.rs:273-311 | The result is a replacement of the tables; the survivors are exactly the sessions whose id kept hash and expiry, is active and unexpired; they keep their session object, all others are closed and cancelled and their streams failed, and no other session or stream is touched |
| Hub.SurvivorsApart | cargo/src/hub.rs:291-305 | The streams of the survivors are none of those that a snapshot fails |
| Hub.Registry.ClearRecords | cargo/src/hub.rs:313-316 | Nobody is registered, nothing is live, and the streams of every session that was are failed |
| Hub.Registry.ChooseRoute | cargo/src/hub.rs:469-510 | The session with the fewest streams, then the id that comes first, among all that are connected, registered, unexpired, heard of within 45 seconds and have a stream, a number and queue space free; busy exactly if none can but one is connected and full; nobody, with no session lost meanwhile, exactly if none is eligible |
| Hub.Registry.ForwardAny | cargo/src/hub.rs:460-467 | Serves at the best session, touches no other, and never fails once a session is chosen |
| Hub.Registry.Forward | cargo/src/hub.rs:436-456 | Exactly which error in which order, without a change to any stream or queue, and otherwise a started stream |
| Frontend.TunnelBody.PollNext | cargo/src/frontend.rs:93-155 | One poll of a fixed or live body: what it yields, what is left queued, and whether the receiver is put back |
| Frontend.CompletedBodyDrains | cargo/src/frontend.rs:126-152 | A completed body yields everything queued in order and only then ends, with progress at every attempt that is not put off |
| Frontend.FailedBodyErrs | cargo/src/frontend.rs:118-125 | A failed body errs once and then ends |
| Frontend.UndecidedBodyWaits | cargo/src/frontend.rs:126-151 | An undecided body never ends |
| Frontend.StatusIs | cargo/src/frontend.rs:218-269 | The status for each refusal, and the engine's own status for every answer it gives |
| Frontend.SuccessIsTheEngines | cargo/src/frontend.rs:218-251 | A status below 400 is always one the engine sent |
| TetherLoop.TetherSession.EnqueueStreamInput | cargo/src/tunnel.rs:88-111 | Missing, queued or overloaded; overload removes and aborts that one pump |
| TetherLoop.TetherSession.HandleOpen | cargo/src/tunnel.rs:377-406 | A fresh handle, or END when there are 64 |
| TetherLoop.TetherSession.HandleFrame | cargo/src/tunnel.rs:358-440 | What each frame does to its stream, the table, the writer and the session, and that it does nothing else; a refused or replaced pump is aborted, a new one starts with an empty queue |
| Frames.RoundTrip | cargo/src/frames.rs:122-224 | Decoding an encoded frame with any tail gives it back with its length exactly if its payload is within 2^20 |
| Frames.PrefixNeedsMore | cargo/src/frames.rs:151-164 | No strict prefix of a frame is decoded or rejected |
| Frames.VerdictIsFinal | cargo/src/frames.rs:151-224 | Bytes that arrive later never change a verdict |
| Frames.LeaseTextRoundTrip | cargo/src/frames.rs:125-176 | The decimal lease of WELCOME parses back to itself |
| Frames.ReencodeExact | cargo/src/frames.rs:165-223 | A decoded frame re-encodes to the consumed bytes exactly if it is canonical: all HELLO, OPEN, DATA, RESP_HEAD, END, HALF_END and GOAWAY are |
| Frames.PaddedPing | cargo/src/frames.rs:201-202 | A PING with a payload that decodes and re-encodes to other bytes |
| Frames.SignedWelcome | cargo/src/frames.rs:170-176 | A WELCOME with a plus that decodes and re-encodes to other bytes |
| Frames.WireBytes | cargo/src/frames.rs:8-34 | Where type, stream number, length and payload of each kind of frame stand on the wire, high byte first |
| Frames.DataOnTheWire | cargo/src/frames.rs:122-143 | The bytes of one DATA frame on stream 0x1234 |
| Frames.VerdictIs | cargo/src/frames.rs:151-224 | Exactly which buffers wait for more, and which are refused as too long, of unknown type or malformed |
| Frames.LeaseTextIs | cargo/src/frames.rs:170-176 | A lease is digits, with a plus in front or not, of a value that fits 64 bits |
| Frames.StreamRoundTrip | cargo/src/frames.rs:145-224 | Repeated decoding of concatenated frames returns the list, then goes on as with the tail alone |
| Frames.StreamCutAnywhere | cargo/src/frames.rs:151-164 | Cut anywhere, the whole frames come back and the cut one is held |
| Frames.EncodingIsInjective | cargo/src/frames.rs:122-143 | Two lists of frames with the same bytes are the same list |
| Chunked.SplitOnce | cargo/src/chunked.rs:70-150 | Decoding in two pushes agrees with one push |
| Chunked.SplitIndependence | cargo/src/chunked.rs:70-150 | However the bytes are split: errors on one side exactly when on the other, else the same output, mode and done flag |
| Chunked.RunStaysSane | cargo/src/chunked.rs:109-130 | A pending chunk always has bytes remaining, and an error leaves the decoder done |
| Chunked.DecodesEncoding | cargo/src/chunked.rs:70-150 | Decoding any encoding, with any extensions and trailers, gives the payload and done |
| Chunked.OnlyEncodingsDecode | cargo/src/chunked.rs:70-150 | Nothing but an encoding decodes to the end: accepted input consists of size lines, payloads of those sizes and a last chunk, and the output is the payloads |
| Chunked.GreedyOnPrefixes | cargo/src/chunked.rs:109-130 | After any prefix of an encoding every payload byte that has arrived is out, and the mode tells where the prefix stops |
| Chunked.CutEncodingInPieces | cargo/src/chunked.rs:70-177 | The same in any pieces, and closing there is refused exactly inside a size line or a payload |
| Chunked.PartialChunksExactly | cargo/src/chunked.rs:23-24 | Whatever pieces a cut encoding arrives in, the output is that of whole chunks exactly if the cut does not fall inside a chunk's payload |
| Chunked.PartialChunkIsEmitted | cargo/src/chunked.rs:109-130 | A chunk of three bytes whose first byte is handed out before the others have arrived |
| ChunkSizes.SizeOfIs | cargo/src/chunked.rs:86-98 | The size lines taken are exactly those that hold a number of 64 bits in hex digits of either case, with white space around it or not, a plus before it or not and an extension behind a semicolon or not, and they are taken for that number |
| ChunkSizes.RefusedExactly | cargo/src/chunked.rs:86-130 | In whatever pieces, bytes are refused exactly if whole chunks are followed by a line that announces no size or by a payload that does not end with CRLF |
| ChunkSizes.UpperCaseSize | cargo/src/chunked.rs:97 | Ten bytes under the size line "A" decode |
| Chunked.SizeLine | cargo/src/chunked.rs:88-98 | Hex digits with any extension are a size line for their value |
| Chunked.ChunkedDecoder.Push | cargo/src/chunked.rs:70-150 | The in-place loop computes the whole-buffer meaning: output, mode, buffer and error |
| Chunked.ChunkedDecoder.FeedEof | cargo/src/chunked.rs:157-177 | Which ends are acceptable, and what is left |
| StoreSpec.LogIsTheTable | cargo/src/admin.rs:354-365 | In every run of mutations folding the audit log gives exactly the ids, active flags and expiries; one event for each mutation; every row valid and at most 10,000 |
| StoreSpec.CommittedKeeps | cargo/src/admin.rs:255-301 | Every mutation keeps the store's invariant |
| StoreSpec.CommittedIs | cargo/src/admin.rs:246-301 | Which row each mutation writes, and that the log grows by one event with the number, time, operator, action, id and expiry of it |
| StoreSpec.ValidIdIs | cargo/src/admin.rs:376-388 | Valid ids are 1 to 63 lower-case ASCII letters, digits or hyphens, the first no hyphen |
| StoreSpec.ValidLabelIs | cargo/src/admin.rs:389-394 | Valid labels are 1 to 128 characters without controls |
| StoreSpec.PageIs | cargo/src/admin.rs:309-324 | A page is the next hundred events after a sequence number |
| StoreSpec.PagingVisitsOnce | cargo/src/admin.rs:303-329 | Paging by the last sequence number visits every event once and in order, with appends between pages |
| Store.CredentialIsLeft | cargo/src/admin.rs:468-474 | A failed registration whose output file stays, with nothing registered |
| Store.CrashSafe | cargo/src/admin.rs:278-280 | After a crash at any moment of an issuance, a committed new digest belongs to a credential readable from its file, and files synchronized before are intact |
| Store.Store.Register | cargo/src/admin.rs:213-222 | Succeeds exactly under its conditions; the row expires at now plus the time to live, and so says the event; success is the one mutation and the synchronized file, failure keeps the database and, exactly unless an output was created that cannot be removed, the files; every moment in between is sound |
| Store.Store.Rotate | cargo/src/admin.rs:225-227 | The same for an id that is registered |
| Store.Store.Issue | cargo/src/admin.rs:229-282 | The same for both, with the first failing point as a parameter |
| Store.Store.Plan | cargo/src/admin.rs:236-277 | The transaction up to its commit computes the mutation and writes nothing |
| Store.Store.Deliver | cargo/src/admin.rs:446-475 | The file is new, complete and synchronized, or nothing is left exactly if none was created or it could be removed; all moments are sound |
| Store.Store.Revoke | cargo/src/admin.rs:285-301 | Changes and logs exactly an active registration |
| Store.Store.Snapshot | cargo/src/admin.rs:168-210 | All rows once in order of id or nothing; never refused for a store that keeps its invariant |
| Store.Store.AuditPage | cargo/src/admin.rs:303-329 | The page after a sequence number that fits 63 bits |
| ControlPlane.Refresh | cargo/src/main.rs:274-293 | A good read is applied, any other clears everything; the streams of all sessions that are stopped are failed and no other is touched; a late result plays no role |
| ControlPlane.SnapshotIsTheTable | cargo/src/hub.rs:278-290 | A complete snapshot puts exactly the registrations in force |
| ControlPlane.SnapshotDecides | cargo/src/hub.rs:291-305 | After a snapshot the survivors are exactly the sessions whose id kept its digest and expiry and is active and unexpired; all others are closed and cancelled |
| ControlPlane.SnapshotReachesSessions | cargo/src/hub.rs:291-305 | Whatever the store committed since the table in force, an id that was rotated or revoked keeps no session |
| ControlPlane.FailsClosed | cargo/src/main.rs:282-291 | After a failed or timed-out read nothing is live, authorized or attached, whatever is tried before the next good one |
| ControlPlane.MoveKeeps | cargo/src/main.rs:274-294 | The registry always stands for a moment of the store's history no later than the one being read, or for nobody |
| ControlPlane.LiveMatchesStore | cargo/src/main.rs:274-294 | In every run an installed session was attached under the digest the store held for its id, as active, at the moment in force; with no such moment nobody is let in |
| ControlPlane.WithdrawalsReachSessions | cargo/src/main.rs:274-294 | In every run of store, refresh loop and hub, a snapshot applied has cancelled the sessions of all ids rotated or revoked between the moment in force and the moment read |

## Left out

- WebSocket, TLS, TCP, hyper and httparse: a link is a queue that may be cut, a response head is valid or not, and the bytes of heads play no role.
- Tokio: scheduling and wakers are the choice of the next step; bounded channels are sequences with a capacity and permits; a channel may answer "pending" at any time.
- Time: the clock is a parameter of each call; ticks, ping intervals, the lease deadline, heartbeats and redial back-off are not modelled (a lease that ends is a session that closes; a tether that has queued its GOAWAY may take further steps before it leaves).
- SHA-256 and randomness: the digest is injective, and a new credential is a parameter. That it is different from those the store holds is assumed only where a rotation must invalidate a session.
- SQLite: transactions are atomic; a commit that reports an error has not committed. File modes, owners, links and identities are one point that may fail.
- The text of errors, END reasons and log lines: an END reason is empty or not, decoding errors are too long, unknown or malformed.
- Snapshot validation of the digest's spelling: a digest is a value of its own here, so the test for 64 lower-case hexadecimal digits has nothing to refuse.
- TunnelCompletion.SessionFailedIsFinal: says nothing of a failed stream that may be completed by itself in a session whose hub writer has gone or that a frame on its way will end; there the frames in front of the stream's decide as well.
- Hub.Registry.ReplaceRecords: collects the sessions that do not survive before it stops the first, where the source does both in one walk under the same locks.
- Hub.Registry.ForwardAny: is one uninterrupted call, in which only the loss of a command queue's receiver may intervene; what other threads may do meanwhile is TunnelRuns.ReservationIsSafe.
- Sessions.StartForward: starts the upload as a task of the machine only; its sends are steps in Stream.
- Frontend.TunnelBody.PollNext: is a poll that nothing interrupts; the interleavings of its sections are the machine's.
- Frontend.SuccessIsTheEngines: takes the routing result and the head as inputs; the error for a broken caller body is absent, since forwarding never returns it.
- TetherLoop.TetherSession.HandleFrame: takes whether the writer has room as an input; timers are not re-armed.
- `status`, events and health answers, `is_chunked`, `reframe_head_for_tunnel`, header filters, the proxy mode and start-up: they would only add easy members.
- `Store::init`, `open` and `list`: initialization is the constructor, opening and schema checks are points that may fail, listing adds a label to each row.
