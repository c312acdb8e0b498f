# A verified model of the AnyTLS server

ngx_anytls is an nginx stream module: one authenticated byte stream from a client carries many
multiplexed TCP and UDP streams, with frame queues, budgets and back-pressure in both directions.
This project models its core as state machines and proves what every run of them keeps.

## How the model is built

* **One event at a time.** The program is single-threaded. A run is any sequence of events; bytes
  arrive in chunks of any size, a socket accepts any prefix of what it is offered, the resolver
  answers, fails, answers late or calls back at once. All of these are arguments of the events, so
  the theorems hold for every behaviour of the network.
* **Values and classes.** Transition functions on values (`Mux`, `Upstream`, `ClientInput`,
  `Fallback`, `UotStream`, `UotPending`, …) carry the theorems about runs. The classes
  (`StreamQueue`, `ClientReader`, `AuthBuffer`, `TempBuf`, `RelaySide`, `Opener`, `Reassembler`,
  `PendingQueue`, `Table`, `ClientMux`) do the work the way the program does, with loops over fields
  and buffers, and are proved against those functions. Queues of frames and of payload are linked
  lists with a pointer to the last node (`LinkedQueue`, `FrameLinks`, `UpstreamQueue`).
* **Histories.** States carry histories (bytes the socket took, payload accepted, datagrams done
  with) that the program does not store; they are what conservation is stated with.
* **Environment.** Allocation succeeds, and so does arming and disarming of events. A posted or armed
  event is a flag. SHA-256 is opaque: a user is a 32-byte hash. Reading a SETTINGS payload is a
  parameter of the session.
* **Resuming input.** The program calls the resume of client input from the read handler, from the
  accounting loop of an upstream writer, and from the discarding of a closed stream's payload, and
  the resumed frames may reach the same stream again before the outer batch is accounted for. Here
  resuming has its effect on the flags at once, and the frames it dispatches are later steps of the
  run, labelled with the caller (`Callers`). A refused frame ends the connection only for the read
  handler (`src/ngx_anytls_client_handler.c:322-327`); a writer closes its own stream
  (`src/ngx_anytls_upstream.c:653`, `src/ngx_anytls_upstream_mux.c:573-580`), a discard ignores the
  failure (`src/ngx_anytls_upstream.c:126`). In both of these reading, which the resume had enabled,
  stays disabled, and the stream whose frame was refused stays as the failure left it. `ClientInput`,
  `Session`, `FirstPsh`, `UpstreamRuns` and `UotStream` all follow this; `Serving` puts the session, the
  first frames and the upstream side together.

| module | source |
|---|---|
| `Bytes`, `Wrappers`, `StreamDecoder` | big-endian integers; what makes an incremental parser independent of cuts |
| `Protocol`, `SocksAddr` | `protocol.c`, `socksaddr.c`, datagram framing of `uot.c` |
| `Auth`, `Callers`, `ClientInput`, `InputLimits`, `Fallback` | `auth.c`, `client_handler.c`, `fallback.c` |
| `Session`, `FirstPsh`, `Serving` | `session_core.c`, `session_actions.c` |
| `StreamTable` | the table of `stream.c`, its size in `connection.c` |
| `Mux`, `MuxLists` … `MuxTheorems`, `MuxPressure`, `MuxHistory`, `MuxProgress`, `MuxLimits`, `ClientMux`, `FrameLinks` | `client_mux.c`, the reading side of `upstream_mux.c`, closing in `stream.c` |
| `Upstream`, `UpstreamInvariant`, `UpstreamRuns`, `UpstreamWakeups`, `UpstreamLimits`, `UpstreamQueue`, `LinkedQueue` | `upstream.c`, FIN handling of `upstream_mux.c` |
| `UotStream`, `UotPending` | `uot.c`, `resolver.c` |

## Where the code does not meet a natural expectation

Each of these is kept as the code has it, with the exact condition proved.

* An empty datagram of a connected UDP stream is announced with two bytes that are not sent. The
  client's framing holds if and only if no such datagram was written (`FramedIffNoEmptyDatagram`,
  `TruncatedIffEmptyDatagram`), and over a run if and only if none was queued (`RunIsCleanIff`, `ClientDecodes`);
  `EmptyDatagramBreaksFraming` is a run in which a FIN is swallowed by it. The comment
  at `src/ngx_anytls_uot.c:647-648` promises that empty datagrams reach the peer in the other
  direction; `src/ngx_anytls_uot.c:390-392` returns without sending them. The model follows the code:
  a datagram counts as handed over, and delivery is claimed for non-empty payloads only.
* A frame that is refused (a SYN for stream 0 or over max_streams, an illegal address, payload for a
  failing socket) makes the frame loop forget what is left over
  (`src/ngx_anytls_client_handler.c:112-116`). Inside a resume called by a writer or a discard the
  connection goes on, with these consequences:
  * the next bytes are decoded from the middle of a frame. Dispatch follows the client's bytes if and
    only if no such frame has bytes behind it (`RunIsFaithfulIff`); `PausesMatter` gives the bytes and
    plays them through the session: what the client gets depends on a pause;
  * payload that a socket failed on (`src/ngx_anytls_upstream.c:431-436`,
    `src/ngx_anytls_session_actions.c:162`) is neither written nor queued, while its stream lives on,
    and a later FIN shuts the socket down (`src/ngx_anytls_upstream_mux.c:112-114`). A stream's payload
    is conserved, and complete when its socket is shut down, if and only if that did not happen to it
    (`ConservedIff`, `ShutdownIsLast`, `PayloadIsLost`);
  * an illegal address leaves its stream waiting for another one
    (`src/ngx_anytls_session_actions.c:78`), so that bytes which are illegal as a whole may open it.
    Cuts of the address do not matter if and only if that did not happen (`CutsDoNotMatterIff`,
    `OpensAfterAll`);
  * a UoT stream sends datagrams again that precede a malformed one (`src/ngx_anytls_uot.c:667-681`),
    or cuts packets behind a hole after an overflow (`src/ngx_anytls_uot.c:108-111`). Its datagrams are
    those of its bytes if and only if neither happened (`SplitsDoNotMatterIff`, `SendsTwice`,
    `LeavesAHole`).
* Client input may stay disabled although nobody pauses it, in two ways.
  * A frame is refused in a resume called by a discard when nothing is queued
    (`src/ngx_anytls_upstream.c:126`). Writers that have something to write cannot change that; while no
    frame arrives, reading is enabled again if and only if something else calls the resume: another
    stream is closed or completes its close, a connection is established, or a socket without a backlog
    reports that it is writable (`RefusalStrands`, `ReadAgainIff`).
  * A stream loses its socket while its FIN has no place and keeps a backlog that nobody writes
    (`src/ngx_anytls_stream.c:239-244`, `src/ngx_anytls_upstream.c:527-536`). If that is more than half the
    limit, reading stays disabled as long as the stream is kept (`EndOfFileStrands`, `OverhangLasts`).

  In every reachable state that does not read, writers can make the client be read again if and only if
  one of them has something to write or is still being connected, and what nobody will write is at most
  half the limit (`WakeupIff`, `NoWakeupIsLost`).
* With an output limit smaller than one read and its header, an idle stream is blocked at once and
  stays blocked. A configuration never gets there if and only if the reads it permits fit
  (`NeverStuckIff`, `StuckForever`).
* The end of file of an upstream ends its stream if and only if fewer than 10000 frames are
  outstanding: a refused FIN leaves a connected record without a socket that keeps its place
  (`EofEndsIff`, `EofAtTheLimit`).
* The fallback replays everything the client sent if and only if no read exceeds 65536 bytes, that is
  for `anytls_buffer_size` up to 65536, or nobody is ever turned away (`LosslessIff`): the authentication buffer holds 65569 bytes,
  and 33 bytes followed by a larger read overrun it.
* A frame that names a stream without being one of PSH, FIN and SYNACK would unbalance the stream's
  frame counter (`ExactIffStrong`); no caller queues one.

## Model

| member | source | states |
|---|---|---|
| `MuxTheorems.RunInv` | src/ngx_anytls_client_mux.c:117-880 | the whole invariant (order, counters, list memberships, life cycle, wakeups; all zero after finalize) holds after every sequence of events |
| `MuxTheorems.StepInv` | src/ngx_anytls_client_mux.c:117-880 | every single event keeps that invariant, whatever prefix the socket takes |
| `MuxTheorems.AcceptedInOrder` | src/ngx_anytls_client_mux.c:249-272 | in every reachable state a stream's accepted frames are exactly written ++ being written ++ on the connection's queues ++ at the stream, in acceptance order, in spite of the fast path |
| `MuxTheorems.WireOrder` | src/ngx_anytls_client_mux.c:690-736 | on the wire a stream's SYNACK comes before everything else of it, nothing follows its FIN, and there is at most one of each |
| `MuxProgress.ClientDecodes` | src/ngx_anytls_client_mux.c:579-598 | after any run in which no empty datagram of a connected UDP stream was queued, decoding all the client has got yields exactly the completely written frames and an incomplete rest |
| `MuxProgress.RunIsCleanIff` | src/ngx_anytls_upstream_mux.c:487-523 | after a run all accepted frames have their encodings as bytes if and only if no event of it queued an empty datagram |
| `MuxTheorems.WrittenDecodes` | src/ngx_anytls_client_mux.c:579-598 | the same of any reachable state whose written frames are encoded |
| `MuxTheorems.WireVersusEncoding` | src/ngx_anytls_client_mux.c:546-558 | the bytes of a chain fall short of the encoded frames by two per empty datagram, and equal them without one |
| `MuxTheorems.FramedIffNoEmptyDatagram` | src/ngx_anytls_upstream_mux.c:487-490 | the bytes written are the encodings of the frames if and only if none stands for an empty datagram |
| `MuxTheorems.ExactAccounting` | src/ngx_anytls_client_mux.c:195-287 | pending_output and frames equal the total length and number over all queues, the latter at most 10000; active and UoT streams equal the live and counted records, at most max_streams and max_uot_streams |
| `MuxTheorems.ExactStreamAccounting` | src/ngx_anytls_client_mux.c:117-174 | queued_frames and pending_out of a stream equal its share and stay within 1024 + 2; it is on the ready list exactly when it holds frames |
| `MuxTheorems.ClosingHasFrames` | src/ngx_anytls_stream.c:263-377 | a closing stream has frames outstanding, a closed one has none |
| `MuxProgress.EndedForGood` | src/ngx_anytls_stream.c:263-377 | over every later run a stream that is ending accepts no frame, never has more of them outstanding, and is closed exactly when the last of them is written; closed is final, and active counts the streams that are not |
| `MuxProgress.EofEndsIff` | src/ngx_anytls_stream.c:226-249 | the end of file of a readable stream ends it if and only if fewer than 10000 frames are outstanding; otherwise it keeps its state and its place without a socket |
| `MuxProgress.RunGoes` | src/ngx_anytls_client_mux.c:117-880 | over every run each stream only moves on: what it accepted is only extended, what is scheduled is not taken back, its id stays, an ending stream stays ending and a closed one closed |
| `MuxHistory.StepGoes` | src/ngx_anytls_client_mux.c:117-880 | every event moves streams on in that sense |
| `MuxProgress.PayloadStaysWithinLimit` | src/ngx_anytls_upstream_mux.c:444-456 | in every state of every run the PSH bytes accepted and not completely written, over all streams and queues, are at most max_pending_output |
| `MuxTheorems.ReadStaysWithinLimit` | src/ngx_anytls_upstream_mux.c:444-456 | a PSH made of a read leaves pending_output within max_pending_output |
| `MuxTheorems.DatagramsStayWithinLimit` | src/ngx_anytls_uot.c:757-844 | so do the PSH frames of any number of packet-mode datagrams |
| `MuxTheorems.NoLostWakeup` | src/ngx_anytls_client_mux.c:662-764 | between events outstanding frames imply a posted write, or unsent bytes with the write event armed; pressure is on exactly while the socket holds bytes back |
| `MuxTheorems.BlockedMeansPending` | src/ngx_anytls_upstream_mux.c:798-854 | if one read fits the limit, a blocked reader implies pending output, and a drain that empties the output leaves nobody blocked |
| `MuxTheorems.FinalizeEnds` | src/ngx_anytls_connection.c:129-151 | finalizing closes every stream, leaves the active and UoT counters at zero, and pending_output and frames at exactly what the connection itself still holds |
| `MuxTheorems.FinalClose` | src/ngx_anytls_stream.c:328-377 | the close of a stream that still holds frames gives back exactly their charge: the clamps of that loop never act |
| `MuxMoves.NothingIsClamped` | src/ngx_anytls_client_mux.c:117-174 | the clamping branches of the frame handler are unreachable |
| `MuxMoves.DischargeCore` | src/ngx_anytls_client_mux.c:561-598 | retiring a written frame keeps counters and order exact |
| `MuxMoves.MoveOneCore` | src/ngx_anytls_client_mux.c:482-508 | moving a stream's head frame to the connection keeps counters and order exact |
| `MuxMoves.CloseStreamCore` | src/ngx_anytls_stream.c:263-377 | either kind of close keeps all counters and list memberships exact |
| `MuxInvariant.AcceptCore` | src/ngx_anytls_client_mux.c:195-287 | accepting a frame, on the fast path or not, keeps counters and order exact |
| `MuxRuns.ScheduleProgresses` | src/ngx_anytls_client_mux.c:447-543 | a schedule call adds at least one frame to the connection if any stream is ready |
| `MuxLimits.ScheduleIsMoves` | src/ngx_anytls_client_mux.c:447-543 | a schedule call is a chain of single moves, at most 32 of them |
| `MuxRuns.NothingToClose` | src/ngx_anytls_client_mux.c:775-795 | between events the closing list never holds a stream that could be closed already |
| `MuxRuns.ResumeEmpties` | src/ngx_anytls_upstream_mux.c:798-854 | with no output pending and a limit that fits a read, resuming unblocks every reader |
| `MuxRuns.DrainBetween` | src/ngx_anytls_client_mux.c:798-880 | a drain from any reachable state ends in a state with no lost wakeup |
| `MuxEvents.StreamStepOk` | src/ngx_anytls_upstream_mux.c:378-546 | every stream event (read, close, FIN, connect, UoT open and idle) keeps the invariant and posts a write for what it adds |
| `MuxProgress.Fairness` | src/ngx_anytls_client_mux.c:447-543 | as long as no UDP stream is on the ready list: the head frame of the stream with k others before it on that list is with the connection or written after any run, of whatever events, in which the socket was writable more than k times |
| `MuxLimits.RoundRobin` | src/ngx_anytls_client_mux.c:482-508 | without UDP streams on the ready list, the stream at position k has its head frame moved after exactly k other moves |
| `MuxHistory.DrainStill` | src/ngx_anytls_client_mux.c:798-880 | after its schedule call a drain sends no stream back on the ready list |
| `MuxLimits.ExactIffStrong` | src/ngx_anytls_client_mux.c:104-114 | a stream's frame counter stays exact if and only if the frame is PSH, FIN or SYNACK |
| `MuxLimits.SynackOnlyOnce` | src/ngx_anytls_client_mux.c:429-444 | a SYNACK is queued at most once and only for a peer of version 2 or more at that moment |
| `MuxLimits.NeverStuckIff` | src/ngx_anytls_upstream_mux.c:444-456 | over every run of a configuration a blocked reader implies pending output, if and only if a header and one read of every kind of stream it permits fit max_pending_output |
| `MuxLimits.StuckForever` | src/ngx_anytls_upstream_mux.c:798-854 | a blocked reader whose read does not fit stays blocked over every run in which it stays readable |
| `MuxLimits.TcpGetsStuck` | src/ngx_anytls_upstream_mux.c:444-456 | the failing run for a TCP stream: opened, connected, readable, and blocked with nothing pending |
| `MuxLimits.IdleResumesIff` | src/ngx_anytls_upstream_mux.c:798-854 | with nothing to write, all blocked readers are resumed if and only if one read of each fits the limit |
| `MuxLimits.TruncatedIffEmptyDatagram` | src/ngx_anytls_upstream_mux.c:487-523 | a read makes a frame whose bytes are not its encoding if and only if it is an empty connected datagram |
| `MuxLimits.EmptyDatagramBreaksFraming` | src/ngx_anytls_upstream_mux.c:487-490 | the failing run: open, empty datagram, idle end, drain; the client decodes one datagram of two other bytes and no FIN |
| `MuxLimits.EofAtTheLimit` | src/ngx_anytls_stream.c:239-244 | the failing run: 10000 frames outstanding, then end of file; the record stays connected, without a socket, and counted |
| `ClientMux.ClientMux.ScheduleStreamFrames` | src/ngx_anytls_client_mux.c:447-543 | the loop is the recursive schedule within its frame and byte budgets |
| `ClientMux.ClientMux.RecycleSentFrames` | src/ngx_anytls_client_mux.c:579-598 | the loop retires exactly the frames whose bytes are all taken |
| `ClientMux.ClientMux.UnchargeAll` | src/ngx_anytls_stream.c:328-348 | the loop gives back the bytes of every frame a closed stream still held |
| `ClientMux.ClientMux.DrainClosingStreams` | src/ngx_anytls_client_mux.c:775-795 | the loop over the closing list |
| `ClientMux.ClientMux.ProcessBlockedReads` | src/ngx_anytls_upstream_mux.c:798-854 | the loop unblocks readers from the front while there is room |
| `ClientMux.ClientMux.SuspendAllReads` | src/ngx_anytls_upstream_mux.c:611-642 | the loop moves every waiting reader to the blocked list |
| `ClientMux.ClientMux.ReadFrames` | src/ngx_anytls_upstream_mux.c:436-546 | the loop reads one stream until nothing, blocked, ended or out of budget |
| `ClientMux.ClientMux.DrainReadyReads` | src/ngx_anytls_upstream_mux.c:378-546 | the walk over readable streams within its budget, ending with the one that was last when taken |
| `ClientMux.ClientMux.ReadPackets` | src/ngx_anytls_uot.c:757-886 | the loop queues datagrams of a packet-mode stream until one does not fit |
| `LinkedQueue.Queue.Append` | src/ngx_anytls_upstream.c:485-488 | linking a node behind the last pointer appends to the sequence the nodes stand for |
| `LinkedQueue.Queue.Pop` | src/ngx_anytls_client_mux.c:487-495 | unlinking the head keeps the rest and the last pointer right, down to the empty queue |
| `FrameLinks.Relink` | src/ngx_anytls_client_mux.c:482-508 | a frame moves from one queue to the end of another by its pointers alone; no node is lost or shared |
| `FrameLinks.ChainFrames` | src/ngx_anytls_client_mux.c:690-724 | the two relinking loops leave control ++ data at the end of sending, their bytes in the chain, and both queues empty |
| `FrameLinks.RecycleSent` | src/ngx_anytls_client_mux.c:579-598 | the loop unlinks exactly the frames whose bytes are all taken |
| `UpstreamRuns.RunKeeps` | src/ngx_anytls_upstream.c:406-697 | the invariant of the upstream side holds after every sequence of events, on whose behalf frames are handled included |
| `UpstreamRuns.StepKeeps` | src/ngx_anytls_upstream.c:406-697 | every event keeps it, whatever the sockets accept or refuse: payload that fails ends the connection for the read handler, closes the resuming writer, and leaves its stream as it is for a writer and a discard |
| `UpstreamRuns.ConservedIff` | src/ngx_anytls_upstream.c:431-436 | over every run of a connection that lives, the bytes written upstream ++ the unsent part of pending_in are the payload dispatched for an open stream if and only if none of its payload failed in a resume called by a writer or a discard |
| `UpstreamRuns.TakenIsKept` | src/ngx_anytls_upstream.c:507-697 | in every run written ++ unsent are the payload the stream took, in order; after a close a prefix of it |
| `UpstreamRuns.StepAccepts` | src/ngx_anytls_stream.c:43-53 | exactly the dispatched PSH frames of an open stream add to its payload; what it takes of one is all, or on failure a prefix |
| `UpstreamRuns.ShutdownIsLast` | src/ngx_anytls_upstream_mux.c:92-126 | write shutdown happens at most once, with input closed and everything taken written; that is all the dispatched payload if and only if none was dropped; a half-closed stream is shut down exactly when its FIFO is empty |
| `UpstreamLimits.PayloadIsLost` | src/ngx_anytls_upstream_mux.c:573-580 | the failing run: payload handled on behalf of another stream's writer fails after one byte, and the FIN shuts the socket down with the rest missing |
| `UpstreamRuns.FlowControl` | src/ngx_anytls_upstream.c:47-127 | pending_input is the sum of pending_in_bytes and at most the limit + 65535, within the limit while not paused, positive while paused; blocked_input_streams is exact; a blocked stream holds more than half the limit; all zero after finalize |
| `UpstreamRuns.EmptyIsNotPaused` | src/ngx_anytls_client_handler.c:211-246 | once all FIFOs are empty input_paused is off and nobody is blocked |
| `UpstreamWakeups.WakeupIff` | src/ngx_anytls_upstream.c:69-93 | in every reachable state with reading disabled, progress of writers can enable it if and only if some stream has something to write or is still being connected, and what streams without sockets hold is at most half the limit |
| `UpstreamWakeups.RecoverableIff` | src/ngx_anytls_upstream.c:507-697 | the same from every state with the invariant |
| `UpstreamWakeups.NoWakeupIsLost` | src/ngx_anytls_upstream.c:69-127 | over every run without a refusal in a discard's resume when nothing is queued and without the end of file of a stream with a backlog, writers can always enable reading again |
| `UpstreamWakeups.OverhangLasts` | src/ngx_anytls_upstream.c:527-536 | while streams without sockets hold more than half the limit, disabled reading stays disabled over every later run that gives none of them up |
| `UpstreamWakeups.ReadAgainIff` | src/ngx_anytls_client_handler.c:211-246 | with nothing queued and while no frame of the client arrives, over every later run disabled reading is enabled again if and only if a stream is closed, completes its close or is connected, or an idle socket reports that it is writable |
| `UpstreamLimits.RefusalStrands` | src/ngx_anytls_upstream.c:95-127 | the failing run of a refused frame: nothing queued, not paused, and no writer can make the client be read again; over every later run without frames of the client it is read again exactly when something else calls the resume |
| `UpstreamLimits.EndOfFileStrands` | src/ngx_anytls_stream.c:226-249 | the failing run of a lost socket: input is paused, and over every later run that keeps the stream and the connection reading stays disabled |
| `UpstreamInvariant.SettleKeeps` | src/ngx_anytls_upstream.c:614-659 | accounting for any number of written bytes keeps bytes, order and counters |
| `UpstreamInvariant.SendKeeps` | src/ngx_anytls_upstream.c:507-697 | so does a whole send, and it leaves input unpaused if nothing is queued anywhere |
| `UpstreamInvariant.QueueKeeps` | src/ngx_anytls_upstream.c:406-505 | payload is neither overtaken nor repeated by the direct send, and limits trigger the pause |
| `UpstreamInvariant.FinKeeps` | src/ngx_anytls_upstream_mux.c:92-126 | a FIN half-closes at once or when the backlog is through, or closes |
| `UpstreamInvariant.CloseKeeps` | src/ngx_anytls_upstream.c:95-127 | discarding gives back exactly what the stream held |
| `UpstreamQueue.StreamQueue.SettleBytes` | src/ngx_anytls_upstream.c:614-659 | the loop that unlinks fully written buffers from the linked FIFO |
| `UpstreamQueue.StreamQueue.BuildChain` | src/ngx_anytls_upstream.c:546-589 | the loop follows the links and offers at most 64 buffers and at most the budget |
| `UpstreamQueue.StreamQueue.WriteBatches` | src/ngx_anytls_upstream.c:538-672 | batch after batch while each is taken whole |
| `UpstreamQueue.StreamQueue.SendNow` | src/ngx_anytls_upstream.c:431-457 | the direct send leaves a suffix of the payload |
| `ClientInput.RunIsFaithfulIff` | src/ngx_anytls_client_handler.c:26-135 | over every run of reads and resumes, at every moment the frames dispatched ++ those left over are the one-shot decoding of the authenticated bytes, and nothing decodable is left while input flows, if and only if no frame with bytes behind it is rejected in a resume called by a writer or a discard |
| `ClientInput.StepIsFaithfulIff` | src/ngx_anytls_client_handler.c:211-246 | one event keeps that order if and only if it drops no bytes |
| `InputLimits.PausesMatter` | src/ngx_anytls_upstream_mux.c:573-580 | the failing input, as bytes behind any handshake: with a limit that the payload fits the connection ends at the SYN for stream 0; with a smaller one it pauses, the same SYN is refused on behalf of a writer, bytes are lost and a frame is read that was not sent; all outcomes are those of the session and the upstream side |
| `InputLimits.HandshakeIsGranted` | src/ngx_anytls_auth.c:64-119 | for every list of users and every hash in it, the hash without padding is such a handshake |
| `Serving.RunKeeps` | src/ngx_anytls_session_actions.c:43-169 | whatever frames a client sends, on whose behalf they are handled and whatever sockets do, the upstream invariant holds: the session side meets what the theorems about upstream runs ask of the frames |
| `ClientInput.CutsAndPausesDoNotMatter` | src/ngx_anytls_client_handler.c:211-246 | two connections that received the same bytes, dropped none and are unblocked are in the same state |
| `ClientInput.DispatchIsDecode` | src/ngx_anytls_client_handler.c:81-126 | the frame loop dispatches the one-shot decoding up to where it stops |
| `ClientInput.ReadingState` | src/ngx_anytls_connection.c:47-56 | whenever a read may happen fewer than 65542 bytes are left over |
| `ClientInput.StepIsShort` | src/ngx_anytls_connection.c:47-56 | in every run, also after bytes were dropped, what is left over and a read fit the buffer |
| `ClientInput.ClientReader.Compact` | src/ngx_anytls_client_handler.c:128-132 | the leftover moves to the front of the buffer unchanged |
| `ClientInput.ClientReader.HandFrames` | src/ngx_anytls_client_handler.c:81-126 | the loop that parses, dispatches and stops at an incomplete, pausing, rejected or ending frame |
| `ClientInput.ClientReader.ProcessFrames` | src/ngx_anytls_client_handler.c:74-135 | frames dispatched and leftover compacted in one buffer |
| `ClientInput.ClientReader.Read` | src/ngx_anytls_client_handler.c:338-369 | one read behind the leftover, never past the end of the buffer |
| `ClientInput.ClientReader.OnReadable` | src/ngx_anytls_client_handler.c:333-396 | reads go on until nothing is left, input pauses, the session ends or the budget is used up |
| `ClientInput.ClientReader.ResumeInput` | src/ngx_anytls_client_handler.c:211-246 | what the pause left behind is decoded first; an error ends the connection only for the read handler |
| `Auth.AuthBuffer.Process` | src/ngx_anytls_auth.c:31-119 | for every chunking the verdict and the user are those of all bytes so far; exactly 34 + padding bytes are consumed on success; the buffer never overflows |
| `Auth.AuthBuffer.Scan` | src/ngx_anytls_auth.c:64-77 | the walk over all users finds the first match |
| `Auth.AuthBuffer.SameHash` | src/ngx_anytls_auth.c:17-28 | the comparison without early exit is equality |
| `Auth.AuthSettles` | src/ngx_anytls_auth.c:31-119 | more bytes never change a verdict |
| `Fallback.Transparent` | src/ngx_anytls_fallback.c:110-217 | with buffer_size up to 65536, over a whole connection the bytes delivered to the fallback are a prefix of header ++ everything the client sent since connect, and nothing is missing on the way |
| `Fallback.TransparentBack` | src/ngx_anytls_fallback.c:220-232 | what the client gets back is a prefix of what the server sent |
| `Fallback.RunConserves` | src/ngx_anytls_fallback.c:139-340 | taken in == delivered ++ replay ++ buffered after every run of reads and partial sends |
| `Fallback.LosslessIff` | src/ngx_anytls_auth.c:79-91 | with any users, nothing is lost before the replay for every client if and only if reads are at most 65536 bytes or every hash is somebody's |
| `Fallback.LargeReadLoses` | src/ngx_anytls_auth.c:79-91 | the failing input for any users: a hash that is nobody's and one byte, then 65537 |
| `Fallback.DroppedIff` | src/ngx_anytls_auth.c:79-91 | bytes are dropped exactly when held and read bytes exceed the buffer |
| `Fallback.FlushKeepsBytes` | src/ngx_anytls_fallback.c:358-412 | a flush splits the pending bytes into sent and unsent ones within the budget, and is done exactly when none is left |
| `Fallback.TempBuf.FlushTo` | src/ngx_anytls_fallback.c:358-412 | the send loop; an empty buffer is rewound, so a read always finds room |
| `Fallback.RelaySide.Write` | src/ngx_anytls_fallback.c:186-232 | replay first, relay buffer only when the replay is through |
| `Fallback.RelaySide.Read` | src/ngx_anytls_fallback.c:235-340 | read, send, read again within the budgets; nothing is read during the replay |
| `FirstPsh.CutsDoNotMatterIff` | src/ngx_anytls_session_actions.c:43-133 | for every cut of address ++ payload into PSH frames the address and the payload passed on are those of the uncut bytes, if and only if no illegal address was survived |
| `FirstPsh.OpensAfterAll` | src/ngx_anytls_session_actions.c:78-112 | the failing input: an illegal type octet met on behalf of a writer, then any address |
| `FirstPsh.PushIsParse` | src/ngx_anytls_session_actions.c:60-125 | one frame continues the one-shot reading; it is an error exactly for an illegal address type, so the full-buffer error is unreachable |
| `FirstPsh.AddressEndsLater` | src/ngx_anytls_session_actions.c:114-125 | the address ends in the frame that completes it, so the payload offset never falls back to 0 |
| `FirstPsh.Opener.OnPsh` | src/ngx_anytls_session_actions.c:51-132 | the accumulator in place: allocated once, appended to, given up when the address is complete |
| `Session.OpenedIff` | src/ngx_anytls_session_core.c:102-118 | over whole sessions, refused frames that do not end the connection included, a stream is opened exactly by a SYN for its nonzero id after a SETTINGS frame |
| `Session.SettingsInForce` | src/ngx_anytls_session_core.c:55-63 | the peer version is that of the latest SETTINGS, 1 without one |
| `Session.VersionTwoIsAnswered` | src/ngx_anytls_session_core.c:78-86 | SERVER_SETTINGS is sent exactly if some SETTINGS had version 2 or more |
| `Session.RequestsInOrder` | src/ngx_anytls_session_core.c:120-134 | payload and FIN of every stream are passed on completely and in the client's order |
| `StreamTable.Table.Find` | src/ngx_anytls_stream.c:65-85 | the probing loop returns exactly what the map has |
| `StreamTable.Table.FindFree` | src/ngx_anytls_stream.c:88-107 | a free slot is always found |
| `StreamTable.Table.Insert` | src/ngx_anytls_stream.c:88-142 | adds the entry to the map; never fails |
| `StreamTable.Table.Remove` | src/ngx_anytls_stream.c:145-160 | a tombstone removes exactly this entry from the map |
| `StreamTable.Table.CreateIfAbsent` | src/ngx_anytls_stream.c:177-207 | existing stream, new stream below the limit, or none |
| `StreamTable.InsertKeeps` | src/ngx_anytls_stream.c:88-107 | filling the first free slot on the way represents the extended map |
| `StreamTable.RemoveKeeps` | src/ngx_anytls_stream.c:145-160 | a tombstone cuts no other entry's probe sequence |
| `StreamTable.SearchGoesOn` | src/ngx_anytls_stream.c:65-85 | a search for a present id meets no empty slot and ends before a full round |
| `StreamTable.Roomy` | src/ngx_anytls_stream.c:88-107 | a table with more slots than entries has a slot without a stream |
| `StreamTable.RoundedIsLeast` | src/ngx_anytls_connection.c:71-84 | bit smearing yields the least power of two that is at least 64 and twice max_streams |
| `StreamTable.TableSizeIsDoubled` | src/ngx_anytls_connection.c:71-84 | as a number it is 64 doubled until it suffices |
| `StreamTable.DoubledIsTheSize` | src/ngx_anytls_connection.c:71-84 | which is the least such power of two |
| `StreamTable.MaskIsRemainder` | src/ngx_anytls_stream.c:65-107 | masking with a power of two less one is the remainder |
| `StreamTable.Table.First` | src/ngx_anytls_stream.c:71 | the masked id is the slot where its probes begin |
| `StreamTable.Table.Next` | src/ngx_anytls_stream.c:81 | the masked successor is the next slot of the round |
| `UotStream.SplitsDoNotMatterIff` | src/ngx_anytls_uot.c:575-685 | for every split and resolver behaviour, while a stream lives no byte of it is lost and the datagrams passed on in connect and packet mode are those of the bytes done with, if and only if it survived no overflow and no failure behind datagrams; then they are the first datagrams of the unsplit bytes, and all of them without a failure |
| `UotStream.SendsTwice` | src/ngx_anytls_uot.c:667-681 | the failing input of a malformed packet behind a good one: the good one is sent again |
| `UotStream.LeavesAHole` | src/ngx_anytls_uot.c:75-138 | the failing input of an overflow: packets are cut as if the lost frame had not been there |
| `UotStream.Reassembler.Append` | src/ngx_anytls_uot.c:75-138 | content becomes old ++ new; fails exactly beyond 65536, so the buffer never has to grow |
| `UotStream.Reassembler.Compact` | src/ngx_anytls_uot.c:98-106 | compaction keeps the content |
| `UotStream.CutDatagrams` | src/ngx_anytls_uot.c:637-678 | the loops extract the one-shot deframing of the buffer |
| `UotStream.Reassembler.OnPayload` | src/ngx_anytls_uot.c:575-685 | in place: append, request, resolve, datagrams |
| `UotStream.Reassembler.OnAnswer` | src/ngx_anytls_uot.c:687-697 | in place: the answer for a connect target releases the held bytes |
| `StreamDecoder.DecodeAppend` | src/ngx_anytls_client_handler.c:81-132 | decoding continues from the leftover |
| `StreamDecoder.CutItems` | src/ngx_anytls_uot.c:637-678 | the item loop is the one-shot decoding |
| `UotPending.EveryRun` | src/ngx_anytls_uot.c:148-219 | in every run, closes included: counters exact and within limits, per-target order of queued == done ++ waiting, a question open exactly while packets wait and about the head |
| `UotPending.AbandonKeeps` | src/ngx_anytls_uot.c:221-233 | a close drops every waiting packet, in order, and keeps the account of each target |
| `UotPending.RunKeeps` | src/ngx_anytls_uot.c:424-553 | the invariant behind it holds after every sequence of datagrams, answers and closes |
| `UotPending.FailureRemovesOneTarget` | src/ngx_anytls_uot.c:699-722 | a failed resolution removes exactly its target's packets and leaves the rest in order |
| `UotPending.FlushClears` | src/ngx_anytls_uot.c:464-509 | flushing hands over or drops exactly the target's packets, in order |
| `UotPending.DropClears` | src/ngx_anytls_uot.c:197-219 | dropping removes exactly the target's packets |
| `UotPending.PendingQueue.DropTarget` | src/ngx_anytls_uot.c:197-219 | the loop that edits the queue while walking it |
| `UotPending.PendingQueue.FlushTarget` | src/ngx_anytls_uot.c:464-509 | the loop that sends and unlinks |
| `UotPending.PendingQueue.ProcessPending` | src/ngx_anytls_uot.c:511-553 | terminates and equals the simple recursion even when the resolver calls back into it |
| `UotPending.PendingQueue.ResolveAddr` | src/ngx_anytls_resolver.c:35-99 | one question at a time; an answer during the call has been dealt with completely |
| `UotPending.PendingQueue.ResolveHandler` | src/ngx_anytls_resolver.c:153-198 | the answer empties the queue of its target and goes on with the next head |
| `UotPending.PendingQueue.ClearPending` | src/ngx_anytls_uot.c:221-233 | the loop that unlinks head after head |
| `Protocol.ParseFrameIsIncremental` | src/ngx_anytls_protocol.c:50-81 | the verdict on a frame never changes when more bytes arrive |
| `Protocol.EncodeThenParse` | src/ngx_anytls_protocol.c:50-95 | an encoded frame parses back to itself, whatever follows |
| `Protocol.ParseThenEncode` | src/ngx_anytls_protocol.c:50-95 | the bytes a parse takes are the encoding of the frame |
| `Protocol.DecodeOfEncoded` | src/ngx_anytls_protocol.c:50-95 | a stream of encoded frames and an incomplete one decodes to exactly those frames |
| `Protocol.PartialFrameWaits` | src/ngx_anytls_protocol.c:50-81 | a proper prefix of a frame is not a frame |
| `SocksAddr.AddrRoundTrip` | src/ngx_anytls_socksaddr.c:43-128 | every address parses back from its encoding (section 5 of RFC 1928) |
| `SocksAddr.ParsedAddrIsEncoded` | src/ngx_anytls_socksaddr.c:43-128 | only encoded addresses parse |
| `SocksAddr.PacketRoundTrip` | src/ngx_anytls_socksaddr.c:130-180 | every packet parses back from its encoding, consuming exactly its length |
| `SocksAddr.ParsePacketIsIncremental` | src/ngx_anytls_socksaddr.c:130-180 | the verdict on a packet never changes when more bytes arrive |
| `SocksAddr.ParsePacketInPlace` | src/ngx_anytls_socksaddr.c:130-180 | the parser that patches and restores the type byte gives the same verdict and leaves the buffer as it was |
| `SocksAddr.FrameDatagram` | src/ngx_anytls_uot.c:770-838 | header, length and frame header written before a received datagram are the encoded frame of the encoded packet |

## Left out

- TLS, sockets, epoll arming modes and timers: foreign calls; a send accepts any prefix, a read returns any chunk.
- `reject_plain_http.c`, `padding.c`, `variables.c`, `upstream_state.c`, logging, configuration merging: reporting or plumbing, easy members only.
- Reading a SETTINGS payload line by line, and address-to-text formatting: parameters.
- DNS and the PROXY header's contents: opaque values.
- Nested dispatch: frames dispatched by a resume inside the upstream writer's accounting loop are later steps (see above), so re-entering the writer of the same stream in the middle of a batch is not modelled.
- The second discard of a delayed close is an event that may happen to a closed stream at any time; that it happens once, with the last frame of the stream, belongs to the output side.
- The walk over writable streams is a sequence of Writable events of `UpstreamRuns`.
- The frame queues as linked lists (`FrameLinks`) and the connection's state (`ClientMux`) are two refinements; they are not put into one object.
- The buffer caches and free lists: recycling of memory has no effect on what is modelled.
- The output side and the upstream side of a stream are two machines; that one FIN or close is an event of both is not stated.
- `src/ngx_anytls_upstream.c:309-313` sets CONNECTING when the resolver reports a pending question, also on a record that an answer during the call has just closed; resolving a TCP target is not an event here, so "closed is final" does not cover it.
- An upstream that cannot be opened at once after the first PSH: a failure is an event of the stream.
- In `Serving` the table's answers and the sockets' results are parameters, and all targets are TCP.
- What a target's name asks for (`udp-over-tcp.arpa`): the mode is an argument of the opening event.
- A failing creation of the UDP socket ends the stream or drops queued packets; in `UotStream` it is not an event.
- Connecting to the fallback server: the relay's events begin once its socket is writable.
- An unauthenticated client without a configured fallback gets a fixed page and is disconnected; the page is not modelled.
- ParsePacketInPlace: the loop over packets (`UotStream.CutDatagrams`) calls the value it is proved equal to.
