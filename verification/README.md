# Models of the runtime's stateful cores

A Dafny project that models the concurrent and stateful parts of the runtime on which its delivery and
ownership promises rest, and proves those promises over every run.

- **Internode sessions** (`frames.dfy`, `link.dfy`, `protocol*.dfy`, `resend_ring.dfy`, `class_queue.dfy`,
  `draining.dfy`, `node_state.dfy`, `batches.dfy`, `session_chain.dfy`, `chain_effects.dfy`, `control_loop.dfy`,
  `symmetric_dial.dfy`, `loop_runs.dfy`, `wire.dfy`). `Protocol` is a transition system of two
  endpoints with any number of sessions and sockets: queueing, draining, writing, cutting a socket anywhere,
  RESUME, delivery, acks, session ends, removal and restart. `ProtocolInvariant`, `ProtocolSteps` and
  `ProtocolOrder` hold its invariants, `ProtocolTheorems` what follows, and `ProtocolEffects` what its steps do
  and what can always still be delivered. The buffers are classes that refine
  its queues and ring, and `Batches` shows that a drained batch is a run of it. `SessionChain` is the chain
  that orders end signals, `ControlLoops` and `SymmetricDial` decide which socket serves, `LoopRuns` joins a
  loop to the protocol, `Wire` is the frame format on a stream that may be cut.
- **Frame contexts** (`frame_*.dfy`): refcounted, pooled frames with generation-checked handles and borrowed
  execution values, and the lock-free writers with the seal that ends them. `FrameLifetime`, `FrameTheorems`
  and `FrameEffects` speak of every run; `FrameValues` and `FrameCarried` of values in runs whose callers do
  what they owe, with runs that show why; `FrameSeal` and `FrameProgress` of the writers and the seal.
- **Process event queue** (`retention*.dfy`, `event_queue.dfy`, `queue_*.dfy`): the double-buffered,
  generation-fenced queue and the ledger of topics, counters and leases behind it.
- **Pending socket operation** (`pending*.dfy`): one resource raced over by a worker, a
  taker, a closer and a cancellation hook.
- **Terminal images** (`image*.dfy`, `placement_runs.dfy`): a content-shared store with a
  budget, reservations in flight, and placements retained all together or not at all.
- **Range reader** (`range_reader.dfy`): a block cache that must agree with a direct read.

Where the source holds a lock, one section under it is one step, or one method of a class whose contract
equates the new state with a function of the old one. In `FrameSeal` each load, add, swap and
compare-and-swap is a step. Elsewhere a few atomic accesses make one step: the frame's reference acquire, its
decrement and a writer's entry; and in `Retention` admission's two counter loads and a lease's two debits. A
`Runs`/`Exec` pair then quantifies over every interleaving, `Reached` names the states of some run, and the
theorems speak of those. Beside what every step keeps, the modules named Effects say what each step brings
about without naming the function that computes it, and theorems that return a run say what can always still
happen. Fields called history in the comments record what happened and decide nothing.

`dafny verify dfyconfig.toml` covers all files.

## Findings

- A continuation that replaces a borrowed handle and sets it back borrows it again only if the handle is
  comparable (`api/context/framecontext.go:195-202`). `FrameCarried.SetBack` gives the exact condition and
  `FrameCarried.IncomparableHandleCloses` the run in which an incomparable handle is closed under its owner.
- A raised seal flag does not make a frame's snapshot final. `Seal` returns at once when the flag is up
  (`api/context/framecontext.go:226-229`), so a continuation can copy the frame while a writer that entered
  before is still inside (`api/context/framecontext.go:697-713`). If that writer then swaps a carried key, the
  parent no longer holds what the continuation borrowed, nobody owns it, and another frame may close it:
  `FrameCarried.LateWriterCloses` is that run. `FrameCarried.CarriedMatchesParent` and
  `FrameCarried.LateWriteBreaksMatch` give the exact condition, that no write is inside at the copy, and
  `FrameCarried.WaitedStaysFinal` shows that a Seal which itself waited provides it.
- Reusing a pooled frame zeroes its writer count (`api/context/framecontext.go:568`, `:654`, `:687`) whoever is still
  inside. A `Set` left over from an earlier use is then not counted, and its end takes one from the count of the
  next use. That hides the use's next writer from its Seal, or leaves the Seal waiting for good, since it waits for a count
  of exactly zero (`api/context/framecontext.go:232-234`). `FrameSeal.LeftoverBreaksSeal` and
  `FrameProgress.LeftoverBlocksSeal` give such runs from every start with a write inside, `FrameSeal.SealFixesIff` and
  `FrameProgress.SealReturnsIff` the exact condition: callers must end a write before they release its frame.
- `PendingOperation.Take` can report readiness with neither a resource nor an error: exactly when the winning Complete
  stored a resource and Close took it away although the operation was never started, since only the started path of
  Close records an error (`api/socket/pending.go:206-228`). `PendingRuns.SilentTake` states it and
  `PendingRuns.SilentTakeHappens` is the run.
- The comment on `PushMessage` says that after an overflow a topic's traffic is discarded until Reset
  (`api/process/queue.go:174-182`). The code also ends that when a terminal of the topic is drained
  (`api/process/queue.go:453-455`); the model follows the code. `QueueRuns.ResumesAfterDrain` is such a run, and
  `Retention.PassesIff` the exact condition.
- `ErrUnexpectedEOF` in `ReadAt` for a block shorter than the position asks (`api/cloudstorage/readerat.go:137-139`) is
  unreachable with any storage: the contract of `RangeReaders.RangeReaderAt.ReadAt` excludes it, because `fetch` refuses
  ranges of another length.

## Model

| member | source | states |
|---|---|---|
| `ProtocolTheorems.ExactlyOnce` | cluster/internode/connection.go:403-491 | over every run with any cuts, resumes, ends and restarts, what a session handed to its handler is frames 1, 2, 3, ... of the one peer session it is bound to, and its cursor counts them up to the one being handled |
| `ProtocolTheorems.NoMixing` | cluster/internode/session.go:407-438 | two sessions that both delivered from the same peer session are the same session |
| `ProtocolTheorems.NextIsExpected` | cluster/internode/connection.go:446-476 | behind an agreed RESUME every frame a reader meets is written by the session bound to it, carries an ack in range, and if sequenced is the exact successor: the duplicate and gap branches are never taken |
| `ProtocolTheorems.HandedByReads` | cluster/internode/connection.go:460-485 | the only step that hands a frame over is a read by the one connection serving the live session, and it hands exactly the frame numbered recvNext |
| `ProtocolTheorems.WireCountsFromCursor` | cluster/internode/connection.go:323-373 | the sequenced frames an end writes on a socket are numbered consecutively from the cursor the peer's RESUME announced there |
| `ProtocolTheorems.RingIsUnacknowledged` | cluster/internode/session.go:100-173 | a live session's ring holds exactly the frames acked..sendNext-1, in order, with the payloads drained under those numbers |
| `ProtocolTheorems.AckedWasHandled` | cluster/internode/session.go:442-457 | acked(A) <= recvNext(B) and, when B is bound to A, recvNext(B) <= sendNext(A); every trimmed frame is one the peer's handler returned from |
| `ProtocolTheorems.Conservation` | cluster/internode/state_manager.go:413-447 | each class's accepted payloads are, in order, those acknowledged, those in the ring and those queued; at the end of the session those drained and those dropped |
| `ProtocolTheorems.ClassFifo` | cluster/internode/state_manager.go:241-299 | what the peer delivered of a class is a prefix of what the session bound to it accepted for that class, so nothing accepted by another session is carried |
| `ProtocolTheorems.NoProtocolError` | cluster/internode/session.go:407-457 | if some ranking of the sockets grows along each side's adoptions, no reader of either side ever fails: no gap, no ack out of range, no foreign view, no stray frame |
| `ProtocolEffects.ResumeResets` | cluster/internode/session.go:407-417 | in every reachable state a RESUME from another peer session than the one the current session is bound to ends that session: its ring is empty, its sequenced queues are on record as dropped, gossip is carried over, and a new live session bound to nobody with all cursors at 1 is current; any other RESUME ends no session |
| `ProtocolEffects.ResumeDecides` | cluster/internode/session.go:419-438 | without such a reset, a RESUME is accepted if and only if it is for the current session, names it or none, and acknowledges within what was sent: the session is then bound, trimmed by the cursor and set to send the rest again; any other leaves every session alone, and the reader stops, waits for the peer's reset or fails as the reason says |
| `ProtocolEffects.FailureResets` | cluster/internode/session.go:313-325 | a protocol violation ends the session and a fresh one follows if it is still the current one, and ends nothing otherwise |
| `ProtocolEffects.ReplacementResets` | cluster/internode/session.go:202-222 | an ended session's ring and sequenced queues are discarded, all queues on a peer restart, and a fresh session follows it |
| `ProtocolEffects.LivesBeginAndEnd` | cluster/internode/state_manager.go:182-208 | a managed node begins with a fresh session; removing it ends nothing until the close of the detached state ends exactly its session with every queue |
| `ProtocolEffects.OthersEndNothing` | cluster/internode/session.go:202-222 | no other kind of step begins or ends a session or drops what is queued |
| `ProtocolEffects.EnqueueAccepts` | cluster/internode/state_manager.go:241-299 | what an attached node accepts joins the end of its session's queue for that class and nothing else moves |
| `ProtocolEffects.AcceptedCanBeDelivered` | cluster/internode/connection.go:323-491 | from every reachable state in which a socket links two live sessions, some run drains, writes, reads, handles and acknowledges until the peer has delivered everything sequenced that the session accepted, class by class in order |
| `ProtocolEffects.ReconnectDelivers` | cluster/internode/session.go:407-438 | from every reachable state in which the two sides' sessions are bound to each other or to nobody and no connection serves them, some run links them over a new socket and delivers all that either accepted |
| `ProtocolEffects.CutLosesNothing` | cluster/internode/session.go:407-438 | wherever a linking socket is cut, what was written behind the cut is gone from it, and still some run reconnects and delivers all that was accepted |
| `ProtocolEffects.ResetCanRelink` | cluster/internode/session.go:413-425 | whenever a session is bound to a peer session that is no longer the other side's, which is bound to nobody, some run ends it on the peer's RESUME and links a fresh session with the peer's, reader ready |
| `ProtocolEffects.PeerResetHappens` | cluster/internode/session.go:413-417 | the run from the start: two nodes link, one replaces its session, the other's session is ended by the new RESUME and its successor links with it |
| `ProtocolSteps.StepKeeps` | cluster/internode/connection.go:222-299 | every one of the nineteen kinds of step keeps the invariant that the theorems read off |
| `ProtocolSteps.ReadExpected` | cluster/internode/connection.go:446-476 | in any invariant state the frame about to be read is the expected one |
| `ProtocolOrder.ViewAgrees` | cluster/internode/session.go:419-425 | in same-order runs the RESUME of a bound peer names this session or none |
| `ProtocolOrder.AckNotBelow` | cluster/internode/session.go:426-431 | in same-order runs the cursor a RESUME carries is not below the ack already known |
| `ProtocolOrder.AckNotBeyond` | cluster/internode/session.go:426-431 | a RESUME that names this session or none never acknowledges more than was sent |
| `ProtocolOrder.StepOrd` | cluster/internode/session.go:407-438 | every step of a same-order run keeps the ordering invariant, in which no end has failed |
| `Links.TrimmedExact` | cluster/internode/session.go:136-157 | on a ring numbered consecutively from acked, trimming by an ack in range drops exactly ack - acked entries |
| `Links.AcknowledgeOk` | cluster/internode/session.go:442-457 | an ack in range keeps the ring consecutive from the new ack and within the window |
| `Links.TakeOk` | cluster/internode/state_manager.go:427-447 | draining a frame keeps the ring consecutive and its bytes within the window unless it holds a single frame; it happens only when nothing awaits retransmission |
| `ResendRings.ResendRing.constructor` | cluster/internode/session.go:109-114 | a new ring is empty |
| `ResendRings.ResendRing.Push` | cluster/internode/session.go:119-123 | appends one frame, counted as sent |
| `ResendRings.ResendRing.Next` | cluster/internode/session.go:126-133 | yields the oldest frame not yet taken by this connection, exactly when there is one |
| `ResendRings.ResendRing.Trim` | cluster/internode/session.go:136-157 | removes exactly the longest prefix numbered below the ack, keeps the sent mark on the same frame, and compacts so that dead slots stay few or a minority |
| `Frames.Compacted` | cluster/internode/session.go:150-155 | copying the live slots onto the dead ones front to back, source and target overlapping, and clearing the tail leaves exactly the live slots in order |
| `ResendRings.ResendRing.Rewind` | cluster/internode/session.go:160-160 | every frame waits for retransmission again, contents unchanged |
| `ResendRings.ResendRing.Reset` | cluster/internode/session.go:163-167 | empties the ring from any state |
| `ResendRings.ResendRing.Fits` | cluster/internode/session.go:171-173 | the byte counter answers as the sum over the entries would |
| `ClassQueues.ClassQueue.constructor` | cluster/internode/state_manager.go:54-59 | empty; a capacity of zero or less means unbounded |
| `ClassQueues.ClassQueue.PushNewest` | cluster/internode/state_manager.go:62-75 | appends to the FIFO, or refuses and keeps it when the bounded form is full |
| `ClassQueues.ClassQueue.Pop` | cluster/internode/state_manager.go:78-105 | both forms remove exactly the oldest payload, through wrap-around and compaction |
| `ClassQueues.ClassQueue.PeekLen` | cluster/internode/state_manager.go:108-113 | the length of the oldest payload, exactly when there is one |
| `ClassQueues.ClassQueue.Reset` | cluster/internode/state_manager.go:116-125 | empties the queue |
| `NodeStates.NodeState.constructor` | cluster/internode/state_manager.go:182-208 | fresh buffers and cursors; gossip is bounded by the configured capacity if that is positive, surface by 32, and no other class |
| `NodeStates.NodeState.Queue` | cluster/internode/state_manager.go:241-299 | accepts into the class queue, refuses if and only if the bounded queue is full or the surface frame oversized, and then changes nothing |
| `NodeStates.NodeState.TakeOne` | cluster/internode/state_manager.go:432-447 | takes one frame of a class exactly when the queue has one and, if sequenced, the window admits it |
| `NodeStates.NodeState.Retransmit` | cluster/internode/state_manager.go:423-430 | frames awaiting retransmission go out first, in order, until none is left or the batch is full |
| `NodeStates.NodeState.DrainClass` | cluster/internode/state_manager.go:448-454 | drains one class until it is refused or the batch is full, and refusals of other classes stay refusals |
| `NodeStates.NodeState.DrainApplication` | cluster/internode/state_manager.go:455-472 | surface and broadcast frames alternate unless the other class is refused; at most 32 surface frames per batch; stops only when both are refused |
| `NodeStates.NodeState.DrainSession` | cluster/internode/state_manager.go:413-472 | the batch replays to the new state frame by frame: retransmissions in order, then Raft control, Raft RPC and gossip, each only once the classes before it are refused, then alternating turns; a short batch means nothing more could go |
| `Draining.StaysRefused` | cluster/internode/state_manager.go:427-447 | taking a frame of one class never lets in a class that was refused |
| `Draining.PhasedPriority` | cluster/internode/state_manager.go:448-454 | Raft control goes before Raft RPC, that before gossip, that before the application classes, and a frame of any class is taken only when every class before it could not be served at that point |
| `NodeStates.NodeState.ApplyAck` | cluster/internode/session.go:442-457 | acknowledges exactly the acks in range, and reports window space freed if and only if the ring shrank |
| `NodeStates.NodeState.Resume` | cluster/internode/session.go:426-438 | the accepting branch trims by the peer's cursor and schedules the rest for replay; otherwise nothing changes |
| `NodeStates.NodeState.EndSession` | cluster/internode/session.go:202-222 | discards the ring and the sequenced queues, or all of them, counts what it discarded, and starts the cursors over |
| `Batches.BatchIsRun` | cluster/internode/connection.go:343-356 | a drained batch is a run of the protocol's drain steps, one per frame, that leaves the connection and the session as the batch does |
| `Batches.BatchNumbers` | cluster/internode/state_manager.go:423-447 | the numbers a batch carries count on from where the ring's sent mark stood |
| `Batches.ReplayOk` | cluster/internode/state_manager.go:413-447 | a whole batch keeps the ring consecutive and within the window |
| `SessionChain.StepKeeps` | cluster/internode/session.go:202-350 | every step keeps the invariant of the end chain |
| `SessionChain.EndsFenceDelivery` | cluster/internode/session.go:248-290 | in every interleaving ends are signalled in creation order, each at most once; nothing of a session is delivered after its end signal and nothing of a later session before it |
| `SessionChain.NoEndSkipped` | cluster/internode/session.go:60-76 | the k-th end signal is the k-th session's, so none is skipped |
| `SessionChain.NeverStuck` | cluster/internode/session.go:248-290 | before shutdown the earliest unsettled session is live on the attached state, awaits its detached owner's close, is held by its own reader, or a step of its signal is enabled now |
| `SessionChain.AttachedIsLive` | cluster/internode/session.go:194-222 | an attached state always holds a live session |
| `SessionChain.ChainDrains` | cluster/internode/session.go:226-290 | from any state before shutdown, settling steps alone settle every session but the attached live one |
| `SessionChain.AllEndsCanSettle` | cluster/internode/manager.go:503-549 | once the node is gone every end of its sessions can still be signalled |
| `SessionChain.SilentAfterStop` | cluster/internode/state_manager.go:169-177 | no end is signalled after shutdown |
| `ChainEffects.EndsExactly` | cluster/internode/session.go:202-222 | over every run a session ends exactly by the replacement on its attached state or the close of the detached state that holds it, once and for good, and is to be signalled exactly when it has ended and its reader is out |
| `ChainEffects.BeginsExactly` | cluster/internode/session.go:60-76 | exactly the creation, the replacement and the departure without state begin a session, at the end of the chain, waiting for the one before it unless all are settled; the first two give the attached state a live session, the third adds an end that is only to be signalled |
| `ChainEffects.EndIsSignalled` | cluster/internode/session.go:226-290 | from every reachable state before shutdown, settling steps alone lead to the signal of any session that has ended |
| `ChainEffects.AttachedCanDeliver` | cluster/internode/session.go:301-337 | from every reachable state before shutdown the attached state's session can come to deliver once the earlier ends are settled |
| `ControlLoops.ControlLoop.constructor` | cluster/internode/manager.go:738-761 | a loop starts with neither connection nor successor |
| `ControlLoops.ControlLoop.AdoptConn` | cluster/internode/manager.go:888-909 | starts the one run of the connection, or closes it when the state is gone |
| `ControlLoops.ControlLoop.HandleConnected` | cluster/internode/manager.go:820-880 | the candidate is held, and not closed, if and only if it is wanted as ControlLoops.CandidateIsKeptIff says; the connection it is to succeed is closed; a run starts only when no connection is held, and every connection seen is held or closed |
| `ControlLoops.ControlLoop.HandleDisconnected` | cluster/internode/manager.go:911-958 | only the end of the serving connection changes anything; on an attached state the successor then becomes the connection and its run starts, only then |
| `ControlLoops.CandidateIsKeptIff` | cluster/internode/manager.go:820-880 | a new candidate is held, and not closed, if and only if it is authorized, not rejected, and either nothing is held and the state is attached, or the peer restarted or it is preferred over an unpreferred current one; when it waits, what was held is closed; otherwise it alone is closed and the loop stays |
| `ControlLoops.SuccessorTakesOver` | cluster/internode/manager.go:911-958 | only the end of the serving connection changes the loop; it is closed and the connection that waited becomes the serving one and starts, or is closed when the state is gone |
| `ControlLoops.OneRun` | cluster/internode/manager.go:871-879 | whatever the loop handled, at most one run is live and it serves the held connection |
| `LoopRuns.StartsAreAdoptions` | cluster/internode/manager.go:888-909 | in every run of a loop together with the two-endpoint protocol, whenever a handler starts a connection run no other run serves the side's session and the protocol's adoption of that socket is enabled |
| `LoopRuns.StepKeeps` | cluster/internode/manager.go:820-958 | handlers, run ends, reports, session replacements, removal and re-creation of the node keep every live run on the current session one of the loop's |
| `LoopRuns.RestartedPeerIsServed` | cluster/internode/manager.go:847-858 | in every reachable state of loop and protocol a restarted peer's connection becomes the successor whatever was held, and once the old run has ended and reported on an attached state it serves the side's current session |
| `LoopRuns.SuccessorServes` | cluster/internode/manager.go:911-958 | once the old run has ended, its report on an attached state lets the connection that waited serve the current session |
| `LoopRuns.FirstServes` | cluster/internode/manager.go:820-846 | an authorized connection that arrives while none is held on an attached state serves the current session at once |
| `SymmetricDial.Converges` | cluster/internode/manager.go:820-958 | with one socket dialed by each side and any order of arrivals, run ends and reports, at most 24 steps happen and then both loops hold the socket the lower node dialed, the other being closed |
| `Wire.DecodeEncode` | cluster/internode/connection.go:532-534 | little-endian integers that fit their field decode to themselves |
| `Wire.EncodeDecode` | cluster/internode/connection.go:559-562 | every field is the encoding of the number it decodes to |
| `Wire.RoundTrip` | cluster/internode/connection.go:524-593 | a written frame is read back exactly, with what follows it, if and only if it obeys the header rules; otherwise the reader reports a violation |
| `Wire.ReadIsWritten` | cluster/internode/connection.go:548-593 | whatever the reader accepts is byte for byte what the writer produces for that frame |
| `Wire.ReadIff` | cluster/internode/connection.go:562-581 | class by class: an ack frame has neither payload nor number, a resume frame eight bytes and a number, gossip no number, the other four classes a number, surface frames at most 512 KiB; a frame is read if and only if it is whole, of this version, obeys its class's rule and the size limit, and each broken rule is reported as the one it is |
| `Wire.CutFrame` | cluster/internode/connection.go:548-593 | a frame cut short anywhere reads as an ended stream, never as another frame or a violation |
| `Wire.CutDeliversPrefix` | cluster/internode/connection.go:391-398 | a stream cut anywhere yields exactly the frames written whole before the cut |
| `Wire.WriteFrame` | cluster/internode/connection.go:524-544 | fills the header in place and yields the encoding, or nothing when the payload is too long |
| `FrameLifetime.StepKeeps` | api/context/framecontext.go:504-731 | every step of forking, sealing, copying, writing, releasing and reclaiming, whatever callers set, keeps the references, the parents and the writes in order |
| `FrameTheorems.CountsReferences` | api/context/framecontext.go:504-585 | in every run, whatever values are set, a frame's refcount is its unreleased owner plus the frames that hold it; it is positive exactly while the frame is in use, and every child's parent is still the incarnation it was forked from |
| `FrameTheorems.ResolvesWhileLive` | api/context/framecontext.go:249-260 | a handle resolves exactly while the use it was made for lasts |
| `FrameTheorems.StaleForever` | api/context/framecontext.go:249-260 | a handle that stopped resolving never resolves again, whatever the object is reused for |
| `FrameTheorems.ReclaimedOnce` | api/context/framecontext.go:524-585 | no incarnation closes its values twice or completes twice, and it never closes after completing |
| `FrameTheorems.PooledWasReclaimed` | api/context/framecontext.go:547-585 | an object is back in the pool only after its last use was closed and completed |
| `FrameTheorems.ChildBeforeParent` | api/context/framecontext.go:571-582 | a child's closers and then its completion run before its parent's closers |
| `FrameEffects.CopyInherits` | api/context/framecontext.go:700-722 | in every reachable heap a fork holds a key if and only if the parent holds it and it is inheritable, or it is an execution key and the fork continues; its value is the parent's, lent, in the continuing execution case, and otherwise its own, the clone if there is one and else the parent's |
| `FrameEffects.ForkAcquires` | api/context/framecontext.go:675-692 | a fork is a new frame under a generation not used before; it takes one reference on its parent if and only if the handle still resolves, and is a root otherwise |
| `FrameEffects.ValuesChangeExactly` | api/context/framecontext.go:138-202 | in every reachable heap and for every step, a frame's value under a key changes exactly when its use begins or its values are closed, which leave nothing, when it copies its parent, and by a write to that key; a written value is the frame's own unless it is the comparable handle borrowed there |
| `FrameEffects.FlagChangesExactly` | api/context/framecontext.go:226-235 | in every reachable heap and for every step, a frame's flag is up exactly if a seal or a fork of it raises it, or it was up and the frame is neither closed nor used anew |
| `FrameEffects.ClosesExactly` | api/context/framecontext.go:547-569 | in every reachable heap and for every step, what is closed is what was, and what a reclaimed frame owns under exclusive keys |
| `FrameEffects.WriteBegins` | api/context/framecontext.go:116-130 | a write may begin if and only if the handle's use lasts, the frame is published and its flag is down, and is counted until it ends |
| `FrameEffects.ReleaseReclaimsIff` | api/context/framecontext.go:524-545 | in every reachable heap releasing a frame begins its reclaim, and stops its handles, if and only if no child is left |
| `FrameEffects.ReclaimCompletes` | api/context/framecontext.go:547-585 | from every reachable heap a reclaim that has begun can run to the pool: values closed, then completion, then the parent let go |
| `FrameValues.StepKeepsValues` | api/context/framecontext.go:116-202 | every step of callers that do what they owe keeps each exclusive value with one owner, each borrowed value what the parent holds, and the writer count the writes inside |
| `FrameCarried.BorrowedStaysOpen` | api/context/framecontext.go:433-480 | along any chain of continuations and any release order, a borrowed value is open while a continuation carries it |
| `FrameCarried.CarriedMatchesParent` | api/context/framecontext.go:702-713 | what a continuation borrowed is what its parent, in use, sealed and without a write inside, holds under that key, in every run where no write is inside the parent when a continuation copies it |
| `FrameCarried.LateWriteBreaksMatch` | api/context/framecontext.go:696-713 | the other half: in every reachable heap, a write inside the parent when the continuation copies breaks that match as soon as it swaps a carried key |
| `FrameCarried.LateWriterCloses` | api/context/framecontext.go:226-229 | the run: a second caller continues a frame whose Seal is still waiting for a writer, the writer swaps the carried key, and a third frame closes the handle under the continuation |
| `FrameCarried.WaitedStaysFinal` | api/context/framecontext.go:226-235 | after a Seal that found the writers gone, no write is inside the frame and its snapshot stays the same for as long as that use lasts, so a continuation that follows owes nothing more |
| `FrameCarried.ReclaimKeepsBorrowed` | api/context/framecontext.go:547-585 | reclaiming any frame closes nothing that any continuation borrowed, its own included |
| `FrameCarried.ClosedOnce` | api/context/framecontext.go:547-569 | a reclaim closes only values that are still open |
| `FrameCarried.Lender` | api/context/framecontext.go:702-725 | a borrowed value is owned by a frame up the chain that is in use |
| `FrameCarried.SetBack` | api/context/framecontext.go:192-202 | whatever replaced a borrowed handle, setting it back leaves it open at the reclaim if and only if the handle is comparable; no other key changes |
| `FrameCarried.IncomparableHandleCloses` | api/context/framecontext.go:192-202 | the run that shows the other half: setting back an incomparable handle and releasing the continuation closes it under the root that owns it |
| `FrameSeal.StepKeeps` | api/context/framecontext.go:116-235 | every atomic step of writers and sealers keeps the snapshot and the commit history in step, and the writer count with the writes inside if it was |
| `FrameSeal.SnapshotFixedAfterSeal` | api/context/framecontext.go:226-235 | in a use that began with no write of an earlier one inside, once the use's own seal call that flipped the flag has returned, no interleaving changes the snapshot |
| `FrameSeal.LeftoverBreaksSeal` | api/context/framecontext.go:564-568 | the other half: from every start of a use with a write of an earlier one still inside, some run lets the use's Seal return and the snapshot change afterwards, because reuse zeroes the writer count |
| `FrameSeal.SealFixesIff` | api/context/framecontext.go:226-235 | the seal fixes the snapshot in every run of a use if and only if the use began with no write of an earlier one inside |
| `FrameSeal.SnapshotIsSuccessfulCalls` | api/context/framecontext.go:138-190 | whatever is left of earlier uses, the snapshot is the calls that succeeded in this use, each once, merged in commit order; failed calls leave no trace |
| `FrameSeal.NoLostUpdate` | api/context/framecontext.go:138-162 | what a successful call stored under a key is there until a later successful call stores under that key |
| `FrameProgress.LoneCallSucceeds` | api/context/framecontext.go:138-190 | on a frame that is not sealed a call left alone returns with success, every key it names holding its last value for it and every other key what it held |
| `FrameProgress.SealedCallFails` | api/context/framecontext.go:116-130 | a call begun on a sealed frame never commits in any interleaving: if it returns, it failed |
| `FrameProgress.SealCanReturn` | api/context/framecontext.go:226-235 | in a use that began with no write inside, a Seal that waits can return from every reachable state, whatever the writers are doing |
| `FrameProgress.LeftoverBlocksSeal` | api/context/framecontext.go:226-235 | the other half: from every start of a use with a write of an earlier one still inside, some run lets the use's Seal wait in such a state that no continuation ever returns it, because the count stays below zero |
| `FrameProgress.SealReturnsIff` | api/context/framecontext.go:226-235 | a use's Seal that waits can always return if and only if the use began with no write of an earlier one inside |
| `Retention.StepKeeps` | api/process/queue.go:238-388 | loads, decisions, takes, releases, drops and retirements in any order keep the books |
| `Retention.CountersAreLeases` | api/process/queue.go:53-83 | each incarnation's counters are the sums over its unreleased leases, never negative, and it has emitted one overflow terminal exactly when it overflowed |
| `Retention.AdmissionsStayWithin` | api/process/queue.go:322-355 | every admission leaves its topic within the limits then in force, although leases may be released between the load and the add |
| `Retention.LimitsOnlyShrink` | api/process/queue.go:270-299 | a topic's positive limit never grows and never exceeds a positive limit a message asked for |
| `Retention.RetiredLeasesSpareReplacement` | api/process/queue.go:46-59 | once a topic is retired, alone by its terminal or with all others by Close and Reset, releasing a lease of its past incarnation changes no current topic's counters, after any later run |
| `Retention.OverflowEmitsTerminal` | api/process/queue.go:369-388 | the overflowing message is replaced by one terminal without data, and the incarnation is dead |
| `Retention.SilentUntilRetired` | api/process/queue.go:301-304 | after an overflow nothing of the topic passes, neither data nor a second terminal, until the topic is retired |
| `Retention.PassesIff` | api/process/queue.go:301-359 | in every reachable ledger a message that fits its limits passes with its payloads if and only if its topic's current incarnation has not overflowed; otherwise nothing passes in its place |
| `Retention.TakenOnce` | api/relay/relay.go:115-124 | a take hands out a lease nobody has taken or released, and no message holds it afterwards |
| `Retention.ReleaseMessageOk` | api/relay/pool.go:37-54 | releasing a message releases the lease nobody took, and the books stay in order |
| `Retention.SetLeaseOk` | api/relay/relay.go:102-110 | attaching a lease releases the one it replaces; the counters rise by no more than the new lease |
| `RetentionEffects.LimitsInForce` | api/process/queue.go:267-299 | loading a message puts the least positive limits of its topic and itself in force, opens the topic exactly when it is new and the message bounded, and reads that topic's counters |
| `RetentionEffects.AdmissionCharges` | api/process/queue.go:337-355 | an admitted data message raises the topic's items by one under an item limit and its bytes by the message's size, the whole budget without one, under a byte limit, less what a lease it replaces gave back, on a new lease that becomes the message's own |
| `RetentionEffects.RefusedIff` | api/process/queue.go:301-337 | in every reachable ledger a data message is refused if and only if its topic has overflowed or one more of its size would exceed a limit; then it has no lease, one it had is released, and the refusal that overflows the topic passes on exactly one new terminal message; otherwise it passes with the limits in force and the size charged |
| `RetentionEffects.ControlPasses` | api/process/queue.go:306-318 | in every reachable ledger a message without data passes with the limits in force and changes no books, unless its topic has overflowed |
| `RetentionEffects.LeasesChangeExactly` | api/process/queue.go:71-83 | in every reachable ledger and for every step, a lease is released exactly by its own release, by the drop of its message, and by a decision that refuses its message or gives it another lease in a bounded topic; it is taken exactly by a take of its message; nothing else of it changes |
| `RetentionEffects.CountersChangeExactly` | api/process/queue.go:337-355 | in every reachable ledger and for every step, an incarnation's counters rise by what an admission charges to it and fall by what a lease released for the first time gives back, and by nothing else, so messages without data are free |
| `RetentionEffects.MessageGivesBack` | api/relay/pool.go:37-54 | releasing a message releases the lease it still has, with its charge, and no other |
| `EventQueues.DrainsArePrefix` | api/process/queue.go:440-464 | over every run, what Drain returned within a generation is a prefix, in order, of what was accepted; while open, drained and pending together are all of it |
| `EventQueues.StaleSendersShutOut` | api/process/queue.go:500-518 | after a Reset no sender bound before it gets anything in, and nothing it sent is in the queue |
| `QueueEffects.AcceptedIsReported` | api/process/queue.go:122-236 | over every run what a generation has accepted is exactly the list, in order and with their senders' generations, of the events that Push, PushMessage and PushDirect reported as accepted; while the queue is open it is what was drained followed by what is pending |
| `QueueEffects.ClosedTakesNothing` | api/process/queue.go:480-497 | from Close to the next Reset the queue stays closed and no push is accepted |
| `QueueEffects.ClearingGivesBack` | api/process/queue.go:480-535 | Close and Reset leave nothing pending and no topic in force and release the leases of exactly the messages that were pending, so one already drained keeps its lease |
| `QueueEffects.DrainKeepsLeases` | api/process/queue.go:440-464 | a drain hands everything pending over with its leases and retires exactly the topics whose terminal it carries |
| `QueueEffects.PackageGivesBack` | api/relay/pool.go:58-73 | releasing a package releases the lease of every message it holds and of no other |
| `QueueEffects.RefusedDirectGivesBack` | api/process/queue.go:419-435 | a direct push refused by a closed queue changes nothing but the leases of its own package, which are released |
| `QueueEffects.NilsStay` | api/process/queue.go:261-265 | compacting a package keeps its empty entries |
| `EventQueues.OpKeeps` | api/process/queue.go:122-535 | every operation, and every acquiring, taking and releasing of messages and leases around it, keeps the order, the generation fence and the books |
| `EventQueues.UnboundedPasses` | api/process/queue.go:246-257 | the shortcut agrees with the full admission: without topics, unbounded messages pass unchanged |
| `EventQueues.AdmissionIsRun` | api/process/queue.go:238-360 | admitting a package is a run of the ledger's load and decide steps, and passes what they pass |
| `QueueRuns.BooksAreReached` | api/process/queue.go:238-388 | along every run of queue operations, messages and leases the books are those of a reached ledger, so what every ledger run keeps holds of the queue |
| `QueueRuns.QueueCounters` | api/process/queue.go:53-83 | in every queue run each topic incarnation's counters are the sums over its unreleased leases, and it has emitted one terminal exactly when it overflowed |
| `QueueRuns.ResumesAfterDrain` | api/process/queue.go:174-182 | the run in which a topic overflows, its terminal is drained and the topic's next message is accepted with its data, in the same generation and without Reset |
| `EventQueues.RetiredIff` | api/process/queue.go:536-551 | a batch retires exactly the topics whose terminal it carries |
| `EventQueues.EventQueue.constructor` | api/process/queue.go:100-108 | an open, empty queue of generation 1 |
| `EventQueues.EventQueue.Append` | api/process/queue.go:141-141 | appends in place or into a larger buffer, and never writes the batch on loan |
| `EventQueues.EventQueue.Push` | api/process/queue.go:122-148 | accepts if and only if the generation matches, the queue is open and the policy admits; then exactly the admitted event joins the end of what is pending and of what was accepted, and otherwise nothing changes; the batch on loan is unchanged |
| `EventQueues.EventQueue.PushMessage` | api/process/queue.go:196-236 | rejects, changing nothing, if and only if the generation is stale, the queue closed or the policy refuses; drops if and only if admission leaves nothing of a package; otherwise the event, its package compacted, joins the end of what is pending and accepted; the batch on loan is unchanged |
| `EventQueues.EventQueue.PushDirect` | api/process/queue.go:419-435 | accepts unless closed: then the event joins the end of what is pending and accepted; a closed queue releases the package's leases and changes nothing else |
| `EventQueues.EventQueue.AdmitPackage` | api/process/queue.go:238-360 | the loop and its shortcut compute the admission of the whole package |
| `EventQueues.EventQueue.AnyBounded` | api/process/queue.go:247-253 | tells whether some message carries a limit |
| `EventQueues.EventQueue.AcquireMessage` | api/relay/pool.go:32-34 | a message object without a lease, new to the books or back from the pool |
| `EventQueues.EventQueue.TakeRetentionLease` | api/relay/relay.go:115-124 | hands over what the message held: a lease nobody has released, marked as taken |
| `EventQueues.EventQueue.ReleaseTaken` | api/process/queue.go:71-83 | a consumer's taken lease is released, once |
| `EventQueues.EventQueue.ReleaseHandedOver` | api/relay/pool.go:58-73 | a package handed over, dropped or rejected gives back the leases nobody took; the queue is otherwise unchanged |
| `EventQueues.EventQueue.ReleaseAll` | api/relay/pool.go:58-73 | the loop releases the lease of every message nobody consumed |
| `EventQueues.EventQueue.RetireTopics` | api/process/queue.go:536-551 | the loop retires exactly the topics that end in the event |
| `EventQueues.EventQueue.Drain` | api/process/queue.go:440-464 | returns exactly the pending events, which join what was delivered, and swaps the buffers; only the previous batch's buffer is written |
| `EventQueues.EventQueue.DiscardPending` | api/process/queue.go:522-535 | undelivered events give back their leases and topics, and the batch on loan is unchanged |
| `EventQueues.EventQueue.Close` | api/process/queue.go:480-497 | closes, discards what is pending, clears the accounting and leaves the batch on loan as it is |
| `EventQueues.EventQueue.Reset` | api/process/queue.go:500-518 | opens the next generation empty and without policy, and leaves the batch on loan as it is |
| `PendingOperations.PendingOperation.constructor` | api/socket/pending.go:37-42 | an idle operation |
| `PendingOperations.PendingOperation.Start` | api/socket/pending.go:46-60 | starts at most once and never after Close |
| `PendingOperations.PendingOperation.Record` | api/socket/pending.go:73-98 | the first call wins: it keeps its failure, else the context's error, else ErrClosed on a closed operation, else stores its resource or keeps ErrNoResult; what is not stored is handed back to be closed; a later call changes nothing |
| `PendingOperations.PendingOperation.Take` | api/socket/pending.go:138-184 | transfers the stored resource once, unless the operation was closed, canceled or its hook is running |
| `PendingOperations.PendingOperation.CloseUnstarted` | api/socket/pending.go:206-219 | completes an operation nobody finishes and withdraws what is stored |
| `PendingOperations.PendingOperation.CloseStarted` | api/socket/pending.go:223-229 | withdraws what is stored and stops the hook or learns that it runs |
| `PendingOperations.PendingOperation.OnParentCancel` | api/socket/pending.go:239-246 | the hook withdraws what is stored and records why |
| `PendingRuns.StepKeeps` | api/socket/pending.go:46-312 | every section, in any interleaving, keeps each resource in exactly one place |
| `PendingRuns.AtMostOneOwner` | api/socket/pending.go:67-105 | no resource is both transferred and closed, closed twice or transferred twice |
| `PendingRuns.ExactlyOneOwner` | api/socket/pending.go:195-234 | once every Complete and the Close have returned, each resource given was closed or transferred, exactly once |
| `PendingRuns.SignalledOnce` | api/socket/pending.go:309-312 | the channels are closed at most once, exactly when the operation is complete |
| `PendingRuns.QuietAfterClose` | api/socket/pending.go:187-234 | after Close has returned nothing is transferred and nothing is stored any more |
| `PendingRuns.TransferIff` | api/socket/pending.go:133-184 | in every reachable state a Take transfers if and only if it is the first of a complete operation that holds a resource, is neither closed nor canceled before or during the call, and whose hook has not begun |
| `PendingRuns.TakenStaysTaken` | api/socket/pending.go:143-146 | once a Take was ready, every later one reports ErrAlreadyTaken, after any run |
| `PendingRuns.ClosedBeforeReady` | api/socket/pending.go:62-66 | while a rejected resource of the winning Complete is still to be closed, the operation is not ready |
| `PendingRuns.SilentTake` | api/socket/pending.go:147-152 | in every reachable state the first Take of a complete operation reports neither a resource nor an error if and only if the winning Complete stored a resource and Close took it away although nobody had started the operation |
| `PendingRuns.SilentTakeHappens` | api/socket/pending.go:206-219 | the run: Complete stores a resource, Close without Start closes it, and Take reports ready with nothing |
| `PendingOutcomes.TakeReports` | api/socket/pending.go:73-98 | in every reachable state the first Take of a complete operation reports the outcome of the Complete that won, whatever happened since: its failure, else the context's error, else the close, else ErrNoResult if it stored nothing; a stored resource is the one transferred or closed, and only a close or a cancellation takes it away; if none won, the close |
| `PendingOutcomes.UndisturbedReports` | api/socket/pending.go:86-98 | an operation nobody closed and whose context has not ended reports exactly the worker's failure, ErrNoResult or the worker's resource |
| `PendingOutcomes.TakeSettles` | api/socket/pending.go:153-184 | the first Take of an operation that holds a resource transfers it, or closes it if the context ends during the call, unless it was closed or canceled by then or the hook has begun, when it leaves it to them |
| `PendingOutcomes.CancelCloses` | api/socket/pending.go:239-246 | from every reachable state in which the hook has fired while a resource is stored, the hook closes it once, nothing is transferred and the reason is left |
| `PendingOutcomes.CanFinish` | api/socket/pending.go:187-234 | from every reachable state in which the worker has called Complete, some run makes the operation ready and lets Close return: no interleaving leaves either waiting for good |
| `Images.StepKeeps` | api/tty/image.go:71-222 | every section of imports, retains and closes keeps the invariant |
| `Images.UsedIsAccounted` | api/tty/image.go:71-166 | in every reachable store, used is the charges of resident images plus the reservations in flight, and at most the limit |
| `Images.ResidentWhileOpen` | api/tty/image.go:178-222 | an image's count is the number of its open handles, and it is resident exactly while that is positive |
| `Images.ContentIsShared` | api/tty/image.go:78-82 | no two resident images have the same content |
| `Images.ImportYieldsContent` | api/tty/image.go:142-166 | a finished import yields a handle to exactly the bytes imported, new or shared, and gives back its reservation when shared |
| `Images.ImageCharge` | api/tty/image.go:106-108 | the charge exceeds the encoded size and is at most the largest image's, so sums of two stay far below 64 bits |
| `ImageStores.PlaceableIff` | api/tty/image.go:259-288 | the scan finds no failure if and only if every item is well placed on an open image and no two share an id |
| `ImageStores.CloseManyUndoes` | api/tty/image.go:291-295 | closing the handles just retained restores every count |
| `ImageStores.ImageStore.constructor` | api/tty/image.go:65-67 | an empty store; a negative budget counts as zero |
| `ImageStores.ImageStore.Admit` | api/tty/image.go:77-92 | shares resident content, reserves the charge, or refuses a closed store or an exceeded budget |
| `ImageStores.ImageStore.Reserve` | api/tty/image.go:118-128 | reserves the charge exactly when it fits an open store |
| `ImageStores.ImageStore.FinishImport` | api/tty/image.go:152-166 | turns a reservation into an entry, into a shared handle, or back |
| `ImageStores.ImageStore.ImportPNG` | api/tty/image.go:71-94 | succeeds if and only if the bytes inspect, the store is open, and they are resident or fit the budget and decode; a closed store and an exceeded budget are reported exactly then; on every error the store is as before; on success the new handle shows the bytes given, charged unless shared |
| `ImageStores.ImageStore.ImportPNGReader` | api/tty/image.go:113-140 | succeeds if and only if the declaration is valid, the store is open, the charge fits, and the bytes read are what was declared and decode; each other error is reported exactly when it applies first; on every error the store is as before |
| `ImageStores.ImageStore.Retain` | api/tty/image.go:178-188 | one more handle to the same image, open, or nothing when closed |
| `ImageStores.ImageStore.Close` | api/tty/image.go:206-222 | one handle fewer; the last one takes the entry and its charge out |
| `ImageStores.ImageStore.ClosePlacements` | api/tty/image.go:291-295 | closes each handle in turn |
| `ImageStores.ImageStore.RetainItem` | api/tty/image.go:259-287 | retains one item, or says why not and gives back what it retained |
| `ImageStores.ImageStore.RetainPlacements` | api/tty/image.go:251-290 | called alone, retains every placement with a handle of its own, or returns the first failure and leaves every count, entry and charge as it was |
| `ImageEffects.InspectIff` | api/tty/image.go:95-105 | content is accepted as an image if and only if it is neither empty nor over 8 MiB and its header names positive sides with at most 4 Mi pixels |
| `ImageEffects.ChargeIsMemory` | api/tty/image.go:106-108 | in every reachable store each image is charged its encoded bytes plus eight for each pixel |
| `ImageEffects.HandlesExactly` | api/tty/image.go:71-222 | in every reachable store and for every section, a handle is made, one, exactly by a retain of an open one, an admission of resident content and a finished import on an open store, and shows that content; any other stays open until its own close and shows what it showed |
| `ImageEffects.UsedExactly` | api/tty/image.go:71-222 | in every reachable store and for every section, what is used rises by an import's bytes and eight for each pixel exactly when that fits an open store, and falls by as much when the import fails, finds the store closed or its content resident, or the last handle to the content is closed |
| `ImageEffects.CloseFrees` | api/tty/image.go:206-222 | in every reachable store closing a handle closes it and no other, and its content leaves the store and its charge is given back if and only if no other handle to it is open |
| `ImageEffects.ViewportOkIff` | api/tty/service.go:21-27 | a destination is accepted exactly when both sides are positive, within the dimension limit, and its cells within the cell limit |
| `ImageEffects.ShowsPixels` | api/tty/image.go:262-285 | a retained placement names its image and shows the pixels of its source rectangle, and without one exactly the pixels of the image; without a kind it is a rect; the rest is as given |
| `ImageEffects.InsideIff` | api/tty/image.go:281-284 | a source rectangle is accepted exactly when it shows something and nothing outside the image |
| `ImageEffects.AcceptedIff` | api/tty/image.go:251-288 | in every reachable store a list of placements is accepted if and only if there are at most 256, no two of the same name, and each has a name of 1 to 128, a description of at most 256, no kind or rect, a destination within the dimension and cell limits, and shows part of an open image or all of it |
| `PlacementRuns.StepKeeps` | api/tty/image.go:251-295 | every step of any number of such calls, interleaved with imports, retains and closes, keeps their handles apart, open while held and closed once given up |
| `PlacementRuns.FailedHoldsNothing` | api/tty/image.go:259-274 | after a failed call, whatever came between its items, every handle it made is closed and each image's count is that of the handles of others |
| `PlacementRuns.KeptHoldsEach` | api/tty/image.go:272-289 | when a call succeeds it has made exactly one handle per item, distinct and open, each showing its item's image, with the placement resolved against that image; each image's count is that of the handles of others plus one for every item that shows it |
| `PlacementRuns.FailureIsBlamed` | api/tty/image.go:255-284 | a reported failure is true of the items: too many, a resource closed by then, or the first item that is misplaced, duplicated or outside its image |
| `PlacementRuns.AlwaysReturns` | api/tty/image.go:261-295 | a call can always go on and returns after finitely many steps of its own, whatever interleaves |
| `RangeReaders.RangeReaderAt.Sizes` | api/cloudstorage/readerat.go:66-84 | an option that is not positive means the default and one too large the maximum; the capacity is what was asked for or the most blocks that fit 256 MiB |
| `RangeReaders.RangeReaderAt.constructor` | api/cloudstorage/readerat.go:59-97 | an open reader with an empty cache, its block size and capacity as the options choose them |
| `RangeReaders.RangeReaderAt.Close` | api/cloudstorage/readerat.go:103-110 | drops the cache and cancels |
| `RangeReaders.RangeReaderAt.Fetch` | api/cloudstorage/readerat.go:185-211 | with any storage a fetched block has exactly the length asked for, and with honest storage the object's bytes; a failure is the storage's |
| `RangeReaders.RangeReaderAt.Find` | api/cloudstorage/readerat.go:157-162 | finds the cached block, exactly when there is one |
| `RangeReaders.RangeReaderAt.LeastUsed` | api/cloudstorage/readerat.go:174-179 | finds the smallest stamp |
| `RangeReaders.RangeReaderAt.GetBlock` | api/cloudstorage/readerat.go:145-183 | yields a block of the right length, the object's if the storage is honest; the cached indices move as a least-recently-used list does; a failure changes no block |
| `RangeReaders.OldestIsFirst` | api/cloudstorage/readerat.go:174-180 | the block with the smallest stamp is the least recently used one |
| `RangeReaders.HitStamped` | api/cloudstorage/readerat.go:156-162 | stamping a cached block makes it the most recently used and keeps the rest in order |
| `RangeReaders.EvictStamped` | api/cloudstorage/readerat.go:174-180 | replacing the smallest stamp evicts exactly the least recently used index and keeps indices distinct |
| `RangeReaders.RangeReaderAt.CacheWithinLimit` | api/cloudstorage/readerat.go:22-28 | cached bytes never exceed MaxReaderCacheBytes |
| `RangeReaders.RangeReaderAt.ReadSome` | api/cloudstorage/readerat.go:124-140 | one turn of the loop extends the prefix read by at least one byte, or fails and leaves the buffer as it was |
| `RangeReaders.RangeReaderAt.ReadAt` | api/cloudstorage/readerat.go:112-143 | for any access history and any storage, without a failure the read is complete and reports the end exactly when it is met, and a block never ends early; with honest storage the buffer's front is exactly the object's slice; the rest of the buffer is untouched; a closed or canceled reader reads nothing and says so; failures are only the reader's closing, the context's end or the storage's refusal |

## Left out

- Sockets, TLS, deadlines, dialing, backoff and listeners: a socket is two FIFO directions that can be cut anywhere.
- `DisconnectFromNode` and the loop's kill command: the one-run argument of the control loop does not cover them.
- Handshake, key resolution and peer authorisation: a handshake yields a connection and a binding outcome.
- Message codecs, telemetry, logging, metrics, gossip membership, Raft transport, boot wiring and configuration.
- 64-bit wrap-around of sequence numbers, generations, incarnations and use stamps: they are unbounded numbers.
- Random session identifiers: they are positions in creation order, so two sessions never share one.
- Retry timers and addresses of the control loop: they decide when the next dial happens, not what the loop holds.
- The no-op of queueing nil data, and class bytes that name no class: the class type has only the five classes.
- ClassQueues.ClassQueue.Pop: the buffer is a sequence that is reassigned slot by slot, because the same field grows by append in the unbounded form; sharing of a backing array between slices is not modelled.
- ResendRings.ResendRing.Trim: like the class queue, the buffer is a sequence; compaction is the overlapping front-to-back copy within it.
- SessionChain.EndsFenceDelivery: takes at most one live reader per session as given; LoopRuns.StartsAreAdoptions proves that of the control loop.
- Instruction-level interleaving inside the frame's reference acquire, its decrement and a writer's entry: each is one atomic step here; `FrameSeal` takes the entry apart.
- FrameCarried.BorrowedStaysOpen: covers Execution keys that are not also Inherit, since a value that ordinary forks copy by reference without Clone can be closed by any of them (`api/context/framecontext.go:715-720`); and callers that store a handle under one key, only while it is open and no other frame owns it, end a write before its frame is reclaimed, and have no write inside a frame while a continuation copies it. The same holds of FrameValues.StepKeepsValues and the other theorems of FrameCarried that speak of `OwedReached` heaps.
- Re-entry through a handle that stopped resolving between its check and the write: such a write counts as one of the use it enters.
- Continuations of frame implementations other than the pooled one (`api/context/framecontext.go:453-479`).
- FrameSeal.SnapshotFixedAfterSeal: speaks of the seal call that flips the flag, since a second concurrent caller returns without waiting for writers; and of uses that began with no write of an earlier one inside, which FrameSeal.SealFixesIff shows to be necessary.
- A package that holds the same message object twice.
- EventQueues.OpKeeps: takes and releases come between whole admissions there; Retention.StepKeeps lets them come between an admission's load and its decision.
- EventQueues.EventQueue.Append: the growth factor of a full buffer is this model's own.
- The wake-up channel of the event queue, yield completion and the scheduler.
- PendingOperation calls on a nil receiver, Ready and Notify. Complete's second section and Close's first are single field updates and appear as steps of PendingRuns only.
- PNG decoding and SHA-256: the codec is a pair of arbitrary functions and the content stands for its identity.
- Captures, viewports and image reads: they add only calls of what is modelled.
- ImageStores.ImageStore.RetainPlacements: all images belong to one store, and no other call comes between its items; PlacementRuns covers the interleaved call.
- PlacementRuns.StepKeeps: the handles a call makes are its own until it returns, as local variables are; nobody else closes them before.
- String lengths in placements count characters, not bytes.
- RangeReaders.RangeReaderAt.ReadAt: other calls between its blocks are not part of the method; GetBlock's contract holds in every valid state, so they could only add a failure. Its bytes are the object's when the storage answers each range with them.
- Entity tags: an object that changes under the reader is storage that is not honest.
