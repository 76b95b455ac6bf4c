# Verified model of the XrdClCurl transfer engine

XrdClCurl is an XRootD client plugin that serves files over HTTP with libcurl. This project models its
transfer engine in Dafny, together with the director cache of the XrdClPelican plugin, and proves what
the engine promises over every run: no byte lost or reordered, every handler called exactly once, slots
conserved, caches that agree with their history. The project is written for Dafny 4.11 and described by
`dfyconfig.toml`.

| component | files | what is proved |
|---|---|---|
| Prefetch chain and handler slot | `PrefetchProtocol`, `PrefetchInvariant`, `PrefetchSteps`, `PrefetchTransfer`, `PrefetchWorker`, `PrefetchChain`, `PrefetchTheorems` | for every interleaving of reads, responses, worker steps and file destruction: one acyclic chain, no dangling pointer but in three places, no lost wake-up, each read told exactly once, and every chunk true |
| Undisturbed reading | `PrefetchUndisturbed` | in a run without failure, close or destruction every read is completed in full by the shared transfer, until one is answered short at the end of the range |
| Live buffers | `PrefetchBuffers`, `PrefetchDangling` | which races make a copy go to the buffer of a read that was told already, that nothing else does, and that they do, with runs |
| Tearing a chain down | `PrefetchLog`, `PrefetchRuns`, `PrefetchTeardown`, `PrefetchDestroy` | exactly when a waiting read is told success without data, with a run, and what decides it when the file is destroyed; a run that reads from a destroyed file |
| Closing a paused prefetch | `PrefetchLost`, `PrefetchCancel`, `PrefetchClose`, `PrefetchCloseRuns` | exactly when CancelPrefetch can lose or misinform a read, with runs; that a lost read is never told; and that otherwise every read and the cancellation handler are told |
| Read operation | `ReadStream`, `ReadOperation` | bytes accepted = bytes delivered ++ client buffer ++ overflow, and every reader answered in order, in full but at the end, over every run |
| Vector read | `Lines`, `ContentRange`, `Multipart`, `MultipartBody`, `VectorRead` | the incremental multipart parser equals an automaton over single bytes, so no cut matters; a tiled body fills every covered chunk with the object's bytes |
| Tag scheduler | `Scheduler`, `SchedulerRun`, `TagScheduler` | counters are the operations they count, caps hold, wake-ups suffice, dispatch is FIFO per tag, exactly when it is work-conserving, and exactly on which draws each tag is served |
| Upload | `PutPipeline`, `PutTheorems` | the body is the accepted writes in order, one write at a time, each handler called once and in order |
| Director cache | `PathTrie`, `DirectorCache` | the expiring trie answers as a flat list of Puts does, by longest live prefix |
| Supporting state | `HandlerQueue`, `FakeDns`, `Statistics` | queue order and pipe bytes, three consistent address tables, telescoping times |

## How the model is built

Code that several threads run together (prefetching, uploading, the scheduler with its completion hooks)
is a state machine: each locked section, atomic store, load, exchange, queue operation and libcurl
callback is one step, and the theorems quantify over all schedules of such steps. Objects that one
thread updates in place are classes (`CurlReadOp`, `CurlVectorReadOp`, `TagScheduler`, `HandlerQueue`,
`Resolver`, `Operation`, `Cache`); their methods are proved against functions or ghost histories, and the
lemmas are about those. Bytes are `char`, offsets and sizes are unbounded integers, time is an integer
and the load averages are reals.

Assumptions about libcurl: it calls the write and read callbacks and completes a transfer only while the
transfer is not paused; data refused with the pause code is offered again unchanged; the server sends the
object's bytes of the requested range; an upload completes well only after libcurl has taken all the data
it was given.

In the prefetch protocol the flag that says "paused" and libcurl's own state are two fields, because the
source changes them one after the other, and `curl_easy_pause` may call the write callback before it
returns. `Pause` is three steps: the flag, the exchange of the slot, and the look at the client buffer.
`ResubmitOperation` is three steps per node: the look for the file under the lock, the `Read` after
unlocking, and stepping on. A load of the slot that is followed by an exchange is one step with it,
since nothing is decided between the two. The reads and writes of the client buffer's fields within one
delivery or one installation are one step: `Ownership` and `Crew` prove that nobody else touches them
then, and where somebody can, `Exposed` holds. A failure of the transfer ends it in the step in which the
worker starts to fail the operation; an overdue entry of the continue queue, and a continuation that
cannot be queued, fail the operation and leave libcurl as it is.

The invariant of the prefetch protocol carries a witness (the chain, the thread that holds its head, the
thread inside `Continue`, and the place of every accepted read). `Good` is the type of states with a
valid witness; a lemma that takes a `Good` and returns a `Good` proves that its step keeps the invariant.

## Results about the code that a reader might not expect

- When a chain is torn down, the walk hands every waiting read the status of the response that tore it
  down, if it finds the file destroyed (XrdClCurlFile.cc:1407, 1441-1443). That status may be a success:
  `HollowExactly` proves that a read is told success with no data if and only if the walk reaches it after
  the file was destroyed, in a chain torn down by a successful response. `HollowRun` is such a run; it
  cancels before it detaches, as the destructor does. `AliveTellsWell`: without a destroyed file there is
  none.
- `DestroyedWell`: if at the destruction of the file no live handler has a successor and nobody walks a chain
  after a success, no continuation tells anybody so; `DestroyedHollow`: if a successful response is about
  to be processed and a read waits behind it, some continuation does.
- The walk unlocks before it calls `Read` on the file it found (XrdClCurlFile.cc:1434-1436), and that file may
  be destroyed in between; `GoneFileRun` is such a run.
- `Continue` stores the handler and only then copies the overflow into the caller's buffer
  (XrdClCurlOpRead.cc:74-84). A failure on the worker can take and call the handler in between, and the
  copy then goes to a buffer whose owner was told. `BuffersLive` proves that no copy of `Continue` does so
  unless a failure overtakes a store, `OvertakenDangles` that every such failure can lead there when there
  are bytes to copy; `OvertakenRun` is a run. After a close it is the canceller's own freed handler:
  `CloseCopiesExactly` proves that a close which exposes no read can do this if and only if there is
  overflow when the lock is taken, and `CloseCopiesRun` is such a close.
- Expiry of the continue queue unpauses a stalled transfer and then fails it if it is overdue
  (XrdClCurlUtil.cc:745-751, 797), which leaves the client buffer installed. `BuffersLive` proves that the
  write callback copies to the buffer of a told read only after that, `LoosedDangles` that it can whenever
  the buffer has room and the server has more to send; `LoosedRun` is a run.
- `NeverDangles` proves that these three are the only dangling pointers, and `ScheduleIsLegal` that without
  those races every schedule runs to its end.
- `CancelPrefetch` decides under the lock to wake a paused operation, and only after unlocking stores its
  own handler and buffer, with plain stores (XrdClCurlFile.cc:258-282, XrdClCurlOpRead.cc:74-77).
  `CancelHarmsExactly`: some schedule then loses or misinforms a read if and only if, when the lock is
  taken, the operation is unfinished and flagged as paused, and a read's handler is in the slot, about to
  be stored there, or taken out of it with the client buffer not yet looked at. `CloseInPause` loses the
  only read of a file, `CloseInDelivery` tells it success with zero bytes, `CloseOnSecondRead` loses a
  later read, and in `CloseInResponse` nothing can go wrong. `LostForever` proves that a lost read is told
  in no continuation; `ClosedWell` that from every other paused state all ends well.
- An operation whose scheduler tag is the empty string can be drawn and taken for "nothing to do":
  `WorkConserving` proves that dispatch serves some eligible tag for every draw if and only if the
  nameless tag is not eligible.
- Only 32 candidates are recorded, so an eligible tag can be drawn if and only if it is among the first 32
  eligible ones in table order (`DrawableExactly`).
- An empty write in the middle of an upload ends the body (`EarlyEnd` is such a run): the complete body is
  everything accepted if and only if every write after the first later empty one is empty
  (`EndIsAllExactly`).
- Sweeping the director cache by itself changes later answers if and only if the root is expired and has a
  URL of its own (`ExpireTransparent`). But a Put below an entry that a sweep has forgotten brings the
  entry back without its URL (`SweepSeen`); against the whole history of Puts the sweeps are invisible
  when no event does that (`SweepsUnseen`), and `StoreSeenExactly` and `SweepSeenExactly` say per
  event exactly when the next lookups have the same prefixes to answer from.

## Model

| member | source | states |
|---|---|---|
| PrefetchTheorems.Reachable | src/XrdClCurl/XrdClCurlFile.cc:816-910 | the whole protocol invariant (structure, control, data, history) holds after every legal schedule, for every object |
| PrefetchTheorems.Keeps | src/XrdClCurl/XrdClCurlFile.cc:1317-1397 | every single step of every thread keeps the invariant |
| PrefetchBuffers.ScheduleIsLegal | src/XrdClCurl/XrdClCurlFile.cc:816-910 | a schedule whose steps are merely possible never meets a dangling pointer, as long as the file is not destroyed under a walker that is about to read from it, no failure overtakes a store before its copy, and no overdue transfer is unpaused before it is failed; so the legal runs are all runs but for those races |
| PrefetchBuffers.BuffersLive | src/XrdClCurl/XrdClCurlOpRead.cc:74-89 | over every run: Continue copies to the buffer of a read told already only if some failure took a handler between its store and its copy; the write callback only if an overdue transfer was unpaused before it was failed |
| PrefetchDangling.OvertakenDangles | src/XrdClCurl/XrdClCurlOpRead.cc:74-84 | in every reachable state a failure that takes a handler whose thread has bytes left to copy can lead to a copy into the buffer of a told read |
| PrefetchDangling.OvertakenRun | src/XrdClCurl/XrdClCurlUtil.cc:1832-1850 | a run after which a failure can tell a second read while its thread has yet to copy a byte to its buffer |
| PrefetchDangling.LoosedDangles | src/XrdClCurl/XrdClCurlUtil.cc:745-799 | in every reachable state unpausing and then failing an overdue operation whose read's buffer has room, with more to come, can lead to a write into the buffer of a told read |
| PrefetchDangling.LoosedRun | src/XrdClCurl/XrdClCurlUtil.cc:745-799 | a run of an open file to such an expiry |
| PrefetchDangling.CloseCopiesExactly | src/XrdClCurl/XrdClCurlFile.cc:217-283 | a close that exposes no read can copy into its own freed handler if and only if there is overflow when the lock is taken |
| PrefetchDangling.CloseCopiesRun | src/XrdClCurl/XrdClCurlFile.cc:217-283 | such a close of a file all of whose reads were told |
| PrefetchTheorems.NeverDangles | src/XrdClCurl/XrdClCurlFile.cc:1284-1464 | in every reachable state a possible step finds its pointers live (the tail, the handler and its successor, the client buffer it reads or fills, the file) if and only if it is neither the Read on a file destroyed since the walker found it nor a copy, by Continue or by the write callback, to the buffer of a read told already; and the slot is empty whenever Continue stores into it |
| PrefetchTheorems.OneChain | src/XrdClCurl/XrdClCurlFile.cc:1284-1313 | the live handlers form one acyclic chain in offset order; the tail pointer of a living file is null or its last member, and not null while prefetching is on and reads wait |
| PrefetchTheorems.ToldOnce | src/XrdClCurl/XrdClCurlOps.hh:478-513 | no read is told twice, none is told that was not accepted, and the handler in the slot was not told yet |
| PrefetchTheorems.AllTold | src/XrdClCurl/XrdClCurlUtil.cc:1266-1295 | when the operation is done, the continue queue empty and no thread inside the protocol, the slot is empty and every accepted read was told |
| PrefetchTheorems.ToldTruth | src/XrdClCurl/XrdClCurlOpRead.cc:200-221 | a read told by the operation that it completed was told the offset it asked for and the object's bytes from there, in its own buffer, short only at the end of the transferred range; none is told of a chunk in somebody else's buffer |
| PrefetchUndisturbed.UndisturbedCompletes | src/XrdClCurl/XrdClCurlFile.cc:1376-1409 | over every run without a failure, a refused continuation, a close or the destruction of the file, who was told was told of a chunk, or was handed back after some read was answered short; and as long as none was, everybody got all they asked for |
| PrefetchTeardown.HollowExactly | src/XrdClCurl/XrdClCurlFile.cc:1399-1464 | over every run a read is told success without data if and only if the walk over a chain torn down by a successful response reaches it after the file was destroyed |
| PrefetchTeardown.HollowFrom | src/XrdClCurl/XrdClCurlFile.cc:1441-1454 | the same from any state on, so also after a close |
| PrefetchTeardown.AliveTellsWell | src/XrdClCurl/XrdClCurlFile.cc:1433-1440 | while the file is not destroyed no read is told so |
| PrefetchDestroy.DestroyedWell | src/XrdClCurl/XrdClCurlFile.cc:288-296 | destroying the file while no live handler has a successor and nobody walks a chain after a success: no continuation tells anybody so |
| PrefetchDestroy.DestroyedHollow | src/XrdClCurl/XrdClCurlFile.cc:1399-1409 | destroying it while a successful response is about to be processed and a read waits behind: some continuation tells that read so |
| PrefetchTeardown.HollowRun | src/XrdClCurl/XrdClCurlFile.cc:288-296 | a run that ends the first read well, cancels, detaches and then tells a second read of an existing byte success with no data |
| PrefetchTeardown.GoneFileRun | src/XrdClCurl/XrdClCurlFile.cc:1431-1437 | a run after which a walker's next step reads from a file destroyed since it looked |
| PrefetchLog.LogIsSaid | src/XrdClCurl/XrdClCurlFile.cc:1399-1464 | what users have been told is exactly what the steps that call their handlers say, over every run |
| PrefetchTheorems.NeverStranded | src/XrdClCurl/XrdClCurlOpRead.cc:94-114 | no wake-up is lost: a handler in the slot of a paused or finished operation always has a continuation, a failure, the end of the transfer or a queue entry on its way |
| PrefetchClose.CancelHarmsExactly | src/XrdClCurl/XrdClCurlFile.cc:247-286 | over the state in which CancelPrefetch takes the lock: some schedule loses a read, or tells one of a chunk in the canceller's buffer, if and only if the operation is unfinished and flagged as paused, and a read's handler is in the slot, about to be stored there, or taken out with its answer not yet built |
| PrefetchClose.BuildingTells | src/XrdClCurl/XrdClCurlOpRead.cc:200-214 | a close between the exchange and the reads of the buffer: some schedule tells the read, with success, what the canceller's one-byte buffer holds |
| PrefetchClose.PausingExposed | src/XrdClCurl/XrdClCurlOpRead.cc:224-232 | while the worker of an unfinished operation is inside Pause before its exchange, a read's handler is in the slot and so exposed |
| PrefetchLost.LostForever | src/XrdClCurl/XrdClCurlOpRead.cc:66-89 | reads that no thread, slot or other handler leads to are told in no continuation |
| PrefetchClose.ClosedWell | src/XrdClCurl/XrdClCurlFile.cc:247-286 | closing a paused operation that exposes no read: a pointer dangles exactly where a walker reads from a file destroyed since it looked or Continue copies to the buffer of a handler told already; the write callback never does; no overwritten slot, nobody told twice or given a wrong chunk, and in the end every read and the cancellation handler told |
| PrefetchCancel.WakeKeeps | src/XrdClCurl/XrdClCurlFile.cc:274-283 | after such a close every step keeps the chain being torn down, its one holder, and the cancellation handler's one place |
| PrefetchClose.WokenSafe | src/XrdClCurl/XrdClCurlFile.cc:251-273 | from a close that exposes no read no schedule loses or misinforms one |
| PrefetchCloseRuns.CloseInPause | src/XrdClCurl/XrdClCurlOpRead.cc:224-232 | a run with one read, closed between the pause flag and the exchange of the slot, from which that read can be lost |
| PrefetchCloseRuns.CloseInDelivery | src/XrdClCurl/XrdClCurlOpRead.cc:200-214 | a run with one read whose buffer is full, closed between the exchange and the reads of the buffer, from which the read can be told success with zero bytes |
| PrefetchCloseRuns.CloseInResponse | src/XrdClCurl/XrdClCurlFile.cc:251-273 | the same run closed one step later, with the read still outstanding: no schedule does harm |
| PrefetchCloseRuns.CloseOnSecondRead | src/XrdClCurl/XrdClCurlFile.cc:275-283 | runs from which closing can lose a second read, with its handler in the slot and with it only about to be stored |
| PrefetchTheorems.KeepsContinue | src/XrdClCurl/XrdClCurlOpRead.cc:66-117 | each step of Continue (store, install, load done, load failed, enqueue, deliver or fail stranded) keeps the invariant |
| PrefetchTheorems.KeepsWrite | src/XrdClCurl/XrdClCurlOpRead.cc:269-327 | the write callback keeps the invariant, whether it takes, refuses, enters Pause or is cancelled |
| PrefetchTheorems.KeepsPauseStep | src/XrdClCurl/XrdClCurlOpRead.cc:200-232 | the exchange inside Pause keeps the invariant, with and without a handler in the slot |
| PrefetchTransfer.KeepsBuilding | src/XrdClCurl/XrdClCurlOpRead.cc:206-215 | building the answer from the client buffer keeps the invariant: while nobody cancels, the buffer is the read's own and the chunk is true |
| PrefetchWorker.KeepsResumed | src/XrdClCurl/XrdClCurlOpRead.cc:129-134 | clearing the flag after libcurl was unpaused keeps the invariant, even if the transfer paused again in between |
| PrefetchTheorems.KeepsWorker | src/XrdClCurl/XrdClCurlOpRead.cc:234-247 | each step of Success keeps the invariant, also when it loses the race for the handler |
| PrefetchTheorems.KeepsDrain | src/XrdClCurl/XrdClCurlUtil.cc:1266-1334 | draining the continue queue keeps the invariant, on running, cancelled and finished operations |
| PrefetchTheorems.KeepsOverdue | src/XrdClCurl/XrdClCurlUtil.cc:741-799 | failing an overdue entry of the continue queue keeps the invariant, also when its stalled transfer was unpaused just before |
| PrefetchTheorems.KeepsFailClaim | src/XrdClCurl/XrdClCurlOpRead.cc:171-198 | the exchange of Fail keeps the invariant and answers the handler or falls to the default handler |
| PrefetchChain.KeepsHandle | src/XrdClCurl/XrdClCurlFile.cc:1317-1397 | the locked section of HandleResponse keeps the invariant: full reads, short reads, errors, a destroyed file |
| PrefetchUndisturbed.HandledServes | src/XrdClCurl/XrdClCurlFile.cc:1376-1409 | while nothing has disturbed the transfer, a full answer hands the next read to the operation, and only a short one tears the chain down |
| PrefetchChain.KeepsLookFound | src/XrdClCurl/XrdClCurlFile.cc:1431-1435 | a walker that finds the file under the lock and gives the lock up keeps the invariant |
| PrefetchChain.KeepsLookGone | src/XrdClCurl/XrdClCurlFile.cc:1441-1454 | a walker that finds no file tells its read the status of the tearing response, once |
| PrefetchChain.KeepsReread | src/XrdClCurl/XrdClCurlFile.cc:1436-1440 | a walker's Read hands the waiting read over, or refuses it, once |
| PrefetchChain.KeepsAdvance | src/XrdClCurl/XrdClCurlFile.cc:1415-1464 | freeing a walked node keeps the rest of the chain intact |
| PrefetchChain.KeepsAppend | src/XrdClCurl/XrdClCurlFile.cc:887-910 | a sequential read joins the end of the chain and the next offset moves to its end |
| PrefetchChain.KeepsStart | src/XrdClCurl/XrdClCurlFile.cc:887-910 | a sequential read that finds no waiting read continues the operation itself |
| PrefetchChain.KeepsFileStep | src/XrdClCurl/XrdClCurlFile.hh:424-460 | disabling prefetching, detaching the file, and a cancellation that needs no wake-up keep the invariant |
| PrefetchLog.ClosedForGood | src/XrdClCurl/XrdClCurlFile.cc:247-286 | after a close that needs no wake-up, in every run: no further read is accepted, and an unfinished operation stays cancelled |
| PrefetchLog.CancelledStaysPaused | src/XrdClCurl/XrdClCurlUtil.cc:1306-1323 | draining the continue queue does not unpause a cancelled operation, and ends an unfinished one |
| ReadStream.AcceptHolds | src/XrdClCurl/XrdClCurlOpRead.cc:269-327 | taken data is appended to what is held, refused data changes nothing, and overflow exists only while the client buffer is full or absent |
| ReadStream.AcceptVerdict | src/XrdClCurl/XrdClCurlOpRead.cc:304-326 | data is refused exactly when there is no room at all, and is too much exactly when the reader asked for the whole range and all that is held would not fit its buffer |
| ReadStream.InstallHolds | src/XrdClCurl/XrdClCurlOpRead.cc:66-89 | a new client buffer is served from the overflow without losing or reordering a byte |
| ReadOperation.StepConserves | src/XrdClCurl/XrdClCurlOpRead.cc:200-327 | every write, continuation and completion keeps accepted = delivered ++ client buffer ++ overflow, and the reported offsets |
| ReadOperation.RunConserves | src/XrdClCurl/XrdClCurlOpRead.cc:66-327 | over every run the conservation and the reported offsets are kept |
| ReadOperation.NothingLost | src/XrdClCurl/XrdClCurlOpRead.cc:66-327 | over every run from the start: accepted = delivered ++ client buffer ++ overflow, and overflow only while the client buffer is full or absent |
| ReadOperation.EveryReaderAnswered | src/XrdClCurl/XrdClCurlOpRead.cc:94-247 | over every run the readers are answered in order and once each, only the last can be waiting and only before the end; an answer is as long as was asked for, or ends with the last byte of the finished transfer; then all else is overflow |
| ReadOperation.ChunksTrue | src/XrdClCurl/XrdClCurlOpRead.cc:200-221 | when the accepted bytes are the object's, every delivered chunk is the object's bytes at the offset it reports |
| ReadOperation.CurlReadOp.Write | src/XrdClCurl/XrdClCurlOpRead.cc:269-327 | aborts a closed file's transfer, refuses a multipart or misplaced response, keeps an error text up to its limit, and otherwise takes the body as the specification says |
| ReadOperation.CurlReadOp.Take | src/XrdClCurl/XrdClCurlOpRead.cc:304-326 | body data is taken all or not at all, with the overflow, or the transfer pauses and the buffer is delivered |
| ReadOperation.CurlReadOp.Continue | src/XrdClCurl/XrdClCurlOpRead.cc:66-117 | a running operation gets the buffer and a queue entry, a finished one answers at once from the overflow, a failed one answers with an error and no data |
| ReadOperation.CurlReadOp.Fail | src/XrdClCurl/XrdClCurlOpRead.cc:171-198 | the operation is done and failed, and the installed handler, if any, is answered with an error once |
| ReadOperation.CurlReadOp.CopyOverflow | src/XrdClCurl/XrdClCurlOpRead.cc:76-89 | the unread overflow is copied front first and what does not fit stays unread |
| ReadOperation.CurlReadOp.DeliverResponse | src/XrdClCurl/XrdClCurlOpRead.cc:200-221 | the installed handler, if any, is answered once with what its buffer holds and the offset of that, and is gone |
| ReadOperation.CurlReadOp.Success | src/XrdClCurl/XrdClCurlOpRead.cc:234-247 | completion answers the installed handler, if any, with what its buffer holds and the offset of that; nobody waits afterwards |
| Lines.NextLineIsFirstLine | src/XrdClCurl/XrdClCurlOpReadV.cc:218-249 | the line reader returns the first line of carried text ++ piece, also when CR and LF are in different pieces |
| Lines.LinesIgnoreCuts | src/XrdClCurl/XrdClCurlOpReadV.cc:218-249 | for every stream and every cut the lines read, and the carried rest, are those of splitting the whole stream at each first CRLF |
| Lines.SplitKeepsBytes | src/XrdClCurl/XrdClCurlOpReadV.cc:232-248 | splitting loses no byte; its lines and rest contain no CRLF (contract of Split) |
| ContentRange.AnnounceParses | src/XrdClCurl/XrdClCurlOpReadV.cc:300-363 | every range a server can announce is read back as that range |
| ContentRange.ParseSound | src/XrdClCurl/XrdClCurlOpReadV.cc:300-363 | only values of the form blanks, unit, blanks, two integers with a dash between them, slash are read as a range, and as that one |
| ContentRange.NameExactly | src/XrdClCurl/XrdClCurlOpReadV.cc:292-299 | a header name is recognised if and only if each letter is that of Content-Range, small or capital |
| ContentRange.DecimalIntegers | src/XrdClCurl/XrdClCurlOpReadV.cc:320-349 | decimal notation followed by a non-digit converts to its number and its length |
| Multipart.FeedKeeps | src/XrdClCurl/XrdClCurlOpReadV.cc:84-104 | over every byte stream the parser stays well formed and the reported size is the sum of the reported chunks |
| Multipart.PayloadReported | src/XrdClCurl/XrdClCurlOpReadV.cc:84-104 | over every byte stream the reported size is the number of payload bytes received, a chunk that was only started included |
| Multipart.BoundariesExactly | src/XrdClCurl/XrdClCurlOpReadV.cc:251-277 | between parts a line other than the empty one, the boundary and the closing boundary makes the response be refused, whatever follows, and no other does |
| Multipart.HeadersExactly | src/XrdClCurl/XrdClCurlOpReadV.cc:278-374 | among part headers exactly a line without a name, a range that is none, and the end without a range make it be refused |
| Multipart.FeedAppend | src/XrdClCurl/XrdClCurlOpReadV.cc:127-377 | feeding two pieces is feeding their concatenation |
| Multipart.FeedLine | src/XrdClCurl/XrdClCurlOpReadV.cc:251-287 | bytes up to the first CRLF are one line, handled once |
| Multipart.FeedPayload | src/XrdClCurl/XrdClCurlOpReadV.cc:163-190 | a run of payload bytes is one block copy that completes the chunk at its end |
| MultipartBody.BodyReads | src/XrdClCurl/XrdClCurlOpReadV.cc:127-404 | a body whose parts are tiled by requested chunks closes the parse, reports exactly the covered chunks in order with their total, and fills their memory with the object's bytes |
| MultipartBody.TruncatedReads | src/XrdClCurl/XrdClCurlOpReadV.cc:84-104 | however early such a transfer ends, what was reported is a prefix of the covered chunks and holds the object's bytes, as does the started chunk |
| MultipartBody.LocateFinds | src/XrdClCurl/XrdClCurlOpReadV.cc:379-404 | with distinct offsets the search from any position finds the one chunk that starts at the offset |
| VectorRead.CurlVectorReadOp.CalculateNextBuffer | src/XrdClCurl/XrdClCurlOpReadV.cc:379-404 | picks the first exact chunk going round, else the one with the fewest bytes to skip |
| VectorRead.CurlVectorReadOp.GetNextLine | src/XrdClCurl/XrdClCurlOpReadV.cc:218-249 | the stateful line reader does what NextLine says |
| VectorRead.CurlVectorReadOp.CopyPayload | src/XrdClCurl/XrdClCurlOpReadV.cc:154-203 | copying a block advances exactly as the automaton does on its bytes |
| VectorRead.CurlVectorReadOp.ReadBoundary | src/XrdClCurl/XrdClCurlOpReadV.cc:251-277 | reading up to a boundary line advances as the automaton does |
| VectorRead.CurlVectorReadOp.ReadHeaders | src/XrdClCurl/XrdClCurlOpReadV.cc:278-374 | reading part headers advances as the automaton does |
| VectorRead.CurlVectorReadOp.Write | src/XrdClCurl/XrdClCurlOpReadV.cc:127-377 | the write callback equals the byte automaton on its piece |
| VectorRead.CurlVectorReadOp.Success | src/XrdClCurl/XrdClCurlOpReadV.cc:84-104 | reports the complete chunks and the started one, and a size that is their sum, in every state |
| VectorRead.Transfer | src/XrdClCurl/XrdClCurlOpReadV.cc:120-377 | any sequence of writes equals the automaton on the concatenation, so no cut changes the outcome |
| VectorRead.ReadVector | src/XrdClCurl/XrdClCurlOpReadV.cc:84-404 | a whole vector read over any cut of a tiled body returns the covered chunks, their size and the object's bytes |
| Scheduler.PercentToCap | src/XrdClCurl/XrdClCurlTagScheduler.cc:66-76 | between one and all workers; for a real percentage exactly the share rounded up |
| Scheduler.PickIsEligible | src/XrdClCurl/XrdClCurlTagScheduler.cc:241-277 | for every table order and draw, with any number of eligible tags, the pick is eligible, and empty only if none is |
| Scheduler.WorkConserving | src/XrdClCurl/XrdClCurlTagScheduler.cc:184-199 | with an eligible tag, every table order and draw serve an operation if and only if the nameless tag is not eligible |
| Scheduler.DrawableExactly | src/XrdClCurl/XrdClCurlTagScheduler.cc:250-276 | a tag can be drawn if and only if it is among the first 32 eligible ones in table order |
| Scheduler.DrawExactly | src/XrdClCurl/XrdClCurlTagScheduler.cc:267-276 | a recorded eligible tag is served exactly on the draws between the weights of the tags before it and its own |
| Scheduler.ShareExactly | src/XrdClCurl/XrdClCurlTagScheduler.cc:253-262 | the length of that interval is one part in one plus the average load of the tag, the whole unit without an average; only the last of 32 recorded tags gets more, if some were not recorded |
| Scheduler.BusierDrawnLess | src/XrdClCurl/XrdClCurlTagScheduler.cc:253-262 | of two recorded tags the one with the larger average has the strictly smaller share of the draws |
| Scheduler.TickApproaches | src/XrdClCurl/XrdClCurlTagScheduler.cc:326-340 | a tick moves each average towards the current load by the given fraction of the way, and forgets it below the noise limit |
| SchedulerRun.StepKeeps | src/XrdClCurl/XrdClCurlTagScheduler.cc:78-341 | admission, dispatch, expiry, hooks and monitor ticks keep the accounting invariant |
| SchedulerRun.Accounting | src/XrdClCurl/XrdClCurlTagScheduler.hh:160-171 | in every reachable state active and starving are the numbers of unfinished dispatched operations and of those without a response, starving <= active, both within their caps, and the total is the sum of the queues |
| SchedulerRun.WakeUpsSuffice | src/XrdClCurl/XrdClCurlTagScheduler.cc:148-182 | wake-ups given >= operations served + operations that could still be served, so no eligible work is left when all are used |
| SchedulerRun.ChangedLimits | src/XrdClCurl/XrdClCurlTagScheduler.cc:279-306 | a change to one tag keeps the limits when what it makes ready is covered by its wake-ups minus its dispatches |
| SchedulerRun.HookCounts | src/XrdClCurl/XrdClCurlTagScheduler.cc:279-306 | a running operation is counted in its tag, so the clamped decrements are never clipped |
| SchedulerRun.OldestFirst | src/XrdClCurl/XrdClCurlTagScheduler.cc:184-199 | the served operation was waiting, and no earlier arrival of its tag still is |
| SchedulerRun.ExpiredReleasesNothing | src/XrdClCurl/XrdClCurlTagScheduler.cc:201-239 | failing an operation that expired in the queue changes no counter |
| SchedulerRun.AveragesBounded | src/XrdClCurl/XrdClCurlTagScheduler.cc:308-341 | averages stay between zero and the active cap, so every weight is positive |
| TagScheduler.TagScheduler.Admit | src/XrdClCurl/XrdClCurlTagScheduler.cc:78-154 | accepts exactly when running with fewer waiting than both limits, puts the operation at the end of its tag's line of arrivals, wakes one worker, counts each rejection under its cause, and keeps the accounting invariant of the object |
| TagScheduler.TagScheduler.PickTag | src/XrdClCurl/XrdClCurlTagScheduler.cc:241-277 | the two loops compute the model's pick for the draw that is the given fraction of the weight of all eligible tags |
| TagScheduler.TagScheduler.TryConsume | src/XrdClCurl/XrdClCurlTagScheduler.cc:184-199 | takes the head of the line of an eligible tag, or nothing if none but possibly the nameless tag is eligible, and keeps the invariant |
| TagScheduler.TagScheduler.Expire | src/XrdClCurl/XrdClCurlTagScheduler.cc:201-239 | returns exactly the overdue queued operations, unhooks them, and keeps the invariant and the total |
| TagScheduler.TagScheduler.OnFirstByte | src/XrdClCurl/XrdClCurlTagScheduler.cc:279-288 | the operation leaves its tag's set of silent operations, whose size the starving counter is, and one worker is woken; the invariant is kept |
| TagScheduler.TagScheduler.OnDone | src/XrdClCurl/XrdClCurlTagScheduler.cc:290-306 | the operation leaves its tag's sets of busy and silent operations, whose sizes the counters are, and one worker is woken; the invariant is kept |
| TagScheduler.TagScheduler.OnMonitorTick | src/XrdClCurl/XrdClCurlTagScheduler.cc:308-341 | decay, folding and dropping together give the blended averages above the noise limit, which stay within zero and the cap |
| PutTheorems.StepKeeps | src/XrdClCurl/XrdClCurlFile.cc:1528-1669 | every step of client and worker keeps the upload invariant |
| PutTheorems.BodyConserved | src/XrdClCurl/XrdClCurlOpPut.cc:194-224 | until a failure gives writes up, body sent ++ view ++ queued writes = accepted writes, in order |
| PutTheorems.HandlersOnce | src/XrdClCurl/XrdClCurlFile.cc:1528-1577 | handlers are called once each in the order of the writes, and all are once the operation is over and both threads idle |
| PutTheorems.SuccessMeansSent | src/XrdClCurl/XrdClCurlOpPut.cc:97-130 | a write told of success was given to libcurl entirely, after all earlier ones |
| PutTheorems.FailureMeansOver | src/XrdClCurl/XrdClCurlFile.cc:1528-1577 | a write is told of failure only after the operation was over and the queued writes were given up; until then everybody is told of success |
| PutTheorems.EndAfterData | src/XrdClCurl/XrdClCurlOpPut.cc:148-169 | the end of the body comes only after all earlier data: the body is the writes before the first later empty one |
| PutTheorems.EndIsAllExactly | src/XrdClCurl/XrdClCurlOpPut.cc:157-160 | the ended body is everything accepted if and only if every write after the first later empty one is empty |
| PutTheorems.EarlyEnd | src/XrdClCurl/XrdClCurlOpPut.cc:205-212 | a run in which an empty write ends the body before an accepted later write |
| PutTheorems.OffsetsAndWakeUps | src/XrdClCurl/XrdClCurlFile.cc:1006-1013 | a write is taken if and only if it is offered where the accepted stream ends and the operation has not failed, and an outstanding write of a paused transfer has a continuation queued |
| PutTheorems.FailureRemembered | src/XrdClCurl/XrdClCurlFile.cc:1579-1609 | the operation counts as failed exactly from its first failure on |
| PathTrie.PathParses | src/XrdClPelican/DirectorCache.hh:164-200 | a path is parsed into its names, however many slashes separate them, and what follows the first names is the path of the others |
| PathTrie.PutAt | src/XrdClPelican/DirectorCache.hh:164-177 | a Put touches the nodes on its path, sets the last and leaves every other node alone |
| PathTrie.GetDeepest | src/XrdClPelican/DirectorCache.hh:179-204 | lookup answers from the deepest node reachable through unexpired nodes that has a URL, followed by the rest of the path |
| PathTrie.GetFollows | src/XrdClPelican/DirectorCache.hh:179-204 | whatever the times of the Puts, the answer is the URL at the longest prefix that has one and whose prefixes are all live |
| PathTrie.GetCorrect | src/XrdClPelican/DirectorCache.hh:179-204 | with nondecreasing times the answer is the URL at the longest live prefix that has one, followed by the rest of the path |
| PathTrie.CorrectUnique | src/XrdClPelican/DirectorCache.hh:179-204 | that answer is unique |
| PathTrie.RunCorrect | src/XrdClPelican/DirectorCache.hh:164-211 | after every run of Puts with nondecreasing times and of sweeps, every lookup gives the correct answer |
| PathTrie.ParentOutlives | src/XrdClPelican/DirectorCache.hh:164-177 | whatever was touched below a prefix, the prefix was touched no earlier: a parent never expires before a child |
| PathTrie.ExpireRefines | src/XrdClPelican/DirectorCache.hh:206-211 | sweeping is forgetting the Puts under top-level components that are no longer live, and the root's URL if the root expired |
| PathTrie.LiveSurvives | src/XrdClPelican/DirectorCache.hh:206-211 | the top-level sweep removes no live entry at any depth |
| PathTrie.ExpireTransparent | src/XrdClPelican/DirectorCache.hh:206-215 | a sweep changes no answer at any later time if and only if the root is unexpired or has no URL |
| PathTrie.SweepsUnseen | src/XrdClPelican/DirectorCache.hh:164-211 | in a run whose events bring nothing forgotten back, lookups from the last sweep on answer as the whole history of Puts does |
| PathTrie.StoreAgrees | src/XrdClPelican/DirectorCache.hh:164-177 | a Put keeps the swept history in agreement with the whole one if and only if it passes no prefix whose URL was forgotten |
| PathTrie.SweepAgrees | src/XrdClPelican/DirectorCache.hh:206-211 | a sweep keeps that agreement if and only if the root is unexpired or has no URL |
| PathTrie.StoreSeenExactly | src/XrdClPelican/DirectorCache.hh:164-204 | right after a Put every lookup has the same prefixes and URLs to answer from as in the whole history if and only if the Put passes no prefix whose URL was forgotten |
| PathTrie.SweepSeenExactly | src/XrdClPelican/DirectorCache.hh:179-211 | so it is right after a sweep, if and only if the root is unexpired or has no URL |
| PathTrie.SweepSeen | src/XrdClPelican/DirectorCache.hh:164-211 | a run in which a Put below a swept entry makes the answers differ |
| DirectorCache.Cache.Put | src/XrdClPelican/DirectorCache.hh:164-177 | adds the Put, at any time, to the history the cache answers for |
| DirectorCache.Cache.Get | src/XrdClPelican/DirectorCache.hh:179-204 | returns the answer that history gives, and with nondecreasing times that of the longest live prefix |
| DirectorCache.Cache.Expire | src/XrdClPelican/DirectorCache.hh:206-215 | drops from the history what the sweep forgets |
| HandlerQueue.HandlerQueue.TryProduce | src/XrdClCurl/XrdClCurlUtil.cc:906-927 | the operation joins the end unless its deadline passed, and the pipe gets a byte unless it is full |
| HandlerQueue.HandlerQueue.Consume | src/XrdClCurl/XrdClCurlUtil.cc:960-973 | takes the oldest operation and a byte, keeping production order and pipe <= queue |
| HandlerQueue.HandlerQueue.TryConsume | src/XrdClCurl/XrdClCurlUtil.cc:1001-1012 | likewise without waiting or looking at the shutdown flag |
| HandlerQueue.HandlerQueue.Expire | src/XrdClCurl/XrdClCurlUtil.cc:741-799 | resumes exactly the stalled queued operations, removes exactly the overdue ones and as many bytes; the others keep their order |
| HandlerQueue.HandlerQueue.Shutdown | src/XrdClCurl/XrdClCurlUtil.cc:1014-1020 | from then on Consume returns nothing, while the queue and the pipe stay as they are |
| HandlerQueue.OthersStay | src/XrdClCurl/XrdClCurlUtil.cc:753-764 | expiry takes nothing from what was handed out: produced minus expired is still taken ++ queued |
| FakeDns.Resolver.GetFakeEndpointForHost | src/XrdClCurl/XrdClCurlOps.cc:148-165 | finds the host's entry or adds one at the invented address without uses, fails only on a collision, and keeps the three tables consistent |
| FakeDns.Resolver.OpenSocket | src/XrdClCurl/XrdClCurlOps.cc:733-747 | counts the socket at its address, whose time of last use becomes now; every other entry stays as it was |
| FakeDns.Resolver.CloseSocket | src/XrdClCurl/XrdClCurlOps.cc:759-779 | ignores a missing or unknown handle; counts one use less at a known one, whose entry goes exactly when it was the last and not recent; keeps the tables consistent; and while closes match their opens, counts stay the numbers of open sockets and no entry with an open socket goes |
| FakeDns.Resolver.CleanupDnsCache | src/XrdClCurl/XrdClCurlOps.cc:781-797 | removes exactly the unused expired entries; while closes match their opens none of them has an open socket |
| FakeDns.EvictConsistent | src/XrdClCurl/XrdClCurlOps.cc:768-775 | forgetting an entry in all three tables leaves them inverse to each other |
| FakeDns.EvictCounted | src/XrdClCurl/XrdClCurlOps.cc:785-792 | an entry without uses has no open socket, so every socket keeps its entry |
| Statistics.Operation.StatisticsReset | src/XrdClCurl/XrdClCurlOps.cc:509-535 | all reports together sum, before the header, to the time from the start to the first header line, after it to the time from there to the last report, to the bytes moved, and to the total paused time but for what repeated pauses dropped |
| Statistics.Operation.SetPaused | src/XrdClCurl/XrdClCurlOps.cc:482-494 | pausing and resuming account the paused time exactly; pausing again drops exactly the time since the pause began or was last reported |
| Statistics.Operation.HeaderCallback | src/XrdClCurl/XrdClCurlOps.cc:328-348 | the first header line, and no later one, sets the time that divides the reports |

## Left out

- libcurl, sockets, SQLite, OpenSSL, XML and JSON, logging: only the callbacks and contracts named above are kept.
- The main loop of CurlWorker::Run (handle counts, OPTIONS requests, broker waits) beyond the continue-queue drain.
- Prefetching through CurlPrefetchOpenOp, full-download end of file, and the PgRead wrapper.
- Creation of the prefetch operation is one step, although the source publishes the offset after unlocking (XrdClCurlFile.cc:871-874); one open lifetime is modelled.
- The answer of the cancellation handler is modelled like that of a read; in the source it only disables prefetching, which is off by then.
- In the prefetch protocol, HandlerQueue::Produce failing by exception other than by failing the operation, and Expire's unpausing of a stalled operation whose entry is not overdue: the entry then stays queued for a transfer that runs.
- Prefetch and upload code is modelled as state machines over values, not as heap objects: a handler is freed in the step that last uses it, and processing a response starts the next read and answers the user in either order, which allows more interleavings than the source.
- The write callback's own use of the client buffer is one step; a close cannot meet it, because it wakes only an operation flagged as paused, except from inside `curl_easy_pause`, where a handler is in the slot and so exposed.
- PrefetchClose.CancelHarmsExactly: the canceller's looks at "done" and at "paused" are one step, so an operation that fails between the two is not modelled; neither is a drain of the continue queue between its look at "cancelled" and its unpausing. A write callback that looked at "cancelled" before the close is.
- Whether a cancelled transfer that such a write callback pauses once more is woken before its expiry fails it.
- PrefetchTeardown.HollowExactly: a tearing response without any status is not modelled; the source tells an error then.
- PrefetchLost.LostForever: covers continuations as far as they follow no dangling pointer, since the source's behaviour beyond one is undefined.
- VectorRead.CurlVectorReadOp.CopyPayload: after a part that the requested chunks do not tile only the fact is kept, for the reason given for Write.
- VectorRead.CurlVectorReadOp.ReadHeaders: likewise.
- VectorRead.Transfer: likewise.
- VectorRead.CurlVectorReadOp.Write: beyond a part that the requested chunks do not tile (including empty chunks) only the fact is kept, because skipped bytes, over-long copies and split headers then depend on the cut (XrdClCurlOpReadV.cc:156-206); so for bytes after the closing boundary. Single-range and status-200 replies are not modelled.
- ContentRange.AnnounceParses: covers ranges whose last byte is below the largest 64-bit offset; the overflow of the length computation beyond it is undefined in the source.
- Admit with a null operation, the blocking wait of the scheduler's Consume (repeated TryConsume), and notify_all at shutdown.
- The two hooks of one operation run one after the other; an operation is finished only by its worker or, after expiry, by whoever expired it.
- Upload: the owned-buffer overloads (which read a moved buffer), continuations that cannot be queued, and two client threads racing to create the operation.
- The trie's nodes are values and not heap objects; ComputePathAndUrl, which turns a URL and a depth into a path, is not modelled.
- HandlerQueue with a scheduler attached: the pipe is then only a hint.
- FakeDns: the invention of addresses is a parameter.
- Statistics: one request leg; the reset at a redirect starts a new one.
- ChecksumCache, VerbsCache, BrokerCache, FedInfo, the writeback database, S3 signing, URL rewriting, timeout parsing and status-code tables: they would only add easy members.
