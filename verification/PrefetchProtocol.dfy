/** The prefetch protocol of one open file: sequential reads share one long GET.

    Reads that arrive in sequence become handlers in a linked list; the operation holds a single
    handler slot.  Application threads, the curl worker and response callbacks interleave freely.
    Every locked section, atomic store, atomic load, exchange and queue operation is one step. */
module PrefetchProtocol {
  import opened Common
  import opened ReadStream

  type Id = nat
  type Thread = nat

  /** What a handler is called with: a chunk (its reported offset, its bytes, and whether they are in the
      read's own buffer) or an error. */
  datatype Response = Ok(offset: nat, data: Octets, own: bool) | Error

  /** A live prefetch handler; it wraps the user's handler, identified by the same id. */
  datatype Node = Node(offset: nat, size: nat, next: Option<Id>)

  /** What the user's handler was told by the operation: a chunk in its buffer, a chunk in somebody else's,
      or an error; or while the chain was torn down: nothing yet, because it is read directly, success
      without any data, or an error. */
  datatype Outcome = Completed(offset: nat, data: Octets) | Misled(offset: nat, data: Octets) | Failed | Resubmitted | Hollow | Refused

  /** The remote object. */
  datatype Object = Object(bytes: Octets)

  datatype Request = Request(offset: nat, size: nat)

  /** Where a thread stands; each constructor names the atomic step it takes next. */
  datatype Activity =
    // Continue(): store the handler, install the buffer, load `done`, load `failed`, then act.
    | Storing(h: Id, size: nat)
    | Installing(h: Id, size: nat)
    | Loading(h: Id)
    | SawDone(h: Id)
    | Enqueueing(h: Id)
    | Stranding(h: Id)
    | Delivering(h: Id)
    // DeliverResponse() after its exchange: look at the client buffer.
    | Building(h: Id)
    // HandleResponse(): the locked section, then the user.
    | Handling(h: Id, r: Response)
    | Replying(h: Id, r: Response)
    // ResubmitOperation(), with the response that tore the chain down: look for the file under the lock,
    // read from it after unlocking, and step on.
    | Resubmitting(h: Id, r: Response)
    | Rereading(h: Id, r: Response)
    | Advancing(h: Id, r: Response)
    // Fail(): store `failed`, store `done`, exchange the slot.
    | FailFlag
    | FailDone
    | FailClaim
    // The default handler: disable prefetching.
    | Disabling

  /** The worker's view of the transfer: still running, inside Pause() before its exchange, inside Success(),
      or over. */
  datatype Worker =
    | Transferring
    | Pausing
    | SuccessFlag
    | SuccessDone
    | SuccessCheck
    | SuccessClaim(r: Response)
    | Ended

  /** `owner` says whose client buffer is installed.  `paused` is libcurl's own state, `flagged` the flag that
      the source keeps of it, and `resuming` says that the worker has unpaused libcurl and not yet
      cleared the flag.  `abandoned` records that the file was destroyed under a walker that was
      about to read from it. */
  datatype State = State(
    source: Object,
    // the File, guarded by the prefetch mutex
    alive: bool,
    enabled: bool,
    hasOp: bool,
    tail: Option<Id>,
    nextOffset: int,
    nodes: map<Id, Node>,
    // the operation
    created: bool,
    stream: Stream,
    owner: Option<Id>,
    received: nat,
    slot: Option<Id>,
    failed: bool,
    done: bool,
    cancelled: bool,
    broken: bool,
    paused: bool,
    flagged: bool,
    resuming: bool,
    worker: Worker,
    queue: nat,
    // threads
    acts: map<Thread, Activity>,
    // history
    abandoned: bool,
    req: map<Id, Request>,
    log: seq<(Id, Outcome)>
  )

  function Init(content: Octets): State {
    State(Object(content), true, true, false, None, 0, map[], false, Stream(0, 0, 0, None, []), None, 0, None,
          false, false, false, false, false, false, false, Transferring, 0, map[], false, map[], [])
  }

  datatype Event =
    | ReadCreate(id: Id, offset: nat, size: nat, prefetchSize: nat)
    | ReadRefused
    | ReadAppend(id: Id, offset: nat, size: nat)
    | ReadStart(id: Id, offset: nat, size: nat, u: Thread)
    | Run(t: Thread, choice: bool, u: Thread)
    | CurlWrite(data: Octets, stopped: bool)
    | CurlFinish
    | WorkerStep(u: Thread)
    | Drain(ok: bool, u: Thread)
    | Resumed
    | ExpireQueued(u: Thread, resumed: bool)
    | FailNow(u: Thread)
    | Disable
    | Detach
    | Cancel

  /** How many bytes the server sends for the requested range. */
  function Range(s: State): nat {
    if |s.source.bytes| <= s.stream.start then 0 else Min(s.stream.limit, |s.source.bytes| - s.stream.start)
  }

  /** The next `n` bytes of the object that the server has not sent yet. */
  predicate NextBytes(s: State, data: Octets) {
    && s.received + |data| <= Range(s) && s.stream.start + s.received + |data| <= |s.source.bytes|
    && data == s.source.bytes[s.stream.start + s.received..s.stream.start + s.received + |data|]
  }

  /** The worker is in its loop, outside libcurl and the operation. */
  predicate Idle(s: State) {
    (s.worker.Transferring? || s.worker.Ended?) && !s.resuming
  }

  /** When a step can be scheduled. */
  predicate Possible(s: State, e: Event) {
    match e
    case ReadCreate(id, _, _, _) => s.alive && s.enabled && !s.hasOp && id !in s.req
    case ReadRefused => s.alive
    case ReadAppend(id, offset, _) =>
      s.alive && s.enabled && s.hasOp && !s.done && id !in s.req && offset == s.nextOffset && s.tail.Some?
    case ReadStart(id, offset, _, u) =>
      s.alive && s.enabled && s.hasOp && !s.done && id !in s.req && offset == s.nextOffset && s.tail.None? && u !in s.acts
    case Run(t, _, u) => t in s.acts && u !in s.acts
    case CurlWrite(data, stopped) =>
      s.created && s.worker.Transferring? && !s.paused && !s.broken && NextBytes(s, data) && (stopped ==> s.cancelled)
    case CurlFinish => s.created && s.worker.Transferring? && !s.paused && !s.broken && !s.resuming && s.received == Range(s)
    case WorkerStep(u) => !s.worker.Transferring? && !s.worker.Ended? && u !in s.acts
    case Drain(_, u) => s.queue > 0 && u !in s.acts && Idle(s)
    case Resumed => s.resuming && !s.worker.Pausing?
    case ExpireQueued(u, resumed) => s.queue > 0 && u !in s.acts && Idle(s) && (resumed ==> !s.done && s.flagged)
    case FailNow(u) => s.created && u !in s.acts && s.worker.Transferring? && !s.resuming
    case Disable => true
    case Detach => true
    case Cancel => !Wakes(s)
  }

  /** The pointers a step dereferences are live: the tail an append links onto, the handler whose response is
      processed and its successor, the client buffer of a delivery and the one that bytes are copied to, the file
      that a torn-down read is resubmitted to. */
  predicate Safe(s: State, e: Event) {
    match e
    case ReadCreate(_, _, _, _) => !s.created && s.tail.None?
    case ReadAppend(_, _, _) => s.tail.Some? ==> s.tail.value in s.nodes
    case Run(t, _, _) => t in s.acts ==> Dereferences(s, s.acts[t])
    case CurlWrite(data, stopped) => !FillsReleased(s, data, stopped)
    case WorkerStep(_) => s.worker.SuccessCheck? && s.slot.Some? ==> s.stream.current.Some?
    case _ => true
  }

  /** The user's handler of the read was called, so its caller may have freed the buffer; the cancellation
      handler frees its own. */
  predicate Released(log: seq<(Id, Outcome)>, h: Id) {
    exists i | 0 <= i < |log| :: log[i].0 == h
  }

  /** The write callback copies into the buffer of a read that was told already. */
  predicate FillsReleased(s: State, data: Octets, stopped: bool) {
    && !stopped && data != [] && s.stream.current.Some? && |s.stream.current.value.written| < s.stream.current.value.size
    && s.owner.Some? && Released(s.log, s.owner.value)
  }

  /** Continue() copies the overflow into the buffer of a read that was told already. */
  predicate CopiesReleased(s: State, h: Id, size: nat) {
    size > 0 && s.stream.overflow != [] && Released(s.log, h)
  }

  predicate Dereferences(s: State, a: Activity) {
    match a
    case Installing(h, size) => !CopiesReleased(s, h, size)
    case Building(_) => s.stream.current.Some?
    case Handling(h, r) => h in s.nodes && (s.nodes[h].next.Some? ==> s.nodes[h].next.value in s.nodes)
    case Resubmitting(h, _) => h in s.nodes
    case Rereading(h, _) => h in s.nodes && s.alive
    case Advancing(h, _) => h in s.nodes
    case _ => true
  }

  /** Some walker has found the file, given up the lock, and is about to read from the file. */
  predicate Abandons(s: State) {
    exists t | t in s.acts :: s.acts[t].Rereading?
  }

  predicate Enabled(s: State, e: Event) {
    Possible(s, e) && Safe(s, e)
  }

  /** The locked section of CancelPrefetch finds an unfinished operation that is paused, and decides to
      wake it up with a handler of its own.  That case is the subject of `PrefetchCancel`; `Cancel` is
      the other one. */
  predicate Wakes(s: State) {
    s.hasOp && !s.done && s.flagged
  }

  function Apply(s: State, e: Event): State
    requires Enabled(s, e)
  {
    match e
    case ReadCreate(id, offset, size, prefetchSize) =>
      s.(nodes := s.nodes[id := Node(offset, size, None)], tail := Some(id), req := s.req[id := Request(offset, size)],
      hasOp := true, created := true, slot := Some(id), owner := Some(id), nextOffset := offset + size,
      stream := Stream(offset, prefetchSize, 0, Some(Buffer(size, [])), []))
    case ReadRefused =>
      if s.enabled && s.hasOp && s.done then s.(enabled := false) else s
    case ReadAppend(id, offset, size) =>
      var last := s.tail.value;
      s.(nodes := s.nodes[last := s.nodes[last].(next := Some(id))][id := Node(offset, size, None)],
      tail := Some(id), req := s.req[id := Request(offset, size)], nextOffset := offset + size)
    case ReadStart(id, offset, size, u) =>
      s.(nodes := s.nodes[id := Node(offset, size, None)], tail := Some(id), req := s.req[id := Request(offset, size)],
      nextOffset := offset + size, acts := s.acts[u := Storing(id, size)])
    case Run(t, choice, u) => RunThread(s, t, choice, u)
    case CurlWrite(data, stopped) => WriteCallback(s, data, stopped)
    case CurlFinish => s.(worker := SuccessFlag)
    case WorkerStep(u) => if s.worker.Pausing? then PauseStep(s, u) else SuccessStep(s, u)
    case Drain(ok, u) =>
      if s.done then LateDrain(s, u)
      else if s.cancelled || !ok then s.(queue := s.queue - 1, broken := true, acts := s.acts[u := FailFlag])
      else s.(queue := s.queue - 1, paused := false, resuming := true)
    case Resumed => s.(flagged := false, resuming := false)
    case ExpireQueued(u, resumed) => Overdue(s, u, resumed)
    case FailNow(u) => s.(broken := true, acts := s.acts[u := FailFlag])
    case Disable => s.(enabled := false)
    case Detach => s.(alive := false, abandoned := s.abandoned || Abandons(s))
    case Cancel =>
      s.(cancelled := s.cancelled || (s.hasOp && !s.done), enabled := false, hasOp := false)
  }

  /** ClaimHandler() found a handler: it is exchanged with null, and the claimant goes on to call it. */
  function Claim(s: State, u: Thread, r: Response): State
    requires s.slot.Some?
  {
    s.(slot := None, acts := s.acts[u := Handling(s.slot.value, r)])
  }

  /** An entry of the continue queue for an operation that is over: FailStrandedHandler() fails the handler
      that it finds, if any. */
  function LateDrain(s: State, u: Thread): State
    requires s.queue > 0
  {
    if s.slot.None? then s.(queue := s.queue - 1)
    else s.(queue := s.queue - 1, slot := None, acts := s.acts[u := Handling(s.slot.value, Error)])
  }

  /** An entry of the continue queue is overdue and its operation is failed.  If the transfer is stalled too,
      it has been unpaused before that, and goes on unless it finds itself cancelled. */
  function Overdue(s: State, u: Thread, resumed: bool): State
    requires s.queue > 0
  {
    s.(queue := s.queue - 1, paused := s.paused && !resumed, resuming := s.resuming || resumed,
    broken := s.broken || (resumed && s.cancelled), acts := s.acts[u := FailFlag])
  }

  /** A thread leaves the protocol. */
  function Leave(s: State, t: Thread): State {
    s.(acts := s.acts - {t})
  }

  /** The chunk a delivery reports. */
  function Chunk(s: Stream, own: bool): Response
    requires s.current.Some?
  {
    Ok(s.start + s.delivered, s.current.value.written, own)
  }

  /** The write callback; with no room it enters Pause(), which first sets the flag.  `stopped` is what it saw
      when it looked whether the operation is cancelled, which may have happened since. */
  function WriteCallback(s: State, data: Octets, stopped: bool): State {
    if stopped then s.(broken := true)
    else
      var (stream, verdict) := Accept(s.stream, data);
      match verdict
      case Taken => s.(stream := stream, received := s.received + |data|)
      case TooMuch => s.(stream := stream, received := s.stream.delivered + |Held(stream)|, broken := true)
      case Paused => s.(paused := true, flagged := true, worker := Pausing)
  }

  /** ClaimHandler() found a handler, whose answer is yet to be built from the client buffer. */
  function Take(s: State, u: Thread): State
    requires s.slot.Some?
  {
    s.(slot := None, acts := s.acts[u := Building(s.slot.value)])
  }

  /** Pause() exchanges the slot. */
  function PauseStep(s: State, u: Thread): State {
    if s.slot.None? then s.(worker := Transferring) else Take(s.(worker := Transferring), u)
  }

  /** The answer is what the installed buffer holds, whoever installed it. */
  function Build(s: State, t: Thread, h: Id): State
    requires s.stream.current.Some?
  {
    s.(stream := Deliver(s.stream), owner := None,
    acts := s.acts[t := Handling(h, Chunk(s.stream, s.owner == Some(h)))])
  }

  /** Success(): store `failed`, store `done`, look at the slot and build the response, exchange. */
  function SuccessStep(s: State, u: Thread): State
    requires !s.worker.Transferring? && !s.worker.Pausing? && !s.worker.Ended?
    requires s.worker.SuccessCheck? && s.slot.Some? ==> s.stream.current.Some?
  {
    match s.worker
    case SuccessFlag => s.(failed := false, worker := SuccessDone)
    case SuccessDone => s.(done := true, worker := SuccessCheck)
    case SuccessCheck =>
      if s.slot.None? then s.(worker := Ended)
      else s.(stream := Deliver(s.stream), worker := SuccessClaim(Chunk(s.stream, s.owner == s.slot)))
    case SuccessClaim(r) => if s.slot.None? then s.(worker := Ended) else Claim(s.(worker := Ended), u, r)
  }

  function RunThread(s: State, t: Thread, choice: bool, u: Thread): State
    requires t in s.acts && Dereferences(s, s.acts[t])
  {
    match s.acts[t]
    case Storing(h, size) => s.(slot := Some(h), acts := s.acts[t := Installing(h, size)])
    case Installing(h, size) => s.(stream := Install(s.stream, size), owner := Some(h), acts := s.acts[t := Loading(h)])
    case Loading(h) => s.(acts := s.acts[t := if s.done then SawDone(h) else Enqueueing(h)])
    case SawDone(h) => s.(acts := s.acts[t := if s.failed then Stranding(h) else Delivering(h)])
    case Enqueueing(h) => Enqueue(s, t, choice)
    case Stranding(h) => if s.slot.None? then Leave(s, t) else Claim(s, t, Error)
    case Delivering(h) => if s.slot.None? then Leave(s, t) else Take(s, t)
    case Building(h) => Build(s, t, h)
    case Handling(h, r) => HandleResponse(s, t, u, h, r)
    case Resubmitting(h, r) => Look(s, t, h, r)
    case Rereading(h, r) => Reread(s, t, choice, h, r)
    case Advancing(h, r) => Advance(s, t, h, r)
    case Replying(h, r) => s.(log := s.log + [(h, Answer(r))], acts := s.acts - {t})
    case FailFlag => s.(failed := true, acts := s.acts[t := FailDone])
    case FailDone => s.(done := true, acts := s.acts[t := FailClaim])
    case FailClaim => if s.slot.None? then s.(acts := s.acts[t := Disabling]) else Claim(s, t, Error)
    case Disabling => s.(enabled := false, acts := s.acts - {t})
  }

  /** Put the operation on the continue queue; a queue that stays full fails the operation instead. */
  function Enqueue(s: State, t: Thread, accepted: bool): State {
    if accepted then s.(queue := s.queue + 1, acts := s.acts - {t}) else s.(acts := s.acts[t := FailFlag])
  }

  /** What a response tells the user. */
  function Answer(r: Response): Outcome {
    match r
    case Ok(offset, data, own) => if own then Completed(offset, data) else Misled(offset, data)
    case Error => Failed
  }

  /** One node of a torn-down chain: under the lock the walker looks for the file.  Without one it hands
      the status of the response that tore the chain down, and no data, to the user's handler. */
  function Look(s: State, t: Thread, h: Id, r: Response): State {
    if s.alive then s.(acts := s.acts[t := Rereading(h, r)])
    else s.(log := s.log + [(h, if r.Ok? then Hollow else Refused)], acts := s.acts[t := Advancing(h, r)])
  }

  /** After unlocking, the file is asked to read directly, which may itself be refused. */
  function Reread(s: State, t: Thread, accepted: bool, h: Id, r: Response): State {
    s.(log := s.log + [(h, if accepted then Resubmitted else Refused)], acts := s.acts[t := Advancing(h, r)])
  }

  /** Step to the successor and free the node. */
  function Advance(s: State, t: Thread, h: Id, r: Response): State
    requires h in s.nodes
  {
    var next := s.nodes[h].next;
    s.(nodes := s.nodes - {h}, acts := if next.Some? then s.acts[t := Resubmitting(next.value, r)] else s.acts - {t})
  }

  /** The locked section of HandleResponse(): correct the offset of a short read, decide whether the
      rest of the chain goes on with the operation or is torn down, and retire the tail pointer. */
  function HandleResponse(s: State, t: Thread, u: Thread, h: Id, r: Response): State
    requires h in s.nodes && (s.nodes[h].next.Some? ==> s.nodes[h].next.value in s.nodes)
  {
    var node := s.nodes[h];
    var short := r.Ok? && |r.data| != node.size;
    var continues := node.next.Some? && s.alive && s.hasOp && r.Ok? && !short;
    var teardown := (node.next.Some? && !continues) || r.Error?;
    s.(nextOffset := if short && s.alive then s.nextOffset - (node.size - |r.data|) else s.nextOffset,
    enabled := s.enabled && !teardown,
    tail := if s.alive && (teardown || (node.next.None? && s.tail == Some(h))) then None else s.tail,
    hasOp := s.hasOp && !(s.alive && r.Error?),
    nodes := s.nodes - {h},
    acts := if node.next.None? then s.acts[t := Replying(h, r)]
    else if continues then s.acts[t := Replying(h, r)][u := Storing(node.next.value, s.nodes[node.next.value].size)]
    else s.acts[t := Replying(h, r)][u := Resubmitting(node.next.value, r)])
  }

  /** A schedule is legal when each of its steps is possible in turn. */
  predicate Legal(s: State, es: seq<Event>)
    decreases |es|
  {
    es != [] ==> Enabled(s, es[0]) && Legal(Apply(s, es[0]), es[1..])
  }

  function Exec(s: State, es: seq<Event>): State
    requires Legal(s, es)
    decreases |es|
  {
    if es == [] then s else Exec(Apply(s, es[0]), es[1..])
  }
}
