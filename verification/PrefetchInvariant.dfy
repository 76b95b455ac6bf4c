/** What every interleaving of the prefetch protocol keeps. */
module PrefetchInvariant {
  import opened Common
  import opened ReadStream
  import opened PrefetchProtocol

  type Acts = map<Thread, Activity>

  /** Where an accepted read stands: waiting in the chain, its response in a thread's hands, or told. */
  datatype Place = InChain | AtThread(t: Thread) | InLog(i: nat)

  /** The witness of the invariant: the chain of live handlers, the thread (if any) that holds the
      head of the chain, the thread (if any) that is inside Continue() past its store, and where
      each accepted read stands. */
  datatype Witness = Witness(c: seq<Id>, tok: Option<Thread>, post: Option<Thread>, place: map<Id, Place>)

  predicate IsToken(a: Activity) {
    a.Storing? || a.Building? || a.Handling? || a.Resubmitting? || a.Rereading? || a.Advancing?
  }

  predicate IsPost(a: Activity) {
    a.Installing? || a.Loading? || a.SawDone? || a.Enqueueing? || a.Stranding? || a.Delivering?
  }

  predicate IsFail(a: Activity) {
    a.FailFlag? || a.FailDone? || a.FailClaim?
  }

  /** At most one thread holds the head of the chain, and at most one is inside Continue(). */
  ghost predicate Threads(acts: Acts, tok: Option<Thread>, post: Option<Thread>) {
    && (forall t | t in acts :: (IsToken(acts[t]) ==> tok == Some(t)) && (IsPost(acts[t]) ==> post == Some(t)))
    && (tok.Some? ==> tok.value in acts && IsToken(acts[tok.value]))
    && (post.Some? ==> post.value in acts && IsPost(acts[post.value]))
  }

  /** The activity of the thread that holds the head of the chain. */
  function At(acts: Acts, t: Option<Thread>): Activity {
    if t.Some? && t.value in acts then acts[t.value] else Disabling
  }

  /** The live handlers form one acyclic chain, and their ranges are contiguous. */
  ghost predicate Chain(nodes: map<Id, Node>, req: map<Id, Request>, c: seq<Id>) {
    && (forall i, j | 0 <= i < j < |c| :: c[i] != c[j])
    && (forall h :: h in nodes <==> h in c)
    && (forall i | 0 <= i < |c| :: Linked(nodes, req, c, i))
  }

  ghost predicate Linked(nodes: map<Id, Node>, req: map<Id, Request>, c: seq<Id>, i: nat)
    requires i < |c|
  {
    && c[i] in nodes && c[i] in req
    && req[c[i]] == Request(nodes[c[i]].offset, nodes[c[i]].size)
    && nodes[c[i]].next == (if i + 1 < |c| then Some(c[i + 1]) else None)
    && (i + 1 < |c| ==> c[i + 1] in req && req[c[i + 1]].offset == nodes[c[i]].offset + nodes[c[i]].size)
  }

  /** The head of the chain is in exactly one place: the slot, or one thread's hands. */
  ghost predicate Head(acts: Acts, slot: Option<Id>, c: seq<Id>, tok: Option<Thread>) {
    && (tok.Some? ==> slot.None? && c != [] && IsToken(At(acts, tok)) && At(acts, tok).h == c[0])
    && (slot.Some? ==> c != [] && slot.value == c[0])
    && (tok.None? && slot.None? ==> c == [])
  }

  /** The chain has been cut off from the file and is being walked. */
  predicate Walking(a: Activity) {
    a.Resubmitting? || a.Rereading? || a.Advancing?
  }

  /** The tail pointer is null or the last live handler; and who is about to read from the file had found it. */
  ghost predicate Tail(alive: bool, abandoned: bool, enabled: bool, tail: Option<Id>, c: seq<Id>, holder: Activity) {
    && (holder.Rereading? ==> alive || abandoned)
    && (alive && !Walking(holder) ==> tail == if c == [] then None else Some(c[|c| - 1]))
    && (Walking(holder) ==> !enabled && (alive ==> tail.None?))
  }

  /** Before the first prefetched read there is nothing; afterwards prefetching without an operation is off. */
  ghost predicate Birth(s: State) {
    && (s.hasOp ==> s.created)
    && (s.created && s.enabled ==> s.hasOp)
    && (!s.created ==>
          && s.slot.None? && s.queue == 0 && !s.done && s.worker.Transferring? && s.received == 0
          && !s.cancelled && !s.broken && !s.paused && !s.resuming
          && s.nodes == map[] && s.acts == map[] && s.req == map[] && s.log == [])
  }

  /** The transfer has ended well. */
  predicate Finishing(w: Worker) {
    !w.Transferring? && !w.Pausing?
  }

  /** The worker may touch the stream: the transfer is unpaused, or Pause() or Success() is under way. */
  predicate Busy(created: bool, paused: bool, worker: Worker) {
    created && (if worker.Transferring? then !paused else !worker.Ended?)
  }

  /** Nobody is about to touch the stream except the owner of the slot's handler. */
  predicate Calm(slot: Option<Id>, done: bool, holder: Activity) {
    slot.None? ==> done && !holder.Storing? && !holder.Building? && !(holder.Handling? && holder.r.Ok?)
  }

  /** No two threads touch the stream at once, and a queued continuation still has its handler. */
  ghost predicate Ownership(s: State, tok: Option<Thread>, post: Option<Thread>) {
    && (Busy(s.created, s.paused, s.worker) ==> post.None?)
    && (Busy(s.created, s.paused, s.worker) || post.Some? ==> Calm(s.slot, s.done, At(s.acts, tok)))
    && (post.Some? && s.slot.Some? ==> IsPost(At(s.acts, post)) && At(s.acts, post).h == s.slot.value)
    && (!s.done ==> s.queue <= 1 && (s.queue == 1 ==> s.slot.Some? && post.None? && s.paused && !s.worker.Pausing?))
  }

  /** A handler in the slot of a finished or paused operation still has somebody coming for it. */
  ghost predicate Claimed(s: State, post: Option<Thread>) {
    s.slot.Some? && (s.done || s.paused) ==>
      || post.Some? || s.queue > 0
      || (!s.worker.Transferring? && !s.worker.Ended?)
      || (exists t :: t in s.acts && IsFail(s.acts[t]))
  }

  /** What the flags say about how the transfer ended. */
  ghost predicate Flags(s: State) {
    && (s.done ==> s.failed || Finishing(s.worker))
    && (forall t | t in s.acts ::
          && (s.acts[t].FailDone? || s.acts[t].FailClaim? ==> s.failed || Finishing(s.worker))
          && (s.acts[t].FailClaim? || s.acts[t].SawDone? || s.acts[t].Stranding? || s.acts[t].Delivering? ==> s.done)
          && (s.acts[t].Delivering? ==> Finishing(s.worker)))
    && (Finishing(s.worker) ==> s.created && !s.broken && s.received == Range(s))
    && (s.worker.SuccessCheck? || s.worker.SuccessClaim? || s.worker.Ended? ==> s.done)
    && (s.worker.Pausing? ==> s.created && s.paused)
  }

  /** Where the next undelivered byte sits in the object. */
  function Position(stream: Stream): nat {
    stream.start + stream.delivered
  }

  /** Where the transferred range ends. */
  function End(s: State): nat {
    s.stream.start + Range(s)
  }

  /** The stream holds exactly the object's bytes between what was delivered and what was received. */
  ghost predicate Bytes(content: Octets, stream: Stream, received: nat, end: nat) {
    && Sound(stream)
    && received == stream.delivered + |Held(stream)|
    && stream.start + received <= end
    && (received > 0 ==> end <= |content| && Held(stream) == content[Position(stream)..stream.start + received])
  }

  /** A response that answers request `q` truthfully: the right offset, the object's bytes, and short
      only at the end of the transferred range. */
  ghost predicate Truthful(content: Octets, end: nat, q: Request, r: Response) {
    r.Ok? ==>
      && r.own && r.offset == q.offset && |r.data| <= q.size
      && (|r.data| > 0 ==> r.offset + |r.data| <= |content| && r.data == content[r.offset..r.offset + |r.data|])
      && (|r.data| < q.size ==> r.offset + |r.data| == end)
  }

  /** The buffer of the handler in the slot is installed and starts at the stream's position. */
  ghost predicate SlotOffsets(s: State, c: seq<Id>, post: Activity) {
    s.slot.Some? && c != [] && c[0] in s.req ==>
      var q := s.req[c[0]];
      if s.worker.SuccessClaim? then
        && s.worker.r.Ok? && Truthful(s.source.bytes, End(s), q, s.worker.r)
        && s.worker.r.offset + |s.worker.r.data| == Position(s.stream) && s.stream.current.None?
      else
        && q.offset == Position(s.stream)
        && (if post.Installing? then post.size == q.size
            else s.stream.current.Some? && s.stream.current.value.size == q.size && s.owner == Some(c[0]))
  }

  /** So does the read a thread is about to continue with; a delivered one ends there. */
  ghost predicate HolderOffsets(s: State, c: seq<Id>, holder: Activity) {
    c != [] && c[0] in s.req ==>
      var q := s.req[c[0]];
      && (holder.Storing? ==> q.offset == Position(s.stream) && holder.size == q.size && s.stream.current.None?)
      && (holder.Building? ==>
            && q.offset == Position(s.stream) && s.owner == Some(c[0])
            && s.stream.current.Some? && s.stream.current.value.size == q.size
            && (|s.stream.current.value.written| < q.size ==> s.received == Range(s)))
      && (holder.Handling? ==> Truthful(s.source.bytes, End(s), q, holder.r))
      && (holder.Handling? && holder.r.Ok? ==>
            holder.r.offset + |holder.r.data| == Position(s.stream) && s.stream.current.None?)
  }

  /** The file expects the next sequential read where the chain ends. */
  ghost predicate NextOffset(s: State, c: seq<Id>) {
    s.alive && s.enabled && s.hasOp ==>
      if c == [] then s.nextOffset == Position(s.stream)
      else c[|c| - 1] in s.req && s.nextOffset == s.req[c[|c| - 1]].offset + s.req[c[|c| - 1]].size
  }

  ghost predicate Vacant(s: State, holder: Activity, post: Activity) {
    && (post.Installing? ==> s.stream.current.None?)
    && (s.created && s.slot.None? && !s.done && !holder.Building? ==> s.stream.current.None?)
  }

  /** Pause() was entered with a full buffer. */
  ghost predicate Brimful(s: State) {
    s.worker.Pausing? && s.slot.Some? && s.stream.current.Some? ==>
      s.stream.current.value.size <= |s.stream.current.value.written|
  }

  /** Every accepted read is in exactly one place. */
  ghost predicate Ledger(nodes: map<Id, Node>, acts: Acts, req: map<Id, Request>, log: seq<(Id, Outcome)>,
                         holder: Activity, place: map<Id, Place>)
  {
    && (forall h :: h in place <==> h in req)
    && (forall h | h in place :: Placed(nodes, acts, log, h, place[h]))
    && (forall h | h in nodes :: h in place && (if holder.Advancing? && holder.h == h then place[h].InLog? else place[h].InChain?))
    && (forall t | t in acts && acts[t].Replying? :: acts[t].h in place && place[acts[t].h] == AtThread(t))
    && (forall i | 0 <= i < |log| :: log[i].0 in place && place[log[i].0] == InLog(i))
  }

  ghost predicate Placed(nodes: map<Id, Node>, acts: Acts, log: seq<(Id, Outcome)>, h: Id, p: Place) {
    match p
    case InChain => h in nodes
    case AtThread(t) => t in acts && acts[t].Replying? && acts[t].h == h
    case InLog(i) => i < |log| && log[i].0 == h
  }

  /** What was told, or is about to be told, is truthful. */
  ghost predicate Told(content: Octets, end: nat, acts: Acts, req: map<Id, Request>, log: seq<(Id, Outcome)>) {
    && (forall t | t in acts && acts[t].Replying? ::
          acts[t].h in req && Truthful(content, end, req[acts[t].h], acts[t].r))
    && (forall i | 0 <= i < |log| :: log[i].0 in req && TruthfulOutcome(content, end, req[log[i].0], log[i].1))
  }

  ghost predicate TruthfulOutcome(content: Octets, end: nat, q: Request, o: Outcome) {
    !o.Misled? && (o.Completed? ==> Truthful(content, end, q, Ok(o.offset, o.data, true)))
  }

  ghost predicate Structure(s: State, w: Witness) {
    && Threads(s.acts, w.tok, w.post)
    && Chain(s.nodes, s.req, w.c)
    && Head(s.acts, s.slot, w.c, w.tok)
    && Tail(s.alive, s.abandoned, s.enabled, s.tail, w.c, At(s.acts, w.tok))
    && Birth(s)
  }

  ghost predicate Control(s: State, w: Witness) {
    && Ownership(s, w.tok, w.post)
    && Claimed(s, w.post)
    && Flags(s)
  }

  ghost predicate Data(s: State, w: Witness) {
    && Bytes(s.source.bytes, s.stream, s.received, End(s))
    && SlotOffsets(s, w.c, At(s.acts, w.post))
    && HolderOffsets(s, w.c, At(s.acts, w.tok))
    && NextOffset(s, w.c)
    && Vacant(s, At(s.acts, w.tok), At(s.acts, w.post))
    && Brimful(s)
  }

  ghost predicate History(s: State, w: Witness) {
    && Ledger(s.nodes, s.acts, s.req, s.log, At(s.acts, w.tok), w.place)
    && Told(s.source.bytes, End(s), s.acts, s.req, s.log)
  }

  ghost predicate Holds(s: State, w: Witness) {
    Structure(s, w) && Control(s, w) && Data(s, w) && History(s, w)
  }

  datatype Snapshot = Snapshot(s: State, w: Witness)

  /** A state together with a witness that it satisfies the invariant. */
  type Good = x: Snapshot | Holds(x.s, x.w) ghost witness Snapshot(Init([]), Witness([], None, None, map[]))
}
