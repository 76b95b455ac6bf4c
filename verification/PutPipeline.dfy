/** Uploads: the writes of a file become the body of one PUT.  A client thread queues writes, the worker
    thread feeds libcurl, reports finished writes and starts the next one.  The steps are the locked
    sections, atomic exchanges and callbacks of the source; they may interleave in any order. */
module PutPipeline {
  import opened Common

  /** A client write; the identity stands for its response handler. */
  datatype Write = Write(id: nat, data: Octets)

  /** The client between its failure check and the locked section of QueueWrite. */
  datatype Client = Free | Checked(w: Write)

  /** The worker: free, having claimed the operation's handler, having read the active handler, or calling
      response handlers. */
  datatype Worker = Ready | Claimed(ok: bool) | Loaded(who: Option<nat>) | Calling(ids: seq<nat>, ok: bool)

  datatype State = State(
    // The operation: handler slot, data view, end-of-body flag, terminal flags, continue queue.
    slot: bool, view: Octets, final: bool, done: bool, failed: bool, paused: bool, conts: nat,
    // The response handler that serializes writes.
    active: bool, activeId: Option<nat>, pending: seq<Write>,
    // The file and the two threads.
    offset: nat, client: Client, worker: Worker,
    // What happened: bytes given to libcurl, end of body reported, writes accepted, handlers called,
    // and whether queued writes were given up.
    body: Octets, eof: bool, accepted: seq<Write>, told: seq<(nat, bool)>, lost: bool)

  /** The first write, at offset zero, creates the operation. */
  function Create(w: Write): State {
    State(true, w.data, false, false, false, false, 0, true, Some(w.id), [], |w.data|, Free, Ready, [], false, [w], [], false)
  }

  datatype Event =
    | Offer(w: Write, offset: nat)
    | Enlist
    | Read(request: nat)
    | LoadActive
    | Process
    | FailAll
    | Call
    | Drain
    | Succeed
    | Fail

  /** libcurl asks for data and finishes only while not paused, and finishes well only once it has all the
      data it was given; everything else is the worker's or the client's own program order. */
  predicate Possible(s: State, e: Event) {
    match e
    case Offer(w, _) => s.client.Free?
    case Enlist => s.client.Checked?
    case Read(n) => n > 0 && s.worker.Ready? && !s.paused && !s.done && !s.eof
    case LoadActive => s.worker == Claimed(true)
    case Process => s.worker.Loaded?
    case FailAll => s.worker == Claimed(false)
    case Call => s.worker.Calling?
    case Drain => s.worker.Ready? && s.conts > 0
    case Succeed => s.worker.Ready? && !s.paused && !s.done && s.view == []
    case Fail => s.worker.Ready? && !s.done
  }

  /** `Continue`: install the handler and the data, and wake the worker; no data means the end. */
  function Continue(s: State, data: Octets): State {
    s.(slot := true, view := data, final := s.final || data == [], conts := s.conts + 1)
  }

  /** Take the handler, if there is one, to answer it. */
  function Claim(s: State, ok: bool): State {
    if s.slot then s.(slot := false, worker := Claimed(ok)) else s
  }

  function QueueWrite(s: State, w: Write): State {
    var t := s.(client := Free, accepted := s.accepted + [w]);
    if !s.active then Continue(t.(active := true, activeId := Some(w.id)), w.data)
    else t.(pending := s.pending + [w])
  }

  function ReadCallback(s: State, request: nat): State {
    if s.view == [] then
      if s.final then s.(eof := true) else Claim(s.(paused := true), true)
    else
      var n := Min(request, |s.view|);
      s.(body := s.body + s.view[..n], view := s.view[n..])
  }

  function ProcessQueue(s: State): State {
    if s.pending == [] then s.(active := false, activeId := None)
    else
      var w := s.pending[0];
      Continue(s.(activeId := Some(w.id), pending := s.pending[1..]), w.data)
  }

  function Ids(ws: seq<Write>): seq<nat> {
    if ws == [] then [] else [ws[0].id] + Ids(ws[1..])
  }

  function One(who: Option<nat>): seq<nat> {
    if who.Some? then [who.value] else []
  }

  /** The worker calls the first handler it is to call, or is through. */
  function CalledNow(w: Worker): seq<(nat, bool)>
    requires w.Calling?
  {
    if w.ids == [] then [] else [(w.ids[0], w.ok)]
  }

  function AfterCall(w: Worker): (r: Worker)
    requires w.Calling?
    ensures r.Ready? || r.Calling?
  {
    if w.ids == [] then Ready else Calling(w.ids[1..], w.ok)
  }

  function Apply(s: State, e: Event): State
    requires Possible(s, e)
  {
    match e
    case Offer(w, offset) =>
      if offset != s.offset then s
      else if s.failed then s.(offset := s.offset + |w.data|)
      else s.(offset := s.offset + |w.data|, client := Checked(w))
    case Enlist => QueueWrite(s, s.client.w)
    case Read(request) => ReadCallback(s, request)
    case LoadActive => s.(worker := Loaded(s.activeId))
    case Process => ProcessQueue(s).(worker := Calling(One(s.worker.who), true))
    case FailAll =>
      s.(active := false, activeId := None, pending := [], lost := true,
         worker := Calling(One(s.activeId) + Ids(s.pending), false))
    case Call =>
      s.(told := s.told + CalledNow(s.worker), worker := AfterCall(s.worker))
    case Drain =>
      var t := s.(conts := s.conts - 1);
      if s.done then Claim(t, false) else t.(paused := false)
    case Succeed => Claim(s.(done := true), true)
    case Fail => Claim(s.(done := true, failed := true), false)
  }

  predicate Legal(s: State, es: seq<Event>)
    decreases |es|
  {
    es == [] || (Possible(s, es[0]) && Legal(Apply(s, es[0]), es[1..]))
  }

  function Exec(s: State, es: seq<Event>): State
    requires Legal(s, es)
    decreases |es|
  {
    if es == [] then s else Exec(Apply(s, es[0]), es[1..])
  }

  // ---- The invariant.

  function Concat(ws: seq<Write>): Octets {
    if ws == [] then [] else Concat(ws[..|ws| - 1]) + ws[|ws| - 1].data
  }

  function Told(ts: seq<(nat, bool)>): seq<nat> {
    if ts == [] then [] else Told(ts[..|ts| - 1]) + [ts[|ts| - 1].0]
  }

  /** The handlers that the worker is about to call. */
  function Due(w: Worker): seq<nat> {
    if w.Calling? then w.ids else []
  }

  /** How many writes have been started. */
  function Started(s: State): int {
    |s.accepted| - |s.pending|
  }

  /** Who holds the operation's handler. */
  predicate Control(s: State) {
    && (if s.worker.Claimed? || s.worker.Loaded? then s.active && !s.slot else s.active == s.slot)
    && (s.active <==> s.activeId.Some?)
    && (!s.active ==> |s.pending| == 0)
    && (s.worker.Loaded? ==> s.worker.who == s.activeId)
    && (s.slot && (s.done || s.paused) ==> s.conts > 0)
    && (s.lost ==> s.done) && (s.worker == Claimed(false) ==> s.done)
    && (s.worker == Claimed(true) || s.worker.Loaded? ==> !s.lost)
  }

  /** Accepted handlers are those called, those being called, the active one and the queued ones, in order. */
  predicate Handlers(s: State) {
    Ids(s.accepted) == (Told(s.told) + Due(s.worker)) + (One(s.activeId) + Ids(s.pending))
  }

  /** The queued writes are the last accepted ones, and the data of all others is sent or in the view. */
  predicate Data(s: State) {
    && 1 <= Started(s) && s.accepted[Started(s)..] == s.pending
    && (!s.lost ==> s.body + s.view == Concat(s.accepted[..Started(s)]))
    && (!s.lost && (!s.active || s.worker == Claimed(true) || s.worker.Loaded?) ==> s.view == [])
  }

  /** The first write after the one that created the operation with nothing in it ends the body. */
  predicate EndsAt(ws: seq<Write>, m: nat) {
    1 <= m < |ws| && ws[m].data == [] && forall i | 1 <= i < m :: ws[i].data != []
  }

  ghost predicate Ending(s: State) {
    && (!s.final && !s.lost ==> forall i | 1 <= i < Started(s) :: s.accepted[i].data != [])
    && (s.final && !s.done ==> s.view == [] && s.slot && Ended(s))
    && (s.eof ==> Ended(s))
  }

  /** The body is complete: it is the data of the writes before the one that ends it. */
  ghost predicate Ended(s: State) {
    exists m: nat :: EndsAt(s.accepted, m) && s.body == Concat(s.accepted[..m])
  }

  /** The data of the first `i + 1` writes has been given to libcurl. */
  predicate Sent(accepted: seq<Write>, body: Octets, i: nat) {
    i < |accepted| && Concat(accepted[..i + 1]) <= body
  }

  /** Whoever was or is about to be told of success has its data sent. */
  predicate Acked(s: State) {
    && (forall i | 0 <= i < |s.told| && s.told[i].1 :: Sent(s.accepted, s.body, i))
    && (s.worker.Calling? && s.worker.ok && |s.worker.ids| > 0 ==> |s.worker.ids| == 1 && Sent(s.accepted, s.body, |s.told|))
  }

  /** Whoever was or is about to be told of failure: the operation is over and the queued writes were given up. */
  predicate Blamed(s: State) {
    && (forall i | 0 <= i < |s.told| && !s.told[i].1 :: s.lost)
    && (s.worker.Calling? && !s.worker.ok ==> s.lost)
  }

  /** The next offset is the length of everything accepted. */
  predicate Offsets(s: State) {
    !s.failed ==> s.offset == |Concat(s.accepted)| + if s.client.Checked? then |s.client.w.data| else 0
  }

  ghost predicate Inv(s: State) {
    Control(s) && Handlers(s) && Data(s) && Ending(s) && Acked(s) && Blamed(s) && Offsets(s)
  }
}
