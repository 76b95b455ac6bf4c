/** What holds in every reachable state of the prefetch protocol, for every object, every schedule of
    application threads, callbacks and worker, and every way the transfer can go. */
module PrefetchTheorems {
  import opened Common
  import opened ReadStream
  import opened PrefetchProtocol
  import opened PrefetchInvariant
  import opened PrefetchSteps
  import opened PrefetchTransfer
  import opened PrefetchWorker
  import opened PrefetchChain

  // ---- One step.

  lemma Created(g: Good)
    ensures g.s.acts != map[] || g.s.queue > 0 || !g.s.worker.Transferring? || g.s.slot.Some? || g.s.resuming ==> g.s.created
  {
    hide Threads, Chain, Head, Tail, Control, Data, History;
  }

  lemma KeepsContinue(g: Good, t: Thread, choice: bool, u: Thread) returns (k: Good)
    requires Enabled(g.s, Run(t, choice, u)) && g.s.created
    requires var a := g.s.acts[t]; a.Storing? || IsPost(a)
    ensures k.s.source == g.s.source
    ensures k.s == RunThread(g.s, t, choice, u)
  {
    hide Holds;
    match g.s.acts[t]
    case Storing(h, size) => k := KeepsStore(g, t);
    case Installing(h, size) => k := KeepsInstall(g, t);
    case Loading(h) => k := KeepsLooking(g, t, if g.s.done then SawDone(h) else Enqueueing(h));
    case SawDone(h) => k := KeepsLooking(g, t, if g.s.failed then Stranding(h) else Delivering(h));
    case Enqueueing(h) => k := KeepsEnqueue(g, t, choice);
    case Stranding(h) => k := KeepsStrand(g, t);
    case Delivering(h) => if g.s.slot.None? { k := KeepsLost(g, t); } else { k := KeepsDelivering(g, t); }
  }

  lemma KeepsStrand(g: Good, t: Thread) returns (k: Good)
    requires t in g.s.acts && g.s.acts[t].Stranding? && g.s.created
    ensures k.s.source == g.s.source
    ensures k.s == if g.s.slot.None? then Leave(g.s, t) else Claim(g.s, t, Error)
  {
    if g.s.slot.None? {
      hide Holds;
      k := KeepsLost(g, t);
    } else {
      assert g.s.done by { hide Structure, Ownership, Claimed, Data, History; }
      hide Holds;
      k := KeepsClaimError(g, Claim(g.s, t, Error), t);
    }
  }

  lemma KeepsFailClaim(g: Good, t: Thread) returns (k: Good)
    requires t in g.s.acts && g.s.acts[t].FailClaim? && g.s.created
    ensures k.s.source == g.s.source
    ensures k.s == if g.s.slot.None? then g.s.(acts := g.s.acts[t := Disabling]) else Claim(g.s, t, Error)
  {
    if g.s.slot.None? {
      hide Holds;
      k := KeepsFailLost(g, t);
    } else {
      assert g.s.done by { hide Structure, Ownership, Claimed, Data, History; }
      hide Holds;
      k := KeepsClaimError(g, Claim(g.s, t, Error), t);
    }
  }

  /** The steps of ResubmitOperation(). */
  lemma KeepsWalk(g: Good, t: Thread, choice: bool) returns (k: Good)
    requires t in g.s.acts && Walking(g.s.acts[t]) && g.s.acts[t].h in g.s.nodes
    ensures k.s.source == g.s.source
    ensures k.s == match g.s.acts[t]
                   case Resubmitting(h, r) => Look(g.s, t, h, r)
                   case Rereading(h, r) => Reread(g.s, t, choice, h, r)
                   case Advancing(h, r) => Advance(g.s, t, h, r)
                   case _ => g.s
  {
    hide Holds, Look, Reread, Advance;
    match g.s.acts[t]
    case Resubmitting(h, r) => if g.s.alive { k := KeepsLookFound(g, t); } else { k := KeepsLookGone(g, t); }
    case Rereading(h, r) => k := KeepsReread(g, t, choice);
    case Advancing(h, r) => k := KeepsAdvance(g, t);
  }

  lemma KeepsRun(g: Good, t: Thread, choice: bool, u: Thread) returns (k: Good)
    requires Enabled(g.s, Run(t, choice, u))
    ensures k.s.source == g.s.source
    ensures k.s == RunThread(g.s, t, choice, u)
  {
    hide Holds, Look, Reread, Advance, Build, HandleResponse, Answer;
    Created(g);
    if g.s.acts[t].Storing? || IsPost(g.s.acts[t]) {
      k := KeepsContinue(g, t, choice, u);
    } else if Walking(g.s.acts[t]) {
      k := KeepsWalk(g, t, choice);
    } else {
      match g.s.acts[t]
      case Building(h) => k := KeepsBuilding(g, t);
      case Handling(h, r) => k := KeepsHandle(g, t, u);
      case Replying(h, r) => k := KeepsReply(g, t);
      case FailFlag => k := KeepsFailFlag(g, t);
      case FailDone => k := KeepsFailDone(g, t);
      case FailClaim => k := KeepsFailClaim(g, t);
      case Disabling => k := KeepsDisabling(g, t);
    }
  }

  lemma StreamFacts(g: Good)
    ensures g.s.received == g.s.stream.delivered + |Held(g.s.stream)| && Sound(g.s.stream)
  {
    hide Structure, Control, History, SlotOffsets, HolderOffsets, NextOffset, Vacant;
  }

  /** The write callback took the data, or refused it for being too much. */
  lemma KeepsTaken(g: Good, data: Octets, stopped: bool) returns (k: Good)
    requires Possible(g.s, CurlWrite(data, stopped))
    requires !stopped && Accept(g.s.stream, data).1 != Paused
    ensures k.s.source == g.s.source
    ensures k.s == WriteCallback(g.s, data, stopped)
  {
    hide Holds, AcceptStep;
    var n := WriteCallback(g.s, data, stopped);
    TakenStep(g, data, stopped, n);
    hide WriteCallback;
    k := KeepsAccept(g, n, data);
  }

  lemma TakenStep(g: Good, data: Octets, stopped: bool, n: State)
    requires Possible(g.s, CurlWrite(data, stopped)) && n == WriteCallback(g.s, data, stopped)
    requires !stopped && Accept(g.s.stream, data).1 != Paused
    ensures AcceptStep(g.s, n, data)
  {
    hide Holds, NextBytes, AcceptStep, WriteCallback;
    StreamFacts(g);
    AcceptHolds(g.s.stream, data);
    hide Accept, Held;
    if Accept(g.s.stream, data).1 == Taken {
      TakenAll(g.s, data, stopped);
    } else {
      TakenSome(g.s, data, stopped);
    }
  }

  lemma TakenAll(s: State, data: Octets, stopped: bool)
    requires s.created && s.worker.Transferring? && !s.paused && NextBytes(s, data) && !stopped
    requires Accept(s.stream, data).1 == Taken && s.received + |data| == Accept(s.stream, data).0.delivered + |Held(Accept(s.stream, data).0)|
    ensures AcceptStep(s, WriteCallback(s, data, stopped), data)
  {
    hide Accept, Held, NextBytes;
  }

  lemma TakenSome(s: State, data: Octets, stopped: bool)
    requires s.created && s.worker.Transferring? && !s.paused && NextBytes(s, data) && !stopped
    requires Accept(s.stream, data).1 == TooMuch && Accept(s.stream, data).0.delivered == s.stream.delivered
    ensures AcceptStep(s, WriteCallback(s, data, stopped), data)
  {
    hide Accept, Held, NextBytes;
  }

  lemma KeepsWrite(g: Good, data: Octets, stopped: bool) returns (k: Good)
    requires Possible(g.s, CurlWrite(data, stopped))
    ensures k.s.source == g.s.source
    ensures k.s == WriteCallback(g.s, data, stopped)
  {
    hide Holds, NextBytes;
    if stopped {
      k := KeepsBroken(g);
    } else if Accept(g.s.stream, data).1 != Paused {
      k := KeepsTaken(g, data, stopped);
    } else {
      k := KeepsPausing(g);
    }
  }

  lemma KeepsWorker(g: Good, u: Thread) returns (k: Good)
    requires Finishing(g.s.worker) && !g.s.worker.Ended? && u !in g.s.acts
    requires g.s.worker.SuccessCheck? && g.s.slot.Some? ==> g.s.stream.current.Some?
    ensures k.s.source == g.s.source
    ensures k.s == SuccessStep(g.s, u)
  {
    hide Holds;
    WorkerFlags(g);
    var n := SuccessStep(g.s, u);
    match g.s.worker
    case SuccessFlag => k := KeepsSuccessFlags(g, n);
    case SuccessDone => k := KeepsSuccessFlags(g, n);
    case SuccessCheck => if g.s.slot.None? { k := KeepsSuccessFlags(g, n); } else { k := KeepsPrepare(g, n); }
    case SuccessClaim(r) => if g.s.slot.None? { k := KeepsAnswerLost(g); } else { k := KeepsAnswer(g, u); }
  }

  lemma KeepsPauseStep(g: Good, u: Thread) returns (k: Good)
    requires g.s.worker.Pausing? && u !in g.s.acts
    ensures k.s.source == g.s.source
    ensures k.s == PauseStep(g.s, u)
  {
    hide Holds, Take;
    if g.s.slot.None? { k := KeepsPauseIdle(g); } else { k := KeepsPauseTake(g, u); }
  }

  /** A failure that ends the transfer. */
  lemma KeepsFailure(g: Good, u: Thread, queue: nat) returns (k: Good)
    requires g.s.created && u !in g.s.acts && g.s.worker.Transferring? && queue <= g.s.queue
    ensures k.s.source == g.s.source
    ensures k.s == g.s.(broken := true, queue := queue, acts := g.s.acts[u := FailFlag])
  {
    hide Holds;
    k := KeepsBroken(g);
    k := KeepsFailNow(k, u, queue);
  }

  /** A stalled transfer is unpaused before its overdue entry fails it. */
  lemma KeepsOverdueResumed(g: Good, u: Thread) returns (k: Good)
    requires g.s.created && u !in g.s.acts && g.s.queue > 0 && Idle(g.s) && !g.s.done
    ensures k.s.source == g.s.source
    ensures k.s == Overdue(g.s, u, true)
  {
    WorkerFlags(g);
    hide Holds;
    k := KeepsUnpause(g);
    if g.s.cancelled { k := KeepsFailure(k, u, k.s.queue); } else { k := KeepsFailNow(k, u, k.s.queue); }
  }

  lemma KeepsOverdue(g: Good, u: Thread, resumed: bool) returns (k: Good)
    requires g.s.created && u !in g.s.acts && g.s.queue > 0 && Idle(g.s) && (resumed ==> !g.s.done)
    ensures k.s.source == g.s.source
    ensures k.s == Overdue(g.s, u, resumed)
  {
    hide Holds;
    if resumed { k := KeepsOverdueResumed(g, u); } else { k := KeepsFailNow(g, u, g.s.queue - 1); }
  }

  lemma KeepsDrain(g: Good, ok: bool, u: Thread) returns (k: Good)
    requires Enabled(g.s, Drain(ok, u))
    ensures k.s.source == g.s.source
    ensures k.s == Apply(g.s, Drain(ok, u))
  {
    hide Holds;
    Created(g);
    var n := Apply(g.s, Drain(ok, u));
    if g.s.done {
      if g.s.slot.None? { k := KeepsStaleDrain(g); } else { k := KeepsClaimError(g, n, u); }
    } else if g.s.cancelled || !ok {
      WorkerFlags(g);
      k := KeepsFailure(g, u, g.s.queue - 1);
    } else {
      k := KeepsUnpause(g);
    }
  }

  lemma KeepsOperation(g: Good, e: Event) returns (k: Good)
    requires Enabled(g.s, e) && (e.CurlWrite? || e.CurlFinish? || e.WorkerStep? || e.Drain? || e.Resumed? || e.ExpireQueued? || e.FailNow?)
    ensures k.s.source == g.s.source
    ensures k.s == Apply(g.s, e)
  {
    hide Holds, WriteCallback, SuccessStep, PauseStep, NextBytes, Overdue, FillsReleased;
    Created(g);
    match e
    case CurlWrite(data, stopped) => k := KeepsWrite(g, data, stopped);
    case CurlFinish => k := KeepsFinish(g);
    case WorkerStep(u) => if g.s.worker.Pausing? { k := KeepsPauseStep(g, u); } else { k := KeepsWorker(g, u); }
    case Resumed => k := KeepsResumed(g);
    case Drain(ok, u) => k := KeepsDrain(g, ok, u);
    case ExpireQueued(u, resumed) => k := KeepsOverdue(g, u, resumed);
    case FailNow(u) => k := KeepsFailure(g, u, g.s.queue);
  }

  lemma KeepsCancel(g: Good) returns (k: Good)
    ensures k.s.source == g.s.source
    ensures k.s == g.s.(cancelled := g.s.cancelled || (g.s.hasOp && !g.s.done), enabled := false, hasOp := false)
  {
    hide Holds;
    CancelCreated(g);
    k := KeepsFileStep(g, g.s.(cancelled := g.s.cancelled || (g.s.hasOp && !g.s.done), enabled := false, hasOp := false));
  }

  lemma KeepsDetach(g: Good) returns (k: Good)
    ensures k.s.source == g.s.source
    ensures k.s == g.s.(alive := false, abandoned := g.s.abandoned || Abandons(g.s))
  {
    hide Holds, Abandons;
    k := KeepsFileStep(g, g.s.(alive := false, abandoned := g.s.abandoned || Abandons(g.s)));
  }

  lemma KeepsRefused(g: Good) returns (k: Good)
    ensures k.s.source == g.s.source
    ensures k.s == if g.s.enabled && g.s.hasOp && g.s.done then g.s.(enabled := false) else g.s
  {
    hide Holds;
    if g.s.enabled && g.s.hasOp && g.s.done { k := KeepsDisabled(g); } else { k := g; }
  }

  lemma KeepsFlips(g: Good, e: Event) returns (k: Good)
    requires Enabled(g.s, e) && (e.ReadRefused? || e.Disable? || e.Detach? || e.Cancel?)
    ensures k.s.source == g.s.source
    ensures k.s == Apply(g.s, e)
  {
    hide Holds, Abandons;
    match e
    case ReadRefused => k := KeepsRefused(g);
    case Disable => k := KeepsDisabled(g);
    case Detach => k := KeepsDetach(g);
    case Cancel => k := KeepsCancel(g);
  }

  lemma KeepsRead(g: Good, e: Event) returns (k: Good)
    requires Enabled(g.s, e) && (e.ReadCreate? || e.ReadAppend? || e.ReadStart?)
    ensures k.s.source == g.s.source
    ensures k.s == Apply(g.s, e)
  {
    hide Holds, Apply;
    match e
    case ReadCreate(id, offset, size, limit) => k := KeepsCreate(g, id, offset, size, limit);
    case ReadAppend(id, offset, size) => k := KeepsAppend(g, id, offset, size);
    case ReadStart(id, offset, size, u) => k := KeepsStart(g, id, offset, size, u);
  }

  /** Every step keeps the invariant. */
  lemma Keeps(g: Good, e: Event) returns (k: Good)
    requires Enabled(g.s, e)
    ensures k.s.source == g.s.source
    ensures k.s == Apply(g.s, e)
  {
    hide Holds, RunThread, Enabled;
    match e
    case Run(t, choice, u) => k := KeepsRun(g, t, choice, u);
    case ReadCreate(_, _, _, _) => k := KeepsRead(g, e);
    case ReadAppend(_, _, _) => k := KeepsRead(g, e);
    case ReadStart(_, _, _, _) => k := KeepsRead(g, e);
    case ReadRefused => k := KeepsFlips(g, e);
    case Disable => k := KeepsFlips(g, e);
    case Detach => k := KeepsFlips(g, e);
    case Cancel => k := KeepsFlips(g, e);
    case _ => k := KeepsOperation(g, e);
  }

  lemma CancelCreated(g: Good)
    ensures g.s.hasOp ==> g.s.created
  {
    hide Threads, Chain, Head, Tail, Control, Data, History;
  }

  // ---- Every run.

  lemma InitHolds(content: Octets)
    ensures Holds(Init(content), Witness([], None, None, map[]))
  {
  }

  lemma {:induction false} RunFrom(g: Good, es: seq<Event>) returns (k: Good)
    requires Legal(g.s, es)
    ensures k.s.source == g.s.source
    ensures k.s == Exec(g.s, es)
    decreases |es|
  {
    hide Holds, Apply, Enabled;
    if es == [] {
      k := g;
    } else {
      var m := Keeps(g, es[0]);
      k := RunFrom(m, es[1..]);
    }
  }

  /** The invariant holds in every reachable state. */
  lemma Reachable(content: Octets, es: seq<Event>) returns (k: Good)
    requires Legal(Init(content), es)
    ensures k.s == Exec(Init(content), es) && k.s.source == Object(content)
  {
    InitHolds(content);
    hide Holds, Legal, Exec;
    var g: Good := Snapshot(Init(content), Witness([], None, None, map[]));
    k := RunFrom(g, es);
  }

  /** The step is the Read on a file that is gone: the walker had found it, but it was destroyed since. */
  predicate CallsGoneFile(s: State, e: Event) {
    e.Run? && e.t in s.acts && s.acts[e.t].Rereading? && !s.alive
  }

  /** The step copies the overflow into the buffer of a read that was told already. */
  predicate CopiesToReleased(s: State, e: Event) {
    e.Run? && e.t in s.acts && s.acts[e.t].Installing? && CopiesReleased(s, s.acts[e.t].h, s.acts[e.t].size)
  }

  /** The step is a write callback into the buffer of a read that was told already. */
  predicate WritesToReleased(s: State, e: Event) {
    e.CurlWrite? && FillsReleased(s, e.data, e.stopped)
  }

  /** The three steps whose pointer can be dead. */
  predicate FollowsDead(s: State, e: Event) {
    CallsGoneFile(s, e) || CopiesToReleased(s, e) || WritesToReleased(s, e)
  }

  /** The pointers that a step follows are live: a read links only onto a live handler, a response is
      processed only by a live handler with a live successor, a delivery has a client buffer; with three
      exceptions, and exactly those: a walker reads from a file that was destroyed after it found it, and
      Continue() or the write callback copies into the buffer of a read that was told already.  And
      the slot is empty whenever a thread stores its handler. */
  lemma NeverDangles(content: Octets, es: seq<Event>, e: Event)
    requires Legal(Init(content), es) && Possible(Exec(Init(content), es), e)
    ensures Safe(Exec(Init(content), es), e) <==> !FollowsDead(Exec(Init(content), es), e)
    ensures CallsGoneFile(Exec(Init(content), es), e) ==> Exec(Init(content), es).abandoned
    ensures StoresIntoEmpty(Exec(Init(content), es), e)
  {
    hide Legal, Exec, Holds, Init, Possible, Safe, StoresIntoEmpty, CallsGoneFile, FollowsDead;
    var g := Reachable(content, es);
    SafeStep(g, e);
    StoreFindsEmpty(g, e);
  }

  /** A step that stores a handler finds the slot empty. */
  predicate StoresIntoEmpty(s: State, e: Event) {
    e.Run? && e.t in s.acts && s.acts[e.t].Storing? ==> s.slot.None?
  }

  lemma StoreFindsEmpty(g: Good, e: Event)
    ensures StoresIntoEmpty(g.s, e)
  {
    hide Holds;
    if e.Run? && e.t in g.s.acts && g.s.acts[e.t].Storing? { StoreFacts(g, e.t); }
  }

  lemma SafeStep(g: Good, e: Event)
    requires Possible(g.s, e)
    ensures Safe(g.s, e) <==> !FollowsDead(g.s, e)
    ensures CallsGoneFile(g.s, e) ==> g.s.abandoned
  {
    hide Holds, Released;
    match e
    case ReadCreate(_, _, _, _) => CreateSafe(g);
    case ReadAppend(_, _, _) => AppendSafe(g);
    case Run(t, _, _) => RunSafe(g, t);
    case WorkerStep(_) => WorkerFlags(g); BusyFacts(g);
    case _ =>
  }

  lemma CreateSafe(g: Good)
    requires g.s.alive && g.s.enabled && !g.s.hasOp
    ensures !g.s.created && g.s.tail.None?
  {
    hide Control, Data, History;
  }

  lemma AppendSafe(g: Good)
    requires g.s.alive && g.s.enabled && g.s.tail.Some?
    ensures g.s.tail.value in g.s.nodes
  {
    AppendFacts(g);
    hide Control, Data, History, Threads, Head, Tail, Birth;
    assert Linked(g.s.nodes, g.s.req, g.w.c, |g.w.c| - 1);
  }

  lemma RunSafe(g: Good, t: Thread)
    requires t in g.s.acts
    ensures Dereferences(g.s, g.s.acts[t]) <==>
            (!(g.s.acts[t].Rereading? && !g.s.alive)
             && !(g.s.acts[t].Installing? && CopiesReleased(g.s, g.s.acts[t].h, g.s.acts[t].size)))
    ensures g.s.acts[t].Rereading? && !g.s.alive ==> g.s.abandoned
  {
    hide CopiesReleased;
    Created(g);
    match g.s.acts[t]
    case Building(_) => BuildFacts(g, t);
    case Handling(_, _) => HandleFacts(g, t); ChainTail(g.s.nodes, g.s.req, g.w.c);
    case Resubmitting(_, _) => WalkFacts(g, t); ChainTail(g.s.nodes, g.s.req, g.w.c);
    case Rereading(_, _) => WalkFacts(g, t); ChainTail(g.s.nodes, g.s.req, g.w.c); FileFacts(g, t);
    case Advancing(_, _) => WalkFacts(g, t); ChainTail(g.s.nodes, g.s.req, g.w.c);
    case _ =>
  }

  lemma FileFacts(g: Good, t: Thread)
    requires t in g.s.acts && g.s.acts[t].Rereading?
    ensures g.s.alive || g.s.abandoned
  {
    hide Chain, Head, Birth, Control, Data, History;
  }

  /** The live handlers always form one acyclic chain in offset order.  The tail pointer of a living file
      is null or the last of them, and while prefetching is on it is null only when there is none. */
  lemma OneChain(content: Octets, es: seq<Event>) returns (c: seq<Id>)
    requires Legal(Init(content), es)
    ensures var s := Exec(Init(content), es);
            && Chain(s.nodes, s.req, c)
            && (s.alive ==> s.tail.None? || (c != [] && s.tail == Some(c[|c| - 1])))
            && (s.alive && s.enabled && c != [] ==> s.tail.Some?)
  {
    var g := Reachable(content, es);
    hide Legal, Exec, Chain, Control, Data, History, Threads, Head, Birth;
    c := g.w.c;
  }

  /** No read is told twice, none is told that was not accepted, and a waiting read was not told. */
  lemma ToldOnce(content: Octets, es: seq<Event>)
    requires Legal(Init(content), es)
    ensures var s := Exec(Init(content), es);
            && (forall i, j | 0 <= i < j < |s.log| :: s.log[i].0 != s.log[j].0)
            && (forall i | 0 <= i < |s.log| :: s.log[i].0 in s.req)
            && (s.slot.Some? ==> forall i | 0 <= i < |s.log| :: s.log[i].0 != s.slot.value)
  {
    var g := Reachable(content, es);
    hide Legal, Exec, Control, Data, Birth, Tail;
    LedgerOnce(g);
  }

  lemma LedgerOnce(g: Good)
    ensures forall i, j | 0 <= i < j < |g.s.log| :: g.s.log[i].0 != g.s.log[j].0
    ensures forall i | 0 <= i < |g.s.log| :: g.s.log[i].0 in g.s.req
    ensures g.s.slot.Some? ==> forall i | 0 <= i < |g.s.log| :: g.s.log[i].0 != g.s.slot.value
  {
    if g.s.slot.Some? { SlotLive(g); }
    hide Chain, Control, Data, Birth, Tail, Head, Told;
  }

  lemma SlotLive(g: Good)
    requires g.s.slot.Some?
    ensures g.s.slot.value in g.s.nodes && g.w.tok.None?
  {
    HeadRequested(g.s, g.w);
    hide Chain, Control, Data, Birth, Tail, History;
  }

  /** Somebody is on the way to the slot: a continuation, a failure, the end of the transfer, or an entry
      of the continue queue. */
  ghost predicate Awaited(s: State) {
    || s.queue > 0
    || (!s.worker.Transferring? && !s.worker.Ended?)
    || (exists t :: t in s.acts && (IsPost(s.acts[t]) || IsFail(s.acts[t])))
  }

  /** No wake-up is lost: a handler in the slot of a paused or finished operation is always awaited. */
  lemma NeverStranded(content: Octets, es: seq<Event>)
    requires Legal(Init(content), es)
    ensures var s := Exec(Init(content), es); s.slot.Some? && (s.paused || s.done) ==> Awaited(s)
  {
    hide Legal, Exec, Holds, Awaited;
    var g := Reachable(content, es);
    if g.s.slot.Some? && (g.s.paused || g.s.done) { SlotAwaited(g); }
  }

  lemma SlotAwaited(g: Good)
    requires g.s.slot.Some? && (g.s.paused || g.s.done)
    ensures Awaited(g.s)
  {
    hide Chain, Head, Tail, Birth, Ownership, Flags, Data, History;
  }

  /** Nothing is running any more: no thread is inside the protocol, nothing is queued, and the
      operation is done. */
  predicate Quiescent(s: State) {
    s.acts == map[] && s.queue == 0 && s.done && (s.worker.Transferring? || s.worker.Ended?)
  }

  /** Then the slot is empty and every accepted read has been told exactly once: none is stranded. */
  lemma AllTold(content: Octets, es: seq<Event>, h: Id)
    requires Legal(Init(content), es) && Quiescent(Exec(Init(content), es)) && h in Exec(Init(content), es).req
    ensures Exec(Init(content), es).slot.None? && Exec(Init(content), es).nodes == map[]
    ensures exists i :: 0 <= i < |Exec(Init(content), es).log| && Exec(Init(content), es).log[i].0 == h
  {
    var g := Reachable(content, es);
    hide Legal, Exec, Holds;
    NoneWaits(g, h);
  }

  lemma NoneWaits(g: Good, h: Id)
    requires Quiescent(g.s) && h in g.s.req
    ensures g.s.slot.None? && g.s.nodes == map[] && exists i :: 0 <= i < |g.s.log| && g.s.log[i].0 == h
  {
    EmptyChain(g);
    hide Chain, Data, Birth, Tail, Told, Flags, Ownership;
    assert g.w.tok.None? && g.w.post.None? && g.w.c == [];
    assert Placed(g.s.nodes, g.s.acts, g.s.log, h, g.w.place[h]);
  }

  /** Every completed read reports the offset it asked for and carries exactly the object's bytes
      from there, in its own buffer; it is shorter than asked only when it ends where the transferred
      range ends. */
  lemma ToldTruth(content: Octets, es: seq<Event>, i: nat)
    requires Legal(Init(content), es) && i < |Exec(Init(content), es).log|
    ensures var s := Exec(Init(content), es); var (h, o) := s.log[i];
            !o.Misled? && (o.Completed? ==> h in s.req && Answered(content, s.stream.start + Range(s), s.req[h], o))
  {
    hide Legal, Exec, Holds, Answered, Apply, Enabled, Init;
    var g := Reachable(content, es);
    LogAnswered(g, i);
  }

  /** A completed read reports the offset it asked for and carries exactly the object's bytes from there;
      it is short only when it ends at `end`. */
  predicate Answered(content: Octets, end: nat, q: Request, o: Outcome)
    requires o.Completed?
  {
    && o.offset == q.offset && |o.data| <= q.size
    && (o.data != [] ==> o.offset + |o.data| <= |content| && o.data == content[o.offset..o.offset + |o.data|])
    && (|o.data| < q.size ==> o.offset + |o.data| == end)
  }

  lemma LogAnswered(g: Good, i: nat)
    requires i < |g.s.log|
    ensures var (h, o) := g.s.log[i];
            !o.Misled? && (o.Completed? ==> h in g.s.req && Answered(g.s.source.bytes, g.s.stream.start + Range(g.s), g.s.req[h], o))
  {
    hide Holds, Truthful, Answered;
    LogTruth(g, i);
    if g.s.log[i].1.Completed? { TruthMeans(g.s.source.bytes, End(g.s), g.s.req[g.s.log[i].0], g.s.log[i].1); }
  }

  lemma LogTruth(g: Good, i: nat)
    requires i < |g.s.log|
    ensures g.s.log[i].0 in g.s.req && TruthfulOutcome(g.s.source.bytes, End(g.s), g.s.req[g.s.log[i].0], g.s.log[i].1)
  {
    hide Structure, Control, Data, Ledger, TruthfulOutcome, Truthful;
  }

  lemma TruthMeans(content: Octets, end: nat, q: Request, o: Outcome)
    requires o.Completed? && TruthfulOutcome(content, end, q, o)
    ensures Answered(content, end, q, o)
  {
  }

  lemma EmptyChain(g: Good)
    ensures g.w.c == [] ==> g.s.nodes == map[]
  {
    hide Control, Data, History, Threads, Head, Tail, Birth;
  }
}
