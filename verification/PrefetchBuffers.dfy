/** When the copies into client buffers are safe: Continue() copies the overflow after it has stored its handler,
    and the write callback copies while the transfer runs.  Both reach a live buffer as long as no failure
    overtakes a store before its copy, and no overdue operation is unpaused before it is failed. */
module PrefetchBuffers {
  import opened Common
  import opened ReadStream
  import opened PrefetchProtocol
  import opened PrefetchInvariant
  import opened PrefetchTransfer
  import opened PrefetchWorker
  import opened PrefetchLog
  import opened PrefetchTheorems

  // ---- The races.

  /** A failure takes the handler out of the slot while the thread that stored it has not copied yet. */
  predicate Overtakes(s: State, e: Event) {
    && (exists t | t in s.acts :: s.acts[t].Installing?)
    && s.slot.Some? && ((e.Run? && e.t in s.acts && s.acts[e.t].FailClaim?) || (e.Drain? && s.done))
  }

  /** The continue queue unpauses a stalled transfer and then fails it for being overdue. */
  predicate Looses(e: Event) {
    e.ExpireQueued? && e.resumed
  }

  // ---- What holds without them.

  /** The write callback can be called, or has just paused the transfer. */
  predicate Live(s: State) {
    s.created && !s.broken && (s.worker.Pausing? || (s.worker.Transferring? && !s.paused))
  }

  /** The transfer may still go on, now or after it is unpaused. */
  predicate Open(s: State) {
    s.created && !s.broken && s.worker.Transferring?
  }

  ghost predicate Failing(acts: Acts) {
    exists t | t in acts :: IsFail(acts[t])
  }

  ghost predicate NoPost(acts: Acts) {
    forall t | t in acts :: !IsPost(acts[t])
  }

  /** Who has stored and not copied yet still has its handler in the slot. */
  ghost predicate Attended(acts: Acts, slot: Option<Id>) {
    slot.None? ==> forall t | t in acts :: !acts[t].Installing?
  }

  /** Nobody fails a running transfer, and a paused one that is failing has no continuation under way. */
  ghost predicate Tame(live: bool, open: bool, done: bool, queue: nat, slot: Option<Id>, acts: Acts) {
    && (live ==> !done && !Failing(acts))
    && (open && !done && Failing(acts) ==> slot.Some? && queue == 0 && NoPost(acts))
  }

  /** The first is claimed of runs that never loose an overdue transfer, the second of runs in which no store is
      overtaken. */
  ghost predicate Strict(s: State, writes: bool, copies: bool) {
    && (writes ==> Tame(Live(s), Open(s), s.done, s.queue, s.slot, s.acts))
    && (copies ==> Attended(s.acts, s.slot))
  }

  // ---- Threads.

  /** A thread turns to something that is neither a failure nor a continuation. */
  lemma TamePut(live: bool, open: bool, done: bool, queue: nat, slot: Option<Id>, acts: Acts, t: Thread, a: Activity)
    requires Tame(live, open, done, queue, slot, acts) && !IsFail(a) && !IsPost(a)
    ensures Tame(live, open, done, queue, slot, acts[t := a])
  {
  }

  lemma TameDrop(live: bool, open: bool, done: bool, queue: nat, slot: Option<Id>, acts: Acts, t: Thread)
    requires Tame(live, open, done, queue, slot, acts)
    ensures Tame(live, open, done, queue, slot, acts - {t})
  {
  }

  lemma AttendedPut(acts: Acts, slot: Option<Id>, t: Thread, a: Activity)
    requires Attended(acts, slot) && !a.Installing?
    ensures Attended(acts[t := a], slot)
  {
  }

  lemma AttendedDrop(acts: Acts, slot: Option<Id>, t: Thread)
    requires Attended(acts, slot)
    ensures Attended(acts - {t}, slot)
  {
  }

  /** A step of a thread inside Continue(). */
  lemma TamePost(live: bool, open: bool, done: bool, queue: nat, slot: Option<Id>, acts: Acts, t: Thread, a: Activity)
    requires Tame(live, open, done, queue, slot, acts) && t in acts && IsPost(acts[t]) && !IsFail(a)
    ensures Tame(live, open, done, queue, slot, acts[t := a])
    ensures Tame(live, open, done, queue + 1, slot, acts - {t})
  {
    if Failing(acts[t := a]) || Failing(acts - {t}) { assert Failing(acts); }
  }

  lemma TameRefused(live: bool, open: bool, done: bool, queue: nat, slot: Option<Id>, acts: Acts, t: Thread)
    requires !live && t in acts && IsPost(acts[t]) && (forall x | x in acts && IsPost(acts[x]) :: x == t)
    requires !done ==> slot.Some? && queue == 0
    ensures Tame(live, open, done, queue, slot, acts[t := FailFlag])
  {
  }

  lemma TameFail(live: bool, open: bool, done: bool, queue: nat, slot: Option<Id>, acts: Acts, t: Thread, a: Activity, later: bool)
    requires Tame(live, open, done, queue, slot, acts) && t in acts && IsFail(acts[t]) && IsFail(a) && (done ==> later)
    ensures Tame(live, open, later, queue, slot, acts[t := a])
  {
    assert Failing(acts);
  }

  /** A failure begins. */
  lemma TameBegin(live: bool, open: bool, done: bool, queue: nat, slot: Option<Id>, acts: Acts, u: Thread)
    requires !live && (open && !done ==> slot.Some? && queue == 0 && NoPost(acts))
    ensures Tame(live, open, done, queue, slot, acts[u := FailFlag])
  {
  }

  // ---- Steps, by what they change.

  /** Nothing but a thread's activity. */
  lemma StrictPut(s: State, writes: bool, copies: bool, n: State, t: Thread, a: Activity)
    requires Strict(s, writes, copies) && !IsFail(a) && !IsPost(a)
    requires n.created == s.created && n.worker == s.worker && n.paused == s.paused && n.broken == s.broken
    requires n.done == s.done && n.queue == s.queue && n.slot == s.slot && n.acts == s.acts[t := a]
    ensures Strict(n, writes, copies)
  {
    hide Tame, Attended;
    if writes { TamePut(Live(s), Open(s), s.done, s.queue, s.slot, s.acts, t, a); }
    if copies { AttendedPut(s.acts, s.slot, t, a); }
  }

  lemma StrictDrop(s: State, writes: bool, copies: bool, n: State, t: Thread)
    requires Strict(s, writes, copies)
    requires n.created == s.created && n.worker == s.worker && n.paused == s.paused && n.broken == s.broken
    requires n.done == s.done && n.queue == s.queue && n.slot == s.slot && n.acts == s.acts - {t}
    ensures Strict(n, writes, copies)
  {
    hide Tame, Attended;
    if writes { TameDrop(Live(s), Open(s), s.done, s.queue, s.slot, s.acts, t); }
    if copies { AttendedDrop(s.acts, s.slot, t); }
  }

  lemma StrictPost(s: State, writes: bool, copies: bool, n: State, t: Thread, a: Activity)
    requires Strict(s, writes, copies) && t in s.acts && IsPost(s.acts[t]) && !IsFail(a) && !a.Installing?
    requires n.created == s.created && n.worker == s.worker && n.paused == s.paused && n.broken == s.broken
    requires n.done == s.done && n.slot == s.slot
    requires (n.queue == s.queue && n.acts == s.acts[t := a]) || (n.queue == s.queue + 1 && n.acts == s.acts - {t})
    ensures Strict(n, writes, copies)
  {
    hide Tame, Attended;
    if writes { TamePost(Live(s), Open(s), s.done, s.queue, s.slot, s.acts, t, a); }
    if copies {
      AttendedPut(s.acts, s.slot, t, a);
      AttendedDrop(s.acts, s.slot, t);
    }
  }

  lemma StrictFail(s: State, writes: bool, copies: bool, n: State, t: Thread, a: Activity)
    requires Strict(s, writes, copies) && t in s.acts && IsFail(s.acts[t]) && IsFail(a) && (s.done ==> n.done)
    requires n.created == s.created && n.worker == s.worker && n.paused == s.paused && n.broken == s.broken
    requires n.queue == s.queue && n.slot == s.slot && n.acts == s.acts[t := a]
    ensures Strict(n, writes, copies)
  {
    hide Tame, Attended;
    if writes { TameFail(Live(s), Open(s), s.done, s.queue, s.slot, s.acts, t, a, n.done); }
    if copies { AttendedPut(s.acts, s.slot, t, a); }
  }

  /** The handler of a finished operation is taken out of the slot. */
  lemma StrictClaim(s: State, writes: bool, copies: bool, n: State, t: Thread, a: Activity)
    requires Strict(s, writes, copies) && s.done && n.done && !IsFail(a) && !IsPost(a)
    requires Live(n) ==> Live(s)
    requires n.acts == s.acts[t := a]
    requires copies ==> forall x | x in s.acts && x != t :: !s.acts[x].Installing?
    ensures Strict(n, writes, copies)
  {
    hide Failing, NoPost;
  }

  /** A failure begins. */
  lemma StrictBegin(s: State, writes: bool, copies: bool, n: State, u: Thread)
    requires Strict(s, writes, copies) && n.done == s.done && n.slot == s.slot && n.acts == s.acts[u := FailFlag]
    requires writes ==> !Live(n) && (Open(n) && !n.done ==> n.slot.Some? && n.queue == 0 && NoPost(s.acts))
    ensures Strict(n, writes, copies)
  {
    hide Tame, Attended, NoPost;
    if writes { TameBegin(Live(n), Open(n), n.done, n.queue, n.slot, s.acts, u); }
    if copies { AttendedPut(s.acts, s.slot, u, FailFlag); }
  }

  /** Only the worker's state moves. */
  lemma StrictWorker(s: State, writes: bool, copies: bool, n: State)
    requires Strict(s, writes, copies) && n.slot == s.slot && n.acts == s.acts
    requires Live(n) ==> Live(s) && n.done == s.done
    requires Open(n) && !n.done ==> Live(s) || (Open(s) && !s.done && n.queue <= s.queue)
    ensures Strict(n, writes, copies)
  {
    hide NoPost, Attended;
  }

  // ---- What the invariant gives.

  lemma PostFacts(g: Good, t: Thread)
    requires t in g.s.acts && IsPost(g.s.acts[t])
    ensures g.s.created && !Live(g.s) && (!g.s.done ==> g.s.slot.Some? && g.s.queue == 0)
    ensures forall x | x in g.s.acts && IsPost(g.s.acts[x]) :: x == t
  {
    hide Chain, Head, Tail, Claimed, Flags, Data, History;
  }

  lemma QueuedFacts(g: Good)
    requires g.s.queue > 0 && !g.s.done
    ensures g.s.created && !Live(g.s) && g.s.slot.Some? && g.s.queue == 1 && NoPost(g.s.acts)
  {
    hide Chain, Head, Tail, Claimed, Flags, Data, History;
  }

  lemma TokenFacts(g: Good, t: Thread)
    requires t in g.s.acts && IsToken(g.s.acts[t])
    ensures g.s.slot.None?
  {
    hide Chain, Tail, Birth, Control, Data, History;
  }

  lemma DoneFacts(g: Good, t: Thread)
    requires t in g.s.acts && (g.s.acts[t].FailClaim? || g.s.acts[t].Stranding? || g.s.acts[t].Delivering?)
    ensures g.s.done
  {
    hide Structure, Ownership, Claimed, Data, History;
  }

  /** While the worker is at work nobody is inside Continue(). */
  lemma BusyAlone(g: Good)
    requires Busy(g.s.created, g.s.paused, g.s.worker)
    ensures NoPost(g.s.acts)
  {
    hide Chain, Head, Tail, Birth, Claimed, Flags, Data, History;
  }

  // ---- Every step.

  lemma StrictStore(g: Good, writes: bool, copies: bool, t: Thread)
    requires Strict(g.s, writes, copies) && t in g.s.acts && g.s.acts[t].Storing?
    ensures var h, size := g.s.acts[t].h, g.s.acts[t].size;
            Strict(g.s.(slot := Some(h), acts := g.s.acts[t := Installing(h, size)]), writes, copies)
  {
    TokenFacts(g, t);
    hide Holds, NoPost;
    var a := Installing(g.s.acts[t].h, g.s.acts[t].size);
    assert Failing(g.s.acts[t := a]) ==> Failing(g.s.acts);
    hide Failing;
  }

  lemma StrictContinue(g: Good, writes: bool, copies: bool, t: Thread, choice: bool, u: Thread)
    requires Strict(g.s, writes, copies) && t in g.s.acts && Dereferences(g.s, g.s.acts[t])
    requires g.s.acts[t].Installing? || g.s.acts[t].Loading? || g.s.acts[t].SawDone?
    ensures Strict(RunThread(g.s, t, choice, u), writes, copies)
  {
    hide Holds, Strict, Install, CopiesReleased;
    var n := RunThread(g.s, t, choice, u);
    match g.s.acts[t]
    case Installing(h, size) => StrictPost(g.s, writes, copies, n, t, Loading(h));
    case Loading(h) => StrictPost(g.s, writes, copies, n, t, if g.s.done then SawDone(h) else Enqueueing(h));
    case SawDone(h) => StrictPost(g.s, writes, copies, n, t, if g.s.failed then Stranding(h) else Delivering(h));
  }

  lemma StrictEnqueued(s: State, writes: bool, copies: bool, t: Thread)
    requires Strict(s, writes, copies) && t in s.acts && s.acts[t].Enqueueing?
    ensures Strict(Enqueue(s, t, true), writes, copies)
  {
    hide Strict;
    StrictPost(s, writes, copies, Enqueue(s, t, true), t, Disabling);
  }

  /** A continuation that cannot be queued fails the operation. */
  lemma StrictRefusal(s: State, writes: bool, copies: bool, n: State, t: Thread)
    requires Strict(s, writes, copies) && t in s.acts && IsPost(s.acts[t]) && (forall x | x in s.acts && IsPost(s.acts[x]) :: x == t)
    requires !Live(s) && (!s.done ==> s.slot.Some? && s.queue == 0)
    requires n.created == s.created && n.worker == s.worker && n.paused == s.paused && n.broken == s.broken
    requires n.done == s.done && n.queue == s.queue && n.slot == s.slot && n.acts == s.acts[t := FailFlag]
    ensures Strict(n, writes, copies)
  {
    TameRefused(Live(s), Open(s), s.done, s.queue, s.slot, s.acts, t);
    hide Tame, Attended;
    if copies { AttendedPut(s.acts, s.slot, t, FailFlag); }
  }

  lemma StrictUnqueued(g: Good, writes: bool, copies: bool, t: Thread)
    requires Strict(g.s, writes, copies) && t in g.s.acts && g.s.acts[t].Enqueueing?
    ensures Strict(Enqueue(g.s, t, false), writes, copies)
  {
    PostFacts(g, t);
    hide Holds, Strict, Live;
    StrictRefusal(g.s, writes, copies, Enqueue(g.s, t, false), t);
  }

  lemma StrictLeave(s: State, writes: bool, copies: bool, t: Thread)
    requires Strict(s, writes, copies)
    ensures Strict(Leave(s, t), writes, copies)
  {
    hide Strict;
    StrictDrop(s, writes, copies, Leave(s, t), t);
  }

  lemma StrictTaken(s: State, writes: bool, copies: bool, t: Thread, r: Response)
    requires Strict(s, writes, copies) && s.done && s.slot.Some?
    requires copies ==> forall x | x in s.acts && x != t :: !s.acts[x].Installing?
    ensures Strict(Claim(s, t, r), writes, copies)
  {
    hide Strict;
    StrictClaim(s, writes, copies, Claim(s, t, r), t, Handling(s.slot.value, r));
  }

  lemma StrictTake(s: State, writes: bool, copies: bool, t: Thread)
    requires Strict(s, writes, copies) && s.done && s.slot.Some?
    requires copies ==> forall x | x in s.acts && x != t :: !s.acts[x].Installing?
    ensures Strict(Take(s, t), writes, copies)
  {
    hide Strict;
    StrictClaim(s, writes, copies, Take(s, t), t, Building(s.slot.value));
  }

  lemma StrictEnd(g: Good, writes: bool, copies: bool, t: Thread)
    requires Strict(g.s, writes, copies) && t in g.s.acts && (g.s.acts[t].Stranding? || g.s.acts[t].Delivering?)
    ensures Strict(Leave(g.s, t), writes, copies)
    ensures g.s.slot.Some? ==> Strict(Claim(g.s, t, Error), writes, copies) && Strict(Take(g.s, t), writes, copies)
  {
    PostFacts(g, t);
    DoneFacts(g, t);
    hide Holds, Strict, Leave, Claim, Take, Live;
    StrictLeave(g.s, writes, copies, t);
    if g.s.slot.Some? {
      StrictTaken(g.s, writes, copies, t, Error);
      StrictTake(g.s, writes, copies, t);
    }
  }

  lemma StrictFailStores(s: State, writes: bool, copies: bool, t: Thread, choice: bool, u: Thread)
    requires Strict(s, writes, copies) && t in s.acts && (s.acts[t].FailFlag? || s.acts[t].FailDone?)
    ensures Strict(RunThread(s, t, choice, u), writes, copies)
  {
    hide Strict;
    StrictFail(s, writes, copies, RunThread(s, t, choice, u), t, if s.acts[t].FailFlag? then FailDone else FailClaim);
  }

  lemma StrictFailLost(s: State, writes: bool, copies: bool, t: Thread, choice: bool, u: Thread)
    requires Strict(s, writes, copies) && t in s.acts && s.acts[t].FailClaim? && s.slot.None?
    ensures Strict(RunThread(s, t, choice, u), writes, copies)
  {
    hide Strict;
    StrictPut(s, writes, copies, RunThread(s, t, choice, u), t, Disabling);
  }

  lemma StrictDisable(s: State, writes: bool, copies: bool, t: Thread, choice: bool, u: Thread)
    requires Strict(s, writes, copies) && t in s.acts && s.acts[t].Disabling?
    ensures Strict(RunThread(s, t, choice, u), writes, copies)
  {
    hide Strict;
    StrictDrop(s, writes, copies, RunThread(s, t, choice, u), t);
  }

  lemma StrictFailRun(g: Good, writes: bool, copies: bool, t: Thread, choice: bool, u: Thread)
    requires Strict(g.s, writes, copies) && t in g.s.acts && (IsFail(g.s.acts[t]) || g.s.acts[t].Disabling?)
    requires copies ==> !Overtakes(g.s, Run(t, choice, u))
    ensures Strict(RunThread(g.s, t, choice, u), writes, copies)
  {
    if g.s.acts[t].FailClaim? { DoneFacts(g, t); }
    hide Holds, Strict, Claim;
    if g.s.acts[t].FailClaim? && g.s.slot.Some? {
      StrictTaken(g.s, writes, copies, t, Error);
    } else {
      hide RunThread;
      match g.s.acts[t]
      case FailClaim => StrictFailLost(g.s, writes, copies, t, choice, u);
      case Disabling => StrictDisable(g.s, writes, copies, t, choice, u);
      case _ => StrictFailStores(g.s, writes, copies, t, choice, u);
    }
  }

  lemma StrictBuild(s: State, writes: bool, copies: bool, t: Thread, h: Id)
    requires Strict(s, writes, copies) && s.stream.current.Some?
    ensures Strict(Build(s, t, h), writes, copies)
  {
    hide Strict, Deliver, Chunk;
    StrictPut(s, writes, copies, Build(s, t, h), t, Handling(h, Chunk(s.stream, s.owner == Some(h))));
  }

  lemma StrictReply(s: State, writes: bool, copies: bool, t: Thread, choice: bool, u: Thread)
    requires Strict(s, writes, copies) && t in s.acts && s.acts[t].Replying?
    ensures Strict(RunThread(s, t, choice, u), writes, copies)
  {
    hide Strict, Answer;
    StrictDrop(s, writes, copies, RunThread(s, t, choice, u), t);
  }

  lemma StrictLook(s: State, writes: bool, copies: bool, t: Thread, h: Id, r: Response)
    requires Strict(s, writes, copies)
    ensures Strict(Look(s, t, h, r), writes, copies)
  {
    hide Strict;
    if s.alive {
      StrictPut(s, writes, copies, Look(s, t, h, r), t, Rereading(h, r));
    } else {
      StrictPut(s, writes, copies, Look(s, t, h, r), t, Advancing(h, r));
    }
  }

  lemma StrictReread(s: State, writes: bool, copies: bool, t: Thread, choice: bool, h: Id, r: Response)
    requires Strict(s, writes, copies)
    ensures Strict(Reread(s, t, choice, h, r), writes, copies)
  {
    hide Strict;
    StrictPut(s, writes, copies, Reread(s, t, choice, h, r), t, Advancing(h, r));
  }

  lemma StrictAdvanceNext(s: State, writes: bool, copies: bool, t: Thread, h: Id, r: Response)
    requires Strict(s, writes, copies) && h in s.nodes && s.nodes[h].next.Some?
    ensures Strict(Advance(s, t, h, r), writes, copies)
  {
    hide Strict;
    StrictPut(s, writes, copies, Advance(s, t, h, r), t, Resubmitting(s.nodes[h].next.value, r));
  }

  lemma StrictAdvanceEnd(s: State, writes: bool, copies: bool, t: Thread, h: Id, r: Response)
    requires Strict(s, writes, copies) && h in s.nodes && s.nodes[h].next.None?
    ensures Strict(Advance(s, t, h, r), writes, copies)
  {
    hide Strict;
    StrictDrop(s, writes, copies, Advance(s, t, h, r), t);
  }

  /** The response is in the thread's hands, and another one goes on with the chain. */
  lemma StrictTwo(s: State, writes: bool, copies: bool, n: State, t: Thread, a: Activity, u: Thread, b: Activity)
    requires Strict(s, writes, copies) && !IsFail(a) && !IsPost(a) && !IsFail(b) && !IsPost(b)
    requires n.created == s.created && n.worker == s.worker && n.paused == s.paused && n.broken == s.broken
    requires n.done == s.done && n.queue == s.queue && n.slot == s.slot && n.acts == s.acts[t := a][u := b]
    ensures Strict(n, writes, copies)
  {
    hide Tame, Attended;
    if writes {
      TamePut(Live(s), Open(s), s.done, s.queue, s.slot, s.acts, t, a);
      TamePut(Live(s), Open(s), s.done, s.queue, s.slot, s.acts[t := a], u, b);
    }
    if copies {
      AttendedPut(s.acts, s.slot, t, a);
      AttendedPut(s.acts[t := a], s.slot, u, b);
    }
  }

  lemma StrictHandle(s: State, writes: bool, copies: bool, t: Thread, u: Thread, h: Id, r: Response)
    requires Strict(s, writes, copies) && h in s.nodes && (s.nodes[h].next.Some? ==> s.nodes[h].next.value in s.nodes)
    ensures Strict(HandleResponse(s, t, u, h, r), writes, copies)
  {
    HandledActs(s, t, u, h, r);
    hide Strict, HandleResponse;
    var n := HandleResponse(s, t, u, h, r);
    if s.nodes[h].next.None? {
      StrictPut(s, writes, copies, n, t, Replying(h, r));
    } else {
      StrictTwo(s, writes, copies, n, t, Replying(h, r), u, n.acts[u]);
    }
  }

  lemma HandledActs(s: State, t: Thread, u: Thread, h: Id, r: Response)
    requires h in s.nodes && (s.nodes[h].next.Some? ==> s.nodes[h].next.value in s.nodes)
    ensures var n := HandleResponse(s, t, u, h, r); var acts := s.acts[t := Replying(h, r)];
            && n.created == s.created && n.worker == s.worker && n.paused == s.paused && n.broken == s.broken
            && n.done == s.done && n.queue == s.queue && n.slot == s.slot
            && (s.nodes[h].next.None? ==> n.acts == acts)
            && (s.nodes[h].next.Some? ==> u in n.acts && (n.acts[u].Storing? || n.acts[u].Resubmitting?) && n.acts == acts[u := n.acts[u]])
  {
  }

  lemma StrictWalk(s: State, writes: bool, copies: bool, t: Thread, choice: bool, u: Thread)
    requires Strict(s, writes, copies) && t in s.acts && Dereferences(s, s.acts[t]) && (Walking(s.acts[t]) || s.acts[t].Building?)
    ensures Strict(RunThread(s, t, choice, u), writes, copies)
  {
    hide Strict, Look, Reread, Advance, Build;
    match s.acts[t]
    case Resubmitting(h, r) => StrictLook(s, writes, copies, t, h, r);
    case Rereading(h, r) => StrictReread(s, writes, copies, t, choice, h, r);
    case Building(h) => StrictBuild(s, writes, copies, t, h);
    case Advancing(h, r) =>
      if s.nodes[h].next.Some? { StrictAdvanceNext(s, writes, copies, t, h, r); } else { StrictAdvanceEnd(s, writes, copies, t, h, r); }
  }

  lemma StrictRun(g: Good, writes: bool, copies: bool, t: Thread, choice: bool, u: Thread)
    requires Strict(g.s, writes, copies) && t in g.s.acts && Dereferences(g.s, g.s.acts[t])
    requires copies ==> !Overtakes(g.s, Run(t, choice, u))
    ensures Strict(RunThread(g.s, t, choice, u), writes, copies)
  {
    hide Holds, Strict, HandleResponse, Enqueue, Claim, Take, Leave, Overtakes;
    var a := g.s.acts[t];
    if IsFail(a) || a.Disabling? {
      hide RunThread;
      StrictFailRun(g, writes, copies, t, choice, u);
    } else if Walking(a) || a.Building? {
      hide RunThread;
      StrictWalk(g.s, writes, copies, t, choice, u);
    } else if a.Replying? {
      hide RunThread;
      StrictReply(g.s, writes, copies, t, choice, u);
    } else if a.Installing? || a.Loading? || a.SawDone? {
      hide RunThread;
      StrictContinue(g, writes, copies, t, choice, u);
    } else {
      match a
      case Storing(h, size) => StrictStore(g, writes, copies, t);
      case Enqueueing(h) =>
        if choice { StrictEnqueued(g.s, writes, copies, t); } else { StrictUnqueued(g, writes, copies, t); }
      case Stranding(h) => StrictEnd(g, writes, copies, t);
      case Delivering(h) => StrictEnd(g, writes, copies, t);
      case Handling(h, r) => StrictHandle(g.s, writes, copies, t, u, h, r);
    }
  }

  lemma StrictCreate(g: Good, writes: bool, copies: bool, id: Id, offset: nat, size: nat, limit: nat)
    requires Enabled(g.s, ReadCreate(id, offset, size, limit))
    ensures Strict(Apply(g.s, ReadCreate(id, offset, size, limit)), writes, copies)
  {
    CreateFacts(g);
    hide Holds, RunThread, WriteCallback, SuccessStep, PauseStep;
  }

  lemma CreateFacts(g: Good)
    requires !g.s.created
    ensures g.s.acts == map[] && !g.s.done
  {
    hide Threads, Chain, Head, Tail, Control, Data, History;
  }

  lemma StrictStart(g: Good, writes: bool, copies: bool, id: Id, offset: nat, size: nat, u: Thread)
    requires Strict(g.s, writes, copies) && Enabled(g.s, ReadStart(id, offset, size, u))
    ensures Strict(Apply(g.s, ReadStart(id, offset, size, u)), writes, copies)
  {
    hide Holds, Strict, RunThread, WriteCallback, SuccessStep, PauseStep;
    StrictPut(g.s, writes, copies, Apply(g.s, ReadStart(id, offset, size, u)), u, Storing(id, size));
  }

  /** Steps of the file leave the operation and the threads alone. */
  lemma StrictFile(s: State, writes: bool, copies: bool, e: Event)
    requires Strict(s, writes, copies) && Enabled(s, e)
    requires e.ReadAppend? || e.ReadRefused? || e.Resumed? || e.Disable? || e.Detach? || e.Cancel?
    ensures Strict(Apply(s, e), writes, copies)
  {
    hide Tame, Attended, RunThread, WriteCallback, SuccessStep, PauseStep, Abandons;
  }

  lemma StrictWriteTaken(s: State, writes: bool, copies: bool, data: Octets, stopped: bool)
    requires Strict(s, writes, copies) && Live(s) && s.worker.Transferring? && !stopped && Accept(s.stream, data).1 == Taken
    ensures Strict(WriteCallback(s, data, stopped), writes, copies)
  {
    hide Tame, Attended, Accept;
  }

  lemma StrictWriteBroken(s: State, writes: bool, copies: bool, data: Octets, stopped: bool)
    requires Strict(s, writes, copies) && (stopped || Accept(s.stream, data).1 == TooMuch)
    ensures Strict(WriteCallback(s, data, stopped), writes, copies)
  {
    hide Strict, Accept, Held;
    StrictWorker(s, writes, copies, WriteCallback(s, data, stopped));
  }

  lemma StrictWritePaused(s: State, writes: bool, copies: bool, data: Octets, stopped: bool)
    requires Strict(s, writes, copies) && Live(s) && !stopped && Accept(s.stream, data).1 == Paused
    ensures Strict(WriteCallback(s, data, stopped), writes, copies)
  {
    hide Strict, Accept;
    StrictWorker(s, writes, copies, WriteCallback(s, data, stopped));
  }

  lemma StrictWrite(s: State, writes: bool, copies: bool, data: Octets, stopped: bool)
    requires Strict(s, writes, copies) && Live(s) && s.worker.Transferring?
    ensures Strict(WriteCallback(s, data, stopped), writes, copies)
  {
    hide Strict, WriteCallback, Accept, Live;
    if stopped || Accept(s.stream, data).1 == TooMuch {
      StrictWriteBroken(s, writes, copies, data, stopped);
    } else if Accept(s.stream, data).1 == Taken {
      StrictWriteTaken(s, writes, copies, data, stopped);
    } else {
      StrictWritePaused(s, writes, copies, data, stopped);
    }
  }

  /** The end of the transfer, and the stores and looks of Success(). */
  lemma StrictFinish(s: State, writes: bool, copies: bool, n: State)
    requires Strict(s, writes, copies) && n.slot == s.slot && n.acts == s.acts && !n.worker.Transferring? && !n.worker.Pausing?
    ensures Strict(n, writes, copies)
  {
    hide Strict;
    StrictWorker(s, writes, copies, n);
  }

  lemma StrictSuccessFlags(s: State, writes: bool, copies: bool, u: Thread)
    requires Strict(s, writes, copies) && (s.worker.SuccessFlag? || s.worker.SuccessDone?)
    ensures Strict(SuccessStep(s, u), writes, copies)
  {
    hide Strict, Claim;
    StrictFinish(s, writes, copies, SuccessStep(s, u));
  }

  lemma StrictSuccessIdle(s: State, writes: bool, copies: bool, u: Thread)
    requires Strict(s, writes, copies) && (s.worker.SuccessCheck? || s.worker.SuccessClaim?) && s.slot.None?
    ensures Strict(SuccessStep(s, u), writes, copies)
  {
    hide Strict, Claim;
    StrictFinish(s, writes, copies, SuccessStep(s, u));
  }

  lemma StrictSuccessCheck(s: State, writes: bool, copies: bool, u: Thread)
    requires Strict(s, writes, copies) && s.worker.SuccessCheck? && s.slot.Some? && s.stream.current.Some?
    ensures Strict(SuccessStep(s, u), writes, copies)
  {
    hide Strict, Claim, Deliver, Chunk;
    StrictFinish(s, writes, copies, SuccessStep(s, u));
  }

  lemma StrictSuccessClaim(s: State, writes: bool, copies: bool, u: Thread)
    requires Strict(s, writes, copies) && s.worker.SuccessClaim? && s.slot.Some? && s.done && NoPost(s.acts)
    ensures Strict(SuccessStep(s, u), writes, copies)
  {
    hide Strict;
    StrictClaim(s, writes, copies, SuccessStep(s, u), u, Handling(s.slot.value, s.worker.r));
  }

  lemma StrictPauseIdle(s: State, writes: bool, copies: bool, u: Thread)
    requires Strict(s, writes, copies) && s.slot.None? && s.worker.Pausing? && s.paused && s.created
    ensures Strict(PauseStep(s, u), writes, copies)
  {
    hide Strict, Take;
    StrictWorker(s, writes, copies, PauseStep(s, u));
  }

  lemma StrictPauseTake(s: State, writes: bool, copies: bool, u: Thread)
    requires Strict(s, writes, copies) && s.slot.Some? && s.worker.Pausing? && s.paused && s.created && NoPost(s.acts)
    ensures Strict(PauseStep(s, u), writes, copies)
  {
    StrictTakes(s, writes, copies, PauseStep(s, u), u);
  }

  lemma StrictTakes(s: State, writes: bool, copies: bool, n: State, u: Thread)
    requires Strict(s, writes, copies) && s.worker.Pausing? && s.created && NoPost(s.acts) && s.slot.Some?
    requires n.broken == s.broken && n.worker.Transferring? && n.paused && n.acts == s.acts[u := Building(s.slot.value)]
    ensures Strict(n, writes, copies)
  {
    assert Failing(n.acts) ==> Failing(s.acts);
    hide Failing;
  }

  lemma StrictWorkerStep(g: Good, writes: bool, copies: bool, u: Thread)
    requires Strict(g.s, writes, copies) && Enabled(g.s, WorkerStep(u))
    ensures Strict(Apply(g.s, WorkerStep(u)), writes, copies)
  {
    WorkerFlags(g);
    BusyAlone(g);
    hide Holds, Strict, NoPost, SuccessStep, PauseStep;
    if g.s.worker.Pausing? {
      if g.s.slot.None? { StrictPauseIdle(g.s, writes, copies, u); } else { StrictPauseTake(g.s, writes, copies, u); }
    } else if g.s.worker.SuccessClaim? && g.s.slot.Some? {
      StrictSuccessClaim(g.s, writes, copies, u);
    } else if g.s.worker.SuccessFlag? || g.s.worker.SuccessDone? {
      StrictSuccessFlags(g.s, writes, copies, u);
    } else if g.s.slot.None? {
      StrictSuccessIdle(g.s, writes, copies, u);
    } else {
      StrictSuccessCheck(g.s, writes, copies, u);
    }
  }

  lemma StrictLateIdle(s: State, writes: bool, copies: bool, u: Thread)
    requires Strict(s, writes, copies) && s.queue > 0 && s.slot.None? && s.done
    ensures Strict(LateDrain(s, u), writes, copies)
  {
    hide Failing, NoPost, Attended;
  }

  lemma StrictLateClaim(s: State, writes: bool, copies: bool, u: Thread)
    requires Strict(s, writes, copies) && s.queue > 0 && s.slot.Some? && s.done
    requires copies ==> forall x | x in s.acts && x != u :: !s.acts[x].Installing?
    ensures Strict(LateDrain(s, u), writes, copies)
  {
    hide Strict;
    StrictClaim(s, writes, copies, LateDrain(s, u), u, Handling(s.slot.value, Error));
  }

  lemma StrictResume(g: Good, writes: bool, copies: bool)
    requires Strict(g.s, writes, copies) && g.s.queue > 0 && !g.s.done && g.s.worker.Transferring?
    ensures Strict(g.s.(queue := g.s.queue - 1, paused := false, resuming := true), writes, copies)
  {
    QueuedFacts(g);
    hide Holds, Failing, NoPost, Attended;
  }

  lemma StrictEnds(s: State, writes: bool, copies: bool, u: Thread, queue: nat)
    requires Strict(s, writes, copies)
    ensures Strict(s.(queue := queue, broken := true, acts := s.acts[u := FailFlag]), writes, copies)
  {
    hide Strict, NoPost;
    StrictBegin(s, writes, copies, s.(queue := queue, broken := true, acts := s.acts[u := FailFlag]), u);
  }

  lemma StrictDrain(g: Good, writes: bool, copies: bool, ok: bool, u: Thread)
    requires Strict(g.s, writes, copies) && Enabled(g.s, Drain(ok, u)) && (copies ==> !Overtakes(g.s, Drain(ok, u)))
    ensures Strict(Apply(g.s, Drain(ok, u)), writes, copies)
  {
    WorkerFlags(g);
    hide Holds, Strict, LateDrain;
    if g.s.done {
      if g.s.slot.None? { StrictLateIdle(g.s, writes, copies, u); } else { StrictLateClaim(g.s, writes, copies, u); }
    } else if g.s.cancelled || !ok {
      StrictEnds(g.s, writes, copies, u, g.s.queue - 1);
    } else {
      StrictResume(g, writes, copies);
    }
  }

  lemma StrictOverdue(g: Good, writes: bool, copies: bool, u: Thread, resumed: bool)
    requires Strict(g.s, writes, copies) && g.s.queue > 0 && (writes ==> !resumed)
    ensures Strict(Overdue(g.s, u, resumed), writes, copies)
  {
    if !g.s.done { QueuedFacts(g); }
    assert writes && g.s.done ==> !Live(g.s);
    hide Holds, Strict, NoPost;
    StrictBegin(g.s, writes, copies, Overdue(g.s, u, resumed), u);
  }

  lemma StrictStep(g: Good, writes: bool, copies: bool, e: Event)
    requires Strict(g.s, writes, copies) && Enabled(g.s, e) && (writes ==> !Looses(e)) && (copies ==> !Overtakes(g.s, e))
    ensures Strict(Apply(g.s, e), writes, copies)
  {
    Created(g);
    hide Holds, Strict, RunThread, WriteCallback, SuccessStep, PauseStep, NextBytes, Overdue, Overtakes, FillsReleased, Abandons;
    match e
    case Run(t, choice, u) => StrictRun(g, writes, copies, t, choice, u);
    case CurlWrite(data, stopped) => StrictWrite(g.s, writes, copies, data, stopped);
    case CurlFinish => StrictFinish(g.s, writes, copies, Apply(g.s, e));
    case WorkerStep(u) => hide Apply; StrictWorkerStep(g, writes, copies, u);
    case Drain(ok, u) => hide Apply; StrictDrain(g, writes, copies, ok, u);
    case ExpireQueued(u, resumed) => StrictOverdue(g, writes, copies, u, resumed);
    case FailNow(u) => StrictEnds(g.s, writes, copies, u, g.s.queue);
    case ReadCreate(id, offset, size, limit) => hide Apply; StrictCreate(g, writes, copies, id, offset, size, limit);
    case ReadStart(id, offset, size, u) => hide Apply; StrictStart(g, writes, copies, id, offset, size, u);
    case _ => hide Apply; StrictFile(g.s, writes, copies, e);
  }

  // ---- What it means for the copies.

  /** The handler in the slot was not told. */
  lemma SlotUntold(g: Good)
    requires g.s.slot.Some?
    ensures !Released(g.s.log, g.s.slot.value)
  {
    hide Holds;
    LedgerOnce(g);
  }

  lemma CopySlot(g: Good, t: Thread)
    requires t in g.s.acts && g.s.acts[t].Installing? && g.s.slot.Some?
    ensures g.s.slot == Some(g.s.acts[t].h)
  {
    hide Chain, Head, Tail, Birth, Claimed, Flags, Data, History;
  }

  lemma CopyLive(g: Good, writes: bool, e: Event)
    requires Strict(g.s, writes, true)
    ensures !CopiesToReleased(g.s, e)
  {
    if e.Run? && e.t in g.s.acts && g.s.acts[e.t].Installing? {
      CopySlot(g, e.t);
      SlotUntold(g);
    }
    hide Holds, Released;
  }

  /** The buffer a running transfer writes to belongs to the handler in the slot. */
  lemma WriteOwner(g: Good)
    requires Live(g.s) && g.s.worker.Transferring? && !g.s.done
    ensures g.s.slot.Some? && g.s.owner == g.s.slot
  {
    BusyFacts(g);
    HeadRequested(g.s, g.w);
    hide Chain, Tail, Birth, Claimed, Flags, History, Bytes, HolderOffsets, NextOffset, Vacant, Brimful, Truthful;
  }

  lemma WriteLive(g: Good, copies: bool, e: Event)
    requires Strict(g.s, true, copies) && Possible(g.s, e)
    ensures !WritesToReleased(g.s, e)
  {
    if e.CurlWrite? {
      assert Live(g.s) && !g.s.done;
      WriteOwner(g);
      SlotUntold(g);
    }
    hide Holds, Released;
  }

  // ---- Every run.

  /** No step of the run overtakes a store, or none looses an overdue transfer. */
  ghost predicate Keen(s: State, es: seq<Event>, writes: bool, copies: bool)
    requires Legal(s, es)
    decreases |es|
  {
    es != [] ==> (writes ==> !Looses(es[0])) && (copies ==> !Overtakes(s, es[0])) && Keen(Apply(s, es[0]), es[1..], writes, copies)
  }

  lemma {:induction false} StrictRuns(g: Good, es: seq<Event>, writes: bool, copies: bool) returns (k: Good)
    requires Legal(g.s, es) && Strict(g.s, writes, copies) && Keen(g.s, es, writes, copies)
    ensures k.s == Exec(g.s, es) && Strict(k.s, writes, copies)
    decreases |es|
  {
    hide Holds, Strict, Apply, Enabled, Overtakes, Looses;
    if es == [] {
      k := g;
    } else {
      StrictStep(g, writes, copies, es[0]);
      var m := Keeps(g, es[0]);
      k := StrictRuns(m, es[1..], writes, copies);
    }
  }

  lemma InitStrict(content: Octets, writes: bool, copies: bool)
    ensures Strict(Init(content), writes, copies)
  {
  }

  /** Over every run: Continue() copies into the buffer of a read that was told already only if some step before
      overtook a store, and the write callback only if some step before loosed an overdue transfer. */
  lemma BuffersLive(content: Octets, es: seq<Event>, e: Event)
    requires Legal(Init(content), es) && Possible(Exec(Init(content), es), e)
    ensures Keen(Init(content), es, false, true) ==> !CopiesToReleased(Exec(Init(content), es), e)
    ensures Keen(Init(content), es, true, false) ==> !WritesToReleased(Exec(Init(content), es), e)
  {
    InitHolds(content);
    InitStrict(content, false, true);
    InitStrict(content, true, false);
    hide Holds, Legal, Exec, Keen, Strict, Possible, CopiesToReleased, WritesToReleased;
    var g: Good := Snapshot(Init(content), Witness([], None, None, map[]));
    if Keen(g.s, es, false, true) {
      var k := StrictRuns(g, es, false, true);
      CopyLive(k, false, e);
    }
    if Keen(g.s, es, true, false) {
      var k := StrictRuns(g, es, true, false);
      WriteLive(k, false, e);
    }
  }

  /** The three races: the file is destroyed under a walker that is about to read from it, a failure overtakes a
      store, an overdue transfer is loosed. */
  predicate Races(s: State, e: Event) {
    (e.Detach? && Abandons(s)) || Overtakes(s, e) || Looses(e)
  }

  /** A schedule each of whose steps can be scheduled, as far as it gets without following a dangling
      pointer, and without a race. */
  predicate Schedulable(s: State, es: seq<Event>)
    decreases |es|
  {
    es != [] ==> Possible(s, es[0]) && !Races(s, es[0]) && (Safe(s, es[0]) ==> Schedulable(Apply(s, es[0]), es[1..]))
  }

  /** Every such schedule runs to its end: but for those races the legal runs are all the runs there are. */
  lemma {:induction false} ScheduleIsLegal(g: Good, es: seq<Event>)
    requires Schedulable(g.s, es) && !g.s.abandoned && Strict(g.s, true, true)
    ensures Legal(g.s, es) && !Exec(g.s, es).abandoned && Strict(Exec(g.s, es), true, true)
    decreases |es|
  {
    if es != [] {
      StepIsLegal(g, es[0]);
      hide Holds, Apply, Possible, Safe, Strict, Races;
      var m := Keeps(g, es[0]);
      ScheduleIsLegal(m, es[1..]);
    }
  }

  lemma StepIsLegal(g: Good, e: Event)
    requires Possible(g.s, e) && !Races(g.s, e) && !g.s.abandoned && Strict(g.s, true, true)
    ensures Enabled(g.s, e) && !Apply(g.s, e).abandoned && Strict(Apply(g.s, e), true, true)
  {
    hide Holds, Apply, Possible, Safe, Strict, CallsGoneFile, CopiesToReleased, WritesToReleased, Overtakes, Abandons;
    SafeStep(g, e);
    CopyLive(g, true, e);
    WriteLive(g, true, e);
    AbandonedBy(g.s, e);
    StrictStep(g, true, true, e);
  }
}
