/** Reads that the prefetch protocol has lost: accepted and untold, but held by no thread, no slot and no
    other handler.  The protocol never gets there by itself; whoever overwrites the slot may take it
    there, and then they are told in no continuation. */
module PrefetchLost {
  import opened Common
  import opened ReadStream
  import opened PrefetchProtocol
  import opened PrefetchInvariant

  /** The activity holds a read of `lost`: it will tell it or put it into the slot. */
  predicate Holding(a: Activity, lost: set<Id>) {
    (IsToken(a) || a.Replying?) && a.h in lost
  }

  ghost predicate Unheld(acts: Acts, lost: set<Id>) {
    forall t | t in acts :: !Holding(acts[t], lost)
  }

  ghost predicate Unlinked(nodes: map<Id, Node>, lost: set<Id>) {
    forall h | h in nodes && h !in lost :: nodes[h].next.Some? ==> nodes[h].next.value !in lost
  }

  ghost predicate Untold(log: seq<(Id, Outcome)>, lost: set<Id>) {
    forall i | 0 <= i < |log| :: log[i].0 !in lost
  }

  /** Some accepted, untold reads that no thread, no slot and no other handler leads to. */
  ghost predicate Orphans(nodes: map<Id, Node>, req: map<Id, Request>, slot: Option<Id>, acts: Acts,
                          log: seq<(Id, Outcome)>, lost: set<Id>)
  {
    && lost != {} && lost <= nodes.Keys && lost <= req.Keys
    && (slot.Some? ==> slot.value !in lost)
    && Unheld(acts, lost) && Unlinked(nodes, lost) && Untold(log, lost)
  }

  ghost predicate Orphaned(s: State, lost: set<Id>) {
    Orphans(s.nodes, s.req, s.slot, s.acts, s.log, lost)
  }

  lemma UnheldPut(acts: Acts, t: Thread, a: Activity, lost: set<Id>)
    requires Unheld(acts, lost) && !Holding(a, lost)
    ensures Unheld(acts[t := a], lost)
  {
  }

  lemma UnheldDrop(acts: Acts, t: Thread, lost: set<Id>)
    requires Unheld(acts, lost)
    ensures Unheld(acts - {t}, lost)
  {
  }

  /** A thread moves on to something that holds none of the lost, or leaves; the slot may change with it. */
  lemma OrphanMove(s: State, lost: set<Id>, slot: Option<Id>, t: Thread)
    requires Orphaned(s, lost) && (slot.Some? ==> slot.value !in lost)
    ensures Orphans(s.nodes, s.req, slot, s.acts - {t}, s.log, lost)
    ensures Orphans(s.nodes, s.req, slot, s.acts, s.log, lost)
    ensures forall a :: !Holding(a, lost) ==> Orphans(s.nodes, s.req, slot, s.acts[t := a], s.log, lost)
  {
    UnheldDrop(s.acts, t, lost);
    forall a | !Holding(a, lost) ensures Unheld(s.acts[t := a], lost) {
      UnheldPut(s.acts, t, a, lost);
    }
    hide Unheld, Unlinked, Untold;
  }

  /** The same, for whatever else the step changes. */
  lemma OrphanAs(s: State, lost: set<Id>, slot: Option<Id>, t: Thread, a: Activity, n: State)
    requires Orphaned(s, lost) && !Holding(a, lost) && (slot.Some? ==> slot.value !in lost)
    requires n.nodes == s.nodes && n.req == s.req && n.log == s.log && n.slot == slot && n.acts == s.acts[t := a]
    ensures Orphaned(n, lost)
  {
    OrphanMove(s, lost, slot, t);
    hide Orphans;
  }

  lemma OrphanPut(s: State, lost: set<Id>, slot: Option<Id>, t: Thread, a: Activity) returns (n: State)
    requires Orphaned(s, lost) && !Holding(a, lost) && (slot.Some? ==> slot.value !in lost)
    ensures n == s.(slot := slot, acts := s.acts[t := a])
    ensures Orphaned(n, lost)
  {
    hide Orphaned;
    n := s.(slot := slot, acts := s.acts[t := a]);
    OrphanAs(s, lost, slot, t, a, n);
  }

  lemma OrphanLeave(s: State, lost: set<Id>, t: Thread) returns (n: State)
    requires Orphaned(s, lost)
    ensures n == s.(acts := s.acts - {t})
    ensures Orphaned(n, lost)
  {
    SlotKept(s, lost);
    OrphanMove(s, lost, s.slot, t);
    hide Orphans;
    n := s.(acts := s.acts - {t});
  }

  /** A thread takes the handler out of the slot. */
  lemma OrphanClaim(s: State, lost: set<Id>, u: Thread, r: Response) returns (n: State)
    requires Orphaned(s, lost) && s.slot.Some?
    ensures n == Claim(s, u, r)
    ensures Orphaned(n, lost)
  {
    SlotKept(s, lost);
    hide Orphaned;
    n := OrphanPut(s, lost, None, u, Handling(s.slot.value, r));
  }

  lemma OrphanBegin(s: State, lost: set<Id>, t: Thread) returns (n: State)
    requires Orphaned(s, lost) && t in s.acts && (s.acts[t].Storing? || s.acts[t].Installing?)
    ensures var a := s.acts[t];
            n == if a.Storing? then s.(slot := Some(a.h), acts := s.acts[t := Installing(a.h, a.size)])
                 else s.(stream := Install(s.stream, a.size), owner := Some(a.h), acts := s.acts[t := Loading(a.h)])
    ensures Orphaned(n, lost)
  {
    StorableOrphan(s, lost, t);
    SlotKept(s, lost);
    hide Orphans, Install;
    var a := s.acts[t];
    if a.Storing? {
      n := OrphanPut(s, lost, Some(a.h), t, Installing(a.h, a.size));
    } else {
      var m := OrphanPut(s, lost, s.slot, t, Loading(a.h));
      n := m.(stream := Install(s.stream, a.size), owner := Some(a.h));
    }
  }

  lemma OrphanEnqueued(s: State, lost: set<Id>, t: Thread)
    requires Orphaned(s, lost)
    ensures Orphaned(Enqueue(s, t, true), lost)
  {
    SlotKept(s, lost);
    OrphanMove(s, lost, s.slot, t);
    hide Orphans;
  }

  lemma OrphanUnqueued(s: State, lost: set<Id>, t: Thread)
    requires Orphaned(s, lost)
    ensures Orphaned(Enqueue(s, t, false), lost)
  {
    SlotKept(s, lost);
    hide Orphaned;
    OrphanAs(s, lost, s.slot, t, FailFlag, Enqueue(s, t, false));
  }

  lemma OrphanContinue(s: State, lost: set<Id>, t: Thread, choice: bool) returns (n: State)
    requires Orphaned(s, lost) && t in s.acts && Dereferences(s, s.acts[t]) && (s.acts[t].Storing? || IsPost(s.acts[t]))
    requires !s.acts[t].Stranding? && !s.acts[t].Delivering?
    ensures n == RunThread(s, t, choice, t)
    ensures Orphaned(n, lost)
  {
    SlotKept(s, lost);
    hide Orphaned, Install, Enqueue;
    match s.acts[t]
    case Storing(h, size) => n := OrphanBegin(s, lost, t);
    case Installing(h, size) => n := OrphanBegin(s, lost, t);
    case Loading(h) => n := OrphanPut(s, lost, s.slot, t, if s.done then SawDone(h) else Enqueueing(h));
    case SawDone(h) => n := OrphanPut(s, lost, s.slot, t, if s.failed then Stranding(h) else Delivering(h));
    case Enqueueing(h) =>
      n := Enqueue(s, t, choice);
      if choice { OrphanEnqueued(s, lost, t); } else { OrphanUnqueued(s, lost, t); }
  }

  /** A thread takes the handler out of the slot, before it looks at the buffer. */
  lemma OrphanTake(s: State, lost: set<Id>, u: Thread) returns (n: State)
    requires Orphaned(s, lost) && s.slot.Some?
    ensures n == Take(s, u)
    ensures Orphaned(n, lost)
  {
    SlotKept(s, lost);
    hide Orphaned;
    n := OrphanPut(s, lost, None, u, Building(s.slot.value));
  }

  lemma OrphanBuild(s: State, lost: set<Id>, t: Thread)
    requires Orphaned(s, lost) && t in s.acts && s.acts[t].Building? && s.stream.current.Some?
    ensures Orphaned(Build(s, t, s.acts[t].h), lost)
  {
    StorableOrphan(s, lost, t);
    SlotKept(s, lost);
    hide Orphaned, Deliver, Chunk;
    var h := s.acts[t].h;
    OrphanAs(s, lost, s.slot, t, Handling(h, Chunk(s.stream, s.owner == Some(h))), Build(s, t, h));
  }

  lemma OrphanAnswer(s: State, lost: set<Id>, t: Thread, choice: bool) returns (n: State)
    requires Orphaned(s, lost) && t in s.acts && Dereferences(s, s.acts[t]) && (s.acts[t].Stranding? || s.acts[t].Delivering?)
    ensures n == RunThread(s, t, choice, t)
    ensures Orphaned(n, lost)
  {
    hide Orphaned;
    if s.slot.None? {
      n := OrphanLeave(s, lost, t);
    } else if s.acts[t].Stranding? {
      n := OrphanClaim(s, lost, t, Error);
    } else {
      n := OrphanTake(s, lost, t);
    }
  }

  lemma OrphanFlag(s: State, lost: set<Id>, t: Thread, a: Activity, failed: bool, done: bool) returns (n: State)
    requires Orphaned(s, lost) && IsFail(a)
    ensures n == s.(failed := failed, done := done, acts := s.acts[t := a])
    ensures Orphaned(n, lost)
  {
    SlotKept(s, lost);
    hide Orphaned;
    n := s.(failed := failed, done := done, acts := s.acts[t := a]);
    OrphanAs(s, lost, s.slot, t, a, n);
  }

  lemma OrphanFailClaim(s: State, lost: set<Id>, t: Thread) returns (n: State)
    requires Orphaned(s, lost)
    ensures n == if s.slot.None? then s.(acts := s.acts[t := Disabling]) else Claim(s, t, Error)
    ensures Orphaned(n, lost)
  {
    hide Orphaned;
    if s.slot.None? { n := OrphanPut(s, lost, None, t, Disabling); } else { n := OrphanClaim(s, lost, t, Error); }
  }

  lemma OrphanDisable(s: State, lost: set<Id>, t: Thread) returns (n: State)
    requires Orphaned(s, lost)
    ensures n == s.(enabled := false, acts := s.acts - {t})
    ensures Orphaned(n, lost)
  {
    SlotKept(s, lost);
    OrphanMove(s, lost, s.slot, t);
    hide Orphans;
    n := s.(enabled := false, acts := s.acts - {t});
  }

  lemma OrphanFail(s: State, lost: set<Id>, t: Thread, choice: bool) returns (n: State)
    requires Orphaned(s, lost) && t in s.acts && (IsFail(s.acts[t]) || s.acts[t].Disabling?)
    ensures n == RunThread(s, t, choice, t)
    ensures Orphaned(n, lost)
  {
    hide Orphaned, Claim;
    match s.acts[t]
    case FailFlag => n := OrphanFlag(s, lost, t, FailDone, true, s.done);
    case FailDone => n := OrphanFlag(s, lost, t, FailClaim, s.failed, true);
    case FailClaim => n := OrphanFailClaim(s, lost, t);
    case Disabling => n := OrphanDisable(s, lost, t);
  }

  lemma StorableOrphan(s: State, lost: set<Id>, t: Thread)
    requires Orphaned(s, lost) && t in s.acts
    ensures !Holding(s.acts[t], lost)
  {
  }

  lemma SlotKept(s: State, lost: set<Id>)
    requires Orphaned(s, lost)
    ensures s.slot.Some? ==> s.slot.value !in lost
  {
  }

  lemma OrphanHandled(s: State, lost: set<Id>, t: Thread, u: Thread, h: Id, r: Response)
    requires Orphaned(s, lost) && t in s.acts && s.acts[t] == Handling(h, r) && u !in s.acts && Dereferences(s, s.acts[t])
    ensures Orphaned(HandleResponse(s, t, u, h, r), lost)
  {
    hide Orphans, HandleResponse;
    StorableOrphan(s, lost, t);
    if s.nodes[h].next.Some? { NextKept(s, lost, h); }
    HandlesNext(s, t, u, h, r);
    OrphanThreads(s, lost, h, HandleResponse(s, t, u, h, r).acts);
    hide Orphaned;
    OrphanView(s.nodes - {h}, s.req, s.slot, HandleResponse(s, t, u, h, r).acts, s.log, lost, HandleResponse(s, t, u, h, r));
  }

  /** A state is judged by these five components. */
  lemma OrphanView(nodes: map<Id, Node>, req: map<Id, Request>, slot: Option<Id>, acts: Acts,
                   log: seq<(Id, Outcome)>, lost: set<Id>, n: State)
    requires Orphans(nodes, req, slot, acts, log, lost)
    requires n.nodes == nodes && n.req == req && n.slot == slot && n.acts == acts && n.log == log
    ensures Orphaned(n, lost)
  {
    hide Orphans;
  }

  lemma OrphanThreads(s: State, lost: set<Id>, h: Id, acts: Acts)
    requires Orphaned(s, lost) && h !in lost
    requires forall t | t in acts :: (t in s.acts && acts[t] == s.acts[t]) || !Holding(acts[t], lost)
    ensures Orphans(s.nodes - {h}, s.req, s.slot, acts, s.log, lost)
  {
    UnlinkedDrop(s.nodes, h, lost);
    hide Unlinked, Untold;
  }

  /** What the locked section of HandleResponse() does to the chain and the threads. */
  lemma HandlesNext(s: State, t: Thread, u: Thread, h: Id, r: Response)
    requires t in s.acts && s.acts[t] == Handling(h, r) && u !in s.acts && Dereferences(s, s.acts[t])
    ensures var n := HandleResponse(s, t, u, h, r); var next := s.nodes[h].next;
            && n.nodes == s.nodes - {h} && n.req == s.req && n.slot == s.slot && n.log == s.log
            && (forall z | z in n.acts :: (z in s.acts && n.acts[z] == s.acts[z]) || n.acts[z] == Replying(h, r)
                  || (next.Some? && (n.acts[z] == Resubmitting(next.value, r)
                                     || n.acts[z] == Storing(next.value, s.nodes[next.value].size))))
  {
  }

  lemma NextKept(s: State, lost: set<Id>, h: Id)
    requires Orphaned(s, lost) && h in s.nodes && h !in lost && s.nodes[h].next.Some?
    ensures s.nodes[h].next.value !in lost
  {
    hide Unheld, Untold;
  }

  lemma UnlinkedDrop(nodes: map<Id, Node>, h: Id, lost: set<Id>)
    requires Unlinked(nodes, lost)
    ensures Unlinked(nodes - {h}, lost)
  {
  }

  lemma OrphanAdvance(s: State, lost: set<Id>, t: Thread, h: Id, r: Response)
    requires Orphaned(s, lost) && t in s.acts && s.acts[t] == Advancing(h, r) && h in s.nodes
    ensures Orphaned(Advance(s, t, h, r), lost)
  {
    StorableOrphan(s, lost, t);
    if s.nodes[h].next.Some? {
      NextKept(s, lost, h);
      OrphanNext(s, lost, t, h, r);
    } else {
      OrphanEnd(s, lost, t, h, r);
    }
  }

  lemma OrphanNext(s: State, lost: set<Id>, t: Thread, h: Id, r: Response)
    requires Orphaned(s, lost) && h in s.nodes && h !in lost && s.nodes[h].next.Some? && s.nodes[h].next.value !in lost
    ensures Orphaned(Advance(s, t, h, r), lost)
  {
    OrphanThreads(s, lost, h, s.acts[t := Resubmitting(s.nodes[h].next.value, r)]);
    hide Orphans;
  }

  lemma OrphanEnd(s: State, lost: set<Id>, t: Thread, h: Id, r: Response)
    requires Orphaned(s, lost) && h in s.nodes && h !in lost && s.nodes[h].next.None?
    ensures Orphaned(Advance(s, t, h, r), lost)
  {
    OrphanThreads(s, lost, h, s.acts - {t});
    hide Orphans;
  }

  /** Telling somebody else. */
  lemma OrphanTell(s: State, lost: set<Id>, t: Thread, h: Id, o: Outcome, r: Response)
    requires Orphaned(s, lost) && h !in lost
    ensures Orphans(s.nodes, s.req, s.slot, s.acts - {t}, s.log + [(h, o)], lost)
    ensures Orphans(s.nodes, s.req, s.slot, s.acts[t := Advancing(h, r)], s.log + [(h, o)], lost)
  {
    UnheldDrop(s.acts, t, lost);
    UnheldPut(s.acts, t, Advancing(h, r), lost);
    hide Unheld, Unlinked;
  }

  lemma OrphanLook(s: State, lost: set<Id>, t: Thread, h: Id, r: Response) returns (n: State)
    requires Orphaned(s, lost) && h !in lost && s.alive
    ensures n == Look(s, t, h, r)
    ensures Orphaned(n, lost)
  {
    SlotKept(s, lost);
    hide Orphaned;
    n := OrphanPut(s, lost, s.slot, t, Rereading(h, r));
  }

  lemma OrphanGone(s: State, lost: set<Id>, t: Thread, h: Id, r: Response)
    requires Orphaned(s, lost) && h !in lost && !s.alive
    ensures Orphaned(Look(s, t, h, r), lost)
  {
    OrphanTell(s, lost, t, h, if r.Ok? then Hollow else Refused, r);
    hide Orphans;
  }

  lemma OrphanReread(s: State, lost: set<Id>, t: Thread, choice: bool, h: Id, r: Response)
    requires Orphaned(s, lost) && h !in lost
    ensures Orphaned(Reread(s, t, choice, h, r), lost)
  {
    OrphanTell(s, lost, t, h, if choice then Resubmitted else Refused, r);
    hide Orphans;
  }

  lemma OrphanReply(s: State, lost: set<Id>, t: Thread, choice: bool)
    requires Orphaned(s, lost) && t in s.acts && s.acts[t].Replying? && s.acts[t].h !in lost
    ensures Orphaned(RunThread(s, t, choice, t), lost)
  {
    OrphanTell(s, lost, t, s.acts[t].h, Answer(s.acts[t].r), Error);
    hide Orphans, Answer;
  }

  lemma OrphanWalk(s: State, lost: set<Id>, t: Thread, choice: bool)
    requires Orphaned(s, lost) && t in s.acts && Dereferences(s, s.acts[t])
    requires Walking(s.acts[t]) || s.acts[t].Replying?
    ensures Orphaned(RunThread(s, t, choice, t), lost)
  {
    StorableOrphan(s, lost, t);
    hide Orphaned, Advance, Look, Reread;
    match s.acts[t]
    case Replying(h, r) => OrphanReply(s, lost, t, choice);
    case Resubmitting(h, r) =>
      if s.alive { var n := OrphanLook(s, lost, t, h, r); } else { OrphanGone(s, lost, t, h, r); }
    case Rereading(h, r) => OrphanReread(s, lost, t, choice, h, r);
    case Advancing(h, r) => OrphanAdvance(s, lost, t, h, r);
  }

  lemma OrphanRead(s: State, lost: set<Id>, e: Event)
    requires Orphaned(s, lost) && Enabled(s, e) && (e.ReadCreate? || e.ReadAppend? || e.ReadStart? || e.ReadRefused?)
    ensures Orphaned(Apply(s, e), lost)
  {
    hide WriteCallback, SuccessStep, RunThread;
  }

  lemma OrphanTaken(s: State, lost: set<Id>, data: Octets, stopped: bool)
    requires Orphaned(s, lost) && !stopped && Accept(s.stream, data).1 == Taken
    ensures Orphaned(WriteCallback(s, data, stopped), lost)
  {
    hide Orphans, Accept;
  }

  lemma OrphanTooMuch(s: State, lost: set<Id>, data: Octets, stopped: bool)
    requires Orphaned(s, lost) && !stopped && Accept(s.stream, data).1 == TooMuch
    ensures Orphaned(WriteCallback(s, data, stopped), lost)
  {
    hide Orphans, Accept, Held;
  }

  lemma OrphanRefused(s: State, lost: set<Id>, data: Octets, stopped: bool)
    requires Orphaned(s, lost) && (stopped || Accept(s.stream, data).1 == Paused)
    ensures Orphaned(WriteCallback(s, data, stopped), lost)
  {
    hide Orphans, Accept;
  }

  lemma OrphanWrite(s: State, lost: set<Id>, data: Octets, stopped: bool)
    requires Orphaned(s, lost)
    ensures Orphaned(WriteCallback(s, data, stopped), lost)
  {
    hide Orphaned, WriteCallback, Accept;
    if stopped || Accept(s.stream, data).1 == Paused {
      OrphanRefused(s, lost, data, stopped);
    } else if Accept(s.stream, data).1 == Taken {
      OrphanTaken(s, lost, data, stopped);
    } else {
      OrphanTooMuch(s, lost, data, stopped);
    }
  }

  lemma OrphanPauseIdle(s: State, lost: set<Id>, u: Thread)
    requires Orphaned(s, lost) && s.slot.None?
    ensures Orphaned(PauseStep(s, u), lost)
  {
    hide Orphans, Take;
  }

  lemma OrphanPauseTake(s: State, lost: set<Id>, u: Thread)
    requires Orphaned(s, lost) && s.slot.Some?
    ensures Orphaned(PauseStep(s, u), lost)
  {
    SlotKept(s, lost);
    hide Orphaned;
    OrphanAs(s, lost, None, u, Building(s.slot.value), PauseStep(s, u));
  }

  lemma OrphanSuccessFlags(s: State, lost: set<Id>, u: Thread)
    requires Orphaned(s, lost) && (s.worker.SuccessFlag? || s.worker.SuccessDone?)
    ensures Orphaned(SuccessStep(s, u), lost)
  {
    hide Orphans;
  }

  lemma OrphanSuccessIdle(s: State, lost: set<Id>, u: Thread)
    requires Orphaned(s, lost) && (s.worker.SuccessCheck? || s.worker.SuccessClaim?) && s.slot.None?
    ensures Orphaned(SuccessStep(s, u), lost)
  {
    hide Orphans;
  }

  lemma OrphanSuccessCheck(s: State, lost: set<Id>, u: Thread) returns (n: State)
    requires Orphaned(s, lost) && s.worker.SuccessCheck? && s.slot.Some? && s.stream.current.Some?
    ensures n == SuccessStep(s, u)
    ensures Orphaned(n, lost)
  {
    hide Orphans, Deliver, Chunk;
    n := s.(stream := Deliver(s.stream), worker := SuccessClaim(Chunk(s.stream, s.owner == s.slot)));
  }

  lemma OrphanSuccessClaim(s: State, lost: set<Id>, u: Thread)
    requires Orphaned(s, lost) && s.worker.SuccessClaim? && s.slot.Some?
    ensures Orphaned(SuccessStep(s, u), lost)
  {
    SlotKept(s, lost);
    hide Orphaned;
    OrphanAs(s, lost, None, u, Handling(s.slot.value, s.worker.r), SuccessStep(s, u));
  }

  lemma OrphanLateIdle(s: State, lost: set<Id>, u: Thread)
    requires Orphaned(s, lost) && s.queue > 0 && s.slot.None?
    ensures Orphaned(LateDrain(s, u), lost)
  {
    hide Orphans;
  }

  lemma OrphanLateClaim(s: State, lost: set<Id>, u: Thread)
    requires Orphaned(s, lost) && s.queue > 0 && s.slot.Some?
    ensures Orphaned(LateDrain(s, u), lost)
  {
    SlotKept(s, lost);
    hide Orphaned;
    OrphanAs(s, lost, None, u, Handling(s.slot.value, Error), LateDrain(s, u));
  }

  lemma OrphanResume(s: State, lost: set<Id>) returns (n: State)
    requires Orphaned(s, lost) && s.queue > 0
    ensures n == s.(queue := s.queue - 1, paused := false, resuming := true)
    ensures Orphaned(n, lost)
  {
    hide Orphans;
    n := s.(queue := s.queue - 1, paused := false, resuming := true);
  }

  lemma OrphanDrain(s: State, lost: set<Id>, ok: bool, u: Thread)
    requires Orphaned(s, lost) && Enabled(s, Drain(ok, u))
    ensures Orphaned(Apply(s, Drain(ok, u)), lost)
  {
    hide Orphaned, LateDrain;
    if s.done {
      if s.slot.None? { OrphanLateIdle(s, lost, u); } else { OrphanLateClaim(s, lost, u); }
    } else if s.cancelled || !ok {
      OrphanExpire(s, lost, u, s.(queue := s.queue - 1, broken := true, acts := s.acts[u := FailFlag]));
    } else {
      var n := OrphanResume(s, lost);
    }
  }

  lemma OrphanExpire(s: State, lost: set<Id>, u: Thread, n: State)
    requires Orphaned(s, lost)
    requires n.nodes == s.nodes && n.req == s.req && n.log == s.log && n.slot == s.slot && n.acts == s.acts[u := FailFlag]
    ensures Orphaned(n, lost)
  {
    SlotKept(s, lost);
    hide Orphaned;
    OrphanAs(s, lost, s.slot, u, FailFlag, n);
  }

  lemma OrphanFailure(s: State, lost: set<Id>, e: Event)
    requires Orphaned(s, lost) && Enabled(s, e) && (e.ExpireQueued? || e.FailNow?)
    ensures Orphaned(Apply(s, e), lost)
  {
    hide Orphaned, RunThread;
    OrphanExpire(s, lost, e.u, Apply(s, e));
  }

  lemma OrphanRun(s: State, lost: set<Id>, t: Thread, choice: bool, u: Thread)
    requires Orphaned(s, lost) && Enabled(s, Run(t, choice, u))
    ensures Orphaned(RunThread(s, t, choice, u), lost)
  {
    hide Orphaned, RunThread;
    var a := s.acts[t];
    if a.Handling? {
      OrphanHandled(s, lost, t, u, a.h, a.r);
      RunsHandler(s, t, choice, u);
    } else {
      RunsAlone(s, t, choice, u);
      if Walking(a) || a.Replying? {
        OrphanWalk(s, lost, t, choice);
      } else if IsFail(a) || a.Disabling? {
        var n := OrphanFail(s, lost, t, choice);
      } else if a.Building? {
        RunsBuild(s, t, choice);
        OrphanBuild(s, lost, t);
      } else if a.Stranding? || a.Delivering? {
        var n := OrphanAnswer(s, lost, t, choice);
      } else {
        var n := OrphanContinue(s, lost, t, choice);
      }
    }
  }

  lemma OrphanFlip(s: State, lost: set<Id>, e: Event)
    requires Orphaned(s, lost) && Enabled(s, e) && (e.CurlFinish? || e.Resumed? || e.Disable? || e.Detach? || e.Cancel?)
    ensures Orphaned(Apply(s, e), lost)
  {
    hide Orphans, Abandons;
  }

  lemma OrphanStep(s: State, lost: set<Id>, e: Event)
    requires Orphaned(s, lost) && Enabled(s, e)
    ensures Orphaned(Apply(s, e), lost)
  {
    hide Orphaned, RunThread, WriteCallback, SuccessStep, PauseStep, NextBytes, Abandons;
    match e
    case Run(t, choice, u) => OrphanRun(s, lost, t, choice, u);
    case CurlWrite(data, stopped) => OrphanWrite(s, lost, data, stopped);
    case Resumed => hide Apply; OrphanFlip(s, lost, e);
    case WorkerStep(u) =>
      if s.worker.Pausing? {
        if s.slot.None? { OrphanPauseIdle(s, lost, u); } else { OrphanPauseTake(s, lost, u); }
      } else if s.worker.SuccessFlag? || s.worker.SuccessDone? {
        OrphanSuccessFlags(s, lost, u);
      } else if s.slot.None? {
        OrphanSuccessIdle(s, lost, u);
      } else if s.worker.SuccessCheck? {
        var n := OrphanSuccessCheck(s, lost, u);
      } else {
        OrphanSuccessClaim(s, lost, u);
      }
    case Drain(ok, u) => hide Apply; OrphanDrain(s, lost, ok, u);
    case ExpireQueued(_, _) => hide Apply; OrphanFailure(s, lost, e);
    case FailNow(_) => hide Apply; OrphanFailure(s, lost, e);
    case CurlFinish => hide Apply; OrphanFlip(s, lost, e);
    case Disable => hide Apply; OrphanFlip(s, lost, e);
    case Detach => hide Apply; OrphanFlip(s, lost, e);
    case Cancel => hide Apply; OrphanFlip(s, lost, e);
    case _ => hide Apply; OrphanRead(s, lost, e);
  }

  lemma RunsHandler(s: State, t: Thread, choice: bool, u: Thread)
    requires t in s.acts && s.acts[t].Handling? && Dereferences(s, s.acts[t])
    ensures RunThread(s, t, choice, u) == HandleResponse(s, t, u, s.acts[t].h, s.acts[t].r)
  {
    hide HandleResponse;
  }

  /** Only the locked section of HandleResponse() starts another thread. */
  lemma RunsAlone(s: State, t: Thread, choice: bool, u: Thread)
    requires t in s.acts && !s.acts[t].Handling? && Dereferences(s, s.acts[t])
    ensures RunThread(s, t, choice, u) == RunThread(s, t, choice, t)
  {
    hide HandleResponse, Advance, Look, Reread, Enqueue, Claim, Take, Build, Leave, Install;
  }

  lemma RunsBuild(s: State, t: Thread, choice: bool)
    requires t in s.acts && s.acts[t].Building? && s.stream.current.Some?
    ensures RunThread(s, t, choice, t) == Build(s, t, s.acts[t].h)
  {
    hide Build;
  }

  /** A lost read stays lost, and is told in no continuation. */
  lemma {:induction false} LostForever(s: State, lost: set<Id>, es: seq<Event>)
    requires Orphaned(s, lost) && Legal(s, es)
    ensures Orphaned(Exec(s, es), lost)
    decreases |es|
  {
    hide Orphaned, Apply, Enabled;
    if es != [] {
      OrphanStep(s, lost, es[0]);
      LostForever(Apply(s, es[0]), lost, es[1..]);
    }
  }
}
