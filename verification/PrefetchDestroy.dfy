/** What can be seen when the file is destroyed: whether a read that still waits can be told success without data. */
module PrefetchDestroy {
  import opened Common
  import opened ReadStream
  import opened PrefetchProtocol
  import opened PrefetchInvariant
  import opened PrefetchTransfer
  import opened PrefetchChain
  import opened PrefetchLog
  import opened PrefetchTeardown
  import opened PrefetchLost
  import opened PrefetchCancel
  import opened PrefetchClose

  /** No live handler has a successor. */
  predicate NoneLinked(nodes: map<Id, Node>) {
    forall h | h in nodes :: nodes[h].next.None?
  }

  /** Nobody is about to look for the file after a successful response. */
  predicate NoneWalked(acts: Acts) {
    forall t | t in acts :: !(acts[t].Resubmitting? && acts[t].r.Ok?)
  }

  /** The file is gone and nobody waits behind a read that may succeed. */
  predicate Lone(s: State) {
    !s.alive && NoneLinked(s.nodes) && NoneWalked(s.acts)
  }

  // ---- Steps, by what they change.

  lemma LonePut(s: State, n: State, t: Thread, a: Activity)
    requires Lone(s) && n.alive == s.alive && n.acts == s.acts[t := a] && !a.Resubmitting?
    requires n.nodes == s.nodes
    ensures Lone(n)
  {
    hide NoneLinked;
  }

  lemma LoneDrop(s: State, n: State, t: Thread)
    requires Lone(s) && n.alive == s.alive && n.acts == s.acts - {t} && n.nodes == s.nodes
    ensures Lone(n)
  {
    hide NoneLinked;
  }

  lemma LoneFree(s: State, n: State, t: Thread, a: Activity, h: Id)
    requires Lone(s) && n.alive == s.alive && !a.Resubmitting?
    requires n.nodes == s.nodes - {h} && (n.acts == s.acts[t := a] || n.acts == s.acts - {t})
    ensures Lone(n)
  {
  }

  lemma LoneSame(s: State, n: State)
    requires Lone(s) && n.alive == s.alive && n.acts == s.acts && n.nodes == s.nodes
    ensures Lone(n)
  {
  }

  // ---- Every step.

  lemma LoneContinue(s: State, t: Thread, choice: bool, u: Thread)
    requires Lone(s) && t in s.acts && Dereferences(s, s.acts[t])
    requires s.acts[t].Installing? || s.acts[t].Loading? || s.acts[t].SawDone?
    ensures Lone(RunThread(s, t, choice, u))
  {
    hide Lone, Install, CopiesReleased;
    var n := RunThread(s, t, choice, u);
    match s.acts[t]
    case Installing(h, size) => LonePut(s, n, t, Loading(h));
    case Loading(h) => LonePut(s, n, t, if s.done then SawDone(h) else Enqueueing(h));
    case SawDone(h) => LonePut(s, n, t, if s.failed then Stranding(h) else Delivering(h));
  }

  lemma LoneStore(s: State, t: Thread, choice: bool, u: Thread)
    requires Lone(s) && t in s.acts && s.acts[t].Storing?
    ensures Lone(RunThread(s, t, choice, u))
  {
    hide Lone;
    LonePut(s, RunThread(s, t, choice, u), t, Installing(s.acts[t].h, s.acts[t].size));
  }

  lemma LoneEnqueued(s: State, t: Thread)
    requires Lone(s)
    ensures Lone(Enqueue(s, t, true))
  {
    hide Lone;
    LoneDrop(s, Enqueue(s, t, true), t);
  }

  lemma LoneUnqueued(s: State, t: Thread)
    requires Lone(s)
    ensures Lone(Enqueue(s, t, false))
  {
    hide Lone;
    LonePut(s, Enqueue(s, t, false), t, FailFlag);
  }

  lemma LoneLeave(s: State, t: Thread)
    requires Lone(s)
    ensures Lone(Leave(s, t))
  {
    hide Lone;
    LoneDrop(s, Leave(s, t), t);
  }

  lemma LoneClaim(s: State, t: Thread, r: Response)
    requires Lone(s) && s.slot.Some?
    ensures Lone(Claim(s, t, r))
  {
    hide Lone;
    LonePut(s, Claim(s, t, r), t, Handling(s.slot.value, r));
  }

  lemma LoneTake(s: State, t: Thread)
    requires Lone(s) && s.slot.Some?
    ensures Lone(Take(s, t))
  {
    hide Lone;
    LonePut(s, Take(s, t), t, Building(s.slot.value));
  }

  lemma LoneFails(s: State, t: Thread, choice: bool, u: Thread)
    requires Lone(s) && t in s.acts && (s.acts[t].FailFlag? || s.acts[t].FailDone?)
    ensures Lone(RunThread(s, t, choice, u))
  {
    hide Lone;
    LonePut(s, RunThread(s, t, choice, u), t, if s.acts[t].FailFlag? then FailDone else FailClaim);
  }

  lemma LoneFailLost(s: State, t: Thread, choice: bool, u: Thread)
    requires Lone(s) && t in s.acts && s.acts[t].FailClaim? && s.slot.None?
    ensures Lone(RunThread(s, t, choice, u))
  {
    hide Lone;
    LonePut(s, RunThread(s, t, choice, u), t, Disabling);
  }

  lemma LoneLeaves(s: State, t: Thread, choice: bool, u: Thread)
    requires Lone(s) && t in s.acts && (s.acts[t].Replying? || s.acts[t].Disabling?)
    ensures Lone(RunThread(s, t, choice, u))
  {
    hide Lone, Answer;
    LoneDrop(s, RunThread(s, t, choice, u), t);
  }

  lemma LoneBuild(s: State, t: Thread, h: Id)
    requires Lone(s) && s.stream.current.Some?
    ensures Lone(Build(s, t, h))
  {
    hide Lone, Deliver, Chunk;
    LonePut(s, Build(s, t, h), t, Handling(h, Chunk(s.stream, s.owner == Some(h))));
  }

  lemma LoneGone(s: State, t: Thread, h: Id, r: Response)
    requires Lone(s) && !s.alive
    ensures Lone(Look(s, t, h, r))
  {
    hide Lone;
    LonePut(s, Look(s, t, h, r), t, Advancing(h, r));
  }

  lemma LoneReread(s: State, t: Thread, choice: bool, h: Id, r: Response)
    requires Lone(s)
    ensures Lone(Reread(s, t, choice, h, r))
  {
    hide Lone;
    LonePut(s, Reread(s, t, choice, h, r), t, Advancing(h, r));
  }

  lemma LoneAdvance(s: State, t: Thread, h: Id, r: Response)
    requires Lone(s) && h in s.nodes && s.nodes[h].next.None?
    ensures Lone(Advance(s, t, h, r))
  {
    hide Lone;
    LoneFree(s, Advance(s, t, h, r), t, Disabling, h);
  }

  lemma LoneHandle(s: State, t: Thread, u: Thread, h: Id, r: Response)
    requires Lone(s) && h in s.nodes && s.nodes[h].next.None?
    ensures Lone(HandleResponse(s, t, u, h, r))
  {
    hide Lone;
    LoneFree(s, HandleResponse(s, t, u, h, r), t, Replying(h, r), h);
  }

  lemma LoneRun(s: State, t: Thread, choice: bool, u: Thread)
    requires Lone(s) && t in s.acts && Dereferences(s, s.acts[t])
    ensures Lone(RunThread(s, t, choice, u))
  {
    assert !s.alive && forall h | h in s.nodes :: s.nodes[h].next.None?;
    hide Lone, HandleResponse, Advance, Look, Reread, Build, Enqueue, Claim, Take, Leave;
    match s.acts[t]
    case Handling(h, r) => LoneHandle(s, t, u, h, r);
    case Resubmitting(h, r) => LoneGone(s, t, h, r);
    case Rereading(h, r) => LoneReread(s, t, choice, h, r);
    case Advancing(h, r) => LoneAdvance(s, t, h, r);
    case Building(h) => LoneBuild(s, t, h);
    case Enqueueing(h) => if choice { LoneEnqueued(s, t); } else { LoneUnqueued(s, t); }
    case Stranding(h) => if s.slot.None? { LoneLeave(s, t); } else { LoneClaim(s, t, Error); }
    case Delivering(h) => if s.slot.None? { LoneLeave(s, t); } else { LoneTake(s, t); }
    case FailClaim => if s.slot.None? { LoneFailLost(s, t, choice, u); } else { LoneClaim(s, t, Error); }
    case Storing(h, size) => hide RunThread; LoneStore(s, t, choice, u);
    case FailFlag => hide RunThread; LoneFails(s, t, choice, u);
    case FailDone => hide RunThread; LoneFails(s, t, choice, u);
    case Disabling => hide RunThread; LoneLeaves(s, t, choice, u);
    case Replying(h, r) => hide RunThread; LoneLeaves(s, t, choice, u);
    case _ => hide RunThread; LoneContinue(s, t, choice, u);
  }

  lemma LoneWriteTaken(s: State, data: Octets, stopped: bool)
    requires Lone(s) && !stopped && Accept(s.stream, data).1 == Taken
    ensures Lone(WriteCallback(s, data, stopped))
  {
    hide Lone, Accept;
    LoneSame(s, WriteCallback(s, data, stopped));
  }

  lemma LoneWriteBroken(s: State, data: Octets, stopped: bool)
    requires Lone(s) && (stopped || Accept(s.stream, data).1 == TooMuch)
    ensures Lone(WriteCallback(s, data, stopped))
  {
    hide Lone, Accept, Held;
    LoneSame(s, WriteCallback(s, data, stopped));
  }

  lemma LoneWritePaused(s: State, data: Octets, stopped: bool)
    requires Lone(s) && !stopped && Accept(s.stream, data).1 == Paused
    ensures Lone(WriteCallback(s, data, stopped))
  {
    hide Lone, Accept;
    LoneSame(s, WriteCallback(s, data, stopped));
  }

  lemma LoneWrite(s: State, data: Octets, stopped: bool)
    requires Lone(s)
    ensures Lone(WriteCallback(s, data, stopped))
  {
    hide Lone, WriteCallback, Accept;
    if stopped || Accept(s.stream, data).1 == TooMuch {
      LoneWriteBroken(s, data, stopped);
    } else if Accept(s.stream, data).1 == Taken {
      LoneWriteTaken(s, data, stopped);
    } else {
      LoneWritePaused(s, data, stopped);
    }
  }

  lemma LonePauseIdle(s: State, u: Thread)
    requires Lone(s) && s.slot.None?
    ensures Lone(PauseStep(s, u))
  {
    hide Lone, Take;
    LoneSame(s, PauseStep(s, u));
  }

  lemma LonePauseTake(s: State, u: Thread)
    requires Lone(s) && s.slot.Some?
    ensures Lone(PauseStep(s, u))
  {
    hide Lone;
    LonePut(s, PauseStep(s, u), u, Building(s.slot.value));
  }

  lemma LoneSuccessFlags(s: State, u: Thread)
    requires Lone(s) && (s.worker.SuccessFlag? || s.worker.SuccessDone?)
    ensures Lone(SuccessStep(s, u))
  {
    hide Lone, Claim;
    LoneSame(s, SuccessStep(s, u));
  }

  lemma LoneSuccessIdle(s: State, u: Thread)
    requires Lone(s) && (s.worker.SuccessCheck? || s.worker.SuccessClaim?) && s.slot.None?
    ensures Lone(SuccessStep(s, u))
  {
    hide Lone, Claim;
    LoneSame(s, SuccessStep(s, u));
  }

  lemma LoneSuccessCheck(s: State, u: Thread)
    requires Lone(s) && s.worker.SuccessCheck? && s.slot.Some? && s.stream.current.Some?
    ensures Lone(SuccessStep(s, u))
  {
    hide Lone, Claim, Deliver, Chunk;
    LoneSame(s, SuccessStep(s, u));
  }

  lemma LoneSuccessClaim(s: State, u: Thread)
    requires Lone(s) && s.worker.SuccessClaim? && s.slot.Some?
    ensures Lone(SuccessStep(s, u))
  {
    hide Lone;
    LonePut(s, SuccessStep(s, u), u, Handling(s.slot.value, s.worker.r));
  }

  lemma LoneWorker(s: State, u: Thread)
    requires Lone(s) && Enabled(s, WorkerStep(u))
    ensures Lone(Apply(s, WorkerStep(u)))
  {
    hide Lone, SuccessStep, PauseStep;
    if s.worker.Pausing? {
      if s.slot.None? { LonePauseIdle(s, u); } else { LonePauseTake(s, u); }
    } else if s.worker.SuccessFlag? || s.worker.SuccessDone? {
      LoneSuccessFlags(s, u);
    } else if s.slot.None? {
      LoneSuccessIdle(s, u);
    } else if s.worker.SuccessCheck? {
      LoneSuccessCheck(s, u);
    } else {
      LoneSuccessClaim(s, u);
    }
  }

  lemma LoneLateIdle(s: State, u: Thread)
    requires Lone(s) && s.queue > 0 && s.slot.None?
    ensures Lone(LateDrain(s, u))
  {
    hide Lone;
    LoneSame(s, LateDrain(s, u));
  }

  lemma LoneLateClaim(s: State, u: Thread)
    requires Lone(s) && s.queue > 0 && s.slot.Some?
    ensures Lone(LateDrain(s, u))
  {
    hide Lone;
    LonePut(s, LateDrain(s, u), u, Handling(s.slot.value, Error));
  }

  lemma LoneDrain(s: State, ok: bool, u: Thread)
    requires Lone(s) && Enabled(s, Drain(ok, u))
    ensures Lone(Apply(s, Drain(ok, u)))
  {
    hide Lone, LateDrain, RunThread;
    if s.done {
      if s.slot.None? { LoneLateIdle(s, u); } else { LoneLateClaim(s, u); }
    } else if s.cancelled || !ok {
      LonePut(s, Apply(s, Drain(ok, u)), u, FailFlag);
    } else {
      LoneSame(s, Apply(s, Drain(ok, u)));
    }
  }

  lemma LoneFile(s: State, e: Event)
    requires Lone(s) && Enabled(s, e) && (e.CurlFinish? || e.Resumed? || e.Disable? || e.Detach? || e.Cancel?)
    ensures Lone(Apply(s, e))
  {
    assert !s.alive;
    hide Lone, RunThread, Abandons;
    LoneSame(s, Apply(s, e));
  }

  lemma LoneFailure(s: State, e: Event)
    requires Lone(s) && Enabled(s, e) && (e.ExpireQueued? || e.FailNow?)
    ensures Lone(Apply(s, e))
  {
    hide Lone, RunThread;
    LonePut(s, Apply(s, e), e.u, FailFlag);
  }

  lemma LoneStep(s: State, e: Event)
    requires Lone(s) && Enabled(s, e)
    ensures Lone(Apply(s, e))
  {
    assert !s.alive;
    hide Lone, RunThread, WriteCallback, SuccessStep, PauseStep, NextBytes, Overdue, FillsReleased, Abandons;
    match e
    case Run(t, choice, u) => LoneRun(s, t, choice, u);
    case CurlWrite(data, stopped) => LoneWrite(s, data, stopped);
    case WorkerStep(u) => hide Apply; LoneWorker(s, u);
    case Drain(ok, u) => hide Apply; LoneDrain(s, ok, u);
    case ExpireQueued(_, _) => hide Apply; LoneFailure(s, e);
    case FailNow(_) => hide Apply; LoneFailure(s, e);
    case _ => hide Apply; LoneFile(s, e);
  }

  lemma {:induction false} LoneRuns(s: State, es: seq<Event>, h: Id)
    requires Lone(s) && Legal(s, es)
    ensures !WalksWellIn(s, es, h)
    decreases |es|
  {
    if es != [] {
      assert !WalksWell(s, es[0], h);
      hide Lone, Apply, Enabled, WalksWell;
      LoneStep(s, es[0]);
      LoneRuns(Apply(s, es[0]), es[1..], h);
    }
  }

  /** The file is destroyed while no live handler has a successor and nobody walks a chain after a successful
      response: nobody is told success without data from then on. */
  lemma DestroyedWell(s: State, es: seq<Event>, h: Id)
    requires NoneLinked(s.nodes) && NoneWalked(s.acts) && Legal(Apply(s, Detach), es)
    ensures (h, Hollow) in Exec(Apply(s, Detach), es).log <==> (h, Hollow) in s.log
  {
    var n := Apply(s, Detach);
    LogsDetach(s);
    DetachLone(s);
    hide Lone, Legal, Exec, NoneLinked, NoneWalked, Apply, WalksWellIn;
    LoneRuns(n, es, h);
    HollowFrom(n, es, h);
  }

  lemma DetachLone(s: State)
    requires NoneLinked(s.nodes) && NoneWalked(s.acts)
    ensures Lone(Apply(s, Detach))
  {
    hide NoneLinked, NoneWalked, Abandons;
  }

  // ---- The other way.

  /** A successful response for `h` is in a thread's hands or about to be. */
  predicate Succeeds(s: State, t: Thread, h: Id) {
    t in s.acts && (s.acts[t] == Building(h) || (s.acts[t].Handling? && s.acts[t].h == h && s.acts[t].r.Ok?))
  }

  lemma WalkTells(s: State, t: Thread, k: Id)
    requires !s.alive && t in s.acts && s.acts[t].Resubmitting? && s.acts[t].r.Ok? && s.acts[t].h == k && k in s.nodes
    ensures CanTell(s, k, Hollow)
  {
    var v := Absent(s.acts);
    var n := Apply(s, Run(t, true, v));
    assert n.log[|s.log|] == (k, Hollow);
    assert Enabled(s, Run(t, true, v));
    hide Apply, Enabled;
    assert Legal(n, []) && Exec(n, []) == n;
    StepTells(s, Run(t, true, v), k, Hollow);
  }

  lemma HandledWalks(s: State, t: Thread, u: Thread, h: Id, r: Response, k: Id)
    requires !s.alive && t in s.acts && u !in s.acts && h in s.nodes && s.nodes[h].next == Some(k) && k in s.nodes && k != h
    ensures var n := HandleResponse(s, t, u, h, r); !n.alive && u in n.acts && n.acts[u] == Resubmitting(k, r) && k in n.nodes
  {
  }

  lemma HandleHollows(s: State, t: Thread, h: Id, k: Id)
    requires !s.alive && t in s.acts && s.acts[t].Handling? && s.acts[t].h == h && s.acts[t].r.Ok?
    requires h in s.nodes && s.nodes[h].next == Some(k) && k in s.nodes && k != h
    ensures CanTell(s, k, Hollow)
  {
    hide CanTell, RunThread;
    var v := Absent(s.acts);
    var r := s.acts[t].r;
    RunsHandler(s, t, true, v);
    HandledWalks(s, t, v, h, r, k);
    hide HandleResponse;
    WalkTells(HandleResponse(s, t, v, h, r), v, k);
    StepTells(s, Run(t, true, v), k, Hollow);
  }

  lemma BuildHollows(s: State, t: Thread, h: Id, k: Id)
    requires !s.alive && t in s.acts && s.acts[t] == Building(h) && s.stream.current.Some?
    requires h in s.nodes && s.nodes[h].next == Some(k) && k in s.nodes && k != h
    ensures CanTell(s, k, Hollow)
  {
    hide CanTell, RunThread, Chunk;
    var v := Absent(s.acts);
    RunsAlone(s, t, true, v);
    RunsBuild(s, t, true);
    assert Chunk(s.stream, s.owner == Some(h)).Ok? by { ChunkOk(s.stream, s.owner == Some(h)); }
    HandleHollows(Build(s, t, h), t, h, k);
    StepTells(s, Run(t, true, v), k, Hollow);
  }

  lemma ChunkOk(stream: Stream, own: bool)
    requires stream.current.Some?
    ensures Chunk(stream, own).Ok?
  {
  }

  /** The file is destroyed while a successful response is about to be processed and another read waits behind it:
      that one can be told success without data. */
  lemma DestroyedHollow(g: Good, t: Thread, h: Id, k: Id)
    requires Succeeds(g.s, t, h) && h in g.s.nodes && g.s.nodes[h].next == Some(k)
    ensures CanTell(Apply(g.s, Detach), k, Hollow)
  {
    SuccessorLive(g, t, h, k);
    hide Holds, Abandons, CanTell;
    var n := Apply(g.s, Detach);
    if g.s.acts[t].Building? {
      BuildHollows(n, t, h, k);
    } else {
      HandleHollows(n, t, h, k);
    }
  }

  lemma SuccessorLive(g: Good, t: Thread, h: Id, k: Id)
    requires Succeeds(g.s, t, h) && h in g.s.nodes && g.s.nodes[h].next == Some(k)
    ensures k in g.s.nodes && k != h && (g.s.acts[t].Building? ==> g.s.stream.current.Some?)
  {
    if g.s.acts[t].Building? { BuildFacts(g, t); } else { HandleFacts(g, t); }
    ChainTail(g.s.nodes, g.s.req, g.w.c);
    hide Tail, Birth, Control, Data, History;
  }
}
