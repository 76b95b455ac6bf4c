/** The races are real: a failure that overtakes a store, or an overdue transfer that is loosed, can make the
    operation copy into the buffer of a read that was told already. */
module PrefetchDangling {
  import opened Common
  import opened ReadStream
  import opened PrefetchProtocol
  import opened PrefetchInvariant
  import opened PrefetchTransfer
  import opened PrefetchChain
  import opened PrefetchTheorems
  import opened PrefetchBuffers
  import opened PrefetchLost
  import opened PrefetchCancel
  import opened PrefetchClose
  import opened PrefetchRuns

  /** Some schedule from here makes Continue() copy into the buffer of a read that was told already. */
  ghost predicate CanCopyDead(s: State) {
    exists es, e :: Legal(s, es) && Possible(Exec(s, es), e) && CopiesToReleased(Exec(s, es), e)
  }

  /** Some schedule from here makes the write callback do so. */
  ghost predicate CanWriteDead(s: State) {
    exists es, e :: Legal(s, es) && Possible(Exec(s, es), e) && WritesToReleased(Exec(s, es), e)
  }

  lemma StepCopies(s: State, e: Event)
    requires Enabled(s, e) && CanCopyDead(Apply(s, e))
    ensures CanCopyDead(s)
  {
    hide Enabled, Apply, Possible, CopiesToReleased;
    var es, f :| Legal(Apply(s, e), es) && Possible(Exec(Apply(s, e), es), f) && CopiesToReleased(Exec(Apply(s, e), es), f);
    hide Legal, Exec;
    ExecOne(s, e, es);
  }

  lemma StepWrites(s: State, e: Event)
    requires Enabled(s, e) && CanWriteDead(Apply(s, e))
    ensures CanWriteDead(s)
  {
    hide Enabled, Apply, Possible, WritesToReleased;
    var es, f :| Legal(Apply(s, e), es) && Possible(Exec(Apply(s, e), es), f) && WritesToReleased(Exec(Apply(s, e), es), f);
    hide Legal, Exec;
    ExecOne(s, e, es);
  }

  // ---- A failure that runs to its end.

  /** The transfer and every thread but `u` stand where they stood. */
  predicate Steady(s: State, n: State, u: Thread) {
    && n.source == s.source && n.created == s.created && n.stream == s.stream && n.owner == s.owner && n.received == s.received
    && n.paused == s.paused && n.broken == s.broken && n.worker == s.worker
    && forall t | t in s.acts && t != u :: t in n.acts && n.acts[t] == s.acts[t]
  }

  lemma SteadyOn(s: State, m: State, n: State, u: Thread)
    requires Steady(s, m, u) && Steady(m, n, u)
    ensures Steady(s, n, u)
  {
  }

  /** The thread `u` alone can bring it about that `h` is told. */
  ghost predicate CanFail(s: State, u: Thread, h: Id) {
    exists es :: Legal(s, es) && Steady(s, Exec(s, es), u) && Released(Exec(s, es).log, h)
  }

  lemma StepFails(s: State, e: Event, u: Thread, h: Id)
    requires Enabled(s, e) && Steady(s, Apply(s, e), u) && CanFail(Apply(s, e), u, h)
    ensures CanFail(s, u, h)
  {
    hide Enabled, Apply, Steady, Released;
    var es :| Legal(Apply(s, e), es) && Steady(Apply(s, e), Exec(Apply(s, e), es), u) && Released(Exec(Apply(s, e), es).log, h);
    hide Legal, Exec;
    SteadyOn(s, Apply(s, e), Exec(Apply(s, e), es), u);
    ExecOne(s, e, es);
  }

  lemma Replied(s: State, u: Thread, v: Thread)
    requires u in s.acts && s.acts[u].Replying? && v !in s.acts
    ensures var n := Apply(s, Run(u, true, v)); Steady(s, n, u) && Released(n.log, s.acts[u].h)
  {
    hide Answer;
    assert Apply(s, Run(u, true, v)).log[|s.log|].0 == s.acts[u].h;
  }

  lemma ReplyFails(s: State, u: Thread)
    requires u in s.acts && s.acts[u].Replying?
    ensures CanFail(s, u, s.acts[u].h)
  {
    var v := Absent(s.acts);
    Replied(s, u, v);
    var n := Apply(s, Run(u, true, v));
    hide Apply, Released;
    assert Legal(n, []) && Exec(n, []) == n && Steady(n, n, u);
    StepFails(s, Run(u, true, v), u, s.acts[u].h);
  }

  lemma Handled(s: State, u: Thread, v: Thread, h: Id, r: Response)
    requires u in s.acts && s.acts[u] == Handling(h, r) && v !in s.acts && Dereferences(s, s.acts[u])
    ensures var n := HandleResponse(s, u, v, h, r); Steady(s, n, u) && u in n.acts && n.acts[u] == Replying(h, r)
  {
  }

  lemma HandleFails(s: State, u: Thread)
    requires u in s.acts && s.acts[u].Handling? && Dereferences(s, s.acts[u])
    ensures CanFail(s, u, s.acts[u].h)
  {
    hide CanFail, RunThread, Steady;
    var v := Absent(s.acts);
    var h, r := s.acts[u].h, s.acts[u].r;
    RunsHandler(s, u, true, v);
    Handled(s, u, v, h, r);
    hide HandleResponse;
    ReplyFails(HandleResponse(s, u, v, h, r), u);
    StepFails(s, Run(u, true, v), u, h);
  }

  /** The handler and its successor are live. */
  predicate Linkable(nodes: map<Id, Node>, h: Id) {
    h in nodes && (nodes[h].next.Some? ==> nodes[h].next.value in nodes)
  }

  lemma Took(s: State, u: Thread, v: Thread)
    requires u in s.acts && s.acts[u].FailClaim? && s.slot.Some? && v !in s.acts
    ensures var n := Apply(s, Run(u, true, v));
            Steady(s, n, u) && u in n.acts && n.acts[u] == Handling(s.slot.value, Error) && n.nodes == s.nodes
  {
  }

  lemma ClaimFails(s: State, u: Thread)
    requires u in s.acts && s.acts[u].FailClaim? && s.slot.Some? && Linkable(s.nodes, s.slot.value)
    ensures CanFail(s, u, s.slot.value)
  {
    hide CanFail, Steady;
    var v := Absent(s.acts);
    Took(s, u, v);
    assert Enabled(s, Run(u, true, v));
    hide Apply;
    HandleFails(Apply(s, Run(u, true, v)), u);
    StepFails(s, Run(u, true, v), u, s.slot.value);
  }

  lemma Flagged(s: State, u: Thread, v: Thread)
    requires u in s.acts && (s.acts[u].FailFlag? || s.acts[u].FailDone?) && v !in s.acts
    ensures var n := Apply(s, Run(u, true, v));
            && Steady(s, n, u) && u in n.acts && n.acts[u] == (if s.acts[u].FailFlag? then FailDone else FailClaim)
            && n.nodes == s.nodes && n.slot == s.slot
  {
  }

  lemma DoneFails(s: State, u: Thread)
    requires u in s.acts && s.acts[u].FailDone? && s.slot.Some? && Linkable(s.nodes, s.slot.value)
    ensures CanFail(s, u, s.slot.value)
  {
    hide CanFail, Steady;
    var v := Absent(s.acts);
    Flagged(s, u, v);
    assert Enabled(s, Run(u, true, v));
    hide Apply;
    ClaimFails(Apply(s, Run(u, true, v)), u);
    StepFails(s, Run(u, true, v), u, s.slot.value);
  }

  lemma FlagFails(s: State, u: Thread)
    requires u in s.acts && s.acts[u].FailFlag? && s.slot.Some? && Linkable(s.nodes, s.slot.value)
    ensures CanFail(s, u, s.slot.value)
  {
    hide CanFail, Steady;
    var v := Absent(s.acts);
    Flagged(s, u, v);
    assert Enabled(s, Run(u, true, v));
    hide Apply;
    DoneFails(Apply(s, Run(u, true, v)), u);
    StepFails(s, Run(u, true, v), u, s.slot.value);
  }

  // ---- A store that is overtaken.

  /** The thread `t` has stored `h`, and is about to copy at least one byte into its buffer. */
  predicate AboutToCopy(s: State, t: Thread, h: Id) {
    t in s.acts && s.acts[t].Installing? && s.acts[t].h == h && s.acts[t].size > 0 && s.stream.overflow != []
  }

  lemma FailedCopies(s: State, t: Thread, u: Thread, h: Id)
    requires AboutToCopy(s, t, h) && t != u && CanFail(s, u, h)
    ensures CanCopyDead(s)
  {
    hide Released;
    var es :| Legal(s, es) && Steady(s, Exec(s, es), u) && Released(Exec(s, es).log, h);
    hide Legal, Exec;
    var n := Exec(s, es);
    var v := Absent(n.acts);
    assert Possible(n, Run(t, true, v)) && CopiesToReleased(n, Run(t, true, v));
  }

  lemma DrainClaims(s: State, ok: bool, u: Thread)
    requires Enabled(s, Drain(ok, u)) && s.done && s.slot.Some?
    ensures var n := Apply(s, Drain(ok, u));
            u in n.acts && n.acts[u] == Handling(s.slot.value, Error) && n.nodes == s.nodes && n.stream == s.stream
            && forall t | t in s.acts :: t in n.acts && n.acts[t] == s.acts[t]
  {
    hide RunThread, WriteCallback, SuccessStep, PauseStep;
  }

  lemma SlotLinkable(g: Good)
    requires g.s.slot.Some?
    ensures Linkable(g.s.nodes, g.s.slot.value)
  {
    HeadRequested(g.s, g.w);
    ChainTail(g.s.nodes, g.s.req, g.w.c);
    hide Chain, Tail, Birth, Control, Data, History;
  }

  /** In every reachable state: a failure that overtakes a store which has bytes to copy can make the copy go to a
      dead buffer.  By `BuffersLive` nothing else can. */
  lemma OvertakenDangles(g: Good, e: Event, t: Thread, h: Id)
    requires Enabled(g.s, e) && Overtakes(g.s, e) && AboutToCopy(g.s, t, h)
    ensures CanCopyDead(g.s)
  {
    SlotLinkable(g);
    CopySlot(g, t);
    hide Holds, CanFail, CanCopyDead;
    if e.Run? {
      ClaimFails(g.s, e.t);
      FailedCopies(g.s, t, e.t, h);
    } else {
      DrainClaims(g.s, e.ok, e.u);
      hide Apply;
      HandleFails(Apply(g.s, e), e.u);
      FailedCopies(Apply(g.s, e), t, e.u, h);
      StepCopies(g.s, e);
    }
  }

  /** A failure can always come: whoever is about to copy while the transfer is paused can be overtaken. */
  lemma StoredDangles(s: State, t: Thread)
    requires s.created && s.worker.Transferring? && !s.resuming && s.slot.Some? && Linkable(s.nodes, s.slot.value)
    requires AboutToCopy(s, t, s.slot.value)
    ensures CanCopyDead(s)
  {
    hide CanFail, CanCopyDead;
    var u := Absent(s.acts);
    var n := Apply(s, FailNow(u));
    assert AboutToCopy(n, t, s.slot.value) && n.slot == s.slot && n.nodes == s.nodes && n.acts[u] == FailFlag;
    assert Enabled(s, FailNow(u));
    hide Apply, Enabled;
    FlagFails(n, u);
    FailedCopies(n, t, u, s.slot.value);
    StepCopies(s, FailNow(u));
  }

  // ---- A transfer that is loosed.

  /** The client buffer has room and the server has more to send. */
  predicate Hungry(s: State) {
    && s.stream.current.Some? && |s.stream.current.value.written| < s.stream.current.value.size && s.received < Range(s)
  }

  lemma FailedWrites(s: State, u: Thread, h: Id)
    requires s.created && s.worker.Transferring? && !s.paused && !s.broken && Hungry(s) && s.owner == Some(h) && CanFail(s, u, h)
    ensures CanWriteDead(s)
  {
    hide Released;
    var es :| Legal(s, es) && Steady(s, Exec(s, es), u) && Released(Exec(s, es).log, h);
    hide Legal, Exec;
    var n := Exec(s, es);
    var p := n.stream.start + n.received;
    var data := n.source.bytes[p..p + 1];
    assert Range(n) == Range(s) && NextBytes(n, data);
    assert Possible(n, CurlWrite(data, false)) && WritesToReleased(n, CurlWrite(data, false));
  }

  lemma QueuedOwner(g: Good)
    requires g.s.queue > 0 && !g.s.done && g.s.worker.Transferring?
    ensures g.s.created && g.s.slot.Some? && g.s.owner == g.s.slot
  {
    QueuedFacts(g);
    HeadRequested(g.s, g.w);
    hide Chain, Tail, Birth, Claimed, Flags, History, Bytes, HolderOffsets, NextOffset, Vacant, Brimful, Truthful;
  }

  /** In every reachable state: an overdue transfer that is loosed while its read's buffer has room can write to a
      dead buffer.  By `BuffersLive` nothing else can. */
  lemma LoosedDangles(g: Good, u: Thread)
    requires Enabled(g.s, ExpireQueued(u, true)) && g.s.worker.Transferring? && !g.s.cancelled && !g.s.broken && Hungry(g.s)
    ensures CanWriteDead(g.s)
  {
    SlotLinkableQueued(g);
    hide Holds, CanFail, CanWriteDead;
    var n := Overdue(g.s, u, true);
    assert Hungry(n) && n.slot == g.s.slot && n.nodes == g.s.nodes && n.acts[u] == FailFlag;
    assert n.created && n.worker.Transferring? && !n.paused && !n.broken && n.owner == g.s.owner;
    hide Overdue;
    FlagFails(n, u);
    FailedWrites(n, u, g.s.slot.value);
    StepWrites(g.s, ExpireQueued(u, true));
  }

  lemma SlotLinkableQueued(g: Good)
    requires g.s.queue > 0 && !g.s.done && g.s.worker.Transferring?
    ensures g.s.created && g.s.slot.Some? && g.s.owner == g.s.slot && Linkable(g.s.nodes, g.s.slot.value)
  {
    hide Holds;
    QueuedOwner(g);
    SlotLinkable(g);
  }

  // ---- Runs.

  lemma SpillStored()
    ensures var s := SpillingStage(9);
            && s.created && s.worker.Transferring? && !s.resuming && s.slot == Some(1) && Linkable(s.nodes, 1)
            && AboutToCopy(s, 2, 1)
  {
  }

  /** A second read stores its handler, a failure tells it, and the copy of the overflow still goes to its
      buffer. */
  lemma OvertakenRun() returns (es: seq<Event>)
    ensures Legal(Init("abc"), es) && CanCopyDead(Exec(Init("abc"), es))
  {
    SpillStored();
    hide Legal, Exec, SpillingStage, CanCopyDead, AboutToCopy;
    SpillingPrefix(9);
    es := Spilling()[..9];
    StoredDangles(SpillingStage(9), 2);
  }

  lemma SpillTold()
    ensures var s := SpillingStage(7);
            && Wakes(s) && !Exposed(s) && s.acts == map[] && 7 !in s.req && s.created && s.worker.Transferring? && !s.resuming
            && s.stream.overflow != []
  {
  }

  lemma OverwrittenCopies(s: State, x: Id, u: Thread)
    requires s.created && s.worker.Transferring? && s.stream.overflow != [] && u !in s.acts
    ensures CanCopyDead(Overwritten(s, x, u))
  {
    var n := Overwritten(s, x, u);
    if n.resuming {
      ResumedCopies(n, u);
    } else {
      StoredDangles(n, u);
    }
  }

  lemma ResumedCopies(s: State, t: Thread)
    requires s.created && s.worker.Transferring? && s.resuming && s.slot.Some? && Linkable(s.nodes, s.slot.value)
    requires AboutToCopy(s, t, s.slot.value)
    ensures CanCopyDead(s)
  {
    hide CanCopyDead, RunThread, WriteCallback, SuccessStep, PauseStep;
    StoredDangles(Apply(s, Resumed), t);
    StepCopies(s, Resumed);
  }

  /** Whoever closes a paused operation that has overflow can copy into the canceller's handler after it was
      freed. */
  lemma CloseCopies(s: State, x: Id, u: Thread)
    requires s.created && s.worker.Transferring? && s.stream.overflow != [] && u !in s.acts
    ensures CanCopyDead(Lock(s, x, u))
  {
    OverwrittenCopies(s, x, u);
    hide Lock, Overwritten, Possible, CopiesToReleased;
    var es := StoreRuns(s, x, u);
    var n := Overwritten(s, x, u);
    var more, e :| Legal(n, more) && Possible(Exec(n, more), e) && CopiesToReleased(Exec(n, more), e);
    ExecThen(Lock(s, x, u), es, more);
  }

  lemma StreamPlain(s: State, t: Thread, choice: bool, u: Thread)
    requires t in s.acts && (s.acts[t].Storing? || s.acts[t].Loading? || s.acts[t].SawDone? || s.acts[t].Replying?
                             || s.acts[t].FailFlag? || s.acts[t].FailDone? || s.acts[t].Disabling?)
    ensures RunThread(s, t, choice, u).stream == s.stream
  {
    hide Answer;
  }

  lemma StreamClaim(s: State, t: Thread)
    requires s.slot.Some?
    ensures Claim(s, t, Error).stream == s.stream
  {
  }

  lemma StreamTake(s: State, t: Thread)
    requires s.slot.Some?
    ensures Take(s, t).stream == s.stream
  {
  }

  lemma StreamEnqueue(s: State, t: Thread, choice: bool)
    ensures Enqueue(s, t, choice).stream == s.stream && Leave(s, t).stream == s.stream
  {
  }

  lemma StreamClaims(s: State, t: Thread, choice: bool, u: Thread)
    requires t in s.acts && (s.acts[t].Enqueueing? || s.acts[t].Stranding? || s.acts[t].Delivering? || s.acts[t].FailClaim?)
    ensures RunThread(s, t, choice, u).stream == s.stream
  {
    StreamEnqueue(s, t, choice);
    if s.slot.Some? {
      StreamClaim(s, t);
      StreamTake(s, t);
    }
    hide Claim, Take, Enqueue, Leave;
  }

  lemma StreamHandle(s: State, t: Thread, u: Thread, h: Id, r: Response)
    requires h in s.nodes && (s.nodes[h].next.Some? ==> s.nodes[h].next.value in s.nodes)
    ensures HandleResponse(s, t, u, h, r).stream == s.stream
  {
  }

  lemma StreamFound(s: State, t: Thread, h: Id, r: Response)
    requires s.alive
    ensures Look(s, t, h, r).stream == s.stream
  {
  }

  lemma StreamGone(s: State, t: Thread, h: Id, r: Response)
    requires !s.alive
    ensures Look(s, t, h, r).stream == s.stream
  {
  }

  lemma StreamReread(s: State, t: Thread, choice: bool, h: Id, r: Response)
    ensures Reread(s, t, choice, h, r).stream == s.stream
  {
  }

  lemma StreamAdvance(s: State, t: Thread, h: Id, r: Response)
    requires h in s.nodes
    ensures Advance(s, t, h, r).stream == s.stream
  {
  }

  lemma StreamWalk(s: State, t: Thread, choice: bool, u: Thread)
    requires t in s.acts && Dereferences(s, s.acts[t]) && (s.acts[t].Handling? || Walking(s.acts[t]))
    ensures RunThread(s, t, choice, u).stream == s.stream
  {
    var h, r := s.acts[t].h, s.acts[t].r;
    if s.acts[t].Handling? { StreamHandle(s, t, u, h, r); }
    if s.alive { StreamFound(s, t, h, r); } else { StreamGone(s, t, h, r); }
    StreamReread(s, t, choice, h, r);
    StreamAdvance(s, t, h, r);
    hide HandleResponse, Look, Reread, Advance;
  }

  /** Without a transfer nothing comes into the overflow. */
  lemma OverflowStays(s: State, w: Wake, e: Event)
    requires Woken(s, w) && Enabled(s, e) && s.stream.overflow == []
    ensures Apply(s, e).stream.overflow == []
  {
    WakePossible(s, w, e);
    if e.Run? {
      CrewFacts(s, w, e.t);
      hide Woken, CopiesReleased;
      var a := s.acts[e.t];
      if a.Installing? {
        OverflowInstall(s, e.t, e.choice, e.u);
      } else {
        hide RunThread;
        if a.Handling? || Walking(a) { StreamWalk(s, e.t, e.choice, e.u); }
        else if a.Enqueueing? || a.Stranding? || a.FailClaim? { StreamClaims(s, e.t, e.choice, e.u); }
        else { StreamPlain(s, e.t, e.choice, e.u); }
      }
    } else {
      hide Woken, Apply;
      if e.Drain? { StreamDrain(s, e.ok, e.u); }
      else if e.ExpireQueued? || e.FailNow? || e.Resumed? { StreamQueue(s, e); }
      else { StreamFile(s, e); }
    }
  }

  lemma OverflowInstall(s: State, t: Thread, choice: bool, u: Thread)
    requires t in s.acts && s.acts[t].Installing? && Dereferences(s, s.acts[t]) && s.stream.overflow == []
    ensures RunThread(s, t, choice, u).stream.overflow == []
  {
    assert Install(s.stream, s.acts[t].size).overflow == [];
    hide Install, CopiesReleased;
  }

  lemma StreamIdle(s: State, u: Thread)
    requires s.queue > 0 && s.slot.None?
    ensures LateDrain(s, u).stream == s.stream
  {
  }

  lemma StreamLate(s: State, u: Thread)
    requires s.queue > 0 && s.slot.Some?
    ensures LateDrain(s, u).stream == s.stream
  {
  }

  lemma StreamDrain(s: State, ok: bool, u: Thread)
    requires Enabled(s, Drain(ok, u))
    ensures Apply(s, Drain(ok, u)).stream == s.stream
  {
    if s.slot.None? { StreamIdle(s, u); } else { StreamLate(s, u); }
    hide RunThread, LateDrain;
  }

  lemma StreamQueue(s: State, e: Event)
    requires Enabled(s, e) && (e.ExpireQueued? || e.FailNow? || e.Resumed?)
    ensures Apply(s, e).stream == s.stream
  {
    hide RunThread;
  }

  lemma StreamFile(s: State, e: Event)
    requires Enabled(s, e) && (e.ReadRefused? || e.Disable? || e.Detach? || e.Cancel?)
    ensures Apply(s, e).stream == s.stream
  {
    hide RunThread, Abandons;
  }

  lemma {:induction false} OverflowRuns(s: State, w: Wake, es: seq<Event>)
    requires Woken(s, w) && Legal(s, es) && s.stream.overflow == []
    ensures Exec(s, es).stream.overflow == []
    decreases |es|
  {
    hide Woken, Apply, Enabled;
    if es != [] {
      OverflowStays(s, w, es[0]);
      var v := WakeKeeps(s, w, es[0]);
      OverflowRuns(Apply(s, es[0]), v, es[1..]);
    }
  }

  /** Closing a paused operation that exposes no read can copy into freed memory if and only if there is overflow
      when the lock is taken. */
  lemma CloseCopiesExactly(g: Good, x: Id, u: Thread)
    requires Wakes(g.s) && !Exposed(g.s) && x !in g.s.req && u !in g.s.acts
    ensures CanCopyDead(Lock(g.s, x, u)) <==> g.s.stream.overflow != []
  {
    ParkedGood(g);
    hide Holds, Woken, Wakes, Exposed;
    if g.s.stream.overflow != [] {
      hide CanCopyDead, Lock;
      CloseCopies(g.s, x, u);
    } else {
      var n := Lock(g.s, x, u);
      var w := LockWoken(g, x, u);
      hide Lock, Possible;
      forall es, e | Legal(n, es) ensures !CopiesToReleased(Exec(n, es), e) {
        OverflowRuns(n, w, es);
        hide Released;
      }
    }
  }

  /** Such a close, with nothing exposed: all reads were told. */
  lemma CloseCopiesRun() returns (es: seq<Event>)
    ensures Legal(Init("abc"), es)
    ensures var s := Exec(Init("abc"), es); Wakes(s) && !Exposed(s) && CanCopyDead(Lock(s, 7, 7))
  {
    SpillTold();
    hide Legal, Exec, SpillingStage, CanCopyDead, Wakes, Exposed, Lock;
    SpillingPrefix(7);
    es := Spilling()[..7];
    CloseCopies(SpillingStage(7), 7, 7);
  }

  lemma LateQueued()
    ensures var s := LateStage(11); Enabled(s, ExpireQueued(3, true)) && s.worker.Transferring? && !s.cancelled && !s.broken && Hungry(s)
  {
  }

  /** A second read waits in the continue queue, is unpaused and failed, and the next byte still goes to its
      buffer. */
  lemma LoosedRun() returns (es: seq<Event>)
    ensures Legal(Init("ab"), es) && CanWriteDead(Exec(Init("ab"), es))
  {
    LateQueued();
    hide Legal, Exec, LateStage, CanWriteDead, Enabled, Hungry, Holds;
    LatePrefix(11);
    es := Late()[..11];
    var g := Reachable("ab", es);
    LoosedDangles(g, 3);
  }
}
