/** Closing a file: from which states CancelPrefetch can lose or misinform a read, and how all ends from the
    others. */
module PrefetchClose {
  import opened Common
  import opened ReadStream
  import opened PrefetchProtocol
  import opened PrefetchInvariant
  import opened PrefetchTransfer
  import opened PrefetchChain
  import opened PrefetchTheorems
  import opened PrefetchLost
  import opened PrefetchCancel

  // ---- Doing harm.

  /** Accepted reads other than the cancellation handler are lost. */
  ghost predicate Loses(s: State, x: Id) {
    exists lost :: x !in lost && Orphaned(s, lost)
  }

  /** A user was called with a chunk that lies in somebody else's buffer. */
  predicate Misinforms(s: State) {
    exists i | 0 <= i < |s.log| :: s.log[i].1.Misled?
  }

  /** Some schedule from here loses accepted reads. */
  ghost predicate CanLose(s: State, x: Id) {
    exists es :: Legal(s, es) && Loses(Exec(s, es), x)
  }

  /** Some schedule from here misinforms a read. */
  ghost predicate CanMisinform(s: State) {
    exists es :: Legal(s, es) && Misinforms(Exec(s, es))
  }

  /** Some schedule from here loses or misinforms a read. */
  ghost predicate CanHarm(s: State, x: Id) {
    CanLose(s, x) || CanMisinform(s)
  }

  /** A set of linked reads whose first is held somewhere is not lost. */
  lemma {:induction false} HeldNotLost(nodes: map<Id, Node>, req: map<Id, Request>, c: seq<Id>, all: map<Id, Node>, lost: set<Id>, i: nat)
    requires Chain(nodes, req, c) && Unlinked(all, lost) && (forall h | h in nodes :: h in all && all[h] == nodes[h])
    requires i < |c| && c[0] !in lost
    ensures c[i] !in lost
  {
    if i > 0 {
      HeldNotLost(nodes, req, c, all, lost, i - 1);
      assert Linked(nodes, req, c, i - 1);
    }
  }

  /** The protocol by itself never loses a read. */
  lemma GoodNotLost(g: Good, lost: set<Id>)
    ensures !Orphaned(g.s, lost)
  {
    if Orphaned(g.s, lost) {
      var h :| h in lost;
      HeadHeld(g, lost);
      ChainHas(g.s.nodes, g.s.req, g.w.c, h);
      var i :| 0 <= i < |g.w.c| && g.w.c[i] == h;
      HeldNotLost(g.s.nodes, g.s.req, g.w.c, g.s.nodes, lost, i);
    }
  }

  lemma ChainHas(nodes: map<Id, Node>, req: map<Id, Request>, c: seq<Id>, h: Id)
    requires Chain(nodes, req, c) && h in nodes
    ensures h in c
  {
  }

  lemma HeadHeld(g: Good, lost: set<Id>)
    requires Orphaned(g.s, lost)
    ensures g.w.c != [] ==> g.w.c[0] !in lost
  {
    hide Chain, Tail, Birth, Control, Data, History, Unlinked, Untold;
  }

  lemma WokenNotLost(s: State, w: Wake, lost: set<Id>)
    requires Woken(s, w) && w.x !in lost
    ensures !Orphaned(s, lost)
  {
    if Orphaned(s, lost) {
      var h :| h in lost;
      hide Records, Slotted, Untold;
      ChainHas(s.nodes - {w.x}, s.req, w.d, h);
      var i :| 0 <= i < |w.d| && w.d[i] == h;
      assert !Holding(s.acts[w.tok.value], lost);
      hide Crew, Chain;
      HeldNotLost(s.nodes - {w.x}, s.req, w.d, s.nodes, lost, i);
    }
  }

  /** With a handler in the slot nobody else holds a waiting read, and none of them was told. */
  lemma SlotAlone(g: Good)
    requires g.s.slot.Some?
    ensures g.s.slot.value in g.s.nodes && g.s.nodes.Keys <= g.s.req.Keys
    ensures Unheld(g.s.acts, g.s.nodes.Keys) && Untold(g.s.log, g.s.nodes.Keys)
  {
    SlotLive(g);
    NodesRequested(g);
    hide Chain, Tail, Birth, Control, Data, Told;
  }

  lemma NodesRequested(g: Good)
    ensures g.s.nodes.Keys <= g.s.req.Keys
  {
    hide Threads, Head, Tail, Birth, Control, Data, Told;
  }

  lemma ExecOne(s: State, e: Event, es: seq<Event>)
    requires Enabled(s, e) && Legal(Apply(s, e), es)
    ensures Legal(s, [e] + es) && Exec(s, [e] + es) == Exec(Apply(s, e), es)
  {
    hide Enabled, Apply;
    assert ([e] + es)[1..] == es;
  }

  /** The plain store of the cancellation handler takes the place of the handler in the slot. */
  function Overwritten(s: State, x: Id, u: Thread): State {
    Lock(s, x, u).(slot := Some(x), acts := s.acts[u := Installing(x, 1)])
  }

  lemma OverwrittenOrphans(g: Good, x: Id, u: Thread)
    requires g.s.slot.Some? && x !in g.s.req && u !in g.s.acts
    ensures Orphaned(Overwritten(g.s, x, u), g.s.nodes.Keys) && x !in g.s.nodes
  {
    hide Holds;
    SlotAlone(g);
    var n, lost := Overwritten(g.s, x, u), g.s.nodes.Keys;
    UnheldPut(g.s.acts, u, Installing(x, 1), lost);
    hide Unheld, Untold;
    assert Unlinked(n.nodes, lost);
  }

  lemma StoreRuns(s: State, x: Id, u: Thread) returns (es: seq<Event>)
    requires u !in s.acts
    ensures Legal(Lock(s, x, u), es) && Exec(Lock(s, x, u), es) == Overwritten(s, x, u)
  {
    var n := Lock(s, x, u);
    var v := RunsStoring(n, u);
    hide Apply, Enabled;
    assert n.acts[u := Installing(x, 1)] == s.acts[u := Installing(x, 1)];
    es := [Run(u, true, v)] + [];
    ExecOne(n, Run(u, true, v), []);
  }

  lemma SlotLoses(g: Good, x: Id, u: Thread)
    requires g.s.slot.Some? && x !in g.s.req && u !in g.s.acts
    ensures CanLose(Lock(g.s, x, u), x)
  {
    hide Holds, Orphaned, Legal, Exec, Lock, Overwritten;
    OverwrittenOrphans(g, x, u);
    var es := StoreRuns(g.s, x, u);
    assert Loses(Overwritten(g.s, x, u), x);
  }

  /** A reader that is about to store its handler does so first. */
  lemma StoringLoses(g: Good, x: Id, u: Thread, t: Thread)
    requires t in g.s.acts && g.s.acts[t].Storing? && x !in g.s.req && u !in g.s.acts
    ensures CanLose(Lock(g.s, x, u), x)
  {
    hide Holds, Loses;
    var k := KeepsStore(g, t);
    SlotLoses(k, x, u);
    var es :| Legal(Lock(k.s, x, u), es) && Loses(Exec(Lock(k.s, x, u), es), x);
    var v := StoreFirst(g.s, x, u, t, k.s);
    hide Legal, Exec, Lock;
    ExecOne(Lock(g.s, x, u), Run(t, true, v), es);
  }

  lemma StoreFirst(s: State, x: Id, u: Thread, t: Thread, n: State) returns (v: Thread)
    requires t in s.acts && s.acts[t].Storing? && u !in s.acts
    requires n == Stored(s, t, s.acts[t].h, s.acts[t].size)
    ensures Enabled(Lock(s, x, u), Run(t, true, v)) && Apply(Lock(s, x, u), Run(t, true, v)) == Lock(n, x, u)
  {
    LockStores(s, x, u, t, s.acts[t].h, s.acts[t].size);
    assert t in Lock(s, x, u).acts && Lock(s, x, u).acts[t] == s.acts[t];
    hide Apply, Enabled, Lock, Stored;
    v := RunsStoring(Lock(s, x, u), t);
  }

  function Stored(s: State, t: Thread, h: Id, size: nat): State {
    s.(slot := Some(h), acts := s.acts[t := Installing(h, size)])
  }

  lemma LockStores(s: State, x: Id, u: Thread, t: Thread, h: Id, size: nat)
    requires t in s.acts && u !in s.acts
    ensures Stored(Lock(s, x, u), t, h, size) == Lock(Stored(s, t, h, size), x, u)
  {
    assert Lock(s, x, u).acts[t := Installing(h, size)] == Stored(s, t, h, size).acts[u := Storing(x, 1)];
  }

  lemma RunsStoring(s: State, t: Thread) returns (v: Thread)
    requires t in s.acts && s.acts[t].Storing?
    ensures Enabled(s, Run(t, true, v))
    ensures Apply(s, Run(t, true, v)) == Stored(s, t, s.acts[t].h, s.acts[t].size)
  {
    v := Absent(s.acts);
    RunsStore(s, t, true);
    RunsAlone(s, t, true, v);
    hide RunThread;
  }

  // ---- Misinforming a read.

  /** Some schedule from here tells `h` the outcome `o`. */
  ghost predicate CanTell(s: State, h: Id, o: Outcome) {
    exists es :: Legal(s, es) && (h, o) in Exec(s, es).log
  }

  lemma StepTells(s: State, e: Event, h: Id, o: Outcome)
    requires Enabled(s, e) && CanTell(Apply(s, e), h, o)
    ensures CanTell(s, h, o)
  {
    hide Enabled, Apply;
    var es :| Legal(Apply(s, e), es) && (h, o) in Exec(Apply(s, e), es).log;
    hide Legal, Exec;
    ExecOne(s, e, es);
  }

  lemma ReplyTells(s: State, t: Thread)
    requires t in s.acts && s.acts[t].Replying?
    ensures CanTell(s, s.acts[t].h, Answer(s.acts[t].r))
  {
    hide Answer;
    var v := Absent(s.acts);
    var e, h, o := Run(t, true, v), s.acts[t].h, Answer(s.acts[t].r);
    var n := Apply(s, e);
    assert n.log[|s.log|] == (h, o);
    hide Apply;
    assert Legal(n, []) && Exec(n, []) == n;
    StepTells(s, e, h, o);
  }

  lemma HandleTells(s: State, t: Thread)
    requires t in s.acts && s.acts[t].Handling? && Dereferences(s, s.acts[t])
    ensures CanTell(s, s.acts[t].h, Answer(s.acts[t].r))
  {
    hide CanTell, RunThread, Answer;
    var v := Absent(s.acts);
    var h, r := s.acts[t].h, s.acts[t].r;
    RunsHandler(s, t, true, v);
    HandledReplies(s, t, v, h, r);
    hide HandleResponse;
    ReplyTells(HandleResponse(s, t, v, h, r), t);
    StepTells(s, Run(t, true, v), h, Answer(r));
  }

  lemma HandledReplies(s: State, t: Thread, u: Thread, h: Id, r: Response)
    requires t in s.acts && u != t && s.acts[t] == Handling(h, r) && Dereferences(s, s.acts[t])
    ensures var n := HandleResponse(s, t, u, h, r); t in n.acts && n.acts[t] == Replying(h, r)
  {
  }

  /** The thread `t` took `h` out of the slot and has not looked at the client buffer. */
  predicate Built(acts: Acts, nodes: map<Id, Node>, t: Thread, h: Id) {
    t in acts && acts[t] == Building(h) && h in nodes && (nodes[h].next.Some? ==> nodes[h].next.value in nodes)
  }

  lemma BuildTells(s: State, t: Thread, h: Id)
    requires Built(s.acts, s.nodes, t, h) && s.stream.current.Some?
    ensures CanTell(s, h, Answer(Chunk(s.stream, s.owner == Some(h))))
  {
    hide CanTell, RunThread, Answer, Chunk;
    var v := Absent(s.acts);
    RunsAlone(s, t, true, v);
    RunsBuild(s, t, true);
    HandleTells(Build(s, t, h), t);
    StepTells(s, Run(t, true, v), h, Answer(Chunk(s.stream, s.owner == Some(h))));
  }

  /** The canceller installs its own buffer before the answer is built. */
  lemma InstallTells(s: State, t: Thread, h: Id, u: Thread, x: Id)
    requires Built(s.acts, s.nodes, t, h) && u in s.acts && s.acts[u] == Installing(x, 1) && x != h && !Released(s.log, x)
    ensures CanTell(s, h, Answer(Chunk(Install(s.stream, 1), false)))
  {
    hide CanTell, Answer;
    var v := Absent(s.acts);
    var n := Apply(s, Run(u, true, v));
    hide RunThread;
    BuildTells(n, t, h);
    StepTells(s, Run(u, true, v), h, Answer(Chunk(Install(s.stream, 1), false)));
  }

  lemma BuildingFacts(g: Good, t: Thread)
    requires t in g.s.acts && g.s.acts[t].Building?
    ensures Built(g.s.acts, g.s.nodes, t, g.s.acts[t].h) && g.s.nodes.Keys <= g.s.req.Keys
  {
    NodesRequested(g);
    BuildFacts(g, t);
    ChainTail(g.s.nodes, g.s.req, g.w.c);
  }

  /** The read whose answer is being built can be told, with success, what is in the canceller's buffer. */
  lemma BuildingTells(g: Good, x: Id, u: Thread, t: Thread)
    requires t in g.s.acts && g.s.acts[t].Building? && x !in g.s.req && u !in g.s.acts
    ensures CanTell(Lock(g.s, x, u), g.s.acts[t].h, Answer(Chunk(Install(g.s.stream, 1), false)))
  {
    hide Holds;
    BuildingFacts(g, t);
    LedgerOnce(g);
    assert !Released(g.s.log, x);
    hide Released;
    var n, h, o := Overwritten(g.s, x, u), g.s.acts[t].h, Answer(Chunk(Install(g.s.stream, 1), false));
    InstallTells(n, t, h, u, x);
    hide Lock, Overwritten, Answer, Chunk, Install;
    var es := StoreRuns(g.s, x, u);
    var more :| Legal(n, more) && (h, o) in Exec(n, more).log;
    ExecThen(Lock(g.s, x, u), es, more);
  }

  lemma BuildingMisinforms(g: Good, x: Id, u: Thread, t: Thread)
    requires t in g.s.acts && g.s.acts[t].Building? && x !in g.s.req && u !in g.s.acts
    ensures CanMisinform(Lock(g.s, x, u))
  {
    hide Holds, Lock;
    BuildingTells(g, x, u, t);
    TellsMisinforms(Lock(g.s, x, u), g.s.acts[t].h, Answer(Chunk(Install(g.s.stream, 1), false)));
  }

  lemma TellsMisinforms(s: State, h: Id, o: Outcome)
    requires CanTell(s, h, o) && o.Misled?
    ensures CanMisinform(s)
  {
    var es :| Legal(s, es) && (h, o) in Exec(s, es).log;
    hide Legal, Exec;
    assert Misinforms(Exec(s, es));
  }

  lemma {:induction false} ExecThen(s: State, es: seq<Event>, more: seq<Event>)
    requires Legal(s, es) && Legal(Exec(s, es), more)
    ensures Legal(s, es + more) && Exec(s, es + more) == Exec(Exec(s, es), more)
    decreases |es|
  {
    hide Apply, Enabled;
    if es == [] {
      assert es + more == more;
    } else {
      ExecThen(Apply(s, es[0]), es[1..], more);
      assert (es + more)[1..] == es[1..] + more;
    }
  }

  /** Inside Pause() the worker exposes a read: until its exchange the handler is in the slot. */
  lemma PausingExposed(g: Good)
    requires g.s.worker.Pausing? && !g.s.done
    ensures g.s.slot.Some? && Exposed(g.s)
  {
    hide Threads, Chain, Head, Tail, Birth, Claimed, Data, History;
  }

  // ---- The exact condition.

  /** On the state in which CancelPrefetch takes the lock: some schedule loses or misinforms a read if and only
      if the operation is unfinished and flagged as paused, and a read's handler is in the slot, about to be
      stored there, or taken out with its answer yet to be built. */
  lemma CancelHarmsExactly(g: Good, x: Id, u: Thread)
    requires x !in g.s.req && u !in g.s.acts
    ensures CanHarm(AfterCancel(g.s, x, u), x) <==> Wakes(g.s) && Exposed(g.s)
  {
    hide Holds, CanLose, CanMisinform, Lock;
    if !Wakes(g.s) {
      UnwokenSafe(g, x);
    } else if !Exposed(g.s) {
      WokenSafe(g, x, u);
    } else {
      ExposedHarms(g, x, u);
    }
  }

  lemma ExposedHarms(g: Good, x: Id, u: Thread)
    requires Exposed(g.s) && x !in g.s.req && u !in g.s.acts
    ensures CanHarm(Lock(g.s, x, u), x)
    ensures !Answering(g.s) ==> CanLose(Lock(g.s, x, u), x)
    ensures Answering(g.s) ==> CanMisinform(Lock(g.s, x, u))
  {
    hide Holds, CanLose, CanMisinform, Lock;
    if t :| t in g.s.acts && g.s.acts[t].Building? {
      BuildingMisinforms(g, x, u, t);
    } else if g.s.slot.Some? {
      SlotLoses(g, x, u);
    } else {
      var t :| t in g.s.acts && g.s.acts[t].Storing?;
      StoringLoses(g, x, u, t);
    }
  }

  lemma GoodTells(g: Good)
    ensures !Misinforms(g.s)
  {
    hide Holds;
    forall i | 0 <= i < |g.s.log| ensures !g.s.log[i].1.Misled? {
      LogTruth(g, i);
    }
  }

  lemma GoodHarmless(g: Good, x: Id)
    ensures !Loses(g.s, x) && !Misinforms(g.s)
  {
    hide Holds, Orphaned, Misinforms;
    forall lost ensures !Orphaned(g.s, lost) { GoodNotLost(g, lost); }
    GoodTells(g);
  }

  lemma UnwokenSafe(g: Good, x: Id)
    requires !Wakes(g.s)
    ensures !CanHarm(Apply(g.s, Cancel), x)
  {
    hide Holds, Loses, Misinforms;
    var k := Keeps(g, Cancel);
    forall es | Legal(k.s, es) ensures !Loses(Exec(k.s, es), x) && !Misinforms(Exec(k.s, es)) {
      var l := RunFrom(k, es);
      GoodHarmless(l, x);
    }
  }

  lemma WokenHarmless(s: State, w: Wake)
    requires Woken(s, w)
    ensures !Loses(s, w.x) && !Misinforms(s)
  {
    WokenWellTold(s, w);
    hide Woken, Orphaned;
    forall lost | w.x !in lost ensures !Orphaned(s, lost) { WokenNotLost(s, w, lost); }
  }

  lemma WokenSafe(g: Good, x: Id, u: Thread)
    requires Wakes(g.s) && !Exposed(g.s) && x !in g.s.req && u !in g.s.acts
    ensures !CanHarm(Lock(g.s, x, u), x)
  {
    hide Holds, Woken, Lock, Wakes, Exposed, Loses, Misinforms;
    var n := Lock(g.s, x, u);
    var w := LockWoken(g, x, u);
    forall es | Legal(n, es) ensures !Loses(Exec(n, es), x) && !Misinforms(Exec(n, es)) {
      var v := WakeRuns(n, w, es);
      WokenHarmless(Exec(n, es), v);
    }
  }

  // ---- Everything ends well when nothing is exposed.

  lemma WokenSteps(s: State, w: Wake, e: Event)
    requires Woken(s, w) && Possible(s, e)
    ensures Safe(s, e) <==> !FollowsDead(s, e)
    ensures !WritesToReleased(s, e) && StoresIntoEmpty(s, e)
  {
    hide Released;
    WakePossible(s, w, e);
    if e.Run? {
      CrewFacts(s, w, e.t);
      if w.tok == Some(e.t) { HolderFacts(s, w); }
      if s.acts[e.t].Storing? { var n, v := WakeStore(s, w, e.t); }
      if w.xtok == Some(e.t) { XHeld(s, w); }
    }
    hide Woken;
  }

  lemma XHeld(s: State, w: Wake)
    requires Woken(s, w) && w.xtok.Some?
    ensures w.x in s.nodes && s.nodes[w.x].next.None?
  {
    hide Crew, Chain, Records;
  }

  /** What has been told in a state: nobody twice, nobody unknown, and nothing untrue. */
  ghost predicate WellTold(s: State) {
    && (forall i, j | 0 <= i < j < |s.log| :: s.log[i].0 != s.log[j].0)
    && (forall i | 0 <= i < |s.log| :: s.log[i].0 in s.req && !s.log[i].1.Misled?)
    && (forall i | 0 <= i < |s.log| && s.log[i].1.Completed? ::
          Answered(s.source.bytes, s.stream.start + Range(s), s.req[s.log[i].0], s.log[i].1))
  }

  lemma WokenWellTold(s: State, w: Wake)
    requires Woken(s, w)
    ensures WellTold(s)
  {
    hide Crew, Slotted, Doomed, Truthful, Answered;
    forall i | 0 <= i < |s.log| && s.log[i].1.Completed?
      ensures s.log[i].0 in s.req && Answered(s.source.bytes, s.stream.start + Range(s), s.req[s.log[i].0], s.log[i].1)
    {
      TruthMeans(s.source.bytes, End(s), s.req[s.log[i].0], s.log[i].1);
    }
  }

  lemma WokenAllTold(s: State, w: Wake)
    requires Woken(s, w) && s.acts == map[] && s.queue == 0
    ensures s.slot.None? && s.nodes == map[] && forall h | h in s.req :: exists i :: 0 <= i < |s.log| && s.log[i].0 == h
  {
    hide Told;
    assert w.d == [] && w.x !in s.nodes;
    assert s.nodes - {w.x} == map[];
    forall h ensures h !in s.nodes {
      assert h in s.nodes ==> h in s.nodes - {w.x};
    }
    forall h | h in s.req ensures exists i :: 0 <= i < |s.log| && s.log[i].0 == h {
      assert Placed(s.nodes, s.acts, s.log, h, w.place[h]);
    }
  }

  /** Closing a file whose paused operation exposes no read: in every schedule from there on no step follows
      a dangling pointer or overwrites the slot, with two exceptions, and exactly those: a walker reads from a
      file destroyed since it looked, and Continue() copies into the buffer of a handler that was
      told already.  Nobody is told twice or given a wrong chunk; and when the threads have
      left and the continue queue is empty, every read and the cancellation handler have been told. */
  lemma ClosedWell(content: Octets, es: seq<Event>, x: Id, u: Thread, more: seq<Event>, e: Event)
    requires Legal(Init(content), es)
    requires var s := Exec(Init(content), es);
             Wakes(s) && !Exposed(s) && x !in s.req && u !in s.acts && Legal(Lock(s, x, u), more)
    ensures var n := Exec(Lock(Exec(Init(content), es), x, u), more);
            && WellTold(n)
            && (Possible(n, e) ==> (Safe(n, e) <==> !FollowsDead(n, e)) && !WritesToReleased(n, e) && StoresIntoEmpty(n, e))
            && (n.acts == map[] && n.queue == 0 ==>
                  n.nodes == map[] && forall h | h in n.req :: exists i :: 0 <= i < |n.log| && n.log[i].0 == h)
  {
    hide Legal, Exec, Holds, Woken, Lock, Wakes, Exposed, Init, WellTold, Possible, Safe, FollowsDead, WritesToReleased, StoresIntoEmpty;
    var g := Reachable(content, es);
    var w := LockWoken(g, x, u);
    var v := WakeRuns(Lock(g.s, x, u), w, more);
    var n := Exec(Lock(g.s, x, u), more);
    WokenWellTold(n, v);
    if Possible(n, e) { WokenSteps(n, v, e); }
    if n.acts == map[] && n.queue == 0 { WokenAllTold(n, v); }
  }
}
