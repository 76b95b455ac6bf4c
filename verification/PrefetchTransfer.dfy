/** The steps of Continue(), of the curl worker and of the continue queue keep the invariant. */
module PrefetchTransfer {
  import opened Common
  import opened ReadStream
  import opened PrefetchProtocol
  import opened PrefetchInvariant
  import opened PrefetchSteps

  // ---- Continue().

  /** A continuation that lost its handler to a terminal dispatch ends. */
  lemma KeepsLost(g: Good, t: Thread) returns (k: Good)
    requires g.s.created && t in g.s.acts && (g.s.acts[t].Stranding? || g.s.acts[t].Delivering?) && g.s.slot.None?
    ensures k.s.source == g.s.source
    ensures k.s == g.s.(acts := g.s.acts - {t})
  {
    hide Chain, Head, Tail, Birth, Ownership, Claimed, Data, History;
    var n := g.s.(acts := g.s.acts - {t});
    k := KeepsSide(g, n, AfterSide(g.w, n.acts, t), t);
  }

  /** `t` stores its handler into the slot, which it found empty. */
  ghost predicate StoreStep(s: State, w: Witness, n: State, v: Witness, t: Thread) {
    && t in s.acts && s.acts[t].Storing? && w.tok == Some(t) && w.post.None? && s.slot.None? && s.created
    && n == s.(slot := Some(s.acts[t].h), acts := s.acts[t := Installing(s.acts[t].h, s.acts[t].size)])
    && v == w.(tok := None, post := Some(t))
    && !Busy(s.created, s.paused, s.worker) && (!s.done ==> s.queue == 0)
  }

  lemma StoreFacts(g: Good, t: Thread)
    requires t in g.s.acts && g.s.acts[t].Storing?
    ensures g.w.tok == Some(t) && g.w.post.None? && g.s.slot.None? && g.s.created
    ensures !Busy(g.s.created, g.s.paused, g.s.worker) && (!g.s.done ==> g.s.queue == 0)
  {
    hide Chain, Tail, Claimed, Flags, Data, History;
  }

  lemma StoreStructure(s: State, w: Witness, n: State, v: Witness, t: Thread)
    requires Structure(s, w) && StoreStep(s, w, n, v, t)
    ensures Structure(n, v) && w.c != []
  {
    hide Chain;
  }

  lemma StoreControl(s: State, w: Witness, n: State, v: Witness, t: Thread)
    requires Threads(s.acts, w.tok, w.post) && Flags(s) && StoreStep(s, w, n, v, t)
    ensures Control(n, v)
  {
  }

  lemma StoreData(s: State, w: Witness, n: State, v: Witness, t: Thread)
    requires Data(s, w) && StoreStep(s, w, n, v, t) && w.c != [] && w.c[0] in s.req
    ensures Data(n, v)
  {
    hide Bytes, Truthful;
  }

  lemma StoreHistory(s: State, w: Witness, n: State, v: Witness, t: Thread)
    requires History(s, w) && StoreStep(s, w, n, v, t)
    ensures History(n, v)
  {
    hide Ledger, Told;
    LedgerFrame(s.nodes, s.acts, n.acts, s.req, s.log, At(s.acts, w.tok), At(n.acts, v.tok), w.place, t);
    ToldFrame(s.source.bytes, End(s), s.acts, n.acts, s.req, s.log, t);
  }

  /** The head of the chain is an accepted read. */
  lemma HeadRequested(s: State, w: Witness)
    requires Chain(s.nodes, s.req, w.c) && w.c != []
    ensures w.c[0] in s.req && w.c[0] in s.nodes
    ensures s.req[w.c[0]] == Request(s.nodes[w.c[0]].offset, s.nodes[w.c[0]].size)
  {
    assert Linked(s.nodes, s.req, w.c, 0);
  }

  lemma StoreStepHolds(g: Good, n: State, v: Witness, t: Thread)
    requires t in g.s.acts && g.s.acts[t].Storing?
    requires n == g.s.(slot := Some(g.s.acts[t].h), acts := g.s.acts[t := Installing(g.s.acts[t].h, g.s.acts[t].size)])
    requires v == g.w.(tok := None, post := Some(t))
    ensures StoreStep(g.s, g.w, n, v, t) && n.source == g.s.source
  {
    hide Holds;
    StoreFacts(g, t);
  }

  lemma KeepsStore(g: Good, t: Thread) returns (k: Good)
    requires t in g.s.acts && g.s.acts[t].Storing?
    ensures k.s.source == g.s.source
    ensures k.s == g.s.(slot := Some(g.s.acts[t].h), acts := g.s.acts[t := Installing(g.s.acts[t].h, g.s.acts[t].size)])
  {
    hide Threads, Chain, Head, Tail, Birth, Ownership, Claimed, Flags, Data, History, StoreStep;
    var n := g.s.(slot := Some(g.s.acts[t].h), acts := g.s.acts[t := Installing(g.s.acts[t].h, g.s.acts[t].size)]);
    var v := g.w.(tok := None, post := Some(t));
    StoreStepHolds(g, n, v, t);
    StoreStructure(g.s, g.w, n, v, t);
    HeadRequested(g.s, g.w);
    StoreControl(g.s, g.w, n, v, t);
    StoreData(g.s, g.w, n, v, t);
    StoreHistory(g.s, g.w, n, v, t);
    k := Snapshot(n, v);
  }

  /** `t` installs the client buffer and copies the overflow into it. */
  ghost predicate InstallStep(s: State, w: Witness, n: State, t: Thread) {
    && t in s.acts && s.acts[t].Installing? && w.post == Some(t) && s.created
    && n == s.(stream := Install(s.stream, s.acts[t].size), owner := Some(s.acts[t].h), acts := s.acts[t := Loading(s.acts[t].h)])
  }

  lemma InstallStructure(s: State, w: Witness, n: State, t: Thread)
    requires Structure(s, w) && InstallStep(s, w, n, t)
    ensures Structure(n, w)
  {
    hide Chain;
  }

  lemma InstallControl(s: State, w: Witness, n: State, t: Thread)
    requires Threads(s.acts, w.tok, w.post) && Control(s, w) && InstallStep(s, w, n, t)
    ensures Control(n, w)
  {
    if exists x :: x in s.acts && IsFail(s.acts[x]) {
      var x :| x in s.acts && IsFail(s.acts[x]);
      assert x in n.acts && IsFail(n.acts[x]);
    }
  }

  lemma SoundBytes(content: Octets, stream: Stream, received: nat, end: nat)
    requires Bytes(content, stream, received, end)
    ensures Sound(stream)
  {
  }

  lemma InstallBytes(content: Octets, stream: Stream, size: nat, received: nat, end: nat)
    requires Bytes(content, stream, received, end) && stream.current.None?
    ensures Bytes(content, Install(stream, size), received, end)
  {
    InstallHolds(stream, size);
    hide Install, Held, Sound;
  }

  /** The stream after the installation holds the same bytes at the same place, with a buffer. */
  lemma InstallStream(s: State, w: Witness, n: State, t: Thread)
    requires Data(s, w) && InstallStep(s, w, n, t)
    ensures Bytes(n.source.bytes, n.stream, n.received, End(n)) && End(n) == End(s)
    ensures Position(n.stream) == Position(s.stream)
    ensures n.stream.current.Some? && n.stream.current.value.size == s.acts[t].size
  {
    assert s.stream.current.None? && Bytes(s.source.bytes, s.stream, s.received, End(s)) by {
      hide Bytes, SlotOffsets, HolderOffsets, NextOffset;
    }
    hide Bytes, Data, Install;
    InstallBytes(s.source.bytes, s.stream, s.acts[t].size, s.received, End(s));
    SoundBytes(s.source.bytes, s.stream, s.received, End(s));
    InstallHolds(s.stream, s.acts[t].size);
  }

  lemma InstallSlot(s: State, w: Witness, n: State, t: Thread)
    requires SlotOffsets(s, w.c, At(s.acts, w.post)) && InstallStep(s, w, n, t)
    requires s.worker.SuccessClaim? ==> s.slot.None?
    requires s.slot.Some? && w.c != [] ==> s.acts[t].h == w.c[0]
    requires Position(n.stream) == Position(s.stream)
    requires n.stream.current.Some? && n.stream.current.value.size == s.acts[t].size
    ensures SlotOffsets(n, w.c, At(n.acts, w.post))
  {
    hide Truthful, Install;
  }

  lemma InstallHolder(s: State, w: Witness, n: State, t: Thread)
    requires Threads(s.acts, w.tok, w.post) && HolderOffsets(s, w.c, At(s.acts, w.tok)) && InstallStep(s, w, n, t)
    requires End(n) == End(s)
    requires var a := At(s.acts, w.tok); !a.Storing? && !a.Building? && !(a.Handling? && a.r.Ok?)
    ensures HolderOffsets(n, w.c, At(n.acts, w.tok))
  {
    hide Truthful, Install;
  }

  lemma InstallNext(s: State, w: Witness, n: State, t: Thread)
    requires NextOffset(s, w.c) && InstallStep(s, w, n, t) && Position(n.stream) == Position(s.stream)
    ensures NextOffset(n, w.c)
  {
    hide Install;
  }

  lemma InstallVacant(s: State, w: Witness, n: State, t: Thread)
    requires InstallStep(s, w, n, t) && (s.slot.Some? || s.done) && !s.worker.Pausing?
    ensures Vacant(n, At(n.acts, w.tok), At(n.acts, w.post)) && Brimful(n)
  {
    hide Install;
  }

  /** Nobody else is at the stream while a buffer is installed. */
  lemma InstallAlone(s: State, w: Witness, n: State, t: Thread)
    requires Threads(s.acts, w.tok, w.post) && Head(s.acts, s.slot, w.c, w.tok)
    requires Ownership(s, w.tok, w.post) && InstallStep(s, w, n, t)
    ensures var a := At(s.acts, w.tok); !a.Storing? && !a.Building? && !(a.Handling? && a.r.Ok?)
    ensures !s.worker.SuccessClaim? && !s.worker.Pausing? && (s.slot.Some? || s.done)
    ensures s.slot.Some? && w.c != [] ==> s.acts[t].h == w.c[0]
  {
    hide Install;
  }

  lemma InstallData(s: State, w: Witness, n: State, t: Thread)
    requires Threads(s.acts, w.tok, w.post) && Head(s.acts, s.slot, w.c, w.tok)
    requires Ownership(s, w.tok, w.post) && Data(s, w) && InstallStep(s, w, n, t)
    ensures Data(n, w)
  {
    hide Threads, Head, Ownership, Bytes, SlotOffsets, HolderOffsets, NextOffset, Vacant, Brimful, InstallStep;
    InstallAlone(s, w, n, t);
    InstallStream(s, w, n, t);
    InstallSlot(s, w, n, t);
    InstallHolder(s, w, n, t);
    InstallNext(s, w, n, t);
    InstallVacant(s, w, n, t);
  }

  lemma InstallHistory(s: State, w: Witness, n: State, t: Thread)
    requires Threads(s.acts, w.tok, w.post) && History(s, w) && InstallStep(s, w, n, t)
    ensures History(n, w)
  {
    hide Ledger, Told;
    LedgerFrame(s.nodes, s.acts, n.acts, s.req, s.log, At(s.acts, w.tok), At(n.acts, w.tok), w.place, t);
    ToldFrame(s.source.bytes, End(s), s.acts, n.acts, s.req, s.log, t);
  }

  lemma KeepsInstall(g: Good, t: Thread) returns (k: Good)
    requires t in g.s.acts && g.s.acts[t].Installing? && g.s.created
    ensures k.s.source == g.s.source
    ensures k.s == g.s.(stream := Install(g.s.stream, g.s.acts[t].size), owner := Some(g.s.acts[t].h), acts := g.s.acts[t := Loading(g.s.acts[t].h)])
  {
    var n := g.s.(stream := Install(g.s.stream, g.s.acts[t].size), owner := Some(g.s.acts[t].h), acts := g.s.acts[t := Loading(g.s.acts[t].h)]);
    assert g.w.post == Some(t) by { hide Chain, Head, Tail, Birth, Control, Data, History; }
    hide Threads, Chain, Head, Tail, Birth, Ownership, Claimed, Flags, Data, History, Install;
    InstallStructure(g.s, g.w, n, t);
    InstallControl(g.s, g.w, n, t);
    InstallData(g.s, g.w, n, t);
    InstallHistory(g.s, g.w, n, t);
    k := Snapshot(n, g.w);
  }

  // ---- Delivering the client buffer.

  /** The chunk handed out is the truth about the read it answers, and the rest stays in order. */
  lemma DeliverTruthful(content: Octets, stream: Stream, received: nat, end: nat, q: Request)
    requires Bytes(content, stream, received, end) && stream.current.Some?
    requires q == Request(Position(stream), stream.current.value.size)
    requires |stream.current.value.written| < q.size ==> stream.start + received == end
    ensures Truthful(content, end, q, Chunk(stream, true))
    ensures Bytes(content, Deliver(stream), received, end)
    ensures Chunk(stream, true).offset + |Chunk(stream, true).data| == Position(Deliver(stream))
  {
    var d := stream.current.value.written;
    assert Held(stream) == d + stream.overflow;
    assert Held(Deliver(stream)) == stream.overflow;
    if received > 0 {
      assert d == Held(stream)[..|d|] && stream.overflow == Held(stream)[|d|..];
    }
  }

  /** The worker, or a continuation that saw the transfer end well, takes the slot's handler to answer it. */
  ghost predicate TakeStep(s: State, w: Witness, n: State, v: Witness, u: Thread) {
    && s.created && s.slot.Some? && !s.worker.SuccessClaim? && !At(s.acts, w.post).Installing?
    && ClaimStep(s, w, n, v, u, Building(s.slot.value)) && !n.worker.Pausing? && n.queue == s.queue
    && (s.stream.current.Some? && |s.stream.current.value.written| < s.stream.current.value.size ==> s.received == Range(s))
  }

  lemma TakeData(s: State, w: Witness, n: State, v: Witness, u: Thread)
    requires Structure(s, w) && Data(s, w) && TakeStep(s, w, n, v, u)
    ensures Data(n, v)
  {
    hide Truthful, Bytes;
    ClaimStructure(s, w, n, v, u, Building(s.slot.value));
    HeadRequested(s, w);
    hide Threads, Chain, Tail, Birth;
  }

  lemma KeepsTake(g: Good, n: State, u: Thread) returns (k: Good)
    requires g.s.created && g.s.slot.Some?
    requires !g.s.worker.SuccessClaim? && !At(g.s.acts, g.w.post).Installing?
    requires u in g.s.acts ==> IsPost(g.s.acts[u]) || g.s.acts[u].FailClaim?
    requires g.w.post.None? || g.w.post == Some(u)
    requires n == g.s.(slot := None, acts := g.s.acts[u := Building(g.s.slot.value)], worker := n.worker)
    requires !Busy(n.created, n.paused, n.worker) && (n.done || n.queue == 0)
    requires (n.worker == g.s.worker && !n.worker.Pausing?) || (n.worker.Transferring? && g.s.worker.Pausing?)
    requires g.s.stream.current.Some? && |g.s.stream.current.value.written| < g.s.stream.current.value.size ==> g.s.received == Range(g.s)
    ensures k.s.source == g.s.source
    ensures k.s == n
  {
    var v := g.w.(tok := Some(u), post := if g.w.post == Some(u) then None else g.w.post);
    var a := Building(g.s.slot.value);
    hide Threads, Chain, Head, Tail, Birth, Ownership, Claimed, Flags, Data, History;
    ClaimStructure(g.s, g.w, n, v, u, a);
    ClaimControl(g.s, g.w, n, v, u, a);
    TakeData(g.s, g.w, n, v, u);
    ClaimHistory(g.s, g.w, n, v, u, a);
    k := Snapshot(n, v);
  }

  /** Facts about a continuation that is about to deliver. */
  lemma DeliveringFacts(g: Good, t: Thread)
    requires t in g.s.acts && g.s.acts[t].Delivering? && g.s.slot.Some? && g.s.created
    ensures g.w.post == Some(t) && !Busy(g.s.created, g.s.paused, g.s.worker)
    ensures !g.s.worker.SuccessClaim? && !g.s.worker.Pausing?
    ensures g.s.done && g.s.received == Range(g.s)
  {
    hide Chain, Tail, Birth, Claimed, Data, History;
  }

  lemma KeepsDelivering(g: Good, t: Thread) returns (k: Good)
    requires t in g.s.acts && g.s.acts[t].Delivering? && g.s.slot.Some? && g.s.created
    ensures k.s.source == g.s.source
    ensures k.s == Take(g.s, t)
  {
    hide Structure, Control, Data, History;
    DeliveringFacts(g, t);
    k := KeepsTake(g, Take(g.s, t), t);
  }

  // ---- Building the answer.

  ghost predicate BuildStep(s: State, w: Witness, n: State, t: Thread, r: Response) {
    && t in s.acts && s.acts[t].Building? && w.tok == Some(t) && s.created && s.stream.current.Some? && s.slot.None?
    && w.c != [] && w.c[0] in s.req && s.acts[t].h == w.c[0]
    && r == Chunk(s.stream, s.owner == Some(w.c[0]))
    && n == s.(stream := Deliver(s.stream), owner := None, acts := s.acts[t := Handling(w.c[0], r)])
  }

  lemma BuildFacts(g: Good, t: Thread)
    requires t in g.s.acts && g.s.acts[t].Building?
    ensures g.w.tok == Some(t) && g.s.created && g.s.slot.None? && g.s.stream.current.Some?
    ensures g.w.c != [] && g.w.c[0] in g.s.req && g.s.acts[t].h == g.w.c[0]
    ensures !Busy(g.s.created, g.s.paused, g.s.worker) && g.w.post.None?
  {
    if g.w.c != [] { HeadRequested(g.s, g.w); }
    hide Chain, Tail, Claimed, Flags, History, Bytes, Truthful, NextOffset, SlotOffsets;
  }

  lemma BuildStructure(s: State, w: Witness, n: State, t: Thread, r: Response)
    requires Structure(s, w) && BuildStep(s, w, n, t, r)
    ensures Structure(n, w)
  {
    hide Chain;
  }

  lemma BuildControl(s: State, w: Witness, n: State, t: Thread, r: Response)
    requires Threads(s.acts, w.tok, w.post) && Control(s, w) && BuildStep(s, w, n, t, r)
    requires !Busy(s.created, s.paused, s.worker) && w.post.None?
    ensures Control(n, w)
  {
  }

  lemma BuildData(s: State, w: Witness, n: State, t: Thread, r: Response)
    requires Data(s, w) && BuildStep(s, w, n, t, r)
    requires !Busy(s.created, s.paused, s.worker) && w.post.None?
    ensures Data(n, w)
  {
    hide Bytes, Truthful;
    DeliverTruthful(s.source.bytes, s.stream, s.received, End(s), s.req[w.c[0]]);
  }

  lemma BuildHistory(s: State, w: Witness, n: State, t: Thread, r: Response)
    requires History(s, w) && BuildStep(s, w, n, t, r)
    ensures History(n, w)
  {
    hide Ledger, Told;
    LedgerFrame(s.nodes, s.acts, n.acts, s.req, s.log, At(s.acts, w.tok), At(n.acts, w.tok), w.place, t);
    ToldFrame(s.source.bytes, End(s), s.acts, n.acts, s.req, s.log, t);
  }

  lemma KeepsBuilding(g: Good, t: Thread) returns (k: Good)
    requires t in g.s.acts && g.s.acts[t].Building? && g.s.stream.current.Some?
    ensures k.s.source == g.s.source
    ensures k.s == Build(g.s, t, g.s.acts[t].h)
  {
    hide Structure, Control, Data, History, Deliver;
    BuildFacts(g, t);
    var n := Build(g.s, t, g.s.acts[t].h);
    var r := Chunk(g.s.stream, g.s.owner == Some(g.w.c[0]));
    assert BuildStep(g.s, g.w, n, t, r);
    k := KeepsBuildStep(g, n, t, r);
  }

  lemma KeepsBuildStep(g: Good, n: State, t: Thread, r: Response) returns (k: Good)
    requires BuildStep(g.s, g.w, n, t, r) && !Busy(g.s.created, g.s.paused, g.s.worker) && g.w.post.None?
    ensures k.s.source == g.s.source
    ensures k.s == n
  {
    hide Threads, Chain, Head, Tail, Birth, Ownership, Claimed, Flags, Data, History, BuildStep;
    BuildStructure(g.s, g.w, n, t, r);
    BuildControl(g.s, g.w, n, t, r);
    BuildData(g.s, g.w, n, t, r);
    BuildHistory(g.s, g.w, n, t, r);
    assert n.source == g.s.source by { BuildSource(g.s, g.w, n, t, r); }
    k := Snapshot(n, g.w);
  }

  lemma BuildSource(s: State, w: Witness, n: State, t: Thread, r: Response)
    requires BuildStep(s, w, n, t, r)
    ensures n.source == s.source
  {
    hide Deliver;
  }

  /** Facts about the worker while it owns the stream. */
  lemma BusyFacts(g: Good)
    requires Busy(g.s.created, g.s.paused, g.s.worker)
    ensures g.w.post.None? && Calm(g.s.slot, g.s.done, At(g.s.acts, g.w.tok))
    ensures !g.s.done && !Finishing(g.s.worker) ==> g.s.queue == 0
    ensures g.s.slot.Some? && !g.s.worker.SuccessClaim? ==> g.s.stream.current.Some?
  {
    if g.s.slot.Some? { HeadRequested(g.s, g.w); }
    hide Chain, Tail, Birth, Claimed, Truthful, Bytes, History;
  }
}
