/** The steps of the curl worker keep the invariant: the write callback, Success() and the drain of
    the continue queue. */
module PrefetchWorker {
  import opened Common
  import opened ReadStream
  import opened PrefetchProtocol
  import opened PrefetchInvariant
  import opened PrefetchSteps
  import opened PrefetchTransfer

  // ---- Steps that only move the operation's flags.

  ghost predicate FlagStep(s: State, n: State) {
    && s.created
    && n == s.(failed := n.failed, done := n.done, worker := n.worker, paused := n.paused, flagged := n.flagged,
               resuming := n.resuming, queue := n.queue, broken := n.broken)
    && (s.done ==> n.done)
    && !s.worker.SuccessClaim? && !n.worker.SuccessClaim?
    && (n.worker.Pausing? ==> s.worker.Pausing? || s.stream.current.None?
                              || s.stream.current.value.size <= |s.stream.current.value.written|)
  }

  lemma FlagStructure(s: State, w: Witness, n: State)
    requires Structure(s, w) && FlagStep(s, n)
    ensures Structure(n, w)
  {
    hide Threads, Chain, Head, Tail;
  }

  lemma FlagData(s: State, w: Witness, n: State)
    requires Data(s, w) && FlagStep(s, n)
    ensures Data(n, w)
  {
    hide Bytes, Truthful;
  }

  lemma FlagHistory(s: State, w: Witness, n: State)
    requires History(s, w) && FlagStep(s, n)
    ensures History(n, w)
  {
    hide Ledger, Told;
  }

  lemma KeepsFlags(g: Good, n: State) returns (k: Good)
    requires FlagStep(g.s, n) && Control(n, g.w)
    ensures k.s.source == g.s.source
    ensures k == Snapshot(n, g.w)
  {
    hide Structure, Control, Data, History;
    FlagStructure(g.s, g.w, n);
    FlagData(g.s, g.w, n);
    FlagHistory(g.s, g.w, n);
    k := Snapshot(n, g.w);
  }

  /** Flag steps of the worker that keep control: each moves Busy only as its owner may. */
  lemma FlagControl(s: State, w: Witness, n: State)
    requires Control(s, w) && FlagStep(s, n) && n.queue == s.queue
    requires Busy(n.created, n.paused, n.worker) ==> Busy(s.created, s.paused, s.worker)
    requires n.paused == s.paused || (!s.paused && (s.slot.None? || n.worker.Pausing?))
    requires Finishing(s.worker) ==> Finishing(n.worker)
    requires !Finishing(n.worker) ==> n.failed == s.failed && n.done == s.done
    requires Finishing(n.worker) ==> !n.broken && n.received == Range(n)
    requires n.worker.SuccessCheck? || n.worker.Ended? ==> n.done
    requires n.worker.Pausing? ==> n.paused && (!n.done ==> n.queue == 0)
    requires s.worker.Pausing? && !n.worker.Pausing? ==> n.worker.Transferring? && n.slot.None?
    requires n.worker.Ended? && !s.worker.Ended? ==> n.slot.None?
    ensures Control(n, w)
  {
  }

  lemma KeepsFinish(g: Good) returns (k: Good)
    requires Enabled(g.s, CurlFinish)
    ensures k.s.source == g.s.source
    ensures k.s == g.s.(worker := SuccessFlag)
  {
    hide Structure, Data, History, Ownership, Claimed, Flags;
    FlagControl(g.s, g.w, g.s.(worker := SuccessFlag));
    k := KeepsFlags(g, g.s.(worker := SuccessFlag));
  }

  lemma WorkerFlags(g: Good)
    ensures Finishing(g.s.worker) ==> g.s.created && !g.s.broken && g.s.received == Range(g.s)
    ensures g.s.worker.Pausing? ==> g.s.created && g.s.paused
    ensures g.s.worker.SuccessCheck? || g.s.worker.SuccessClaim? || g.s.worker.Ended? ==> g.s.done
  {
    hide Structure, Data, History, Ownership, Claimed;
  }

  /** The stores of Success(), and its look at an empty slot. */
  lemma KeepsSuccessFlags(g: Good, n: State) returns (k: Good)
    requires match g.s.worker
             case SuccessFlag => n == g.s.(failed := false, worker := SuccessDone)
             case SuccessDone => n == g.s.(done := true, worker := SuccessCheck)
             case SuccessCheck => g.s.slot.None? && n == g.s.(worker := Ended)
             case _ => false
    ensures k.s.source == g.s.source
    ensures k.s == n
  {
    hide Structure, Data, History, Ownership, Claimed, Flags;
    WorkerFlags(g);
    FlagControl(g.s, g.w, n);
    k := KeepsFlags(g, n);
  }

  /** A write found no room: Pause() is entered, with a full buffer if there is one. */
  lemma KeepsPausing(g: Good) returns (k: Good)
    requires g.s.created && g.s.worker.Transferring? && !g.s.paused
    requires g.s.stream.current.None? || g.s.stream.current.value.size <= |g.s.stream.current.value.written|
    ensures k.s.source == g.s.source
    ensures k.s == g.s.(paused := true, flagged := true, worker := Pausing)
  {
    hide Structure, Data, History, Ownership, Claimed, Flags;
    BusyFacts(g);
    var n := g.s.(paused := true, flagged := true, worker := Pausing);
    FlagControl(g.s, g.w, n);
    k := KeepsFlags(g, n);
  }

  /** Pause() finds no handler. */
  lemma KeepsPauseIdle(g: Good) returns (k: Good)
    requires g.s.worker.Pausing? && g.s.slot.None?
    ensures k.s.source == g.s.source
    ensures k.s == g.s.(worker := Transferring)
  {
    hide Structure, Data, History, Ownership, Claimed, Flags;
    WorkerFlags(g);
    BusyFacts(g);
    FlagControl(g.s, g.w, g.s.(worker := Transferring));
    k := KeepsFlags(g, g.s.(worker := Transferring));
  }

  /** Pause() takes the handler of the read whose buffer is full. */
  lemma KeepsPauseTake(g: Good, u: Thread) returns (k: Good)
    requires g.s.worker.Pausing? && g.s.slot.Some? && u !in g.s.acts
    ensures k.s.source == g.s.source
    ensures k.s == Take(g.s.(worker := Transferring), u)
  {
    hide Structure, Control, Data, History;
    WorkerFlags(g);
    BusyFacts(g);
    BrimfulFacts(g);
    k := KeepsTake(g, Take(g.s.(worker := Transferring), u), u);
  }

  lemma BrimfulFacts(g: Good)
    ensures Brimful(g.s)
  {
    hide Structure, Control, History, Bytes, SlotOffsets, HolderOffsets, NextOffset, Vacant;
  }

  lemma KeepsBroken(g: Good) returns (k: Good)
    requires g.s.created && g.s.worker.Transferring?
    ensures k.s.source == g.s.source
    ensures k.s == g.s.(broken := true)
  {
    hide Structure, Data, History, Ownership, Claimed, Flags;
    FlagControl(g.s, g.w, g.s.(broken := true));
    k := KeepsFlags(g, g.s.(broken := true));
  }

  /** The drain of a live continuation unpauses the transfer. */
  lemma UnpauseControl(s: State, w: Witness, n: State)
    requires Control(s, w) && s.created && !s.done && s.queue > 0
    requires n == s.(queue := s.queue - 1, paused := false, resuming := true)
    ensures Control(n, w)
  {
  }

  lemma KeepsUnpause(g: Good) returns (k: Good)
    requires g.s.created && !g.s.done && g.s.queue > 0
    ensures k.s.source == g.s.source
    ensures k.s == g.s.(queue := g.s.queue - 1, paused := false, resuming := true)
  {
    hide Structure, Data, History, Ownership, Claimed, Flags;
    assert !g.s.worker.SuccessClaim? by { WorkerFlags(g); }
    UnpauseControl(g.s, g.w, g.s.(queue := g.s.queue - 1, paused := false, resuming := true));
    k := KeepsFlags(g, g.s.(queue := g.s.queue - 1, paused := false, resuming := true));
  }

  /** The worker clears its flag. */
  lemma KeepsResumed(g: Good) returns (k: Good)
    requires g.s.created
    ensures k.s.source == g.s.source
    ensures k.s == g.s.(flagged := false, resuming := false)
  {
    hide Structure, Control, Data, History;
    ResumedFrame(g);
    k := Snapshot(g.s.(flagged := false, resuming := false), g.w);
  }

  /** A queued continuation of a finished operation with nothing left to claim. */
  lemma KeepsStaleDrain(g: Good) returns (k: Good)
    requires g.s.created && g.s.done && g.s.queue > 0 && g.s.slot.None?
    ensures k.s.source == g.s.source
    ensures k.s == g.s.(queue := g.s.queue - 1)
  {
    hide Structure, Control, Data, History;
    var n := g.s.(queue := g.s.queue - 1);
    assert Structure(n, g.w) by { QueueFrame(g); }
    assert Control(n, g.w) by { QueueFrame(g); }
    assert Data(n, g.w) by { QueueFrame(g); }
    assert History(n, g.w) by { QueueFrame(g); }
    k := Snapshot(n, g.w);
  }

  lemma QueueFrame(g: Good)
    requires g.s.created && g.s.done && g.s.queue > 0 && g.s.slot.None?
    ensures var n := g.s.(queue := g.s.queue - 1);
            Structure(n, g.w) && Control(n, g.w) && Data(n, g.w) && History(n, g.w)
  {
    hide Threads, Chain, Head, Tail, Ledger, Told, Bytes, Truthful;
  }

  // ---- The write callback takes data.

  /** Whatever is taken extends the held bytes by the next bytes of the object. */
  lemma AcceptBytes(content: Octets, stream: Stream, received: nat, end: nat, data: Octets)
    requires Bytes(content, stream, received, end)
    requires stream.start + received + |data| <= end <= |content|
    requires data == content[stream.start + received..stream.start + received + |data|]
    ensures var (t, v) := Accept(stream, data);
            && Bytes(content, t, t.delivered + |Held(t)|, end)
            && (v == Taken ==> t.delivered + |Held(t)| == received + |data|)
            && Position(t) == Position(stream) && t.start == stream.start && t.limit == stream.limit
            && t.current.Some? == stream.current.Some?
            && (t.current.Some? ==> t.current.value.size == stream.current.value.size)
  {
    AcceptHolds(stream, data);
    var (t, v) := Accept(stream, data);
    if v == Taken {
      TakenBytes(content, stream, received, t, data);
    } else if v == TooMuch {
      var n: nat :| n < |data| && Held(t) == Held(stream) + data[..n];
      TakenBytes(content, stream, received, t, data[..n]);
    }
  }

  lemma TakenBytes(content: Octets, stream: Stream, received: nat, t: Stream, data: Octets)
    requires received == stream.delivered + |Held(stream)| && stream.start + received + |data| <= |content|
    requires received > 0 ==> Held(stream) == content[Position(stream)..stream.start + received]
    requires data == content[stream.start + received..stream.start + received + |data|]
    requires Held(t) == Held(stream) + data && t.delivered == stream.delivered && t.start == stream.start
    ensures Held(t) == content[Position(t)..t.start + t.delivered + |Held(t)|]
  {
    var a, b, c := Position(stream), stream.start + received, stream.start + received + |data|;
    assert content[a..c] == content[a..b] + content[b..c];
  }

  ghost predicate AcceptStep(s: State, n: State, data: Octets) {
    && s.created && s.worker.Transferring? && !s.paused && NextBytes(s, data)
    && n == s.(stream := n.stream, received := n.received, broken := n.broken)
    && n.stream == Accept(s.stream, data).0
    && n.received == n.stream.delivered + |Held(n.stream)|
  }

  lemma AcceptedBytes(s: State, n: State, data: Octets)
    requires Bytes(s.source.bytes, s.stream, s.received, End(s)) && AcceptStep(s, n, data)
    ensures Bytes(n.source.bytes, n.stream, n.received, End(n))
    ensures Position(n.stream) == Position(s.stream) && End(n) == End(s)
    ensures n.stream.current.Some? == s.stream.current.Some?
    ensures n.stream.current.Some? ==> n.stream.current.value.size == s.stream.current.value.size
  {
    assert End(s) <= |s.source.bytes|;
    AcceptBytes(s.source.bytes, s.stream, s.received, End(s), data);
  }

  lemma AcceptData(s: State, w: Witness, n: State, data: Octets)
    requires Head(s.acts, s.slot, w.c, w.tok) && Data(s, w) && AcceptStep(s, n, data)
    requires w.post.None? && Calm(s.slot, s.done, At(s.acts, w.tok)) && (w.c != [] ==> w.c[0] in s.req)
    ensures Data(n, w)
  {
    hide Bytes, Truthful, Accept, Held, AcceptStep;
    AcceptedBytes(s, n, data);
    AcceptFrame(s, n, data);
  }

  lemma AcceptFrame(s: State, n: State, data: Octets)
    requires AcceptStep(s, n, data)
    ensures n == s.(stream := n.stream, received := n.received, broken := n.broken) && s.worker.Transferring?
  {
    hide Accept;
  }

  lemma AcceptControl(s: State, w: Witness, n: State, data: Octets)
    requires Control(s, w) && AcceptStep(s, n, data)
    ensures Control(n, w)
  {
  }

  lemma KeepsAccept(g: Good, n: State, data: Octets) returns (k: Good)
    requires AcceptStep(g.s, n, data)
    ensures k.s.source == g.s.source
    ensures k == Snapshot(n, g.w)
  {
    hide Data, Threads, Chain, Head, Tail, Ownership, Claimed, Flags, Ledger, Told;
    BusyFacts(g);
    if g.w.c != [] { HeadRequested(g.s, g.w); }
    AcceptBounds(g, data);
    AcceptData(g.s, g.w, n, data);
    AcceptControl(g.s, g.w, n, data);
    k := Snapshot(n, g.w);
  }

  /** The range asked for does not change. */
  lemma AcceptBounds(g: Good, data: Octets)
    requires NextBytes(g.s, data)
    ensures Accept(g.s.stream, data).0.start == g.s.stream.start && Accept(g.s.stream, data).0.limit == g.s.stream.limit
  {
    hide Structure, Control, History, Holds;
  }

  // ---- Success() with a handler in the slot.

  /** Success() builds its response before the exchange. */
  ghost predicate PrepareStep(s: State, n: State) {
    && s.worker.SuccessCheck? && s.slot.Some? && s.stream.current.Some? && s.received == Range(s) && s.done && s.created
    && n == s.(stream := Deliver(s.stream), worker := SuccessClaim(Chunk(s.stream, s.owner == s.slot)))
  }

  lemma PrepareData(s: State, w: Witness, n: State)
    requires Head(s.acts, s.slot, w.c, w.tok) && Data(s, w) && PrepareStep(s, n) && w.post.None? && w.c != [] && w.c[0] in s.req
    ensures Data(n, w)
  {
    hide Bytes, Truthful;
    DeliverTruthful(s.source.bytes, s.stream, s.received, End(s), s.req[w.c[0]]);
  }

  lemma PrepareControl(s: State, w: Witness, n: State)
    requires Control(s, w) && PrepareStep(s, n)
    ensures Control(n, w)
  {
  }

  lemma KeepsPrepare(g: Good, n: State) returns (k: Good)
    requires PrepareStep(g.s, n)
    ensures k.s.source == g.s.source
    ensures k == Snapshot(n, g.w)
  {
    hide Data, Threads, Chain, Tail, Ownership, Claimed, Flags, Ledger, Told;
    BusyFacts(g);
    HeadRequested(g.s, g.w);
    PrepareData(g.s, g.w, n);
    PrepareControl(g.s, g.w, n);
    k := Snapshot(n, g.w);
  }

  lemma AnswerData(s: State, w: Witness, n: State, v: Witness, u: Thread)
    requires Structure(s, w) && Data(s, w) && s.created && s.worker.SuccessClaim? && w.post.None? && s.slot.Some?
    requires ClaimStep(s, w, n, v, u, Handling(s.slot.value, s.worker.r)) && !n.worker.Pausing?
    ensures Data(n, v) && s.worker.r.Ok?
  {
    hide Bytes, Truthful;
    ClaimStructure(s, w, n, v, u, Handling(s.slot.value, s.worker.r));
    HeadRequested(s, w);
    hide Threads, Chain, Tail, Birth;
  }

  lemma KeepsAnswer(g: Good, u: Thread) returns (k: Good)
    requires g.s.worker.SuccessClaim? && g.s.slot.Some? && u !in g.s.acts
    ensures k.s.source == g.s.source
    ensures k.s == g.s.(slot := None, worker := Ended, acts := g.s.acts[u := Handling(g.s.slot.value, g.s.worker.r)])
  {
    var a := Handling(g.s.slot.value, g.s.worker.r);
    var n := g.s.(slot := None, worker := Ended, acts := g.s.acts[u := a]);
    var v := g.w.(tok := Some(u));
    hide Threads, Chain, Head, Tail, Birth, Ownership, Claimed, Flags, Data, History;
    WorkerFlags(g);
    BusyFacts(g);
    ClaimStructure(g.s, g.w, n, v, u, a);
    ClaimControl(g.s, g.w, n, v, u, a);
    AnswerData(g.s, g.w, n, v, u);
    ClaimHistory(g.s, g.w, n, v, u, a);
    k := Snapshot(n, v);
  }

  lemma ResumedFrame(g: Good)
    requires g.s.created
    ensures var n := g.s.(flagged := false, resuming := false);
            Structure(n, g.w) && Control(n, g.w) && Data(n, g.w) && History(n, g.w)
  {
    hide Threads, Chain, Head, Tail, Bytes, Truthful, Ledger, Told;
  }

  lemma LostFrame(g: Good)
    requires g.s.worker.SuccessClaim? && g.s.slot.None?
    ensures var n := g.s.(worker := Ended);
            Structure(n, g.w) && Control(n, g.w) && Data(n, g.w) && History(n, g.w)
  {
    hide Threads, Chain, Head, Tail, Bytes, Truthful, Ledger, Told;
  }

  /** The exchange of Success() lost to a concurrent failure. */
  lemma KeepsAnswerLost(g: Good) returns (k: Good)
    requires g.s.worker.SuccessClaim? && g.s.slot.None?
    ensures k.s.source == g.s.source
    ensures k.s == g.s.(worker := Ended)
  {
    hide Structure, Control, Data, History;
    LostFrame(g);
    k := Snapshot(g.s.(worker := Ended), g.w);
  }
}
