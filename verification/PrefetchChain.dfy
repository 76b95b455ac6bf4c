/** The steps that change the chain of handlers keep the invariant: accepting a read, the locked
    section of HandleResponse(), the walk over a torn-down chain and the call of the user's handler. */
module PrefetchChain {
  import opened Common
  import opened ReadStream
  import opened PrefetchProtocol
  import opened PrefetchInvariant
  import opened PrefetchSteps
  import opened PrefetchTransfer

  // ---- The file's own flags.

  ghost predicate FileStep(s: State, n: State) {
    && n == s.(alive := n.alive, abandoned := n.abandoned, enabled := n.enabled, hasOp := n.hasOp, cancelled := n.cancelled)
    && (n.alive != s.alive && Abandons(s) ==> n.abandoned) && (s.abandoned ==> n.abandoned)
    && (n.alive ==> s.alive) && (n.enabled ==> s.enabled) && (n.hasOp ==> s.hasOp)
    && (n.hasOp != s.hasOp ==> !n.enabled) && (n.cancelled != s.cancelled ==> s.created)
  }

  lemma KeepsFileStep(g: Good, n: State) returns (k: Good)
    requires FileStep(g.s, n)
    ensures k.s.source == g.s.source
    ensures k == Snapshot(n, g.w)
  {
    hide Data, Threads, Chain, Head, Ownership, Claimed, Flags, Ledger, Told;
    assert Data(n, g.w) by { FileData(g.s, g.w, n); }
    assert Control(n, g.w) by { FileControl(g.s, g.w, n); }
    k := Snapshot(n, g.w);
  }

  lemma FileData(s: State, w: Witness, n: State)
    requires Data(s, w) && FileStep(s, n)
    ensures Data(n, w)
  {
    hide Bytes, Truthful;
  }

  lemma FileControl(s: State, w: Witness, n: State)
    requires Control(s, w) && FileStep(s, n)
    ensures Control(n, w)
  {
  }

  lemma KeepsDisabling(g: Good, t: Thread) returns (k: Good)
    requires g.s.created && t in g.s.acts && g.s.acts[t].Disabling?
    ensures k.s.source == g.s.source
    ensures k.s == g.s.(enabled := false, acts := g.s.acts - {t})
  {
    hide Holds;
    var m := KeepsDisabled(g);
    k := KeepsGone(m, t);
  }

  lemma KeepsDisabled(g: Good) returns (k: Good)
    ensures k.s.source == g.s.source
    ensures k.s == g.s.(enabled := false)
  {
    hide Holds;
    k := KeepsFileStep(g, g.s.(enabled := false));
  }

  lemma KeepsGone(g: Good, t: Thread) returns (k: Good)
    requires g.s.created && t in g.s.acts && g.s.acts[t].Disabling?
    ensures k.s.source == g.s.source
    ensures k.s == g.s.(acts := g.s.acts - {t})
  {
    hide Chain, Head, Tail, Birth, Ownership, Data, History;
    var n := g.s.(acts := g.s.acts - {t});
    if n.slot.Some? && (n.done || n.paused) && g.w.post.None? && n.queue == 0 && (n.worker.Transferring? || n.worker.Ended?) {
      var x :| x in g.s.acts && IsFail(g.s.acts[x]);
      assert x != t;
    }
    k := KeepsSide(g, n, AfterSide(g.w, n.acts, t), t);
  }

  // ---- Accepting reads.

  lemma KeepsCreate(g: Good, id: Id, offset: nat, size: nat, limit: nat) returns (k: Good)
    requires Enabled(g.s, ReadCreate(id, offset, size, limit))
    ensures k.s.source == g.s.source
    ensures k.s == Apply(g.s, ReadCreate(id, offset, size, limit))
  {
    var n := Apply(g.s, ReadCreate(id, offset, size, limit));
    CreateFacts(g);
    FirstRead(n, id, offset, size, limit);
    hide Holds;
    k := Snapshot(n, Witness([id], None, None, map[id := InChain]));
  }

  lemma CreateFacts(g: Good)
    requires !g.s.created
    ensures var s := g.s;
            && s.queue == 0 && !s.done && s.worker.Transferring? && s.received == 0 && !s.cancelled && !s.broken && !s.paused
            && s.nodes == map[] && s.acts == map[] && s.req == map[] && s.log == []
  {
    hide Threads, Chain, Head, Tail, Control, Data, History;
  }

  /** The state right after the first prefetched read. */
  lemma FirstRead(n: State, id: Id, offset: nat, size: nat, limit: nat)
    requires n.created && n.hasOp && n.slot == Some(id) && n.tail == Some(id) && n.nextOffset == offset + size
    requires n.nodes == map[id := Node(offset, size, None)] && n.req == map[id := Request(offset, size)]
    requires n.stream == Stream(offset, limit, 0, Some(Buffer(size, [])), [])
    requires n.queue == 0 && !n.done && n.worker.Transferring? && n.received == 0 && n.acts == map[] && n.log == []
    requires !n.paused && n.owner == Some(id)
    ensures Holds(n, Witness([id], None, None, map[id := InChain]))
  {
    hide Truthful;
    assert Linked(n.nodes, n.req, [id], 0);
  }

  /** A sequential read joins the end of the chain. */
  ghost predicate AppendStep(s: State, w: Witness, n: State, v: Witness, id: Id, size: nat) {
    && s.alive && s.enabled && s.hasOp && !s.done && id !in s.req && s.nextOffset >= 0
    && w.c != [] && s.tail == Some(w.c[|w.c| - 1]) && w.c[|w.c| - 1] in s.nodes
    && var last := w.c[|w.c| - 1];
    && n == s.(nodes := s.nodes[last := s.nodes[last].(next := Some(id))][id := Node(s.nextOffset, size, None)],
    tail := Some(id), req := s.req[id := Request(s.nextOffset, size)], nextOffset := s.nextOffset + size)
    && v == w.(c := w.c + [id], place := w.place[id := InChain])
  }

  lemma AppendChain(s: State, w: Witness, n: State, v: Witness, id: Id, size: nat)
    requires Chain(s.nodes, s.req, w.c) && AppendStep(s, w, n, v, id, size) && NextOffset(s, w.c)
    ensures Chain(n.nodes, n.req, v.c)
  {
    var l := |w.c|;
    forall i | 0 <= i < l ensures w.c[i] in s.req && w.c[i] != id {
      assert Linked(s.nodes, s.req, w.c, i);
    }
    forall i | 0 <= i < |v.c| ensures Linked(n.nodes, n.req, v.c, i) {
      if i < l { assert Linked(s.nodes, s.req, w.c, i); }
    }
  }

  lemma AppendStructure(s: State, w: Witness, n: State, v: Witness, id: Id, size: nat)
    requires Structure(s, w) && AppendStep(s, w, n, v, id, size) && NextOffset(s, w.c)
    ensures Structure(n, v)
  {
    AppendChain(s, w, n, v, id, size);
    hide Chain, Threads;
  }

  lemma AppendData(s: State, w: Witness, n: State, v: Witness, id: Id, size: nat)
    requires Data(s, w) && AppendStep(s, w, n, v, id, size) && w.c[0] in s.req
    ensures Data(n, v)
  {
    hide Bytes, Truthful;
  }

  /** A new request enters the ledger as waiting. */
  lemma LedgerAdd(nodes: map<Id, Node>, more: map<Id, Node>, acts: Acts, req: map<Id, Request>, log: seq<(Id, Outcome)>,
                  holder: Activity, place: map<Id, Place>, id: Id, q: Request)
    requires Ledger(nodes, acts, req, log, holder, place) && id !in req && more.Keys == nodes.Keys + {id}
    requires holder.Advancing? ==> holder.h in nodes
    ensures Ledger(more, acts, req[id := q], log, holder, place[id := InChain])
  {
    var p := place[id := InChain];
    forall h | h in p ensures Placed(more, acts, log, h, p[h]) {
      if h != id { assert Placed(nodes, acts, log, h, place[h]); }
    }
    forall h | h in more
      ensures h in p && (if holder.Advancing? && holder.h == h then p[h].InLog? else p[h].InChain?)
    {
      if h != id { assert h in nodes; }
    }
  }

  lemma ToldAdd(content: Octets, end: nat, acts: Acts, req: map<Id, Request>, log: seq<(Id, Outcome)>, id: Id, q: Request)
    requires Told(content, end, acts, req, log) && id !in req
    ensures Told(content, end, acts, req[id := q], log)
  {
    hide Truthful, TruthfulOutcome;
  }

  lemma AppendHistory(s: State, w: Witness, n: State, v: Witness, id: Id, size: nat)
    requires Threads(s.acts, w.tok, w.post) && Head(s.acts, s.slot, w.c, w.tok) && History(s, w)
    requires AppendStep(s, w, n, v, id, size) && w.c[0] in s.nodes
    ensures History(n, v)
  {
    hide Ledger, Told;
    LedgerAdd(s.nodes, n.nodes, s.acts, s.req, s.log, At(s.acts, w.tok), w.place, id, Request(s.nextOffset, size));
    ToldAdd(s.source.bytes, End(s), s.acts, s.req, s.log, id, Request(s.nextOffset, size));
  }

  lemma AppendFacts(g: Good)
    requires g.s.alive && g.s.enabled && g.s.tail.Some?
    ensures g.w.c != [] && g.s.tail == Some(g.w.c[|g.w.c| - 1])
  {
    hide Chain, Data, Control, History;
  }

  lemma AppendStepHolds(g: Good, id: Id, offset: nat, size: nat, v: Witness)
    requires Enabled(g.s, ReadAppend(id, offset, size))
    requires v == g.w.(c := g.w.c + [id], place := g.w.place[id := InChain])
    ensures AppendStep(g.s, g.w, Apply(g.s, ReadAppend(id, offset, size)), v, id, size)
    ensures g.w.c[0] in g.s.req && g.w.c[0] in g.s.nodes
  {
    AppendFacts(g);
    HeadRequested(g.s, g.w);
    hide Holds;
  }

  lemma KeepsAppend(g: Good, id: Id, offset: nat, size: nat) returns (k: Good)
    requires Enabled(g.s, ReadAppend(id, offset, size))
    ensures k.s.source == g.s.source
    ensures k.s == Apply(g.s, ReadAppend(id, offset, size))
  {
    hide Apply, AppendStep, Enabled, Threads, Chain, Head, Tail, Birth, Ownership, Claimed, Flags, Bytes, SlotOffsets, HolderOffsets,
      NextOffset, Vacant, History;
    var n := Apply(g.s, ReadAppend(id, offset, size));
    var v := g.w.(c := g.w.c + [id], place := g.w.place[id := InChain]);
    AppendStepHolds(g, id, offset, size, v);
    AppendStructure(g.s, g.w, n, v, id, size);
    AppendData(g.s, g.w, n, v, id, size);
    AppendHistory(g.s, g.w, n, v, id, size);
    AppendControl(g.s, g.w, n, v, id, size);
    k := Snapshot(n, v);
  }

  lemma AppendControl(s: State, w: Witness, n: State, v: Witness, id: Id, size: nat)
    requires Control(s, w) && AppendStep(s, w, n, v, id, size)
    ensures Control(n, v) && n.source == s.source
  {
  }

  /** A sequential read finds the chain empty and goes on to continue the operation itself. */
  ghost predicate StartStep(s: State, w: Witness, n: State, v: Witness, id: Id, size: nat, u: Thread) {
    && s.alive && s.enabled && s.hasOp && s.created && !s.done && id !in s.req && s.nextOffset >= 0 && u !in s.acts
    && w.c == [] && w.tok.None? && w.post.None? && s.slot.None? && s.queue == 0 && !Busy(s.created, s.paused, s.worker)
    && n == s.(nodes := s.nodes[id := Node(s.nextOffset, size, None)], tail := Some(id),
    req := s.req[id := Request(s.nextOffset, size)], nextOffset := s.nextOffset + size,
    acts := s.acts[u := Storing(id, size)])
    && v == w.(c := [id], tok := Some(u), place := w.place[id := InChain])
  }

  lemma StartFacts(g: Good)
    requires g.s.alive && g.s.enabled && g.s.hasOp && !g.s.done && g.s.tail.None?
    ensures g.w.c == [] && g.w.tok.None? && g.w.post.None? && g.s.slot.None? && g.s.queue == 0 && g.s.created
    ensures !Busy(g.s.created, g.s.paused, g.s.worker)
  {
    hide Chain, Data, Claimed, Flags, History;
  }

  lemma StartStructure(s: State, w: Witness, n: State, v: Witness, id: Id, size: nat, u: Thread)
    requires Structure(s, w) && StartStep(s, w, n, v, id, size, u)
    ensures Structure(n, v)
  {
    assert Linked(n.nodes, n.req, v.c, 0);
  }

  lemma StartControl(s: State, w: Witness, n: State, v: Witness, id: Id, size: nat, u: Thread)
    requires Control(s, w) && StartStep(s, w, n, v, id, size, u)
    ensures Control(n, v) && n.source == s.source
  {
  }

  lemma StartData(s: State, w: Witness, n: State, v: Witness, id: Id, size: nat, u: Thread)
    requires Data(s, w) && StartStep(s, w, n, v, id, size, u)
    ensures Data(n, v)
  {
    hide Bytes, Truthful;
  }

  lemma StartHistory(s: State, w: Witness, n: State, v: Witness, id: Id, size: nat, u: Thread)
    requires Threads(s.acts, w.tok, w.post) && History(s, w) && StartStep(s, w, n, v, id, size, u)
    ensures History(n, v)
  {
    hide Ledger, Told;
    var q := Request(s.nextOffset, size);
    LedgerAdd(s.nodes, n.nodes, s.acts, s.req, s.log, At(s.acts, w.tok), w.place, id, q);
    ToldAdd(s.source.bytes, End(s), s.acts, s.req, s.log, id, q);
    LedgerFrame(n.nodes, s.acts, n.acts, n.req, s.log, At(s.acts, w.tok), At(n.acts, v.tok), v.place, u);
    ToldFrame(s.source.bytes, End(s), s.acts, n.acts, n.req, s.log, u);
  }

  lemma StartStepHolds(g: Good, id: Id, offset: nat, size: nat, u: Thread, v: Witness)
    requires Enabled(g.s, ReadStart(id, offset, size, u))
    requires v == g.w.(c := [id], tok := Some(u), place := g.w.place[id := InChain])
    ensures StartStep(g.s, g.w, Apply(g.s, ReadStart(id, offset, size, u)), v, id, size, u)
  {
    StartFacts(g);
    hide Holds;
  }

  lemma KeepsStart(g: Good, id: Id, offset: nat, size: nat, u: Thread) returns (k: Good)
    requires Enabled(g.s, ReadStart(id, offset, size, u))
    ensures k.s.source == g.s.source
    ensures k.s == Apply(g.s, ReadStart(id, offset, size, u))
  {
    hide Apply, StartStep, Enabled, Threads, Chain, Head, Tail, Birth, Ownership, Claimed, Flags, Data, History;
    var n := Apply(g.s, ReadStart(id, offset, size, u));
    var v := g.w.(c := [id], tok := Some(u), place := g.w.place[id := InChain]);
    StartStepHolds(g, id, offset, size, u, v);
    StartStructure(g.s, g.w, n, v, id, size, u);
    StartControl(g.s, g.w, n, v, id, size, u);
    StartData(g.s, g.w, n, v, id, size, u);
    StartHistory(g.s, g.w, n, v, id, size, u);
    k := Snapshot(n, v);
  }

  // ---- HandleResponse().

  /** Taking the first handler off the chain. */
  lemma ChainTail(nodes: map<Id, Node>, req: map<Id, Request>, c: seq<Id>)
    requires Chain(nodes, req, c) && c != []
    ensures Chain(nodes - {c[0]}, req, c[1..])
    ensures c[0] in nodes && c[0] in req && req[c[0]] == Request(nodes[c[0]].offset, nodes[c[0]].size)
    ensures nodes[c[0]].next == if |c| > 1 then Some(c[1]) else None
    ensures |c| > 1 ==> c[1] in nodes && c[1] in req && req[c[1]].offset == req[c[0]].offset + req[c[0]].size
                        && req[c[1]].size == nodes[c[1]].size
  {
    assert Linked(nodes, req, c, 0);
    if |c| > 1 { assert Linked(nodes, req, c, 1); }
    forall i | 0 <= i < |c[1..]| ensures Linked(nodes - {c[0]}, req, c[1..], i) {
      assert Linked(nodes, req, c, i + 1);
      assert c[1..][i] == c[i + 1];
    }
    forall h ensures h in nodes - {c[0]} <==> h in c[1..] {
      if h in c && h != c[0] {
        var i :| 0 <= i < |c| && c[i] == h;
        assert c[1..][i - 1] == h;
      }
    }
  }

  ghost predicate HandleStep(s: State, w: Witness, n: State, v: Witness, t: Thread, u: Thread) {
    && t in s.acts && s.acts[t].Handling? && u !in s.acts && w.tok == Some(t) && s.slot.None? && s.created
    && w.c != [] && w.c[0] == s.acts[t].h && w.c[0] in s.nodes && w.c[0] in s.req
    && s.req[w.c[0]] == Request(s.nodes[w.c[0]].offset, s.nodes[w.c[0]].size)
    && s.nodes[w.c[0]].next == (if |w.c| > 1 then Some(w.c[1]) else None)
    && (|w.c| > 1 ==> w.c[1] in s.nodes && w.c[1] in s.req && s.req[w.c[1]].size == s.nodes[w.c[1]].size
                      && s.req[w.c[1]].offset == s.req[w.c[0]].offset + s.req[w.c[0]].size)
    && n == HandleResponse(s, t, u, w.c[0], s.acts[t].r)
    && v == Witness(w.c[1..], if |w.c| > 1 then Some(u) else None, w.post, w.place[w.c[0] := AtThread(t)])
  }

  lemma HandleThreads(s: State, w: Witness, n: State, v: Witness, t: Thread, u: Thread)
    requires Threads(s.acts, w.tok, w.post) && HandleStep(s, w, n, v, t, u)
    ensures Threads(n.acts, v.tok, v.post) && Head(n.acts, n.slot, v.c, v.tok)
  {
  }

  lemma HandleTail(s: State, w: Witness, n: State, v: Witness, t: Thread, u: Thread)
    requires Tail(s.alive, s.abandoned, s.enabled, s.tail, w.c, At(s.acts, w.tok)) && Birth(s) && HandleStep(s, w, n, v, t, u)
    ensures Tail(n.alive, n.abandoned, n.enabled, n.tail, v.c, At(n.acts, v.tok)) && Birth(n) && n.source == s.source
  {
    assert |w.c| > 1 ==> w.c[1..][|w.c| - 2] == w.c[|w.c| - 1];
  }

  lemma HandleStructure(s: State, w: Witness, n: State, v: Witness, t: Thread, u: Thread)
    requires Structure(s, w) && HandleStep(s, w, n, v, t, u)
    ensures Structure(n, v) && n.source == s.source
  {
    hide Chain, Threads, Head, Tail, Birth;
    ChainTail(s.nodes, s.req, w.c);
    HandleThreads(s, w, n, v, t, u);
    HandleTail(s, w, n, v, t, u);
  }

  lemma HandleControl(s: State, w: Witness, n: State, v: Witness, t: Thread, u: Thread)
    requires Threads(s.acts, w.tok, w.post) && Control(s, w) && HandleStep(s, w, n, v, t, u)
    ensures Control(n, v)
  {
  }

  lemma HandleData(s: State, w: Witness, n: State, v: Witness, t: Thread, u: Thread)
    requires Threads(s.acts, w.tok, w.post) && Data(s, w) && HandleStep(s, w, n, v, t, u)
    ensures Data(n, v)
  {
    hide Bytes;
    assert |w.c| > 1 ==> v.c[0] == w.c[1] && v.c[|v.c| - 1] == w.c[|w.c| - 1];
  }

  /** The response is now in thread `t`'s hands. */
  lemma LedgerHandle(s: State, w: Witness, n: State, v: Witness, t: Thread, u: Thread)
    requires Ledger(s.nodes, s.acts, s.req, s.log, At(s.acts, w.tok), w.place) && HandleStep(s, w, n, v, t, u)
    ensures Ledger(n.nodes, n.acts, n.req, n.log, At(n.acts, v.tok), v.place)
  {
    LedgerAnswer(s.nodes, s.acts, n.acts, s.req, s.log, At(s.acts, w.tok), At(n.acts, v.tok), w.place, w.c[0], t, u);
  }

  lemma LedgerAnswer(nodes: map<Id, Node>, a: Acts, b: Acts, req: map<Id, Request>, log: seq<(Id, Outcome)>,
                     x: Activity, y: Activity, place: map<Id, Place>, h: Id, t: Thread, u: Thread)
    requires Ledger(nodes, a, req, log, x, place) && (x.Advancing? || y.Advancing? ==> x == y && x.h != h)
    requires h in nodes && t in a && !a[t].Replying? && u !in a && t in b && b[t].Replying? && b[t].h == h
    requires forall z | z != t && z != u :: (z in a <==> z in b) && (z in a ==> a[z] == b[z])
    requires u in b ==> !b[u].Replying?
    ensures Ledger(nodes - {h}, b, req, log, y, place[h := AtThread(t)])
  {
    var p := place[h := AtThread(t)];
    forall i | i in p ensures Placed(nodes - {h}, b, log, i, p[i]) {
      assert Placed(nodes, a, log, i, place[i]);
    }
  }

  lemma ToldHandle(s: State, w: Witness, n: State, v: Witness, t: Thread, u: Thread)
    requires Told(s.source.bytes, End(s), s.acts, s.req, s.log) && HandleStep(s, w, n, v, t, u)
    requires HolderOffsets(s, w.c, At(s.acts, w.tok))
    ensures Told(n.source.bytes, End(n), n.acts, n.req, n.log)
  {
    hide Truthful, TruthfulOutcome;
  }

  lemma HandleFacts(g: Good, t: Thread)
    requires t in g.s.acts && g.s.acts[t].Handling?
    ensures g.w.tok == Some(t) && g.s.slot.None? && g.s.created && g.w.c != [] && g.w.c[0] == g.s.acts[t].h
  {
    hide Chain, Data, Control, History;
  }

  lemma HandleStepHolds(g: Good, t: Thread, u: Thread, n: State, v: Witness)
    requires t in g.s.acts && g.s.acts[t].Handling? && u !in g.s.acts && Dereferences(g.s, g.s.acts[t])
    requires n == HandleResponse(g.s, t, u, g.s.acts[t].h, g.s.acts[t].r)
    requires g.w.c != []
    requires v == Witness(g.w.c[1..], if |g.w.c| > 1 then Some(u) else None, g.w.post, g.w.place[g.w.c[0] := AtThread(t)])
    ensures HandleStep(g.s, g.w, n, v, t, u)
  {
    hide HandleResponse, Threads, Chain, Head, Tail, Birth, Control, Data, History;
    HandleFacts(g, t);
    ChainTail(g.s.nodes, g.s.req, g.w.c);
  }

  lemma KeepsHandle(g: Good, t: Thread, u: Thread) returns (k: Good)
    requires t in g.s.acts && g.s.acts[t].Handling? && u !in g.s.acts && Dereferences(g.s, g.s.acts[t])
    ensures k.s.source == g.s.source
    ensures k.s == HandleResponse(g.s, t, u, g.s.acts[t].h, g.s.acts[t].r)
  {
    hide HandleResponse, Threads, Chain, Head, Tail, Birth, Ownership, Claimed, Flags, Bytes, SlotOffsets, HolderOffsets, NextOffset,
      Vacant, Ledger, Told, HandleStep;
    HandleFacts(g, t);
    var n := HandleResponse(g.s, t, u, g.s.acts[t].h, g.s.acts[t].r);
    var v := Witness(g.w.c[1..], if |g.w.c| > 1 then Some(u) else None, g.w.post, g.w.place[g.w.c[0] := AtThread(t)]);
    HandleStepHolds(g, t, u, n, v);
    HandleStructure(g.s, g.w, n, v, t, u);
    HandleControl(g.s, g.w, n, v, t, u);
    HandleData(g.s, g.w, n, v, t, u);
    LedgerHandle(g.s, g.w, n, v, t, u);
    ToldHandle(g.s, g.w, n, v, t, u);
    k := Snapshot(n, v);
  }

  // ---- The walk over a torn-down chain.

  lemma WalkFacts(g: Good, t: Thread)
    requires t in g.s.acts && Walking(g.s.acts[t])
    ensures g.w.tok == Some(t) && g.s.slot.None? && g.s.created && g.w.c != [] && g.w.c[0] == g.s.acts[t].h
  {
    hide Chain, Data, Control, History;
  }

  /** Telling one user's handler moves its read into the log. */
  lemma LedgerTell(nodes: map<Id, Node>, a: Acts, b: Acts, req: map<Id, Request>, log: seq<(Id, Outcome)>,
                   x: Activity, y: Activity, place: map<Id, Place>, h: Id, o: Outcome, t: Thread)
    requires Ledger(nodes, a, req, log, x, place) && SameBut(a, b, t) && t in a && (t in b ==> !b[t].Replying?)
    requires || (a[t].Replying? && a[t].h == h && h !in nodes && x == y)
             || (h in nodes && !a[t].Replying? && !x.Advancing? && y.Advancing? && y.h == h)
    requires x.Advancing? ==> x.h in nodes
    ensures Ledger(nodes, b, req, log + [(h, o)], y, place[h := InLog(|log|)])
  {
    var p := place[h := InLog(|log|)];
    forall i | i in p ensures Placed(nodes, b, log + [(h, o)], i, p[i]) {
      assert i in place;
      assert Placed(nodes, a, log, i, place[i]);
    }
  }

  lemma ToldTell(content: Octets, end: nat, a: Acts, b: Acts, req: map<Id, Request>, log: seq<(Id, Outcome)>, h: Id, o: Outcome, t: Thread)
    requires Told(content, end, a, req, log) && SameBut(a, b, t) && (t in b ==> !b[t].Replying?)
    requires h in req && TruthfulOutcome(content, end, req[h], o)
    ensures Told(content, end, b, req, log + [(h, o)])
  {
    hide Truthful, TruthfulOutcome;
  }

  ghost predicate TellStep(s: State, w: Witness, n: State, v: Witness, t: Thread, h: Id, o: Outcome) {
    && t in s.acts && s.created && h in s.req
    && n == s.(acts := n.acts, log := s.log + [(h, o)]) && SameBut(s.acts, n.acts, t)
    && v == w.(place := w.place[h := InLog(|s.log|)])
    && if s.acts[t].Replying? then s.acts[t].h == h && t !in n.acts && h !in s.nodes
       else
         && (s.acts[t].Resubmitting? || s.acts[t].Rereading?) && s.acts[t].h == h && w.tok == Some(t) && h in s.nodes
         && n.acts == s.acts[t := Advancing(h, s.acts[t].r)]
  }

  lemma TellStructure(s: State, w: Witness, n: State, v: Witness, t: Thread, h: Id, o: Outcome)
    requires Structure(s, w) && TellStep(s, w, n, v, t, h, o)
    ensures Structure(n, v)
  {
    hide Chain;
  }

  lemma TellControl(s: State, w: Witness, n: State, v: Witness, t: Thread, h: Id, o: Outcome)
    requires Threads(s.acts, w.tok, w.post) && Control(s, w) && TellStep(s, w, n, v, t, h, o)
    ensures Control(n, v)
  {
    if exists x :: x in s.acts && IsFail(s.acts[x]) {
      var x :| x in s.acts && IsFail(s.acts[x]);
      assert x in n.acts && IsFail(n.acts[x]);
    }
  }

  lemma TellData(s: State, w: Witness, n: State, v: Witness, t: Thread, h: Id, o: Outcome)
    requires Threads(s.acts, w.tok, w.post) && Data(s, w) && TellStep(s, w, n, v, t, h, o)
    ensures Data(n, v)
  {
    hide Bytes, Truthful;
  }

  lemma TellHistory(s: State, w: Witness, n: State, v: Witness, t: Thread, h: Id, o: Outcome)
    requires Threads(s.acts, w.tok, w.post) && History(s, w) && TellStep(s, w, n, v, t, h, o)
    requires TruthfulOutcome(s.source.bytes, End(s), s.req[h], o)
    requires At(s.acts, w.tok).Advancing? ==> At(s.acts, w.tok).h in s.nodes
    ensures History(n, v)
  {
    hide Ledger, Told, TruthfulOutcome;
    LedgerTell(s.nodes, s.acts, n.acts, s.req, s.log, At(s.acts, w.tok), At(n.acts, v.tok), w.place, h, o, t);
    ToldTell(s.source.bytes, End(s), s.acts, n.acts, s.req, s.log, h, o, t);
  }

  lemma KeepsTell(g: Good, n: State, t: Thread, h: Id, o: Outcome) returns (k: Good)
    requires TellStep(g.s, g.w, n, g.w.(place := g.w.place[h := InLog(|g.s.log|)]), t, h, o)
    requires TruthfulOutcome(g.s.source.bytes, End(g.s), g.s.req[h], o)
    ensures k.s.source == g.s.source
    ensures k.s == n
  {
    var v := g.w.(place := g.w.place[h := InLog(|g.s.log|)]);
    assert At(g.s.acts, g.w.tok).Advancing? ==> At(g.s.acts, g.w.tok).h in g.s.nodes by { AdvancingLive(g); }
    hide Threads, Chain, Head, Tail, Birth, Ownership, Claimed, Flags, Data, History, TellStep, TruthfulOutcome;
    TellStructure(g.s, g.w, n, v, t, h, o);
    TellControl(g.s, g.w, n, v, t, h, o);
    TellData(g.s, g.w, n, v, t, h, o);
    TellHistory(g.s, g.w, n, v, t, h, o);
    k := Snapshot(n, v);
  }

  lemma AdvancingLive(g: Good)
    ensures IsToken(At(g.s.acts, g.w.tok)) ==> At(g.s.acts, g.w.tok).h in g.s.nodes && At(g.s.acts, g.w.tok).h in g.s.req
  {
    if g.w.c != [] { HeadRequested(g.s, g.w); }
    hide Chain, Tail, Birth, Control, Data, History;
  }

  /** The walker finds no file and tells the reason of the teardown. */
  lemma KeepsLookGone(g: Good, t: Thread) returns (k: Good)
    requires t in g.s.acts && g.s.acts[t].Resubmitting? && !g.s.alive
    ensures k.s.source == g.s.source
    ensures k.s == Look(g.s, t, g.s.acts[t].h, g.s.acts[t].r)
  {
    hide Structure, Control, Data, History;
    WalkFacts(g, t);
    AdvancingLive(g);
    var a := g.s.acts[t];
    k := KeepsTell(g, Look(g.s, t, a.h, a.r), t, a.h, if a.r.Ok? then Hollow else Refused);
  }

  /** The walker finds the file. */
  ghost predicate FoundStep(s: State, w: Witness, n: State, t: Thread) {
    && t in s.acts && s.acts[t].Resubmitting? && w.tok == Some(t) && s.slot.None? && s.created && s.alive
    && n == s.(acts := s.acts[t := Rereading(s.acts[t].h, s.acts[t].r)])
  }

  lemma FoundStructure(s: State, w: Witness, n: State, t: Thread)
    requires Structure(s, w) && FoundStep(s, w, n, t)
    ensures Structure(n, w) && n.source == s.source
  {
    hide Chain;
  }

  lemma FoundControl(s: State, w: Witness, n: State, t: Thread)
    requires Threads(s.acts, w.tok, w.post) && Control(s, w) && FoundStep(s, w, n, t)
    ensures Control(n, w)
  {
  }

  lemma FoundData(s: State, w: Witness, n: State, t: Thread)
    requires Threads(s.acts, w.tok, w.post) && Data(s, w) && FoundStep(s, w, n, t)
    ensures Data(n, w)
  {
    hide Bytes, Truthful;
  }

  lemma FoundHistory(s: State, w: Witness, n: State, t: Thread)
    requires History(s, w) && FoundStep(s, w, n, t)
    ensures History(n, w)
  {
    hide Ledger, Told;
    LedgerFrame(s.nodes, s.acts, n.acts, s.req, s.log, At(s.acts, w.tok), At(n.acts, w.tok), w.place, t);
    ToldFrame(s.source.bytes, End(s), s.acts, n.acts, s.req, s.log, t);
  }

  lemma KeepsLookFound(g: Good, t: Thread) returns (k: Good)
    requires t in g.s.acts && g.s.acts[t].Resubmitting? && g.s.alive
    ensures k.s.source == g.s.source
    ensures k.s == Look(g.s, t, g.s.acts[t].h, g.s.acts[t].r)
  {
    hide Threads, Chain, Head, Tail, Birth, Ownership, Claimed, Flags, Data, History, FoundStep;
    var n := g.s.(acts := g.s.acts[t := Rereading(g.s.acts[t].h, g.s.acts[t].r)]);
    assert FoundStep(g.s, g.w, n, t) by { FoundHolds(g, n, t); }
    FoundStructure(g.s, g.w, n, t);
    FoundControl(g.s, g.w, n, t);
    FoundData(g.s, g.w, n, t);
    FoundHistory(g.s, g.w, n, t);
    k := Snapshot(n, g.w);
  }

  lemma FoundHolds(g: Good, n: State, t: Thread)
    requires t in g.s.acts && g.s.acts[t].Resubmitting? && g.s.alive
    requires n == g.s.(acts := g.s.acts[t := Rereading(g.s.acts[t].h, g.s.acts[t].r)])
    ensures FoundStep(g.s, g.w, n, t)
  {
    hide Holds;
    WalkFacts(g, t);
  }

  /** The file reads directly, or refuses. */
  lemma KeepsReread(g: Good, t: Thread, accepted: bool) returns (k: Good)
    requires t in g.s.acts && g.s.acts[t].Rereading?
    ensures k.s.source == g.s.source
    ensures k.s == Reread(g.s, t, accepted, g.s.acts[t].h, g.s.acts[t].r)
  {
    hide Structure, Control, Data, History;
    WalkFacts(g, t);
    AdvancingLive(g);
    var a := g.s.acts[t];
    k := KeepsTell(g, Reread(g.s, t, accepted, a.h, a.r), t, a.h, if accepted then Resubmitted else Refused);
  }

  lemma ReplyFacts(g: Good, t: Thread)
    requires t in g.s.acts && g.s.acts[t].Replying?
    ensures g.s.created && g.s.acts[t].h in g.s.req && g.s.acts[t].h !in g.s.nodes
    ensures Truthful(g.s.source.bytes, End(g.s), g.s.req[g.s.acts[t].h], g.s.acts[t].r)
  {
    hide Threads, Chain, Head, Tail, Control, Data, Truthful, TruthfulOutcome;
  }

  lemma KeepsReply(g: Good, t: Thread) returns (k: Good)
    requires t in g.s.acts && g.s.acts[t].Replying?
    ensures k.s.source == g.s.source
    ensures var a := g.s.acts[t]; k.s == g.s.(log := g.s.log + [(a.h, Answer(a.r))], acts := g.s.acts - {t})
  {
    hide Structure, Control, Data, History;
    ReplyFacts(g, t);
    var a := g.s.acts[t];
    AnswerTruthful(g.s.source.bytes, End(g.s), g.s.req[a.h], a.r);
    hide Truthful, TruthfulOutcome, Answer;
    k := KeepsTell(g, g.s.(log := g.s.log + [(a.h, Answer(a.r))], acts := g.s.acts - {t}), t, a.h, Answer(a.r));
  }

  lemma AnswerTruthful(content: Octets, end: nat, q: Request, r: Response)
    requires Truthful(content, end, q, r)
    ensures TruthfulOutcome(content, end, q, Answer(r))
  {
    assert r.Ok? ==> Ok(r.offset, r.data, true) == r;
  }

  /** The walker frees the node it has handed over and moves on. */
  ghost predicate AdvanceStep(s: State, w: Witness, n: State, v: Witness, t: Thread) {
    && t in s.acts && w.tok == Some(t) && s.slot.None? && s.created
    && w.c != [] && s.acts[t].Advancing? && s.acts[t].h == w.c[0] && w.c[0] in s.nodes
    && s.nodes[w.c[0]].next == (if |w.c| > 1 then Some(w.c[1]) else None)
    && n == Advance(s, t, w.c[0], s.acts[t].r)
    && v == w.(c := w.c[1..], tok := if |w.c| > 1 then Some(t) else None)
  }

  lemma AdvanceStructure(s: State, w: Witness, n: State, v: Witness, t: Thread)
    requires Structure(s, w) && AdvanceStep(s, w, n, v, t)
    ensures Structure(n, v) && n.source == s.source
  {
    hide Chain;
    ChainTail(s.nodes, s.req, w.c);
  }

  lemma AdvanceControl(s: State, w: Witness, n: State, v: Witness, t: Thread)
    requires Threads(s.acts, w.tok, w.post) && Control(s, w) && AdvanceStep(s, w, n, v, t)
    ensures Control(n, v)
  {
  }

  lemma AdvanceData(s: State, w: Witness, n: State, v: Witness, t: Thread)
    requires Threads(s.acts, w.tok, w.post) && Tail(s.alive, s.abandoned, s.enabled, s.tail, w.c, At(s.acts, w.tok))
    requires Data(s, w) && AdvanceStep(s, w, n, v, t)
    ensures Data(n, v)
  {
    hide Bytes, Truthful;
  }

  lemma AdvanceHistory(s: State, w: Witness, n: State, v: Witness, t: Thread)
    requires Threads(s.acts, w.tok, w.post) && History(s, w) && AdvanceStep(s, w, n, v, t)
    ensures History(n, v)
  {
    ToldFrame(s.source.bytes, End(s), s.acts, n.acts, s.req, s.log, t);
    hide Told;
    LedgerFree(s.nodes, s.acts, n.acts, s.req, s.log, At(s.acts, w.tok), At(n.acts, v.tok), w.place, w.c[0], t);
  }

  lemma LedgerFree(nodes: map<Id, Node>, a: Acts, b: Acts, req: map<Id, Request>, log: seq<(Id, Outcome)>,
                   x: Activity, y: Activity, place: map<Id, Place>, h: Id, t: Thread)
    requires Ledger(nodes, a, req, log, x, place) && x.Advancing? && x.h == h && h in nodes && !y.Advancing?
    requires SameBut(a, b, t) && (t in a ==> !a[t].Replying?) && (t in b ==> !b[t].Replying?)
    ensures Ledger(nodes - {h}, b, req, log, y, place)
  {
    forall i | i in place ensures Placed(nodes - {h}, b, log, i, place[i]) {
      assert Placed(nodes, a, log, i, place[i]);
    }
  }

  lemma KeepsAdvance(g: Good, t: Thread) returns (k: Good)
    requires t in g.s.acts && g.s.acts[t].Advancing? && g.s.acts[t].h in g.s.nodes
    ensures k.s.source == g.s.source
    ensures k.s == Advance(g.s, t, g.s.acts[t].h, g.s.acts[t].r)
  {
    hide Threads, Chain, Head, Tail, Birth, Ownership, Claimed, Flags, Data, History, Advance;
    WalkFacts(g, t);
    ChainTail(g.s.nodes, g.s.req, g.w.c);
    var n := Advance(g.s, t, g.s.acts[t].h, g.s.acts[t].r);
    var v := g.w.(c := g.w.c[1..], tok := if |g.w.c| > 1 then Some(t) else None);
    AdvanceStructure(g.s, g.w, n, v, t);
    AdvanceControl(g.s, g.w, n, v, t);
    AdvanceData(g.s, g.w, n, v, t);
    AdvanceHistory(g.s, g.w, n, v, t);
    k := Snapshot(n, v);
  }
}
