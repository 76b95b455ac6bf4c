/** Closing a file while its prefetch transfer is paused.

    CancelPrefetch decides under the prefetch mutex that the operation has to be woken up, and only after
    unlocking calls Continue() with a handler of its own, which is a plain store into the slot.  Between
    the two anything may happen.  Here is what every step keeps from then on, when no read was exposed. */
module PrefetchCancel {
  import opened Common
  import opened ReadStream
  import opened PrefetchProtocol
  import opened PrefetchInvariant
  import opened PrefetchSteps
  import opened PrefetchTransfer
  import opened PrefetchChain
  import opened PrefetchLost

  /** The locked section: the operation is cancelled and forgotten, prefetching is off, and thread `u` is
      about to continue the operation with the cancellation handler `x` and its one-byte buffer. */
  function Lock(s: State, x: Id, u: Thread): State {
    s.(cancelled := true, enabled := false, hasOp := false, acts := s.acts[u := Storing(x, 1)],
    nodes := s.nodes[x := Node(Position(s.stream), 1, None)], req := s.req[x := Request(Position(s.stream), 1)])
  }

  /** CancelPrefetch up to its unlock. */
  function AfterCancel(s: State, x: Id, u: Thread): State {
    if Wakes(s) then Lock(s, x, u) else Apply(s, Cancel)
  }

  /** There is always a thread outside the protocol. */
  lemma Absent(acts: Acts) returns (t: Thread)
    ensures t !in acts && acts - {t} == acts
  {
    t := Above(acts.Keys);
  }

  lemma {:induction false} Above(ts: set<Thread>) returns (t: Thread)
    ensures forall u | u in ts :: u < t
  {
    if ts == {} {
      t := 0;
    } else {
      var u :| u in ts;
      var v := Above(ts - {u});
      t := if u < v then v else u + 1;
      forall w | w in ts ensures w < t {
        if w != u { assert w in ts - {u}; }
      }
    }
  }

  // ---- What the protocol keeps after waking a parked operation.

  /** The cancellation handler, the chain that is being torn down, the threads that hold its head and the
      cancellation handler, and where each accepted read stands. */
  datatype Wake = Wake(x: Id, d: seq<Id>, tok: Option<Thread>, xtok: Option<Thread>, place: map<Id, Place>)

  /** The transfer stays paused for good, or has ended: a cancelled operation is only failed. */
  predicate Parked(s: State) {
    && s.created && !s.enabled && !s.hasOp && s.cancelled && (s.paused || s.broken) && s.worker.Transferring?
    && (s.done ==> s.failed)
  }

  ghost predicate Crew(acts: Acts, failed: bool, w: Wake) {
    && (forall t | t in acts ::
          && (IsToken(acts[t]) ==> w.tok == Some(t) || w.xtok == Some(t)) && !acts[t].Delivering?
          && (acts[t].FailDone? || acts[t].FailClaim? || acts[t].SawDone? || acts[t].Stranding? ==> failed))
    && (w.d != [] <==> w.tok.Some?)
    && (w.tok.Some? ==> w.tok.value in acts && IsToken(acts[w.tok.value])
                        && !acts[w.tok.value].Storing? && !acts[w.tok.value].Building? && acts[w.tok.value].h == w.d[0])
    && (w.xtok.Some? ==> w.xtok.value in acts && IsToken(acts[w.xtok.value]) && acts[w.xtok.value].h == w.x
                         && (acts[w.xtok.value].Storing? || acts[w.xtok.value] == Handling(w.x, Error)))
    && w.x !in w.d
  }

  /** Somebody is on the way to the slot. */
  ghost predicate Coming(acts: Acts, queue: nat) {
    queue > 0 || exists t :: t in acts && (IsPost(acts[t]) || IsFail(acts[t]))
  }

  /** Only the cancellation handler can be in the slot, and it is awaited there. */
  ghost predicate Slotted(live: bool, slot: Option<Id>, acts: Acts, queue: nat, w: Wake) {
    && (slot.Some? ==> slot.value == w.x && w.xtok.None? && Coming(acts, queue))
    && (live <==> slot.Some? || w.xtok.Some?)
  }

  ghost predicate Doomed(nodes: map<Id, Node>, req: map<Id, Request>, x: Id, d: seq<Id>) {
    Chain(nodes - {x}, req, d) && (x in nodes ==> nodes[x].next.None?) && x in req
  }

  ghost predicate Records(content: Octets, end: nat, nodes: map<Id, Node>, acts: Acts, req: map<Id, Request>,
                          log: seq<(Id, Outcome)>, w: Wake)
  {
    && Ledger(nodes, acts, req, log, At(acts, w.tok), w.place)
    && Told(content, end, acts, req, log)
    && (At(acts, w.tok).Handling? ==> At(acts, w.tok).h in req && Truthful(content, end, req[At(acts, w.tok).h], At(acts, w.tok).r))
  }

  ghost predicate Woken(s: State, w: Wake) {
    && Parked(s) && Crew(s.acts, s.failed, w) && Slotted(w.x in s.nodes, s.slot, s.acts, s.queue, w)
    && Doomed(s.nodes, s.req, w.x, w.d) && Records(s.source.bytes, End(s), s.nodes, s.acts, s.req, s.log, w)
  }

  // ---- Steps of threads that hold nothing.

  predicate Plain(a: Activity) {
    !IsToken(a) && !a.Replying? && !a.Delivering?
  }

  predicate Fits(a: Activity, failed: bool) {
    Plain(a) && (a.FailDone? || a.FailClaim? || a.SawDone? || a.Stranding? ==> failed)
  }

  lemma CrewSide(a: Acts, b: Acts, failed: bool, failed': bool, w: Wake, t: Thread)
    requires Crew(a, failed, w) && SameBut(a, b, t) && (failed ==> failed')
    requires (t in a ==> Plain(a[t])) && (t in b ==> Fits(b[t], failed'))
    ensures Crew(b, failed', w) && At(b, w.tok) == At(a, w.tok)
  {
  }

  lemma RecordsSide(content: Octets, end: nat, nodes: map<Id, Node>, a: Acts, b: Acts, req: map<Id, Request>,
                    log: seq<(Id, Outcome)>, w: Wake, t: Thread)
    requires Records(content, end, nodes, a, req, log, w) && SameBut(a, b, t) && At(b, w.tok) == At(a, w.tok)
    requires (t in a ==> !a[t].Replying?) && (t in b ==> !b[t].Replying?)
    ensures Records(content, end, nodes, b, req, log, w)
  {
    hide Ledger, Told, Truthful;
    LedgerFrame(nodes, a, b, req, log, At(a, w.tok), At(b, w.tok), w.place, t);
    ToldFrame(content, end, a, b, req, log, t);
  }

  /** Who was coming still is, unless it was `t` alone. */
  lemma ComingSide(a: Acts, b: Acts, queue: nat, queue': nat, t: Thread)
    requires Coming(a, queue) && SameBut(a, b, t)
    requires queue' > 0 || (t in b && (IsPost(b[t]) || IsFail(b[t])))
             || (queue' >= queue && (t in a ==> !IsPost(a[t]) && !IsFail(a[t])))
    ensures Coming(b, queue')
  {
    if queue' == 0 && !(t in b && (IsPost(b[t]) || IsFail(b[t]))) {
      var x :| x in a && (IsPost(a[x]) || IsFail(a[x]));
      assert x in b;
    }
  }

  lemma WakeSide(s: State, w: Wake, t: Thread, acts: Acts, failed: bool, done: bool, queue: nat) returns (n: State)
    requires Woken(s, w) && SameBut(s.acts, acts, t) && (s.failed ==> failed) && (done ==> failed)
    requires (t in s.acts ==> Plain(s.acts[t])) && (t in acts ==> Fits(acts[t], failed))
    requires s.slot.Some? ==> queue > 0 || (t in acts && (IsPost(acts[t]) || IsFail(acts[t])))
                              || (queue >= s.queue && (t in s.acts ==> !IsPost(s.acts[t]) && !IsFail(s.acts[t])))
    ensures n == s.(acts := acts, failed := failed, done := done, queue := queue)
    ensures Woken(n, w)
  {
    hide Crew, Doomed, Records, Coming, SameBut;
    CrewSide(s.acts, acts, s.failed, failed, w, t);
    if s.slot.Some? { ComingSide(s.acts, acts, s.queue, queue, t); }
    RecordsSide(s.source.bytes, End(s), s.nodes, s.acts, acts, s.req, s.log, w, t);
    n := s.(acts := acts, failed := failed, done := done, queue := queue);
  }

  lemma WakePut(s: State, w: Wake, t: Thread, a: Activity, failed: bool, done: bool, queue: nat) returns (n: State)
    requires Woken(s, w) && (s.failed ==> failed) && (done ==> failed)
    requires (t in s.acts ==> Plain(s.acts[t])) && Fits(a, failed)
    requires s.slot.Some? ==> queue > 0 || IsPost(a) || IsFail(a)
    ensures n == s.(acts := s.acts[t := a], failed := failed, done := done, queue := queue)
    ensures Woken(n, w)
  {
    hide Woken;
    n := WakeSide(s, w, t, s.acts[t := a], failed, done, queue);
  }

  lemma WakeLeave(s: State, w: Wake, t: Thread, queue: nat) returns (n: State)
    requires Woken(s, w) && t in s.acts && Plain(s.acts[t]) && (s.slot.Some? ==> queue > 0 || s.acts[t].Disabling?) && queue >= s.queue
    ensures n == s.(acts := s.acts - {t}, queue := queue)
    ensures Woken(n, w)
  {
    assert s.done ==> s.failed by { hide Crew, Slotted, Doomed, Records; }
    hide Woken;
    n := WakeSide(s, w, t, s.acts - {t}, s.failed, s.done, queue);
  }

  // ---- The cancellation handler.

  /** The plain store finds the slot empty. */
  lemma WakeStore(s: State, w: Wake, t: Thread) returns (n: State, v: Wake)
    requires Woken(s, w) && t in s.acts && s.acts[t].Storing?
    ensures n == s.(slot := Some(s.acts[t].h), acts := s.acts[t := Installing(s.acts[t].h, s.acts[t].size)])
    ensures Woken(n, v) && v.x == w.x && s.slot.None?
  {
    hide Doomed, Records;
    assert w.xtok == Some(t) && s.acts[t].h == w.x && w.tok != Some(t);
    v := w.(xtok := None);
    var b := s.acts[t := Installing(w.x, s.acts[t].size)];
    assert IsPost(b[t]);
    RecordsRenamed(s, w, v, b, t);
    n := s.(slot := Some(w.x), acts := b);
  }

  lemma RecordsRenamed(s: State, w: Wake, v: Wake, b: Acts, t: Thread)
    requires Records(s.source.bytes, End(s), s.nodes, s.acts, s.req, s.log, w) && SameBut(s.acts, b, t)
    requires v.tok == w.tok && v.place == w.place && w.tok != Some(t)
    requires (t in s.acts ==> !s.acts[t].Replying?) && (t in b ==> !b[t].Replying?)
    ensures Records(s.source.bytes, End(s), s.nodes, b, s.req, s.log, v)
  {
    hide Ledger, Told, Truthful;
    LedgerFrame(s.nodes, s.acts, b, s.req, s.log, At(s.acts, w.tok), At(b, w.tok), w.place, t);
    ToldFrame(s.source.bytes, End(s), s.acts, b, s.req, s.log, t);
  }

  lemma InstallKeepsRange(stream: Stream, size: nat)
    ensures Install(stream, size).start == stream.start && Install(stream, size).limit == stream.limit
  {
  }

  /** Nothing is asked of the stream but where its range lies. */
  lemma WakeStream(s: State, w: Wake, stream: Stream, owner: Option<Id>) returns (n: State)
    requires Woken(s, w) && stream.start == s.stream.start && stream.limit == s.stream.limit
    ensures n == s.(stream := stream, owner := owner)
    ensures Woken(n, w)
  {
    hide Crew, Slotted, Doomed, Records;
    n := s.(stream := stream, owner := owner);
    assert End(n) == End(s);
  }

  lemma WakeInstall(s: State, w: Wake, t: Thread) returns (n: State)
    requires Woken(s, w) && t in s.acts && s.acts[t].Installing? && (s.done ==> s.failed)
    ensures n == s.(stream := Install(s.stream, s.acts[t].size), owner := Some(s.acts[t].h), acts := s.acts[t := Loading(s.acts[t].h)])
    ensures Woken(n, w)
  {
    hide Woken, Install;
    var a := s.acts[t];
    InstallKeepsRange(s.stream, a.size);
    var m := WakePut(s, w, t, Loading(a.h), s.failed, s.done, s.queue);
    n := WakeStream(m, w, Install(s.stream, a.size), Some(a.h));
  }

  /** A thread takes the cancellation handler out of the slot to fail it. */
  lemma WakeClaim(s: State, w: Wake, u: Thread, queue: nat) returns (n: State, v: Wake)
    requires Woken(s, w) && s.slot.Some? && (u in s.acts ==> Plain(s.acts[u]))
    ensures n == s.(slot := None, queue := queue, acts := s.acts[u := Handling(s.slot.value, Error)])
    ensures Woken(n, v) && v.x == w.x
  {
    hide Doomed, Records, Coming;
    assert w.tok != Some(u);
    v := w.(xtok := Some(u));
    var b := s.acts[u := Handling(w.x, Error)];
    RecordsRenamed(s, w, v, b, u);
    n := s.(slot := None, queue := queue, acts := b);
  }

  /** The cancellation handler is answered. */
  lemma WakeAnswer(s: State, w: Wake, t: Thread, u: Thread) returns (n: State, v: Wake)
    requires Woken(s, w) && t in s.acts && s.acts[t].Handling? && w.xtok == Some(t) && u !in s.acts
    requires Dereferences(s, s.acts[t])
    ensures n == HandleResponse(s, t, u, s.acts[t].h, s.acts[t].r)
    ensures Woken(n, v) && v.x == w.x
  {
    hide Records, Coming, Chain;
    v := w.(xtok := None, place := w.place[w.x := AtThread(t)]);
    n := HandleResponse(s, t, u, w.x, Error);
    AnswerParts(s, t, u, w.x);
    hide HandleResponse;
    assert n.nodes - {w.x} == s.nodes - {w.x};
    AnswerRecords(s, w, v, n.acts, t, u);
  }

  lemma AnswerParts(s: State, t: Thread, u: Thread, x: Id)
    requires t in s.acts && s.acts[t] == Handling(x, Error) && x in s.nodes && s.nodes[x].next.None? && Parked(s)
    ensures var n := HandleResponse(s, t, u, x, Error);
            && Parked(n) && n.failed == s.failed && n.nodes == s.nodes - {x} && n.acts == s.acts[t := Replying(x, Error)]
            && n.req == s.req && n.log == s.log && n.slot == s.slot && n.queue == s.queue
            && n.source == s.source && n.stream == s.stream
  {
  }

  lemma AnswerRecords(s: State, w: Wake, v: Wake, b: Acts, t: Thread, u: Thread)
    requires Records(s.source.bytes, End(s), s.nodes, s.acts, s.req, s.log, w)
    requires t in s.acts && s.acts[t] == Handling(w.x, Error) && w.tok != Some(t) && b == s.acts[t := Replying(w.x, Error)]
    requires w.x in s.nodes && w.x in s.req && u !in s.acts && (At(s.acts, w.tok).Advancing? ==> At(s.acts, w.tok).h != w.x)
    requires v.tok == w.tok && v.place == w.place[w.x := AtThread(t)]
    ensures Records(s.source.bytes, End(s), s.nodes - {w.x}, b, s.req, s.log, v)
  {
    hide Ledger;
    LedgerAnswer(s.nodes, s.acts, b, s.req, s.log, At(s.acts, w.tok), At(b, v.tok), w.place, w.x, t, u);
  }

  // ---- The chain that is being torn down.

  lemma DoomedFacts(nodes: map<Id, Node>, req: map<Id, Request>, x: Id, d: seq<Id>)
    requires Doomed(nodes, req, x, d) && d != [] && x !in d
    ensures d[0] in nodes && d[0] in req && d[0] != x && nodes[d[0]].next == if |d| > 1 then Some(d[1]) else None
    ensures |d| > 1 ==> d[1] in nodes
    ensures Doomed(nodes - {d[0]}, req, x, d[1..]) && x !in d[1..]
  {
    hide Chain;
    ChainTail(nodes - {x}, req, d);
    assert nodes - {d[0]} - {x} == nodes - {x} - {d[0]};
    assert x in d[1..] ==> x in d;
  }

  /** The threads after the response of the chain's head was processed. */
  function Torn(acts: Acts, t: Thread, u: Thread, h: Id, r: Response, next: Option<Id>): Acts {
    var a := acts[t := Replying(h, r)];
    if next.None? then a else a[u := Resubmitting(next.value, r)]
  }

  /** Without an operation the locked section of HandleResponse() always tears the chain down. */
  lemma TearParts(s: State, t: Thread, u: Thread, h: Id, r: Response)
    requires t in s.acts && s.acts[t] == Handling(h, r) && Dereferences(s, s.acts[t]) && Parked(s)
    ensures var n := HandleResponse(s, t, u, h, r);
            && Parked(n) && n.failed == s.failed && n.nodes == s.nodes - {h} && n.acts == Torn(s.acts, t, u, h, r, s.nodes[h].next)
            && n.req == s.req && n.log == s.log && n.slot == s.slot && n.queue == s.queue
            && n.source == s.source && n.stream == s.stream
  {
  }

  lemma TearCrew(acts: Acts, failed: bool, w: Wake, v: Wake, t: Thread, u: Thread, h: Id, r: Response)
    requires Crew(acts, failed, w) && t in acts && acts[t] == Handling(h, r) && w.tok == Some(t) && u !in acts && w.xtok != Some(t)
    requires v == w.(d := w.d[1..], tok := if |w.d| > 1 then Some(u) else None, place := v.place)
    ensures Crew(Torn(acts, t, u, h, r, if |w.d| > 1 then Some(w.d[1]) else None), failed, v)
  {
    assert w.x in w.d[1..] ==> w.x in w.d;
  }

  lemma TearRecords(s: State, w: Wake, v: Wake, b: Acts, t: Thread, u: Thread, h: Id, r: Response)
    requires Records(s.source.bytes, End(s), s.nodes, s.acts, s.req, s.log, w)
    requires t in s.acts && s.acts[t] == Handling(h, r) && w.tok == Some(t) && u !in s.acts && h in s.nodes
    requires b == Torn(s.acts, t, u, h, r, if |w.d| > 1 then Some(w.d[1]) else None)
    requires v.tok == (if |w.d| > 1 then Some(u) else None) && v.place == w.place[h := AtThread(t)]
    ensures Records(s.source.bytes, End(s), s.nodes - {h}, b, s.req, s.log, v)
  {
    hide Ledger, Truthful, TruthfulOutcome;
    LedgerAnswer(s.nodes, s.acts, b, s.req, s.log, At(s.acts, w.tok), At(b, v.tok), w.place, h, t, u);
  }

  lemma TearComing(acts: Acts, queue: nat, t: Thread, u: Thread, h: Id, r: Response, next: Option<Id>)
    requires Coming(acts, queue) && t in acts && acts[t].Handling? && u !in acts
    ensures Coming(Torn(acts, t, u, h, r, next), queue)
  {
    if queue == 0 {
      var z :| z in acts && (IsPost(acts[z]) || IsFail(acts[z]));
      assert z in Torn(acts, t, u, h, r, next) && Torn(acts, t, u, h, r, next)[z] == acts[z];
    }
  }

  /** What the thread that holds the head of the chain finds. */
  lemma HolderFacts(s: State, w: Wake)
    requires Woken(s, w) && w.tok.Some?
    ensures var t := w.tok.value;
            && t in s.acts && IsToken(s.acts[t]) && !s.acts[t].Storing? && w.xtok != w.tok
            && w.d != [] && w.x !in w.d && s.acts[t].h == w.d[0]
    ensures w.d[0] in s.nodes && w.d[0] in s.req && s.nodes[w.d[0]].next == if |w.d| > 1 then Some(w.d[1]) else None
    ensures |w.d| > 1 ==> w.d[1] in s.nodes
    ensures Doomed(s.nodes - {w.d[0]}, s.req, w.x, w.d[1..]) && w.x !in w.d[1..] && w.d[0] != w.x
  {
    hide Slotted, Records, Doomed;
    DoomedFacts(s.nodes, s.req, w.x, w.d);
  }

  lemma WakeTear(s: State, w: Wake, t: Thread, u: Thread) returns (n: State, v: Wake)
    requires Woken(s, w) && t in s.acts && s.acts[t].Handling? && w.tok == Some(t) && u !in s.acts && Dereferences(s, s.acts[t])
    ensures n == HandleResponse(s, t, u, s.acts[t].h, s.acts[t].r)
    ensures Woken(n, v) && v.x == w.x
  {
    hide Crew, Doomed, Records, Torn, HandleResponse, Coming;
    var h, r := s.acts[t].h, s.acts[t].r;
    HolderFacts(s, w);
    v := w.(d := w.d[1..], tok := if |w.d| > 1 then Some(u) else None, place := w.place[h := AtThread(t)]);
    TearCrew(s.acts, s.failed, w, v, t, u, h, r);
    n := HandleResponse(s, t, u, h, r);
    TearParts(s, t, u, h, r);
    TearRecords(s, w, v, n.acts, t, u, h, r);
    if s.slot.Some? { TearComing(s.acts, s.queue, t, u, h, r, s.nodes[h].next); }
  }

  // ---- Telling.

  lemma TellCrew(a: Acts, b: Acts, failed: bool, w: Wake, v: Wake, t: Thread)
    requires Crew(a, failed, w) && SameBut(a, b, t) && v == w.(place := v.place) && t in a
    requires if a[t].Replying? then t !in b
             else w.tok == Some(t) && w.xtok != Some(t) && t in b && Walking(b[t]) && b[t].h == w.d[0]
    ensures Crew(b, failed, v)
  {
  }

  /** A walker tells the handler `h` it stands at. */
  predicate Steps(a: Acts, b: Acts, t: Thread, h: Id) {
    t in a && t in b && (a[t].Resubmitting? || a[t].Rereading?) && a[t].h == h && b[t].Advancing? && b[t].h == h
  }

  lemma TellRecords(s: State, w: Wake, v: Wake, b: Acts, t: Thread, h: Id, o: Outcome)
    requires Records(s.source.bytes, End(s), s.nodes, s.acts, s.req, s.log, w) && SameBut(s.acts, b, t) && t in s.acts
    requires h in s.req && TruthfulOutcome(s.source.bytes, End(s), s.req[h], o)
    requires v == w.(place := w.place[h := InLog(|s.log|)])
    requires if s.acts[t].Replying? then s.acts[t].h == h && h !in s.nodes && t !in b && w.tok != Some(t)
             else h in s.nodes && w.tok == Some(t) && Steps(s.acts, b, t, h)
    requires At(s.acts, w.tok).Advancing? ==> At(s.acts, w.tok).h in s.nodes
    ensures Records(s.source.bytes, End(s), s.nodes, b, s.req, s.log + [(h, o)], v)
  {
    hide Ledger, Told, Truthful, TruthfulOutcome;
    LedgerTell(s.nodes, s.acts, b, s.req, s.log, At(s.acts, w.tok), At(b, v.tok), w.place, h, o, t);
    ToldTell(s.source.bytes, End(s), s.acts, b, s.req, s.log, h, o, t);
  }

  lemma TellComing(a: Acts, b: Acts, queue: nat, t: Thread)
    requires Coming(a, queue) && SameBut(a, b, t) && t in a && !IsPost(a[t]) && !IsFail(a[t])
    ensures Coming(b, queue)
  {
    hide SameBut;
    ComingSide(a, b, queue, queue, t);
  }

  /** The slot, when a thread that was not on the way to it moves. */
  lemma SlottedMove(live: bool, slot: Option<Id>, a: Acts, b: Acts, queue: nat, w: Wake, v: Wake, t: Thread)
    requires Slotted(live, slot, a, queue, w) && v.x == w.x && v.xtok == w.xtok
    requires SameBut(a, b, t) && t in a && !IsPost(a[t]) && !IsFail(a[t])
    ensures Slotted(live, slot, b, queue, v)
  {
    hide Coming, SameBut;
    if slot.Some? { TellComing(a, b, queue, t); }
  }

  /** A state is judged by these parts. */
  lemma WakeView(n: State, v: Wake)
    requires Parked(n) && Crew(n.acts, n.failed, v) && Slotted(v.x in n.nodes, n.slot, n.acts, n.queue, v)
    requires Doomed(n.nodes, n.req, v.x, v.d) && Records(n.source.bytes, End(n), n.nodes, n.acts, n.req, n.log, v)
    ensures Woken(n, v)
  {
    hide Crew, Slotted, Doomed, Records, Parked;
  }

  lemma WakeParts(s: State, w: Wake)
    requires Woken(s, w)
    ensures Parked(s) && Crew(s.acts, s.failed, w) && Slotted(w.x in s.nodes, s.slot, s.acts, s.queue, w)
    ensures Doomed(s.nodes, s.req, w.x, w.d) && Records(s.source.bytes, End(s), s.nodes, s.acts, s.req, s.log, w)
  {
    hide Crew, Slotted, Doomed, Records, Parked;
  }

  lemma WakeTell(s: State, w: Wake, t: Thread, b: Acts, h: Id, o: Outcome) returns (n: State, v: Wake)
    requires Woken(s, w) && SameBut(s.acts, b, t) && t in s.acts && h in s.req
    requires TruthfulOutcome(s.source.bytes, End(s), s.req[h], o)
    requires if s.acts[t].Replying? then s.acts[t].h == h && h !in s.nodes && t !in b
             else w.tok == Some(t) && Steps(s.acts, b, t, h)
    ensures n == s.(log := s.log + [(h, o)], acts := b)
    ensures Woken(n, v) && v.x == w.x
  {
    hide Crew, Doomed, Records, Coming, SameBut, TruthfulOutcome;
    v := w.(place := w.place[h := InLog(|s.log|)]);
    if w.tok.Some? { HolderFacts(s, w); }
    TellCrew(s.acts, b, s.failed, w, v, t);
    TellRecords(s, w, v, b, t, h, o);
    if s.slot.Some? { TellComing(s.acts, b, s.queue, t); }
    n := s.(log := s.log + [(h, o)], acts := b);
  }

  // ---- Freeing a walked node.

  lemma AdvanceCrew(acts: Acts, failed: bool, w: Wake, v: Wake, t: Thread, r: Response)
    requires Crew(acts, failed, w) && t in acts && acts[t].Advancing? && w.tok == Some(t) && w.xtok != Some(t)
    requires v == w.(d := w.d[1..], tok := if |w.d| > 1 then Some(t) else None)
    ensures Crew(if |w.d| > 1 then acts[t := Resubmitting(w.d[1], r)] else acts - {t}, failed, v)
  {
    assert w.x in w.d[1..] ==> w.x in w.d;
  }

  lemma AdvanceRecords(s: State, w: Wake, v: Wake, b: Acts, t: Thread, h: Id, r: Response)
    requires Records(s.source.bytes, End(s), s.nodes, s.acts, s.req, s.log, w)
    requires t in s.acts && s.acts[t] == Advancing(h, r) && w.tok == Some(t) && h in s.nodes && w.d != []
    requires b == if |w.d| > 1 then s.acts[t := Resubmitting(w.d[1], r)] else s.acts - {t}
    requires v == w.(d := w.d[1..], tok := if |w.d| > 1 then Some(t) else None)
    ensures Records(s.source.bytes, End(s), s.nodes - {h}, b, s.req, s.log, v)
  {
    hide Ledger, Told, Truthful;
    LedgerFree(s.nodes, s.acts, b, s.req, s.log, At(s.acts, w.tok), At(b, v.tok), w.place, h, t);
    ToldFrame(s.source.bytes, End(s), s.acts, b, s.req, s.log, t);
  }

  lemma WakeAdvance(s: State, w: Wake, t: Thread) returns (n: State, v: Wake)
    requires Woken(s, w) && t in s.acts && s.acts[t].Advancing? && w.tok == Some(t) && s.acts[t].h in s.nodes
    ensures n == Advance(s, t, s.acts[t].h, s.acts[t].r)
    ensures Woken(n, v) && v.x == w.x
  {
    hide Crew, Slotted, Doomed, Records, Woken;
    var h, r := s.acts[t].h, s.acts[t].r;
    WakeParts(s, w);
    HolderFacts(s, w);
    v := w.(d := w.d[1..], tok := if |w.d| > 1 then Some(t) else None);
    var b := if |w.d| > 1 then s.acts[t := Resubmitting(w.d[1], r)] else s.acts - {t};
    AdvanceCrew(s.acts, s.failed, w, v, t, r);
    AdvanceRecords(s, w, v, b, t, h, r);
    SlottedMove(w.x in s.nodes, s.slot, s.acts, b, s.queue, w, v, t);
    n := s.(nodes := s.nodes - {h}, acts := b);
    WakeView(n, v);
  }

  // ---- Every step.

  lemma ParkedFacts(s: State, w: Wake)
    requires Woken(s, w)
    ensures Parked(s)
  {
    hide Crew, Slotted, Doomed, Records;
  }

  /** What a thread can be doing. */
  lemma CrewFacts(s: State, w: Wake, t: Thread)
    requires Woken(s, w) && t in s.acts
    ensures !s.acts[t].Delivering? && !s.acts[t].Building?
    ensures s.acts[t].FailDone? || s.acts[t].FailClaim? || s.acts[t].SawDone? || s.acts[t].Stranding? ==> s.failed
    ensures s.acts[t].Handling? ==> w.tok == Some(t) || (w.xtok == Some(t) && s.acts[t] == Handling(w.x, Error))
    ensures Walking(s.acts[t]) ==> w.tok == Some(t)
  {
    hide Slotted, Doomed, Records;
  }

  lemma WakeLooking(s: State, w: Wake, t: Thread, choice: bool) returns (n: State)
    requires Woken(s, w) && t in s.acts && (s.acts[t].Installing? || s.acts[t].Loading? || s.acts[t].SawDone?)
    requires Dereferences(s, s.acts[t])
    ensures n == RunThread(s, t, choice, t)
    ensures Woken(n, w)
  {
    ParkedFacts(s, w);
    CrewFacts(s, w, t);
    hide Woken, Install;
    match s.acts[t]
    case Installing(h, size) => n := WakeInstall(s, w, t);
    case Loading(h) => n := WakePut(s, w, t, if s.done then SawDone(h) else Enqueueing(h), s.failed, s.done, s.queue);
    case SawDone(h) => n := WakePut(s, w, t, Stranding(h), s.failed, s.done, s.queue);
  }

  lemma WakeEnqueued(s: State, w: Wake, t: Thread) returns (n: State)
    requires Woken(s, w) && t in s.acts && s.acts[t].Enqueueing?
    ensures n == Enqueue(s, t, true)
    ensures Woken(n, w)
  {
    hide Woken;
    n := WakeLeave(s, w, t, s.queue + 1);
  }

  lemma WakeUnqueued(s: State, w: Wake, t: Thread) returns (n: State)
    requires Woken(s, w) && t in s.acts && s.acts[t].Enqueueing?
    ensures n == Enqueue(s, t, false)
    ensures Woken(n, w)
  {
    ParkedFacts(s, w);
    hide Woken;
    n := WakePut(s, w, t, FailFlag, s.failed, s.done, s.queue);
  }

  lemma WakeStrand(s: State, w: Wake, t: Thread) returns (n: State, v: Wake)
    requires Woken(s, w) && t in s.acts && s.acts[t].Stranding?
    ensures n == if s.slot.None? then Leave(s, t) else Claim(s, t, Error)
    ensures Woken(n, v) && v.x == w.x
  {
    hide Woken;
    v := w;
    if s.slot.None? { n := WakeLeave(s, w, t, s.queue); } else { n, v := WakeClaim(s, w, t, s.queue); }
  }

  lemma WakePost(s: State, w: Wake, t: Thread, choice: bool) returns (n: State, v: Wake)
    requires Woken(s, w) && t in s.acts && IsPost(s.acts[t]) && Dereferences(s, s.acts[t])
    ensures n == RunThread(s, t, choice, t)
    ensures Woken(n, v) && v.x == w.x
  {
    CrewFacts(s, w, t);
    hide Woken, Enqueue, Install, Claim, Leave;
    v := w;
    match s.acts[t]
    case Enqueueing(h) => if choice { n := WakeEnqueued(s, w, t); } else { n := WakeUnqueued(s, w, t); }
    case Stranding(h) => n, v := WakeStrand(s, w, t);
    case _ => n := WakeLooking(s, w, t, choice);
  }

  lemma WakeFailStores(s: State, w: Wake, t: Thread) returns (n: State)
    requires Woken(s, w) && t in s.acts && (s.acts[t].FailFlag? || s.acts[t].FailDone?)
    ensures n == if s.acts[t].FailFlag? then s.(failed := true, acts := s.acts[t := FailDone])
                 else s.(done := true, acts := s.acts[t := FailClaim])
    ensures Woken(n, w)
  {
    ParkedFacts(s, w);
    CrewFacts(s, w, t);
    hide Woken;
    if s.acts[t].FailFlag? {
      n := WakePut(s, w, t, FailDone, true, s.done, s.queue);
    } else {
      n := WakePut(s, w, t, FailClaim, s.failed, true, s.queue);
    }
  }

  lemma WakeDisable(s: State, w: Wake, t: Thread) returns (n: State)
    requires Woken(s, w) && t in s.acts && s.acts[t].Disabling?
    ensures n == s.(enabled := false, acts := s.acts - {t})
    ensures Woken(n, w)
  {
    ParkedFacts(s, w);
    hide Woken;
    n := WakeLeave(s, w, t, s.queue);
  }

  lemma WakeFail(s: State, w: Wake, t: Thread, choice: bool) returns (n: State, v: Wake)
    requires Woken(s, w) && t in s.acts && (IsFail(s.acts[t]) || s.acts[t].Disabling?)
    ensures n == RunThread(s, t, choice, t)
    ensures Woken(n, v) && v.x == w.x
  {
    hide Woken;
    v := w;
    match s.acts[t]
    case FailClaim => n, v := WakeFailClaim(s, w, t);
    case Disabling => n := WakeDisable(s, w, t);
    case _ => n := WakeFailStores(s, w, t);
  }

  lemma WakeFailClaim(s: State, w: Wake, t: Thread) returns (n: State, v: Wake)
    requires Woken(s, w) && t in s.acts && s.acts[t].FailClaim?
    ensures n == if s.slot.None? then s.(acts := s.acts[t := Disabling]) else Claim(s, t, Error)
    ensures Woken(n, v) && v.x == w.x
  {
    ParkedFacts(s, w);
    hide Woken;
    v := w;
    if s.slot.None? { n := WakePut(s, w, t, Disabling, s.failed, s.done, s.queue); } else { n, v := WakeClaim(s, w, t, s.queue); }
  }

  lemma ReplyHeld(s: State, w: Wake, t: Thread)
    requires Woken(s, w) && t in s.acts && s.acts[t].Replying?
    ensures s.acts[t].h in s.req && s.acts[t].h !in s.nodes
    ensures Truthful(s.source.bytes, End(s), s.req[s.acts[t].h], s.acts[t].r)
  {
    hide Crew, Slotted, Doomed, Truthful, TruthfulOutcome;
  }

  lemma WakeReply(s: State, w: Wake, t: Thread, choice: bool) returns (n: State, v: Wake)
    requires Woken(s, w) && t in s.acts && s.acts[t].Replying?
    ensures n == RunThread(s, t, choice, t)
    ensures Woken(n, v) && v.x == w.x
  {
    ReplyHeld(s, w, t);
    hide Woken;
    var h, r := s.acts[t].h, s.acts[t].r;
    AnswerTrue(s.source.bytes, End(s), s.req[h], r);
    hide Truthful, TruthfulOutcome, Answer;
    n, v := WakeTell(s, w, t, s.acts - {t}, h, Answer(r));
  }

  lemma AnswerTrue(content: Octets, end: nat, q: Request, r: Response)
    requires Truthful(content, end, q, r)
    ensures TruthfulOutcome(content, end, q, Answer(r))
  {
  }

  lemma WakeGone(s: State, w: Wake, t: Thread) returns (n: State, v: Wake)
    requires Woken(s, w) && t in s.acts && s.acts[t].Resubmitting? && !s.alive
    ensures n == Look(s, t, s.acts[t].h, s.acts[t].r)
    ensures Woken(n, v) && v.x == w.x
  {
    CrewFacts(s, w, t);
    HolderFacts(s, w);
    hide Woken, Doomed, Truthful;
    var h, r := s.acts[t].h, s.acts[t].r;
    n, v := WakeTell(s, w, t, s.acts[t := Advancing(h, r)], h, if r.Ok? then Hollow else Refused);
  }

  lemma WakeReread(s: State, w: Wake, t: Thread, choice: bool) returns (n: State, v: Wake)
    requires Woken(s, w) && t in s.acts && s.acts[t].Rereading?
    ensures n == Reread(s, t, choice, s.acts[t].h, s.acts[t].r)
    ensures Woken(n, v) && v.x == w.x
  {
    CrewFacts(s, w, t);
    HolderFacts(s, w);
    hide Woken, Doomed, Truthful;
    var h, r := s.acts[t].h, s.acts[t].r;
    n, v := WakeTell(s, w, t, s.acts[t := Advancing(h, r)], h, if choice then Resubmitted else Refused);
  }

  lemma FoundCrew(a: Acts, b: Acts, failed: bool, w: Wake, t: Thread)
    requires Crew(a, failed, w) && SameBut(a, b, t) && t in a && w.tok == Some(t) && w.xtok != Some(t)
    requires t in b && b[t].Rereading? && b[t].h == w.d[0]
    ensures Crew(b, failed, w)
  {
  }

  lemma FoundRecords(content: Octets, end: nat, nodes: map<Id, Node>, a: Acts, b: Acts, req: map<Id, Request>,
                     log: seq<(Id, Outcome)>, w: Wake, t: Thread)
    requires Records(content, end, nodes, a, req, log, w) && SameBut(a, b, t) && w.tok == Some(t)
    requires t in a && a[t].Resubmitting? && t in b && b[t].Rereading?
    ensures Records(content, end, nodes, b, req, log, w)
  {
    hide Ledger, Told, Truthful;
    LedgerFrame(nodes, a, b, req, log, At(a, w.tok), At(b, w.tok), w.place, t);
    ToldFrame(content, end, a, b, req, log, t);
  }

  lemma WakeFound(s: State, w: Wake, t: Thread) returns (n: State)
    requires Woken(s, w) && t in s.acts && s.acts[t].Resubmitting? && s.alive
    ensures n == Look(s, t, s.acts[t].h, s.acts[t].r)
    ensures Woken(n, w)
  {
    hide Crew, Slotted, Doomed, Records, Woken;
    WakeParts(s, w);
    CrewFacts(s, w, t);
    HolderFacts(s, w);
    var b := s.acts[t := Rereading(s.acts[t].h, s.acts[t].r)];
    FoundCrew(s.acts, b, s.failed, w, t);
    FoundRecords(s.source.bytes, End(s), s.nodes, s.acts, b, s.req, s.log, w, t);
    SlottedMove(w.x in s.nodes, s.slot, s.acts, b, s.queue, w, w, t);
    n := s.(acts := b);
    WakeView(n, w);
  }

  lemma WakeWalk(s: State, w: Wake, t: Thread, choice: bool) returns (n: State, v: Wake)
    requires Woken(s, w) && t in s.acts && Walking(s.acts[t]) && Dereferences(s, s.acts[t])
    ensures n == RunThread(s, t, choice, t)
    ensures Woken(n, v) && v.x == w.x
  {
    hide Woken, Advance, Look, Reread;
    CrewFacts(s, w, t);
    v := w;
    match s.acts[t]
    case Resubmitting(h, r) => if s.alive { n := WakeFound(s, w, t); } else { n, v := WakeGone(s, w, t); }
    case Rereading(h, r) => n, v := WakeReread(s, w, t, choice);
    case Advancing(h, r) => n, v := WakeAdvance(s, w, t);
  }

  lemma WakeRun(s: State, w: Wake, t: Thread, choice: bool, u: Thread) returns (n: State, v: Wake)
    requires Woken(s, w) && Enabled(s, Run(t, choice, u))
    ensures n == RunThread(s, t, choice, u)
    ensures Woken(n, v) && v.x == w.x
  {
    hide Woken, RunThread;
    CrewFacts(s, w, t);
    var a := s.acts[t];
    if a.Handling? {
      RunsHandler(s, t, choice, u);
      if w.tok == Some(t) { n, v := WakeTear(s, w, t, u); } else { n, v := WakeAnswer(s, w, t, u); }
    } else {
      RunsAlone(s, t, choice, u);
      if a.Storing? {
        RunsStore(s, t, choice);
        n, v := WakeStore(s, w, t);
      } else if IsPost(a) {
        n, v := WakePost(s, w, t, choice);
      } else if Walking(a) {
        n, v := WakeWalk(s, w, t, choice);
      } else if a.Replying? {
        n, v := WakeReply(s, w, t, choice);
      } else {
        n, v := WakeFail(s, w, t, choice);
      }
    }
  }

  lemma RunsStore(s: State, t: Thread, choice: bool)
    requires t in s.acts && s.acts[t].Storing?
    ensures RunThread(s, t, choice, t) == s.(slot := Some(s.acts[t].h), acts := s.acts[t := Installing(s.acts[t].h, s.acts[t].size)])
  {
  }

  lemma WakeSkip(s: State, w: Wake, u: Thread, queue: nat) returns (n: State)
    requires Woken(s, w) && u !in s.acts && s.slot.None?
    ensures n == s.(queue := queue)
    ensures Woken(n, w)
  {
    ParkedFacts(s, w);
    hide Woken;
    n := WakeSide(s, w, u, s.acts, s.failed, s.done, queue);
  }

  lemma WakeLateDrain(s: State, w: Wake, u: Thread) returns (n: State, v: Wake)
    requires Woken(s, w) && s.queue > 0 && u !in s.acts
    ensures n == LateDrain(s, u)
    ensures Woken(n, v) && v.x == w.x
  {
    hide Woken;
    v := w;
    if s.slot.None? {
      n := WakeSkip(s, w, u, s.queue - 1);
    } else {
      n, v := WakeClaim(s, w, u, s.queue - 1);
    }
  }

  /** A failure begins, and the transfer stays paused or ends. */
  lemma WakeBegins(s: State, w: Wake, u: Thread, n: State)
    requires Woken(s, w) && u !in s.acts && n.acts == s.acts[u := FailFlag] && (n.paused || n.broken)
    requires n.created == s.created && n.enabled == s.enabled && n.hasOp == s.hasOp && n.cancelled == s.cancelled
    requires n.worker == s.worker && n.done == s.done && n.failed == s.failed && n.slot == s.slot
    requires n.nodes == s.nodes && n.req == s.req && n.log == s.log && n.source == s.source && n.stream == s.stream
    ensures Woken(n, w)
  {
    hide Crew, Doomed, Records, SameBut, Slotted;
    assert SameBut(s.acts, n.acts, u) by { PutSame(s.acts, u, FailFlag); }
    CrewSide(s.acts, n.acts, s.failed, s.failed, w, u);
    RecordsSide(s.source.bytes, End(s), s.nodes, s.acts, n.acts, s.req, s.log, w, u);
    SlottedFail(w.x in s.nodes, s.slot, s.acts, s.queue, n.queue, w, u);
  }

  lemma PutSame(a: Acts, t: Thread, x: Activity)
    ensures SameBut(a, a[t := x], t)
  {
  }

  lemma SlottedFail(live: bool, slot: Option<Id>, acts: Acts, queue: nat, later: nat, w: Wake, u: Thread)
    requires Slotted(live, slot, acts, queue, w)
    ensures Slotted(live, slot, acts[u := FailFlag], later, w)
  {
    assert IsFail(acts[u := FailFlag][u]);
  }

  lemma WakeFailure(s: State, w: Wake, u: Thread, queue: nat) returns (n: State)
    requires Woken(s, w) && u !in s.acts
    ensures n == s.(broken := true, queue := queue, acts := s.acts[u := FailFlag])
    ensures Woken(n, w)
  {
    hide Woken;
    n := s.(broken := true, queue := queue, acts := s.acts[u := FailFlag]);
    WakeBegins(s, w, u, n);
  }

  lemma WakeOverdue(s: State, w: Wake, u: Thread, resumed: bool) returns (n: State)
    requires Woken(s, w) && u !in s.acts && s.queue > 0
    ensures n == Overdue(s, u, resumed)
    ensures Woken(n, w)
  {
    ParkedFacts(s, w);
    hide Woken;
    n := Overdue(s, u, resumed);
    WakeBegins(s, w, u, n);
  }

  lemma WakeDrain(s: State, w: Wake, ok: bool, u: Thread) returns (n: State, v: Wake)
    requires Woken(s, w) && Enabled(s, Drain(ok, u))
    ensures n == Apply(s, Drain(ok, u))
    ensures Woken(n, v) && v.x == w.x
  {
    ParkedFacts(s, w);
    hide Woken, LateDrain;
    v := w;
    if s.done {
      n, v := WakeLateDrain(s, w, u);
    } else {
      n := WakeFailure(s, w, u, s.queue - 1);
    }
  }

  lemma WakeFlip(s: State, w: Wake, e: Event)
    requires Woken(s, w) && Enabled(s, e) && (e.ReadRefused? || e.Resumed? || e.Disable? || e.Detach? || e.Cancel?)
    ensures Woken(Apply(s, e), w)
  {
    hide Abandons, Crew, Slotted, Doomed, Records;
  }

  /** No new read is taken, and libcurl does not move the paused transfer. */
  lemma WakePossible(s: State, w: Wake, e: Event)
    requires Woken(s, w) && Possible(s, e)
    ensures e.Run? || e.Drain? || e.ExpireQueued? || e.FailNow? || e.ReadRefused? || e.Resumed? || e.Disable? || e.Detach? || e.Cancel?
  {
    hide Crew, Slotted, Doomed, Records;
  }

  lemma WakeKeeps(s: State, w: Wake, e: Event) returns (v: Wake)
    requires Woken(s, w) && Enabled(s, e)
    ensures Woken(Apply(s, e), v) && v.x == w.x
  {
    WakePossible(s, w, e);
    ParkedFacts(s, w);
    hide Woken, RunThread;
    v := w;
    if e.Run? {
      var n;
      n, v := WakeRun(s, w, e.t, e.choice, e.u);
    } else if e.Drain? {
      var n;
      n, v := WakeDrain(s, w, e.ok, e.u);
    } else if e.ExpireQueued? {
      var n := WakeOverdue(s, w, e.u, e.resumed);
    } else if e.FailNow? {
      var n := WakeFailure(s, w, e.u, s.queue);
    } else {
      WakeFlip(s, w, e);
    }
  }

  lemma {:induction false} WakeRuns(s: State, w: Wake, es: seq<Event>) returns (v: Wake)
    requires Woken(s, w) && Legal(s, es)
    ensures Woken(Exec(s, es), v) && v.x == w.x
    decreases |es|
  {
    hide Woken, Apply, Enabled;
    if es == [] {
      v := w;
    } else {
      v := WakeKeeps(s, w, es[0]);
      v := WakeRuns(Apply(s, es[0]), v, es[1..]);
    }
  }

  // ---- From the locked section on.

  /** A thread is inside DeliverResponse() between its exchange and its look at the client buffer. */
  predicate Answering(s: State) {
    exists t | t in s.acts :: s.acts[t].Building?
  }

  /** A read's handler is in the slot, a thread is about to store one there, or one has been taken out and its
      answer not been built.  While the worker is inside Pause(), one of the three holds. */
  predicate Exposed(s: State) {
    || s.slot.Some?
    || (exists t | t in s.acts :: s.acts[t].Storing?)
    || Answering(s)
  }

  lemma ParkedGood(g: Good)
    requires Wakes(g.s) && !Exposed(g.s)
    ensures g.s.created && g.w.post.None? && g.s.worker.Transferring? && g.s.paused
    ensures forall t | t in g.s.acts :: !IsPost(g.s.acts[t]) && (g.s.acts[t].FailDone? || g.s.acts[t].FailClaim? ==> g.s.failed)
    ensures forall t | t in g.s.acts && IsToken(g.s.acts[t]) :: g.w.tok == Some(t) && !g.s.acts[t].Storing? && !g.s.acts[t].Building?
    ensures g.w.c == [] <==> g.w.tok.None?
    ensures g.w.tok.Some? ==> g.w.tok.value in g.s.acts && IsToken(g.s.acts[g.w.tok.value]) && g.s.acts[g.w.tok.value].h == g.w.c[0]
  {
    hide Chain, Tail, Claimed, Data, History;
  }

  /** The cancellation handler is one more accepted read, and its thread holds no response. */
  lemma LockHistory(s: State, w: Witness, x: Id, u: Thread)
    requires History(s, w) && x !in s.req && u !in s.acts && w.tok != Some(u)
    requires At(s.acts, w.tok).Advancing? ==> At(s.acts, w.tok).h in s.nodes
    ensures var n := Lock(s, x, u);
            Ledger(n.nodes, n.acts, n.req, n.log, At(n.acts, w.tok), w.place[x := InChain])
            && Told(n.source.bytes, End(n), n.acts, n.req, n.log)
  {
    hide Ledger, Told;
    var n := Lock(s, x, u);
    var q := Request(Position(s.stream), 1);
    LedgerAdd(s.nodes, n.nodes, s.acts, s.req, s.log, At(s.acts, w.tok), w.place, x, q);
    LedgerFrame(n.nodes, s.acts, n.acts, n.req, s.log, At(s.acts, w.tok), At(n.acts, w.tok), w.place[x := InChain], u);
    ToldAdd(s.source.bytes, End(s), s.acts, s.req, s.log, x, q);
    ToldFrame(s.source.bytes, End(s), s.acts, n.acts, n.req, s.log, u);
  }

  lemma LockHolder(g: Good, u: Thread)
    requires u !in g.s.acts
    ensures g.w.tok != Some(u)
    ensures var a := At(g.s.acts, g.w.tok);
            && (IsToken(a) ==> a.h in g.s.nodes && a.h in g.s.req)
            && (a.Handling? ==> Truthful(g.s.source.bytes, End(g.s), g.s.req[a.h], a.r))
  {
    AdvancingLive(g);
    if g.w.c != [] { HeadRequested(g.s, g.w); }
    hide Chain, Tail, Birth, Control, History, Bytes, SlotOffsets, NextOffset, Vacant, Truthful;
  }

  lemma RecordsOf(content: Octets, end: nat, nodes: map<Id, Node>, acts: Acts, req: map<Id, Request>,
                  log: seq<(Id, Outcome)>, w: Wake)
    requires Ledger(nodes, acts, req, log, At(acts, w.tok), w.place) && Told(content, end, acts, req, log)
    requires var a := At(acts, w.tok); a.Handling? ==> a.h in req && Truthful(content, end, req[a.h], a.r)
    ensures Records(content, end, nodes, acts, req, log, w)
  {
    hide Ledger, Told, Truthful;
  }

  lemma LockRecords(g: Good, x: Id, u: Thread)
    requires x !in g.s.req && u !in g.s.acts
    ensures var n := Lock(g.s, x, u);
            Records(n.source.bytes, End(n), n.nodes, n.acts, n.req, n.log,
                    Wake(x, g.w.c, g.w.tok, Some(u), g.w.place[x := InChain]))
  {
    LockHolder(g, u);
    LockHistory(g.s, g.w, x, u);
    hide Holds, History, Ledger, Told, Truthful, Records;
    var n := Lock(g.s, x, u);
    RecordsOf(n.source.bytes, End(n), n.nodes, n.acts, n.req, n.log,
              Wake(x, g.w.c, g.w.tok, Some(u), g.w.place[x := InChain]));
  }

  /** A new request does not touch the chain. */
  lemma ChainWith(nodes: map<Id, Node>, req: map<Id, Request>, c: seq<Id>, x: Id, q: Request)
    requires Chain(nodes, req, c) && x !in req
    ensures x !in c && x !in nodes && Chain(nodes, req[x := q], c)
  {
    forall i | 0 <= i < |c| ensures Linked(nodes, req[x := q], c, i) && c[i] != x {
      assert Linked(nodes, req, c, i);
    }
  }

  lemma LockChain(g: Good, x: Id, u: Thread)
    requires x !in g.s.req
    ensures x !in g.w.c && Doomed(Lock(g.s, x, u).nodes, Lock(g.s, x, u).req, x, g.w.c)
  {
    hide Chain, Tail, Control, Data, History, Threads, Head, Birth;
    ChainWith(g.s.nodes, g.s.req, g.w.c, x, Request(Position(g.s.stream), 1));
    assert Lock(g.s, x, u).nodes - {x} == g.s.nodes;
  }

  lemma LockCrew(g: Good, x: Id, u: Thread, w: Wake)
    requires Wakes(g.s) && !Exposed(g.s) && x !in g.w.c && u !in g.s.acts
    requires w == Wake(x, g.w.c, g.w.tok, Some(u), w.place)
    ensures Crew(g.s.acts[u := Storing(x, 1)], g.s.failed, w)
  {
    ParkedGood(g);
    hide Holds;
  }

  /** Nothing is exposed: the wake-up goes well from here. */
  lemma LockWoken(g: Good, x: Id, u: Thread) returns (w: Wake)
    requires Wakes(g.s) && !Exposed(g.s) && x !in g.s.req && u !in g.s.acts
    ensures Woken(Lock(g.s, x, u), w) && w.x == x
  {
    hide Holds, Doomed, Records, Crew, Coming;
    w := Wake(x, g.w.c, g.w.tok, Some(u), g.w.place[x := InChain]);
    ParkedGood(g);
    LockChain(g, x, u);
    LockRecords(g, x, u);
    LockCrew(g, x, u, w);
  }
}
