/** What a run without failures tells: every read is completed by the shared transfer, until one is answered short
    at the end of the range. */
module PrefetchUndisturbed {
  import opened Common
  import opened ReadStream
  import opened PrefetchProtocol
  import opened PrefetchInvariant
  import opened PrefetchTransfer
  import opened PrefetchWorker
  import opened PrefetchChain
  import opened PrefetchTheorems
  import opened PrefetchBuffers

  /** The step disturbs the transfer: a failure, a continuation that cannot be queued, a close, or the
      destruction of the file. */
  predicate Disturbs(s: State, e: Event) {
    || e.FailNow? || e.ExpireQueued? || e.Cancel? || e.Detach? || (e.Drain? && !e.ok)
    || (e.Run? && e.t in s.acts && s.acts[e.t].Enqueueing? && !e.choice)
  }

  /** A read was answered short, or is about to be. */
  ghost predicate ShortHeld(acts: Acts, req: map<Id, Request>) {
    exists t | t in acts ::
      acts[t].Replying? && acts[t].r.Ok? && acts[t].h in req && |acts[t].r.data| < req[acts[t].h].size
  }

  ghost predicate ShortTold(log: seq<(Id, Outcome)>, req: map<Id, Request>) {
    exists i | 0 <= i < |log| :: log[i].1.Completed? && log[i].0 in req && |log[i].1.data| < req[log[i].0].size
  }

  ghost predicate Short(acts: Acts, req: map<Id, Request>, log: seq<(Id, Outcome)>) {
    ShortHeld(acts, req) || ShortTold(log, req)
  }

  // ---- What holds in an undisturbed run.

  predicate Mild(a: Activity, done: bool) {
    && !IsFail(a) && !a.Stranding? && !a.Disabling?
    && (a.Handling? || a.Replying? || Walking(a) ==> a.r.Ok?)
    && (a.Enqueueing? ==> !done)
  }

  ghost predicate AllMild(acts: Acts, done: bool) {
    forall t | t in acts :: Mild(acts[t], done)
  }

  /** Chains are torn down, and reads handed back, only after a short answer. */
  ghost predicate Whole(acts: Acts, log: seq<(Id, Outcome)>, short: bool) {
    && (forall t | t in acts && Walking(acts[t]) :: short)
    && (forall i | 0 <= i < |log| :: log[i].1.Completed? || ((log[i].1.Resubmitted? || log[i].1.Refused?) && short))
  }

  /** Nothing is queued for a finished operation, and a prepared response is a chunk. */
  predicate Counters(done: bool, queue: nat, worker: Worker) {
    (queue > 0 ==> !done) && (Finishing(worker) ==> queue == 0) && (worker.SuccessClaim? ==> worker.r.Ok?)
  }

  ghost predicate Serene(s: State) {
    && s.alive && (s.created ==> s.hasOp) && !s.failed && !s.cancelled && Counters(s.done, s.queue, s.worker)
    && AllMild(s.acts, s.done) && Whole(s.acts, s.log, Short(s.acts, s.req, s.log))
  }

  // ---- Threads.

  lemma MildPut(acts: Acts, done: bool, t: Thread, a: Activity)
    requires AllMild(acts, done) && Mild(a, done)
    ensures AllMild(acts[t := a], done)
  {
  }

  lemma MildDrop(acts: Acts, done: bool, t: Thread)
    requires AllMild(acts, done)
    ensures AllMild(acts - {t}, done)
  {
  }

  lemma WholePut(acts: Acts, req: map<Id, Request>, log: seq<(Id, Outcome)>, t: Thread, a: Activity)
    requires Whole(acts, log, Short(acts, req, log)) && (t in acts ==> !acts[t].Replying?)
    requires Walking(a) ==> Short(acts, req, log) || Short(acts[t := a], req, log)
    ensures Whole(acts[t := a], log, Short(acts[t := a], req, log))
    ensures Short(acts, req, log) ==> Short(acts[t := a], req, log)
  {
    if ShortHeld(acts, req) {
      var x :| x in acts && acts[x].Replying? && acts[x].r.Ok? && acts[x].h in req && |acts[x].r.data| < req[acts[x].h].size;
      assert acts[t := a][x] == acts[x];
    }
    hide ShortHeld, ShortTold;
  }

  lemma WholeDrop(acts: Acts, req: map<Id, Request>, log: seq<(Id, Outcome)>, t: Thread)
    requires Whole(acts, log, Short(acts, req, log)) && (t in acts ==> !acts[t].Replying?)
    ensures Whole(acts - {t}, log, Short(acts - {t}, req, log))
  {
    if ShortHeld(acts, req) {
      var x :| x in acts && acts[x].Replying? && acts[x].r.Ok? && acts[x].h in req && |acts[x].r.data| < req[acts[x].h].size;
      assert (acts - {t})[x] == acts[x];
    }
    hide ShortHeld, ShortTold;
  }

  /** A completed read moves from its thread to the log. */
  lemma WholeTold(acts: Acts, req: map<Id, Request>, log: seq<(Id, Outcome)>, t: Thread)
    requires Whole(acts, log, Short(acts, req, log)) && t in acts && acts[t].Replying? && acts[t].r.Ok?
    ensures var more := log + [(acts[t].h, Completed(acts[t].r.offset, acts[t].r.data))];
            Whole(acts - {t}, more, Short(acts - {t}, req, more))
  {
    var more := log + [(acts[t].h, Completed(acts[t].r.offset, acts[t].r.data))];
    if ShortHeld(acts, req) {
      var x :| x in acts && acts[x].Replying? && acts[x].r.Ok? && acts[x].h in req && |acts[x].r.data| < req[acts[x].h].size;
      if x == t {
        assert more[|log|].1.Completed? && ShortTold(more, req);
      } else {
        assert (acts - {t})[x] == acts[x];
      }
    }
    if ShortTold(log, req) {
      var i :| 0 <= i < |log| && log[i].1.Completed? && log[i].0 in req && |log[i].1.data| < req[log[i].0].size;
      assert more[i] == log[i];
    }
    hide ShortHeld, ShortTold;
  }

  /** A read of a torn-down chain is handed back. */
  lemma WholeBack(acts: Acts, req: map<Id, Request>, log: seq<(Id, Outcome)>, t: Thread, h: Id, r: Response, o: Outcome)
    requires Whole(acts, log, Short(acts, req, log)) && t in acts && Walking(acts[t]) && (o.Resubmitted? || o.Refused?)
    ensures var b, more := acts[t := Advancing(h, r)], log + [(h, o)]; Whole(b, more, Short(b, req, more))
  {
    var b, more := acts[t := Advancing(h, r)], log + [(h, o)];
    assert Short(acts, req, log);
    if ShortHeld(acts, req) {
      var x :| x in acts && acts[x].Replying? && acts[x].r.Ok? && acts[x].h in req && |acts[x].r.data| < req[acts[x].h].size;
      assert b[x] == acts[x];
    } else {
      var i :| 0 <= i < |log| && log[i].1.Completed? && log[i].0 in req && |log[i].1.data| < req[log[i].0].size;
      assert more[i] == log[i];
    }
    hide ShortHeld, ShortTold;
  }

  /** One more accepted read. */
  lemma WholeRead(acts: Acts, req: map<Id, Request>, log: seq<(Id, Outcome)>, id: Id, q: Request)
    requires Whole(acts, log, Short(acts, req, log)) && id !in req
    ensures Whole(acts, log, Short(acts, req[id := q], log))
  {
    if ShortHeld(acts, req) {
      var x :| x in acts && acts[x].Replying? && acts[x].r.Ok? && acts[x].h in req && |acts[x].r.data| < req[acts[x].h].size;
      assert ShortHeld(acts, req[id := q]);
    } else if ShortTold(log, req) {
      var i :| 0 <= i < |log| && log[i].1.Completed? && log[i].0 in req && |log[i].1.data| < req[log[i].0].size;
      assert ShortTold(log, req[id := q]);
    }
    hide ShortHeld, ShortTold;
  }

  // ---- Steps, by what they change.

  lemma SerenePut(s: State, n: State, t: Thread, a: Activity)
    requires Serene(s) && (t in s.acts ==> !s.acts[t].Replying?) && Mild(a, s.done)
    requires Walking(a) ==> (t in s.acts && Walking(s.acts[t]))
    requires n.alive == s.alive && n.created == s.created && n.hasOp == s.hasOp && n.failed == s.failed && n.cancelled == s.cancelled
    requires n.done == s.done && Counters(n.done, n.queue, n.worker)
    requires n.req == s.req && n.log == s.log && n.acts == s.acts[t := a]
    ensures Serene(n)
  {
    hide Mild, Counters, Short;
    MildPut(s.acts, s.done, t, a);
    WholePut(s.acts, s.req, s.log, t, a);
    hide AllMild;
  }

  lemma SereneDrop(s: State, n: State, t: Thread)
    requires Serene(s) && (t in s.acts ==> !s.acts[t].Replying?)
    requires n.alive == s.alive && n.created == s.created && n.hasOp == s.hasOp && n.failed == s.failed && n.cancelled == s.cancelled
    requires n.done == s.done && Counters(n.done, n.queue, n.worker)
    requires n.req == s.req && n.log == s.log && n.acts == s.acts - {t}
    ensures Serene(n)
  {
    hide Mild, Counters, Short;
    MildDrop(s.acts, s.done, t);
    WholeDrop(s.acts, s.req, s.log, t);
    hide AllMild, Whole;
  }

  lemma SereneSame(s: State, n: State)
    requires Serene(s) && (n.done == s.done || NoPost(s.acts))
    requires n.alive == s.alive && n.created == s.created && n.hasOp == s.hasOp && n.failed == s.failed && n.cancelled == s.cancelled
    requires Counters(n.done, n.queue, n.worker)
    requires n.req == s.req && n.log == s.log && n.acts == s.acts
    ensures Serene(n)
  {
    hide Counters, Short, Whole;
  }

  /** A state is judged by these parts. */
  lemma SereneParts(s: State, n: State)
    requires Serene(s) && n.alive == s.alive && n.created == s.created && n.hasOp == s.hasOp && n.failed == s.failed
    requires n.cancelled == s.cancelled && n.done == s.done && n.queue == s.queue && n.worker == s.worker
    requires AllMild(n.acts, n.done) && Whole(n.acts, n.log, Short(n.acts, n.req, n.log))
    ensures Serene(n)
  {
    hide AllMild, Whole, Short, Counters;
  }

  lemma SereneGives(s: State)
    requires Serene(s)
    ensures AllMild(s.acts, s.done) && Whole(s.acts, s.log, Short(s.acts, s.req, s.log))
  {
    hide AllMild, Whole, Short, Counters;
  }

  // ---- What the invariant gives.

  /** Success() is the only end that an undisturbed operation has. */
  lemma TransferringFacts(g: Good)
    requires Serene(g.s) && !Finishing(g.s.worker)
    ensures !g.s.done
  {
    hide Structure, Ownership, Claimed, Data, History, AllMild, Whole;
  }

  lemma PostWorker(g: Good, t: Thread)
    requires t in g.s.acts && IsPost(g.s.acts[t])
    ensures Finishing(g.s.worker) ==> g.s.done
  {
    hide Chain, Head, Tail, Claimed, Data, History;
  }

  lemma ReplyOwn(g: Good, t: Thread)
    requires t in g.s.acts && g.s.acts[t].Replying? && g.s.acts[t].r.Ok?
    ensures g.s.acts[t].r.own
  {
    hide Structure, Control, Data, Ledger;
  }

  lemma HandleSize(g: Good, t: Thread)
    requires t in g.s.acts && g.s.acts[t].Handling?
    ensures var h := g.s.acts[t].h; g.s.created && h in g.s.nodes && h in g.s.req && g.s.nodes[h].size == g.s.req[h].size
  {
    HandleFacts(g, t);
    ChainTail(g.s.nodes, g.s.req, g.w.c);
  }

  // ---- Every step.

  lemma SereneInstall(s: State, t: Thread, choice: bool, u: Thread)
    requires Serene(s) && t in s.acts && Dereferences(s, s.acts[t]) && s.acts[t].Installing?
    ensures Serene(RunThread(s, t, choice, u))
  {
    assert Counters(s.done, s.queue, s.worker);
    hide Serene, Install, CopiesReleased, Counters;
    SerenePut(s, RunThread(s, t, choice, u), t, Loading(s.acts[t].h));
  }

  lemma SereneLoad(s: State, t: Thread, choice: bool, u: Thread)
    requires Serene(s) && t in s.acts && s.acts[t].Loading?
    ensures Serene(RunThread(s, t, choice, u))
  {
    assert Counters(s.done, s.queue, s.worker);
    hide Serene, Counters;
    SerenePut(s, RunThread(s, t, choice, u), t, if s.done then SawDone(s.acts[t].h) else Enqueueing(s.acts[t].h));
  }

  lemma SereneSaw(s: State, t: Thread, choice: bool, u: Thread)
    requires Serene(s) && t in s.acts && s.acts[t].SawDone?
    ensures Serene(RunThread(s, t, choice, u))
  {
    assert !s.failed && Counters(s.done, s.queue, s.worker);
    hide Serene, Counters;
    SerenePut(s, RunThread(s, t, choice, u), t, Delivering(s.acts[t].h));
  }

  lemma SereneStore(s: State, t: Thread, choice: bool, u: Thread)
    requires Serene(s) && t in s.acts && s.acts[t].Storing?
    ensures Serene(RunThread(s, t, choice, u))
  {
    assert Counters(s.done, s.queue, s.worker);
    hide Serene, Counters;
    SerenePut(s, RunThread(s, t, choice, u), t, Installing(s.acts[t].h, s.acts[t].size));
  }

  lemma SereneEnqueued(g: Good, t: Thread)
    requires Serene(g.s) && t in g.s.acts && g.s.acts[t].Enqueueing?
    ensures Serene(Enqueue(g.s, t, true))
  {
    PostWorker(g, t);
    assert Mild(g.s.acts[t], g.s.done);
    hide Holds, Serene;
    SereneDrop(g.s, Enqueue(g.s, t, true), t);
  }

  lemma SereneLeave(s: State, t: Thread)
    requires Serene(s) && (t in s.acts ==> !s.acts[t].Replying?)
    ensures Serene(Leave(s, t))
  {
    assert Counters(s.done, s.queue, s.worker);
    hide Serene, Counters;
    SereneDrop(s, Leave(s, t), t);
  }

  lemma SereneTake(s: State, t: Thread)
    requires Serene(s) && s.slot.Some? && (t in s.acts ==> !s.acts[t].Replying?)
    ensures Serene(Take(s, t))
  {
    assert Counters(s.done, s.queue, s.worker);
    hide Serene, Counters;
    SerenePut(s, Take(s, t), t, Building(s.slot.value));
  }

  lemma SereneBuild(s: State, t: Thread, h: Id)
    requires Serene(s) && s.stream.current.Some? && (t in s.acts ==> !s.acts[t].Replying?)
    ensures Serene(Build(s, t, h))
  {
    assert Counters(s.done, s.queue, s.worker);
    assert Chunk(s.stream, s.owner == Some(h)).Ok?;
    hide Serene, Counters, Deliver, Chunk;
    SerenePut(s, Build(s, t, h), t, Handling(h, Chunk(s.stream, s.owner == Some(h))));
  }

  lemma SereneLook(s: State, t: Thread, h: Id, r: Response)
    requires Serene(s) && t in s.acts && s.acts[t] == Resubmitting(h, r)
    ensures Serene(Look(s, t, h, r))
  {
    assert Counters(s.done, s.queue, s.worker) && s.alive && Mild(s.acts[t], s.done);
    hide Serene, Counters;
    SerenePut(s, Look(s, t, h, r), t, Rereading(h, r));
  }

  lemma SereneBack(s: State, n: State, t: Thread, h: Id, r: Response, o: Outcome)
    requires Serene(s) && t in s.acts && s.acts[t] == Rereading(h, r) && (o.Resubmitted? || o.Refused?)
    requires n.alive == s.alive && n.created == s.created && n.hasOp == s.hasOp && n.failed == s.failed && n.cancelled == s.cancelled
    requires n.done == s.done && n.queue == s.queue && n.worker == s.worker && n.req == s.req
    requires n.log == s.log + [(h, o)] && n.acts == s.acts[t := Advancing(h, r)]
    ensures Serene(n)
  {
    SereneGives(s);
    assert Mild(s.acts[t], s.done);
    hide Serene, Short;
    MildPut(s.acts, s.done, t, Advancing(h, r));
    WholeBack(s.acts, s.req, s.log, t, h, r, o);
    hide AllMild, Whole;
    SereneParts(s, n);
  }

  lemma SereneReread(s: State, t: Thread, choice: bool, h: Id, r: Response)
    requires Serene(s) && t in s.acts && s.acts[t] == Rereading(h, r)
    ensures Serene(Reread(s, t, choice, h, r))
  {
    hide Serene;
    SereneBack(s, Reread(s, t, choice, h, r), t, h, r, if choice then Resubmitted else Refused);
  }

  lemma SereneAdvanceNext(s: State, t: Thread, h: Id, r: Response)
    requires Serene(s) && t in s.acts && s.acts[t] == Advancing(h, r) && h in s.nodes && s.nodes[h].next.Some?
    ensures Serene(Advance(s, t, h, r))
  {
    assert Counters(s.done, s.queue, s.worker) && Mild(s.acts[t], s.done);
    hide Serene, Counters;
    SerenePut(s, Advance(s, t, h, r), t, Resubmitting(s.nodes[h].next.value, r));
  }

  lemma SereneAdvanceEnd(s: State, t: Thread, h: Id, r: Response)
    requires Serene(s) && t in s.acts && s.acts[t] == Advancing(h, r) && h in s.nodes && s.nodes[h].next.None?
    ensures Serene(Advance(s, t, h, r))
  {
    assert Counters(s.done, s.queue, s.worker);
    hide Serene, Counters;
    SereneDrop(s, Advance(s, t, h, r), t);
  }

  lemma SereneTells(s: State, n: State, t: Thread)
    requires Serene(s) && t in s.acts && s.acts[t].Replying? && s.acts[t].r.Ok?
    requires n.alive == s.alive && n.created == s.created && n.hasOp == s.hasOp && n.failed == s.failed && n.cancelled == s.cancelled
    requires n.done == s.done && n.queue == s.queue && n.worker == s.worker && n.req == s.req
    requires n.log == s.log + [(s.acts[t].h, Completed(s.acts[t].r.offset, s.acts[t].r.data))] && n.acts == s.acts - {t}
    ensures Serene(n)
  {
    SereneGives(s);
    hide Serene, Short;
    MildDrop(s.acts, s.done, t);
    WholeTold(s.acts, s.req, s.log, t);
    hide AllMild, Whole;
    SereneParts(s, n);
  }

  lemma SereneReply(g: Good, t: Thread, choice: bool, u: Thread)
    requires Serene(g.s) && t in g.s.acts && g.s.acts[t].Replying?
    ensures Serene(RunThread(g.s, t, choice, u))
  {
    assert Mild(g.s.acts[t], g.s.done);
    ReplyOwn(g, t);
    hide Holds, Serene;
    SereneTells(g.s, RunThread(g.s, t, choice, u), t);
  }

  /** A full answer hands the next read to the operation; only a short one tears the chain down. */
  lemma HandledServes(s: State, t: Thread, u: Thread, h: Id, r: Response)
    requires Serene(s) && s.created && r.Ok? && h in s.nodes && (s.nodes[h].next.Some? ==> s.nodes[h].next.value in s.nodes)
    requires t in s.acts && u !in s.acts
    ensures var n := HandleResponse(s, t, u, h, r); var full := |r.data| == s.nodes[h].size; var next := s.nodes[h].next;
            && n.alive == s.alive && n.created == s.created && n.hasOp == s.hasOp && n.failed == s.failed && n.cancelled == s.cancelled
            && n.done == s.done && n.queue == s.queue && n.worker == s.worker && n.req == s.req && n.log == s.log
            && (next.None? ==> n.acts == s.acts[t := Replying(h, r)])
            && (next.Some? && full ==> n.acts == s.acts[t := Replying(h, r)][u := Storing(next.value, s.nodes[next.value].size)])
            && (next.Some? && !full ==> n.acts == s.acts[t := Replying(h, r)][u := Resubmitting(next.value, r)])
  {
    hide AllMild, Whole, Counters;
  }

  /** The threads after a response, when a short one tears the chain down. */
  lemma SereneActs(s: State, n: State, t: Thread, u: Thread, h: Id, r: Response, a: Activity)
    requires Serene(s) && t in s.acts && !s.acts[t].Replying? && u !in s.acts && r.Ok? && h in s.req
    requires a.Storing? || (a.Resubmitting? && a.r == r && |r.data| < s.req[h].size)
    requires n.alive == s.alive && n.created == s.created && n.hasOp == s.hasOp && n.failed == s.failed && n.cancelled == s.cancelled
    requires n.done == s.done && n.queue == s.queue && n.worker == s.worker && n.req == s.req && n.log == s.log
    requires n.acts == s.acts[t := Replying(h, r)][u := a]
    ensures Serene(n)
  {
    SereneGives(s);
    hide Serene;
    var b := s.acts[t := Replying(h, r)];
    MildPut(s.acts, s.done, t, Replying(h, r));
    WholePut(s.acts, s.req, s.log, t, Replying(h, r));
    if Walking(a) { assert b[t].Replying? && ShortHeld(b, s.req); }
    MildPut(b, s.done, u, a);
    hide ShortHeld, ShortTold, AllMild;
    WholePut(b, s.req, s.log, u, a);
    hide Whole, Short;
    SereneParts(s, n);
  }

  lemma SereneHandle(g: Good, t: Thread, u: Thread)
    requires Serene(g.s) && t in g.s.acts && g.s.acts[t].Handling? && u !in g.s.acts && Dereferences(g.s, g.s.acts[t])
    ensures Serene(HandleResponse(g.s, t, u, g.s.acts[t].h, g.s.acts[t].r))
  {
    assert Mild(g.s.acts[t], g.s.done);
    HandleSize(g, t);
    AnswerSize(g, t);
    hide Holds, HandleResponse, Serene;
    SereneHandled(g.s, t, u, g.s.acts[t].h, g.s.acts[t].r);
  }

  lemma SereneHandled(s: State, t: Thread, u: Thread, h: Id, r: Response)
    requires Serene(s) && s.created && t in s.acts && s.acts[t] == Handling(h, r) && u !in s.acts && r.Ok?
    requires h in s.nodes && (s.nodes[h].next.Some? ==> s.nodes[h].next.value in s.nodes)
    requires h in s.req && |r.data| <= s.req[h].size == s.nodes[h].size
    ensures Serene(HandleResponse(s, t, u, h, r))
  {
    assert Counters(s.done, s.queue, s.worker);
    HandledServes(s, t, u, h, r);
    hide HandleResponse, Counters, Serene;
    var n, next := HandleResponse(s, t, u, h, r), s.nodes[h].next;
    if next.None? {
      SerenePut(s, n, t, Replying(h, r));
    } else if |r.data| == s.nodes[h].size {
      SereneActs(s, n, t, u, h, r, Storing(next.value, s.nodes[next.value].size));
    } else {
      SereneActs(s, n, t, u, h, r, Resubmitting(next.value, r));
    }
  }

  lemma AnswerSize(g: Good, t: Thread)
    requires t in g.s.acts && g.s.acts[t].Handling? && g.s.acts[t].r.Ok?
    ensures var h := g.s.acts[t].h; h in g.s.req && |g.s.acts[t].r.data| <= g.s.req[h].size
  {
    HandleSize(g, t);
    HandleFacts(g, t);
    hide Structure, Control, History, Bytes, SlotOffsets, NextOffset, Vacant;
  }

  lemma SereneWalk(s: State, t: Thread, choice: bool, u: Thread)
    requires Serene(s) && t in s.acts && Dereferences(s, s.acts[t]) && (Walking(s.acts[t]) || s.acts[t].Building?)
    ensures Serene(RunThread(s, t, choice, u))
  {
    hide Serene, Look, Reread, Advance, Build;
    match s.acts[t]
    case Resubmitting(h, r) => SereneLook(s, t, h, r);
    case Rereading(h, r) => SereneReread(s, t, choice, h, r);
    case Building(h) => SereneBuild(s, t, h);
    case Advancing(h, r) =>
      if s.nodes[h].next.Some? { SereneAdvanceNext(s, t, h, r); } else { SereneAdvanceEnd(s, t, h, r); }
  }

  lemma SereneRun(g: Good, t: Thread, choice: bool, u: Thread)
    requires Serene(g.s) && t in g.s.acts && Dereferences(g.s, g.s.acts[t]) && u !in g.s.acts
    requires g.s.acts[t].Enqueueing? ==> choice
    ensures Serene(RunThread(g.s, t, choice, u))
  {
    assert Mild(g.s.acts[t], g.s.done);
    hide Holds, Serene, HandleResponse, Enqueue, Take, Leave;
    var a := g.s.acts[t];
    if Walking(a) || a.Building? {
      hide RunThread;
      SereneWalk(g.s, t, choice, u);
    } else if a.Replying? {
      hide RunThread;
      SereneReply(g, t, choice, u);
    } else if a.Installing? || a.Loading? || a.SawDone? {
      hide RunThread;
      match a
      case Installing(_, _) => SereneInstall(g.s, t, choice, u);
      case Loading(_) => SereneLoad(g.s, t, choice, u);
      case SawDone(_) => SereneSaw(g.s, t, choice, u);
    } else if a.Storing? {
      hide RunThread;
      SereneStore(g.s, t, choice, u);
    } else {
      match a
      case Enqueueing(h) => SereneEnqueued(g, t);
      case Delivering(h) => if g.s.slot.None? { SereneLeave(g.s, t); } else { SereneTake(g.s, t); }
      case Handling(h, r) => SereneHandle(g, t, u);
    }
  }

  lemma SereneCreate(g: Good, id: Id, offset: nat, size: nat, limit: nat)
    requires Serene(g.s) && Enabled(g.s, ReadCreate(id, offset, size, limit))
    ensures Serene(Apply(g.s, ReadCreate(id, offset, size, limit)))
  {
    hide Holds, Counters, AllMild, RunThread, WriteCallback, SuccessStep, PauseStep, Short;
    WholeRead(g.s.acts, g.s.req, g.s.log, id, Request(offset, size));
    hide Whole;
  }

  lemma SereneAppend(s: State, id: Id, offset: nat, size: nat)
    requires Serene(s) && Enabled(s, ReadAppend(id, offset, size))
    ensures Serene(Apply(s, ReadAppend(id, offset, size)))
  {
    hide Counters, AllMild, RunThread, WriteCallback, SuccessStep, PauseStep, Short;
    WholeRead(s.acts, s.req, s.log, id, Request(offset, size));
    hide Whole;
  }

  lemma SereneStart(s: State, id: Id, offset: nat, size: nat, u: Thread)
    requires Serene(s) && Enabled(s, ReadStart(id, offset, size, u))
    ensures Serene(Apply(s, ReadStart(id, offset, size, u)))
  {
    hide Counters, RunThread, WriteCallback, SuccessStep, PauseStep, Short;
    var req := s.req[id := Request(offset, size)];
    WholeRead(s.acts, s.req, s.log, id, Request(offset, size));
    MildPut(s.acts, s.done, u, Storing(id, size));
    WholePut(s.acts, req, s.log, u, Storing(id, size));
    hide Whole, AllMild;
  }

  lemma SereneFile(s: State, e: Event)
    requires Serene(s) && Enabled(s, e) && (e.ReadRefused? || e.Resumed? || e.Disable?)
    ensures Serene(Apply(s, e))
  {
    hide Counters, AllMild, Whole, Short, RunThread;
  }

  lemma SereneWriteTaken(s: State, data: Octets, stopped: bool)
    requires Serene(s) && !stopped && Accept(s.stream, data).1 == Taken
    ensures Serene(WriteCallback(s, data, stopped))
  {
    assert Counters(s.done, s.queue, s.worker);
    hide Serene, Accept, Counters;
    SereneSame(s, WriteCallback(s, data, stopped));
  }

  lemma SereneWriteBroken(s: State, data: Octets, stopped: bool)
    requires Serene(s) && (stopped || Accept(s.stream, data).1 == TooMuch)
    ensures Serene(WriteCallback(s, data, stopped))
  {
    assert Counters(s.done, s.queue, s.worker);
    hide Serene, Accept, Held, Counters;
    SereneSame(s, WriteCallback(s, data, stopped));
  }

  lemma SereneWritePaused(s: State, data: Octets, stopped: bool)
    requires Serene(s) && !stopped && Accept(s.stream, data).1 == Paused
    ensures Serene(WriteCallback(s, data, stopped))
  {
    assert Counters(s.done, s.queue, s.worker);
    hide Serene, Accept;
    SereneSame(s, WriteCallback(s, data, stopped));
  }

  lemma SereneWrite(s: State, data: Octets, stopped: bool)
    requires Serene(s)
    ensures Serene(WriteCallback(s, data, stopped))
  {
    hide Serene, WriteCallback, Accept;
    if stopped || Accept(s.stream, data).1 == TooMuch {
      SereneWriteBroken(s, data, stopped);
    } else if Accept(s.stream, data).1 == Taken {
      SereneWriteTaken(s, data, stopped);
    } else {
      SereneWritePaused(s, data, stopped);
    }
  }

  lemma SereneFinish(g: Good)
    requires Serene(g.s) && g.s.created && g.s.worker.Transferring? && !g.s.paused
    ensures Serene(g.s.(worker := SuccessFlag))
  {
    TransferringFacts(g);
    BusyFacts(g);
    hide Holds, Serene;
    SereneSame(g.s, g.s.(worker := SuccessFlag));
  }

  lemma SerenePauseIdle(s: State, u: Thread)
    requires Serene(s) && s.slot.None?
    ensures Serene(PauseStep(s, u))
  {
    assert Counters(s.done, s.queue, s.worker);
    hide Serene, Take;
    SereneSame(s, PauseStep(s, u));
  }

  lemma SerenePauseTake(s: State, u: Thread)
    requires Serene(s) && s.slot.Some? && u !in s.acts
    ensures Serene(PauseStep(s, u))
  {
    assert Counters(s.done, s.queue, s.worker);
    hide Serene;
    SerenePut(s, PauseStep(s, u), u, Building(s.slot.value));
  }

  lemma SereneSuccessFlag(s: State, u: Thread)
    requires Serene(s) && s.worker.SuccessFlag?
    ensures Serene(SuccessStep(s, u))
  {
    assert Counters(s.done, s.queue, s.worker) && !s.failed;
    hide Serene, Claim;
    SereneSame(s, SuccessStep(s, u));
  }

  lemma SereneSuccessDone(s: State, u: Thread)
    requires Serene(s) && s.worker.SuccessDone? && NoPost(s.acts)
    ensures Serene(SuccessStep(s, u))
  {
    assert Counters(s.done, s.queue, s.worker);
    hide Serene, Claim, NoPost;
    SereneSame(s, SuccessStep(s, u));
  }

  lemma SereneSuccessIdle(s: State, u: Thread)
    requires Serene(s) && (s.worker.SuccessCheck? || s.worker.SuccessClaim?) && s.slot.None?
    ensures Serene(SuccessStep(s, u))
  {
    assert Counters(s.done, s.queue, s.worker);
    hide Serene, Claim;
    SereneSame(s, SuccessStep(s, u));
  }

  lemma SereneSuccessCheck(s: State, u: Thread)
    requires Serene(s) && s.worker.SuccessCheck? && s.slot.Some? && s.stream.current.Some?
    ensures Serene(SuccessStep(s, u))
  {
    assert Counters(s.done, s.queue, s.worker);
    assert Chunk(s.stream, s.owner == s.slot).Ok?;
    hide Serene, Claim, Deliver, Chunk;
    SereneSame(s, SuccessStep(s, u));
  }

  lemma SereneSuccessClaim(s: State, u: Thread)
    requires Serene(s) && s.worker.SuccessClaim? && s.slot.Some? && u !in s.acts
    ensures Serene(SuccessStep(s, u))
  {
    assert Counters(s.done, s.queue, s.worker);
    hide Serene;
    SerenePut(s, SuccessStep(s, u), u, Handling(s.slot.value, s.worker.r));
  }

  lemma SereneWorker(g: Good, u: Thread)
    requires Serene(g.s) && Enabled(g.s, WorkerStep(u))
    ensures Serene(Apply(g.s, WorkerStep(u)))
  {
    WorkerFlags(g);
    BusyAlone(g);
    hide Holds, Serene, SuccessStep, PauseStep, NoPost;
    if g.s.worker.Pausing? {
      if g.s.slot.None? { SerenePauseIdle(g.s, u); } else { SerenePauseTake(g.s, u); }
    } else if g.s.worker.SuccessFlag? {
      SereneSuccessFlag(g.s, u);
    } else if g.s.worker.SuccessDone? {
      SereneSuccessDone(g.s, u);
    } else if g.s.slot.None? {
      SereneSuccessIdle(g.s, u);
    } else if g.s.worker.SuccessCheck? {
      SereneSuccessCheck(g.s, u);
    } else {
      SereneSuccessClaim(g.s, u);
    }
  }

  lemma SereneDrain(s: State, u: Thread)
    requires Serene(s) && Enabled(s, Drain(true, u))
    ensures Serene(Apply(s, Drain(true, u)))
  {
    assert Counters(s.done, s.queue, s.worker) && !s.cancelled;
    hide Serene, LateDrain, RunThread;
    SereneSame(s, Apply(s, Drain(true, u)));
  }

  lemma SereneStep(g: Good, e: Event)
    requires Serene(g.s) && Enabled(g.s, e) && !Disturbs(g.s, e)
    ensures Serene(Apply(g.s, e))
  {
    Created(g);
    hide Holds, Serene, RunThread, WriteCallback, SuccessStep, PauseStep, NextBytes, FillsReleased;
    match e
    case Run(t, choice, u) => SereneRun(g, t, choice, u);
    case CurlWrite(data, stopped) => SereneWrite(g.s, data, stopped);
    case CurlFinish => SereneFinish(g);
    case WorkerStep(u) => hide Apply; SereneWorker(g, u);
    case Drain(ok, u) => hide Apply; SereneDrain(g.s, u);
    case ReadCreate(id, offset, size, limit) => hide Apply; SereneCreate(g, id, offset, size, limit);
    case ReadAppend(id, offset, size) => hide Apply; SereneAppend(g.s, id, offset, size);
    case ReadStart(id, offset, size, u) => hide Apply; SereneStart(g.s, id, offset, size, u);
    case _ => hide Apply; SereneFile(g.s, e);
  }

  // ---- Every run.

  ghost predicate Undisturbed(s: State, es: seq<Event>)
    requires Legal(s, es)
    decreases |es|
  {
    es != [] ==> !Disturbs(s, es[0]) && Undisturbed(Apply(s, es[0]), es[1..])
  }

  lemma {:induction false} SereneRuns(g: Good, es: seq<Event>) returns (k: Good)
    requires Serene(g.s) && Legal(g.s, es) && Undisturbed(g.s, es)
    ensures k.s == Exec(g.s, es) && Serene(k.s) && k.s.source == g.s.source
    decreases |es|
  {
    hide Holds, Serene, Apply, Enabled, Disturbs;
    if es == [] {
      k := g;
    } else {
      SereneStep(g, es[0]);
      var m := Keeps(g, es[0]);
      k := SereneRuns(m, es[1..]);
    }
  }

  lemma InitSerene(content: Octets)
    ensures Serene(Init(content))
  {
  }

  /** Over every run without a failure, a refused continuation, a close or the destruction of the file: who was told
      was told of a chunk, or was handed back after some read was answered short; and as long as none was,
      everybody got all they asked for. */
  lemma UndisturbedCompletes(content: Octets, es: seq<Event>, i: nat)
    requires Legal(Init(content), es) && Undisturbed(Init(content), es) && i < |Exec(Init(content), es).log|
    ensures var s := Exec(Init(content), es); var (h, o) := s.log[i];
            && (o.Completed? || ((o.Resubmitted? || o.Refused?) && Short(s.acts, s.req, s.log)))
            && (!Short(s.acts, s.req, s.log) ==> h in s.req && o.Completed? && |o.data| == s.req[h].size)
  {
    InitHolds(content);
    InitSerene(content);
    hide Holds, Legal, Exec, Undisturbed, Serene, Init, Short;
    var g: Good := Snapshot(Init(content), Witness([], None, None, map[]));
    var k := SereneRuns(g, es);
    SereneTold(k, i);
  }

  lemma SereneTold(g: Good, i: nat)
    requires Serene(g.s) && i < |g.s.log|
    ensures var s := g.s; var (h, o) := s.log[i];
            && (o.Completed? || ((o.Resubmitted? || o.Refused?) && Short(s.acts, s.req, s.log)))
            && (!Short(s.acts, s.req, s.log) ==> h in s.req && o.Completed? && |o.data| == s.req[h].size)
  {
    LogAnswered(g, i);
    hide Holds, AllMild, Counters;
    if !Short(g.s.acts, g.s.req, g.s.log) {
      assert !ShortTold(g.s.log, g.s.req);
    }
    hide ShortHeld;
  }
}
