/** Each step of the prefetch protocol keeps the invariant. */
module PrefetchSteps {
  import opened Common
  import opened PrefetchProtocol
  import opened PrefetchInvariant

  // ---- Steps of threads that neither hold the head of the chain nor a response.

  predicate Side(a: Activity) {
    !IsToken(a) && !a.Replying? && !a.Installing?
  }

  /** The pools differ at most at `t`. */
  ghost predicate SameBut(a: Acts, b: Acts, t: Thread) {
    forall x | x != t :: (x in a <==> x in b) && (x in a ==> a[x] == b[x])
  }

  /** Threads without a response in hand do not matter to the ledger. */
  lemma LedgerFrame(nodes: map<Id, Node>, a: Acts, b: Acts, req: map<Id, Request>, log: seq<(Id, Outcome)>,
                    x: Activity, y: Activity, place: map<Id, Place>, t: Thread)
    requires Ledger(nodes, a, req, log, x, place)
    requires SameBut(a, b, t) && (t in a ==> !a[t].Replying?) && (t in b ==> !b[t].Replying?)
    requires x.Advancing? || y.Advancing? ==> x == y
    ensures Ledger(nodes, b, req, log, y, place)
  {
    forall h | h in place ensures Placed(nodes, b, log, h, place[h]) {
      assert Placed(nodes, a, log, h, place[h]);
    }
  }

  lemma ToldFrame(content: Octets, end: nat, a: Acts, b: Acts, req: map<Id, Request>, log: seq<(Id, Outcome)>, t: Thread)
    requires Told(content, end, a, req, log) && SameBut(a, b, t) && (t in b ==> !b[t].Replying?)
    ensures Told(content, end, b, req, log)
  {
    hide Truthful, TruthfulOutcome;
  }

  /** `t` does a side step: the chain, the stream and the file stay as they are. */
  ghost predicate SideStep(s: State, w: Witness, n: State, v: Witness, t: Thread) {
    && n == s.(acts := n.acts, failed := n.failed, done := n.done, queue := n.queue)
    && (s.done ==> n.done)
    && SameBut(s.acts, n.acts, t)
    && (t in s.acts ==> Side(s.acts[t])) && (t in n.acts ==> Side(n.acts[t]))
    && v == AfterSide(w, n.acts, t)
    && (t in n.acts && IsPost(n.acts[t]) ==> t in s.acts && IsPost(s.acts[t]) && s.acts[t].h == n.acts[t].h)
    && (!n.done ==> n.queue <= s.queue || (w.post == Some(t) && v.post.None? && n.queue == s.queue + 1))
  }

  /** The witness after a side step of `t`. */
  function AfterSide(w: Witness, acts: Acts, t: Thread): Witness {
    w.(post := if t in acts && IsPost(acts[t]) then Some(t) else if w.post == Some(t) then None else w.post)
  }

  lemma SideThreads(s: State, w: Witness, n: State, v: Witness, t: Thread)
    requires Threads(s.acts, w.tok, w.post) && SideStep(s, w, n, v, t)
    ensures Threads(n.acts, v.tok, v.post) && At(n.acts, v.tok) == At(s.acts, w.tok)
    ensures At(n.acts, v.post).Installing? == At(s.acts, w.post).Installing?
    ensures At(n.acts, v.post).Installing? ==> At(n.acts, v.post) == At(s.acts, w.post)
    ensures v.post.Some? ==> w.post == v.post && At(n.acts, v.post).h == At(s.acts, w.post).h
  {
  }

  lemma SideHistory(s: State, w: Witness, n: State, v: Witness, t: Thread)
    requires Threads(s.acts, w.tok, w.post) && SideStep(s, w, n, v, t) && History(s, w)
    ensures History(n, v)
  {
    hide Ledger, Told;
    SideThreads(s, w, n, v, t);
    LedgerFrame(s.nodes, s.acts, n.acts, s.req, s.log, At(s.acts, w.tok), At(n.acts, v.tok), w.place, t);
    ToldFrame(s.source.bytes, End(s), s.acts, n.acts, s.req, s.log, t);
  }

  lemma SideStructure(s: State, w: Witness, n: State, v: Witness, t: Thread)
    requires Structure(s, w) && SideStep(s, w, n, v, t) && s.created
    ensures Structure(n, v) && n.source == s.source
  {
    hide Chain;
    SideThreads(s, w, n, v, t);
  }

  lemma SideData(s: State, w: Witness, n: State, v: Witness, t: Thread)
    requires Threads(s.acts, w.tok, w.post) && SideStep(s, w, n, v, t) && Data(s, w)
    ensures Data(n, v)
  {
    hide Bytes, Truthful;
    SideThreads(s, w, n, v, t);
  }

  lemma SideOwnership(s: State, w: Witness, n: State, v: Witness, t: Thread)
    requires Threads(s.acts, w.tok, w.post) && Head(s.acts, s.slot, w.c, w.tok) && Control(s, w)
    requires SideStep(s, w, n, v, t) && s.created
    ensures Ownership(n, v.tok, v.post)
  {
    SideThreads(s, w, n, v, t);
  }

  /** What a side step must respect: the flags mean what they say, and a handler in the slot of a
      finished operation is not forgotten. */
  ghost predicate Respects(s: State, n: State, v: Witness, t: Thread) {
    && (n.done ==> n.failed || Finishing(n.worker))
    && (n.failed || Finishing(n.worker) || (n.failed == s.failed && (t in n.acts ==> !n.acts[t].FailDone?)))
    && (t in n.acts && (n.acts[t].SawDone? || n.acts[t].Stranding? || n.acts[t].Delivering? || n.acts[t].FailClaim?) ==> n.done)
    && (t in n.acts && n.acts[t].Delivering? ==> Finishing(n.worker))
    && (n.slot.Some? && (n.done || n.paused) ==> v.post.Some? || n.queue > 0 || (t in n.acts && IsFail(n.acts[t])) || Elsewhere(s, t))
  }

  /** Somebody other than `t` is coming for the slot. */
  ghost predicate Elsewhere(s: State, t: Thread) {
    || (!s.worker.Transferring? && !s.worker.Ended?)
    || (exists x :: x in s.acts && x != t && IsFail(s.acts[x]))
  }

  lemma SideControl(s: State, w: Witness, n: State, v: Witness, t: Thread)
    requires Flags(s) && SideStep(s, w, n, v, t) && Respects(s, n, v, t)
    ensures Flags(n) && Claimed(n, v.post)
  {
    if n.slot.Some? && (n.done || n.paused) && Elsewhere(s, t) && !(!s.worker.Transferring? && !s.worker.Ended?) {
      var x :| x in s.acts && x != t && IsFail(s.acts[x]);
      assert x in n.acts && IsFail(n.acts[x]);
    }
  }

  lemma KeepsSide(g: Good, n: State, v: Witness, t: Thread) returns (k: Good)
    requires SideStep(g.s, g.w, n, v, t) && g.s.created && Respects(g.s, n, v, t)
    ensures k.s.source == g.s.source
    ensures k == Snapshot(n, v)
  {
    hide Threads, Chain, Head, Tail, Birth, Ownership, Claimed, Flags, Data, History, Respects, SideStep;
    SideStructure(g.s, g.w, n, v, t);
    SideOwnership(g.s, g.w, n, v, t);
    SideControl(g.s, g.w, n, v, t);
    SideData(g.s, g.w, n, v, t);
    SideHistory(g.s, g.w, n, v, t);
    k := Snapshot(n, v);
  }

  /** A continuation looks at `done` and then at `failed`. */
  lemma KeepsLooking(g: Good, t: Thread, a: Activity) returns (k: Good)
    requires g.s.created && t in g.s.acts
    requires match g.s.acts[t]
             case Loading(h) => a == if g.s.done then SawDone(h) else Enqueueing(h)
             case SawDone(h) => a == if g.s.failed then Stranding(h) else Delivering(h)
             case _ => false
    ensures k.s.source == g.s.source
    ensures k.s == g.s.(acts := g.s.acts[t := a])
  {
    hide Chain, Head, Tail, Birth, Ownership, Claimed, Data, History;
    var n := g.s.(acts := g.s.acts[t := a]);
    k := KeepsSide(g, n, AfterSide(g.w, n.acts, t), t);
  }

  lemma KeepsEnqueue(g: Good, t: Thread, accepted: bool) returns (k: Good)
    requires g.s.created && t in g.s.acts && g.s.acts[t].Enqueueing?
    ensures k.s.source == g.s.source
    ensures k.s == Enqueue(g.s, t, accepted)
  {
    hide Chain, Head, Tail, Birth, Ownership, Claimed, Data, History;
    var n := Enqueue(g.s, t, accepted);
    k := KeepsSide(g, n, AfterSide(g.w, n.acts, t), t);
  }

  /** The stores of Fail(). */
  lemma FailFlagRespects(g: Good, n: State, t: Thread)
    requires g.s.created && t in g.s.acts && g.s.acts[t].FailFlag?
    requires n == g.s.(failed := true, acts := g.s.acts[t := FailDone])
    ensures SideStep(g.s, g.w, n, g.w, t) && Respects(g.s, n, g.w, t)
  {
    hide Chain, Head, Tail, Birth, Ownership, Claimed, Data, History, Elsewhere;
  }

  lemma KeepsFailFlag(g: Good, t: Thread) returns (k: Good)
    requires g.s.created && t in g.s.acts && g.s.acts[t].FailFlag?
    ensures k.s.source == g.s.source
    ensures k.s == g.s.(failed := true, acts := g.s.acts[t := FailDone])
  {
    hide Holds, SideStep, Respects;
    var n := g.s.(failed := true, acts := g.s.acts[t := FailDone]);
    FailFlagRespects(g, n, t);
    k := KeepsSide(g, n, g.w, t);
  }

  lemma KeepsFailDone(g: Good, t: Thread) returns (k: Good)
    requires g.s.created && t in g.s.acts && g.s.acts[t].FailDone?
    ensures k.s.source == g.s.source
    ensures k.s == g.s.(done := true, acts := g.s.acts[t := FailClaim])
  {
    hide Chain, Head, Tail, Birth, Ownership, Claimed, Data, History;
    k := KeepsSide(g, g.s.(done := true, acts := g.s.acts[t := FailClaim]), g.w, t);
  }

  /** Fail() found no handler; it falls back to the default handler. */
  lemma KeepsFailLost(g: Good, t: Thread) returns (k: Good)
    requires g.s.created && t in g.s.acts && g.s.acts[t].FailClaim? && g.s.slot.None?
    ensures k.s.source == g.s.source
    ensures k.s == g.s.(acts := g.s.acts[t := Disabling])
  {
    hide Chain, Head, Tail, Birth, Ownership, Claimed, Data, History;
    k := KeepsSide(g, g.s.(acts := g.s.acts[t := Disabling]), g.w, t);
  }

  lemma KeepsFailNow(g: Good, u: Thread, queue: nat) returns (k: Good)
    requires g.s.created && u !in g.s.acts && queue <= g.s.queue
    ensures k.s.source == g.s.source
    ensures k.s == g.s.(acts := g.s.acts[u := FailFlag], queue := queue)
  {
    hide Chain, Head, Tail, Birth, Ownership, Claimed, Data, History;
    k := KeepsSide(g, g.s.(acts := g.s.acts[u := FailFlag], queue := queue), g.w, u);
  }

  // ---- Exchanging the slot.

  /** `u` takes the handler out of the slot and goes on with `a`. */
  ghost predicate ClaimStep(s: State, w: Witness, n: State, v: Witness, u: Thread, a: Activity) {
    && s.slot.Some? && (a.Building? || a.Handling?) && a.h == s.slot.value
    && n == s.(slot := None, acts := s.acts[u := a], worker := n.worker, queue := n.queue)
    && (u in s.acts ==> IsPost(s.acts[u]) || s.acts[u].FailClaim?)
    && v == w.(tok := Some(u), post := if w.post == Some(u) then None else w.post)
  }

  lemma ClaimStructure(s: State, w: Witness, n: State, v: Witness, u: Thread, a: Activity)
    requires Structure(s, w) && ClaimStep(s, w, n, v, u, a) && s.created
    ensures Structure(n, v) && At(n.acts, v.tok) == a && w.tok.None?
    ensures v.post.Some? ==> v.post == w.post && At(n.acts, v.post) == At(s.acts, w.post)
  {
    hide Chain;
  }

  lemma ClaimControl(s: State, w: Witness, n: State, v: Witness, u: Thread, a: Activity)
    requires Structure(s, w) && Control(s, w) && ClaimStep(s, w, n, v, u, a) && s.created
    requires if a.Building? || a.r.Ok? then !Busy(n.created, n.paused, n.worker) && v.post.None? else n.done
    requires n.done || n.queue == 0
    requires Busy(n.created, n.paused, n.worker) ==> Busy(s.created, s.paused, s.worker)
    requires || n.worker == s.worker || (n.worker.Ended? && n.done && Finishing(s.worker))
             || (n.worker.Transferring? && s.worker.Pausing?)
    ensures Control(n, v)
  {
    hide Chain, Tail, Birth;
    ClaimStructure(s, w, n, v, u, a);
  }

  lemma ClaimHistory(s: State, w: Witness, n: State, v: Witness, u: Thread, a: Activity)
    requires Threads(s.acts, w.tok, w.post) && Head(s.acts, s.slot, w.c, w.tok) && History(s, w)
    requires ClaimStep(s, w, n, v, u, a)
    ensures History(n, v)
  {
    hide Ledger, Told;
    LedgerFrame(s.nodes, s.acts, n.acts, s.req, s.log, At(s.acts, w.tok), At(n.acts, v.tok), w.place, u);
    ToldFrame(s.source.bytes, End(s), s.acts, n.acts, s.req, s.log, u);
  }

  /** Claiming for an error leaves the stream alone. */
  lemma ClaimErrorData(s: State, w: Witness, n: State, v: Witness, u: Thread, h: Id)
    requires Structure(s, w) && Data(s, w) && ClaimStep(s, w, n, v, u, Handling(h, Error)) && s.created && n.done
    ensures Data(n, v)
  {
    hide Bytes;
    ClaimStructure(s, w, n, v, u, Handling(h, Error));
    hide Chain, Tail, Birth, Threads;
  }

  lemma KeepsClaimError(g: Good, n: State, u: Thread) returns (k: Good)
    requires g.s.created && g.s.slot.Some? && g.s.done && (u in g.s.acts ==> IsPost(g.s.acts[u]) || g.s.acts[u].FailClaim?)
    requires n == g.s.(slot := None, acts := g.s.acts[u := Handling(g.s.slot.value, Error)], queue := n.queue)
    ensures k.s.source == g.s.source
    ensures k.s == n
  {
    var h := g.s.slot.value;
    var v := g.w.(tok := Some(u), post := if g.w.post == Some(u) then None else g.w.post);
    hide Threads, Chain, Head, Tail, Birth, Ownership, Claimed, Flags, Data, History;
    ClaimStructure(g.s, g.w, n, v, u, Handling(h, Error));
    ClaimControl(g.s, g.w, n, v, u, Handling(h, Error));
    ClaimErrorData(g.s, g.w, n, v, u, h);
    ClaimHistory(g.s, g.w, n, v, u, Handling(h, Error));
    k := Snapshot(n, v);
  }
}
