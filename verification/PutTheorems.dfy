/** What every interleaving of an upload keeps. */
module PutTheorems {
  import opened Common
  import opened PutPipeline

  // ---- Sequences of writes.

  lemma ConcatAppend(ws: seq<Write>, w: Write)
    ensures Concat(ws + [w]) == Concat(ws) + w.data
  {
    assert (ws + [w])[..|ws|] == ws;
  }

  lemma {:induction false} IdsAppend(ws: seq<Write>, w: Write)
    ensures Ids(ws + [w]) == Ids(ws) + [w.id]
  {
    if ws == [] {
      assert ws + [w] == [w] && [w][1..] == [];
    } else {
      assert (ws + [w])[1..] == ws[1..] + [w];
      IdsAppend(ws[1..], w);
    }
  }

  lemma ToldAppend(ts: seq<(nat, bool)>, t: (nat, bool))
    ensures Told(ts + [t]) == Told(ts) + [t.0]
  {
    assert (ts + [t])[..|ts|] == ts;
  }

  lemma NoIds(ws: seq<Write>)
    requires |ws| == 0
    ensures Ids(ws) == []
  {
  }

  /** A later write does not move the end. */
  lemma EndStays(ws: seq<Write>, w: Write, body: Octets, m: nat)
    requires EndsAt(ws, m) && body == Concat(ws[..m])
    ensures EndsAt(ws + [w], m) && body == Concat((ws + [w])[..m])
  {
    assert (ws + [w])[..m] == ws[..m];
  }

  lemma CallCounts(ts: seq<(nat, bool)>, w: Worker)
    requires w.Calling?
    ensures Told(ts + CalledNow(w)) + Due(AfterCall(w)) == Told(ts) + Due(w)
  {
    if w.ids == [] {
      assert ts + [] == ts;
    } else {
      ToldAppend(ts, (w.ids[0], w.ok));
      assert w.ids == [w.ids[0]] + w.ids[1..];
    }
  }

  lemma Regroup(a: seq<nat>, b: seq<nat>, c: seq<nat>)
    ensures (a + []) + (b + c) == (a + b) + c == (a + b) + ([] + c)
  {
  }

  lemma Regroup3(a: seq<nat>, b: seq<nat>, c: seq<nat>, d: seq<nat>)
    ensures (a + (b + c)) + d == a + (b + (c + d))
    ensures b == [] && c == [] ==> (a + (b + c)) + d == a + (d + [])
  {
  }

  lemma IdsHead(ws: seq<Write>)
    requires |ws| > 0
    ensures Ids(ws) == [ws[0].id] + Ids(ws[1..])
  {
  }

  lemma {:induction false} IdsLength(ws: seq<Write>)
    ensures |Ids(ws)| == |ws|
  {
    if ws != [] {
      IdsLength(ws[1..]);
    }
  }

  lemma {:induction false} ToldLength(ts: seq<(nat, bool)>)
    ensures |Told(ts)| == |ts|
  {
    if ts != [] {
      ToldLength(ts[..|ts| - 1]);
    }
  }

  /** The accepted writes are counted by where their handlers are. */
  lemma Lengths(s: State)
    requires Handlers(s)
    ensures |s.accepted| == |s.told| + |Due(s.worker)| + |One(s.activeId)| + |s.pending|
  {
    hide Ids, Told;
    IdsLength(s.accepted);
    IdsLength(s.pending);
    ToldLength(s.told);
  }

  // ---- Steps that only move control.

  lemma OfferKeeps(s: State, w: Write, o: nat)
    requires Inv(s) && Possible(s, Offer(w, o))
    ensures Inv(Apply(s, Offer(w, o)))
  {
    hide Ids, Concat, Told, One, EndsAt;
  }

  lemma LoadActiveKeeps(s: State)
    requires Inv(s) && Possible(s, LoadActive)
    ensures Inv(Apply(s, LoadActive))
  {
    hide Ids, Concat, Told, One, EndsAt;
  }

  lemma DrainKeeps(s: State)
    requires Inv(s) && Possible(s, Drain)
    ensures Inv(Apply(s, Drain))
  {
    hide Ids, Concat, Told, One, EndsAt;
  }

  lemma SucceedKeeps(s: State)
    requires Inv(s) && Possible(s, Succeed)
    ensures Inv(Apply(s, Succeed))
  {
    hide Ids, Concat, Told, One, EndsAt;
  }

  lemma FailKeeps(s: State)
    requires Inv(s) && Possible(s, Fail)
    ensures Inv(Apply(s, Fail))
  {
    hide Ids, Concat, Told, One, EndsAt;
  }

  lemma ReadKeeps(s: State, n: nat)
    requires Inv(s) && Possible(s, Read(n))
    ensures Inv(Apply(s, Read(n)))
  {
    hide Ids, Concat, Told, One, EndsAt;
  }

  // ---- A write is queued or started.

  lemma EnlistControl(s: State)
    requires Control(s) && Possible(s, Enlist)
    ensures Control(Apply(s, Enlist))
  {
    hide Ids, Concat, Told;
  }

  lemma EnlistHandlers(s: State)
    requires Control(s) && Handlers(s) && Possible(s, Enlist)
    ensures Handlers(Apply(s, Enlist))
  {
    hide Ids, Concat, Told;
    var w := s.client.w;
    IdsAppend(s.accepted, w);
    IdsAppend(s.pending, w);
    Regroup3(Told(s.told) + Due(s.worker), One(s.activeId), Ids(s.pending), [w.id]);
    if !s.active {
      NoIds(s.pending);
    }
  }

  lemma EnlistData(s: State)
    requires Control(s) && Data(s) && Possible(s, Enlist)
    ensures Data(Apply(s, Enlist))
  {
    hide Ids, Concat, Told;
    var w, n := s.client.w, Started(s);
    var after := s.accepted + [w];
    ConcatAppend(s.accepted, w);
    if s.active {
      assert after[n..] == s.pending + [w] && after[..n] == s.accepted[..n];
    } else {
      assert s.accepted[..n] == s.accepted && after[..n + 1] == after && after[n + 1..] == s.pending;
    }
  }

  lemma EnlistEnding(s: State)
    requires Control(s) && Ending(s) && Possible(s, Enlist) && Data(s)
    ensures Ending(Apply(s, Enlist))
  {
    hide Ids, Concat, Told;
    var w, n := s.client.w, Started(s);
    if Ended(s) {
      var m: nat :| EndsAt(s.accepted, m) && s.body == Concat(s.accepted[..m]);
      EndStays(s.accepted, w, s.body, m);
    }
    if !s.active && w.data == [] && !s.done {
      assert s.accepted[..n] == s.accepted && (s.accepted + [w])[..n] == s.accepted;
      assert EndsAt(s.accepted + [w], n);
    }
  }

  lemma EnlistAcked(s: State)
    requires Control(s) && Handlers(s) && Data(s) && Acked(s) && Possible(s, Enlist)
    ensures Acked(Apply(s, Enlist))
  {
    hide Ids, Concat, Told;
    forall i: nat | Sent(s.accepted, s.body, i) ensures Sent(s.accepted + [s.client.w], s.body, i) {
      assert (s.accepted + [s.client.w])[..i + 1] == s.accepted[..i + 1];
    }
  }

  lemma EnlistBlamed(s: State)
    requires Control(s) && Blamed(s) && Possible(s, Enlist)
    ensures Blamed(Apply(s, Enlist))
  {
    hide Ids, Concat, Told;
  }

  lemma EnlistOffsets(s: State)
    requires Control(s) && Handlers(s) && Data(s) && Offsets(s) && Possible(s, Enlist)
    ensures Offsets(Apply(s, Enlist))
  {
    hide Ids, Concat, Told;
    ConcatAppend(s.accepted, s.client.w);
  }

  lemma EnlistKeeps(s: State)
    requires Inv(s) && Possible(s, Enlist)
    ensures Inv(Apply(s, Enlist))
  {
    hide Control, Handlers, Data, Ending, Acked, Blamed, Offsets, Apply;
    EnlistControl(s);
    EnlistHandlers(s);
    EnlistData(s);
    EnlistEnding(s);
    EnlistAcked(s);
    EnlistBlamed(s);
    EnlistOffsets(s);
  }

  // ---- The next write is started.

  lemma ProcessControl(s: State)
    requires Control(s) && Possible(s, Process)
    ensures Control(Apply(s, Process))
  {
    hide Ids, Concat, Told;
  }

  lemma ProcessHandlers(s: State)
    requires Control(s) && Handlers(s) && Possible(s, Process)
    ensures Handlers(Apply(s, Process))
  {
    hide Concat, Told, Ids;
    Regroup(Told(s.told), One(s.activeId), Ids(s.pending));
    if |s.pending| > 0 {
      IdsHead(s.pending);
    } else {
      NoIds(s.pending);
    }
  }

  lemma ProcessData(s: State)
    requires Control(s) && Data(s) && Possible(s, Process)
    ensures Data(Apply(s, Process))
  {
    hide Ids, Concat, Told;
    var n := Started(s);
    if |s.pending| > 0 {
      var w := s.pending[0];
      assert s.accepted[n] == s.accepted[n..][0] == w;
      assert s.accepted[..n + 1] == s.accepted[..n] + [w] && s.accepted[n + 1..] == s.pending[1..];
      ConcatAppend(s.accepted[..n], w);
    }
  }

  lemma ProcessEnding(s: State)
    requires Control(s) && Ending(s) && Possible(s, Process) && Data(s)
    ensures Ending(Apply(s, Process))
  {
    hide Ids, Concat, Told;
    var n := Started(s);
    if |s.pending| > 0 && !s.done {
      assert s.accepted[n] == s.accepted[n..][0] == s.pending[0];
      assert s.pending[0].data == [] ==> EndsAt(s.accepted, n);
    }
  }

  lemma ProcessAcked(s: State)
    requires Control(s) && Handlers(s) && Data(s) && Acked(s) && Possible(s, Process)
    ensures Acked(Apply(s, Process))
  {
    hide Ids, Concat, Told;
    Lengths(s);
    assert s.body + [] == s.body;
    assert Sent(s.accepted, s.body, |s.told|);
  }

  lemma ProcessBlamed(s: State)
    requires Control(s) && Blamed(s) && Possible(s, Process)
    ensures Blamed(Apply(s, Process))
  {
    hide Ids, Concat, Told;
  }

  lemma ProcessOffsets(s: State)
    requires Control(s) && Handlers(s) && Data(s) && Offsets(s) && Possible(s, Process)
    ensures Offsets(Apply(s, Process))
  {
    hide Ids, Concat, Told;
  }

  lemma ProcessKeeps(s: State)
    requires Inv(s) && Possible(s, Process)
    ensures Inv(Apply(s, Process))
  {
    hide Control, Handlers, Data, Ending, Acked, Blamed, Offsets, Apply;
    ProcessControl(s);
    ProcessHandlers(s);
    ProcessData(s);
    ProcessEnding(s);
    ProcessAcked(s);
    ProcessBlamed(s);
    ProcessOffsets(s);
  }

  // ---- All writes are given up.

  lemma FailAllControl(s: State)
    requires Control(s) && Possible(s, FailAll)
    ensures Control(Apply(s, FailAll))
  {
    hide Ids, Concat, Told;
  }

  lemma FailAllHandlers(s: State)
    requires Control(s) && Handlers(s) && Possible(s, FailAll)
    ensures Handlers(Apply(s, FailAll))
  {
    hide Concat, Told, Ids;
    Regroup(Told(s.told), One(s.activeId) + Ids(s.pending), []);
    NoIds([]);
  }

  lemma FailAllData(s: State)
    requires Control(s) && Data(s) && Possible(s, FailAll)
    ensures Data(Apply(s, FailAll))
  {
    hide Ids, Concat, Told;
  }

  lemma FailAllEnding(s: State)
    requires Control(s) && Ending(s) && Possible(s, FailAll) && Data(s)
    ensures Ending(Apply(s, FailAll))
  {
    hide Ids, Concat, Told;
  }

  lemma FailAllAcked(s: State)
    requires Control(s) && Handlers(s) && Data(s) && Acked(s) && Possible(s, FailAll)
    ensures Acked(Apply(s, FailAll))
  {
    hide Ids, Concat, Told;
  }

  lemma FailAllBlamed(s: State)
    requires Control(s) && Blamed(s) && Possible(s, FailAll)
    ensures Blamed(Apply(s, FailAll))
  {
    hide Ids, Concat, Told;
  }

  lemma FailAllOffsets(s: State)
    requires Control(s) && Handlers(s) && Data(s) && Offsets(s) && Possible(s, FailAll)
    ensures Offsets(Apply(s, FailAll))
  {
    hide Ids, Concat, Told;
  }

  lemma FailAllKeeps(s: State)
    requires Inv(s) && Possible(s, FailAll)
    ensures Inv(Apply(s, FailAll))
  {
    hide Control, Handlers, Data, Ending, Acked, Blamed, Offsets, Apply;
    FailAllControl(s);
    FailAllHandlers(s);
    FailAllData(s);
    FailAllEnding(s);
    FailAllAcked(s);
    FailAllBlamed(s);
    FailAllOffsets(s);
  }

  // ---- A handler is called.

  lemma CallControl(s: State)
    requires Control(s) && Possible(s, Call)
    ensures Control(Apply(s, Call))
  {
    hide Ids, Concat, Told, CalledNow, AfterCall;
  }

  lemma CallHandlers(s: State)
    requires Control(s) && Handlers(s) && Possible(s, Call)
    ensures Handlers(Apply(s, Call))
  {
    hide Ids, Concat, One;
    CallCounts(s.told, s.worker);
  }

  lemma CallData(s: State)
    requires Control(s) && Data(s) && Possible(s, Call)
    ensures Data(Apply(s, Call))
  {
    hide Ids, Concat, Told, CalledNow, AfterCall;
  }

  lemma CallEnding(s: State)
    requires Control(s) && Ending(s) && Possible(s, Call) && Data(s)
    ensures Ending(Apply(s, Call))
  {
    hide Ids, Concat, Told, CalledNow, AfterCall;
  }

  lemma CallAcked(s: State)
    requires Control(s) && Handlers(s) && Data(s) && Acked(s) && Possible(s, Call)
    ensures Acked(Apply(s, Call))
  {
    hide Ids, Concat, Told;
  }

  lemma CallBlamed(s: State)
    requires Control(s) && Blamed(s) && Possible(s, Call)
    ensures Blamed(Apply(s, Call))
  {
    hide Ids, Concat, Told;
  }

  lemma CallOffsets(s: State)
    requires Control(s) && Handlers(s) && Data(s) && Offsets(s) && Possible(s, Call)
    ensures Offsets(Apply(s, Call))
  {
    hide Ids, Concat, Told;
  }

  lemma CallKeeps(s: State)
    requires Inv(s) && Possible(s, Call)
    ensures Inv(Apply(s, Call))
  {
    hide Control, Handlers, Data, Ending, Acked, Blamed, Offsets, Apply;
    CallControl(s);
    CallHandlers(s);
    CallData(s);
    CallEnding(s);
    CallAcked(s);
    CallBlamed(s);
    CallOffsets(s);
  }

  /** Every step keeps the invariant. */
  lemma StepKeeps(s: State, e: Event)
    requires Inv(s) && Possible(s, e)
    ensures Inv(Apply(s, e))
  {
    hide Inv, Apply, Possible;
    match e
    case Offer(w, o) => OfferKeeps(s, w, o);
    case Enlist => EnlistKeeps(s);
    case Read(n) => ReadKeeps(s, n);
    case LoadActive => LoadActiveKeeps(s);
    case Process => ProcessKeeps(s);
    case FailAll => FailAllKeeps(s);
    case Call => CallKeeps(s);
    case Drain => DrainKeeps(s);
    case Succeed => SucceedKeeps(s);
    case Fail => FailKeeps(s);
  }

  // ---- Whole runs.

  lemma CreateGood(w: Write)
    ensures Inv(Create(w))
  {
    var s := Create(w);
    assert [w][1..] == [] && [w][..1] == [w] && [w][..0] == [];
    assert Concat([w]) == Concat([]) + w.data;
    IdsAppend([], w);
    assert [] + [w] == [w];
  }

  lemma {:induction false} RunKeeps(s: State, es: seq<Event>)
    requires Inv(s) && Legal(s, es)
    ensures Inv(Exec(s, es))
    decreases |es|
  {
    hide Inv, Apply, Possible;
    if es != [] {
      StepKeeps(s, es[0]);
      RunKeeps(Apply(s, es[0]), es[1..]);
    }
  }

  lemma Reached(w: Write, es: seq<Event>)
    requires Legal(Create(w), es)
    ensures Inv(Exec(Create(w), es))
  {
    hide Inv, Create;
    CreateGood(w);
    RunKeeps(Create(w), es);
  }

  lemma {:induction false} ConcatSplit(a: seq<Write>, b: seq<Write>)
    ensures Concat(a + b) == Concat(a) + Concat(b)
    decreases |b|
  {
    if b == [] {
      assert a + b == a;
    } else {
      var init, last := b[..|b| - 1], b[|b| - 1];
      hide Concat;
      assert a + b == (a + init) + [last] && b == init + [last];
      ConcatAppend(a + init, last);
      ConcatAppend(init, last);
      ConcatSplit(a, init);
    }
  }

  /** No byte is lost, repeated or reordered: until a failure gives writes up, what libcurl was given, what
      it is being given and what is queued are together exactly the accepted writes, in order. */
  lemma BodyConserved(w: Write, es: seq<Event>)
    requires Legal(Create(w), es)
    ensures var s := Exec(Create(w), es);
            !s.lost ==> s.body + s.view + Concat(s.pending) == Concat(s.accepted)
  {
    hide Legal, Exec, Create, Concat;
    Reached(w, es);
    var s := Exec(Create(w), es);
    ConcatSplit(s.accepted[..Started(s)], s.pending);
    assert s.accepted[..Started(s)] + s.pending == s.accepted;
  }

  /** Response handlers are called once each and in the order of the writes; and when the operation is
      over, its continue queue empty and both threads idle, all have been called. */
  lemma HandlersOnce(w: Write, es: seq<Event>)
    requires Legal(Create(w), es)
    ensures var s := Exec(Create(w), es);
            && Told(s.told) <= Ids(s.accepted)
            && (s.done && s.conts == 0 && s.worker.Ready? && s.client.Free? ==> Told(s.told) == Ids(s.accepted))
  {
    hide Legal, Exec, Create, Told;
    Reached(w, es);
    var s := Exec(Create(w), es);
    if s.done && s.conts == 0 && s.worker.Ready? {
      NoIds(s.pending);
    }
  }

  /** A write that was told of success has been given to libcurl entirely, after all earlier ones. */
  lemma SuccessMeansSent(w: Write, es: seq<Event>, i: nat)
    requires Legal(Create(w), es)
    requires var s := Exec(Create(w), es); i < |s.told| && s.told[i].1
    ensures var s := Exec(Create(w), es);
            i < |s.accepted| && Concat(s.accepted[..i + 1]) <= s.body
  {
    hide Legal, Exec, Create, Concat, Control, Handlers, Data, Ending, Blamed, Offsets;
    Reached(w, es);
    assert Sent(Exec(Create(w), es).accepted, Exec(Create(w), es).body, i);
  }

  /** A write is told of failure only after the operation was over and the writes still queued were given up; until
      then everybody is told of success. */
  lemma FailureMeansOver(w: Write, es: seq<Event>, i: nat)
    requires Legal(Create(w), es)
    requires var s := Exec(Create(w), es); i < |s.told| && !s.told[i].1
    ensures var s := Exec(Create(w), es); s.done && s.lost
  {
    hide Legal, Exec, Create, Concat, Handlers, Data, Ending, Acked, Offsets;
    Reached(w, es);
  }

  /** The end of the body is announced only after all earlier data: the complete body is the data of the
      writes before the first later empty one. */
  lemma EndAfterData(w: Write, es: seq<Event>)
    requires Legal(Create(w), es) && Exec(Create(w), es).eof
    ensures var s := Exec(Create(w), es);
            exists m: nat :: EndsAt(s.accepted, m) && s.body == Concat(s.accepted[..m])
  {
    hide Legal, Exec, Create, Concat, Control, Handlers, Data, Acked, Offsets;
    Reached(w, es);
  }

  /** A write is taken if and only if it was offered where the accepted stream ends and the operation has not
      failed, and an outstanding write of a paused transfer always has a wake-up on its way. */
  lemma OffsetsAndWakeUps(w: Write, es: seq<Event>, v: Write, offset: nat)
    requires Legal(Create(w), es)
    ensures var s := Exec(Create(w), es);
            && (s.client.Free? ==> (Apply(s, Offer(v, offset)).client.Checked? <==> !s.failed && offset == |Concat(s.accepted)|))
            && (s.client.Free? ==> Apply(s, Offer(v, offset)).offset == s.offset + if offset == s.offset then |v.data| else 0)
            && (s.worker.Ready? && s.active && s.paused ==> s.conts > 0)
  {
    hide Legal, Exec, Create, Concat, Handlers, Data, Ending, Acked;
    Reached(w, es);
  }

  /** After a failure of the operation, and only then, no write is taken any more. */
  lemma {:induction false} FailureRemembered(s: State, es: seq<Event>)
    requires Legal(s, es)
    ensures Exec(s, es).failed <==> s.failed || Fail in es
    decreases |es|
  {
    if es != [] {
      FailedBy(s, es[0]);
      hide Apply, Possible;
      FailureRemembered(Apply(s, es[0]), es[1..]);
      assert es == [es[0]] + es[1..];
    }
  }

  lemma FailedBy(s: State, e: Event)
    requires Possible(s, e)
    ensures Apply(s, e).failed <==> s.failed || e.Fail?
  {
    hide Ids, One, CalledNow, AfterCall;
    match e
    case Enlist => FailedEnlist(s);
    case Process => FailedProcess(s);
    case Read(n) => FailedRead(s, n);
    case _ =>
  }

  lemma FailedEnlist(s: State)
    requires Possible(s, Enlist)
    ensures Apply(s, Enlist).failed == s.failed
  {
  }

  lemma FailedProcess(s: State)
    requires Possible(s, Process)
    ensures Apply(s, Process).failed == s.failed
  {
    FailedQueue(s);
    hide One, ProcessQueue;
  }

  lemma FailedQueue(s: State)
    ensures ProcessQueue(s).failed == s.failed
  {
  }

  lemma FailedRead(s: State, n: nat)
    requires Possible(s, Read(n))
    ensures Apply(s, Read(n)).failed == s.failed
  {
  }

  // ---- An empty write ends the body.

  lemma {:induction false} ConcatEmpty(ws: seq<Write>)
    ensures Concat(ws) == [] <==> forall i | 0 <= i < |ws| :: ws[i].data == []
  {
    if ws != [] {
      var init, last := ws[..|ws| - 1], ws[|ws| - 1];
      ConcatEmpty(init);
      assert |Concat(ws)| == |Concat(init)| + |last.data|;
      if forall i | 0 <= i < |ws| :: ws[i].data == [] {
        assert last.data == [] && forall i | 0 <= i < |init| :: init[i] == ws[i];
      } else if last.data == [] {
        var i :| 0 <= i < |ws| && ws[i].data != [];
        assert init[i] == ws[i];
      }
    }
  }

  lemma EndSplits(ws: seq<Write>, m: nat, body: Octets)
    requires EndsAt(ws, m) && body == Concat(ws[..m])
    ensures body == Concat(ws) <==> forall i | m < i < |ws| :: ws[i].data == []
  {
    hide Concat;
    var rest := ws[m..];
    assert ws == ws[..m] + rest;
    ConcatSplit(ws[..m], rest);
    ConcatEmpty(rest);
    assert body == Concat(ws) <==> |Concat(rest)| == 0;
    if forall i | m < i < |ws| :: ws[i].data == [] {
      assert forall i | 0 <= i < |rest| :: rest[i] == ws[m + i];
    } else {
      var i :| m < i < |ws| && ws[i].data != [];
      assert rest[i - m] == ws[i];
    }
  }

  /** When the body has ended it is everything that was accepted if and only if every write after the first
      later empty one is empty too. */
  lemma EndIsAllExactly(w: Write, es: seq<Event>) returns (m: nat)
    requires Legal(Create(w), es) && Exec(Create(w), es).eof
    ensures var s := Exec(Create(w), es);
            && EndsAt(s.accepted, m) && s.body == Concat(s.accepted[..m])
            && (s.body == Concat(s.accepted) <==> forall i | m < i < |s.accepted| :: s.accepted[i].data == [])
  {
    hide Legal, Exec, Create, Concat;
    EndAfterData(w, es);
    var s := Exec(Create(w), es);
    m :| EndsAt(s.accepted, m) && s.body == Concat(s.accepted[..m]);
    EndSplits(s.accepted, m, s.body);
  }

  /** An upload of "a", nothing and "b": the writes queue up, and the second ends the body. */
  function Early(): (es: seq<Event>)
    ensures |es| == 12
  {
    [Offer(Write(1, []), 1), Enlist, Offer(Write(2, "b"), 1), Enlist, Read(1), Read(1), LoadActive, Process, Call, Call, Drain, Read(1)]
  }

  function Stage(n: nat): State {
    var a, b, c := Write(0, "a"), Write(1, []), Write(2, "b");
    match n
    case 0 => Create(a)
    case 1 => Upload(true, "a", false, false, 0, Some(0), [], 1, Checked(b), Ready, [], false, [a], [])
    case 2 => Upload(true, "a", false, false, 0, Some(0), [b], 1, Free, Ready, [], false, [a, b], [])
    case 3 => Upload(true, "a", false, false, 0, Some(0), [b], 2, Checked(c), Ready, [], false, [a, b], [])
    case 4 => Upload(true, "a", false, false, 0, Some(0), [b, c], 2, Free, Ready, [], false, [a, b, c], [])
    case 5 => Upload(true, [], false, false, 0, Some(0), [b, c], 2, Free, Ready, "a", false, [a, b, c], [])
    case 6 => Upload(false, [], false, true, 0, Some(0), [b, c], 2, Free, Claimed(true), "a", false, [a, b, c], [])
    case 7 => Upload(false, [], false, true, 0, Some(0), [b, c], 2, Free, Loaded(Some(0)), "a", false, [a, b, c], [])
    case 8 => Upload(true, [], true, true, 1, Some(1), [c], 2, Free, Calling([0], true), "a", false, [a, b, c], [])
    case 9 => Upload(true, [], true, true, 1, Some(1), [c], 2, Free, Calling([], true), "a", false, [a, b, c], [(0, true)])
    case 10 => Upload(true, [], true, true, 1, Some(1), [c], 2, Free, Ready, "a", false, [a, b, c], [(0, true)])
    case 11 => Upload(true, [], true, false, 0, Some(1), [c], 2, Free, Ready, "a", false, [a, b, c], [(0, true)])
    case _ => Upload(true, [], true, false, 0, Some(1), [c], 2, Free, Ready, "a", true, [a, b, c], [(0, true)])
  }

  function Upload(slot: bool, view: Octets, final: bool, paused: bool, conts: nat, activeId: Option<nat>, pending: seq<Write>,
                  offset: nat, client: Client, worker: Worker, body: Octets, eof: bool, accepted: seq<Write>, told: seq<(nat, bool)>): State
  {
    State(slot, view, final, false, false, paused, conts, true, activeId, pending, offset, client, worker, body, eof, accepted, told, false)
  }

  lemma StageClient(n: nat)
    requires n < 4
    ensures Possible(Stage(n), Early()[n]) && Apply(Stage(n), Early()[n]) == Stage(n + 1)
  {
    hide ReadCallback, ProcessQueue;
    var none: seq<Write> := [];
    assert none + [Write(1, [])] == [Write(1, [])];
  }

  lemma StageCallback(n: nat)
    requires n == 4 || n == 5 || n == 6 || n == 11
    ensures Possible(Stage(n), Early()[n]) && Apply(Stage(n), Early()[n]) == Stage(n + 1)
  {
    hide QueueWrite, ProcessQueue;
    var none: Octets := [];
    assert none + "a"[..1] == "a" && "a"[1..] == none;
  }

  lemma StageWorker(n: nat)
    requires 7 <= n < 11
    ensures Possible(Stage(n), Early()[n]) && Apply(Stage(n), Early()[n]) == Stage(n + 1)
  {
    hide QueueWrite, ReadCallback;
    var none: seq<(nat, bool)> := [];
    assert none + [(0, true)] == [(0, true)] && [0][1..] == [] && [(0, true)] + none == [(0, true)];
    assert [Write(1, []), Write(2, "b")][1..] == [Write(2, "b")];
  }

  lemma {:induction false} StagesRun(n: nat)
    requires n <= 12
    ensures Legal(Stage(n), Early()[n..]) && Exec(Stage(n), Early()[n..]) == Stage(12)
    decreases 12 - n
  {
    hide Stage, Apply, Possible;
    if n < 12 {
      if n < 4 { StageClient(n); } else if 7 <= n < 11 { StageWorker(n); } else { StageCallback(n); }
      StagesRun(n + 1);
    }
  }

  lemma StageEnds()
    ensures Stage(0) == Create(Write(0, "a"))
    ensures var s := Stage(12);
            s.eof && s.body == "a" && s.accepted == [Write(0, "a"), Write(1, []), Write(2, "b")] && EndsAt(s.accepted, 1)
  {
  }

  /** So accepted data can be left out: the body ends although a later write was accepted, and it is "a". */
  lemma EarlyEnd()
    ensures Legal(Create(Write(0, "a")), Early())
    ensures var s := Exec(Create(Write(0, "a")), Early());
            s.eof && s.body == "a" && s.accepted == [Write(0, "a"), Write(1, []), Write(2, "b")] && s.body != Concat(s.accepted)
  {
    hide Legal, Exec, Stage, Create, Early;
    StagesRun(0);
    StageEnds();
    assert Early()[0..] == Early();
    EarlyConcat();
    EndSplits(Stage(12).accepted, 1, "a");
  }

  lemma EarlyConcat()
    ensures Concat([Write(0, "a"), Write(1, []), Write(2, "b")][..1]) == "a"
  {
    var w := Write(0, "a");
    assert [w, Write(1, []), Write(2, "b")][..1] == [w] && [] + [w] == [w];
    ConcatAppend([], w);
  }
}
