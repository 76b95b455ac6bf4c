/** Closing the file at different moments of one run: what can and what cannot go wrong. */
module PrefetchCloseRuns {
  import opened ReadStream
  import opened PrefetchProtocol
  import opened PrefetchInvariant
  import opened PrefetchTheorems
  import opened PrefetchRuns
  import opened PrefetchCancel
  import opened PrefetchClose

  predicate Free(s: State) {
    7 !in s.req && 7 !in s.acts
  }

  lemma LatePausing()
    ensures var s := LateStage(3); Wakes(s) && Exposed(s) && !Answering(s) && s.worker.Pausing? && Free(s) && s.req.Keys <= {0}
  {
  }

  lemma LateHandling()
    ensures var s := LateStage(5); Wakes(s) && !Exposed(s) && 0 in s.nodes && Free(s)
  {
  }

  lemma LateStoring()
    ensures var s := LateStage(7); Wakes(s) && Exposed(s) && !Answering(s) && s.slot.None? && Free(s)
  {
    assert LateStage(7).acts[2].Storing?;
  }

  lemma LateStored()
    ensures var s := LateStage(8); Wakes(s) && Exposed(s) && !Answering(s) && s.slot.Some? && Free(s)
  {
  }

  lemma LateGood(m: nat) returns (es: seq<Event>, g: Good)
    requires m <= 11
    ensures Legal(Init("ab"), es) && g.s == Exec(Init("ab"), es) && g.s == LateStage(m)
  {
    hide Legal, Exec, Holds, LateStage;
    LatePrefix(m);
    es := Late()[..m];
    g := Reachable("ab", es);
  }

  /** The lock is taken while the worker is between its pause flag and its exchange: the only read there is
      can be lost. */
  lemma CloseInPause() returns (es: seq<Event>)
    ensures Legal(Init("ab"), es)
    ensures var s := Exec(Init("ab"), es);
            Wakes(s) && s.worker.Pausing? && s.req.Keys <= {0} && CanLose(Lock(s, 7, 7), 7)
  {
    LatePausing();
    hide Legal, Exec, LateStage, Wakes, Exposed, Answering, CanLose, CanHarm, CanMisinform, Holds, Lock;
    var g;
    es, g := LateGood(3);
    ExposedHarms(g, 7, 7);
  }

  lemma LateBuilding()
    ensures var s := LateStage(4);
            && Wakes(s) && s.slot.None? && Free(s) && s.req.Keys <= {0} && 0 in s.acts && s.acts[0] == Building(0)
            && Answer(Chunk(Install(s.stream, 1), false)) == Misled(0, [])
  {
  }

  /** The lock is taken between the exchange and the look at the buffer: the read that asked for the first
      byte, and whose buffer holds it, can be told success with zero bytes. */
  lemma CloseInDelivery() returns (es: seq<Event>)
    ensures Legal(Init("ab"), es)
    ensures var s := Exec(Init("ab"), es);
            Wakes(s) && s.slot.None? && s.req.Keys <= {0} && CanTell(Lock(s, 7, 7), 0, Misled(0, []))
  {
    LateBuilding();
    hide Legal, Exec, LateStage, Wakes, CanTell, Holds, Lock, Answer, Chunk, Install;
    var g;
    es, g := LateGood(4);
    BuildingTells(g, 7, 7, 0);
  }

  /** Once the answer is built nothing can go wrong, although the read has not been told yet. */
  lemma CloseInResponse() returns (es: seq<Event>)
    ensures Legal(Init("ab"), es)
    ensures var s := Exec(Init("ab"), es);
            Wakes(s) && 0 in s.nodes && !CanHarm(Lock(s, 7, 7), 7)
  {
    LateHandling();
    hide Legal, Exec, LateStage, Wakes, Exposed, Answering, CanLose, CanHarm, CanMisinform, Holds, Lock;
    var g;
    es, g := LateGood(5);
    WokenSafe(g, 7, 7);
  }

  /** A second read arrives while the transfer is paused: it can be lost as soon as it is about to store its
      handler, and still after it has. */
  lemma CloseOnSecondRead(stored: bool) returns (es: seq<Event>)
    ensures Legal(Init("ab"), es)
    ensures var s := Exec(Init("ab"), es);
            Wakes(s) && s.slot.Some? == stored && CanLose(Lock(s, 7, 7), 7)
  {
    LateStoring();
    LateStored();
    hide Legal, Exec, LateStage, Wakes, Exposed, Answering, CanLose, CanHarm, CanMisinform, Holds, Lock;
    var g;
    es, g := LateGood(if stored then 8 else 7);
    ExposedHarms(g, 7, 7);
  }
}
