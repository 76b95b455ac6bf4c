/** What each step of the prefetch protocol tells the users' handlers. */
module PrefetchLog {
  import opened Common
  import opened ReadStream
  import opened PrefetchProtocol
  import opened PrefetchInvariant

  /** What the next step of an activity tells, if anything. */
  function Says(alive: bool, a: Activity, choice: bool): Option<(Id, Outcome)> {
    match a
    case Replying(h, r) => Some((h, Answer(r)))
    case Resubmitting(h, r) => if alive then None else Some((h, if r.Ok? then Hollow else Refused))
    case Rereading(h, r) => Some((h, if choice then Resubmitted else Refused))
    case _ => None
  }

  function Said(s: State, e: Event): Option<(Id, Outcome)> {
    if e.Run? && e.t in s.acts then Says(s.alive, s.acts[e.t], e.choice) else None
  }

  /** The log grows by what is told, and by nothing else. */
  function Grown(log: seq<(Id, Outcome)>, o: Option<(Id, Outcome)>): seq<(Id, Outcome)> {
    if o.None? then log else log + [o.value]
  }

  lemma LogsContinue(s: State, t: Thread, choice: bool, u: Thread)
    requires t in s.acts && Dereferences(s, s.acts[t]) && (s.acts[t].Storing? || s.acts[t].Installing? || s.acts[t].Loading? || s.acts[t].SawDone?)
    ensures RunThread(s, t, choice, u).log == s.log
    ensures RunThread(s, t, choice, u).alive == s.alive && RunThread(s, t, choice, u).abandoned == s.abandoned
    ensures RunThread(s, t, choice, u).cancelled == s.cancelled && RunThread(s, t, choice, u).req == s.req && (RunThread(s, t, choice, u).enabled ==> s.enabled)
  {
    hide Install;
  }

  lemma LogsClaim(s: State, u: Thread, r: Response)
    requires s.slot.Some?
    ensures Claim(s, u, r).log == s.log && Claim(s, u, r).alive == s.alive && Claim(s, u, r).abandoned == s.abandoned
    ensures Claim(s, u, r).cancelled == s.cancelled && Claim(s, u, r).req == s.req && (Claim(s, u, r).enabled ==> s.enabled)
  {
  }

  lemma LogsTake(s: State, u: Thread)
    requires s.slot.Some?
    ensures Take(s, u).log == s.log && Take(s, u).alive == s.alive && Take(s, u).abandoned == s.abandoned
    ensures Take(s, u).cancelled == s.cancelled && Take(s, u).req == s.req && (Take(s, u).enabled ==> s.enabled)
  {
  }

  lemma LogsLeave(s: State, t: Thread)
    ensures Leave(s, t).log == s.log && Leave(s, t).alive == s.alive && Leave(s, t).abandoned == s.abandoned
    ensures Leave(s, t).cancelled == s.cancelled && Leave(s, t).req == s.req && (Leave(s, t).enabled ==> s.enabled)
  {
  }

  lemma LogsEnqueue(s: State, t: Thread, choice: bool)
    ensures Enqueue(s, t, choice).log == s.log && Enqueue(s, t, choice).alive == s.alive && Enqueue(s, t, choice).abandoned == s.abandoned
    ensures Enqueue(s, t, choice).cancelled == s.cancelled && Enqueue(s, t, choice).req == s.req && (Enqueue(s, t, choice).enabled ==> s.enabled)
  {
  }

  lemma LogsEnd(s: State, t: Thread, choice: bool, u: Thread)
    requires t in s.acts && Dereferences(s, s.acts[t]) && (s.acts[t].Enqueueing? || s.acts[t].Stranding? || s.acts[t].Delivering?)
    ensures RunThread(s, t, choice, u).log == s.log
    ensures RunThread(s, t, choice, u).alive == s.alive && RunThread(s, t, choice, u).abandoned == s.abandoned
    ensures RunThread(s, t, choice, u).cancelled == s.cancelled && RunThread(s, t, choice, u).req == s.req && (RunThread(s, t, choice, u).enabled ==> s.enabled)
  {
    LogsLeave(s, t);
    LogsEnqueue(s, t, choice);
    if s.slot.Some? {
      LogsClaim(s, t, Error);
      LogsTake(s, t);
    }
    hide Claim, Take, Leave, Enqueue;
  }

  lemma LogsAnswer(s: State, t: Thread, choice: bool, u: Thread)
    requires t in s.acts && Dereferences(s, s.acts[t]) && (s.acts[t].Building? || s.acts[t].Replying? || s.acts[t].Advancing?)
    ensures RunThread(s, t, choice, u).log == Grown(s.log, Says(s.alive, s.acts[t], choice))
    ensures RunThread(s, t, choice, u).alive == s.alive && RunThread(s, t, choice, u).abandoned == s.abandoned
    ensures RunThread(s, t, choice, u).cancelled == s.cancelled && RunThread(s, t, choice, u).req == s.req && (RunThread(s, t, choice, u).enabled ==> s.enabled)
  {
    hide Deliver, Answer;
  }

  lemma LogsHandle(s: State, t: Thread, u: Thread, h: Id, r: Response)
    requires h in s.nodes && (s.nodes[h].next.Some? ==> s.nodes[h].next.value in s.nodes)
    ensures HandleResponse(s, t, u, h, r).log == s.log
    ensures HandleResponse(s, t, u, h, r).alive == s.alive && HandleResponse(s, t, u, h, r).abandoned == s.abandoned
    ensures HandleResponse(s, t, u, h, r).cancelled == s.cancelled && HandleResponse(s, t, u, h, r).req == s.req && (HandleResponse(s, t, u, h, r).enabled ==> s.enabled)
  {
  }

  lemma LogsWalk(s: State, t: Thread, choice: bool, u: Thread)
    requires t in s.acts && Dereferences(s, s.acts[t]) && (s.acts[t].Resubmitting? || s.acts[t].Rereading?)
    ensures RunThread(s, t, choice, u).log == Grown(s.log, Says(s.alive, s.acts[t], choice))
    ensures RunThread(s, t, choice, u).alive == s.alive && RunThread(s, t, choice, u).abandoned == s.abandoned
    ensures RunThread(s, t, choice, u).cancelled == s.cancelled && RunThread(s, t, choice, u).req == s.req && (RunThread(s, t, choice, u).enabled ==> s.enabled)
  {
  }

  lemma LogsFail(s: State, t: Thread, choice: bool, u: Thread)
    requires t in s.acts && (s.acts[t].FailFlag? || s.acts[t].FailDone? || s.acts[t].Disabling?)
    ensures RunThread(s, t, choice, u).log == s.log
    ensures RunThread(s, t, choice, u).alive == s.alive && RunThread(s, t, choice, u).abandoned == s.abandoned
    ensures RunThread(s, t, choice, u).cancelled == s.cancelled && RunThread(s, t, choice, u).req == s.req && (RunThread(s, t, choice, u).enabled ==> s.enabled)
  {
  }

  lemma LogsFailClaim(s: State, t: Thread, choice: bool, u: Thread)
    requires t in s.acts && s.acts[t].FailClaim?
    ensures RunThread(s, t, choice, u).log == s.log
    ensures RunThread(s, t, choice, u).alive == s.alive && RunThread(s, t, choice, u).abandoned == s.abandoned
    ensures RunThread(s, t, choice, u).cancelled == s.cancelled && RunThread(s, t, choice, u).req == s.req && (RunThread(s, t, choice, u).enabled ==> s.enabled)
  {
    if s.slot.Some? {
      LogsClaim(s, t, Error);
      hide Claim;
    } else {
      hide Claim;
    }
  }

  lemma LogsRun(s: State, t: Thread, choice: bool, u: Thread)
    requires t in s.acts && Dereferences(s, s.acts[t])
    ensures RunThread(s, t, choice, u).log == Grown(s.log, Says(s.alive, s.acts[t], choice))
    ensures RunThread(s, t, choice, u).alive == s.alive && RunThread(s, t, choice, u).abandoned == s.abandoned
    ensures RunThread(s, t, choice, u).cancelled == s.cancelled && RunThread(s, t, choice, u).req == s.req && (RunThread(s, t, choice, u).enabled ==> s.enabled)
  {
    hide HandleResponse;
    var a := s.acts[t];
    if a.Handling? {
      LogsHandle(s, t, u, a.h, a.r);
    } else {
      hide RunThread;
      if a.Building? || a.Replying? || a.Advancing? {
        LogsAnswer(s, t, choice, u);
      } else if a.Resubmitting? || a.Rereading? {
        LogsWalk(s, t, choice, u);
      } else if a.FailClaim? {
        LogsFailClaim(s, t, choice, u);
      } else if IsFail(a) || a.Disabling? {
        LogsFail(s, t, choice, u);
      } else if a.Enqueueing? || a.Stranding? || a.Delivering? {
        LogsEnd(s, t, choice, u);
      } else {
        LogsContinue(s, t, choice, u);
      }
    }
  }

  lemma LogsRead(s: State, e: Event)
    requires Enabled(s, e) && (e.ReadCreate? || e.ReadAppend? || e.ReadStart?)
    ensures Apply(s, e).log == s.log && s.enabled
    ensures Apply(s, e).alive == s.alive && Apply(s, e).abandoned == s.abandoned && Apply(s, e).cancelled == s.cancelled
  {
    hide RunThread, WriteCallback, SuccessStep, PauseStep;
  }

  lemma LogsFlip(s: State, e: Event)
    requires Enabled(s, e) && (e.ReadRefused? || e.Disable? || e.Resumed? || e.CurlFinish?)
    ensures Apply(s, e).log == s.log
    ensures Apply(s, e).alive == s.alive && Apply(s, e).abandoned == s.abandoned
    ensures Apply(s, e).cancelled == s.cancelled && Apply(s, e).req == s.req && (Apply(s, e).enabled ==> s.enabled)
  {
    hide RunThread, WriteCallback, SuccessStep, PauseStep;
  }

  /** A close that needs no wake-up: an unfinished operation is cancelled, and prefetching is off. */
  lemma LogsCancel(s: State)
    requires Enabled(s, Cancel)
    ensures var n := Apply(s, Cancel);
            && n.log == s.log && n.alive == s.alive && n.abandoned == s.abandoned && n.req == s.req
            && !n.enabled && (n.cancelled <==> s.cancelled || (s.hasOp && !s.done))
  {
    hide RunThread, WriteCallback, SuccessStep, PauseStep;
  }

  lemma LogsQueue(s: State, e: Event)
    requires Enabled(s, e) && (e.ExpireQueued? || e.FailNow?)
    ensures Apply(s, e).log == s.log
    ensures Apply(s, e).alive == s.alive && Apply(s, e).abandoned == s.abandoned
    ensures Apply(s, e).cancelled == s.cancelled && Apply(s, e).req == s.req && (Apply(s, e).enabled ==> s.enabled)
  {
    hide RunThread, WriteCallback, SuccessStep, PauseStep;
  }

  lemma LogsStaleDrain(s: State, u: Thread)
    requires s.queue > 0 && s.slot.None?
    ensures LateDrain(s, u).log == s.log && LateDrain(s, u).alive == s.alive && LateDrain(s, u).abandoned == s.abandoned
    ensures LateDrain(s, u).cancelled == s.cancelled && LateDrain(s, u).req == s.req && (LateDrain(s, u).enabled ==> s.enabled)
  {
  }

  lemma LogsLateDrain(s: State, u: Thread)
    requires s.queue > 0 && s.slot.Some?
    ensures LateDrain(s, u).log == s.log && LateDrain(s, u).alive == s.alive && LateDrain(s, u).abandoned == s.abandoned
    ensures LateDrain(s, u).cancelled == s.cancelled && LateDrain(s, u).req == s.req && (LateDrain(s, u).enabled ==> s.enabled)
  {
  }

  lemma LogsDrain(s: State, ok: bool, u: Thread)
    requires Enabled(s, Drain(ok, u))
    ensures Apply(s, Drain(ok, u)).log == s.log && Apply(s, Drain(ok, u)).alive == s.alive && Apply(s, Drain(ok, u)).abandoned == s.abandoned
    ensures Apply(s, Drain(ok, u)).cancelled == s.cancelled && Apply(s, Drain(ok, u)).req == s.req && (Apply(s, Drain(ok, u)).enabled ==> s.enabled)
  {
    if s.slot.None? { LogsStaleDrain(s, u); } else { LogsLateDrain(s, u); }
    hide LateDrain, RunThread;
  }

  lemma LogsTaken(s: State, data: Octets, stopped: bool)
    requires !stopped && Accept(s.stream, data).1 == Taken
    ensures var n := WriteCallback(s, data, stopped);
            && n.log == s.log && n.alive == s.alive && n.abandoned == s.abandoned
            && n.cancelled == s.cancelled && n.req == s.req && n.enabled == s.enabled
  {
    hide Accept;
  }

  lemma LogsTooMuch(s: State, data: Octets, stopped: bool)
    requires !stopped && Accept(s.stream, data).1 == TooMuch
    ensures var n := WriteCallback(s, data, stopped);
            && n.log == s.log && n.alive == s.alive && n.abandoned == s.abandoned
            && n.cancelled == s.cancelled && n.req == s.req && n.enabled == s.enabled
  {
    hide Accept, Held;
  }

  lemma LogsRefused(s: State, data: Octets, stopped: bool)
    requires stopped || Accept(s.stream, data).1 == Paused
    ensures var n := WriteCallback(s, data, stopped);
            && n.log == s.log && n.alive == s.alive && n.abandoned == s.abandoned
            && n.cancelled == s.cancelled && n.req == s.req && n.enabled == s.enabled
  {
    hide Accept;
  }

  lemma LogsWrite(s: State, data: Octets, stopped: bool)
    ensures var n := WriteCallback(s, data, stopped);
            && n.log == s.log && n.alive == s.alive && n.abandoned == s.abandoned
            && n.cancelled == s.cancelled && n.req == s.req && n.enabled == s.enabled
  {
    hide WriteCallback, Accept;
    if stopped || Accept(s.stream, data).1 == Paused {
      LogsRefused(s, data, stopped);
    } else if Accept(s.stream, data).1 == Taken {
      LogsTaken(s, data, stopped);
    } else {
      LogsTooMuch(s, data, stopped);
    }
  }

  lemma LogsPause(s: State, u: Thread)
    ensures PauseStep(s, u).log == s.log && PauseStep(s, u).alive == s.alive && PauseStep(s, u).abandoned == s.abandoned
    ensures PauseStep(s, u).cancelled == s.cancelled && PauseStep(s, u).req == s.req && (PauseStep(s, u).enabled ==> s.enabled)
  {
    if s.slot.Some? {
      LogsTake(s.(worker := Transferring), u);
      hide Take;
    }
  }

  lemma LogsSuccessFlags(s: State, u: Thread)
    requires s.worker.SuccessFlag? || s.worker.SuccessDone?
    ensures SuccessStep(s, u).log == s.log && SuccessStep(s, u).alive == s.alive && SuccessStep(s, u).abandoned == s.abandoned
    ensures SuccessStep(s, u).cancelled == s.cancelled && SuccessStep(s, u).req == s.req && (SuccessStep(s, u).enabled ==> s.enabled)
  {
  }

  lemma LogsSuccessIdle(s: State, u: Thread)
    requires (s.worker.SuccessCheck? || s.worker.SuccessClaim?) && s.slot.None?
    ensures SuccessStep(s, u).log == s.log && SuccessStep(s, u).alive == s.alive && SuccessStep(s, u).abandoned == s.abandoned
    ensures SuccessStep(s, u).cancelled == s.cancelled && SuccessStep(s, u).req == s.req && (SuccessStep(s, u).enabled ==> s.enabled)
  {
  }

  lemma LogsSuccessCheck(s: State, u: Thread)
    requires s.worker.SuccessCheck? && s.slot.Some? && s.stream.current.Some?
    ensures SuccessStep(s, u).log == s.log && SuccessStep(s, u).alive == s.alive && SuccessStep(s, u).abandoned == s.abandoned
    ensures SuccessStep(s, u).cancelled == s.cancelled && SuccessStep(s, u).req == s.req && (SuccessStep(s, u).enabled ==> s.enabled)
  {
    hide Deliver;
  }

  lemma LogsSuccessClaim(s: State, u: Thread)
    requires s.worker.SuccessClaim? && s.slot.Some?
    ensures SuccessStep(s, u).log == s.log && SuccessStep(s, u).alive == s.alive && SuccessStep(s, u).abandoned == s.abandoned
    ensures SuccessStep(s, u).cancelled == s.cancelled && SuccessStep(s, u).req == s.req && (SuccessStep(s, u).enabled ==> s.enabled)
  {
    LogsClaim(s.(worker := Ended), u, s.worker.r);
    hide Claim;
  }

  lemma LogsWorker(s: State, u: Thread)
    requires !s.worker.Transferring? && !s.worker.Pausing? && !s.worker.Ended?
    requires s.worker.SuccessCheck? && s.slot.Some? ==> s.stream.current.Some?
    ensures SuccessStep(s, u).log == s.log && SuccessStep(s, u).alive == s.alive && SuccessStep(s, u).abandoned == s.abandoned
    ensures SuccessStep(s, u).cancelled == s.cancelled && SuccessStep(s, u).req == s.req && (SuccessStep(s, u).enabled ==> s.enabled)
  {
    hide SuccessStep;
    if s.worker.SuccessFlag? || s.worker.SuccessDone? {
      LogsSuccessFlags(s, u);
    } else if s.slot.None? {
      LogsSuccessIdle(s, u);
    } else if s.worker.SuccessCheck? {
      LogsSuccessCheck(s, u);
    } else {
      LogsSuccessClaim(s, u);
    }
  }

  lemma LogsRunStep(s: State, t: Thread, choice: bool, u: Thread)
    requires Enabled(s, Run(t, choice, u))
    ensures var n := Apply(s, Run(t, choice, u));
            && n.log == Grown(s.log, Says(s.alive, s.acts[t], choice)) && n.alive == s.alive && n.abandoned == s.abandoned
            && n.cancelled == s.cancelled && n.req == s.req && (n.enabled ==> s.enabled)
  {
    LogsRun(s, t, choice, u);
    hide RunThread, Says, Grown;
  }

  lemma LogsWorkerStep(s: State, u: Thread)
    requires Enabled(s, WorkerStep(u))
    ensures var n := Apply(s, WorkerStep(u));
            && n.log == s.log && n.alive == s.alive && n.abandoned == s.abandoned
            && n.cancelled == s.cancelled && n.req == s.req && (n.enabled ==> s.enabled)
  {
    hide SuccessStep, PauseStep;
    if s.worker.Pausing? { LogsPause(s, u); } else { LogsWorker(s, u); }
  }

  lemma LogsWriteStep(s: State, data: Octets, stopped: bool)
    requires Enabled(s, CurlWrite(data, stopped))
    ensures var n := Apply(s, CurlWrite(data, stopped));
            && n.log == s.log && n.alive == s.alive && n.abandoned == s.abandoned
            && n.cancelled == s.cancelled && n.req == s.req && (n.enabled ==> s.enabled)
  {
    LogsWrite(s, data, stopped);
    hide WriteCallback, NextBytes, FillsReleased;
  }

  /** Every step but the destruction of the file. */
  lemma LogsStep(s: State, e: Event)
    requires Enabled(s, e) && !e.Detach?
    ensures Apply(s, e).log == Grown(s.log, Said(s, e))
    ensures Apply(s, e).alive == s.alive && Apply(s, e).abandoned == s.abandoned
    ensures (s.cancelled ==> Apply(s, e).cancelled) && (!s.enabled ==> !Apply(s, e).enabled && Apply(s, e).req == s.req)
  {
    hide Apply, Safe, Says;
    match e
    case Run(t, choice, u) => LogsRunStep(s, t, choice, u);
    case CurlWrite(data, stopped) => LogsWriteStep(s, data, stopped);
    case WorkerStep(u) => LogsWorkerStep(s, u);
    case Drain(ok, u) => LogsDrain(s, ok, u);
    case ExpireQueued(_, _) => LogsQueue(s, e);
    case FailNow(_) => LogsQueue(s, e);
    case Cancel => LogsCancel(s);
    case ReadCreate(_, _, _, _) => LogsRead(s, e);
    case ReadAppend(_, _, _) => LogsRead(s, e);
    case ReadStart(_, _, _, _) => LogsRead(s, e);
    case _ => LogsFlip(s, e);
  }

  /** Only the destruction of the file abandons a walker. */
  lemma AbandonedBy(s: State, e: Event)
    requires Enabled(s, e) && !s.abandoned
    ensures Apply(s, e).abandoned <==> e.Detach? && Abandons(s)
  {
    if !e.Detach? { LogsStep(s, e); hide Apply; } else { hide Abandons; }
  }

  // ---- Whole runs.

  /** Some step of the run says `x`. */
  ghost predicate SaidIn(s: State, es: seq<Event>, x: (Id, Outcome))
    requires Legal(s, es)
    decreases |es|
  {
    es != [] && (Said(s, es[0]) == Some(x) || SaidIn(Apply(s, es[0]), es[1..], x))
  }

  lemma LogsDetach(s: State)
    ensures var n := Apply(s, Detach); n.log == s.log && n.enabled == s.enabled && n.cancelled == s.cancelled && n.req == s.req
  {
    hide Abandons;
  }

  lemma LogGrows(s: State, e: Event)
    requires Enabled(s, e)
    ensures Apply(s, e).log == Grown(s.log, Said(s, e))
  {
    if e.Detach? { LogsDetach(s); } else { LogsStep(s, e); }
    hide Apply;
  }

  /** The log is what the steps said. */
  lemma {:induction false} LogIsSaid(s: State, es: seq<Event>, x: (Id, Outcome))
    requires Legal(s, es)
    ensures x in Exec(s, es).log <==> x in s.log || SaidIn(s, es, x)
    decreases |es|
  {
    hide Apply, Enabled, Said;
    if es != [] {
      LogGrows(s, es[0]);
      LogIsSaid(Apply(s, es[0]), es[1..], x);
    }
  }

  // ---- After a close.

  /** Prefetching that is off stays off: no further read is accepted, and a cancelled operation stays cancelled. */
  lemma {:induction false} OffForGood(s: State, es: seq<Event>)
    requires Legal(s, es) && !s.enabled
    ensures var n := Exec(s, es); !n.enabled && n.req == s.req && (s.cancelled ==> n.cancelled)
    decreases |es|
  {
    hide Apply, Enabled;
    if es != [] {
      if es[0].Detach? { LogsDetach(s); } else { LogsStep(s, es[0]); }
      OffForGood(Apply(s, es[0]), es[1..]);
    }
  }

  /** The continue queue does not wake a cancelled operation. */
  lemma CancelledStaysPaused(s: State, ok: bool, u: Thread)
    requires Enabled(s, Drain(ok, u)) && s.cancelled
    ensures Apply(s, Drain(ok, u)).paused == s.paused && (!s.done ==> Apply(s, Drain(ok, u)).broken)
  {
    if s.slot.None? { PausedStale(s, u); } else { PausedLate(s, u); }
    hide LateDrain, RunThread;
  }

  lemma PausedStale(s: State, u: Thread)
    requires s.queue > 0 && s.slot.None?
    ensures LateDrain(s, u).paused == s.paused
  {
  }

  lemma PausedLate(s: State, u: Thread)
    requires s.queue > 0 && s.slot.Some?
    ensures LateDrain(s, u).paused == s.paused
  {
  }

  /** After a close that needs no wake-up, in every run: no read is accepted, and what was unfinished stays
      cancelled. */
  lemma ClosedForGood(s: State, es: seq<Event>)
    requires Enabled(s, Cancel) && Legal(Apply(s, Cancel), es)
    ensures var n := Exec(Apply(s, Cancel), es); n.req == s.req && !n.enabled && (s.hasOp && !s.done ==> n.cancelled)
  {
    hide Apply, Enabled, Legal, Exec;
    LogsCancel(s);
    OffForGood(Apply(s, Cancel), es);
  }
}
