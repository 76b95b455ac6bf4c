/** Concrete runs of an open file over the objects "ab" and "abc". */
module PrefetchRuns {
  import opened Common
  import opened ReadStream
  import opened PrefetchProtocol
  import opened PrefetchInvariant

  /** One read's buffer of one byte in a transfer of `limit` bytes: empty, full, delivered, and the next one's. */
  function Empty(limit: nat): Stream { Stream(0, limit, 0, Some(Buffer(1, [])), []) }

  function Full(limit: nat): Stream { Stream(0, limit, 0, Some(Buffer(1, "a")), []) }

  function Drained(limit: nat): Stream { Stream(0, limit, 1, None, []) }

  function Waiting(limit: nat): Stream { Stream(0, limit, 1, Some(Buffer(1, [])), []) }

  /** The same with a second byte in the overflow: full, and delivered. */
  function Spilt(): Stream { Stream(0, 3, 0, Some(Buffer(1, "a")), "b") }

  function Left(): Stream { Stream(0, 3, 1, None, "b") }

  function Scene(alive: bool, enabled: bool, hasOp: bool, tail: Option<Id>, next: int, nodes: map<Id, Node>, stream: Stream,
                 owner: Option<Id>, received: nat, slot: Option<Id>, failed: bool, done: bool, paused: bool, worker: Worker,
                 acts: Acts, abandoned: bool, req: map<Id, Request>, log: seq<(Id, Outcome)>,
                 broken: bool, queue: nat, content: Octets): State
  {
    State(Object(content), alive, enabled, hasOp, tail, next, nodes, true, stream, owner, received, slot, failed, done, false, broken,
          paused, paused, false, worker, queue, acts, abandoned, req, log)
  }

  /** A read of one byte and a second one behind it: the first ends the transfer well, the file is destroyed before
      the response is handled, and the second is told success. */
  function Hollowed(): (es: seq<Event>)
    ensures |es| == 12
  {
    [ReadCreate(0, 0, 1, 1), ReadAppend(1, 1, 1), CurlWrite("a", false), CurlFinish, WorkerStep(0), WorkerStep(0), WorkerStep(0), WorkerStep(0), Cancel, Detach, Run(0, true, 1), Run(1, true, 2)]
  }

  function HollowedStage(n: nat): State {
    match n
    case 0 => Init("ab")
    case 1 => Scene(true, true, true, Some(0), 1, map[0 := Node(0, 1, None)], Empty(1), Some(0), 0, Some(0), false, false, false, Transferring, map[], false, map[0 := Request(0, 1)], [], false, 0, "ab")
    case 2 => Scene(true, true, true, Some(1), 2, map[0 := Node(0, 1, Some(1)), 1 := Node(1, 1, None)], Empty(1), Some(0), 0, Some(0), false, false, false, Transferring, map[], false, map[0 := Request(0, 1), 1 := Request(1, 1)], [], false, 0, "ab")
    case 3 => Scene(true, true, true, Some(1), 2, map[0 := Node(0, 1, Some(1)), 1 := Node(1, 1, None)], Full(1), Some(0), 1, Some(0), false, false, false, Transferring, map[], false, map[0 := Request(0, 1), 1 := Request(1, 1)], [], false, 0, "ab")
    case 4 => Scene(true, true, true, Some(1), 2, map[0 := Node(0, 1, Some(1)), 1 := Node(1, 1, None)], Full(1), Some(0), 1, Some(0), false, false, false, SuccessFlag, map[], false, map[0 := Request(0, 1), 1 := Request(1, 1)], [], false, 0, "ab")
    case 5 => Scene(true, true, true, Some(1), 2, map[0 := Node(0, 1, Some(1)), 1 := Node(1, 1, None)], Full(1), Some(0), 1, Some(0), false, false, false, SuccessDone, map[], false, map[0 := Request(0, 1), 1 := Request(1, 1)], [], false, 0, "ab")
    case 6 => Scene(true, true, true, Some(1), 2, map[0 := Node(0, 1, Some(1)), 1 := Node(1, 1, None)], Full(1), Some(0), 1, Some(0), false, true, false, SuccessCheck, map[], false, map[0 := Request(0, 1), 1 := Request(1, 1)], [], false, 0, "ab")
    case 7 => Scene(true, true, true, Some(1), 2, map[0 := Node(0, 1, Some(1)), 1 := Node(1, 1, None)], Drained(1), Some(0), 1, Some(0), false, true, false, SuccessClaim(Ok(0, "a", true)), map[], false, map[0 := Request(0, 1), 1 := Request(1, 1)], [], false, 0, "ab")
    case 8 => Scene(true, true, true, Some(1), 2, map[0 := Node(0, 1, Some(1)), 1 := Node(1, 1, None)], Drained(1), Some(0), 1, None, false, true, false, Ended, map[0 := Handling(0, Ok(0, "a", true))], false, map[0 := Request(0, 1), 1 := Request(1, 1)], [], false, 0, "ab")
    case 9 => Scene(true, false, false, Some(1), 2, map[0 := Node(0, 1, Some(1)), 1 := Node(1, 1, None)], Drained(1), Some(0), 1, None, false, true, false, Ended, map[0 := Handling(0, Ok(0, "a", true))], false, map[0 := Request(0, 1), 1 := Request(1, 1)], [], false, 0, "ab")
    case 10 => Scene(false, false, false, Some(1), 2, map[0 := Node(0, 1, Some(1)), 1 := Node(1, 1, None)], Drained(1), Some(0), 1, None, false, true, false, Ended, map[0 := Handling(0, Ok(0, "a", true))], false, map[0 := Request(0, 1), 1 := Request(1, 1)], [], false, 0, "ab")
    case 11 => Scene(false, false, false, Some(1), 2, map[1 := Node(1, 1, None)], Drained(1), Some(0), 1, None, false, true, false, Ended, map[0 := Replying(0, Ok(0, "a", true)), 1 := Resubmitting(1, Ok(0, "a", true))], false, map[0 := Request(0, 1), 1 := Request(1, 1)], [], false, 0, "ab")
    case _ => Scene(false, false, false, Some(1), 2, map[1 := Node(1, 1, None)], Drained(1), Some(0), 1, None, false, true, false, Ended, map[0 := Replying(0, Ok(0, "a", true)), 1 := Advancing(1, Ok(0, "a", true))], false, map[0 := Request(0, 1), 1 := Request(1, 1)], [(1, Hollow)], false, 0, "ab")
  }

  lemma Hollowed0()
    ensures Enabled(HollowedStage(0), Hollowed()[0]) && Apply(HollowedStage(0), Hollowed()[0]) == HollowedStage(1)
  {
    hide LateDrain, Overdue, RunThread, Dereferences, WriteCallback, NextBytes, FillsReleased, Accept, SuccessStep, PauseStep, Abandons;
  }

  lemma Hollowed1()
    ensures Enabled(HollowedStage(1), Hollowed()[1]) && Apply(HollowedStage(1), Hollowed()[1]) == HollowedStage(2)
  {
    hide LateDrain, Overdue, RunThread, Dereferences, WriteCallback, NextBytes, FillsReleased, Accept, SuccessStep, PauseStep, Abandons;
  }

  lemma Hollowed2()
    ensures Enabled(HollowedStage(2), Hollowed()[2]) && Apply(HollowedStage(2), Hollowed()[2]) == HollowedStage(3)
  {
    hide LateDrain, Overdue, RunThread, Dereferences, SuccessStep, PauseStep, Abandons;
    assert "ab"[0..1] == "a";
    var none: Octets := [];
    assert none + "a"[..1] == "a" && none + "a"[1..] == none;
  }

  lemma Hollowed3()
    ensures Enabled(HollowedStage(3), Hollowed()[3]) && Apply(HollowedStage(3), Hollowed()[3]) == HollowedStage(4)
  {
    hide LateDrain, Overdue, RunThread, Dereferences, WriteCallback, NextBytes, FillsReleased, Accept, SuccessStep, PauseStep, Abandons;
  }

  lemma Hollowed4()
    ensures Enabled(HollowedStage(4), Hollowed()[4]) && Apply(HollowedStage(4), Hollowed()[4]) == HollowedStage(5)
  {
    hide LateDrain, Overdue, RunThread, Dereferences, WriteCallback, NextBytes, FillsReleased, Accept, Abandons;
  }

  lemma Hollowed5()
    ensures Enabled(HollowedStage(5), Hollowed()[5]) && Apply(HollowedStage(5), Hollowed()[5]) == HollowedStage(6)
  {
    hide LateDrain, Overdue, RunThread, Dereferences, WriteCallback, NextBytes, FillsReleased, Accept, Abandons;
  }

  lemma Hollowed6()
    ensures Enabled(HollowedStage(6), Hollowed()[6]) && Apply(HollowedStage(6), Hollowed()[6]) == HollowedStage(7)
  {
    hide LateDrain, Overdue, RunThread, Dereferences, WriteCallback, NextBytes, FillsReleased, Accept, Abandons;
  }

  lemma Hollowed7()
    ensures Enabled(HollowedStage(7), Hollowed()[7]) && Apply(HollowedStage(7), Hollowed()[7]) == HollowedStage(8)
  {
    hide LateDrain, Overdue, RunThread, Dereferences, WriteCallback, NextBytes, FillsReleased, Accept, Abandons;
  }

  lemma Hollowed8()
    ensures Enabled(HollowedStage(8), Hollowed()[8]) && Apply(HollowedStage(8), Hollowed()[8]) == HollowedStage(9)
  {
    hide LateDrain, Overdue, RunThread, Dereferences, WriteCallback, NextBytes, FillsReleased, Accept, SuccessStep, PauseStep, Abandons;
  }

  lemma Hollowed9()
    ensures Enabled(HollowedStage(9), Hollowed()[9]) && Apply(HollowedStage(9), Hollowed()[9]) == HollowedStage(10)
  {
    hide LateDrain, Overdue, RunThread, Dereferences, WriteCallback, NextBytes, FillsReleased, Accept, SuccessStep, PauseStep;
  }

  lemma Hollowed10()
    ensures Enabled(HollowedStage(10), Hollowed()[10]) && Apply(HollowedStage(10), Hollowed()[10]) == HollowedStage(11)
  {
    hide LateDrain, Overdue, Look, Reread, Advance, Build, Enqueue, Claim, Take, Leave, Answer, Install, CopiesReleased, WriteCallback, NextBytes, FillsReleased, Accept, SuccessStep, PauseStep, Abandons;
  }

  lemma Hollowed11()
    ensures Enabled(HollowedStage(11), Hollowed()[11]) && Apply(HollowedStage(11), Hollowed()[11]) == HollowedStage(12)
  {
    hide LateDrain, Overdue, HandleResponse, Reread, Advance, Build, Enqueue, Claim, Take, Leave, Answer, Install, CopiesReleased, WriteCallback, NextBytes, FillsReleased, Accept, SuccessStep, PauseStep, Abandons;
    var none: seq<(Id, Outcome)> := [];
    assert none + [(1, Hollow)] == [(1, Hollow)];
  }

  lemma HollowedStep(n: nat)
    requires n < 12
    ensures Enabled(HollowedStage(n), Hollowed()[n]) && Apply(HollowedStage(n), Hollowed()[n]) == HollowedStage(n + 1)
  {
    hide HollowedStage, Hollowed, Apply, Enabled;
    match n
    case 0 => Hollowed0();
    case 1 => Hollowed1();
    case 2 => Hollowed2();
    case 3 => Hollowed3();
    case 4 => Hollowed4();
    case 5 => Hollowed5();
    case 6 => Hollowed6();
    case 7 => Hollowed7();
    case 8 => Hollowed8();
    case 9 => Hollowed9();
    case 10 => Hollowed10();
    case _ => Hollowed11();
  }

  lemma {:induction false} HollowedRuns(n: nat, m: nat)
    requires n <= m <= 12
    ensures Legal(HollowedStage(n), Hollowed()[n..m]) && Exec(HollowedStage(n), Hollowed()[n..m]) == HollowedStage(m)
    decreases m - n
  {
    hide HollowedStage, Hollowed, Apply, Enabled;
    if n < m {
      HollowedStep(n);
      HollowedRuns(n + 1, m);
      assert Hollowed()[n..m][1..] == Hollowed()[n + 1..m];
    }
  }

  lemma HollowedPrefix(m: nat)
    requires m <= 12
    ensures Legal(Init("ab"), Hollowed()[..m]) && Exec(Init("ab"), Hollowed()[..m]) == HollowedStage(m)
  {
    assert HollowedStage(0) == Init("ab");
    hide Legal, Exec, HollowedStage;
    HollowedRuns(0, m);
    assert Hollowed()[0..m] == Hollowed()[..m];
  }

  /** The transfer fails with a second read waiting; the walker finds the file, and then the file is destroyed. */
  function Forsaken(): (es: seq<Event>)
    ensures |es| == 10
  {
    [ReadCreate(0, 0, 1, 2), ReadAppend(1, 1, 1), FailNow(0), Run(0, true, 1), Run(0, true, 1), Run(0, true, 1), Run(0, true, 1), Run(1, true, 2), Cancel, Detach]
  }

  function ForsakenStage(n: nat): State {
    match n
    case 0 => Init("ab")
    case 1 => Scene(true, true, true, Some(0), 1, map[0 := Node(0, 1, None)], Empty(2), Some(0), 0, Some(0), false, false, false, Transferring, map[], false, map[0 := Request(0, 1)], [], false, 0, "ab")
    case 2 => Scene(true, true, true, Some(1), 2, map[0 := Node(0, 1, Some(1)), 1 := Node(1, 1, None)], Empty(2), Some(0), 0, Some(0), false, false, false, Transferring, map[], false, map[0 := Request(0, 1), 1 := Request(1, 1)], [], false, 0, "ab")
    case 3 => Scene(true, true, true, Some(1), 2, map[0 := Node(0, 1, Some(1)), 1 := Node(1, 1, None)], Empty(2), Some(0), 0, Some(0), false, false, false, Transferring, map[0 := FailFlag], false, map[0 := Request(0, 1), 1 := Request(1, 1)], [], true, 0, "ab")
    case 4 => Scene(true, true, true, Some(1), 2, map[0 := Node(0, 1, Some(1)), 1 := Node(1, 1, None)], Empty(2), Some(0), 0, Some(0), true, false, false, Transferring, map[0 := FailDone], false, map[0 := Request(0, 1), 1 := Request(1, 1)], [], true, 0, "ab")
    case 5 => Scene(true, true, true, Some(1), 2, map[0 := Node(0, 1, Some(1)), 1 := Node(1, 1, None)], Empty(2), Some(0), 0, Some(0), true, true, false, Transferring, map[0 := FailClaim], false, map[0 := Request(0, 1), 1 := Request(1, 1)], [], true, 0, "ab")
    case 6 => Scene(true, true, true, Some(1), 2, map[0 := Node(0, 1, Some(1)), 1 := Node(1, 1, None)], Empty(2), Some(0), 0, None, true, true, false, Transferring, map[0 := Handling(0, Error)], false, map[0 := Request(0, 1), 1 := Request(1, 1)], [], true, 0, "ab")
    case 7 => Scene(true, false, false, None, 2, map[1 := Node(1, 1, None)], Empty(2), Some(0), 0, None, true, true, false, Transferring, map[0 := Replying(0, Error), 1 := Resubmitting(1, Error)], false, map[0 := Request(0, 1), 1 := Request(1, 1)], [], true, 0, "ab")
    case 8 => Scene(true, false, false, None, 2, map[1 := Node(1, 1, None)], Empty(2), Some(0), 0, None, true, true, false, Transferring, map[0 := Replying(0, Error), 1 := Rereading(1, Error)], false, map[0 := Request(0, 1), 1 := Request(1, 1)], [], true, 0, "ab")
    case 9 => Scene(true, false, false, None, 2, map[1 := Node(1, 1, None)], Empty(2), Some(0), 0, None, true, true, false, Transferring, map[0 := Replying(0, Error), 1 := Rereading(1, Error)], false, map[0 := Request(0, 1), 1 := Request(1, 1)], [], true, 0, "ab")
    case _ => Scene(false, false, false, None, 2, map[1 := Node(1, 1, None)], Empty(2), Some(0), 0, None, true, true, false, Transferring, map[0 := Replying(0, Error), 1 := Rereading(1, Error)], true, map[0 := Request(0, 1), 1 := Request(1, 1)], [], true, 0, "ab")
  }

  lemma Forsaken0()
    ensures Enabled(ForsakenStage(0), Forsaken()[0]) && Apply(ForsakenStage(0), Forsaken()[0]) == ForsakenStage(1)
  {
    hide LateDrain, Overdue, RunThread, Dereferences, WriteCallback, NextBytes, FillsReleased, Accept, SuccessStep, PauseStep, Abandons;
  }

  lemma Forsaken1()
    ensures Enabled(ForsakenStage(1), Forsaken()[1]) && Apply(ForsakenStage(1), Forsaken()[1]) == ForsakenStage(2)
  {
    hide LateDrain, Overdue, RunThread, Dereferences, WriteCallback, NextBytes, FillsReleased, Accept, SuccessStep, PauseStep, Abandons;
  }

  lemma Forsaken2()
    ensures Enabled(ForsakenStage(2), Forsaken()[2]) && Apply(ForsakenStage(2), Forsaken()[2]) == ForsakenStage(3)
  {
    hide LateDrain, Overdue, RunThread, Dereferences, WriteCallback, NextBytes, FillsReleased, Accept, SuccessStep, PauseStep, Abandons;
  }

  lemma Forsaken3()
    ensures Enabled(ForsakenStage(3), Forsaken()[3]) && Apply(ForsakenStage(3), Forsaken()[3]) == ForsakenStage(4)
  {
    hide LateDrain, Overdue, HandleResponse, Look, Reread, Advance, Build, Enqueue, Claim, Take, Leave, Answer, Install, CopiesReleased, WriteCallback, NextBytes, FillsReleased, Accept, SuccessStep, PauseStep, Abandons;
  }

  lemma Forsaken4()
    ensures Enabled(ForsakenStage(4), Forsaken()[4]) && Apply(ForsakenStage(4), Forsaken()[4]) == ForsakenStage(5)
  {
    hide LateDrain, Overdue, HandleResponse, Look, Reread, Advance, Build, Enqueue, Claim, Take, Leave, Answer, Install, CopiesReleased, WriteCallback, NextBytes, FillsReleased, Accept, SuccessStep, PauseStep, Abandons;
  }

  lemma Forsaken5()
    ensures Enabled(ForsakenStage(5), Forsaken()[5]) && Apply(ForsakenStage(5), Forsaken()[5]) == ForsakenStage(6)
  {
    hide LateDrain, Overdue, HandleResponse, Look, Reread, Advance, Build, Enqueue, Take, Leave, Answer, Install, CopiesReleased, WriteCallback, NextBytes, FillsReleased, Accept, SuccessStep, PauseStep, Abandons;
  }

  lemma Forsaken6()
    ensures Enabled(ForsakenStage(6), Forsaken()[6]) && Apply(ForsakenStage(6), Forsaken()[6]) == ForsakenStage(7)
  {
    hide LateDrain, Overdue, Look, Reread, Advance, Build, Enqueue, Claim, Take, Leave, Answer, Install, CopiesReleased, WriteCallback, NextBytes, FillsReleased, Accept, SuccessStep, PauseStep, Abandons;
  }

  lemma Forsaken7()
    ensures Enabled(ForsakenStage(7), Forsaken()[7]) && Apply(ForsakenStage(7), Forsaken()[7]) == ForsakenStage(8)
  {
    hide LateDrain, Overdue, HandleResponse, Reread, Advance, Build, Enqueue, Claim, Take, Leave, Answer, Install, CopiesReleased, WriteCallback, NextBytes, FillsReleased, Accept, SuccessStep, PauseStep, Abandons;
  }

  lemma Forsaken8()
    ensures Enabled(ForsakenStage(8), Forsaken()[8]) && Apply(ForsakenStage(8), Forsaken()[8]) == ForsakenStage(9)
  {
    hide LateDrain, Overdue, RunThread, Dereferences, WriteCallback, NextBytes, FillsReleased, Accept, SuccessStep, PauseStep, Abandons;
  }

  lemma Forsaken9()
    ensures Enabled(ForsakenStage(9), Forsaken()[9]) && Apply(ForsakenStage(9), Forsaken()[9]) == ForsakenStage(10)
  {
    hide LateDrain, Overdue, RunThread, Dereferences, WriteCallback, NextBytes, FillsReleased, Accept, SuccessStep, PauseStep;
    assert ForsakenStage(9).acts[1].Rereading?;
  }

  lemma ForsakenStep(n: nat)
    requires n < 10
    ensures Enabled(ForsakenStage(n), Forsaken()[n]) && Apply(ForsakenStage(n), Forsaken()[n]) == ForsakenStage(n + 1)
  {
    hide ForsakenStage, Forsaken, Apply, Enabled;
    match n
    case 0 => Forsaken0();
    case 1 => Forsaken1();
    case 2 => Forsaken2();
    case 3 => Forsaken3();
    case 4 => Forsaken4();
    case 5 => Forsaken5();
    case 6 => Forsaken6();
    case 7 => Forsaken7();
    case 8 => Forsaken8();
    case _ => Forsaken9();
  }

  lemma {:induction false} ForsakenRuns(n: nat, m: nat)
    requires n <= m <= 10
    ensures Legal(ForsakenStage(n), Forsaken()[n..m]) && Exec(ForsakenStage(n), Forsaken()[n..m]) == ForsakenStage(m)
    decreases m - n
  {
    hide ForsakenStage, Forsaken, Apply, Enabled;
    if n < m {
      ForsakenStep(n);
      ForsakenRuns(n + 1, m);
      assert Forsaken()[n..m][1..] == Forsaken()[n + 1..m];
    }
  }

  lemma ForsakenPrefix(m: nat)
    requires m <= 10
    ensures Legal(Init("ab"), Forsaken()[..m]) && Exec(Init("ab"), Forsaken()[..m]) == ForsakenStage(m)
  {
    assert ForsakenStage(0) == Init("ab");
    hide Legal, Exec, ForsakenStage;
    ForsakenRuns(0, m);
    assert Forsaken()[0..m] == Forsaken()[..m];
  }

  /** The first read fills its buffer, the transfer pauses, the read is answered, and a second read continues the
      operation while the transfer is still paused. */
  function Late(): (es: seq<Event>)
    ensures |es| == 11
  {
    [ReadCreate(0, 0, 1, 2), CurlWrite("a", false), CurlWrite("b", false), WorkerStep(0), Run(0, true, 1), Run(0, true, 1), ReadStart(1, 1, 1, 2), Run(2, true, 3), Run(2, true, 3), Run(2, true, 3), Run(2, true, 3)]
  }

  function LateStage(n: nat): State {
    match n
    case 0 => Init("ab")
    case 1 => Scene(true, true, true, Some(0), 1, map[0 := Node(0, 1, None)], Empty(2), Some(0), 0, Some(0), false, false, false, Transferring, map[], false, map[0 := Request(0, 1)], [], false, 0, "ab")
    case 2 => Scene(true, true, true, Some(0), 1, map[0 := Node(0, 1, None)], Full(2), Some(0), 1, Some(0), false, false, false, Transferring, map[], false, map[0 := Request(0, 1)], [], false, 0, "ab")
    case 3 => Scene(true, true, true, Some(0), 1, map[0 := Node(0, 1, None)], Full(2), Some(0), 1, Some(0), false, false, true, Pausing, map[], false, map[0 := Request(0, 1)], [], false, 0, "ab")
    case 4 => Scene(true, true, true, Some(0), 1, map[0 := Node(0, 1, None)], Full(2), Some(0), 1, None, false, false, true, Transferring, map[0 := Building(0)], false, map[0 := Request(0, 1)], [], false, 0, "ab")
    case 5 => Scene(true, true, true, Some(0), 1, map[0 := Node(0, 1, None)], Drained(2), None, 1, None, false, false, true, Transferring, map[0 := Handling(0, Ok(0, "a", true))], false, map[0 := Request(0, 1)], [], false, 0, "ab")
    case 6 => Scene(true, true, true, None, 1, map[], Drained(2), None, 1, None, false, false, true, Transferring, map[0 := Replying(0, Ok(0, "a", true))], false, map[0 := Request(0, 1)], [], false, 0, "ab")
    case 7 => Scene(true, true, true, Some(1), 2, map[1 := Node(1, 1, None)], Drained(2), None, 1, None, false, false, true, Transferring, map[0 := Replying(0, Ok(0, "a", true)), 2 := Storing(1, 1)], false, map[0 := Request(0, 1), 1 := Request(1, 1)], [], false, 0, "ab")
    case 8 => Scene(true, true, true, Some(1), 2, map[1 := Node(1, 1, None)], Drained(2), None, 1, Some(1), false, false, true, Transferring, map[0 := Replying(0, Ok(0, "a", true)), 2 := Installing(1, 1)], false, map[0 := Request(0, 1), 1 := Request(1, 1)], [], false, 0, "ab")
    case 9 => Scene(true, true, true, Some(1), 2, map[1 := Node(1, 1, None)], Waiting(2), Some(1), 1, Some(1), false, false, true, Transferring, map[0 := Replying(0, Ok(0, "a", true)), 2 := Loading(1)], false, map[0 := Request(0, 1), 1 := Request(1, 1)], [], false, 0, "ab")
    case 10 => Scene(true, true, true, Some(1), 2, map[1 := Node(1, 1, None)], Waiting(2), Some(1), 1, Some(1), false, false, true, Transferring, map[0 := Replying(0, Ok(0, "a", true)), 2 := Enqueueing(1)], false, map[0 := Request(0, 1), 1 := Request(1, 1)], [], false, 0, "ab")
    case _ => Scene(true, true, true, Some(1), 2, map[1 := Node(1, 1, None)], Waiting(2), Some(1), 1, Some(1), false, false, true, Transferring, map[0 := Replying(0, Ok(0, "a", true))], false, map[0 := Request(0, 1), 1 := Request(1, 1)], [], false, 1, "ab")
  }

  lemma Late0()
    ensures Enabled(LateStage(0), Late()[0]) && Apply(LateStage(0), Late()[0]) == LateStage(1)
  {
    hide LateDrain, Overdue, RunThread, Dereferences, WriteCallback, NextBytes, FillsReleased, Accept, SuccessStep, PauseStep, Abandons;
  }

  lemma Late1()
    ensures Enabled(LateStage(1), Late()[1]) && Apply(LateStage(1), Late()[1]) == LateStage(2)
  {
    hide LateDrain, Overdue, RunThread, Dereferences, SuccessStep, PauseStep, Abandons;
    assert "ab"[0..1] == "a";
    var none: Octets := [];
    assert none + "a"[..1] == "a" && none + "a"[1..] == none;
  }

  lemma Late2()
    ensures Enabled(LateStage(2), Late()[2]) && Apply(LateStage(2), Late()[2]) == LateStage(3)
  {
    hide LateDrain, Overdue, RunThread, Dereferences, SuccessStep, PauseStep, Abandons;
    assert "ab"[1..2] == "b";
  }

  lemma Late3()
    ensures Enabled(LateStage(3), Late()[3]) && Apply(LateStage(3), Late()[3]) == LateStage(4)
  {
    hide LateDrain, Overdue, RunThread, Dereferences, WriteCallback, NextBytes, FillsReleased, Accept, Abandons;
  }

  lemma Late4()
    ensures Enabled(LateStage(4), Late()[4]) && Apply(LateStage(4), Late()[4]) == LateStage(5)
  {
    hide LateDrain, Overdue, HandleResponse, Look, Reread, Advance, Enqueue, Claim, Take, Leave, Answer, Install, CopiesReleased, WriteCallback, NextBytes, FillsReleased, Accept, SuccessStep, PauseStep, Abandons;
    assert Deliver(Full(2)) == Drained(2) && Chunk(Full(2), true) == Ok(0, "a", true);
    hide Deliver, Chunk;
  }

  lemma Late5()
    ensures Enabled(LateStage(5), Late()[5]) && Apply(LateStage(5), Late()[5]) == LateStage(6)
  {
    hide LateDrain, Overdue, Look, Reread, Advance, Build, Enqueue, Claim, Take, Leave, Answer, Install, CopiesReleased, WriteCallback, NextBytes, FillsReleased, Accept, SuccessStep, PauseStep, Abandons;
  }

  lemma Late6()
    ensures Enabled(LateStage(6), Late()[6]) && Apply(LateStage(6), Late()[6]) == LateStage(7)
  {
    hide LateDrain, Overdue, RunThread, Dereferences, WriteCallback, NextBytes, FillsReleased, Accept, SuccessStep, PauseStep, Abandons;
  }

  lemma Late7()
    ensures Enabled(LateStage(7), Late()[7]) && Apply(LateStage(7), Late()[7]) == LateStage(8)
  {
    hide LateDrain, Overdue, HandleResponse, Look, Reread, Advance, Build, Enqueue, Claim, Take, Leave, Answer, Install, CopiesReleased, WriteCallback, NextBytes, FillsReleased, Accept, SuccessStep, PauseStep, Abandons;
  }

  lemma Late8()
    ensures Enabled(LateStage(8), Late()[8]) && Apply(LateStage(8), Late()[8]) == LateStage(9)
  {
    hide LateDrain, Overdue, HandleResponse, Look, Reread, Advance, Build, Enqueue, Claim, Take, Leave, Answer, Released, WriteCallback, NextBytes, FillsReleased, Accept, SuccessStep, PauseStep, Abandons;
    assert Install(Drained(2), 1) == Waiting(2);
    assert !CopiesReleased(LateStage(8), 1, 1);
    hide Install, CopiesReleased;
  }

  lemma Late9()
    ensures Enabled(LateStage(9), Late()[9]) && Apply(LateStage(9), Late()[9]) == LateStage(10)
  {
    hide LateDrain, Overdue, HandleResponse, Look, Reread, Advance, Build, Enqueue, Claim, Take, Leave, Answer, Install, CopiesReleased, WriteCallback, NextBytes, FillsReleased, Accept, SuccessStep, PauseStep, Abandons;
  }

  lemma Late10()
    ensures Enabled(LateStage(10), Late()[10]) && Apply(LateStage(10), Late()[10]) == LateStage(11)
  {
    hide LateDrain, Overdue, HandleResponse, Look, Reread, Advance, Build, Claim, Take, Leave, Answer, Install, CopiesReleased, WriteCallback, NextBytes, FillsReleased, Accept, SuccessStep, PauseStep, Abandons;
  }

  lemma LateStep(n: nat)
    requires n < 11
    ensures Enabled(LateStage(n), Late()[n]) && Apply(LateStage(n), Late()[n]) == LateStage(n + 1)
  {
    hide LateStage, Late, Apply, Enabled;
    match n
    case 0 => Late0();
    case 1 => Late1();
    case 2 => Late2();
    case 3 => Late3();
    case 4 => Late4();
    case 5 => Late5();
    case 6 => Late6();
    case 7 => Late7();
    case 8 => Late8();
    case 9 => Late9();
    case _ => Late10();
  }

  lemma {:induction false} LateRuns(n: nat, m: nat)
    requires n <= m <= 11
    ensures Legal(LateStage(n), Late()[n..m]) && Exec(LateStage(n), Late()[n..m]) == LateStage(m)
    decreases m - n
  {
    hide LateStage, Late, Apply, Enabled;
    if n < m {
      LateStep(n);
      LateRuns(n + 1, m);
      assert Late()[n..m][1..] == Late()[n + 1..m];
    }
  }

  lemma LatePrefix(m: nat)
    requires m <= 11
    ensures Legal(Init("ab"), Late()[..m]) && Exec(Init("ab"), Late()[..m]) == LateStage(m)
  {
    assert LateStage(0) == Init("ab");
    hide Legal, Exec, LateStage;
    LateRuns(0, m);
    assert Late()[0..m] == Late()[..m];
  }

  /** The first write brings a byte more than the first read asked for; the transfer pauses, the read is told, and a
      second read stores its handler. */
  function Spilling(): (es: seq<Event>)
    ensures |es| == 9
  {
    [ReadCreate(0, 0, 1, 3), CurlWrite("ab", false), CurlWrite("c", false), WorkerStep(0), Run(0, true, 1), Run(0, true, 1), Run(0, true, 1), ReadStart(1, 1, 1, 2), Run(2, true, 3)]
  }

  function SpillingStage(n: nat): State {
    match n
    case 0 => Init("abc")
    case 1 => Scene(true, true, true, Some(0), 1, map[0 := Node(0, 1, None)], Empty(3), Some(0), 0, Some(0), false, false, false, Transferring, map[], false, map[0 := Request(0, 1)], [], false, 0, "abc")
    case 2 => Scene(true, true, true, Some(0), 1, map[0 := Node(0, 1, None)], Spilt(), Some(0), 2, Some(0), false, false, false, Transferring, map[], false, map[0 := Request(0, 1)], [], false, 0, "abc")
    case 3 => Scene(true, true, true, Some(0), 1, map[0 := Node(0, 1, None)], Spilt(), Some(0), 2, Some(0), false, false, true, Pausing, map[], false, map[0 := Request(0, 1)], [], false, 0, "abc")
    case 4 => Scene(true, true, true, Some(0), 1, map[0 := Node(0, 1, None)], Spilt(), Some(0), 2, None, false, false, true, Transferring, map[0 := Building(0)], false, map[0 := Request(0, 1)], [], false, 0, "abc")
    case 5 => Scene(true, true, true, Some(0), 1, map[0 := Node(0, 1, None)], Left(), None, 2, None, false, false, true, Transferring, map[0 := Handling(0, Ok(0, "a", true))], false, map[0 := Request(0, 1)], [], false, 0, "abc")
    case 6 => Scene(true, true, true, None, 1, map[], Left(), None, 2, None, false, false, true, Transferring, map[0 := Replying(0, Ok(0, "a", true))], false, map[0 := Request(0, 1)], [], false, 0, "abc")
    case 7 => Scene(true, true, true, None, 1, map[], Left(), None, 2, None, false, false, true, Transferring, map[], false, map[0 := Request(0, 1)], [(0, Completed(0, "a"))], false, 0, "abc")
    case 8 => Scene(true, true, true, Some(1), 2, map[1 := Node(1, 1, None)], Left(), None, 2, None, false, false, true, Transferring, map[2 := Storing(1, 1)], false, map[0 := Request(0, 1), 1 := Request(1, 1)], [(0, Completed(0, "a"))], false, 0, "abc")
    case _ => Scene(true, true, true, Some(1), 2, map[1 := Node(1, 1, None)], Left(), None, 2, Some(1), false, false, true, Transferring, map[2 := Installing(1, 1)], false, map[0 := Request(0, 1), 1 := Request(1, 1)], [(0, Completed(0, "a"))], false, 0, "abc")
  }

  lemma Spilling0()
    ensures Enabled(SpillingStage(0), Spilling()[0]) && Apply(SpillingStage(0), Spilling()[0]) == SpillingStage(1)
  {
    hide LateDrain, Overdue, RunThread, Dereferences, WriteCallback, NextBytes, FillsReleased, Accept, SuccessStep, PauseStep, Abandons;
  }

  lemma Spilling1()
    ensures Enabled(SpillingStage(1), Spilling()[1]) && Apply(SpillingStage(1), Spilling()[1]) == SpillingStage(2)
  {
    hide LateDrain, Overdue, RunThread, Dereferences, SuccessStep, PauseStep, Abandons;
    assert "abc"[0..2] == "ab";
    var none: Octets := [];
    assert none + "ab"[..1] == "a" && none + "ab"[1..] == "b";
  }

  lemma Spilling2()
    ensures Enabled(SpillingStage(2), Spilling()[2]) && Apply(SpillingStage(2), Spilling()[2]) == SpillingStage(3)
  {
    hide LateDrain, Overdue, RunThread, Dereferences, SuccessStep, PauseStep, Abandons;
    assert "abc"[2..3] == "c";
  }

  lemma Spilling3()
    ensures Enabled(SpillingStage(3), Spilling()[3]) && Apply(SpillingStage(3), Spilling()[3]) == SpillingStage(4)
  {
    hide LateDrain, Overdue, RunThread, Dereferences, WriteCallback, NextBytes, FillsReleased, Accept, Abandons;
  }

  lemma Spilling4()
    ensures Enabled(SpillingStage(4), Spilling()[4]) && Apply(SpillingStage(4), Spilling()[4]) == SpillingStage(5)
  {
    hide LateDrain, Overdue, HandleResponse, Look, Reread, Advance, Enqueue, Claim, Take, Leave, Answer, Install, CopiesReleased, WriteCallback, NextBytes, FillsReleased, Accept, SuccessStep, PauseStep, Abandons;
    assert Deliver(Spilt()) == Left() && Chunk(Spilt(), true) == Ok(0, "a", true);
    hide Deliver, Chunk;
  }

  lemma Spilling5()
    ensures Enabled(SpillingStage(5), Spilling()[5]) && Apply(SpillingStage(5), Spilling()[5]) == SpillingStage(6)
  {
    hide LateDrain, Overdue, Look, Reread, Advance, Build, Enqueue, Claim, Take, Leave, Answer, Install, CopiesReleased, WriteCallback, NextBytes, FillsReleased, Accept, SuccessStep, PauseStep, Abandons;
  }

  lemma Spilling6()
    ensures Enabled(SpillingStage(6), Spilling()[6]) && Apply(SpillingStage(6), Spilling()[6]) == SpillingStage(7)
  {
    hide LateDrain, Overdue, HandleResponse, Look, Reread, Advance, Build, Enqueue, Claim, Take, Leave, Install, CopiesReleased, WriteCallback, NextBytes, FillsReleased, Accept, SuccessStep, PauseStep, Abandons;
    var none: seq<(Id, Outcome)> := [];
    assert none + [(0, Completed(0, "a"))] == [(0, Completed(0, "a"))];
  }

  lemma Spilling7()
    ensures Enabled(SpillingStage(7), Spilling()[7]) && Apply(SpillingStage(7), Spilling()[7]) == SpillingStage(8)
  {
    hide LateDrain, Overdue, RunThread, Dereferences, WriteCallback, NextBytes, FillsReleased, Accept, SuccessStep, PauseStep, Abandons;
  }

  lemma Spilling8()
    ensures Enabled(SpillingStage(8), Spilling()[8]) && Apply(SpillingStage(8), Spilling()[8]) == SpillingStage(9)
  {
    hide LateDrain, Overdue, HandleResponse, Look, Reread, Advance, Build, Enqueue, Claim, Take, Leave, Answer, Install, CopiesReleased, WriteCallback, NextBytes, FillsReleased, Accept, SuccessStep, PauseStep, Abandons;
  }

  lemma SpillingStep(n: nat)
    requires n < 9
    ensures Enabled(SpillingStage(n), Spilling()[n]) && Apply(SpillingStage(n), Spilling()[n]) == SpillingStage(n + 1)
  {
    hide SpillingStage, Spilling, Apply, Enabled;
    match n
    case 0 => Spilling0();
    case 1 => Spilling1();
    case 2 => Spilling2();
    case 3 => Spilling3();
    case 4 => Spilling4();
    case 5 => Spilling5();
    case 6 => Spilling6();
    case 7 => Spilling7();
    case _ => Spilling8();
  }

  lemma {:induction false} SpillingRuns(n: nat, m: nat)
    requires n <= m <= 9
    ensures Legal(SpillingStage(n), Spilling()[n..m]) && Exec(SpillingStage(n), Spilling()[n..m]) == SpillingStage(m)
    decreases m - n
  {
    hide SpillingStage, Spilling, Apply, Enabled;
    if n < m {
      SpillingStep(n);
      SpillingRuns(n + 1, m);
      assert Spilling()[n..m][1..] == Spilling()[n + 1..m];
    }
  }

  lemma SpillingPrefix(m: nat)
    requires m <= 9
    ensures Legal(Init("abc"), Spilling()[..m]) && Exec(Init("abc"), Spilling()[..m]) == SpillingStage(m)
  {
    assert SpillingStage(0) == Init("abc");
    hide Legal, Exec, SpillingStage;
    SpillingRuns(0, m);
    assert Spilling()[0..m] == Spilling()[..m];
  }
}
