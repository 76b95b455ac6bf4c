/** The times an operation reports to the monitoring: before the response header, after it, and paused.
    Reports may be taken at any time; together they cover the time exactly once. */
module Statistics {
  import opened Common

  /** What happened to one request, in order. */
  datatype Happening = Header(at: int) | Pause(at: int) | Resume(at: int) | Report(at: int)

  /** The paused time of a history: the finished pauses, and when the unfinished one began. */
  function Paused(log: seq<Happening>): (int, Option<int>) {
    if log == [] then (0, None)
    else
      After(Paused(log[..|log| - 1]), log[|log| - 1])
  }

  function After(p: (int, Option<int>), h: Happening): (int, Option<int>) {
    match h
    case Pause(at) => if p.1.Some? then p else (p.0, Some(at))
    case Resume(at) => if p.1.Some? then (p.0 + at - p.1.value, None) else p
    case _ => p
  }

  /** The total paused time up to `now`. */
  function PausedBy(log: seq<Happening>, now: int): int {
    var (total, since) := Paused(log);
    total + if since.Some? then now - since.value else 0
  }

  /** When the last report was taken, or the start. */
  function LastReport(start: int, log: seq<Happening>): int {
    if log == [] then start
    else if log[|log| - 1].Report? then log[|log| - 1].at else LastReport(start, log[..|log| - 1])
  }

  /** The time of the last happening. */
  function Latest(start: int, log: seq<Happening>): int {
    if log == [] then start else log[|log| - 1].at
  }

  /** When the first line of the response header arrived. */
  function FirstHeader(log: seq<Happening>): Option<int> {
    if log == [] then None
    else
      var before := FirstHeader(log[..|log| - 1]);
      if before.None? && log[|log| - 1].Header? then Some(log[|log| - 1].at) else before
  }

  lemma Grown(start: int, log: seq<Happening>, h: Happening)
    ensures Latest(start, log + [h]) == h.at && Paused(log + [h]) == After(Paused(log), h)
    ensures LastReport(start, log + [h]) == if h.Report? then h.at else LastReport(start, log)
    ensures FirstHeader(log + [h]) == if FirstHeader(log).None? && h.Header? then Some(h.at) else FirstHeader(log)
  {
    assert (log + [h])[..|log|] == log;
  }

  class Operation {
    const start: int
    var receivedHeader: bool
    var headerStart: int
    var lastHeaderReset: int
    var lastReset: int
    var isPaused: bool
    var pauseStart: Option<int>
    var pauseDuration: int
    var bytes: nat
    ghost var log: seq<Happening>
    ghost var reportedBefore: int
    ghost var reportedAfter: int
    ghost var reportedPause: int
    ghost var dropped: int
    ghost var moved: nat
    ghost var reportedBytes: nat

    /** The reports cover the time from the start to the last of them, divided where the first header line
        arrived. */
    ghost predicate Timed(history: seq<Happening>)
      reads this
    {
      && (receivedHeader <==> FirstHeader(history).Some?) && (receivedHeader ==> start <= headerStart == FirstHeader(history).value)
      && reportedBefore == lastHeaderReset - start
      && reportedAfter == (if receivedHeader && headerStart < lastReset then lastReset - headerStart else 0)
      && start <= LastReport(start, history) <= Latest(start, history)
      && (if !receivedHeader then lastHeaderReset == LastReport(start, history) && lastReset == start
          else if lastReset < headerStart then lastHeaderReset == LastReport(start, history) <= headerStart
          else lastReset == LastReport(start, history) && lastHeaderReset == headerStart)
      && headerStart <= Latest(start, history)
    }

    /** Their pauses are the paused time up to then, and what is not yet reported is exactly what the fields
        hold. */
    ghost predicate Rested(history: seq<Happening>)
      reads this
    {
      var (total, since) := Paused(history);
      && isPaused == pauseStart.Some? == since.Some?
      && (isPaused ==> since.value <= pauseStart.value <= Latest(start, history))
      && reportedPause + pauseDuration + dropped == total + (if isPaused then pauseStart.value - since.value else 0)
      && reportedBytes + bytes == moved
    }

    ghost predicate Valid()
      reads this
    {
      Timed(log) && Rested(log)
    }

    constructor (now: int)
      ensures Valid() && start == now && log == [] && reportedBefore == 0 && reportedAfter == 0 && reportedPause == 0 && dropped == 0 && moved == 0
    {
      start := now;
      receivedHeader, isPaused, pauseStart, pauseDuration, bytes := false, false, None, 0, 0;
      headerStart, lastHeaderReset, lastReset := now, now, now;
      log, reportedBefore, reportedAfter, reportedPause, dropped, moved, reportedBytes := [], 0, 0, 0, 0, 0, 0;
    }

    /** A line of the response header arrives. */
    method HeaderCallback(now: int)
      requires Valid() && now >= Latest(start, log)
      modifies this
      ensures Valid() && log == old(log) + [Header(now)]
      ensures receivedHeader && headerStart == if old(receivedHeader) then old(headerStart) else now
      ensures reportedBefore == old(reportedBefore) && reportedAfter == old(reportedAfter) && reportedPause == old(reportedPause) && dropped == old(dropped) && moved == old(moved)
    {
      hide Paused, LastReport, FirstHeader, Latest;
      Grown(start, log, Header(now));
      if !receivedHeader {
        receivedHeader := true;
        headerStart := now;
      }
      log := log + [Header(now)];
    }

    /** libcurl is paused or resumed.  A pause that is already on starts anew and drops the time since it
        began or was last reported. */
    method SetPaused(paused: bool, now: int)
      requires Valid() && now >= Latest(start, log)
      modifies this
      ensures Valid() && log == old(log) + [if paused then Pause(now) else Resume(now)]
      ensures dropped == old(dropped) + if paused && old(isPaused) then now - old(pauseStart).value else 0
      ensures reportedBefore == old(reportedBefore) && reportedAfter == old(reportedAfter) && reportedPause == old(reportedPause) && moved == old(moved)
    {
      hide Paused, LastReport, FirstHeader, Latest;
      Grown(start, log, if paused then Pause(now) else Resume(now));
      if paused && isPaused { dropped := dropped + now - pauseStart.value; }
      isPaused := paused;
      if paused {
        pauseStart := Some(now);
      } else if pauseStart.Some? {
        pauseDuration := pauseDuration + now - pauseStart.value;
        pauseStart := None;
      }
      log := log + [if paused then Pause(now) else Resume(now)];
    }

    method UpdateBytes(n: nat)
      requires Valid()
      modifies this`bytes, this`moved
      ensures Valid() && moved == old(moved) + n
    {
      bytes := bytes + n;
      moved := moved + n;
    }

    /** The times since the last report; with them the reports are divided at the first header line. */
    method TakeTimes(now: int) returns (preHeader: int, postHeader: int)
      requires Timed(log) && now >= Latest(start, log)
      modifies this`lastHeaderReset, this`lastReset, this`reportedBefore, this`reportedAfter
      ensures Timed(log + [Report(now)])
      ensures reportedBefore == old(reportedBefore) + preHeader && reportedAfter == old(reportedAfter) + postHeader
      ensures var split := if FirstHeader(log).Some? then FirstHeader(log).value else now;
              reportedBefore == split - start && reportedAfter == now - split
      ensures preHeader >= 0 && postHeader >= 0 && (!receivedHeader ==> postHeader == 0)
    {
      hide Paused, LastReport, FirstHeader, Latest;
      Grown(start, log, Report(now));
      preHeader, postHeader := 0, 0;
      if receivedHeader {
        if lastHeaderReset < headerStart {
          preHeader := headerStart - lastHeaderReset;
          lastHeaderReset := headerStart;
        }
        postHeader := now - if lastReset < headerStart then headerStart else lastReset;
        lastReset := now;
      } else {
        preHeader := now - lastHeaderReset;
        lastHeaderReset := now;
      }
      reportedBefore := reportedBefore + preHeader;
      reportedAfter := reportedAfter + postHeader;
    }

    /** The paused time since the last report; with it the reports cover the paused time so far. */
    method TakePause(now: int) returns (pause: int)
      requires Rested(log) && now >= Latest(start, log)
      modifies this`pauseDuration, this`pauseStart, this`reportedPause
      ensures Rested(log + [Report(now)])
      ensures reportedPause == old(reportedPause) + pause && reportedPause + dropped == PausedBy(log + [Report(now)], now)
    {
      hide Paused, LastReport, FirstHeader, Latest;
      Grown(start, log, Report(now));
      pause := 0;
      if isPaused {
        pauseDuration := pauseDuration + now - pauseStart.value;
        pauseStart := Some(now);
      }
      if pauseDuration != 0 {
        pause := pauseDuration;
        pauseDuration := 0;
      }
      reportedPause := reportedPause + pause;
    }

    /** Report what was not reported yet: the sums of all reports so far are the time from the start to the first
        header line, the time from there to now, the paused time (but for what repeated pauses
        dropped) and the bytes moved. */
    method StatisticsReset(now: int) returns (count: nat, preHeader: int, postHeader: int, pause: int)
      requires Valid() && now >= Latest(start, log)
      modifies this
      ensures Valid() && log == old(log) + [Report(now)] && moved == old(moved)
      ensures reportedBefore == old(reportedBefore) + preHeader && reportedAfter == old(reportedAfter) + postHeader
      ensures reportedPause == old(reportedPause) + pause && reportedBytes == old(reportedBytes) + count
      ensures var split := if FirstHeader(log).Some? then FirstHeader(log).value else now;
              reportedBefore == split - start && reportedAfter == now - split
      ensures reportedPause + dropped == PausedBy(log, now) && reportedBytes == moved
      ensures dropped == old(dropped)
      ensures preHeader >= 0 && postHeader >= 0 && (!receivedHeader ==> postHeader == 0)
    {
      hide Paused, LastReport, FirstHeader, Latest, PausedBy;
      Grown(start, log, Report(now));
      preHeader, postHeader := TakeTimes(now);
      pause := TakePause(now);
      count := bytes;
      bytes := 0;
      reportedBytes := reportedBytes + count;
      log := log + [Report(now)];
    }
  }
}
