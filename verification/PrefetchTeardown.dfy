/** What a torn-down chain is told: exactly when a read is told success without data, and the run in which a
    walker reads from a file that is gone. */
module PrefetchTeardown {
  import opened Common
  import opened PrefetchProtocol
  import opened PrefetchLog
  import opened PrefetchTheorems
  import opened PrefetchRuns

  /** At this step the walk over a torn-down chain reaches `h`, finds the file destroyed, and the response
      that tore the chain down was a success. */
  predicate WalksWell(s: State, e: Event, h: Id) {
    e.Run? && e.t in s.acts && s.acts[e.t].Resubmitting? && s.acts[e.t].h == h && s.acts[e.t].r.Ok? && !s.alive
  }

  ghost predicate WalksWellIn(s: State, es: seq<Event>, h: Id)
    requires Legal(s, es)
    decreases |es|
  {
    es != [] && (WalksWell(s, es[0], h) || WalksWellIn(Apply(s, es[0]), es[1..], h))
  }

  lemma HollowSaid(s: State, e: Event, h: Id)
    ensures Said(s, e) == Some((h, Hollow)) <==> WalksWell(s, e, h)
  {
  }

  lemma {:induction false} HollowSaidIn(s: State, es: seq<Event>, h: Id)
    requires Legal(s, es)
    ensures SaidIn(s, es, (h, Hollow)) <==> WalksWellIn(s, es, h)
    decreases |es|
  {
    hide Apply, Enabled, Said, WalksWell;
    if es != [] {
      HollowSaid(s, es[0], h);
      HollowSaidIn(Apply(s, es[0]), es[1..], h);
    }
  }

  /** From any state on: who is told success without data is who was so far, and who the walk tells now. */
  lemma HollowFrom(s: State, es: seq<Event>, h: Id)
    requires Legal(s, es)
    ensures (h, Hollow) in Exec(s, es).log <==> (h, Hollow) in s.log || WalksWellIn(s, es, h)
  {
    hide Legal, Exec, SaidIn, WalksWellIn;
    LogIsSaid(s, es, (h, Hollow));
    HollowSaidIn(s, es, h);
  }

  /** Over every run: a read is told success without any data if and only if the walk reached it after the
      file was destroyed, in a chain torn down by a successful response. */
  lemma HollowExactly(content: Octets, es: seq<Event>, h: Id)
    requires Legal(Init(content), es)
    ensures (h, Hollow) in Exec(Init(content), es).log <==> WalksWellIn(Init(content), es, h)
  {
    hide Legal, Exec, WalksWellIn;
    HollowFrom(Init(content), es, h);
    assert Init(content).log == [];
  }

  /** Without the destruction of the file nobody is told so. */
  lemma {:induction false} AliveTellsWell(s: State, es: seq<Event>, h: Id)
    requires Legal(s, es) && s.alive && forall i | 0 <= i < |es| :: !es[i].Detach?
    ensures !WalksWellIn(s, es, h) && Exec(s, es).alive
    decreases |es|
  {
    hide Apply, Enabled;
    if es != [] {
      LogsStep(s, es[0]);
      AliveTellsWell(Apply(s, es[0]), es[1..], h);
    }
  }

  /** Such a run: the second read asked for a byte that exists, and is told success with no data. */
  lemma HollowRun() returns (es: seq<Event>)
    ensures Legal(Init("ab"), es)
    ensures Exec(Init("ab"), es).log == [(1, Hollow)] && Asks(Exec(Init("ab"), es).req, 1, Request(1, 1))
  {
    HollowEnd();
    hide Legal, Exec, HollowedStage, Hollowed, Asks;
    HollowedPrefix(12);
    es := Hollowed()[..12];
  }

  predicate Asks(req: map<Id, Request>, h: Id, q: Request) {
    h in req && req[h] == q
  }

  lemma HollowEnd()
    ensures HollowedStage(12).log == [(1, Hollow)] && Asks(HollowedStage(12).req, 1, Request(1, 1))
  {
  }

  /** And a run after which a walker can only read from a file that is gone. */
  lemma GoneFileRun() returns (es: seq<Event>)
    ensures Legal(Init("ab"), es)
    ensures var s := Exec(Init("ab"), es);
            s.abandoned && Possible(s, Run(1, true, 2)) && CallsGoneFile(s, Run(1, true, 2)) && !Safe(s, Run(1, true, 2))
  {
    hide Legal, Exec;
    ForsakenPrefix(10);
    es := Forsaken()[..10];
  }
}
