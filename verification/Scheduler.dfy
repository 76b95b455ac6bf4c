/** The per-origin scheduler as a state and its transitions: admission under a global and a per-tag
    limit, weighted random dispatch under two caps, expiry, completion hooks and the load averages. */
module Scheduler {
  import opened Common

  /** A queued operation: its identity, its origin tag and its deadline. */
  datatype Op = Op(id: nat, tag: string, deadline: int)

  datatype TagState = TagState(pending: seq<Op>, active: int, starving: int, admits: nat, rejects: nat)

  datatype Config = Config(starvingCap: int, activeCap: int, pendingLimit: int, perTagLimit: int)

  /** `signals` counts the wake-ups given to waiting workers. */
  datatype Sched = Sched(
    cfg: Config,
    tags: map<string, TagState>,
    total: int,
    shutdown: bool,
    signals: nat,
    rejectsGlobal: nat,
    rejectsPerTag: nat,
    ema: map<string, real>)

  const NOISE: real := 0.000001

  /** The share of the pool one tag may hold: all of it when the percentage is out of range. */
  function PercentToCap(workers: nat, percent: int): (cap: int)
    requires workers >= 1
    ensures 1 <= cap <= workers
    ensures 0 < percent < 100 ==> 100 * cap >= workers * percent && 100 * (cap - 1) < workers * percent
  {
    if percent <= 0 || percent >= 100 then workers
    else
      RoundsUp(workers, percent);
      var cap := (workers * percent + 99) / 100;
      if cap < 1 then 1 else cap
  }

  lemma RoundsUp(workers: nat, percent: int)
    requires workers >= 1 && 0 < percent < 100
    ensures var cap := (workers * percent + 99) / 100; 1 <= cap <= workers
    ensures var cap := (workers * percent + 99) / 100; 100 * cap >= workers * percent > 100 * (cap - 1)
  {
    var x := workers * percent;
    assert x >= workers;
    assert x <= workers * 99;
  }

  function Start(cfg: Config): Sched {
    Sched(cfg, map[], 0, false, 0, 0, 0, map[])
  }

  function Look(tags: map<string, TagState>, t: string): TagState {
    if t in tags then tags[t] else TagState([], 0, 0, 0, 0)
  }

  /** Entries with nothing queued and nothing running are forgotten. */
  predicate Idle(x: TagState) {
    x.pending == [] && x.active == 0 && x.starving == 0
  }

  function Update(tags: map<string, TagState>, t: string, x: TagState): map<string, TagState> {
    if Idle(x) then tags - {t} else tags[t := x]
  }

  function Admit(s: Sched, op: Op): (r: (Sched, bool)) {
    var x := Look(s.tags, op.tag);
    if s.shutdown then (s, false)
    else if s.cfg.pendingLimit > 0 && s.total >= s.cfg.pendingLimit then
      (s.(rejectsGlobal := s.rejectsGlobal + 1, tags := s.tags[op.tag := x.(rejects := x.rejects + 1)]), false)
    else if s.cfg.perTagLimit > 0 && |x.pending| >= s.cfg.perTagLimit then
      (s.(rejectsPerTag := s.rejectsPerTag + 1, tags := s.tags[op.tag := x.(rejects := x.rejects + 1)]), false)
    else
      (s.(tags := s.tags[op.tag := x.(pending := x.pending + [op], admits := x.admits + 1)],
          total := s.total + 1, signals := s.signals + 1), true)
  }

  predicate Eligible(cfg: Config, x: TagState) {
    x.pending != [] && x.starving < cfg.starvingCap && x.active < cfg.activeCap
  }

  /** The head of an eligible tag's queue goes to a worker. */
  function Dispatch(s: Sched, t: string): (r: (Sched, Op))
    requires t in s.tags && s.tags[t].pending != []
  {
    var x := s.tags[t];
    (s.(tags := s.tags[t := x.(pending := x.pending[1..], active := x.active + 1, starving := x.starving + 1)],
        total := s.total - 1),
     x.pending[0])
  }

  /** The first response byte of an operation of tag `t` arrived. */
  function OnFirstByte(s: Sched, t: string): Sched {
    if t !in s.tags || s.tags[t].starving <= 0 then s
    else
      var x := s.tags[t];
      s.(tags := s.tags[t := x.(starving := x.starving - 1)], signals := s.signals + 1)
  }

  /** An operation of tag `t` is over. */
  function OnDone(s: Sched, t: string, stillStarving: bool): Sched {
    if t !in s.tags then s
    else
      var x := s.tags[t];
      var y := x.(active := if x.active > 0 then x.active - 1 else x.active,
                  starving := if stillStarving && x.starving > 0 then x.starving - 1 else x.starving);
      s.(tags := Update(s.tags, t, y), signals := s.signals + 1)
  }

  /** The operations that still have time. */
  function Keep(q: seq<Op>, now: int): (r: seq<Op>)
    ensures |r| <= |q|
  {
    if q == [] then []
    else if q[0].deadline >= now then [q[0]] + Keep(q[1..], now) else Keep(q[1..], now)
  }

  function KeepIn(x: TagState, now: int): TagState {
    x.(pending := Keep(x.pending, now))
  }

  /** Every queue drops its overdue operations. */
  function ExpireTags(tags: map<string, TagState>, now: int): map<string, TagState> {
    map t | t in tags && !Idle(KeepIn(tags[t], now)) :: KeepIn(tags[t], now)
  }

  function Queued(x: TagState): nat {
    |x.pending|
  }

  /** A number summed over all tags. */
  ghost function Sum(tags: map<string, TagState>, f: TagState -> nat): nat {
    if tags == map[] then 0
    else
      var t :| t in tags;
      f(tags[t]) + Sum(tags - {t}, f)
  }

  ghost function Expire(s: Sched, now: int): Sched {
    var tags := ExpireTags(s.tags, now);
    s.(tags := tags, total := s.total - (Sum(s.tags, Queued) - Sum(tags, Queued)))
  }

  function Ema(s: Sched, t: string): real {
    if t in s.ema then s.ema[t] else 0.0
  }

  /** The decayed average with the current load folded in. */
  function Blend(s: Sched, t: string, alpha: real): real {
    Ema(s, t) * (1.0 - alpha) + alpha * (Look(s.tags, t).active as real)
  }

  function Tick(s: Sched, alpha: real): Sched {
    s.(ema := map t | t in s.ema.Keys + s.tags.Keys && Blend(s, t, alpha) >= NOISE :: Blend(s, t, alpha))
  }

  // ---- The weighted draw.

  const MAX_CANDIDATES: nat := 32

  /** Averages are never negative. */
  predicate Gentle(s: Sched) {
    forall t | t in s.ema :: s.ema[t] >= 0.0
  }

  /** The share of the draw that a tag gets: the busier it was, the smaller. */
  function Weight(s: Sched, t: string): (w: real)
    requires Gentle(s)
    ensures 0.0 < w <= 1.0
  {
    1.0 / (1.0 + Ema(s, t))
  }

  /** The tags that may be served, in the order of the tag table. */
  function EligibleTags(s: Sched, order: seq<string>): (r: seq<string>)
    ensures forall t :: t in r <==> t in order && t in s.tags && Eligible(s.cfg, s.tags[t])
  {
    if order == [] then []
    else
      var rest := EligibleTags(s, order[1..]);
      if order[0] in s.tags && Eligible(s.cfg, s.tags[order[0]]) then [order[0]] + rest else rest
  }

  function TotalWeight(s: Sched, tags: seq<string>): (w: real)
    requires Gentle(s)
    ensures w >= 0.0
  {
    if tags == [] then 0.0 else TotalWeight(s, tags[..|tags| - 1]) + Weight(s, tags[|tags| - 1])
  }

  /** The candidate on which the draw `r` falls, or the last. */
  function Choose(s: Sched, candidates: seq<string>, r: real): (t: string)
    requires candidates != [] && Gentle(s)
    ensures t in candidates
  {
    if r - Weight(s, candidates[0]) <= 0.0 || |candidates| == 1 then candidates[0]
    else Choose(s, candidates[1..], r - Weight(s, candidates[0]))
  }

  /** The tag to serve; the empty name stands for none. */
  function Pick(s: Sched, order: seq<string>, r: real): string
    requires Gentle(s)
  {
    var es := EligibleTags(s, order);
    if es == [] then "" else Choose(s, es[..Min(|es|, MAX_CANDIDATES)], r)
  }

  function TryConsume(s: Sched, order: seq<string>, r: real): (result: (Sched, Option<Op>))
    requires Gentle(s)
  {
    if s.shutdown then (s, None)
    else
      var t := Pick(s, order, r);
      if t == "" || t !in s.tags || s.tags[t].pending == [] then (s, None)
      else
        var (after, op) := Dispatch(s, t);
        (after, Some(op))
  }

  predicate Distinct(order: seq<string>) {
    forall i, j | 0 <= i < j < |order| :: order[i] != order[j]
  }

  /** `order` lists the tag table, each name once, and `r` is a possible draw. */
  ghost predicate Fair(s: Sched, order: seq<string>, r: real)
    requires Gentle(s)
  {
    Distinct(order) && (forall t :: t in order <==> t in s.tags) && 0.0 <= r <= TotalWeight(s, EligibleTags(s, order))
  }

  /** Some tag has work and room for it. */
  ghost predicate SomeEligible(s: Sched) {
    exists t :: t in s.tags && Eligible(s.cfg, s.tags[t])
  }

  /** What is picked is eligible, and nothing is picked only if nothing is eligible. */
  lemma PickIsEligible(s: Sched, order: seq<string>, r: real)
    requires Gentle(s) && Fair(s, order, r)
    ensures var t := Pick(s, order, r);
            if SomeEligible(s) then t in s.tags && Eligible(s.cfg, s.tags[t]) else t == ""
  {
    var es := EligibleTags(s, order);
    if es != [] {
      var t := Pick(s, order, r);
      assert t in es[..Min(|es|, MAX_CANDIDATES)];
      assert t in es;
    } else {
      forall t | t in s.tags ensures !Eligible(s.cfg, s.tags[t]) {
        assert t !in es;
      }
    }
  }

  ghost function Listing(keys: set<string>): (order: seq<string>)
    ensures Distinct(order) && forall t :: t in order <==> t in keys
  {
    if keys == {} then []
    else
      var t :| t in keys;
      [t] + Listing(keys - {t})
  }

  /** Dispatch is work-conserving for every order of the table and every draw exactly when the nameless
      tag is not among the eligible ones: a running scheduler with an eligible tag then always serves
      one, while an eligible nameless tag can be drawn and taken for none. */
  lemma WorkConserving(s: Sched)
    requires Gentle(s) && !s.shutdown && SomeEligible(s)
    ensures (forall order, r :: Fair(s, order, r) ==> TryConsume(s, order, r).1.Some?)
            <==> !("" in s.tags && Eligible(s.cfg, s.tags[""]))
  {
    hide EligibleTags;
    if "" in s.tags && Eligible(s.cfg, s.tags[""]) {
      var order := NamelessFirst(s);
      assert Fair(s, order, 0.0) && TryConsume(s, order, 0.0).1.None?;
    } else {
      forall order, r | Fair(s, order, r) ensures TryConsume(s, order, r).1.Some? {
        PickIsEligible(s, order, r);
      }
    }
  }

  lemma NamelessFirst(s: Sched) returns (order: seq<string>)
    requires Gentle(s) && "" in s.tags && Eligible(s.cfg, s.tags[""])
    ensures Fair(s, order, 0.0) && Pick(s, order, 0.0) == ""
  {
    order := [""] + Listing(s.tags.Keys - {""});
    var es := EligibleTags(s, order);
    assert order[0] == "" && es[0] == "";
  }

  // ---- Which tags can be drawn.

  /** The weight of the first `i + 1` tags. */
  function FrontWeight(s: Sched, es: seq<string>, i: nat): (w: real)
    requires Gentle(s) && i < |es|
    ensures w > 0.0
  {
    Weight(s, es[0]) + if i == 0 then 0.0 else FrontWeight(s, es[1..], i - 1)
  }

  lemma {:induction false} TotalFront(s: Sched, es: seq<string>)
    requires Gentle(s) && es != []
    ensures TotalWeight(s, es) == Weight(s, es[0]) + TotalWeight(s, es[1..])
  {
    hide Weight;
    var init, last := es[..|es| - 1], es[|es| - 1];
    if init != [] {
      TotalFront(s, init);
      assert init[1..] == es[1..][..|es| - 2];
      assert es[1..][|es| - 2] == last;
    }
  }

  lemma {:induction false} FrontBounded(s: Sched, es: seq<string>, i: nat)
    requires Gentle(s) && i < |es|
    ensures FrontWeight(s, es, i) <= TotalWeight(s, es)
  {
    TotalFront(s, es);
    if i > 0 { FrontBounded(s, es[1..], i - 1); }
  }

  lemma {:induction false} ChooseAt(s: Sched, es: seq<string>, n: nat, i: nat)
    requires Gentle(s) && i < n <= |es|
    ensures Choose(s, es[..n], FrontWeight(s, es, i)) == es[i]
  {
    hide Weight;
    if i > 0 {
      ChooseAt(s, es[1..], n - 1, i - 1);
      assert es[..n][1..] == es[1..][..n - 1];
    }
  }

  /** With some tag eligible, a tag can be drawn if and only if it is among the first 32 eligible ones in
      the order of the table; the others wait until that order or their number changes. */
  lemma DrawableExactly(s: Sched, order: seq<string>, t: string)
    requires Gentle(s) && Distinct(order) && (forall u :: u in order <==> u in s.tags) && SomeEligible(s)
    ensures var es := EligibleTags(s, order);
            (exists r :: Fair(s, order, r) && Pick(s, order, r) == t) <==> t in es[..Min(|es|, MAX_CANDIDATES)]
  {
    hide TotalWeight, Choose, FrontWeight;
    var es := EligibleTags(s, order);
    var e :| e in s.tags && Eligible(s.cfg, s.tags[e]);
    assert e in es;
    hide EligibleTags;
    var n := Min(|es|, MAX_CANDIDATES);
    if t in es[..n] {
      var i :| 0 <= i < n && es[..n][i] == t;
      ChooseAt(s, es, n, i);
      FrontBounded(s, es, i);
      assert Fair(s, order, FrontWeight(s, es, i)) && Pick(s, order, FrontWeight(s, es, i)) == t;
    }
  }

  // ---- How often a tag is drawn.

  /** The candidate on which a draw falls: the weights of the candidates before it are passed, and its own is not. */
  lemma {:induction false} ChooseExactly(s: Sched, cs: seq<string>, r: real, i: nat)
    requires Gentle(s) && Distinct(cs) && i < |cs| && 0.0 <= r
    ensures Choose(s, cs, r) == cs[i] <==>
            ((i == 0 || TotalWeight(s, cs[..i]) < r) && (i == |cs| - 1 || r <= TotalWeight(s, cs[..i + 1])))
    decreases |cs|
  {
    hide Weight;
    var w, rest := Weight(s, cs[0]), cs[1..];
    FirstWeighs(s, cs, i);
    hide TotalWeight;
    if !(r - w <= 0.0 || |cs| == 1) {
      if i == 0 {
        hide Choose;
        ChosenLater(s, cs, r);
      } else {
        ChooseExactly(s, rest, r - w, i - 1);
        assert Distinct(rest);
      }
    }
  }

  lemma ChosenLater(s: Sched, cs: seq<string>, r: real)
    requires Gentle(s) && Distinct(cs) && |cs| > 1 && r - Weight(s, cs[0]) > 0.0
    ensures Choose(s, cs, r) != cs[0]
  {
    hide Weight;
    assert Choose(s, cs[1..], r - Weight(s, cs[0])) in cs[1..];
  }

  lemma FirstWeighs(s: Sched, cs: seq<string>, i: nat)
    requires Gentle(s) && i < |cs|
    ensures TotalWeight(s, cs[..i + 1]) == Weight(s, cs[0]) + TotalWeight(s, cs[1..][..i])
    ensures i > 0 ==> TotalWeight(s, cs[..i]) == Weight(s, cs[0]) + TotalWeight(s, cs[1..][..i - 1])
    ensures i > 0 ==> TotalWeight(s, cs[..i]) >= Weight(s, cs[0])
    ensures i == 0 ==> TotalWeight(s, cs[..1]) == Weight(s, cs[0])
  {
    hide Weight;
    TotalFront(s, cs[..i + 1]);
    assert cs[..i + 1][1..] == cs[1..][..i];
    if i > 0 {
      TotalFront(s, cs[..i]);
      assert cs[..i][1..] == cs[1..][..i - 1];
    } else {
      NoWeight(s);
    }
  }

  lemma {:induction false} EligibleDistinct(s: Sched, order: seq<string>)
    requires Distinct(order)
    ensures Distinct(EligibleTags(s, order))
  {
    if order != [] {
      assert forall i, j | 0 <= i < j < |order[1..]| :: order[1..][i] != order[1..][j];
      EligibleDistinct(s, order[1..]);
    }
  }

  /** Where the draws begin and end on which the `i`-th eligible tag is served.  The last of 32 recorded tags
      also gets the draws of those that were not recorded. */
  function Low(s: Sched, es: seq<string>, i: nat): real
    requires Gentle(s) && i < |es|
  {
    TotalWeight(s, es[..i])
  }

  function High(s: Sched, es: seq<string>, i: nat): real
    requires Gentle(s) && i < |es|
  {
    TotalWeight(s, if i + 1 == MAX_CANDIDATES then es else es[..i + 1])
  }

  /** Exactly the draws between the two serve the tag. */
  lemma DrawExactly(s: Sched, order: seq<string>, i: nat, r: real)
    requires Gentle(s) && Fair(s, order, r) && i < Min(|EligibleTags(s, order)|, MAX_CANDIDATES)
    ensures var es := EligibleTags(s, order);
            Pick(s, order, r) == es[i] <==> (Low(s, es, i) < r <= High(s, es, i) || (i == 0 && r == 0.0))
  {
    var es := EligibleTags(s, order);
    EligibleDistinct(s, order);
    hide EligibleTags;
    ChooseAmong(s, es, i, r);
    hide Low, High;
  }

  lemma ChooseAmong(s: Sched, es: seq<string>, i: nat, r: real)
    requires Gentle(s) && Distinct(es) && i < Min(|es|, MAX_CANDIDATES) && 0.0 <= r <= TotalWeight(s, es)
    ensures Choose(s, es[..Min(|es|, MAX_CANDIDATES)], r) == es[i] <==> (Low(s, es, i) < r <= High(s, es, i) || (i == 0 && r == 0.0))
  {
    var n := Min(|es|, MAX_CANDIDATES);
    var cs := es[..n];
    assert cs[..i] == es[..i] && cs[..i + 1] == es[..i + 1];
    ChooseExactly(s, cs, r, i);
    if i == 0 { assert es[..0] == []; NoWeight(s); }
    if i + 1 == n && n == |es| { assert es[..i + 1] == es; }
    hide Choose, TotalWeight;
  }

  /** `share` is one part in one plus the average load `e`. */
  predicate OnePartIn(share: real, e: real) {
    share * (1.0 + e) == 1.0
  }

  lemma ShareWeighs(s: Sched, es: seq<string>, i: nat)
    requires Gentle(s) && i < |es| && i < MAX_CANDIDATES
    ensures var share := High(s, es, i) - Low(s, es, i);
            if i + 1 == MAX_CANDIDATES && |es| > MAX_CANDIDATES then share > Weight(s, es[i]) else share == Weight(s, es[i])
  {
    hide Weight;
    assert es[..i + 1][..i] == es[..i];
    assert TotalWeight(s, es[..i + 1]) == TotalWeight(s, es[..i]) + Weight(s, es[i]);
    if i + 1 == MAX_CANDIDATES {
      if |es| == MAX_CANDIDATES { assert es[..i + 1] == es; } else { PrefixWeighs(s, es, i + 1); }
    }
  }

  /** The length of that interval is one part in one plus the tag's average load, and the whole unit for a tag
      without an average; only the last recorded tag gets more, if some were not recorded. */
  lemma ShareExactly(s: Sched, es: seq<string>, i: nat)
    requires Gentle(s) && i < |es| && i < MAX_CANDIDATES
    ensures var share := High(s, es, i) - Low(s, es, i);
            if i + 1 == MAX_CANDIDATES && |es| > MAX_CANDIDATES then exists w: real :: OnePartIn(w, Ema(s, es[i])) && w < share
            else OnePartIn(share, Ema(s, es[i])) && (es[i] !in s.ema ==> share == 1.0)
  {
    WeightMeans(s, es[i]);
    ShareWeighs(s, es, i);
    hide High, Low, OnePartIn, Weight;
  }

  /** So of two recorded tags the one with the larger average has the strictly smaller share. */
  lemma BusierDrawnLess(s: Sched, es: seq<string>, i: nat, j: nat)
    requires Gentle(s) && i < |es| && j < |es| && i + 1 < MAX_CANDIDATES && j + 1 < MAX_CANDIDATES
    requires Ema(s, es[i]) < Ema(s, es[j])
    ensures High(s, es, j) - Low(s, es, j) < High(s, es, i) - Low(s, es, i)
  {
    ShareExactly(s, es, i);
    ShareExactly(s, es, j);
    hide High, Low, OnePartIn;
    SmallerShare(Ema(s, es[i]), Ema(s, es[j]), High(s, es, i) - Low(s, es, i), High(s, es, j) - Low(s, es, j));
  }

  lemma SmallerShare(e: real, f: real, share: real, other: real)
    requires 0.0 <= e < f && OnePartIn(share, e) && OnePartIn(other, f)
    ensures other < share
  {
  }

  lemma NoWeight(s: Sched)
    requires Gentle(s)
    ensures TotalWeight(s, []) == 0.0
  {
  }

  lemma WeightMeans(s: Sched, t: string)
    requires Gentle(s)
    ensures OnePartIn(Weight(s, t), Ema(s, t)) && (t !in s.ema ==> Weight(s, t) == 1.0)
  {
  }

  /** Every further tag adds weight. */
  lemma {:induction false} PrefixWeighs(s: Sched, es: seq<string>, n: nat)
    requires Gentle(s) && n < |es|
    ensures TotalWeight(s, es[..n]) < TotalWeight(s, es)
    decreases |es|
  {
    var init := es[..|es| - 1];
    if n < |init| {
      PrefixWeighs(s, init, n);
      assert init[..n] == es[..n];
    } else {
      assert es[..n] == init;
    }
  }

  /** A tick moves each average towards the tag's current load, by the given fraction of the way; what is left
      below the noise limit is forgotten. */
  lemma TickApproaches(s: Sched, alpha: real, t: string)
    ensures var load := Look(s.tags, t).active as real; var moved := Ema(s, t) + alpha * (load - Ema(s, t));
            Ema(Tick(s, alpha), t) == if moved < NOISE then 0.0 else moved
  {
    var load := Look(s.tags, t).active as real;
    assert Blend(s, t, alpha) == Ema(s, t) + alpha * (load - Ema(s, t)) by {
      MovesTowards(Ema(s, t), alpha, load);
    }
    if t !in s.ema && t !in s.tags {
      assert load == 0.0 && Ema(s, t) == 0.0;
    }
  }

  lemma MovesTowards(e: real, alpha: real, load: real)
    ensures e * (1.0 - alpha) + alpha * load == e + alpha * (load - e)
  {
  }

  // ---- Sums.

  lemma {:induction false} SumRemove(tags: map<string, TagState>, f: TagState -> nat, t: string)
    requires t in tags
    ensures Sum(tags, f) == f(tags[t]) + Sum(tags - {t}, f)
    decreases |tags|
  {
    var u :| u in tags && Sum(tags, f) == f(tags[u]) + Sum(tags - {u}, f);
    if u != t {
      SumRemove(tags - {u}, f, t);
      SumRemove(tags - {t}, f, u);
      assert tags - {u} - {t} == tags - {t} - {u};
    }
  }

  lemma SumChange(tags: map<string, TagState>, f: TagState -> nat, t: string, x: TagState)
    requires f(TagState([], 0, 0, 0, 0)) == 0
    ensures Sum(tags[t := x], f) == Sum(tags, f) - f(Look(tags, t)) + f(x)
  {
    var after := tags[t := x];
    SumRemove(after, f, t);
    assert after - {t} == tags - {t};
    if t in tags {
      SumRemove(tags, f, t);
    } else {
      assert tags - {t} == tags;
    }
  }

  lemma SumDrop(tags: map<string, TagState>, f: TagState -> nat, t: string)
    requires t in tags ==> f(tags[t]) == 0
    ensures Sum(tags - {t}, f) == Sum(tags, f)
  {
    if t in tags {
      SumRemove(tags, f, t);
    } else {
      assert tags - {t} == tags;
    }
  }

  /** Pointwise smaller tables have smaller sums. */
  lemma {:induction false} SumMono(a: map<string, TagState>, b: map<string, TagState>, f: TagState -> nat)
    requires forall t | t in a :: t in b && f(a[t]) <= f(b[t])
    ensures Sum(a, f) <= Sum(b, f)
    decreases |b|
  {
    if a != map[] {
      var t :| t in a;
      SumRemove(a, f, t);
      SumRemove(b, f, t);
      SumMono(a - {t}, b - {t}, f);
    } 
  }
}
