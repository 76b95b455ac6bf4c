/** The scheduler object: its methods change the tag table, the counters and the averages in place.  A
    ghost world records the life of every operation; each method is proved to take the world one event
    further and to keep its invariant, so what holds of every run holds of the object.  The iteration
    order of the hash tables is left open: it is the parameter `order`, or any choice. */
module TagScheduler {
  import opened Common
  import opened Scheduler
  import opened SchedulerRun

  class TagScheduler {
    const cfg: Config
    var tags: map<string, TagState>
    var total: int
    var shutdown: bool
    var signals: nat
    var rejectsGlobal: nat
    var rejectsPerTag: nat
    var ema: map<string, real>

    ghost function Abs(): Sched
      reads this
    {
      Sched(cfg, tags, total, shutdown, signals, rejectsGlobal, rejectsPerTag, ema)
    }

    ghost var world: World

    ghost predicate Valid()
      reads this
    {
      Inv(world) && world.s == Abs()
    }

    constructor (workers: nat, starvingPercent: int, activePercent: int, pendingLimit: int, perTagLimit: int)
      ensures Valid() && world == Begin(cfg) && 1 <= cfg.starvingCap && 1 <= cfg.activeCap
      ensures workers >= 1 ==> cfg == Config(PercentToCap(workers, starvingPercent), PercentToCap(workers, activePercent), pendingLimit, perTagLimit)
    {
      var pool := if workers >= 1 then workers else 1;
      cfg := Config(PercentToCap(pool, starvingPercent), PercentToCap(pool, activePercent), pendingLimit, perTagLimit);
      tags, total, shutdown, signals, rejectsGlobal, rejectsPerTag, ema := map[], 0, false, 0, 0, 0, map[];
      world := Begin(Config(PercentToCap(pool, starvingPercent), PercentToCap(pool, activePercent), pendingLimit, perTagLimit));
      BeginGood(Config(PercentToCap(pool, starvingPercent), PercentToCap(pool, activePercent), pendingLimit, perTagLimit));
      hide Inv;
    }

    /** Accepted exactly when the scheduler runs, fewer operations than the limit wait in all, and fewer than
        the tag's limit wait under its tag; then it waits at the end of its tag's line. */
    method Admit(op: Op) returns (ok: bool)
      requires Valid() && op.id !in world.lives
      modifies this
      ensures Valid() && world == Apply(old(world), Arrive(op))
      ensures ok <==> !old(shutdown) && (cfg.pendingLimit <= 0 || Sum(old(tags), Queued) < cfg.pendingLimit)
                      && (cfg.perTagLimit <= 0 || |Line(old(world).log, old(world).lives, op.tag)| < cfg.perTagLimit)
      ensures Line(world.log, world.lives, op.tag) == Line(old(world).log, old(world).lives, op.tag) + if ok then [op] else []
      ensures signals == old(signals) + if ok then 1 else 0
      ensures var full := cfg.pendingLimit > 0 && Sum(old(tags), Queued) >= cfg.pendingLimit;
              && rejectsGlobal == old(rejectsGlobal) + (if !old(shutdown) && full then 1 else 0)
              && rejectsPerTag == old(rejectsPerTag) + (if !old(shutdown) && !full && !ok then 1 else 0)
      ensures var x, y := Look(old(tags), op.tag), Look(tags, op.tag);
              y.admits == x.admits + (if ok then 1 else 0) && y.rejects == x.rejects + (if ok || old(shutdown) then 0 else 1)
    {
      hide Inv, Line, Sum;
      StepKeeps(world, Arrive(op));
      AdmitMeans(world, op);
      ok := AdmitTables(op);
      world := Apply(world, Arrive(op));
    }

    method AdmitTables(op: Op) returns (ok: bool)
      modifies this`tags, this`total, this`signals, this`rejectsGlobal, this`rejectsPerTag
      ensures (Abs(), ok) == Scheduler.Admit(old(Abs()), op)
    {
      if shutdown {
        return false;
      }
      var x := Look(tags, op.tag);
      if cfg.pendingLimit > 0 && total >= cfg.pendingLimit {
        rejectsGlobal := rejectsGlobal + 1;
        tags := tags[op.tag := x.(rejects := x.rejects + 1)];
        return false;
      }
      if cfg.perTagLimit > 0 && |x.pending| >= cfg.perTagLimit {
        rejectsPerTag := rejectsPerTag + 1;
        tags := tags[op.tag := x.(rejects := x.rejects + 1)];
        return false;
      }
      tags := tags[op.tag := x.(pending := x.pending + [op], admits := x.admits + 1)];
      total := total + 1;
      signals := signals + 1;
      return true;
    }

    /** The eligible tags, up to the size of the candidate list, and the weight of all of them. */
    method Collect(order: seq<string>) returns (candidates: seq<string>, weights: real)
      requires Gentle(Abs()) && forall t :: t in order <==> t in tags
      ensures var es := EligibleTags(Abs(), order);
              candidates == es[..Min(|es|, MAX_CANDIDATES)] && weights == TotalWeight(Abs(), es)
    {
      hide EligibleTags, TotalWeight;
      ghost var s := Abs();
      candidates, weights := [], 0.0;
      assert EligibleTags(s, order[..0]) == [] && TotalWeight(s, []) == 0.0 by { NoneEligible(s, order[..0]); }
      for i := 0 to |order|
        invariant var es := EligibleTags(s, order[..i]);
                  candidates == es[..Min(|es|, MAX_CANDIDATES)] && weights == TotalWeight(s, es)
      {
        EligibleAppend(s, order[..i], order[i]);
        assert EligibleTags(s, order[..i]) + [] == EligibleTags(s, order[..i]);
        assert order[..i + 1] == order[..i] + [order[i]];
        var x := tags[order[i]];
        if x.pending == [] || x.starving >= cfg.starvingCap || x.active >= cfg.activeCap {
          continue;
        }
        var average := if order[i] in ema then ema[order[i]] else 0.0;
        var w := 1.0 / (1.0 + average);
        TotalAppend(s, EligibleTags(s, order[..i]), order[i]);
        if |candidates| < MAX_CANDIDATES {
          candidates := candidates + [order[i]];
        }
        weights := weights + w;
      }
      assert order[..|order|] == order;
    }

    /** The candidate on which the draw falls. */
    method Draw(candidates: seq<string>, draw: real) returns (tag: string)
      requires Gentle(Abs()) && candidates != []
      ensures tag == Choose(Abs(), candidates, draw)
    {
      ghost var s := Abs();
      var r := draw;
      assert candidates[0..] == candidates;
      for i := 0 to |candidates|
        invariant i < |candidates| ==> Choose(s, candidates, draw) == Choose(s, candidates[i..], r)
        invariant i == |candidates| ==> Choose(s, candidates, draw) == candidates[|candidates| - 1]
      {
        r := r - 1.0 / (1.0 + if candidates[i] in ema then ema[candidates[i]] else 0.0);
        if r <= 0.0 {
          return candidates[i];
        }
        assert candidates[i..][1..] == candidates[i + 1..];
      }
      return candidates[|candidates| - 1];
    }

    /** The weighted draw; `unit` is the uniform random number it uses. */
    method PickTag(order: seq<string>, unit: real) returns (tag: string, ghost draw: real)
      requires Gentle(Abs()) && 0.0 <= unit <= 1.0 && Distinct(order) && forall t :: t in order <==> t in tags
      ensures Fair(Abs(), order, draw) && tag == Pick(Abs(), order, draw)
      ensures draw == unit * TotalWeight(Abs(), EligibleTags(Abs(), order))
    {
      hide EligibleTags, TotalWeight, Choose;
      var candidates, weights := Collect(order);
      UnitDraw(unit, weights);
      draw := unit * weights;
      if candidates == [] {
        return "", draw;
      }
      tag := Draw(candidates, unit * weights);
    }

    /** Serve the operation that has waited longest under some eligible tag. */
    method TryConsume(order: seq<string>, unit: real) returns (op: Option<Op>, ghost draw: real)
      requires Valid() && 0.0 <= unit <= 1.0 && Distinct(order) && forall t :: t in order <==> t in tags
      modifies this
      ensures Valid() && Possible(old(world), Serve(order, draw)) && world == Apply(old(world), Serve(order, draw))
      ensures !shutdown ==> draw == unit * TotalWeight(old(world).s, EligibleTags(old(world).s, order))
      ensures op.Some? ==> var t := op.value.tag;
                && t in old(tags) && Eligible(cfg, old(tags)[t])
                && Line(old(world).log, old(world).lives, t) == [op.value] + Line(world.log, world.lives, t)
      ensures op.None? && !shutdown && SomeEligible(old(Abs())) ==> "" in old(tags) && Eligible(cfg, old(tags)[""])
    {
      hide Inv, Line, Fair, EligibleTags, Pick;
      Bounds(world, "");
      op, draw := TryConsumeTables(order, unit);
      StepKeeps(world, Serve(order, draw));
      ServeMeans(world, order, draw);
      world := Apply(world, Serve(order, draw));
    }

    method TryConsumeTables(order: seq<string>, unit: real) returns (op: Option<Op>, ghost draw: real)
      requires Gentle(Abs()) && 0.0 <= unit <= 1.0 && Distinct(order) && forall t :: t in order <==> t in tags
      modifies this`tags, this`total
      ensures old(Gentle(Abs()) && Fair(Abs(), order, draw))
      ensures !shutdown ==> draw == unit * old(TotalWeight(Abs(), EligibleTags(Abs(), order)))
      ensures (Abs(), op) == Scheduler.TryConsume(old(Abs()), order, draw)
    {
      hide EligibleTags, TotalWeight, Choose;
      if shutdown {
        return None, 0.0;
      }
      var tag;
      tag, draw := PickTag(order, unit);
      PickIsEligible(Abs(), order, draw);
      if tag == "" {
        return None, draw;
      }
      var x := tags[tag];
      tags := tags[tag := x.(pending := x.pending[1..], active := x.active + 1, starving := x.starving + 1)];
      total := total - 1;
      return Some(x.pending[0]), draw;
    }

    /** Hand back every queued operation whose deadline has passed. */
    method Expire(now: int) returns (expired: seq<Op>)
      requires Valid()
      modifies this
      ensures Valid() && world == Apply(old(world), Expiry(now))
      ensures |expired| == old(total) - total
      ensures forall op :: op in expired <==> OverdueIn(old(tags), {}, now, op)
    {
      hide Inv, Sum, ExpireTags, OverdueIn;
      StepKeeps(world, Expiry(now));
      expired := ExpireTables(now);
      world := Apply(world, Expiry(now));
    }

    method ExpireTables(now: int) returns (expired: seq<Op>)
      modifies this`tags, this`total
      ensures Abs() == Scheduler.Expire(old(Abs()), now)
      ensures |expired| == old(total) - total
      ensures forall op :: op in expired <==> OverdueIn(old(tags), {}, now, op)
    {
      hide Keep, Sum, Partly, ExpireTags;
      ghost var before := tags;
      expired := [];
      var rest := tags.Keys;
      PartlyEnds(before, now);
      while rest != {}
        invariant rest <= tags.Keys && rest <= before.Keys && tags == Partly(before, rest, now)
        invariant total == old(total) - |expired| && Sum(tags, Queued) == Sum(before, Queued) - |expired|
        invariant forall op :: op in expired <==> OverdueIn(before, rest, now, op)
      {
        var t :| t in rest;
        var x := tags[t];
        PartlyStep(before, rest, now, t);
        var kept, overdue := Sweep(x.pending, now);
        ghost var was := tags;
        expired := expired + overdue;
        total := total - |overdue|;
        if kept == [] && x.active == 0 && x.starving == 0 {
          tags := tags - {t};
        } else {
          tags := tags[t := x.(pending := kept)];
        }
        SweepSum(was, t, x.(pending := kept));
        rest := rest - {t};
      }
    }

    /** The first byte of running operation `id` arrived: it no longer starves, and a worker is woken. */
    method OnFirstByte(tag: string, ghost id: nat)
      requires Valid() && Unanswered(world, id, tag)
      modifies this
      ensures Valid() && world == Apply(old(world), FirstByte(id))
      ensures Silent(world.lives, tag) == Silent(old(world).lives, tag) - {id} && Busy(world.lives, tag) == Busy(old(world).lives, tag)
      ensures Look(tags, tag).starving == |Silent(world.lives, tag)| == old(Look(tags, tag).starving) - 1
      ensures signals == old(signals) + 1
    {
      hide Inv;
      StepKeeps(world, FirstByte(id));
      FirstByteMeans(world, id, tag);
      if tag in tags && tags[tag].starving > 0 {
        tags := tags[tag := tags[tag].(starving := tags[tag].starving - 1)];
        signals := signals + 1;
      }
      world := Apply(world, FirstByte(id));
    }

    /** Running operation `id` is over: its slots are free, and a worker is woken. */
    method OnDone(tag: string, stillStarving: bool, ghost id: nat)
      requires Valid() && Unfinished(world, id, tag) && stillStarving == !world.lives[id].responded
      modifies this
      ensures Valid() && world == Apply(old(world), Finish(id))
      ensures Busy(world.lives, tag) == Busy(old(world).lives, tag) - {id} && Silent(world.lives, tag) == Silent(old(world).lives, tag) - {id}
      ensures Look(tags, tag).active == |Busy(world.lives, tag)| == old(Look(tags, tag).active) - 1
      ensures signals == old(signals) + 1
    {
      hide Inv, Busy, Silent;
      StepKeeps(world, Finish(id));
      DoneMeans(world, id, tag);
      DoneTables(tag, stillStarving);
      world := Apply(world, Finish(id));
    }

    method DoneTables(tag: string, stillStarving: bool)
      modifies this`tags, this`signals
      ensures Abs() == Scheduler.OnDone(old(Abs()), tag, stillStarving)
    {
      if tag !in tags {
        return;
      }
      var x := tags[tag];
      if x.active > 0 {
        x := x.(active := x.active - 1);
      }
      if stillStarving && x.starving > 0 {
        x := x.(starving := x.starving - 1);
      }
      if x.pending == [] && x.active == 0 && x.starving == 0 {
        tags := tags - {tag};
      } else {
        tags := tags[tag := x];
      }
      signals := signals + 1;
    }

    method Decay(alpha: real)
      modifies this`ema
      ensures ema == map t | t in old(ema) :: Faded(old(ema)[t], alpha)
    {
      hide Faded;
      ghost var before := ema;
      var rest := ema.Keys;
      while rest != {}
        invariant rest <= ema.Keys == before.Keys
        invariant forall t | t in ema :: ema[t] == if t in rest then before[t] else Faded(before[t], alpha)
      {
        var t :| t in rest;
        ema := ema[t := Faded(ema[t], alpha)];
        rest := rest - {t};
      }
    }

    method Fold(alpha: real)
      modifies this`ema
      ensures ema == map t | t in old(ema).Keys + tags.Keys :: Folded(old(ema), tags, alpha, t)
    {
      ghost var before := ema;
      var rest := tags.Keys;
      while rest != {}
        invariant rest <= tags.Keys && ema.Keys == before.Keys + (tags.Keys - rest)
        invariant forall t | t in ema :: ema[t] == if t in rest then before[t] else Folded(before, tags, alpha, t)
      {
        var t :| t in rest;
        var share := alpha * (tags[t].active as real);
        ema := ema[t := (if t in ema then ema[t] else 0.0) + share];
        rest := rest - {t};
      }
    }

    method Drop()
      modifies this`ema
      ensures ema == map t | t in old(ema) && old(ema)[t] >= NOISE :: old(ema)[t]
    {
      ghost var before := ema;
      var rest := ema.Keys;
      while rest != {}
        invariant rest <= ema.Keys <= before.Keys
        invariant forall t | t in before :: t in ema <==> t in rest || before[t] >= NOISE
        invariant forall t | t in ema :: ema[t] == before[t]
      {
        var t :| t in rest;
        if ema[t] < NOISE {
          ema := ema - {t};
        }
        rest := rest - {t};
      }
    }

    /** Let the averages decay, fold in the current load, and drop what is only noise. */
    method OnMonitorTick(alpha: real)
      requires Valid() && 0.0 <= alpha <= 1.0
      modifies this
      ensures Valid() && world == Apply(old(world), Monitor(alpha))
    {
      hide Inv, Tick;
      StepKeeps(world, Monitor(alpha));
      TickTables(alpha);
      world := Apply(world, Monitor(alpha));
    }

    method TickTables(alpha: real)
      modifies this`ema
      ensures Abs() == Tick(old(Abs()), alpha)
    {
      ghost var s := Abs();
      Decay(alpha);
      ghost var decayed := ema;
      Fold(alpha);
      forall t ensures Folded(decayed, tags, alpha, t) == Blend(s, t, alpha) {
        FoldBlends(s, alpha, t);
      }
      hide Folded, Blend;
      Drop();
    }

    method Shutdown()
      requires Valid()
      modifies this
      ensures Valid() && world == Apply(old(world), Stop)
    {
      hide Inv;
      StepKeeps(world, Stop);
      shutdown := true;
      world := Apply(world, Stop);
    }
  }

  // ---- What the events mean to a caller.

  /** Operation `id` runs under `tag` with its hooks installed; and it has not had its first byte. */
  predicate Unfinished(w: World, id: nat, tag: string) {
    id in w.lives && w.lives[id].phase == Running && w.lives[id].op.tag == tag && w.lives[id].hooked
  }

  predicate Unanswered(w: World, id: nat, tag: string) {
    Unfinished(w, id, tag) && !w.lives[id].responded
  }

  lemma AdmitMeans(w: World, op: Op)
    requires Inv(w) && op.id !in w.lives
    ensures var ok := Scheduler.Admit(w.s, op).1; var v := Apply(w, Arrive(op));
            && (ok <==> !w.s.shutdown && (w.s.cfg.pendingLimit <= 0 || Sum(w.s.tags, Queued) < w.s.cfg.pendingLimit)
                        && (w.s.cfg.perTagLimit <= 0 || |Line(w.log, w.lives, op.tag)| < w.s.cfg.perTagLimit))
            && Line(v.log, v.lives, op.tag) == Line(w.log, w.lives, op.tag) + (if ok then [op] else [])
            && v.s.signals == w.s.signals + (if ok then 1 else 0)
            && w.s.total == Sum(w.s.tags, Queued)
  {
    hide Line, Sum, Counted;
    LineArrives(w.log, w.lives, op, op.tag);
    assert Look(w.s.tags, op.tag).pending == Line(w.log, w.lives, op.tag);
  }

  lemma ServeMeans(w: World, order: seq<string>, draw: real)
    requires Inv(w) && Possible(w, Serve(order, draw))
    ensures var op := Scheduler.TryConsume(w.s, order, draw).1; var v := Apply(w, Serve(order, draw));
            && (op.Some? ==> var t := op.value.tag;
                  && t in w.s.tags && Eligible(w.s.cfg, w.s.tags[t])
                  && Line(w.log, w.lives, t) == [op.value] + Line(v.log, v.lives, t))
            && (op.None? && !w.s.shutdown && SomeEligible(w.s) ==> "" in w.s.tags && Eligible(w.s.cfg, w.s.tags[""]))
  {
    PickIsEligible(w.s, order, draw);
    hide Line, Sum, Counted, Pick, Fair;
    var op := Scheduler.TryConsume(w.s, order, draw).1;
    if op.Some? {
      var t := Pick(w.s, order, draw);
      assert w.s.tags[t].pending == Line(w.log, w.lives, t);
      HeadWaits(w.log, w.lives, t);
      LineServes(w.log, w.lives, t, Life(op.value, Running, true, false), t);
    }
  }

  lemma FirstByteMeans(w: World, id: nat, tag: string)
    requires Inv(w) && Unanswered(w, id, tag)
    ensures var v := Apply(w, FirstByte(id));
            && Silent(v.lives, tag) == Silent(w.lives, tag) - {id} && Busy(v.lives, tag) == Busy(w.lives, tag)
            && tag in w.s.tags && w.s.tags[tag].starving == |Silent(w.lives, tag)| > 0
            && |Silent(v.lives, tag)| == |Silent(w.lives, tag)| - 1
  {
    hide Limits, Line;
    HookCounts(w.s.tags, w.log, w.lives, id);
    assert id in Silent(w.lives, tag);
    assert Silent(Apply(w, FirstByte(id)).lives, tag) == Silent(w.lives, tag) - {id};
  }

  lemma DoneMeans(w: World, id: nat, tag: string)
    requires Inv(w) && Unfinished(w, id, tag)
    ensures var v := Apply(w, Finish(id));
            && Busy(v.lives, tag) == Busy(w.lives, tag) - {id} && Silent(v.lives, tag) == Silent(w.lives, tag) - {id}
            && tag in w.s.tags && Look(w.s.tags, tag).active == |Busy(w.lives, tag)| > 0
            && |Busy(v.lives, tag)| == |Busy(w.lives, tag)| - 1
            && Look(v.s.tags, tag).active == |Busy(v.lives, tag)|
  {
    StepKeeps(w, Finish(id));
    hide Limits, Line;
    HookCounts(w.s.tags, w.log, w.lives, id);
    assert id in Busy(w.lives, tag);
    assert Busy(Apply(w, Finish(id)).lives, tag) == Busy(w.lives, tag) - {id};
  }

  function Faded(average: real, alpha: real): real {
    average * (1.0 - alpha)
  }

  /** A decayed average with the current load folded in. */
  function Folded(ema: map<string, real>, tags: map<string, TagState>, alpha: real, t: string): real {
    (if t in ema then ema[t] else 0.0) + if t in tags then alpha * (tags[t].active as real) else 0.0
  }

  lemma FoldBlends(s: Sched, alpha: real, t: string)
    ensures Folded(map u | u in s.ema :: Faded(s.ema[u], alpha), s.tags, alpha, t) == Blend(s, t, alpha)
  {
  }

  method Sweep(q: seq<Op>, now: int) returns (kept: seq<Op>, overdue: seq<Op>)
    ensures kept == Keep(q, now) && |kept| + |overdue| == |q|
    ensures forall op :: op in overdue <==> op in q && op.deadline < now
  {
    kept, overdue := [], [];
    for i := 0 to |q|
      invariant kept == Keep(q[..i], now) && |kept| + |overdue| == i
      invariant forall op :: op in overdue <==> op in q[..i] && op.deadline < now
    {
      assert q[..i + 1] == q[..i] + [q[i]];
      KeepAppend(q[..i], [q[i]], now);
      KeepOne(q[i], now);
      if q[i].deadline >= now {
        kept := kept + [q[i]];
      } else {
        overdue := overdue + [q[i]];
      }
    }
    assert q[..|q|] == q;
  }

  lemma KeepOne(op: Op, now: int)
    ensures Keep([op], now) == if op.deadline >= now then [op] else []
  {
    assert [op][1..] == [];
  }

  /** The table when only the tags in `rest` are still to be swept. */
  ghost function Partly(tags: map<string, TagState>, rest: set<string>, now: int): map<string, TagState> {
    map t | t in tags && (t in rest || !Idle(KeepIn(tags[t], now))) :: if t in rest then tags[t] else KeepIn(tags[t], now)
  }

  /** `op` is overdue in the queue of a tag outside `rest`. */
  ghost predicate OverdueIn(tags: map<string, TagState>, rest: set<string>, now: int, op: Op) {
    op.deadline < now && exists t :: t in tags && t !in rest && op in tags[t].pending
  }

  lemma PartlyEnds(tags: map<string, TagState>, now: int)
    ensures Partly(tags, tags.Keys, now) == tags && Partly(tags, {}, now) == ExpireTags(tags, now)
  {
  }

  lemma PartlyStep(tags: map<string, TagState>, rest: set<string>, now: int, t: string)
    requires t in rest && rest <= tags.Keys
    ensures var x := Partly(tags, rest, now);
            t in x && x[t] == tags[t] && Update(x, t, KeepIn(tags[t], now)) == Partly(tags, rest - {t}, now)
            && rest - {t} <= Partly(tags, rest - {t}, now).Keys
    ensures forall op :: OverdueIn(tags, rest - {t}, now, op) <==>
                         OverdueIn(tags, rest, now, op) || (op.deadline < now && op in tags[t].pending)
  {
  }

  lemma SweepSum(tags: map<string, TagState>, t: string, y: TagState)
    requires t in tags
    ensures Sum(Update(tags, t, y), Queued) == Sum(tags, Queued) - |tags[t].pending| + |y.pending|
  {
    SumChange(tags, Queued, t, y);
    if Idle(y) {
      SumDrop(tags[t := y], Queued, t);
      assert tags[t := y] - {t} == tags - {t};
    }
  }

  lemma NoneEligible(s: Sched, order: seq<string>)
    requires order == [] && Gentle(s)
    ensures EligibleTags(s, order) == [] && TotalWeight(s, []) == 0.0
  {
  }

  lemma {:induction false} EligibleAppend(s: Sched, order: seq<string>, t: string)
    ensures EligibleTags(s, order + [t])
            == EligibleTags(s, order) + if t in s.tags && Eligible(s.cfg, s.tags[t]) then [t] else []
  {
    if order == [] {
      assert order + [t] == [t];
      assert EligibleTags(s, [t][1..]) == [];
    } else {
      assert (order + [t])[1..] == order[1..] + [t];
      EligibleAppend(s, order[1..], t);
    }
  }

  lemma TotalAppend(s: Sched, es: seq<string>, t: string)
    requires Gentle(s)
    ensures TotalWeight(s, es + [t]) == TotalWeight(s, es) + Weight(s, t)
  {
    assert (es + [t])[..|es|] == es;
  }

  lemma UnitDraw(unit: real, weights: real)
    requires 0.0 <= unit <= 1.0 && 0.0 <= weights
    ensures 0.0 <= unit * weights <= weights
  {
    assert (1.0 - unit) * weights >= 0.0;
  }
}
