/** Every run of the scheduler together with the life of every operation: what the counters mean, that
    wake-ups are never lost, and that each tag is served in order of arrival. */
module SchedulerRun {
  import opened Common
  import opened Scheduler

  datatype Phase = Waiting | Running | Over

  /** An admitted operation.  `hooked` says that its completion hooks are installed, `responded` is the
      flag the two hooks share. */
  datatype Life = Life(op: Op, phase: Phase, hooked: bool, responded: bool)

  /** `log` lists the admitted operations in order of arrival; `served` counts the dispatches. */
  datatype World = World(s: Sched, log: seq<Op>, lives: map<nat, Life>, served: nat)

  /** `FirstByte` and `Finish` are an operation's calls of its hooks; an expired operation is finished
      (failed) by whoever expired it. */
  datatype Event =
    | Arrive(op: Op)
    | Serve(order: seq<string>, draw: real)
    | Expiry(now: int)
    | FirstByte(id: nat)
    | Finish(id: nat)
    | Monitor(alpha: real)
    | Stop

  ghost predicate Possible(w: World, e: Event) {
    match e
    case Arrive(op) => op.id !in w.lives
    case Serve(order, draw) => Gentle(w.s) && Fair(w.s, order, draw)
    case FirstByte(id) => id in w.lives && w.lives[id].phase == Running
    case Finish(id) => id in w.lives && w.lives[id].phase != Waiting
    case Monitor(alpha) => 0.0 <= alpha <= 1.0
    case _ => true
  }

  function Lapse(lives: map<nat, Life>, now: int): map<nat, Life> {
    map id | id in lives ::
      if lives[id].phase == Waiting && lives[id].op.deadline < now then lives[id].(phase := Over, hooked := false)
      else lives[id]
  }

  ghost function Apply(w: World, e: Event): World
    requires Possible(w, e)
  {
    match e
    case Arrive(op) =>
      var (s, ok) := Admit(w.s, op);
      if ok then w.(s := s, log := w.log + [op], lives := w.lives[op.id := Life(op, Waiting, true, false)])
      else w.(s := s)
    case Serve(order, draw) =>
      var (s, got) := TryConsume(w.s, order, draw);
      (match got
       case None => w.(s := s)
       case Some(op) =>
         w.(s := s, served := w.served + 1, lives := w.lives[op.id := Life(op, Running, true, false)]))
    case Expiry(now) => w.(s := Expire(w.s, now), lives := Lapse(w.lives, now))
    case FirstByte(id) =>
      var l := w.lives[id];
      if l.hooked && !l.responded then
        w.(s := OnFirstByte(w.s, l.op.tag), lives := w.lives[id := l.(responded := true)])
      else w
    case Finish(id) =>
      var l := w.lives[id];
      if l.hooked then
        w.(s := OnDone(w.s, l.op.tag, !l.responded), lives := w.lives[id := l.(phase := Over, hooked := false)])
      else w
    case Monitor(alpha) => w.(s := Tick(w.s, alpha))
    case Stop => w.(s := w.s.(shutdown := true))
  }

  ghost predicate Legal(w: World, es: seq<Event>)
    decreases |es|
  {
    es == [] || (Possible(w, es[0]) && Legal(Apply(w, es[0]), es[1..]))
  }

  ghost function Exec(w: World, es: seq<Event>): World
    requires Legal(w, es)
    decreases |es|
  {
    if es == [] then w else Exec(Apply(w, es[0]), es[1..])
  }

  function Begin(cfg: Config): World {
    World(Start(cfg), [], map[], 0)
  }

  // ---- The invariant.

  /** The operations of a tag that a worker has, and those of them still without a response. */
  ghost function Busy(lives: map<nat, Life>, t: string): set<nat> {
    set id | id in lives && lives[id].op.tag == t && lives[id].phase == Running
  }

  ghost function Silent(lives: map<nat, Life>, t: string): set<nat> {
    set id | id in Busy(lives, t) && !lives[id].responded
  }

  /** The waiting operations of a tag in order of arrival. */
  function Line(log: seq<Op>, lives: map<nat, Life>, t: string): seq<Op> {
    if log == [] then []
    else
      var rest := Line(log[1..], lives, t);
      var op := log[0];
      if op.tag == t && op.id in lives && lives[op.id].phase == Waiting then [op] + rest else rest
  }

  /** Everyone in the log is known, once. */
  ghost predicate Logged(log: seq<Op>, lives: map<nat, Life>) {
    && (forall i | 0 <= i < |log| :: log[i].id in lives && lives[log[i].id].op == log[i])
    && (forall i, j | 0 <= i < j < |log| :: log[i].id != log[j].id)
  }

  /** Identities match, and exactly the operations that are not over have hooks. */
  ghost predicate Hooks(lives: map<nat, Life>) {
    forall id | id in lives ::
      lives[id].op.id == id && (lives[id].hooked <==> lives[id].phase != Over) && (lives[id].responded ==> lives[id].phase != Waiting)
  }

  ghost predicate Counted(tags: map<string, TagState>, lives: map<nat, Life>) {
    forall t :: Look(tags, t).active == |Busy(lives, t)| && Look(tags, t).starving == |Silent(lives, t)|
  }

  ghost predicate Lined(tags: map<string, TagState>, log: seq<Op>, lives: map<nat, Life>) {
    forall t :: Look(tags, t).pending == Line(log, lives, t)
  }

  ghost predicate Capped(cfg: Config, tags: map<string, TagState>) {
    forall t :: Look(tags, t).active <= cfg.activeCap && Look(tags, t).starving <= cfg.starvingCap
  }

  ghost predicate Averaged(s: Sched) {
    forall t | t in s.ema :: 0.0 <= s.ema[t] <= s.cfg.activeCap as real
  }

  /** How many operations of a tag could be served right now, one after the other. */
  function ReadyIn(cfg: Config, x: TagState): nat {
    var a := Min(|x.pending|, if cfg.starvingCap > x.starving then cfg.starvingCap - x.starving else 0);
    Min(a, if cfg.activeCap > x.active then cfg.activeCap - x.active else 0)
  }

  function Ready(cfg: Config): TagState -> nat {
    (x: TagState) => ReadyIn(cfg, x)
  }

  /** The records agree with the lives of the operations. */
  ghost predicate Books(tags: map<string, TagState>, log: seq<Op>, lives: map<nat, Life>) {
    Logged(log, lives) && Hooks(lives) && Counted(tags, lives) && Lined(tags, log, lives)
  }

  /** The total is the sum of the queues, caps are kept, and no wake-up is missing. */
  ghost predicate Limits(s: Sched, served: nat) {
    && s.total == Sum(s.tags, Queued)
    && s.cfg.starvingCap >= 1 && s.cfg.activeCap >= 1 && Capped(s.cfg, s.tags) && Averaged(s)
    && s.signals >= served + Sum(s.tags, Ready(s.cfg))
  }

  ghost predicate Inv(w: World) {
    Books(w.s.tags, w.log, w.lives) && Limits(w.s, w.served)
  }

  // ---- Lines.

  lemma {:induction false} LineMembers(log: seq<Op>, lives: map<nat, Life>, t: string)
    ensures forall op | op in Line(log, lives, t) ::
              op in log && op.tag == t && op.id in lives && lives[op.id].phase == Waiting
  {
    if log != [] {
      LineMembers(log[1..], lives, t);
    }
  }

  /** A change to an operation that is not in the log changes no line. */
  lemma {:induction false} LineSame(log: seq<Op>, lives: map<nat, Life>, id: nat, l: Life, t: string)
    requires forall i | 0 <= i < |log| :: log[i].id != id
    ensures Line(log, lives[id := l], t) == Line(log, lives, t)
  {
    if log != [] {
      LineSame(log[1..], lives, id, l, t);
    }
  }

  /** A change to an operation that was and is not waiting changes no line. */
  lemma {:induction false} LineBusy(log: seq<Op>, lives: map<nat, Life>, id: nat, l: Life, t: string)
    requires id in lives && lives[id].phase != Waiting && l.phase != Waiting
    ensures Line(log, lives[id := l], t) == Line(log, lives, t)
  {
    if log != [] {
      LineBusy(log[1..], lives, id, l, t);
    }
  }

  lemma {:induction false} LineArrives(log: seq<Op>, lives: map<nat, Life>, op: Op, t: string)
    requires op.id !in lives && forall i | 0 <= i < |log| :: log[i].id in lives
    ensures Line(log + [op], lives[op.id := Life(op, Waiting, true, false)], t)
            == Line(log, lives, t) + if op.tag == t then [op] else []
  {
    var after := lives[op.id := Life(op, Waiting, true, false)];
    if log == [] {
      assert log + [op] == [op];
      assert Line([op], after, t) == if op.tag == t then [op] else [];
    } else {
      assert (log + [op])[1..] == log[1..] + [op];
      LineArrives(log[1..], lives, op, t);
    }
  }

  /** Serving the head of a line shortens it and leaves the other lines alone. */
  lemma {:induction false} LineServes(log: seq<Op>, lives: map<nat, Life>, t: string, l: Life, u: string)
    requires Logged(log, lives) && Line(log, lives, t) != [] && l.phase != Waiting
    ensures var line := Line(log, lives, t);
            Line(log, lives[line[0].id := l], u) == if u == t then line[1..] else Line(log, lives, u)
  {
    var op := Line(log, lives, t)[0];
    LineMembers(log, lives, t);
    if log[0] == op {
      LineSame(log[1..], lives, op.id, l, u);
    } else {
      assert op == Line(log[1..], lives, t)[0];
      LineMembers(log[1..], lives, t);
      LineServes(log[1..], lives, t, l, u);
      assert log[0].id != op.id;
    }
  }

  lemma {:induction false} KeepAppend(a: seq<Op>, b: seq<Op>, now: int)
    ensures Keep(a + b, now) == Keep(a, now) + Keep(b, now)
  {
    if a == [] {
      assert a + b == b;
    } else {
      assert (a + b)[1..] == a[1..] + b;
      KeepAppend(a[1..], b, now);
    }
  }

  lemma {:induction false} LineLapses(log: seq<Op>, lives: map<nat, Life>, now: int, t: string)
    requires Logged(log, lives)
    ensures Line(log, Lapse(lives, now), t) == Keep(Line(log, lives, t), now)
  {
    if log != [] {
      LineLapses(log[1..], lives, now, t);
      KeepAppend([log[0]], Line(log[1..], lives, t), now);
    }
  }

  // ---- One tag changes.

  /** The part of a tag's entry that matters to the invariant. */
  predicate Alike(a: TagState, b: TagState) {
    a.pending == b.pending && a.active == b.active && a.starving == b.starving
  }

  /** `after` is `tags` with the entry of `t` changed to `y`, or dropped if that is idle. */
  ghost predicate Changed(tags: map<string, TagState>, after: map<string, TagState>, t: string, y: TagState) {
    after == tags[t := y] || (Idle(y) && after == tags - {t})
  }

  lemma ChangedLook(tags: map<string, TagState>, after: map<string, TagState>, t: string, y: TagState)
    requires Changed(tags, after, t, y)
    ensures forall u :: Alike(Look(after, u), if u == t then y else Look(tags, u))
  {
  }

  lemma ChangedSum(tags: map<string, TagState>, after: map<string, TagState>, t: string, y: TagState, f: TagState -> nat)
    requires Changed(tags, after, t, y) && f(TagState([], 0, 0, 0, 0)) == 0
    requires Idle(y) ==> f(y) == 0
    ensures Sum(after, f) == Sum(tags, f) - f(Look(tags, t)) + f(y)
  {
    if after == tags[t := y] {
      SumChange(tags, f, t, y);
    } else {
      SumChange(tags, f, t, y);
      SumDrop(tags[t := y], f, t);
      assert tags[t := y] - {t} == tags - {t};
    }
  }

  /** The limits after one tag changed: the caps hold for it, and whatever it made ready was signalled. */
  lemma ChangedLimits(s: Sched, served: nat, s': Sched, served': nat, t: string, y: TagState)
    requires Limits(s, served) && Changed(s.tags, s'.tags, t, y) && s'.cfg == s.cfg && s'.ema == s.ema
    requires y.active <= s.cfg.activeCap && y.starving <= s.cfg.starvingCap
    requires s'.total == s.total - |Look(s.tags, t).pending| + |y.pending|
    requires s'.signals - served' - ReadyIn(s.cfg, y) >= s.signals - served - ReadyIn(s.cfg, Look(s.tags, t))
    ensures Limits(s', served')
  {
    hide ReadyIn;
    assert forall x: TagState | x.pending == [] :: ReadyIn(s.cfg, x) == 0 by { EmptyNotReady(s.cfg); }
    ChangedSum(s.tags, s'.tags, t, y, Queued);
    ChangedSum(s.tags, s'.tags, t, y, Ready(s.cfg));
    ChangedLook(s.tags, s'.tags, t, y);
  }

  lemma EmptyNotReady(cfg: Config)
    ensures forall x: TagState | x.pending == [] :: ReadyIn(cfg, x) == 0
  {
  }

  // ---- Each event.

  lemma ArriveBooks(tags: map<string, TagState>, after: map<string, TagState>, log: seq<Op>, lives: map<nat, Life>, op: Op, y: TagState)
    requires Books(tags, log, lives) && op.id !in lives && Changed(tags, after, op.tag, y)
    requires Alike(y, Look(tags, op.tag).(pending := Look(tags, op.tag).pending + [op]))
    ensures Books(after, log + [op], lives[op.id := Life(op, Waiting, true, false)])
  {
    var lives' := lives[op.id := Life(op, Waiting, true, false)];
    ChangedLook(tags, after, op.tag, y);
    forall t ensures Busy(lives', t) == Busy(lives, t) && Silent(lives', t) == Silent(lives, t) {
    }
    forall t ensures Look(after, t).pending == Line(log + [op], lives', t) {
      LineArrives(log, lives, op, t);
    }
  }

  /** A change that leaves what matters alone. */
  lemma SameBooks(tags: map<string, TagState>, after: map<string, TagState>, log: seq<Op>, lives: map<nat, Life>, t: string, y: TagState)
    requires Books(tags, log, lives) && Changed(tags, after, t, y) && Alike(y, Look(tags, t))
    ensures Books(after, log, lives)
  {
    ChangedLook(tags, after, t, y);
  }

  lemma ArriveKeeps(w: World, op: Op)
    requires Inv(w) && op.id !in w.lives
    ensures Inv(Apply(w, Arrive(op)))
  {
    hide Books, Limits;
    var (s, ok) := Admit(w.s, op);
    var x := Look(w.s.tags, op.tag);
    Bounds(w, op.tag);
    if ok {
      var y := x.(pending := x.pending + [op], admits := x.admits + 1);
      ArriveBooks(w.s.tags, s.tags, w.log, w.lives, op, y);
      ChangedLimits(w.s, w.served, s, w.served, op.tag, y);
    } else if !w.s.shutdown {
      var y := x.(rejects := x.rejects + 1);
      SameBooks(w.s.tags, s.tags, w.log, w.lives, op.tag, y);
      ChangedLimits(w.s, w.served, s, w.served, op.tag, y);
    }
  }

  lemma Bounds(w: World, t: string)
    requires Inv(w)
    ensures var x := Look(w.s.tags, t); 0 <= x.starving <= x.active <= w.s.cfg.activeCap && x.starving <= w.s.cfg.starvingCap
    ensures Gentle(w.s)
  {
    assert |Silent(w.lives, t)| <= |Busy(w.lives, t)| by {
      SubsetSize(Silent(w.lives, t), Busy(w.lives, t));
    }
  }

  lemma {:induction false} SubsetSize(a: set<nat>, b: set<nat>)
    requires a <= b
    ensures |a| <= |b|
  {
    if a != {} {
      var x :| x in a;
      SubsetSize(a - {x}, b - {x});
    }
  }

  // ---- Serving.

  lemma ServeSizes(lives: map<nat, Life>, op: Op, u: string)
    requires op.id in lives && lives[op.id].phase == Waiting
    ensures var after := lives[op.id := Life(op, Running, true, false)];
            var n := if u == op.tag then 1 else 0;
            |Busy(after, u)| == |Busy(lives, u)| + n && |Silent(after, u)| == |Silent(lives, u)| + n
  {
    var after := lives[op.id := Life(op, Running, true, false)];
    assert Busy(after, u) == if u == op.tag then Busy(lives, u) + {op.id} else Busy(lives, u);
    assert Silent(after, u) == if u == op.tag then Silent(lives, u) + {op.id} else Silent(lives, u);
  }

  /** The head of a line is a known waiting operation. */
  lemma HeadWaits(log: seq<Op>, lives: map<nat, Life>, t: string)
    requires Logged(log, lives) && Line(log, lives, t) != []
    ensures var op := Line(log, lives, t)[0];
            op.id in lives && lives[op.id].op == op && lives[op.id].phase == Waiting && op.tag == t && op in log
  {
    LineMembers(log, lives, t);
    assert Line(log, lives, t)[0] in log;
  }

  lemma ServeBooks(tags: map<string, TagState>, after: map<string, TagState>, log: seq<Op>, lives: map<nat, Life>, t: string, y: TagState)
    requires Books(tags, log, lives) && Changed(tags, after, t, y) && Look(tags, t).pending != []
    requires var x := Look(tags, t);
             y.pending == x.pending[1..] && y.active == x.active + 1 && y.starving == x.starving + 1
    ensures var op := Look(tags, t).pending[0];
            Books(after, log, lives[op.id := Life(op, Running, true, false)])
  {
    hide Busy, Silent, Line, Changed, Look;
    var op := Look(tags, t).pending[0];
    var l := Life(op, Running, true, false);
    var lives' := lives[op.id := l];
    HeadWaits(log, lives, t);
    ChangedLook(tags, after, t, y);
    forall u ensures Look(after, u).active == |Busy(lives', u)| && Look(after, u).starving == |Silent(lives', u)| {
      ServeSizes(lives, op, u);
    }
    forall u ensures Look(after, u).pending == Line(log, lives', u) {
      LineServes(log, lives, t, l, u);
    }
  }

  lemma ServeKeeps(w: World, order: seq<string>, draw: real)
    requires Inv(w) && Gentle(w.s) && Fair(w.s, order, draw)
    ensures Inv(Apply(w, Serve(order, draw)))
  {
    hide Books, Limits, Fair, Pick;
    var (s, got) := TryConsume(w.s, order, draw);
    if got.Some? {
      var t := Pick(w.s, order, draw);
      PickIsEligible(w.s, order, draw);
      var x := w.s.tags[t];
      var y := x.(pending := x.pending[1..], active := x.active + 1, starving := x.starving + 1);
      ServeBooks(w.s.tags, s.tags, w.log, w.lives, t, y);
      ChangedLimits(w.s, w.served, s, w.served + 1, t, y);
    }
  }

  // ---- Hooks.

  /** What an operation's own change takes from its tag's counters. */
  function Freed(before: Life, after: Life): (n: (nat, nat)) {
    (if after.phase == Running then 0 else 1,
     if !before.responded && (after.responded || after.phase == Over) then 1 else 0)
  }

  lemma HookSizes(lives: map<nat, Life>, id: nat, l: Life, u: string)
    requires id in lives && lives[id].phase == Running && l.op == lives[id].op && l.phase != Waiting
    requires lives[id].responded ==> l.responded
    ensures var after := lives[id := l];
            var (n, m) := if u == l.op.tag then Freed(lives[id], l) else (0, 0);
            |Busy(after, u)| == |Busy(lives, u)| - n && |Silent(after, u)| == |Silent(lives, u)| - m
  {
    var after := lives[id := l];
    var mine := u == l.op.tag;
    assert mine ==> id in Busy(lives, u);
    assert Busy(after, u) == if mine && l.phase == Over then Busy(lives, u) - {id} else Busy(lives, u);
    assert Silent(after, u) == if mine && (l.responded || l.phase == Over) then Silent(lives, u) - {id} else Silent(lives, u);
  }

  /** A running operation changes and its tag's counters with it. */
  lemma HookBooks(tags: map<string, TagState>, after: map<string, TagState>, log: seq<Op>, lives: map<nat, Life>, id: nat, l: Life, y: TagState)
    requires Books(tags, log, lives) && id in lives && lives[id].phase == Running && l.op == lives[id].op
    requires Changed(tags, after, l.op.tag, y) && l.phase != Waiting && (l.hooked <==> l.phase == Running)
    requires lives[id].responded ==> l.responded
    requires var x := Look(tags, l.op.tag); var (n, m) := Freed(lives[id], l);
             y.pending == x.pending && y.active == x.active - n && y.starving == x.starving - m
    ensures Books(after, log, lives[id := l])
  {
    hide Busy, Silent, Line, Changed, Look, Freed;
    var t := l.op.tag;
    var lives' := lives[id := l];
    ChangedLook(tags, after, t, y);
    forall u ensures Look(after, u).active == |Busy(lives', u)| && Look(after, u).starving == |Silent(lives', u)| {
      HookSizes(lives, id, l, u);
    }
    forall u ensures Look(after, u).pending == Line(log, lives', u) {
      LineBusy(log, lives, id, l, u);
    }
  }

  /** The counters of a running operation's tag include it, so the decrements are never clipped. */
  lemma HookCounts(tags: map<string, TagState>, log: seq<Op>, lives: map<nat, Life>, id: nat)
    requires Books(tags, log, lives) && id in lives && lives[id].phase == Running
    ensures var t := lives[id].op.tag;
            t in tags && tags[t].active > 0 && (!lives[id].responded ==> tags[t].starving > 0)
  {
    var t := lives[id].op.tag;
    assert id in Busy(lives, t);
    assert !lives[id].responded ==> id in Silent(lives, t);
  }

  lemma FirstByteKeeps(w: World, id: nat)
    requires Inv(w) && id in w.lives && w.lives[id].phase == Running
    ensures Inv(Apply(w, FirstByte(id)))
  {
    var l := w.lives[id];
    if l.hooked && !l.responded {
      hide Books, Limits;
      HookCounts(w.s.tags, w.log, w.lives, id);
      var x := w.s.tags[l.op.tag];
      var y := x.(starving := x.starving - 1);
      var s := OnFirstByte(w.s, l.op.tag);
      Bounds(w, l.op.tag);
      HookBooks(w.s.tags, s.tags, w.log, w.lives, id, l.(responded := true), y);
      ChangedLimits(w.s, w.served, s, w.served, l.op.tag, y);
    }
  }

  lemma FinishKeeps(w: World, id: nat)
    requires Inv(w) && id in w.lives && w.lives[id].phase != Waiting
    ensures Inv(Apply(w, Finish(id)))
  {
    var l := w.lives[id];
    if l.hooked {
      assert l.phase == Running;
      hide Books, Limits;
      HookCounts(w.s.tags, w.log, w.lives, id);
      var x := w.s.tags[l.op.tag];
      var y := x.(active := x.active - 1, starving := if l.responded then x.starving else x.starving - 1);
      var s := OnDone(w.s, l.op.tag, !l.responded);
      Bounds(w, l.op.tag);
      HookBooks(w.s.tags, s.tags, w.log, w.lives, id, l.(phase := Over, hooked := false), y);
      ChangedLimits(w.s, w.served, s, w.served, l.op.tag, y);
    }
  }

  // ---- Expiry and averages.

  lemma ExpiryBooks(tags: map<string, TagState>, log: seq<Op>, lives: map<nat, Life>, now: int)
    requires Books(tags, log, lives)
    ensures Books(ExpireTags(tags, now), log, Lapse(lives, now))
  {
    var after, lives' := ExpireTags(tags, now), Lapse(lives, now);
    forall t ensures Alike(Look(after, t), KeepIn(Look(tags, t), now)) {
    }
    forall t ensures Look(after, t).active == |Busy(lives', t)| && Look(after, t).starving == |Silent(lives', t)| {
      assert Busy(lives', t) == Busy(lives, t);
      assert Silent(lives', t) == Silent(lives, t);
    }
    forall t ensures Look(after, t).pending == Line(log, lives', t) {
      LineLapses(log, lives, now, t);
    }
  }

  lemma ExpiryLimits(s: Sched, served: nat, now: int)
    requires Limits(s, served)
    ensures Limits(Expire(s, now), served)
  {
    var after := ExpireTags(s.tags, now);
    SumMono(after, s.tags, Ready(s.cfg));
    forall t ensures Alike(Look(after, t), KeepIn(Look(s.tags, t), now)) {
    }
  }

  lemma BlendBounded(e: real, alpha: real, active: real, cap: real)
    requires 0.0 <= e <= cap && 0.0 <= alpha <= 1.0 && 0.0 <= active <= cap
    ensures 0.0 <= e * (1.0 - alpha) + alpha * active <= cap
  {
    Product(e, 1.0 - alpha);
    Product(alpha, active);
    Product(cap - e, 1.0 - alpha);
    Product(alpha, cap - active);
  }

  lemma Product(a: real, b: real)
    requires a >= 0.0 && b >= 0.0
    ensures a * b >= 0.0
  {
  }

  lemma BlendInRange(s: Sched, alpha: real, t: string)
    requires Averaged(s) && 0.0 <= alpha <= 1.0 && 0 <= Look(s.tags, t).active <= s.cfg.activeCap
    ensures 0.0 <= Blend(s, t, alpha) <= s.cfg.activeCap as real
  {
    hide Look;
    BlendBounded(Ema(s, t), alpha, Look(s.tags, t).active as real, s.cfg.activeCap as real);
  }

  lemma TickAverages(s: Sched, alpha: real)
    requires Averaged(s) && 0.0 <= alpha <= 1.0
    requires forall t :: 0 <= Look(s.tags, t).active <= s.cfg.activeCap
    ensures Averaged(Tick(s, alpha))
  {
    hide Look, Blend;
    forall t ensures 0.0 <= Blend(s, t, alpha) <= s.cfg.activeCap as real {
      BlendInRange(s, alpha, t);
    }
  }

  lemma MonitorKeeps(w: World, alpha: real)
    requires Inv(w) && 0.0 <= alpha <= 1.0
    ensures Inv(Apply(w, Monitor(alpha)))
  {
    hide Books, Sum, Averaged, Tick, Look;
    forall t ensures 0 <= Look(w.s.tags, t).active <= w.s.cfg.activeCap {
      Bounds(w, t);
    }
    TickAverages(w.s, alpha);
    TickFrame(w.s, alpha);
  }

  lemma TickFrame(s: Sched, alpha: real)
    ensures Tick(s, alpha) == s.(ema := Tick(s, alpha).ema)
  {
  }

  lemma ExpiryKeeps(w: World, now: int)
    requires Inv(w)
    ensures Inv(Apply(w, Expiry(now)))
  {
    hide Books, Limits;
    ExpiryBooks(w.s.tags, w.log, w.lives, now);
    ExpiryLimits(w.s, w.served, now);
  }

  lemma ConfigFixed(w: World, e: Event)
    requires Possible(w, e)
    ensures Apply(w, e).s.cfg == w.s.cfg
  {
    hide Pick, Fair, Sum, ExpireTags, Tick;
    if e.Monitor? { TickFrame(w.s, e.alpha); }
  }

  /** Every event keeps the invariant. */
  lemma StepKeeps(w: World, e: Event)
    requires Inv(w) && Possible(w, e)
    ensures Inv(Apply(w, e)) && Apply(w, e).s.cfg == w.s.cfg
  {
    ConfigFixed(w, e);
    hide Books, TryConsume, Sum, Fair;
    match e
    case Arrive(op) => ArriveKeeps(w, op);
    case Serve(order, draw) => ServeKeeps(w, order, draw);
    case Expiry(now) => ExpiryKeeps(w, now);
    case FirstByte(id) => FirstByteKeeps(w, id);
    case Finish(id) => FinishKeeps(w, id);
    case Monitor(alpha) => MonitorKeeps(w, alpha);
    case Stop =>
  }

  // ---- Runs.

  lemma {:induction false} RunKeeps(w: World, es: seq<Event>)
    requires Inv(w) && Legal(w, es)
    ensures Inv(Exec(w, es)) && Exec(w, es).s.cfg == w.s.cfg
    decreases |es|
  {
    hide Inv, Apply, Possible;
    if es != [] {
      StepKeeps(w, es[0]);
      RunKeeps(Apply(w, es[0]), es[1..]);
    }
  }

  lemma Reached(cfg: Config, es: seq<Event>)
    requires cfg.starvingCap >= 1 && cfg.activeCap >= 1 && Legal(Begin(cfg), es)
    ensures Inv(Exec(Begin(cfg), es)) && Exec(Begin(cfg), es).s.cfg == cfg
  {
    var w := Begin(cfg);
    assert forall t :: Busy(w.lives, t) == {} && Silent(w.lives, t) == {};
    hide Inv;
    assert Inv(w) by { BeginGood(cfg); }
    RunKeeps(w, es);
  }

  lemma BeginGood(cfg: Config)
    requires cfg.starvingCap >= 1 && cfg.activeCap >= 1
    ensures Inv(Begin(cfg))
  {
    var w := Begin(cfg);
    assert forall t :: Busy(w.lives, t) == {} && Silent(w.lives, t) == {};
  }

  /** Scheduler accounting, in every reachable state: a tag's counters are the numbers of its unfinished
      dispatched operations and of those without a response, both within their caps, and the total is
      the sum of the queues. */
  lemma Accounting(cfg: Config, es: seq<Event>, t: string)
    requires cfg.starvingCap >= 1 && cfg.activeCap >= 1 && Legal(Begin(cfg), es)
    ensures var w := Exec(Begin(cfg), es);
            var x := Look(w.s.tags, t);
            && x.active == |Busy(w.lives, t)| && x.starving == |Silent(w.lives, t)|
            && x.starving <= x.active <= cfg.activeCap && x.starving <= cfg.starvingCap
            && w.s.total == Sum(w.s.tags, Queued)
  {
    hide Legal, Exec, Sum;
    Reached(cfg, es);
    Bounds(Exec(Begin(cfg), es), t);
  }

  /** One wake-up per event is enough: over every run at least as many were given as operations were
      served and could still be served; so when all have been used, no tag is left eligible. */
  lemma WakeUpsSuffice(cfg: Config, es: seq<Event>)
    requires cfg.starvingCap >= 1 && cfg.activeCap >= 1 && Legal(Begin(cfg), es)
    ensures var w := Exec(Begin(cfg), es);
            && w.s.signals >= w.served + Sum(w.s.tags, Ready(cfg))
            && (w.served == w.s.signals ==> !SomeEligible(w.s))
  {
    hide Legal, Exec, Sum, Books;
    Reached(cfg, es);
    ReadyMeansEligible(Exec(Begin(cfg), es).s);
  }

  lemma ReadyMeansEligible(s: Sched)
    ensures SomeEligible(s) ==> Sum(s.tags, Ready(s.cfg)) >= 1
  {
    if SomeEligible(s) {
      var t :| t in s.tags && Eligible(s.cfg, s.tags[t]);
      SumRemove(s.tags, Ready(s.cfg), t);
    }
  }

  /** Each tag is served in order of arrival: whoever is served was waiting, and no operation of its tag
      that arrived before it is still waiting. */
  lemma OldestFirst(cfg: Config, es: seq<Event>, order: seq<string>, draw: real) returns (i: nat)
    requires cfg.starvingCap >= 1 && cfg.activeCap >= 1 && Legal(Begin(cfg), es)
    requires var w := Exec(Begin(cfg), es);
             Gentle(w.s) && Fair(w.s, order, draw) && TryConsume(w.s, order, draw).1.Some?
    ensures var w := Exec(Begin(cfg), es);
            && i < |w.log| && w.log[i] == TryConsume(w.s, order, draw).1.value && StillWaiting(w.lives, w.log[i])
            && forall j | 0 <= j < i && w.log[j].tag == w.log[i].tag :: !StillWaiting(w.lives, w.log[j])
  {
    hide Legal, Exec, Sum, Fair, Pick, Line;
    var w := Exec(Begin(cfg), es);
    Reached(cfg, es);
    var t := Pick(w.s, order, draw);
    HeadWaits(w.log, w.lives, t);
    i :| i < |w.log| && w.log[i] == TryConsume(w.s, order, draw).1.value;
    HeadIsFirst(w.log, w.lives, t, i);
  }

  predicate StillWaiting(lives: map<nat, Life>, op: Op) {
    op.id in lives && lives[op.id].phase == Waiting
  }

  lemma {:induction false} HeadIsFirst(log: seq<Op>, lives: map<nat, Life>, t: string, i: nat)
    requires Logged(log, lives) && i < |log| && Line(log, lives, t) != [] && Line(log, lives, t)[0] == log[i]
    ensures forall j | 0 <= j < i && log[j].tag == t :: !StillWaiting(lives, log[j])
    decreases |log|
  {
    if i > 0 {
      assert log[0].id != log[i].id;
      assert Line(log, lives, t) == Line(log[1..], lives, t);
      HeadIsFirst(log[1..], lives, t, i - 1);
      forall j | 0 <= j < i && log[j].tag == t ensures !StillWaiting(lives, log[j]) {
        if j > 0 { assert log[j] == log[1..][j - 1]; }
      }
    }
  }

  /** Failing an operation that expired in the queue releases no slot. */
  lemma ExpiredReleasesNothing(cfg: Config, es: seq<Event>, id: nat)
    requires cfg.starvingCap >= 1 && cfg.activeCap >= 1 && Legal(Begin(cfg), es)
    requires var w := Exec(Begin(cfg), es); id in w.lives && w.lives[id].phase == Over
    ensures Apply(Exec(Begin(cfg), es), Finish(id)) == Exec(Begin(cfg), es)
  {
    hide Legal, Exec, Sum;
    Reached(cfg, es);
  }

  /** In every reachable state the averages lie between zero and the cap, so every weight of the draw is
      positive. */
  lemma AveragesBounded(cfg: Config, es: seq<Event>, t: string)
    requires cfg.starvingCap >= 1 && cfg.activeCap >= 1 && Legal(Begin(cfg), es)
    ensures var s := Exec(Begin(cfg), es).s;
            Gentle(s) && 0.0 <= Ema(s, t) <= cfg.activeCap as real && Weight(s, t) > 0.0
  {
    hide Legal, Exec, Sum, Books;
    Reached(cfg, es);
  }
}
