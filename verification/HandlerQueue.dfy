/** The queue of operations without a scheduler, and the pipe that wakes the worker: one byte is written
    per queued operation and read per operation taken or expired. */
module HandlerQueue {
  import opened Common

  datatype Op = Op(id: nat, deadline: int)

  /** The operations that have not expired, in order. */
  function Surviving(ops: seq<Op>, gone: set<nat>): seq<Op> {
    if ops == [] then []
    else
      var rest := Surviving(ops[..|ops| - 1], gone);
      if ops[|ops| - 1].id in gone then rest else rest + [ops[|ops| - 1]]
  }

  ghost predicate Distinct(ops: seq<Op>) {
    forall i, j | 0 <= i < j < |ops| :: ops[i].id != ops[j].id
  }

  /** The identities of the overdue operations. */
  function Overdue(ops: seq<Op>, now: int): set<nat> {
    set i | 0 <= i < |ops| && ops[i].deadline < now :: ops[i].id
  }

  lemma {:induction false} SurvivingAppend(a: seq<Op>, b: seq<Op>, gone: set<nat>)
    ensures Surviving(a + b, gone) == Surviving(a, gone) + Surviving(b, gone)
    decreases |b|
  {
    if b == [] {
      assert a + b == a;
    } else {
      assert (a + b)[..|a + b| - 1] == a + b[..|b| - 1];
      SurvivingAppend(a, b[..|b| - 1], gone);
    }
  }

  lemma {:induction false} SurvivingTwice(ops: seq<Op>, gone: set<nat>, more: set<nat>)
    ensures Surviving(ops, gone + more) == Surviving(Surviving(ops, gone), more)
  {
    if ops != [] {
      var init, last := ops[..|ops| - 1], ops[|ops| - 1];
      SurvivingTwice(init, gone, more);
      SurvivingAppend(Surviving(init, gone), [last], more);
      SurvivingOne(last, more);
    }
  }

  lemma SurvivingOne(op: Op, gone: set<nat>)
    ensures Surviving([op], gone) == if op.id in gone then [] else [op]
  {
    assert [op][..0] == [];
  }

  lemma {:induction false} SurvivingMembers(ops: seq<Op>, gone: set<nat>)
    ensures forall op | op in Surviving(ops, gone) :: op in ops && op.id !in gone
  {
    if ops != [] {
      SurvivingMembers(ops[..|ops| - 1], gone);
    }
  }

  lemma {:induction false} AllSurvive(ops: seq<Op>, gone: set<nat>)
    requires forall i | 0 <= i < |ops| :: ops[i].id !in gone
    ensures Surviving(ops, gone) == ops
  {
    if ops != [] {
      AllSurvive(ops[..|ops| - 1], gone);
    }
  }

  lemma {:induction false} SurvivingDistinct(ops: seq<Op>, gone: set<nat>)
    requires Distinct(ops)
    ensures Distinct(Surviving(ops, gone))
  {
    if ops != [] {
      var init, last := ops[..|ops| - 1], ops[|ops| - 1];
      SurvivingDistinct(init, gone);
      SurvivingMembers(init, gone);
      assert forall op | op in init :: op.id != last.id;
    }
  }

  class HandlerQueue {
    const maxPending: nat
    const capacity: nat
    var ops: seq<Op>
    var pipe: nat
    var shutdown: bool
    ghost var produced: seq<Op>
    ghost var taken: seq<Op>
    ghost var gone: set<nat>
    ghost var pipeWasFull: bool

    /** What was produced and has not expired was taken or is queued, in production order; the pipe never
        holds more bytes than there are queued operations, and as many unless it was full once. */
    ghost predicate Valid()
      reads this
    {
      && Distinct(produced) && Surviving(produced, gone) == taken + ops
      && pipe <= |ops| && pipe <= capacity && (!pipeWasFull ==> pipe == |ops|)
      && forall id | id in gone :: exists i :: 0 <= i < |produced| && produced[i].id == id
    }

    constructor (max: nat, pipeSize: nat)
      ensures Valid() && produced == [] && taken == [] && gone == {} && ops == [] && !pipeWasFull
    {
      maxPending, capacity := max, pipeSize;
      ops, pipe, shutdown := [], 0, false;
      produced, taken, gone, pipeWasFull := [], [], {}, false;
    }

    method NotifyPipe()
      modifies this`pipe, this`pipeWasFull
      ensures if old(pipe) < capacity then pipe == old(pipe) + 1 && pipeWasFull == old(pipeWasFull)
              else pipe == old(pipe) && pipeWasFull
    {
      if pipe < capacity {
        pipe := pipe + 1;
      } else {
        pipeWasFull := true;
      }
    }

    /** The wait for room is over: there is room, or the operation's deadline has come. */
    method TryProduce(op: Op, now: int) returns (ok: bool)
      requires Valid() && (|ops| < maxPending || now >= op.deadline)
      requires forall i | 0 <= i < |produced| :: produced[i].id != op.id
      modifies this
      ensures Valid() && taken == old(taken) && gone == old(gone) && ok == (now <= op.deadline)
      ensures if ok then produced == old(produced) + [op] && ops == old(ops) + [op]
              else produced == old(produced) && ops == old(ops) && pipe == old(pipe)
      ensures pipeWasFull == (old(pipeWasFull) || (ok && old(pipe) >= capacity))
    {
      if now > op.deadline {
        return false;
      }
      SurvivingAppend(produced, [op], gone);
      SurvivingOne(op, gone);
      ops := ops + [op];
      produced := produced + [op];
      NotifyPipe();
      return true;
    }

    /** Take the head of the queue and one byte out of the pipe. */
    method Take() returns (op: Op)
      requires Valid() && ops != []
      modifies this`ops, this`pipe, this`taken
      ensures Valid() && op == old(ops)[0] && ops == old(ops)[1..] && taken == old(taken) + [op]
    {
      op := ops[0];
      assert taken + ops == (taken + [op]) + ops[1..];
      ops := ops[1..];
      taken := taken + [op];
      if pipe > 0 {
        pipe := pipe - 1;
      }
    }

    method TryConsume() returns (op: Option<Op>)
      requires Valid()
      modifies this`ops, this`pipe, this`taken
      ensures Valid() && (op.None? <==> old(ops) == [])
      ensures if op.Some? then old(ops) == [op.value] + ops && taken == old(taken) + [op.value]
              else ops == old(ops) && taken == old(taken) && pipe == old(pipe)
    {
      if |ops| == 0 {
        return None;
      }
      var head := Take();
      return Some(head);
    }

    /** The blocking form, once its wait is over. */
    method Consume() returns (op: Option<Op>)
      requires Valid()
      modifies this`ops, this`pipe, this`taken
      ensures Valid() && (op.None? <==> shutdown || old(ops) == [])
      ensures if op.Some? then old(ops) == [op.value] + ops && taken == old(taken) + [op.value]
              else ops == old(ops) && taken == old(taken) && pipe == old(pipe)
    {
      if shutdown || |ops| == 0 {
        return None;
      }
      var head := Take();
      return Some(head);
    }

    /** Waiting consumers come back with nothing from now on. */
    method Shutdown()
      requires Valid()
      modifies this`shutdown
      ensures Valid() && shutdown
    {
      shutdown := true;
    }

    /** Read up to `n` bytes out of the pipe, at most 64 at a time. */
    method DrainPipe(n: nat)
      modifies this`pipe
      ensures pipe == old(pipe) - Min(old(pipe), n)
    {
      var left := n;
      while left > 0
        invariant 0 <= left <= n && pipe + n == old(pipe) + left
      {
        var got := Min(Min(64, left), pipe);
        if got == 0 {
          break;
        }
        pipe := pipe - got;
        left := left - got;
      }
    }

    /** Resume the queued operations that are paused and whose transfer has stalled, then remove the overdue
        ones and their bytes, and hand them back to be failed. */
    method Expire(now: int, stalled: set<nat>) returns (resumed: seq<Op>, expired: seq<Op>)
      requires Valid()
      modifies this
      ensures resumed == Among(old(ops), stalled)
      ensures Valid() && produced == old(produced) && taken == old(taken) && pipeWasFull == old(pipeWasFull)
      ensures gone == old(gone) + Overdue(old(ops), now) && ops == Surviving(old(ops), Overdue(old(ops), now))
      ensures forall op :: op in expired <==> op in old(ops) && op.deadline < now
      ensures |expired| + |ops| == |old(ops)|
    {
      var queue := ops;
      resumed := Resume(queue, stalled);
      ghost var late := Overdue(queue, now);
      TailDistinct(produced, gone, taken, queue);
      OthersStay(produced, gone, taken, queue, now);
      var kept;
      kept, expired := Sweep(queue, now);
      ops := kept;
      gone := gone + late;
      DrainPipe(|expired|);
    }
  }

  /** The operations with these identities, in order. */
  function Among(ops: seq<Op>, ids: set<nat>): seq<Op> {
    if ops == [] then []
    else if ops[0].id in ids then [ops[0]] + Among(ops[1..], ids) else Among(ops[1..], ids)
  }

  lemma {:induction false} AmongAppend(ops: seq<Op>, op: Op, ids: set<nat>)
    ensures Among(ops + [op], ids) == Among(ops, ids) + if op.id in ids then [op] else []
  {
    if ops == [] {
      assert ops + [op] == [op] && [op][1..] == [];
    } else {
      assert (ops + [op])[1..] == ops[1..] + [op];
      AmongAppend(ops[1..], op, ids);
    }
  }

  method Resume(ops: seq<Op>, stalled: set<nat>) returns (resumed: seq<Op>)
    ensures resumed == Among(ops, stalled)
  {
    resumed := [];
    for i := 0 to |ops|
      invariant resumed == Among(ops[..i], stalled)
    {
      assert ops[..i + 1] == ops[..i] + [ops[i]];
      AmongAppend(ops[..i], ops[i], stalled);
      if ops[i].id in stalled {
        resumed := resumed + [ops[i]];
      }
    }
    assert ops[..|ops|] == ops;
  }

  method Sweep(ops: seq<Op>, now: int) returns (kept: seq<Op>, expired: seq<Op>)
    requires Distinct(ops)
    ensures kept == Surviving(ops, Overdue(ops, now)) && |kept| + |expired| == |ops|
    ensures forall op :: op in expired <==> op in ops && op.deadline < now
  {
    hide Overdue;
    kept, expired := [], [];
    for i := 0 to |ops|
      invariant kept == Surviving(ops[..i], Overdue(ops, now)) && |kept| + |expired| == i
      invariant forall op :: op in expired <==> op in ops[..i] && op.deadline < now
    {
      assert ops[..i + 1][..i] == ops[..i];
      OverdueExactly(ops, now, i);
      if ops[i].deadline < now {
        expired := expired + [ops[i]];
      } else {
        kept := kept + [ops[i]];
      }
    }
    assert ops[..|ops|] == ops;
  }

  /** No two operations taken or queued are the same. */
  lemma TailDistinct(produced: seq<Op>, gone: set<nat>, taken: seq<Op>, ops: seq<Op>)
    requires Distinct(produced) && Surviving(produced, gone) == taken + ops
    ensures Distinct(ops) && forall i, j | 0 <= i < |taken| && 0 <= j < |ops| :: taken[i].id != ops[j].id
  {
    SurvivingDistinct(produced, gone);
    var all := taken + ops;
    assert forall i | 0 <= i < |taken| :: taken[i] == all[i];
    assert forall j | 0 <= j < |ops| :: ops[j] == all[|taken| + j];
  }

  lemma OverdueExactly(ops: seq<Op>, now: int, i: nat)
    requires Distinct(ops) && i < |ops|
    ensures ops[i].id in Overdue(ops, now) <==> ops[i].deadline < now
  {
  }

  /** Expiry takes nothing from what was already handed out. */
  lemma OthersStay(produced: seq<Op>, gone: set<nat>, taken: seq<Op>, ops: seq<Op>, now: int)
    requires Distinct(produced) && Surviving(produced, gone) == taken + ops
    ensures Surviving(produced, gone + Overdue(ops, now)) == taken + Surviving(ops, Overdue(ops, now))
    ensures forall id | id in Overdue(ops, now) :: exists i :: 0 <= i < |produced| && produced[i].id == id
  {
    hide Surviving;
    var late := Overdue(ops, now);
    SurvivingTwice(produced, gone, late);
    SurvivingAppend(taken, ops, late);
    TailDistinct(produced, gone, taken, ops);
    AllSurvive(taken, late);
    SurvivingMembers(produced, gone);
    forall id | id in late ensures exists i :: 0 <= i < |produced| && produced[i].id == id {
      var j :| 0 <= j < |ops| && ops[j].id == id;
      assert ops[j] in taken + ops;
      assert ops[j] in produced;
    }
  }
}
