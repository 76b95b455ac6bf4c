/** One download operation (`CurlReadOp`) as its worker and its readers drive it: the write callback,
    continuation with a new client buffer, and completion.  The class works on the source's fields;
    `Operation` is what it computes, and the lemmas say that no byte is lost, repeated or reordered. */
module ReadOperation {
  import opened Common
  import opened ReadStream

  /** A response handed to a reader: the reported object offset and the bytes in its buffer. */
  datatype Chunk = Chunk(offset: nat, data: Octets)

  /** `waiting` says a reader's handler is installed; `accepted` is every byte taken from libcurl. */
  datatype Operation = Operation(stream: Stream, waiting: bool, done: bool, accepted: Octets, chunks: seq<Chunk>)

  function Started(start: nat, limit: nat, size: nat): Operation {
    Operation(Stream(start, limit, 0, Some(Buffer(size, [])), []), true, false, [], [])
  }

  /** Call the handler with the client buffer and forget the buffer. */
  function Answer(o: Operation): Operation
    requires o.stream.current.Some?
  {
    o.(stream := Deliver(o.stream), waiting := false,
    chunks := o.chunks + [Chunk(o.stream.start + o.stream.delivered, o.stream.current.value.written)])
  }

  function OnWrite(o: Operation, data: Octets): (r: (Operation, Verdict))
    requires o.waiting == o.stream.current.Some?
  {
    var (stream, verdict) := Accept(o.stream, data);
    match verdict
    case Paused => (if o.waiting then Answer(o) else o, Paused)
    case Taken => (o.(stream := stream, accepted := o.accepted + data), Taken)
    case TooMuch => (o.(stream := stream), TooMuch)
  }

  function OnContinue(o: Operation, size: nat): Operation
    requires !o.waiting
  {
    var p := o.(stream := Install(o.stream, size), waiting := true);
    if o.done then Answer(p) else p
  }

  function OnSuccess(o: Operation): Operation
    requires o.waiting == o.stream.current.Some?
  {
    var p := o.(done := true);
    if o.waiting then Answer(p) else p
  }

  // ---- Every run.

  datatype Event = Write(data: Octets) | Continue(size: nat) | Success

  /** libcurl writes only before the transfer is over, a reader continues only once it was answered,
      and a run ends at the first failure. */
  predicate Possible(o: Operation, e: Event) {
    match e
    case Write(data) => !o.done && Accept(o.stream, data).1 != TooMuch
    case Continue(_) => !o.waiting
    case Success => !o.done
  }

  function Apply(o: Operation, e: Event): Operation
    requires Possible(o, e) && o.waiting == o.stream.current.Some?
  {
    match e
    case Write(data) => OnWrite(o, data).0
    case Continue(size) => OnContinue(o, size)
    case Success => OnSuccess(o)
  }

  /** The bytes of the delivered chunks, in order. */
  function Delivered(chunks: seq<Chunk>): Octets {
    if chunks == [] then [] else Delivered(chunks[..|chunks| - 1]) + chunks[|chunks| - 1].data
  }

  /** Accepted bytes = delivered bytes ++ bytes in the client buffer ++ unread overflow, and each
      chunk reports the object offset of its first byte. */
  ghost predicate Conserved(o: Operation) {
    && o.waiting == o.stream.current.Some?
    && Sound(o.stream)
    && o.accepted == Delivered(o.chunks) + Pending(o.stream) + o.stream.overflow
    && o.stream.delivered == |Delivered(o.chunks)|
    && forall i | 0 <= i < |o.chunks| :: o.chunks[i].offset == o.stream.start + |Delivered(o.chunks[..i])|
  }

  lemma AnswerConserves(o: Operation)
    requires Conserved(o) && o.waiting
    ensures Conserved(Answer(o))
  {
    var p := Answer(o);
    assert p.chunks[..|p.chunks| - 1] == o.chunks;
    assert Delivered(p.chunks) == Delivered(o.chunks) + Pending(o.stream);
    forall i | 0 <= i < |p.chunks| ensures p.chunks[i].offset == p.stream.start + |Delivered(p.chunks[..i])| {
      assert i < |o.chunks| ==> p.chunks[..i] == o.chunks[..i];
    }
  }

  lemma TakenConserves(o: Operation, data: Octets, stream: Stream)
    requires Conserved(o) && Sound(stream) && Held(stream) == Held(o.stream) + data
    requires stream.start == o.stream.start && stream.delivered == o.stream.delivered
    requires stream.current.Some? == o.stream.current.Some?
    ensures Conserved(o.(stream := stream, accepted := o.accepted + data))
  {
    var d := Delivered(o.chunks);
    assert o.accepted == d + Held(o.stream);
    assert o.accepted + data == d + Held(stream);
    assert d + Held(stream) == d + Pending(stream) + stream.overflow;
  }

  lemma WriteConserves(o: Operation, data: Octets)
    requires Conserved(o) && Accept(o.stream, data).1 != TooMuch
    ensures Conserved(OnWrite(o, data).0) && OnWrite(o, data).0.stream.start == o.stream.start
  {
    hide Conserved, Delivered, Held;
    assert Sound(o.stream) && o.waiting == o.stream.current.Some? by { ConservedSound(o); }
    AcceptHolds(o.stream, data);
    if Accept(o.stream, data).1 == Paused {
      if o.waiting { AnswerConserves(o); }
    } else {
      TakenConserves(o, data, Accept(o.stream, data).0);
    }
  }

  lemma ConservedSound(o: Operation)
    requires Conserved(o)
    ensures Sound(o.stream) && o.waiting == o.stream.current.Some?
  {
  }

  lemma ContinueConserves(o: Operation, size: nat)
    requires Conserved(o) && !o.waiting
    ensures Conserved(OnContinue(o, size)) && OnContinue(o, size).stream.start == o.stream.start
  {
    var p := o.(stream := Install(o.stream, size), waiting := true);
    InstallHolds(o.stream, size);
    hide Install;
    assert o.accepted == Delivered(o.chunks) + Held(o.stream);
    if o.done { AnswerConserves(p); }
  }

  lemma StepConserves(o: Operation, e: Event)
    requires Conserved(o) && Possible(o, e)
    ensures Conserved(Apply(o, e)) && Apply(o, e).stream.start == o.stream.start
  {
    match e
    case Write(data) => WriteConserves(o, data);
    case Continue(size) => ContinueConserves(o, size);
    case Success => if o.waiting { AnswerConserves(o.(done := true)); }
  }

  /** A run of the operation. */
  predicate Legal(o: Operation, es: seq<Event>)
    decreases |es|
  {
    es != [] ==> o.waiting == o.stream.current.Some? && Possible(o, es[0]) && Legal(Apply(o, es[0]), es[1..])
  }

  function Exec(o: Operation, es: seq<Event>): Operation
    requires Legal(o, es)
    decreases |es|
  {
    if es == [] then o else Exec(Apply(o, es[0]), es[1..])
  }

  lemma {:induction false} RunConserves(o: Operation, es: seq<Event>)
    requires Conserved(o) && Legal(o, es)
    ensures Conserved(Exec(o, es)) && Exec(o, es).stream.start == o.stream.start
    decreases |es|
  {
    if es != [] {
      StepConserves(o, es[0]);
      RunConserves(Apply(o, es[0]), es[1..]);
    }
  }

  lemma StartedConserves(start: nat, limit: nat, size: nat)
    ensures Conserved(Started(start, limit, size))
  {
  }

  /** Nothing is lost, repeated or reordered over any run: the accepted bytes are the delivered ones, those in
      the client buffer and the overflow, in this order; and overflow exists only while the client buffer
      is full or absent. */
  lemma NothingLost(start: nat, limit: nat, size: nat, es: seq<Event>)
    requires Legal(Started(start, limit, size), es)
    ensures var o := Exec(Started(start, limit, size), es);
            && o.accepted == Delivered(o.chunks) + Pending(o.stream) + o.stream.overflow
            && (o.stream.overflow != [] ==> o.stream.current.None?
                                            || |o.stream.current.value.written| == o.stream.current.value.size)
  {
    hide Legal, Exec;
    StartedConserves(start, limit, size);
    RunConserves(Started(start, limit, size), es);
  }

  /** So when the bytes accepted are the object's from the requested offset on, every delivered chunk is the
      object's bytes at the offset it reports. */
  lemma ChunksTrue(content: Octets, start: nat, limit: nat, size: nat, es: seq<Event>, i: nat)
    requires Legal(Started(start, limit, size), es)
    requires var o := Exec(Started(start, limit, size), es);
             && i < |o.chunks|
             && start + |o.accepted| <= |content| && o.accepted == content[start..start + |o.accepted|]
    ensures var k := Exec(Started(start, limit, size), es).chunks[i];
            k.offset + |k.data| <= |content| && k.data == content[k.offset..k.offset + |k.data|]
  {
    hide Legal, Exec, Conserved;
    StartedConserves(start, limit, size);
    RunConserves(Started(start, limit, size), es);
    ChunkTruth(content, Exec(Started(start, limit, size), es), i);
  }

  lemma ChunkTruth(content: Octets, o: Operation, i: nat)
    requires Conserved(o) && i < |o.chunks|
    requires var start := o.stream.start;
             start + |o.accepted| <= |content| && o.accepted == content[start..start + |o.accepted|]
    ensures var k := o.chunks[i]; k.offset + |k.data| <= |content| && k.data == content[k.offset..k.offset + |k.data|]
  {
    var before, k := Delivered(o.chunks[..i]), o.chunks[i];
    DeliveredAt(o.chunks, i);
    assert before + k.data <= o.accepted;
    assert k.data == o.accepted[|before|..|before| + |k.data|];
    SliceOfSlice(content, o.stream.start, o.stream.start + |o.accepted|, |before|, |before| + |k.data|);
  }

  lemma {:induction false} DeliveredAt(chunks: seq<Chunk>, i: nat)
    requires i < |chunks|
    ensures Delivered(chunks[..i]) + chunks[i].data <= Delivered(chunks)
  {
    var most := chunks[..|chunks| - 1];
    if i == |chunks| - 1 {
      assert chunks[..i] == most;
    } else {
      DeliveredAt(most, i);
      assert most[..i] == chunks[..i];
    }
  }

  // ---- Every reader is answered.

  /** The sizes asked for by the readers that continued, in order. */
  function Asked(es: seq<Event>): seq<nat>
    decreases |es|
  {
    if es == [] then [] else AskedBy(es[0]) + Asked(es[1..])
  }

  function AskedBy(e: Event): seq<nat> {
    if e.Continue? then [e.size] else []
  }

  /** The readers, by the sizes they asked for, have been answered in order, but for the one who waits; a
      finished operation keeps nobody waiting.  An answer is as long as was asked for, or the
      transfer is over and the answer ends with the last byte. */
  ghost predicate Served(o: Operation, asked: seq<nat>) {
    && |asked| == |o.chunks| + (if o.waiting then 1 else 0)
    && (o.done ==> !o.waiting)
    && (o.waiting ==> o.stream.current.Some? && o.stream.current.value.size == asked[|o.chunks|])
    && forall i | 0 <= i < |o.chunks| :: Answers(o, o.chunks[i], asked[i])
  }

  predicate Answers(o: Operation, k: Chunk, size: nat) {
    && |k.data| <= size
    && (|k.data| < size ==> o.done && k.offset + |k.data| == o.stream.start + |o.accepted|)
  }

  lemma AnswerServes(o: Operation, asked: seq<nat>)
    requires Conserved(o) && o.waiting && |asked| == |o.chunks| + 1 && o.stream.current.value.size == asked[|o.chunks|]
    requires forall i | 0 <= i < |o.chunks| :: Answers(o, o.chunks[i], asked[i])
    requires o.done || |o.stream.current.value.written| == o.stream.current.value.size
    ensures Served(Answer(o), asked)
  {
    var p, d := Answer(o), o.stream.current.value.written;
    assert |o.accepted| == |Delivered(o.chunks)| + |d| + |o.stream.overflow|;
    hide Delivered;
    forall i | 0 <= i < |p.chunks| ensures Answers(p, p.chunks[i], asked[i]) {
      if i < |o.chunks| { assert Answers(o, o.chunks[i], asked[i]); }
    }
  }

  /** Answers given before the transfer is over are whole, so more data does not change them. */
  lemma TakenServes(o: Operation, asked: seq<nat>, data: Octets)
    requires Served(o, asked) && !o.done && o.waiting == o.stream.current.Some? && Accept(o.stream, data).1 == Taken
    ensures Served(OnWrite(o, data).0, asked)
  {
    var n := OnWrite(o, data).0;
    forall i | 0 <= i < |n.chunks| ensures Answers(n, n.chunks[i], asked[i]) {
      assert Answers(o, o.chunks[i], asked[i]);
    }
  }

  lemma SuccessServes(o: Operation, asked: seq<nat>)
    requires Conserved(o) && Served(o, asked) && !o.done
    ensures Served(OnSuccess(o), asked)
  {
    var p := o.(done := true);
    forall i | 0 <= i < |o.chunks| ensures Answers(p, o.chunks[i], asked[i]) {
      assert Answers(o, o.chunks[i], asked[i]);
    }
    if o.waiting {
      assert Conserved(p);
      hide Conserved;
      AnswerServes(p, asked);
    }
  }

  lemma ContinueServes(o: Operation, asked: seq<nat>, size: nat)
    requires Conserved(o) && Served(o, asked) && !o.waiting
    ensures Served(OnContinue(o, size), asked + [size])
  {
    var p, all := o.(stream := Install(o.stream, size), waiting := true), asked + [size];
    forall i | 0 <= i < |p.chunks| ensures Answers(p, p.chunks[i], all[i]) {
      assert Answers(o, o.chunks[i], asked[i]);
    }
    if o.done {
      assert Conserved(p) by {
        InstallHolds(o.stream, size);
        assert o.accepted == Delivered(o.chunks) + Held(o.stream);
      }
      hide Conserved;
      AnswerServes(p, all);
    }
  }

  lemma PauseServes(o: Operation, asked: seq<nat>, data: Octets)
    requires Conserved(o) && Served(o, asked) && !o.done && Accept(o.stream, data).1 == Paused
    ensures Served(OnWrite(o, data).0, asked) && !OnWrite(o, data).0.waiting
  {
    ConservedSound(o);
    hide Conserved;
    if o.waiting { AnswerServes(o, asked); }
  }

  lemma StepServes(o: Operation, asked: seq<nat>, e: Event)
    requires Conserved(o) && Served(o, asked) && Possible(o, e)
    ensures Served(Apply(o, e), asked + AskedBy(e))
  {
    ConservedSound(o);
    assert asked + [] == asked;
    hide Conserved, Served;
    match e
    case Write(data) => if Accept(o.stream, data).1 == Taken { TakenServes(o, asked, data); } else { PauseServes(o, asked, data); }
    case Continue(size) => ContinueServes(o, asked, size);
    case Success => SuccessServes(o, asked);
  }

  lemma {:induction false} RunServes(o: Operation, asked: seq<nat>, es: seq<Event>)
    requires Conserved(o) && Served(o, asked) && Legal(o, es)
    ensures Served(Exec(o, es), asked + Asked(es)) && Conserved(Exec(o, es))
    decreases |es|
  {
    hide Conserved, Served, Apply, AskedBy;
    if es == [] {
      assert asked + [] == asked;
    } else {
      StepServes(o, asked, es[0]);
      StepConserves(o, es[0]);
      RunServes(Apply(o, es[0]), asked + AskedBy(es[0]), es[1..]);
      assert asked + Asked(es) == (asked + AskedBy(es[0])) + Asked(es[1..]);
    }
  }

  /** Over every run: the readers are answered in order and once each, and only the last can be waiting, and that
      only before the transfer is over; nobody gets more than asked for, and less only the bytes up
      to the end of the finished transfer.  Then what is not answered yet is overflow. */
  lemma EveryReaderAnswered(start: nat, limit: nat, size: nat, es: seq<Event>)
    requires Legal(Started(start, limit, size), es)
    ensures var o, asked := Exec(Started(start, limit, size), es), [size] + Asked(es);
            && |o.chunks| == |asked| - (if o.waiting then 1 else 0)
            && (o.done ==> !o.waiting && o.accepted == Delivered(o.chunks) + o.stream.overflow)
            && forall i | 0 <= i < |o.chunks| ::
                 && |o.chunks[i].data| <= asked[i]
                 && (|o.chunks[i].data| < asked[i] ==> o.done && o.chunks[i].offset + |o.chunks[i].data| == start + |o.accepted|)
  {
    hide Legal, Exec, Delivered, Asked;
    StartedConserves(start, limit, size);
    RunServes(Started(start, limit, size), [size], es);
    RunConserves(Started(start, limit, size), es);
    var o, asked := Exec(Started(start, limit, size), es), [size] + Asked(es);
    assert forall i | 0 <= i < |o.chunks| :: Answers(o, o.chunks[i], asked[i]);
  }

  // ---- The operation on the source's own fields.

  /** What the write callback knows of the response: its headers, and whether the file was closed. */
  datatype Reply = Reply(cancelled: bool, multipart: bool, offset: nat, status: nat)

  /** What the write callback answers: the transfer is aborted, the response is refused, the data is the text
      of an error, or it is body. */
  datatype Callback = Aborted | Refused | ErrorText | Body(v: Verdict)

  const MAX_ERROR_TEXT: nat := 4096

  class CurlReadOp {
    const first: nat            // requested offset
    const second: nat           // requested size
    var handler: bool           // whether a response handler is installed
    var buffer: array?<char>    // the client's buffer; not owned
    var bufferSize: nat
    var written: nat            // bytes written into the client's buffer
    var prefetchBuffer: Octets  // data that overflowed the client's buffer
    var prefetchOffset: nat     // first unread byte of prefetchBuffer
    var objectOffset: nat       // bytes delivered so far
    var done: bool
    var failed: bool
    var queued: nat             // entries of the continue queue made for this operation
    var errorText: Octets       // the body of an error response
    ghost var accepted: Octets
    ghost var responses: seq<Chunk>
    ghost var errors: nat       // handlers answered with an error

    ghost predicate Valid()
      reads this
    {
      && prefetchOffset <= |prefetchBuffer|
      && (prefetchOffset > 0 ==> prefetchOffset < |prefetchBuffer|)
      && (handler ==> buffer != null && buffer.Length == bufferSize && written <= bufferSize)
      && (!done ==> (handler <==> buffer != null))
      && (handler && prefetchBuffer != [] ==> written == bufferSize)
    }

    ghost function Abs(): Operation
      reads this, buffer
      requires Valid()
    {
      Operation(Stream(first, second, objectOffset,
                       if handler then Some(Buffer(bufferSize, buffer[..written])) else None,
                       prefetchBuffer[prefetchOffset..]),
                handler, done, accepted, responses)
    }

    constructor (offset: nat, size: nat, buffer: array<char>)
      ensures Valid() && Abs() == Started(offset, size, buffer.Length) && this.buffer == buffer
      ensures !failed && queued == 0 && errors == 0 && errorText == []
    {
      first, second := offset, size;
      handler, this.buffer, bufferSize, written := true, buffer, buffer.Length, 0;
      prefetchBuffer, prefetchOffset, objectOffset, done := [], 0, 0, false;
      accepted, responses := [], [];
      failed, queued, errorText, errors := false, 0, [], 0;
    }

    /** Deliver the client's buffer to the installed handler and drop it. */
    method DeliverResponse()
      requires Valid()
      modifies this`handler, this`responses, this`objectOffset, this`buffer, this`bufferSize
      ensures Valid() && Abs() == if old(handler) then Answer(old(Abs())) else old(Abs())
      ensures !handler && responses == old(responses) + if old(handler) then [Chunk(first + old(objectOffset), old(buffer[..written]))] else []
      ensures prefetchBuffer == old(prefetchBuffer) && done == old(done)
    {
      if !handler { return; }
      handler := false;
      responses := responses + [Chunk(first + objectOffset, buffer[..written])];
      objectOffset := objectOffset + written;
      buffer, bufferSize := null, 0;
    }

    /** The write callback: looks at the response first, and takes only the body of a good one. */
    method Write(data: Octets, reply: Reply) returns (r: Callback)
      requires Valid() && !done
      modifies this, buffer
      ensures Valid()
      ensures r.Aborted? <==> reply.cancelled
      ensures r.Refused? <==> !reply.cancelled && (reply.multipart || (old(written) == 0 && reply.offset != first))
      ensures r.ErrorText? <==> !reply.cancelled && !reply.multipart && (old(written) == 0 ==> reply.offset == first) && reply.status > 299
      ensures if r.Body? then (Abs(), r.v) == OnWrite(old(Abs()), data) && errorText == old(errorText) else Abs() == old(Abs())
      ensures r.ErrorText? ==> errorText == old(errorText) + if |old(errorText)| < MAX_ERROR_TEXT then data else []
    {
      if reply.cancelled {
        return Aborted;
      }
      if reply.multipart {
        return Refused;
      }
      if written == 0 && reply.offset != first {
        return Refused;
      }
      if reply.status > 299 {
        if |errorText| < MAX_ERROR_TEXT {
          errorText := errorText + data;
        }
        return ErrorText;
      }
      var v := Take(data);
      return Body(v);
    }

    /** Taking body data is all or nothing. */
    method Take(data: Octets) returns (r: Verdict)
      requires Valid() && !done
      modifies this`handler, this`responses, this`objectOffset, this`buffer, this`bufferSize, this`written,
               this`prefetchBuffer, this`prefetchOffset, this`accepted, buffer
      ensures Valid() && (Abs(), r) == OnWrite(old(Abs()), data)
    {
      if buffer == null || bufferSize == written {
        DeliverResponse();
        return Paused;
      }
      var room := bufferSize - written;
      var larger := |data| > room;
      var toCopy := if larger then room else |data|;
      ghost var before := buffer[..written];
      forall i | 0 <= i < toCopy {
        buffer[written + i] := data[i];
      }
      written := written + toCopy;
      assert buffer[..written] == before + data[..toCopy];
      assert prefetchBuffer == [] && prefetchOffset == 0;
      if second <= bufferSize && larger {
        return TooMuch;
      }
      if larger {
        prefetchBuffer := prefetchBuffer + data[toCopy..];
        prefetchOffset := 0;
      }
      assert prefetchBuffer[prefetchOffset..] == [] + data[toCopy..];
      accepted := accepted + data;
      return Taken;
    }

    /** Serve a freshly installed buffer from the overflow. */
    method CopyOverflow(buffer: array<char>)
      requires prefetchOffset <= |prefetchBuffer| && (prefetchOffset > 0 ==> prefetchOffset < |prefetchBuffer|)
      modifies this`written, this`prefetchBuffer, this`prefetchOffset, buffer
      ensures prefetchOffset <= |prefetchBuffer| && (prefetchOffset > 0 ==> prefetchOffset < |prefetchBuffer|)
      ensures var unread := old(prefetchBuffer[prefetchOffset..]);
              && written == Min(|unread|, buffer.Length)
              && buffer[..written] == unread[..written]
              && prefetchBuffer[prefetchOffset..] == unread[written..]
      ensures prefetchBuffer != [] ==> written == buffer.Length
    {
      written := 0;
      if prefetchBuffer != [] {
        var remaining := |prefetchBuffer| - prefetchOffset;
        var toCopy := if remaining > buffer.Length then buffer.Length else remaining;
        written := toCopy;
        forall i | 0 <= i < toCopy {
          buffer[i] := prefetchBuffer[prefetchOffset + i];
        }
        prefetchOffset := prefetchOffset + toCopy;
        if prefetchOffset == |prefetchBuffer| {
          prefetchBuffer, prefetchOffset := [], 0;
        }
      }
    }

    method InstallBuffer(buffer: array<char>)
      requires Valid() && !handler
      modifies this`handler, this`buffer, this`bufferSize, this`written, this`prefetchBuffer, this`prefetchOffset, buffer
      ensures Valid() && handler && Abs() == old(Abs()).(stream := Install(old(Abs()).stream, buffer.Length), waiting := true)
    {
      handler, this.buffer, bufferSize := true, buffer, buffer.Length;
      CopyOverflow(buffer);
    }

    /** A reader continues the operation with a new buffer; the overflow is served first.  A running operation
        is put on the continue queue, a finished one answers at once, and a failed one with an error. */
    method Continue(buffer: array<char>)
      requires Valid() && !handler
      modifies this, buffer
      ensures Valid() && done == old(done) && failed == old(failed) && queued == old(queued) + if done then 0 else 1
      ensures !(done && failed) ==> Abs() == OnContinue(old(Abs()), buffer.Length) && errors == old(errors)
      ensures done && failed ==> !handler && errors == old(errors) + 1 && responses == old(responses)
    {
      hide Install;
      InstallBuffer(buffer);
      if done {
        if failed {
          FailHandler();
        } else {
          DeliverResponse();
        }
      } else {
        queued := queued + 1;
      }
    }

    /** Take the handler, if there is one, and answer it with an error. */
    method FailHandler()
      requires Valid() && done
      modifies this`handler, this`errors
      ensures Valid() && !handler && errors == old(errors) + if old(handler) then 1 else 0
    {
      if handler {
        handler := false;
        errors := errors + 1;
      }
    }

    /** The transfer failed. */
    method Fail()
      requires Valid()
      modifies this`done, this`failed, this`handler, this`errors
      ensures Valid() && done && failed && !handler && errors == old(errors) + if old(handler) then 1 else 0
    {
      failed := true;
      done := true;
      FailHandler();
    }

    /** The transfer is over: answer the installed handler, if any. */
    method Success()
      requires Valid() && !done
      modifies this
      ensures Valid() && Abs() == OnSuccess(old(Abs())) && !failed && errors == old(errors)
      ensures done && !handler
      ensures responses == old(responses) + if old(handler) then [Chunk(first + old(objectOffset), old(buffer[..written]))] else []
    {
      failed := false;
      done := true;
      if !handler { return; }
      responses := responses + [Chunk(first + objectOffset, buffer[..written])];
      objectOffset := objectOffset + written;
      handler := false;
    }
  }
}
