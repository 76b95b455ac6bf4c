/** The vector read operation: the parser that consumes libcurl's pieces of the body, proved to do
    exactly what the byte automaton does. */
module VectorRead {
  import opened Common
  import opened Lines
  import opened Multipart
  import ContentRange
  import opened MultipartBody

  /** No chunk among numbers `from` to `to` begins after `first` at less than `distance` from it. */
  ghost predicate NoneNearer(chunks: seq<Chunk>, first: int, from: nat, to: nat, distance: int)
    requires chunks != []
  {
    forall k: nat | from <= k < to ::
      first < chunks[Wrap(k, |chunks|)].offset ==> distance <= chunks[Wrap(k, |chunks|)].offset - first
  }

  lemma RoundSees(chunks: seq<Chunk>, first: int, start: nat, distance: int)
    requires chunks != [] && NoneNearer(chunks, first, start, start + |chunks|, distance)
    ensures forall j | 0 <= j < |chunks| :: first < chunks[j].offset ==> distance <= chunks[j].offset - first
  {
    forall j | 0 <= j < |chunks| ensures first < chunks[j].offset ==> distance <= chunks[j].offset - first {
      var k := RoundVisits(start, |chunks|, j);
    }
  }

  class CurlVectorReadOp {
    const separator: Octets
    const chunks: seq<Chunk>
    var status: Status
    var responseIdx: nat
    var bufferIdx: nat
    var skip: int
    var first: int
    var second: int
    var boundary: bool
    var headers: Octets
    var results: seq<Chunk>
    var consumed: nat
    var mem: map<int, char>

    ghost function Abs(): Parser
      reads this
    {
      Parser(separator, chunks, status, responseIdx, bufferIdx, first, second, boundary, headers, results, consumed, mem)
    }

    ghost predicate Valid()
      reads this
    {
      Wf(Abs())
    }

    /** The target is where the automaton gets from here on the rest of the input; beyond an unaligned
        part only the fact itself is kept. */
    ghost predicate Tracks(target: Parser, rest: Octets)
      reads this
    {
      Valid() && if status == Unaligned then target.status == Unaligned else target == Feed(Abs(), rest)
    }

    constructor (sep: Octets, wanted: seq<Chunk>, memory: map<int, char>)
      ensures Valid() && Abs() == Start(sep, wanted, memory)
    {
      separator, chunks, mem := sep, wanted, memory;
      status, responseIdx, bufferIdx, skip, first, second, boundary := Parsing, 0, 0, 0, -1, -1, true;
      headers, results, consumed := [], [], 0;
    }

    /** Choose the chunk for the next payload byte: the first one, going round from the current, that
        starts exactly there; failing that, the one with the fewest bytes to skip. */
    method CalculateNextBuffer()
      modifies this`responseIdx, this`bufferIdx, this`skip
      ensures bufferIdx == 0
      ensures chunks == [] ==> skip == ContentRange.MAX_OFFSET && responseIdx == old(responseIdx)
      ensures chunks != [] ==>
                match Locate(chunks, old(responseIdx), |chunks|, first)
                case Some(i) => responseIdx == i && skip == 0
                case None => skip > 0
      ensures skip > 0 ==> forall j | 0 <= j < |chunks| :: first < chunks[j].offset ==> skip <= chunks[j].offset - first
      ensures 0 < skip < ContentRange.MAX_OFFSET ==> responseIdx < |chunks| && chunks[responseIdx].offset == first + skip
    {
      var distance := ContentRange.MAX_OFFSET;
      var start := responseIdx;
      var ctr := 0;
      while ctr < |chunks|
        invariant ctr <= |chunks| && 0 < distance <= ContentRange.MAX_OFFSET
        invariant chunks != [] ==>
                    Locate(chunks, start, |chunks|, first) == Locate(chunks, start + ctr, |chunks| - ctr, first)
        invariant distance < ContentRange.MAX_OFFSET ==>
                    responseIdx < |chunks| && chunks[responseIdx].offset == first + distance
        invariant distance == ContentRange.MAX_OFFSET ==> responseIdx == start
        invariant chunks != [] ==> NoneNearer(chunks, first, start, start + ctr, distance)
      {
        var idx := Wrap(start + ctr, |chunks|);
        if chunks[idx].offset == first {
          responseIdx := idx;
          distance := 0;
          break;
        }
        var toSkip := chunks[idx].offset - first;
        if 0 < toSkip < distance {
          distance := toSkip;
          responseIdx := idx;
        }
        ctr := ctr + 1;
      }
      if distance > 0 && chunks != [] {
        RoundSees(chunks, first, start, distance);
      }
      bufferIdx := 0;
      skip := distance;
    }

    /** Turn to the chunk of the next payload byte. */
    method Retarget()
      modifies this`responseIdx, this`bufferIdx, this`skip, this`status
      ensures status == Aim(old(Abs())).status && (status != Unaligned ==> Abs() == Aim(old(Abs())))
      ensures bufferIdx == 0
    {
      CalculateNextBuffer();
      if skip > 0 || chunks[responseIdx].length == 0 || chunks[responseIdx].length > second {
        status := Unaligned;
      }
    }

    /** A requested chunk is complete: report it and see what the part still holds. */
    method FinishChunk()
      requires responseIdx < |chunks| && status == Parsing && bufferIdx == chunks[responseIdx].length
      modifies this
      ensures status == Finish(old(Abs())).status && (status != Unaligned ==> Abs() == Finish(old(Abs())))
      ensures bufferIdx == 0 && consumed == Finish(old(Abs())).consumed && results == Finish(old(Abs())).results && headers == old(headers)
    {
      var chunk := chunks[responseIdx];
      results := results + [Chunk(chunk.offset, bufferIdx, chunk.base)];
      consumed := consumed + bufferIdx;
      bufferIdx := 0;
      responseIdx := responseIdx + 1;
      if second == chunk.length {
        first, second := -1, -1;
      } else {
        first := first + chunk.length;
        second := second - chunk.length;
        Retarget();
      }
    }

    /** Copy as much of the payload as the piece and the chunk allow. */
    method CopyPayload(data: Octets, pos: nat, ghost target: Parser) returns (next: nat)
      requires pos < |data| && Tracks(target, data[pos..]) && status == Parsing && InPayload(Abs())
      modifies this
      ensures pos < next <= |data| && Tracks(target, data[next..])
    {
      hide Feed, Finish, Copy, Total, NoCrlf;
      var chunk := chunks[responseIdx];
      var n := Min(chunk.length - bufferIdx, |data| - pos);
      next := pos + n;
      BlockLeads(Abs(), data[pos..], n);
      assert data[pos..][..n] == data[pos..next] && data[pos..][n..] == data[next..];
      mem := Copy(mem, chunk.base + bufferIdx, data[pos..next]);
      bufferIdx := bufferIdx + n;
      if bufferIdx == chunk.length {
        FinishChunk();
      }
    }

    /** The next complete line, possibly begun in earlier pieces; without one, all the input is kept
        for later. */
    method GetNextLine(data: Octets, pos: nat) returns (line: Octets, ok: bool, next: nat)
      requires pos <= |data|
      modifies this`headers
      ensures pos <= next && Fetched(line, ok, headers, next - pos) == NextLine(old(headers), data[pos..])
    {
      var view := data[pos..];
      if headers != [] && headers[|headers| - 1] == '\r' && view != [] && view[0] == '\n' {
        line, ok, next := headers[..|headers| - 1], true, pos + 1;
        headers := [];
      } else {
        var at := Find(view);
        if at == |view| {
          headers := headers + view;
          line, ok, next := [], false, |data|;
        } else {
          line, ok, next := headers + view[..at], true, pos + at + 2;
          headers := [];
        }
      }
    }

    /** A line where a boundary is due. */
    method TakeBoundary(line: Octets)
      requires status == Parsing && boundary
      modifies this`status, this`boundary
      ensures Abs() == BoundaryLine(old(Abs()), line)
    {
      if line == [] {
        return;
      }
      if line == separator {
        boundary := false;
      } else if line == separator + "--" {
        status := Closed;
      } else {
        status := Refused;
      }
    }

    /** A line among the headers of a part. */
    method TakeHeader(line: Octets)
      requires status == Parsing && !boundary
      modifies this
      ensures status == HeaderLine(old(Abs()), line).status
      ensures if status == Unaligned then bufferIdx == 0 else Abs() == HeaderLine(old(Abs()), line)
      ensures consumed == old(consumed) && results == old(results) && headers == old(headers)
    {
      hide ContentRange.Parse, ContentRange.IsContentRange, Locate, Colon;
      if line == [] {
        boundary := true;
        if first == -1 || second == -1 {
          status := Refused;
        }
        return;
      }
      var end := Colon(line);
      if end == |line| {
        status := Refused;
        return;
      }
      if !ContentRange.IsContentRange(line[..end]) {
        return;
      }
      match ContentRange.Parse(line[end + 1..])
      case None => status := Refused;
      case Some((start, length)) =>
        first, second := start, length;
        Retarget();
    }

    /** Read lines up to a boundary, or to the end of the piece. */
    method ReadBoundary(data: Octets, pos: nat, ghost target: Parser) returns (next: nat)
      requires pos <= |data| && Tracks(target, data[pos..]) && status == Parsing && !InPayload(Abs())
      modifies this
      ensures pos <= next <= |data| && Tracks(target, data[next..])
      ensures status == Parsing ==> !InPayload(Abs())
      ensures status == Parsing && boundary ==> next == |data|
      ensures old(boundary) && pos < |data| ==> pos < next
      ensures pos == next ==> boundary == old(boundary) && status == Parsing
    {
      hide Feed, HeaderLine, NextLine, Find, Wf;
      next := pos;
      while boundary && status == Parsing
        invariant pos <= next <= |data| && Tracks(target, data[next..])
        invariant status != Unaligned
        invariant status == Parsing ==> !InPayload(Abs())
        invariant pos == next ==> boundary == old(boundary) && status == Parsing
        decreases |data| - next
      {
        LineLeads(Abs(), data[next..]);
        ghost var f := NextLine(headers, data[next..]);
        ghost var start := next;
        var line, ok;
        line, ok, next := GetNextLine(data, next);
        assert data[start..][f.used..] == data[next..];
        if !ok {
          FeedNothing(Abs());
          assert data[next..] == [];
          return;
        }
        TakeBoundary(line);
      }
    }

    /** Read part headers up to the blank line, or to the end of the piece. */
    method ReadHeaders(data: Octets, pos: nat, ghost target: Parser) returns (next: nat)
      requires pos <= |data| && Tracks(target, data[pos..]) && status == Parsing && !InPayload(Abs())
      modifies this
      ensures pos <= next <= |data| && Tracks(target, data[next..])
      ensures status == Parsing && !boundary ==> next == |data|
      ensures !old(boundary) && pos < |data| ==> pos < next
    {
      hide Feed, HeaderLine, BoundaryLine, NextLine, Find, Total, Framed;
      next := pos;
      while !boundary && status == Parsing
        invariant pos <= next <= |data| && Tracks(target, data[next..])
        invariant pos == next ==> boundary == old(boundary) && status == Parsing
        decreases |data| - next
      {
        ghost var start, before := next, Abs();
        LineLeads(before, data[start..]);
        ghost var f := NextLine(headers, data[start..]);
        var line, ok;
        line, ok, next := GetNextLine(data, next);
        assert data[start..][f.used..] == data[next..];
        if !ok {
          FeedNothing(Abs());
          assert data[next..] == [];
          return;
        }
        TakeHeader(line);
        if status == Unaligned {
          FeedStopped(HeaderLine(before.(partial := []), line), data[next..]);
        }
      }
    }

    /** The write callback. */
    method Write(data: Octets)
      requires Valid()
      modifies this
      ensures Valid()
      ensures status == Feed(old(Abs()), data).status
      ensures status != Unaligned ==> Abs() == Feed(old(Abs()), data)
    {
      hide Feed, Wf, Finished;
      ghost var target := Feed(Abs(), data);
      FeedKeeps(Abs(), data);
      var pos := 0;
      assert data[0..] == data;
      if status == Unaligned {
        FeedStopped(Abs(), data);
      }
      while pos < |data| && status == Parsing
        invariant pos <= |data| && Tracks(target, data[pos..])
        decreases |data| - pos
      {
        if boundary && first != -1 && second != -1 {
          pos := CopyPayload(data, pos, target);
        } else {
          pos := ReadBoundary(data, pos, target);
          if status == Parsing {
            pos := ReadHeaders(data, pos, target);
          }
        }
      }
      FeedNothing(Abs());
      assert pos == |data| ==> data[pos..] == [];
      if status == Closed && pos < |data| {
        FeedClosed(Abs(), data[pos..]);
        status := Trailing;
      } else if status == Refused || status == Trailing {
        FeedStopped(Abs(), data[pos..]);
      }
    }

    /** The transfer succeeded: the reported chunks, the last one as far as it was filled, and their size. */
    method Success() returns (report: seq<Chunk>, size: nat)
      requires Valid()
      modifies this`results, this`consumed
      ensures (report, size) == Finished(old(Abs())) && size == Total(report)
    {
      FeedKeeps(Abs(), []);
      if bufferIdx > 0 {
        var chunk := chunks[responseIdx];
        results := results + [Chunk(chunk.offset, bufferIdx, chunk.base)];
        consumed := consumed + bufferIdx;
      }
      report, size := results, consumed;
    }
  }

  /** What reading one line does to the rest of the run. */
  lemma LineLeads(p: Parser, rest: Octets)
    requires Wf(p) && p.status == Parsing && !InPayload(p)
    ensures var f := NextLine(p.partial, rest);
            && f.used <= |rest|
            && (!f.ok ==> f.used == |rest| && Wf(p.(partial := f.carried)) && Feed(p, rest) == p.(partial := f.carried))
            && (f.ok ==> 0 < f.used && f.carried == [])
            && (f.ok ==> var r := Line(p.(partial := []), f.line); Wf(r) && Feed(p, rest) == Feed(r, rest[f.used..]))
  {
    hide Feed, Line, NextLine, Find, Framed, Total;
    NextLineIsFirstLine(p.partial, rest);
    var f := NextLine(p.partial, rest);
    if f.ok {
      CarriedIsShort(p.partial, rest);
      FeedLine(p, rest, Find(p.partial + rest));
      EmptyPartial(p);
      LineKeeps(p.(partial := []), f.line);
    } else {
      FeedCarries(p, rest);
      EmptyPartial(p);
    }
  }

  lemma FeedNothing(p: Parser)
    ensures Feed(p, []) == p
  {
  }

  lemma EmptyPartial(p: Parser)
    requires Framed(p) && p.status == Parsing && !InPayload(p)
    ensures forall t :: Framed(p.(partial := t)) && !InPayload(p.(partial := t))
  {
  }

  lemma BlockLeads(p: Parser, bs: Octets, n: nat)
    requires Wf(p) && p.status == Parsing && InPayload(p) && Aligned(p)
    requires 0 < n <= |bs| && n <= p.chunks[p.idx].length - p.filled
    ensures var r := AfterBlock(p, bs[..n]);
            Wf(r) && Feed(p, bs) == Feed(r, bs[n..]) && (r.status == Unaligned ==> Feed(p, bs) == r)
  {
    hide Feed, AfterBlock, Wf, Aligned, Finished, InPayload;
    FeedBlock(p, bs, n);
    FeedKeeps(p, bs[..n]);
    FeedPayload(p, bs[..n]);
    var r := AfterBlock(p, bs[..n]);
    if r.status == Unaligned {
      FeedStopped(r, bs[n..]);
    }
  }

  lemma FeedBlock(p: Parser, bs: Octets, n: nat)
    requires n <= |bs|
    ensures Feed(p, bs) == Feed(Feed(p, bs[..n]), bs[n..])
  {
    assert bs == bs[..n] + bs[n..];
    FeedAppend(p, bs[..n], bs[n..]);
  }

  /** Any run of the write callback: where the body was cut makes no difference. */
  method Transfer(op: CurlVectorReadOp, pieces: seq<Octets>)
    requires op.Valid()
    modifies op
    ensures op.Valid()
    ensures op.status == Feed(old(op.Abs()), Flatten(pieces)).status
    ensures op.status != Unaligned ==> op.Abs() == Feed(old(op.Abs()), Flatten(pieces))
  {
    hide Feed, Wf;
    ghost var target := Feed(op.Abs(), Flatten(pieces));
    var i := 0;
    assert pieces[0..] == pieces;
    if op.status == Unaligned {
      FeedStopped(op.Abs(), Flatten(pieces));
    }
    while i < |pieces|
      invariant i <= |pieces| && op.Tracks(target, Flatten(pieces[i..]))
    {
      ghost var later := Flatten(pieces[i + 1..]);
      assert pieces[i..][1..] == pieces[i + 1..];
      FeedAppend(op.Abs(), pieces[i], later);
      if op.status == Unaligned {
        FeedStopped(op.Abs(), pieces[i]);
      }
      ghost var reached := Feed(op.Abs(), pieces[i]);
      op.Write(pieces[i]);
      if op.status == Unaligned {
        FeedStopped(reached, later);
      }
      i := i + 1;
    }
    FeedNothing(op.Abs());
  }

  /** A whole vector read: any cut of a body whose parts are tiled by the requested chunks reports the
      covered chunks, their total size, and memory that holds the object's bytes. */
  method ReadVector(separator: Octets, chunks: seq<Chunk>, mem: map<int, char>, pieces: seq<Octets>,
                    ghost content: Octets, ghost parts: seq<Part>, ghost blanks: nat)
    returns (report: seq<Chunk>, size: nat, memory: map<int, char>)
    requires NoCrlf(separator) && separator != [] && GoodRequest(chunks) && |content| <= ContentRange.MAX_OFFSET
    requires forall i | 0 <= i < |parts| :: GoodPart(chunks, content, parts[i])
    requires Flatten(pieces) == Body(separator, chunks, content, parts, blanks)
    ensures report == Covered(chunks, content, parts) && size == Total(report)
    ensures Reported(content, chunks, memory, report)
  {
    hide Feed, Body, Covered, Total, Reported, GoodRequest, GoodPart, Wf, Finished, NoCrlf;
    var op := new CurlVectorReadOp(separator, chunks, mem);
    BodyReads(separator, chunks, mem, content, parts, blanks);
    Transfer(op, pieces);
    memory := op.mem;
    report, size := op.Success();
  }
}
