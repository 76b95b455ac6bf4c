/** The multipart/byteranges parser of a vector read (section 4.1 and Appendix A of RFC 7233) as an
    automaton over single bytes.  `CurlVectorReadOp` takes its input in pieces; it is proved to do what
    this automaton does, so no outcome depends on where the pieces end. */
module Multipart {
  import opened Common
  import opened Lines
  import ContentRange

  /** A requested range and the address of the client memory that wants it. */
  datatype Chunk = Chunk(offset: nat, length: nat, base: int)

  /** `Unaligned` and `Trailing` are where the model stops: a part that the requested chunks do not tile,
      and bytes after the closing boundary. */
  datatype Status = Parsing | Closed | Refused | Unaligned | Trailing

  /** `first` and `second` are the offset and the number of bytes the part still owes (-1 for none),
      `boundary` says that no part header is being read, `partial` is an unfinished line. */
  datatype Parser = Parser(
    separator: Octets,
    chunks: seq<Chunk>,
    status: Status,
    idx: nat,
    filled: nat,
    first: int,
    second: int,
    boundary: bool,
    partial: Octets,
    results: seq<Chunk>,
    consumed: nat,
    mem: map<int, char>)

  function Start(separator: Octets, chunks: seq<Chunk>, mem: map<int, char>): Parser {
    Parser(separator, chunks, Parsing, 0, 0, -1, -1, true, [], [], 0, mem)
  }

  predicate InPayload(p: Parser) {
    p.boundary && p.first != -1 && p.second != -1
  }

  // ---- Which chunk the next payload byte is for.

  /** Chunk numbers wrap around: `k` modulo `n`. */
  function Wrap(k: nat, n: nat): (i: nat)
    requires n > 0
    ensures i < n
  {
    if k < n then k else Wrap(k - n, n)
  }

  /** A full round visits every chunk. */
  lemma {:induction false} RoundVisits(start: nat, n: nat, i: nat) returns (k: nat)
    requires i < n
    ensures start <= k < start + n && Wrap(k, n) == i
  {
    if start == 0 {
      k := i;
    } else {
      k := RoundVisits(start - 1, n, i);
      if k < start {
        k := k + n;
      }
    }
  }

  /** The first chunk at `offset`, counting `n` chunks from number `from` and wrapping around. */
  function Locate(chunks: seq<Chunk>, from: nat, n: nat, offset: int): (r: Option<nat>)
    requires chunks != []
    ensures r.Some? ==> r.value < |chunks| && chunks[r.value].offset == offset
    decreases n
  {
    if n == 0 then None
    else
      var i := Wrap(from, |chunks|);
      if chunks[i].offset == offset then Some(i) else Locate(chunks, from + 1, n - 1, offset)
  }

  /** Turn to the chunk that starts where the part is, if it is neither empty nor longer than what the
      part still owes. */
  function Aim(p: Parser): Parser {
    if p.chunks == [] then p.(status := Unaligned)
    else
      match Locate(p.chunks, p.idx, |p.chunks|, p.first)
      case None => p.(status := Unaligned)
      case Some(i) =>
        if 0 < p.chunks[i].length <= p.second then p.(idx := i, filled := 0) else p.(status := Unaligned)
  }

  predicate Aligned(p: Parser) {
    p.idx < |p.chunks| && p.filled < p.chunks[p.idx].length <= p.second && p.first == p.chunks[p.idx].offset
  }

  /** What every reachable parser satisfies. */
  ghost predicate Wf(p: Parser) {
    && NoCrlf(p.partial)
    && p.consumed == Total(p.results)
    && (if p.status == Unaligned then p.filled == 0 else Framed(p))
  }

  ghost predicate Framed(p: Parser) {
    && (p.status == Parsing && p.first != -1 && p.second != -1 ==> Aligned(p))
    && (p.first == -1 <==> p.second == -1)
    && (p.first == -1 ==> p.filled == 0)
    && (p.filled > 0 ==> p.idx < |p.chunks|)
    && (InPayload(p) ==> p.partial == [])
    && (p.status == Parsing && !p.boundary ==> p.filled == 0)
  }

  function Total(chunks: seq<Chunk>): nat {
    if chunks == [] then 0 else Total(chunks[..|chunks| - 1]) + chunks[|chunks| - 1].length
  }

  // ---- Bytes.

  /** Chunk `idx` is complete. */
  function Finish(p: Parser): Parser
    requires p.idx < |p.chunks|
  {
    var c := p.chunks[p.idx];
    var q := p.(results := p.results + [c], consumed := p.consumed + c.length, filled := 0, idx := p.idx + 1);
    if p.second == c.length then q.(first := -1, second := -1)
    else Aim(q.(first := p.first + c.length, second := p.second - c.length))
  }

  function PayloadByte(p: Parser, b: char): Parser
    requires Aligned(p)
  {
    var c := p.chunks[p.idx];
    var q := p.(mem := p.mem[c.base + p.filled := b], filled := p.filled + 1);
    if q.filled == c.length then Finish(q) else q
  }

  /** The place of the first colon, or the length. */
  function Colon(line: Octets): (k: nat)
    ensures k <= |line| && (forall i | 0 <= i < k :: line[i] != ':') && (k < |line| ==> line[k] == ':')
  {
    if line == [] || line[0] == ':' then 0 else 1 + Colon(line[1..])
  }

  function BoundaryLine(p: Parser, line: Octets): Parser {
    if line == [] then p
    else if line == p.separator then p.(boundary := false)
    else if line == p.separator + "--" then p.(status := Closed)
    else p.(status := Refused)
  }

  function HeaderLine(p: Parser, line: Octets): Parser {
    if line == [] then
      if p.first == -1 || p.second == -1 then p.(boundary := true, status := Refused) else p.(boundary := true)
    else
      var k := Colon(line);
      if k == |line| then p.(status := Refused)
      else if !ContentRange.IsContentRange(line[..k]) then p
      else
        match ContentRange.Parse(line[k + 1..])
        case None => p.(status := Refused)
        case Some((first, length)) => Aim(p.(first := first, second := length))
  }

  /** A complete line between or inside part headers. */
  function Line(p: Parser, line: Octets): Parser {
    if p.boundary then BoundaryLine(p, line) else HeaderLine(p, line)
  }

  function LineByte(p: Parser, b: char): Parser {
    var text := p.partial + [b];
    var n := |text|;
    if n >= 2 && text[n - 2] == '\r' && b == '\n' then Line(p.(partial := []), text[..n - 2])
    else p.(partial := text)
  }

  function Step(p: Parser, b: char): Parser {
    match p.status
    case Parsing =>
      if !InPayload(p) then LineByte(p, b)
      else if Aligned(p) then PayloadByte(p, b)
      else p.(status := Unaligned)
    case Closed => p.(status := Trailing)
    case _ => p
  }

  function Feed(p: Parser, bs: Octets): Parser
    decreases |bs|
  {
    if bs == [] then p else Feed(Step(p, bs[0]), bs[1..])
  }

  /** When the transfer succeeds, a chunk that is only partly filled is reported as far as it goes. */
  function Finished(p: Parser): (seq<Chunk>, nat) {
    if p.filled > 0 && p.idx < |p.chunks| then
      var c := p.chunks[p.idx];
      (p.results + [Chunk(c.offset, p.filled, c.base)], p.consumed + p.filled)
    else (p.results, p.consumed)
  }

  // ---- Every parser reached is well formed.

  lemma TotalAppend(cs: seq<Chunk>, c: Chunk)
    ensures Total(cs + [c]) == Total(cs) + c.length
  {
    assert (cs + [c])[..|cs|] == cs;
  }

  lemma FinishKeeps(p: Parser)
    requires p.status == Parsing && p.boundary && p.idx < |p.chunks| && 0 < p.filled == p.chunks[p.idx].length <= p.second
    requires p.first == p.chunks[p.idx].offset && p.partial == [] && p.consumed == Total(p.results)
    ensures Wf(Finish(p))
  {
    TotalAppend(p.results, p.chunks[p.idx]);
  }

  lemma PayloadKeeps(p: Parser, b: char)
    requires Wf(p) && p.status == Parsing && InPayload(p)
    ensures Wf(PayloadByte(p, b))
  {
    hide Finish;
    var q := p.(mem := p.mem[p.chunks[p.idx].base + p.filled := b], filled := p.filled + 1);
    if q.filled == p.chunks[p.idx].length {
      FinishKeeps(q);
    }
  }

  lemma LineKeeps(p: Parser, line: Octets)
    requires Wf(p) && p.partial == [] && p.status == Parsing && !InPayload(p)
    ensures Wf(Line(p, line))
  {
    hide ContentRange.Parse, Total;
  }

  lemma StepKeeps(p: Parser, b: char)
    requires Wf(p)
    ensures Wf(Step(p, b))
  {
    hide Line, PayloadByte;
    if p.status == Parsing && InPayload(p) {
      PayloadKeeps(p, b);
    } else if p.status == Parsing {
      var text := p.partial + [b];
      var n := |text|;
      if n >= 2 && text[n - 2] == '\r' && b == '\n' {
        LineKeeps(p.(partial := []), text[..n - 2]);
      } else {
        PartialStaysClean(p.partial, b);
      }
    }
  }

  lemma PartialStaysClean(t: Octets, b: char)
    requires NoCrlf(t) && !(t != [] && t[|t| - 1] == '\r' && b == '\n')
    ensures NoCrlf(t + [b])
  {
    forall i: nat ensures !CrlfAt(t + [b], i) {
      assert !CrlfAt(t, i);
    }
  }

  /** Over every byte stream: the reported size is the sum of the reported chunks, and payload bytes
      always have an aligned chunk to go to. */
  lemma {:induction false} FeedKeeps(p: Parser, bs: Octets)
    requires Wf(p)
    ensures Wf(Feed(p, bs))
    ensures Finished(Feed(p, bs)).1 == Total(Finished(Feed(p, bs)).0)
    decreases |bs|
  {
    if bs == [] {
      if p.filled > 0 && p.idx < |p.chunks| {
        var c := p.chunks[p.idx];
        TotalAppend(p.results, Chunk(c.offset, p.filled, c.base));
      }
    } else {
      StepKeeps(p, bs[0]);
      FeedKeeps(Step(p, bs[0]), bs[1..]);
    }
  }

  /** How many of the bytes are payload that goes to a chunk. */
  function Payload(p: Parser, bs: Octets): nat
    decreases |bs|
  {
    if bs == [] then 0
    else (if p.status == Parsing && InPayload(p) && Aligned(p) then 1 else 0) + Payload(Step(p, bs[0]), bs[1..])
  }

  lemma StepCounts(p: Parser, b: char)
    requires Wf(p)
    ensures Finished(Step(p, b)).1 == Finished(p).1 + if p.status == Parsing && InPayload(p) && Aligned(p) then 1 else 0
  {
    hide ContentRange.Parse, ContentRange.IsContentRange, Locate, Colon, Total, NoCrlf;
  }

  /** Over every byte stream: the reported size is the number of payload bytes received, a chunk that was only
      started included. */
  lemma {:induction false} PayloadReported(p: Parser, bs: Octets)
    requires Wf(p)
    ensures Finished(Feed(p, bs)).1 == Finished(p).1 + Payload(p, bs)
    decreases |bs|
  {
    if bs != [] {
      StepKeeps(p, bs[0]);
      StepCounts(p, bs[0]);
      hide Step, Finished, Wf, Aligned;
      PayloadReported(Step(p, bs[0]), bs[1..]);
    }
  }

  // ---- Feeding in pieces, in lines and in payloads.

  lemma {:induction false} FeedAppend(p: Parser, a: Octets, b: Octets)
    ensures Feed(p, a + b) == Feed(Feed(p, a), b)
    decreases |a|
  {
    hide Step;
    if a == [] {
      assert a + b == b;
    } else {
      assert (a + b)[1..] == a[1..] + b;
      FeedAppend(Step(p, a[0]), a[1..], b);
    }
  }

  /** Once the parser has stopped it stays stopped. */
  lemma {:induction false} FeedStopped(p: Parser, bs: Octets)
    requires p.status.Refused? || p.status.Unaligned? || p.status.Trailing?
    ensures Feed(p, bs) == p
    decreases |bs|
  {
    if bs != [] {
      FeedStopped(p, bs[1..]);
    }
  }

  lemma FeedClosed(p: Parser, bs: Octets)
    requires p.status.Closed?
    ensures Feed(p, bs) == if bs == [] then p else p.(status := Trailing)
  {
    if bs != [] {
      FeedStopped(p.(status := Trailing), bs[1..]);
    }
  }

  /** Outside a payload, bytes without a line end are only carried. */
  lemma {:induction false} FeedCarries(p: Parser, bs: Octets)
    requires p.status == Parsing && !InPayload(p) && NoCrlf(p.partial + bs)
    ensures Feed(p, bs) == p.(partial := p.partial + bs)
    decreases |bs|
  {
    hide Line;
    if bs == [] {
      assert p.partial + bs == p.partial;
    } else {
      var text := p.partial + [bs[0]];
      assert p.partial + bs == text + bs[1..];
      assert |text| >= 2 ==> !CrlfAt(p.partial + bs, |text| - 2);
      assert Step(p, bs[0]) == p.(partial := text);
      FeedCarries(p.(partial := text), bs[1..]);
    }
  }

  /** Outside a payload, the first complete line is handled and the rest is fed on. */
  lemma {:induction false} FeedLine(p: Parser, bs: Octets, k: nat)
    requires p.status == Parsing && !InPayload(p) && |p.partial| <= k + 1
    requires k == Find(p.partial + bs) < |p.partial + bs|
    ensures var whole := p.partial + bs;
            Feed(p, bs) == Feed(Line(p.(partial := []), whole[..k]), whole[k + 2..])
    decreases |bs|
  {
    hide Line, Find;
    var whole := p.partial + bs;
    assert CrlfAt(whole, k);
    var text := p.partial + [bs[0]];
    assert whole == text + bs[1..];
    var q := p.(partial := text);
    if |text| == k + 2 {
      LineEndStep(p, bs[0], whole[..k]);
      assert bs[1..] == whole[k + 2..];
    } else {
      assert |text| >= 2 ==> !CrlfAt(whole, |text| - 2);
      FeedLine(q, bs[1..], k);
    }
  }

  lemma LineEndStep(p: Parser, b: char, line: Octets)
    requires p.status == Parsing && !InPayload(p) && p.partial == line + "\r" && b == '\n'
    ensures Step(p, b) == Line(p.(partial := []), line)
  {
    hide Line;
    var text := p.partial + [b];
    assert text[..|text| - 2] == line;
  }

  lemma FeedsLine(p: Parser, line: Octets)
    requires p.status == Parsing && !InPayload(p) && p.partial == [] && NoCrlf(line)
    ensures Feed(p, line + "\r\n") == Line(p, line)
  {
    var bs := line + "\r\n";
    assert p.partial + bs == bs && p.(partial := []) == p;
    assert CrlfAt(bs, |line|);
    forall i: nat | i < |line| ensures !CrlfAt(bs, i) { assert !CrlfAt(line, i); }
    FindUnique(bs, |line|);
    hide Find, Line;
    FeedLine(p, bs, |line|);
    assert bs[..|line|] == line && bs[|line| + 2..] == [];
  }

  /** Between parts exactly these lines go on: nothing, the boundary, and the closing boundary.  Any other makes
      the response be refused, whatever follows it. */
  lemma BoundariesExactly(p: Parser, line: Octets, rest: Octets)
    requires p.status == Parsing && p.boundary && !InPayload(p) && p.partial == [] && NoCrlf(line) && p.separator != []
    ensures Feed(p, line + "\r\n").status == Refused <==> line != [] && line != p.separator && line != p.separator + "--"
    ensures line != [] && line != p.separator && line != p.separator + "--" ==> Feed(p, (line + "\r\n") + rest).status == Refused
    ensures Feed(p, line + "\r\n").status == Closed <==> line == p.separator + "--"
  {
    FeedsLine(p, line);
    FeedAppend(p, line + "\r\n", rest);
    if line != [] && line != p.separator && line != p.separator + "--" { FeedStopped(Line(p, line), rest); }
  }

  /** A line among part headers that no part may have: one without a name, a range that is none, or the end of
      the headers without a range. */
  ghost predicate BadHeader(p: Parser, line: Octets) {
    if line == [] then p.first == -1 || p.second == -1
    else if forall i | 0 <= i < |line| :: line[i] != ':' then true
    else ContentRange.SpellsContentRange(line[..Colon(line)])
         && Colon(line) < |line| && ContentRange.Parse(line[Colon(line) + 1..]).None?
  }

  lemma HeaderRefused(p: Parser, line: Octets)
    requires p.status == Parsing
    ensures HeaderLine(p, line).status == Refused <==> BadHeader(p, line)
  {
    hide ContentRange.Parse, ContentRange.IsContentRange, ContentRange.SpellsContentRange, Locate;
    var k := Colon(line);
    ContentRange.NameExactly(line[..k]);
    if k < |line| { assert line[k] == ':'; }
    hide Colon;
  }

  /** Among part headers exactly such a line makes the response be refused, whatever follows it. */
  lemma HeadersExactly(p: Parser, line: Octets, rest: Octets)
    requires p.status == Parsing && !p.boundary && p.partial == [] && NoCrlf(line)
    ensures Feed(p, line + "\r\n").status == Refused <==> BadHeader(p, line)
    ensures BadHeader(p, line) ==> Feed(p, (line + "\r\n") + rest).status == Refused
  {
    FeedsLine(p, line);
    FeedAppend(p, line + "\r\n", rest);
    HeaderRefused(p, line);
    hide HeaderLine, BadHeader;
    if BadHeader(p, line) { FeedStopped(Line(p, line), rest); }
    hide Feed;
  }

  /** A carried text without a line end is shorter than the line it begins. */
  lemma CarriedIsShort(carried: Octets, bs: Octets)
    requires NoCrlf(carried)
    ensures Find(carried + bs) < |carried + bs| ==> |carried| <= Find(carried + bs) + 1
  {
    var k := Find(carried + bs);
    assert !CrlfAt(carried, k);
  }

  /** Copying a block into the client memory. */
  function Copy(mem: map<int, char>, at: int, bs: Octets): map<int, char>
    decreases |bs|
  {
    if bs == [] then mem else Copy(mem[at := bs[0]], at + 1, bs[1..])
  }

  /** The parser after a block of payload. */
  ghost function AfterBlock(p: Parser, block: Octets): Parser
    requires p.status == Parsing && Aligned(p) && |block| <= p.chunks[p.idx].length - p.filled
  {
    var q := p.(mem := Copy(p.mem, p.chunks[p.idx].base + p.filled, block), filled := p.filled + |block|);
    if q.filled == p.chunks[p.idx].length then Finish(q) else q
  }

  /** A run of payload bytes is one block copy, and completes the chunk when it reaches its end. */
  lemma {:induction false} FeedPayload(p: Parser, bs: Octets)
    requires p.status == Parsing && InPayload(p) && Aligned(p)
    requires bs != [] && |bs| <= p.chunks[p.idx].length - p.filled
    ensures Feed(p, bs) == AfterBlock(p, bs)
    decreases |bs|
  {
    hide Finish;
    var c := p.chunks[p.idx];
    var q := p.(mem := p.mem[c.base + p.filled := bs[0]], filled := p.filled + 1);
    assert Copy(p.mem, c.base + p.filled, bs) == Copy(q.mem, c.base + q.filled, bs[1..]);
    if |bs| == 1 {
      assert bs[1..] == [];
      assert Feed(p, bs) == Step(p, bs[0]);
    } else {
      FeedPayload(q, bs[1..]);
      assert Step(p, bs[0]) == q;
    }
  }
}
