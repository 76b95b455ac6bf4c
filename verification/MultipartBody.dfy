/** A multipart/byteranges body as a server writes it, and what the parser makes of it: every chunk that
    a part covers ends up with the object's bytes, and at no moment has anything else been reported. */
module MultipartBody {
  import opened Common
  import opened Lines
  import opened Multipart
  import ContentRange

  // ---- Bodies.

  /** One part: `blanks` empty lines, the separator, header lines around a Content-Range header with
      any capitals in its `name`, and the bytes of the object that the `tiles` ask for, in this order. */
  datatype Part = Part(blanks: nat, before: seq<Octets>, name: Octets, after: seq<Octets>, first: nat, tiles: seq<nat>)

  function Blanks(n: nat): Octets {
    if n == 0 then [] else "\r\n" + Blanks(n - 1)
  }

  function Terminated(lines: seq<Octets>): Octets {
    if lines == [] then [] else (lines[0] + "\r\n") + Terminated(lines[1..])
  }

  /** The chunks that a list of chunk numbers names. */
  function Pick(chunks: seq<Chunk>, tiles: seq<nat>): seq<Chunk>
    requires forall i | 0 <= i < |tiles| :: tiles[i] < |chunks|
  {
    if tiles == [] then [] else [chunks[tiles[0]]] + Pick(chunks, tiles[1..])
  }

  function Span(chunks: seq<Chunk>, tiles: seq<nat>): nat
    requires forall i | 0 <= i < |tiles| :: tiles[i] < |chunks|
  {
    if tiles == [] then 0 else chunks[tiles[0]].length + Span(chunks, tiles[1..])
  }

  /** The chunks follow each other in the object without gap or overlap, starting at `at`. */
  predicate Tiled(chunks: seq<Chunk>, at: nat, tiles: seq<nat>)
    decreases |tiles|
  {
    (forall i | 0 <= i < |tiles| :: tiles[i] < |chunks|) &&
    (tiles != [] ==> chunks[tiles[0]].offset == at && Tiled(chunks, at + chunks[tiles[0]].length, tiles[1..]))
  }

  /** A header line that is not Content-Range. */
  ghost predicate OtherHeader(line: Octets) {
    NoCrlf(line) && Colon(line) < |line| && !ContentRange.SpellsContentRange(line[..Colon(line)])
  }

  ghost predicate GoodPart(chunks: seq<Chunk>, content: Octets, part: Part) {
    && (forall i | 0 <= i < |part.before| :: OtherHeader(part.before[i]))
    && (forall i | 0 <= i < |part.after| :: OtherHeader(part.after[i]))
    && ContentRange.SpellsContentRange(part.name)
    && part.tiles != [] && Tiled(chunks, part.first, part.tiles)
    && part.first + Span(chunks, part.tiles) <= |content|
  }

  function RangeHeader(chunks: seq<Chunk>, content: Octets, part: Part): Octets
    requires forall i | 0 <= i < |part.tiles| :: part.tiles[i] < |chunks|
  {
    var end := part.first + Span(chunks, part.tiles);
    part.name + (":" + ContentRange.Announce(part.first, if end > 0 then end - 1 else 0, |content|))
  }

  function Preamble(separator: Octets, chunks: seq<Chunk>, content: Octets, part: Part): Octets
    requires forall i | 0 <= i < |part.tiles| :: part.tiles[i] < |chunks|
  {
    Blanks(part.blanks) + ((separator + "\r\n") + (Terminated(part.before) +
    ((RangeHeader(chunks, content, part) + "\r\n") + (Terminated(part.after) + ([] + "\r\n")))))
  }

  ghost function Body(separator: Octets, chunks: seq<Chunk>, content: Octets, parts: seq<Part>, blanks: nat): Octets
    requires forall i | 0 <= i < |parts| :: GoodPart(chunks, content, parts[i])
  {
    if parts == [] then Blanks(blanks) + ((separator + "--") + "\r\n")
    else
      var part := parts[0];
      assert GoodPart(chunks, content, part);
      (Preamble(separator, chunks, content, part) + content[part.first..part.first + Span(chunks, part.tiles)])
      + Body(separator, chunks, content, parts[1..], blanks)
  }

  /** What the client asked for: nonempty chunks at distinct offsets with buffers that do not overlap. */
  ghost predicate GoodRequest(chunks: seq<Chunk>) {
    && (forall i | 0 <= i < |chunks| :: chunks[i].length > 0)
    && (forall i, j | 0 <= i < |chunks| && 0 <= j < |chunks| && i != j ::
          chunks[i].offset != chunks[j].offset
          && (chunks[i].base + chunks[i].length <= chunks[j].base || chunks[j].base + chunks[j].length <= chunks[i].base))
  }

  // ---- Runs in which every payload byte is the object's byte.

  predicate HonestByte(content: Octets, p: Parser, b: char) {
    p.status == Parsing && InPayload(p) && Aligned(p) ==>
      p.first + p.filled < |content| && b == content[p.first + p.filled]
  }

  predicate Honest(content: Octets, p: Parser, bs: Octets)
    decreases |bs|
  {
    bs == [] || (HonestByte(content, p, bs[0]) && Honest(content, Step(p, bs[0]), bs[1..]))
  }

  /** From `p` the bytes lead to `q`, and every payload byte on the way is right. */
  predicate Runs(content: Octets, p: Parser, bs: Octets, q: Parser) {
    Honest(content, p, bs) && Feed(p, bs) == q
  }

  lemma {:induction false} HonestAppend(content: Octets, p: Parser, a: Octets, b: Octets)
    ensures Honest(content, p, a + b) <==> Honest(content, p, a) && Honest(content, Feed(p, a), b)
    decreases |a|
  {
    hide Step, HonestByte;
    if a == [] {
      assert a + b == b;
    } else {
      assert (a + b)[1..] == a[1..] + b;
      HonestAppend(content, Step(p, a[0]), a[1..], b);
    }
  }

  lemma RunsAppend(content: Octets, p: Parser, a: Octets, q: Parser, b: Octets, r: Parser)
    requires Runs(content, p, a, q) && Runs(content, q, b, r)
    ensures Runs(content, p, a + b, r)
  {
    hide Honest, Feed;
    HonestAppend(content, p, a, b);
    FeedAppend(p, a, b);
  }

  lemma {:induction false} HonestCarries(content: Octets, p: Parser, bs: Octets)
    requires p.status == Parsing && !InPayload(p) && NoCrlf(p.partial + bs)
    ensures Honest(content, p, bs)
    decreases |bs|
  {
    hide Line;
    if bs != [] {
      var text := p.partial + [bs[0]];
      assert p.partial + bs == text + bs[1..];
      assert |text| >= 2 ==> !CrlfAt(p.partial + bs, |text| - 2);
      assert Step(p, bs[0]) == p.(partial := text);
      HonestCarries(content, p.(partial := text), bs[1..]);
    }
  }

  /** A whole line. */
  lemma LineRuns(content: Octets, p: Parser, line: Octets)
    requires p.status == Parsing && !InPayload(p) && p.partial == [] && NoCrlf(line)
    ensures Runs(content, p, line + "\r\n", Line(p, line))
  {
    hide Line;
    var text := line + "\r";
    PartialStaysClean(line, '\r');
    assert p.partial + text == text;
    HonestCarries(content, p, text);
    FeedCarries(p, text);
    var q := p.(partial := text);
    assert p == q.(partial := []);
    LineEndStep(q, '\n', line);
    assert ['\n'][1..] == [];
    assert Runs(content, q, ['\n'], Line(p, line));
    RunsAppend(content, p, text, q, ['\n'], Line(p, line));
    assert text + ['\n'] == line + "\r\n";
  }

  lemma {:induction false} BlanksRun(content: Octets, p: Parser, n: nat)
    requires p.status == Parsing && p.boundary && !InPayload(p) && p.partial == []
    ensures Runs(content, p, Blanks(n), p)
  {
    if n > 0 {
      hide Runs;
      LineRuns(content, p, []);
      assert [] + "\r\n" == "\r\n";
      BlanksRun(content, p, n - 1);
      RunsAppend(content, p, "\r\n", p, Blanks(n - 1), p);
    }
  }

  lemma {:induction false} OthersRun(content: Octets, p: Parser, lines: seq<Octets>)
    requires p.status == Parsing && !p.boundary && p.partial == []
    requires forall i | 0 <= i < |lines| :: OtherHeader(lines[i])
    ensures Runs(content, p, Terminated(lines), p)
    decreases |lines|
  {
    if lines != [] {
      hide Runs, ContentRange.IsContentRange, ContentRange.SpellsContentRange;
      assert OtherHeader(lines[0]);
      ContentRange.NameExactly(lines[0][..Colon(lines[0])]);
      LineRuns(content, p, lines[0]);
      OthersRun(content, p, lines[1..]);
      RunsAppend(content, p, lines[0] + "\r\n", p, Terminated(lines[1..]), p);
    }
  }

  // ---- Finding the chunk.

  lemma {:induction false} LocateSees(chunks: seq<Chunk>, from: nat, n: nat, k: nat)
    requires chunks != [] && from <= k < from + n
    ensures Locate(chunks, from, n, chunks[Wrap(k, |chunks|)].offset).Some?
    decreases n
  {
    if k > from {
      LocateSees(chunks, from + 1, n - 1, k);
    }
  }

  lemma LocateFinds(chunks: seq<Chunk>, from: nat, i: nat)
    requires GoodRequest(chunks) && i < |chunks|
    ensures Locate(chunks, from, |chunks|, chunks[i].offset) == Some(i)
  {
    var k := RoundVisits(from, |chunks|, i);
    LocateSees(chunks, from, |chunks|, k);
  }

  // ---- The header of a part.

  /** The Content-Range line is clean, and is read as what it announces. */
  lemma RangeLine(name: Octets, first: nat, last: nat, total: nat)
    requires ContentRange.SpellsContentRange(name)
    requires first <= last < ContentRange.MAX_OFFSET
    ensures var line := name + (":" + ContentRange.Announce(first, last, total));
            NoCrlf(line) && line != [] && Colon(line) == |name| < |line| && line[..|name|] == name
            && ContentRange.Parse(line[|name| + 1..]) == Some((first, last + 1 - first))
  {
    hide ContentRange.Parse, ContentRange.Decimal;
    var value := ContentRange.Announce(first, last, total);
    var line := name + (":" + value);
    ContentRange.AnnounceParses(first, last, total);
    assert line[|name| + 1..] == value;
    assert forall i | 0 <= i < |value| :: value[i] != '\r';
    assert forall i | 0 <= i < |name| :: name[i] != '\r' && name[i] != ':';
    forall i: nat ensures !CrlfAt(line, i) {
    }
    assert Colon(line) == |name| by {
      assert line[|name|] == ':';
      assert forall i | 0 <= i < |name| :: line[i] == name[i];
    }
  }

  /** Between parts. */
  predicate Between(p: Parser) {
    p.status == Parsing && p.boundary && p.first == -1 && p.second == -1 && p.filled == 0 && p.partial == []
  }

  /** At the start of the payload that the chunks tile. */
  predicate AtPayload(p: Parser, at: nat, tiles: seq<nat>) {
    && p.status == Parsing && p.boundary && p.filled == 0 && p.partial == []
    && Tiled(p.chunks, at, tiles) && tiles != [] && p.idx == tiles[0]
    && p.first == at && p.second == Span(p.chunks, tiles)
  }

  lemma {:induction false} SpanPositive(chunks: seq<Chunk>, tiles: seq<nat>)
    requires GoodRequest(chunks) && forall i | 0 <= i < |tiles| :: tiles[i] < |chunks|
    ensures tiles != [] ==> Span(chunks, tiles) >= chunks[tiles[0]].length > 0
  {
  }

  lemma RangeRuns(content: Octets, p: Parser, part: Part)
    requires p.status == Parsing && !p.boundary && p.partial == [] && p.filled == 0
    requires GoodRequest(p.chunks) && GoodPart(p.chunks, content, part) && |content| <= ContentRange.MAX_OFFSET
    ensures var q := p.(idx := part.tiles[0], first := part.first, second := Span(p.chunks, part.tiles));
            Runs(content, p, RangeHeader(p.chunks, content, part) + "\r\n", q)
  {
    hide Runs, Colon, ContentRange.Parse, ContentRange.Announce, ContentRange.IsContentRange,
      ContentRange.SpellsContentRange, Locate, OtherHeader, NoCrlf;
    ContentRange.NameExactly(part.name);
    var span := Span(p.chunks, part.tiles);
    SpanPositive(p.chunks, part.tiles);
    RangeLine(part.name, part.first, part.first + span - 1, |content|);
    var line := RangeHeader(p.chunks, content, part);
    LineRuns(content, p, line);
    LocateFinds(p.chunks, p.idx, part.tiles[0]);
  }

  lemma PreambleRuns(content: Octets, p: Parser, part: Part)
    requires Between(p) && NoCrlf(p.separator) && p.separator != []
    requires GoodRequest(p.chunks) && GoodPart(p.chunks, content, part) && |content| <= ContentRange.MAX_OFFSET
    ensures var q := p.(idx := part.tiles[0], first := part.first, second := Span(p.chunks, part.tiles));
            Runs(content, p, Preamble(p.separator, p.chunks, content, part), q) && AtPayload(q, part.first, part.tiles)
  {
    hide Runs, RangeHeader, Blanks, Terminated, NoCrlf, OtherHeader, GoodRequest, Span;
    var a := p.(boundary := false);
    var b := a.(idx := part.tiles[0], first := part.first, second := Span(p.chunks, part.tiles));
    var q := b.(boundary := true);
    BlanksRun(content, p, part.blanks);
    LineRuns(content, p, p.separator);
    OthersRun(content, a, part.before);
    RangeRuns(content, a, part);
    OthersRun(content, b, part.after);
    EmptyIsClean();
    LineRuns(content, b, []);
    RunsAppend(content, b, Terminated(part.after), b, [] + "\r\n", q);
    var t1 := Terminated(part.after) + ([] + "\r\n");
    var h := RangeHeader(p.chunks, content, part) + "\r\n";
    RunsAppend(content, a, h, b, t1, q);
    RunsAppend(content, a, Terminated(part.before), a, h + t1, q);
    var t2 := Terminated(part.before) + (h + t1);
    RunsAppend(content, p, p.separator + "\r\n", a, t2, q);
    RunsAppend(content, p, Blanks(part.blanks), p, (p.separator + "\r\n") + t2, q);
  }

  lemma EmptyIsClean()
    ensures NoCrlf([])
  {
  }

  // ---- The payload of a part.

  lemma {:induction false} HonestPayload(content: Octets, p: Parser, n: nat)
    requires p.status == Parsing && InPayload(p) && Aligned(p)
    requires n <= p.chunks[p.idx].length - p.filled && p.first + p.filled + n <= |content|
    ensures Honest(content, p, content[p.first + p.filled..p.first + p.filled + n])
    decreases n
  {
    hide Finish;
    var bs := content[p.first + p.filled..p.first + p.filled + n];
    if n > 0 {
      var q := Step(p, bs[0]);
      if n == 1 {
        assert bs[1..] == [];
      } else {
        assert bs[1..] == content[q.first + q.filled..q.first + q.filled + (n - 1)];
        HonestPayload(content, q, n - 1);
      }
    }
  }

  /** The first chunk of a tiled payload. */
  lemma TileRuns(content: Octets, p: Parser, at: nat, tiles: seq<nat>) returns (q: Parser)
    requires GoodRequest(p.chunks) && AtPayload(p, at, tiles) && at + Span(p.chunks, tiles) <= |content|
    ensures var c := p.chunks[tiles[0]];
            && at + c.length <= |content| && Runs(content, p, content[at..at + c.length], q)
            && q.results == p.results + [c] && q.chunks == p.chunks && q.separator == p.separator
            && (if tiles[1..] == [] then Between(q) else AtPayload(q, at + c.length, tiles[1..]))
  {
    hide Honest, Feed, Copy, AfterBlock, GoodRequest, Between;
    var c := p.chunks[tiles[0]];
    SpanPositive(p.chunks, tiles);
    var block := content[at..at + c.length];
    HonestPayload(content, p, c.length);
    FeedPayload(p, block);
    q := AfterBlock(p, block);
    TileEnds(p, at, tiles, block);
  }

  /** Where a whole chunk leaves the parser. */
  lemma TileEnds(p: Parser, at: nat, tiles: seq<nat>, block: Octets)
    requires GoodRequest(p.chunks) && AtPayload(p, at, tiles) && Aligned(p) && |block| == p.chunks[tiles[0]].length
    ensures var c, q := p.chunks[tiles[0]], AfterBlock(p, block);
            && q.results == p.results + [c] && q.chunks == p.chunks && q.separator == p.separator
            && (if tiles[1..] == [] then Between(q) else AtPayload(q, at + c.length, tiles[1..]))
  {
    hide Copy, Locate, GoodRequest;
    var c, later := p.chunks[tiles[0]], tiles[1..];
    SpanPositive(p.chunks, later);
    if later != [] {
      assert Tiled(p.chunks, at + c.length, later);
      LocateFinds(p.chunks, p.idx + 1, later[0]);
    }
  }

  lemma {:induction false} TilesRun(content: Octets, p: Parser, at: nat, tiles: seq<nat>) returns (q: Parser)
    requires GoodRequest(p.chunks) && AtPayload(p, at, tiles) && at + Span(p.chunks, tiles) <= |content|
    ensures Runs(content, p, content[at..at + Span(p.chunks, tiles)], q)
    ensures q.results == p.results + Pick(p.chunks, tiles)
    ensures Between(q) && q.chunks == p.chunks && q.separator == p.separator
    decreases |tiles|
  {
    hide Runs, Between, GoodRequest;
    var c := p.chunks[tiles[0]];
    var m := TileRuns(content, p, at, tiles);
    if tiles[1..] == [] {
      q := m;
    } else {
      q := TilesRun(content, m, at + c.length, tiles[1..]);
      var b := content[at + c.length..at + c.length + Span(p.chunks, tiles[1..])];
      RunsAppend(content, p, content[at..at + c.length], m, b, q);
      assert content[at..at + c.length] + b == content[at..at + Span(p.chunks, tiles)];
    }
  }

  // ---- The whole body.

  /** The chunks of all parts, in the order of the body. */
  ghost function Covered(chunks: seq<Chunk>, content: Octets, parts: seq<Part>): seq<Chunk>
    requires forall i | 0 <= i < |parts| :: GoodPart(chunks, content, parts[i])
  {
    if parts == [] then []
    else
      assert GoodPart(chunks, content, parts[0]);
      Pick(chunks, parts[0].tiles) + Covered(chunks, content, parts[1..])
  }

  lemma PartRuns(content: Octets, p: Parser, part: Part) returns (q: Parser)
    requires Between(p) && NoCrlf(p.separator) && p.separator != []
    requires GoodRequest(p.chunks) && GoodPart(p.chunks, content, part) && |content| <= ContentRange.MAX_OFFSET
    ensures Runs(content, p, Preamble(p.separator, p.chunks, content, part)
                             + content[part.first..part.first + Span(p.chunks, part.tiles)], q)
    ensures q.results == p.results + Pick(p.chunks, part.tiles)
    ensures Between(q) && q.chunks == p.chunks && q.separator == p.separator
  {
    hide Runs, Preamble, Pick, GoodRequest, NoCrlf;
    PreambleRuns(content, p, part);
    var m := p.(idx := part.tiles[0], first := part.first, second := Span(p.chunks, part.tiles));
    q := TilesRun(content, m, part.first, part.tiles);
    RunsAppend(content, p, Preamble(p.separator, p.chunks, content, part), m,
               content[part.first..part.first + Span(p.chunks, part.tiles)], q);
  }

  lemma ClosingRuns(content: Octets, p: Parser, blanks: nat)
    requires Between(p) && NoCrlf(p.separator) && p.separator != []
    ensures Runs(content, p, Blanks(blanks) + ((p.separator + "--") + "\r\n"), p.(status := Closed))
  {
    hide Runs;
    BlanksRun(content, p, blanks);
    var line := p.separator + "--";
    PartialStaysClean(p.separator, '-');
    PartialStaysClean(p.separator + ['-'], '-');
    assert p.separator + ['-'] + ['-'] == line;
    LineRuns(content, p, line);
    RunsAppend(content, p, Blanks(blanks), p, line + "\r\n", p.(status := Closed));
  }

  /** The parser accepts the whole body and reports exactly the chunks that the parts cover, in order. */
  lemma {:induction false} BodyRuns(content: Octets, p: Parser, parts: seq<Part>, blanks: nat) returns (q: Parser)
    requires Between(p) && NoCrlf(p.separator) && p.separator != []
    requires GoodRequest(p.chunks) && |content| <= ContentRange.MAX_OFFSET
    requires forall i | 0 <= i < |parts| :: GoodPart(p.chunks, content, parts[i])
    ensures Runs(content, p, Body(p.separator, p.chunks, content, parts, blanks), q)
    ensures q.status == Closed && q.results == p.results + Covered(p.chunks, content, parts) && q.filled == 0
    decreases |parts|
  {
    hide Runs, NoCrlf, GoodRequest, Preamble, Pick;
    if parts == [] {
      ClosingRuns(content, p, blanks);
      q := p.(status := Closed);
    } else {
      var part := parts[0];
      assert GoodPart(p.chunks, content, part);
      var m := PartRuns(content, p, part);
      q := BodyRuns(content, m, parts[1..], blanks);
      RunsAppend(content, p, Preamble(p.separator, p.chunks, content, part)
                 + content[part.first..part.first + Span(p.chunks, part.tiles)],
                 m, Body(p.separator, p.chunks, content, parts[1..], blanks), q);
    }
  }

  // ---- What is reported is what the object holds.

  predicate ByteHolds(content: Octets, mem: map<int, char>, c: Chunk, k: nat) {
    c.offset + k < |content| && c.base + k in mem && mem[c.base + k] == content[c.offset + k]
  }

  /** The first `n` bytes of a chunk's memory are the object's. */
  ghost predicate StartHolds(content: Octets, mem: map<int, char>, c: Chunk, n: nat) {
    forall k: nat | k < n :: ByteHolds(content, mem, c, k)
  }

  /** Every reported chunk is a requested one whose memory holds the object's bytes. */
  ghost predicate Reported(content: Octets, chunks: seq<Chunk>, mem: map<int, char>, results: seq<Chunk>) {
    forall r | 0 <= r < |results| :: results[r] in chunks && StartHolds(content, mem, results[r], results[r].length)
  }

  ghost predicate Truthful(content: Octets, p: Parser) {
    && Reported(content, p.chunks, p.mem, p.results)
    && (p.filled > 0 ==> p.idx < |p.chunks| && StartHolds(content, p.mem, p.chunks[p.idx], p.filled))
  }

  /** Writing a right byte spoils no chunk. */
  lemma RightByte(content: Octets, chunks: seq<Chunk>, mem: map<int, char>, i: nat, at: nat, c: Chunk, n: nat)
    requires GoodRequest(chunks) && i < |chunks| && at < chunks[i].length && c in chunks && n <= c.length
    requires chunks[i].offset + at < |content| && StartHolds(content, mem, c, n)
    ensures StartHolds(content, mem[chunks[i].base + at := content[chunks[i].offset + at]], c, n)
  {
    var j :| 0 <= j < |chunks| && chunks[j] == c;
    var after := mem[chunks[i].base + at := content[chunks[i].offset + at]];
    forall k: nat | k < n ensures ByteHolds(content, after, c, k) {
      assert ByteHolds(content, mem, c, k);
      if i != j {
        assert chunks[i].offset != chunks[j].offset;
      }
    }
  }

  lemma ReportsSurvive(content: Octets, chunks: seq<Chunk>, mem: map<int, char>, results: seq<Chunk>, i: nat, at: nat)
    requires GoodRequest(chunks) && i < |chunks| && at < chunks[i].length && chunks[i].offset + at < |content|
    requires Reported(content, chunks, mem, results)
    ensures Reported(content, chunks, mem[chunks[i].base + at := content[chunks[i].offset + at]], results)
  {
    hide GoodRequest, StartHolds;
    forall r | 0 <= r < |results|
      ensures StartHolds(content, mem[chunks[i].base + at := content[chunks[i].offset + at]], results[r], results[r].length)
    {
      RightByte(content, chunks, mem, i, at, results[r], results[r].length);
    }
  }

  lemma LineTouchesNothing(p: Parser, b: char)
    requires Framed(p) && p.status == Parsing && !InPayload(p)
    ensures var q := LineByte(p, b); q.chunks == p.chunks && q.mem == p.mem && q.results == p.results && q.filled == 0
  {
    hide ContentRange.Parse, ContentRange.IsContentRange, Locate, Colon;
  }

  lemma FinishReports(content: Octets, p: Parser)
    requires p.idx < |p.chunks| && Reported(content, p.chunks, p.mem, p.results)
    requires StartHolds(content, p.mem, p.chunks[p.idx], p.chunks[p.idx].length)
    ensures var q := Finish(p);
            q.chunks == p.chunks && q.filled == 0 && q.results == p.results + [p.chunks[p.idx]]
            && Reported(content, q.chunks, q.mem, q.results)
  {
    hide Locate, StartHolds;
  }

  lemma PayloadTruthful(content: Octets, p: Parser, b: char)
    requires GoodRequest(p.chunks) && Aligned(p) && Truthful(content, p)
    requires p.first + p.filled < |content| && b == content[p.first + p.filled]
    ensures Truthful(content, PayloadByte(p, b)) && PayloadByte(p, b).chunks == p.chunks
    ensures p.results <= PayloadByte(p, b).results
  {
    hide Finish, GoodRequest, Reported;
    var c := p.chunks[p.idx];
    var q := p.(mem := p.mem[c.base + p.filled := b], filled := p.filled + 1);
    ReportsSurvive(content, p.chunks, p.mem, p.results, p.idx, p.filled);
    RightByte(content, p.chunks, p.mem, p.idx, p.filled, c, p.filled);
    assert StartHolds(content, q.mem, c, q.filled);
    if q.filled == c.length {
      FinishReports(content, q);
    }
  }

  lemma TruthfulStep(content: Octets, p: Parser, b: char)
    requires GoodRequest(p.chunks) && Framed(p) && p.status != Unaligned
    requires Truthful(content, p) && HonestByte(content, p, b)
    ensures Truthful(content, Step(p, b)) && Step(p, b).chunks == p.chunks && p.results <= Step(p, b).results
  {
    hide GoodRequest, StartHolds, Reported, PayloadByte, LineByte;
    if p.status == Parsing && InPayload(p) {
      PayloadTruthful(content, p, b);
    } else if p.status == Parsing {
      LineTouchesNothing(p, b);
    }
  }

  /** Whatever happens later, an honest run that has not met an unaligned part has reported only requested
      chunks, each holding the object's bytes. */
  lemma {:induction false} HonestIsTruthful(content: Octets, p: Parser, bs: Octets)
    requires GoodRequest(p.chunks) && Wf(p) && Truthful(content, p) && Honest(content, p, bs)
    requires Feed(p, bs).status != Unaligned
    ensures Truthful(content, Feed(p, bs)) && p.results <= Feed(p, bs).results && Feed(p, bs).chunks == p.chunks
    decreases |bs|
  {
    hide GoodRequest, Truthful, Step, HonestByte;
    if bs != [] {
      if p.status == Unaligned {
        FeedStopped(p, bs);
      }
      TruthfulStep(content, p, bs[0]);
      StepKeeps(p, bs[0]);
      HonestIsTruthful(content, Step(p, bs[0]), bs[1..]);
    }
  }

  /** The vector read theorem: fed the body of a response whose parts are tiled by requested chunks, the
      parser closes, reports exactly the covered chunks in order with the sum of their lengths as the
      size, and the memory of each holds the object's bytes of its range. */
  lemma BodyReads(separator: Octets, chunks: seq<Chunk>, mem: map<int, char>, content: Octets, parts: seq<Part>, blanks: nat)
    requires NoCrlf(separator) && separator != [] && GoodRequest(chunks) && |content| <= ContentRange.MAX_OFFSET
    requires forall i | 0 <= i < |parts| :: GoodPart(chunks, content, parts[i])
    ensures var q := Feed(Start(separator, chunks, mem), Body(separator, chunks, content, parts, blanks));
            var covered := Covered(chunks, content, parts);
            && q.status == Closed && q.results == covered && q.consumed == Total(covered)
            && Finished(q) == (covered, Total(covered))
            && Reported(content, chunks, q.mem, covered)
  {
    hide Body, Covered, Honest, GoodRequest, GoodPart, Feed, Total, Reported;
    var p := Start(separator, chunks, mem);
    var body := Body(separator, chunks, content, parts, blanks);
    var q := BodyRuns(content, p, parts, blanks);
    assert p.results + Covered(chunks, content, parts) == Covered(chunks, content, parts);
    StartIsGood(content, p);
    FeedKeeps(p, body);
    HonestIsTruthful(content, p, body);
  }

  lemma StartIsGood(content: Octets, p: Parser)
    requires p == Start(p.separator, p.chunks, p.mem)
    ensures Wf(p) && Truthful(content, p)
  {
  }

  /** A transfer that ends early, anywhere: what has been reported by then is a prefix of the covered
      chunks, and those and the started chunk hold the object's bytes. */
  lemma TruncatedReads(separator: Octets, chunks: seq<Chunk>, mem: map<int, char>, content: Octets, parts: seq<Part>,
                       blanks: nat, n: nat)
    requires NoCrlf(separator) && separator != [] && GoodRequest(chunks) && |content| <= ContentRange.MAX_OFFSET
    requires forall i | 0 <= i < |parts| :: GoodPart(chunks, content, parts[i])
    ensures var body := Body(separator, chunks, content, parts, blanks);
            var q := Feed(Start(separator, chunks, mem), body[..Min(n, |body|)]);
            q.results <= Covered(chunks, content, parts) && Truthful(content, q)
            && Finished(q).1 == Total(Finished(q).0)
  {
    hide Body, Covered, Honest, GoodRequest, GoodPart, Feed, Total, Truthful, Finished, Wf;
    var p := Start(separator, chunks, mem);
    var body := Body(separator, chunks, content, parts, blanks);
    var q := BodyRuns(content, p, parts, blanks);
    assert p.results + Covered(chunks, content, parts) == Covered(chunks, content, parts);
    StartIsGood(content, p);
    var n := Min(n, |body|);
    FeedKeeps(p, body[..n]);
    assert body == body[..n] + body[n..];
    HonestAppend(content, p, body[..n], body[n..]);
    FeedAppend(p, body[..n], body[n..]);
    var m := Feed(p, body[..n]);
    if m.status == Unaligned {
      FeedStopped(m, body[n..]);
    }
    HonestIsTruthful(content, p, body[..n]);
    HonestIsTruthful(content, m, body[n..]);
  }
}
