/** Splitting a byte stream into CRLF-terminated lines, whole or as the pieces arrive. */
module Lines {
  import opened Common

  predicate CrlfAt(s: Octets, i: nat) {
    i + 1 < |s| && s[i] == '\r' && s[i + 1] == '\n'
  }

  ghost predicate NoCrlf(s: Octets) {
    forall i: nat :: !CrlfAt(s, i)
  }

  /** The position of the first CRLF, or the length if there is none. */
  function Find(s: Octets): (k: nat)
    ensures k <= |s| && forall i: nat | i < k :: !CrlfAt(s, i)
    ensures k < |s| ==> CrlfAt(s, k)
    ensures k == |s| <==> NoCrlf(s)
  {
    if s == [] then 0
    else if CrlfAt(s, 0) then 0
    else
      var k := Find(s[1..]);
      assert forall i: nat | i >= 1 :: CrlfAt(s, i) == CrlfAt(s[1..], i - 1);
      assert NoCrlf(s[1..]) ==> NoCrlf(s);
      assert NoCrlf(s) ==> NoCrlf(s[1..]) by {
        if NoCrlf(s) {
          forall i: nat ensures !CrlfAt(s[1..], i) { assert !CrlfAt(s, i + 1); }
        }
      }
      k + 1
  }

  /** Any position with a CRLF and none before it is the first. */
  lemma FindUnique(s: Octets, k: nat)
    requires CrlfAt(s, k) && forall i: nat | i < k :: !CrlfAt(s, i)
    ensures Find(s) == k
  {
    hide Find;
    assert Find(s) >= k;
  }

  /** A stream cut at every CRLF: the complete lines, and the unterminated rest. */
  function Split(s: Octets): (r: (seq<Octets>, Octets))
    ensures NoCrlf(r.1)
    ensures forall i | 0 <= i < |r.0| :: NoCrlf(r.0[i])
    decreases |s|
  {
    var k := Find(s);
    if k == |s| then ([], s)
    else
      LineIsClean(s, k);
      var rest := Split(s[k + 2..]);
      ([s[..k]] + rest.0, rest.1)
  }

  lemma LineIsClean(s: Octets, k: nat)
    requires k <= |s| && forall i: nat | i < k :: !CrlfAt(s, i)
    ensures NoCrlf(s[..k])
  {
    forall i: nat ensures !CrlfAt(s[..k], i) {
      if i + 1 < k { assert !CrlfAt(s, i); }
    }
  }

  function Unsplit(lines: seq<Octets>, rest: Octets): Octets {
    if lines == [] then rest else lines[0] + "\r\n" + Unsplit(lines[1..], rest)
  }

  /** One line is cut off at a time. */
  lemma SplitOnce(s: Octets)
    ensures var k := Find(s);
            Split(s) == if k == |s| then ([], s) else ([s[..k]] + Split(s[k + 2..]).0, Split(s[k + 2..]).1)
  {
    hide Find, NoCrlf, CrlfAt;
  }

  lemma FirstLine(s: Octets)
    requires Find(s) < |s|
    ensures var k := Find(s); k + 2 <= |s| && s == s[..k] + "\r\n" + s[k + 2..]
  {
    hide Find, NoCrlf;
  }

  /** Splitting forgets nothing. */
  lemma {:induction false} SplitKeepsBytes(s: Octets)
    ensures Unsplit(Split(s).0, Split(s).1) == s
    decreases |s|
  {
    SplitOnce(s);
    hide Split, Find, NoCrlf, CrlfAt;
    var k := Find(s);
    if k < |s| {
      FirstLine(s);
      SplitKeepsBytes(s[k + 2..]);
      assert Split(s).0[1..] == Split(s[k + 2..]).0;
    }
  }

  /** Where the first CRLF of a carried line and the next piece is: across the cut when the one ends in
      CR and the other starts with LF, and otherwise where the piece has its first. */
  lemma FindAcross(carried: Octets, piece: Octets)
    requires NoCrlf(carried) && piece != []
    ensures var whole := carried + piece;
            if carried != [] && carried[|carried| - 1] == '\r' && piece[0] == '\n' then
              Find(whole) == |carried| - 1
            else
              Find(whole) == |carried| + Find(piece)
  {
    hide Find;
    if carried != [] && carried[|carried| - 1] == '\r' && piece[0] == '\n' {
      forall i: nat | i < |carried| - 1 ensures !CrlfAt(carried + piece, i) { assert !CrlfAt(carried, i); }
      FindUnique(carried + piece, |carried| - 1);
    } else {
      FindInside(carried, piece);
    }
  }

  lemma FindInside(carried: Octets, piece: Octets)
    requires NoCrlf(carried) && piece != [] && !(carried != [] && carried[|carried| - 1] == '\r' && piece[0] == '\n')
    ensures Find(carried + piece) == |carried| + Find(piece)
  {
    hide Find;
    var whole, k := carried + piece, Find(piece);
    forall i: nat | i < |carried| + k ensures !CrlfAt(whole, i) {
      if i < |carried| { assert !CrlfAt(carried, i); } else { assert !CrlfAt(piece, i - |carried|); }
    }
    if k < |piece| {
      FindUnique(whole, |carried| + k);
    }
  }

  /** What one call of the line reader returns: the line and whether it is complete, the new carried
      text, and how much of the piece was used. */
  datatype Fetched = Fetched(line: Octets, ok: bool, carried: Octets, used: nat)

  /** The line reader: looks for a CRLF across the cut, then inside the piece, else carries it all. */
  function NextLine(carried: Octets, piece: Octets): Fetched
  {
    if carried != [] && carried[|carried| - 1] == '\r' && piece != [] && piece[0] == '\n' then
      Fetched(carried[..|carried| - 1], true, [], 1)
    else
      var k := Find(piece);
      if k == |piece| then Fetched([], false, carried + piece, |piece|)
      else Fetched(carried + piece[..k], true, [], k + 2)
  }

  /** The line reader sees the same first line as a reader of the whole stream would. */
  lemma NextLineIsFirstLine(carried: Octets, piece: Octets)
    requires NoCrlf(carried)
    ensures var f, whole := NextLine(carried, piece), carried + piece;
            && f.used <= |piece| && NoCrlf(f.carried)
            && (f.ok ==> CrlfAt(whole, Find(whole)) && f.line == whole[..Find(whole)] && f.carried == [])
            && (f.ok ==> 0 < f.used && piece[f.used..] == whole[Find(whole) + 2..])
            && (!f.ok ==> NoCrlf(whole) && f.carried == whole && f.used == |piece|)
  {
    var f, whole := NextLine(carried, piece), carried + piece;
    if piece == [] {
      assert whole == carried;
    } else {
      FindAcross(carried, piece);
      var k := Find(whole);
      if k < |whole| {
        assert piece[f.used..] == whole[k + 2..];
        assert f.line == whole[..k];
      }
    }
  }

  /** All the lines the reader gets out of one piece. */
  function Drain(carried: Octets, piece: Octets): (r: (seq<Octets>, Octets))
    requires NoCrlf(carried)
    decreases |piece|
  {
    NextLineIsFirstLine(carried, piece);
    var f := NextLine(carried, piece);
    if !f.ok then ([], f.carried)
    else
      var rest := Drain(f.carried, piece[f.used..]);
      ([f.line] + rest.0, rest.1)
  }

  lemma {:induction false} DrainSplits(carried: Octets, piece: Octets)
    requires NoCrlf(carried)
    ensures Drain(carried, piece) == Split(carried + piece)
    decreases |piece|
  {
    hide Find, NextLine, CrlfAt, NoCrlf;
    NextLineIsFirstLine(carried, piece);
    var f := NextLine(carried, piece);
    if f.ok {
      var rest := piece[f.used..];
      assert [] + rest == rest;
      DrainSplits([], rest);
    }
  }

  /** The lines read from a stream that arrives in pieces. */
  function DrainAll(carried: Octets, pieces: seq<Octets>): (r: (seq<Octets>, Octets))
    requires NoCrlf(carried)
    decreases |pieces|
  {
    if pieces == [] then ([], carried)
    else
      DrainSplits(carried, pieces[0]);
      var now := Drain(carried, pieces[0]);
      var later := DrainAll(now.1, pieces[1..]);
      (now.0 + later.0, later.1)
  }

  function Flatten(pieces: seq<Octets>): Octets {
    if pieces == [] then [] else pieces[0] + Flatten(pieces[1..])
  }

  lemma FindAppend(a: Octets, b: Octets)
    requires Find(a) < |a|
    ensures Find(a + b) == Find(a)
  {
    assert forall i: nat | i + 1 < |a| :: CrlfAt(a + b, i) == CrlfAt(a, i);
    FindUnique(a + b, Find(a));
  }

  lemma {:induction false} SplitAppend(a: Octets, b: Octets)
    ensures Split(a + b).0 == Split(a).0 + Split(Split(a).1 + b).0
    ensures Split(a + b).1 == Split(Split(a).1 + b).1
    decreases |a|
  {
    SplitOnce(a);
    SplitOnce(a + b);
    hide Split, Find, NoCrlf, CrlfAt;
    var k := Find(a);
    if k < |a| {
      FindAppend(a, b);
      FirstLine(a);
      var whole := a + b;
      assert whole[..k] == a[..k];
      assert whole[k + 2..] == a[k + 2..] + b;
      SplitAppend(a[k + 2..], b);
    }
  }

  /** However the stream is cut, even between CR and LF, the lines read are those of the whole stream. */
  lemma {:induction false} LinesIgnoreCuts(carried: Octets, pieces: seq<Octets>)
    requires NoCrlf(carried)
    ensures DrainAll(carried, pieces) == Split(carried + Flatten(pieces))
    decreases |pieces|
  {
    hide Split, Find, Drain;
    if pieces == [] {
      assert carried + Flatten(pieces) == carried;
      SplitClean(carried);
    } else {
      var p, later := pieces[0], Flatten(pieces[1..]);
      DrainSplits(carried, p);
      LinesIgnoreCuts(Drain(carried, p).1, pieces[1..]);
      SplitAppend(carried + p, later);
      assert carried + Flatten(pieces) == (carried + p) + later;
    }
  }

  lemma SplitClean(s: Octets)
    requires NoCrlf(s)
    ensures Split(s) == ([], s)
  {
  }
}
