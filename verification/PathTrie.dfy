/** The director cache: a trie over path components whose entries expire a minute after the last Put at
    or below them.  It is proved to answer as a flat list of Puts would, by the longest live prefix. */
module PathTrie {
  import opened Common

  const LIFETIME: int := 60

  /** A node: the URL stored there (empty for none), when it expires, and the nodes below. */
  datatype Entry = Entry(value: string, expiry: int, subdirs: map<string, Entry>)

  function Fresh(now: int): Entry {
    Entry("", now + LIFETIME, map[])
  }

  predicate IsExpired(e: Entry, now: int) {
    now > e.expiry
  }

  // ---- Paths.

  /** A path without its leading slashes. */
  function Skip(path: string): (r: string)
    ensures |r| <= |path| && (r != "" ==> r[0] != '/')
  {
    if path != "" && path[0] == '/' then Skip(path[1..]) else path
  }

  /** The text up to the next slash. */
  function Name(path: string): (r: string)
    ensures r <= path && (path != "" && path[0] != '/' ==> r != "")
  {
    if path == "" || path[0] == '/' then "" else [path[0]] + Name(path[1..])
  }

  /** The first component of a path, and the text after it; none if there are only slashes. */
  function First(path: string): (r: Option<(string, string)>)
    ensures r.Some? ==> |r.value.1| < |path|
  {
    var text := Skip(path);
    if text == "" then None else Some((Name(text), text[|Name(text)|..]))
  }

  function Components(path: string): seq<string>
    decreases |path|
  {
    match First(path)
    case None => []
    case Some((name, rest)) => [name] + Components(rest)
  }

  /** The text that is left after `k` components. */
  function Rest(path: string, k: nat): string
    requires k <= |Components(path)|
    decreases k
  {
    if k == 0 then path else Rest(First(path).value.1, k - 1)
  }

  /** Names with slashes before each of them, one or more, and perhaps slashes at the end. */
  function Slashes(n: nat): string {
    if n == 0 then "" else "/" + Slashes(n - 1)
  }

  function Path(names: seq<string>, gaps: seq<nat>, end: nat): string
    requires |gaps| == |names|
  {
    if names == [] then Slashes(end) else Slashes(gaps[0] + 1) + (names[0] + Path(names[1..], gaps[1..], end))
  }

  predicate IsName(name: string) {
    name != "" && forall i | 0 <= i < |name| :: name[i] != '/'
  }

  lemma {:induction false} SkipsSlashes(n: nat, text: string)
    requires text != "" ==> text[0] != '/'
    ensures Skip(Slashes(n) + text) == text
  {
    if n == 0 {
      assert Slashes(0) + text == text;
    } else {
      SkipsSlashes(n - 1, text);
      assert (Slashes(n) + text)[1..] == Slashes(n - 1) + text;
    }
  }

  lemma {:induction false} NameEnds(name: string, rest: string)
    requires (forall i | 0 <= i < |name| :: name[i] != '/') && (rest != "" ==> rest[0] == '/')
    ensures Name(name + rest) == name
  {
    if name == "" {
      assert name + rest == rest;
    } else {
      assert (name + rest)[1..] == name[1..] + rest;
      NameEnds(name[1..], rest);
    }
  }

  /** A path is parsed into its names, however many slashes separate them, and what follows the first `k` names
      is the path of the others. */
  lemma {:induction false} PathParses(names: seq<string>, gaps: seq<nat>, end: nat, k: nat)
    requires |gaps| == |names| && (forall i | 0 <= i < |names| :: IsName(names[i])) && k <= |names|
    ensures Components(Path(names, gaps, end)) == names
    ensures Rest(Path(names, gaps, end), k) == Path(names[k..], gaps[k..], end)
    decreases |names|
  {
    var path := Path(names, gaps, end);
    if names == [] {
      assert Slashes(end) + "" == path;
      SkipsSlashes(end, "");
      assert names[k..] == names && gaps[k..] == gaps;
    } else {
      var rest := Path(names[1..], gaps[1..], end);
      SkipsSlashes(gaps[0] + 1, names[0] + rest);
      assert IsName(names[0]);
      assert rest != "" ==> rest[0] == '/' by { PathBegins(names[1..], gaps[1..], end); }
      NameEnds(names[0], rest);
      assert (names[0] + rest)[|names[0]|..] == rest;
      assert First(path) == Some((names[0], rest));
      hide First;
      PathParses(names[1..], gaps[1..], end, if k == 0 then 0 else k - 1);
      if k == 0 {
        assert names[0..] == names && gaps[0..] == gaps;
      } else {
        assert names[1..][k - 1..] == names[k..] && gaps[1..][k - 1..] == gaps[k..];
      }
    }
  }

  lemma PathBegins(names: seq<string>, gaps: seq<nat>, end: nat)
    requires |gaps| == |names|
    ensures var path := Path(names, gaps, end); path != "" ==> path[0] == '/'
  {
  }

  // ---- The trie.

  function Put(e: Entry, path: string, url: string, now: int): Entry
    decreases |path|
  {
    var touched := e.(expiry := now + LIFETIME);
    match First(path)
    case None => touched.(value := url)
    case Some((name, rest)) =>
      var child := if name in e.subdirs then e.subdirs[name] else Fresh(now);
      touched.(subdirs := e.subdirs[name := Put(child, rest, url, now)])
  }

  /** What a node itself offers for a path. */
  function Offer(e: Entry, path: string): string {
    if e.value == "" then "" else e.value + path
  }

  function Get(e: Entry, path: string, now: int): string
    decreases |path|
  {
    match First(path)
    case None => Offer(e, path)
    case Some((name, rest)) =>
      if name !in e.subdirs || IsExpired(e.subdirs[name], now) then Offer(e, path)
      else
        var result := Get(e.subdirs[name], rest, now);
        if result == "" then Offer(e, path) else result
  }

  /** Only the top level is swept. */
  function Expire(e: Entry, now: int): Entry {
    e.(subdirs := map n | n in e.subdirs && !IsExpired(e.subdirs[n], now) :: e.subdirs[n],
       value := if IsExpired(e, now) then "" else e.value)
  }

  /** The node at a component path. */
  function At(e: Entry, p: seq<string>): Option<Entry>
    decreases |p|
  {
    if p == [] then Some(e)
    else if p[0] in e.subdirs then At(e.subdirs[p[0]], p[1..]) else None
  }

  // ---- The reference: a list of Puts.

  datatype Record = Record(path: seq<string>, url: string, time: int)

  /** `touched` is the time of the last Put of all, or of the creation. */
  datatype Flat = Flat(puts: seq<Record>, touched: int)

  /** The most recent URL put exactly at `p`. */
  function LastUrl(puts: seq<Record>, p: seq<string>): string {
    if puts == [] then ""
    else
      var last := puts[|puts| - 1];
      if last.path == p then last.url else LastUrl(puts[..|puts| - 1], p)
  }

  /** When something was last put at or below `p`. */
  function LastTouch(puts: seq<Record>, p: seq<string>): Option<int> {
    if puts == [] then None
    else
      var last := puts[|puts| - 1];
      if p <= last.path then Some(last.time) else LastTouch(puts[..|puts| - 1], p)
  }

  predicate Live(f: Flat, p: seq<string>, now: int) {
    p == [] || (LastTouch(f.puts, p).Some? && now <= LastTouch(f.puts, p).value + LIFETIME)
  }

  function Recorded(f: Flat, path: string, url: string, now: int): Flat {
    Flat(f.puts + [Record(Components(path), url, now)], now)
  }

  predicate Kept(f: Flat, now: int, r: Record) {
    if r.path == [] then now <= f.touched + LIFETIME else Live(f, r.path[..1], now)
  }

  function Filter(puts: seq<Record>, f: Flat, now: int): seq<Record> {
    if puts == [] then []
    else
      var rest := Filter(puts[..|puts| - 1], f, now);
      if Kept(f, now, puts[|puts| - 1]) then rest + [puts[|puts| - 1]] else rest
  }

  /** Sweeping forgets the Puts under every top-level component that is no longer live. */
  function Forget(f: Flat, now: int): Flat {
    f.(puts := Filter(f.puts, f, now))
  }

  /** The node of the trie at each path is what the list of Puts says. */
  ghost predicate Matches(e: Entry, f: Flat, p: seq<string>) {
    match At(e, p)
    case None => p != [] && LastTouch(f.puts, p).None?
    case Some(n) =>
      n.value == LastUrl(f.puts, p)
      && (if p == [] then n.expiry == f.touched + LIFETIME
          else LastTouch(f.puts, p) == Some(n.expiry - LIFETIME))
  }

  ghost predicate Refines(e: Entry, f: Flat) {
    forall p :: Matches(e, f, p)
  }

  /** The times of the Puts never decrease and end by `bound`. */
  predicate Ordered(puts: seq<Record>, bound: int) {
    puts == [] || (puts[|puts| - 1].time <= bound && Ordered(puts[..|puts| - 1], puts[|puts| - 1].time))
  }

  // ---- Put.

  /** A Put touches the nodes on its path, sets the last, and leaves every other node alone. */
  lemma {:induction false} PutAt(e: Entry, path: string, url: string, now: int, p: seq<string>)
    ensures var cs := Components(path);
            var was := At(e, p);
            var after := At(Put(e, path, url, now), p);
            if p <= cs then
              after.Some? && after.value.expiry == now + LIFETIME
              && after.value.value == if p == cs then url else if was.Some? then was.value.value else ""
            else after == was
    decreases |path|
  {
    var cs := Components(path);
    if p != [] {
      match First(path)
      case None =>
      case Some((name, rest)) =>
        assert cs == [name] + Components(rest) && cs[1..] == Components(rest);
        if p[0] == name {
          assert p <= cs <==> p[1..] <= cs[1..];
          assert p == cs <==> p[1..] == cs[1..];
          if name in e.subdirs {
            PutAt(e.subdirs[name], rest, url, now, p[1..]);
          } else {
            PutAt(Fresh(now), rest, url, now, p[1..]);
          }
        }
    }
  }

  lemma PutRefines(e: Entry, f: Flat, path: string, url: string, now: int)
    requires Refines(e, f)
    ensures Refines(Put(e, path, url, now), Recorded(f, path, url, now))
  {
    var g := Recorded(f, path, url, now);
    assert g.puts[..|g.puts| - 1] == f.puts;
    forall p ensures Matches(Put(e, path, url, now), g, p) {
      PutAt(e, path, url, now, p);
      assert Matches(e, f, p);
      Untouched(f.puts, p);
    }
  }

  lemma {:induction false} Untouched(puts: seq<Record>, p: seq<string>)
    ensures LastTouch(puts, p).None? ==> LastUrl(puts, p) == ""
  {
    if puts != [] {
      Untouched(puts[..|puts| - 1], p);
    }
  }

  // ---- Expire.

  lemma {:induction false} FilterLook(puts: seq<Record>, f: Flat, now: int, p: seq<string>)
    ensures var kept := Filter(puts, f, now);
            if p == [] then LastUrl(kept, p) == if now <= f.touched + LIFETIME then LastUrl(puts, p) else ""
            else if Live(f, p[..1], now) then LastUrl(kept, p) == LastUrl(puts, p) && LastTouch(kept, p) == LastTouch(puts, p)
            else LastUrl(kept, p) == "" && LastTouch(kept, p).None?
  {
    hide Live;
    if puts != [] {
      var last, init := puts[|puts| - 1], puts[..|puts| - 1];
      FilterLook(init, f, now, p);
      var rest := Filter(init, f, now);
      if Kept(f, now, last) {
        assert (rest + [last])[..|rest|] == rest;
      }
      if p != [] && p <= last.path {
        assert p[..1] == last.path[..1];
      }
    }
  }

  lemma ExpireAt(e: Entry, now: int, p: seq<string>)
    requires p != []
    ensures var top := At(e, p[..1]);
            At(Expire(e, now), p) == if top.Some? && !IsExpired(top.value, now) then At(e, p) else None
    ensures At(e, p[..1]).None? ==> At(e, p).None?
  {
    assert p[..1][0] == p[0] && p[..1][1..] == [];
    assert p[0] in e.subdirs ==> At(e, p[..1]) == Some(e.subdirs[p[0]]);
  }

  lemma ExpireRefines(e: Entry, f: Flat, now: int)
    requires Refines(e, f)
    ensures Refines(Expire(e, now), Forget(f, now))
  {
    hide LastUrl, LastTouch, Filter;
    forall p ensures Matches(Expire(e, now), Forget(f, now), p) {
      FilterLook(f.puts, f, now, p);
      assert Matches(e, f, p);
      if p != [] {
        hide At, Expire;
        ExpireAt(e, now, p);
        assert Matches(e, f, p[..1]);
      }
    }
  }

  lemma {:induction false} OrderedWeaken(puts: seq<Record>, a: int, b: int)
    requires Ordered(puts, a) && a <= b
    ensures Ordered(puts, b)
  {
  }

  lemma {:induction false} FilterOrdered(puts: seq<Record>, bound: int, f: Flat, now: int)
    requires Ordered(puts, bound)
    ensures Ordered(Filter(puts, f, now), bound)
  {
    hide Kept;
    if puts != [] {
      var last, init := puts[|puts| - 1], puts[..|puts| - 1];
      FilterOrdered(init, last.time, f, now);
      var rest := Filter(init, f, now);
      OrderedWeaken(rest, last.time, bound);
      assert (rest + [last])[..|rest|] == rest;
    }
  }

  /** A parent never expires before a child: touching a path touches every prefix of it. */
  lemma {:induction false} ParentOutlives(puts: seq<Record>, bound: int, p: seq<string>, q: seq<string>)
    requires Ordered(puts, bound) && p <= q && LastTouch(puts, q).Some?
    ensures LastTouch(puts, p).Some? && LastTouch(puts, q).value <= LastTouch(puts, p).value <= bound
  {
    var last, init := puts[|puts| - 1], puts[..|puts| - 1];
    if !(q <= last.path) {
      ParentOutlives(init, last.time, p, q);
    }
    if p <= last.path && q <= last.path {
    } else if p <= last.path {
      assert LastTouch(puts, p) == Some(last.time);
    }
  }

  // ---- Get.

  /** The node after `k` components can be reached without meeting an expired one, and has a URL. */
  predicate Answers(e: Entry, cs: seq<string>, k: nat, now: int)
    decreases k
  {
    if k == 0 then e.value != ""
    else cs != [] && cs[0] in e.subdirs && !IsExpired(e.subdirs[cs[0]], now) && Answers(e.subdirs[cs[0]], cs[1..], k - 1, now)
  }

  /** Lookup answers from the deepest such node. */
  lemma {:induction false} GetDeepest(e: Entry, path: string, now: int) returns (best: Option<nat>)
    ensures var cs := Components(path);
            match best
            case None => Get(e, path, now) == "" && forall j: nat :: !Answers(e, cs, j, now)
            case Some(k) =>
              && Answers(e, cs, k, now) && (forall j: nat | j > k :: !Answers(e, cs, j, now))
              && k <= |cs| && At(e, cs[..k]).Some? && At(e, cs[..k]).value.value != ""
              && Get(e, path, now) == At(e, cs[..k]).value.value + Rest(path, k)
    decreases |path|
  {
    var cs := Components(path);
    best := if e.value == "" then None else Some(0);
    assert cs[..0] == [];
    if First(path).Some? {
      var (name, rest) := First(path).value;
      assert cs[0] == name && cs[1..] == Components(rest);
      if name in e.subdirs && !IsExpired(e.subdirs[name], now) {
        var child := e.subdirs[name];
        var deeper := GetDeepest(child, rest, now);
        if deeper.Some? {
          var k := deeper.value + 1;
          best := Some(k);
          assert cs[..k][0] == name && cs[..k][1..] == cs[1..][..k - 1];
          forall j: nat | j > k ensures !Answers(e, cs, j, now) {
            assert !Answers(child, cs[1..], j - 1, now);
          }
        } else {
          forall j: nat | j > 0 ensures !Answers(e, cs, j, now) {
            assert !Answers(child, cs[1..], j - 1, now);
          }
        }
      }
    }
  }

  ghost predicate OpenAt(e: Entry, p: seq<string>, now: int) {
    At(e, p).Some? && !IsExpired(At(e, p).value, now)
  }

  lemma {:induction false} AnswersAt(e: Entry, cs: seq<string>, k: nat, now: int)
    ensures Answers(e, cs, k, now) <==>
            k <= |cs| && (forall j | 1 <= j <= k :: OpenAt(e, cs[..j], now))
            && At(e, cs[..k]).Some? && At(e, cs[..k]).value.value != ""
    decreases k
  {
    if k > 0 && cs != [] && cs[0] in e.subdirs {
      var child := e.subdirs[cs[0]];
      AnswersAt(child, cs[1..], k - 1, now);
      forall j | 1 <= j <= k && k <= |cs| ensures At(e, cs[..j]) == At(child, cs[1..][..j - 1]) {
        assert cs[..j][0] == cs[0] && cs[..j][1..] == cs[1..][..j - 1];
      }
      if k <= |cs| {
        assert OpenAt(e, cs[..1], now) <==> !IsExpired(child, now);
        if forall j | 1 <= j <= k :: OpenAt(e, cs[..j], now) {
          forall j | 1 <= j <= k - 1 ensures OpenAt(child, cs[1..][..j], now) {
            assert OpenAt(e, cs[..j + 1], now);
          }
        }
      }
    } else if k > 0 && cs != [] {
      assert cs[..1][0] == cs[0];
      assert !OpenAt(e, cs[..1], now);
    }
  }

  /** A prefix of `k` components is live in the list of Puts and has a URL. */
  predicate Candidate(f: Flat, cs: seq<string>, k: nat, now: int) {
    k <= |cs| && Live(f, cs[..k], now) && LastUrl(f.puts, cs[..k]) != ""
  }

  /** Every prefix on the way to it is live too. */
  ghost predicate OpenTo(f: Flat, cs: seq<string>, k: nat, now: int) {
    k <= |cs| && (forall j | 1 <= j <= k :: Live(f, cs[..j], now)) && LastUrl(f.puts, cs[..k]) != ""
  }

  lemma AnswersIsOpen(e: Entry, f: Flat, cs: seq<string>, k: nat, now: int)
    requires Refines(e, f)
    ensures Answers(e, cs, k, now) <==> OpenTo(f, cs, k, now)
  {
    hide LastUrl, LastTouch, At, Answers;
    AnswersAt(e, cs, k, now);
    if k <= |cs| {
      assert Matches(e, f, cs[..k]);
      Untouched(f.puts, cs[..k]);
      forall j | 1 <= j <= k ensures OpenAt(e, cs[..j], now) <==> Live(f, cs[..j], now) {
        assert Matches(e, f, cs[..j]);
      }
    }
  }

  /** With ordered times a live prefix has live prefixes. */
  lemma OpenIsCandidate(f: Flat, cs: seq<string>, k: nat, now: int)
    requires Ordered(f.puts, f.touched)
    ensures OpenTo(f, cs, k, now) <==> Candidate(f, cs, k, now)
  {
    hide LastUrl, LastTouch, Ordered;
    if k <= |cs| && Live(f, cs[..k], now) {
      forall j | 1 <= j <= k ensures Live(f, cs[..j], now) {
        assert cs[..j] <= cs[..k];
        ParentOutlives(f.puts, f.touched, cs[..j], cs[..k]);
      }
    }
  }

  /** The answer at any times: as the correct one, but a prefix counts only if all prefixes of it are live. */
  ghost predicate Followed(f: Flat, path: string, now: int, answer: string) {
    var cs := Components(path);
    || (answer == "" && forall k: nat :: !OpenTo(f, cs, k, now))
    || exists k: nat | OpenTo(f, cs, k, now) ::
         (forall j: nat | j > k :: !OpenTo(f, cs, j, now)) && answer == LastUrl(f.puts, cs[..k]) + Rest(path, k)
  }

  /** Whatever the times of the Puts, lookup follows live nodes to the deepest URL. */
  lemma GetFollows(e: Entry, f: Flat, path: string, now: int)
    requires Refines(e, f)
    ensures Followed(f, path, now, Get(e, path, now))
  {
    hide Answers, OpenTo, Get;
    var cs := Components(path);
    var best := GetDeepest(e, path, now);
    forall k: nat ensures Answers(e, cs, k, now) <==> OpenTo(f, cs, k, now) {
      AnswersIsOpen(e, f, cs, k, now);
    }
    if best.Some? {
      var k := best.value;
      assert Matches(e, f, cs[..k]);
      assert OpenTo(f, cs, k, now);
      forall j: nat | j > k ensures !OpenTo(f, cs, j, now) {
        assert !Answers(e, cs, j, now);
      }
    } else {
      forall j: nat ensures !OpenTo(f, cs, j, now) {
        assert !Answers(e, cs, j, now);
      }
    }
  }

  /** The answer by the list of Puts: the URL at the longest live prefix that has one, followed by the rest
      of the path; empty if there is none. */
  ghost predicate Correct(f: Flat, path: string, now: int, answer: string) {
    var cs := Components(path);
    || (answer == "" && forall k: nat :: !Candidate(f, cs, k, now))
    || exists k: nat | Candidate(f, cs, k, now) ::
         (forall j: nat | j > k :: !Candidate(f, cs, j, now)) && answer == LastUrl(f.puts, cs[..k]) + Rest(path, k)
  }

  lemma GetCorrect(e: Entry, f: Flat, path: string, now: int)
    requires Refines(e, f) && Ordered(f.puts, f.touched)
    ensures Correct(f, path, now, Get(e, path, now))
  {
    hide OpenTo, Candidate, Get, Ordered, Refines;
    GetFollows(e, f, path, now);
    var cs := Components(path);
    forall k: nat ensures OpenTo(f, cs, k, now) <==> Candidate(f, cs, k, now) {
      OpenIsCandidate(f, cs, k, now);
    }
  }

  /** At most one answer is correct. */
  lemma CorrectUnique(f: Flat, path: string, now: int, a: string, b: string)
    requires Correct(f, path, now, a) && Correct(f, path, now, b)
    ensures a == b
  {
    hide Candidate, LastUrl, Rest;
  }

  // ---- Expiry changes no answer.

  /** Sweeping at `now` changes no answer at any later time exactly when the root is unexpired or has no
      URL of its own. */
  lemma ExpireTransparent(e: Entry, now: int)
    ensures (forall path, t | t >= now :: Get(Expire(e, now), path, t) == Get(e, path, t))
            <==> (!IsExpired(e, now) || e.value == "")
  {
    if IsExpired(e, now) && e.value != "" {
      assert Get(Expire(e, now), "", now) == "" && Get(e, "", now) == e.value;
    } else {
      forall path, t | t >= now ensures Get(Expire(e, now), path, t) == Get(e, path, t) {
      }
    }
  }

  /** Although only the top level is looked at, no live entry is removed. */
  lemma LiveSurvives(e: Entry, f: Flat, now: int, p: seq<string>)
    requires Refines(e, f) && Ordered(f.puts, f.touched) && p != [] && OpenAt(e, p, now)
    ensures At(Expire(e, now), p) == At(e, p)
  {
    ExpireAt(e, now, p);
    assert Matches(e, f, p) && Matches(e, f, p[..1]);
    ParentOutlives(f.puts, f.touched, p[..1], p);
  }

  lemma RecordedOrdered(f: Flat, path: string, url: string, now: int)
    requires Ordered(f.puts, f.touched) && now >= f.touched
    ensures Ordered(Recorded(f, path, url, now).puts, now)
  {
    var g := Recorded(f, path, url, now);
    assert g.puts[..|g.puts| - 1] == f.puts;
    OrderedWeaken(f.puts, f.touched, now);
  }

  // ---- Whole runs.

  datatype Event = Store(path: string, url: string, now: int) | Sweep(now: int)

  /** The clock of the Puts never goes back. */
  predicate Clocked(f: Flat, es: seq<Event>)
    decreases |es|
  {
    es == [] || ((es[0].Store? ==> es[0].now >= f.touched) && Clocked(FlatStep(f, es[0]), es[1..]))
  }

  function TrieStep(e: Entry, ev: Event): Entry {
    match ev
    case Store(path, url, now) => Put(e, path, url, now)
    case Sweep(now) => Expire(e, now)
  }

  function FlatStep(f: Flat, ev: Event): Flat {
    match ev
    case Store(path, url, now) => Recorded(f, path, url, now)
    case Sweep(now) => Forget(f, now)
  }

  function TrieRun(e: Entry, es: seq<Event>): Entry
    decreases |es|
  {
    if es == [] then e else TrieRun(TrieStep(e, es[0]), es[1..])
  }

  function FlatRun(f: Flat, es: seq<Event>): Flat
    decreases |es|
  {
    if es == [] then f else FlatRun(FlatStep(f, es[0]), es[1..])
  }

  lemma {:induction false} RunRefines(e: Entry, f: Flat, es: seq<Event>)
    requires Refines(e, f) && Ordered(f.puts, f.touched) && Clocked(f, es)
    ensures Refines(TrieRun(e, es), FlatRun(f, es))
    ensures Ordered(FlatRun(f, es).puts, FlatRun(f, es).touched)
    decreases |es|
  {
    hide Refines, Ordered, Put, Expire, Recorded, Filter;
    if es != [] {
      match es[0] {
        case Store(path, url, now) =>
          PutRefines(e, f, path, url, now);
          RecordedOrdered(f, path, url, now);
          RecordedTouch(f, path, url, now);
        case Sweep(now) =>
          ExpireRefines(e, f, now);
          FilterOrdered(f.puts, f.touched, f, now);
      }
      RunRefines(TrieStep(e, es[0]), FlatStep(f, es[0]), es[1..]);
    }
  }

  lemma RecordedTouch(f: Flat, path: string, url: string, now: int)
    ensures Recorded(f, path, url, now).touched == now
  {
  }

  lemma FreshRefines(now: int)
    ensures Refines(Fresh(now), Flat([], now))
  {
    forall p ensures Matches(Fresh(now), Flat([], now), p) {
    }
  }

  /** After every run of Puts and sweeps, every lookup gives the one correct answer. */
  lemma RunCorrect(start: int, es: seq<Event>, path: string, now: int)
    requires Clocked(Flat([], start), es)
    ensures Correct(FlatRun(Flat([], start), es), path, now, Get(TrieRun(Fresh(start), es), path, now))
  {
    FreshRefines(start);
    RunRefines(Fresh(start), Flat([], start), es);
    GetCorrect(TrieRun(Fresh(start), es), FlatRun(Flat([], start), es), path, now);
  }

  // ---- Sweeps against the whole history.

  /** The history when nothing is ever forgotten. */
  function FullStep(f: Flat, ev: Event): Flat {
    match ev
    case Store(path, url, now) => Recorded(f, path, url, now)
    case Sweep(_) => f
  }

  function FullRun(f: Flat, es: seq<Event>): Flat
    decreases |es|
  {
    if es == [] then f else FullRun(FullStep(f, es[0]), es[1..])
  }

  function Max(a: int, b: int): int {
    if a < b then b else a
  }

  /** The time of the last sweep, or `since`. */
  function LastSweep(es: seq<Event>, since: int): int
    decreases |es|
  {
    if es == [] then since else LastSweep(es[1..], if es[0].Sweep? then Max(since, es[0].now) else since)
  }

  /** At `p` the swept history says what the whole one does, or has forgotten something long dead. */
  ghost predicate AgreesAt(f: Flat, full: Flat, since: int, p: seq<string>) {
    if p == [] then LastUrl(f.puts, p) == LastUrl(full.puts, p)
    else
      || (LastUrl(f.puts, p) == LastUrl(full.puts, p) && LastTouch(f.puts, p) == LastTouch(full.puts, p))
      || (LastUrl(f.puts, p) == "" && LastTouch(f.puts, p).None?
          && LastTouch(full.puts, p).Some? && LastTouch(full.puts, p).value + LIFETIME < since)
  }

  ghost predicate Agrees(f: Flat, full: Flat, since: int) {
    f.touched == full.touched && forall p :: AgreesAt(f, full, since, p)
  }

  /** The event brings nothing forgotten back to life: a Put passes no prefix whose URL was forgotten, and
      a sweep finds the root unexpired or without a URL. */
  ghost predicate Quiet(f: Flat, full: Flat, ev: Event) {
    match ev
    case Store(path, _, _) =>
      forall p | p <= Components(path) && p != Components(path) :: LastUrl(f.puts, p) == LastUrl(full.puts, p)
    case Sweep(now) => now <= f.touched + LIFETIME || LastUrl(full.puts, []) == ""
  }

  /** A Put keeps the agreement exactly when it is quiet. */
  lemma StoreAgrees(f: Flat, full: Flat, since: int, path: string, url: string, now: int)
    requires Agrees(f, full, since)
    ensures Agrees(Recorded(f, path, url, now), Recorded(full, path, url, now), since) <==> Quiet(f, full, Store(path, url, now))
  {
    var g, h, cs := Recorded(f, path, url, now), Recorded(full, path, url, now), Components(path);
    assert g.puts[..|g.puts| - 1] == f.puts && h.puts[..|h.puts| - 1] == full.puts;
    if Quiet(f, full, Store(path, url, now)) {
      forall p ensures AgreesAt(g, h, since, p) {
        assert AgreesAt(f, full, since, p);
      }
    } else {
      var p :| p <= cs && p != cs && LastUrl(f.puts, p) != LastUrl(full.puts, p);
      assert !AgreesAt(g, h, since, p);
    }
  }

  /** So does a sweep. */
  lemma SweepAgrees(f: Flat, full: Flat, since: int, now: int)
    requires Agrees(f, full, since) && Ordered(f.puts, f.touched)
    ensures Agrees(Forget(f, now), full, Max(since, now)) <==> Quiet(f, full, Sweep(now))
  {
    hide LastUrl, LastTouch, Filter, Ordered;
    var g := Forget(f, now);
    FilterLook(f.puts, f, now, []);
    assert AgreesAt(f, full, since, []);
    assert AgreesAt(g, full, Max(since, now), []) <==> Quiet(f, full, Sweep(now));
    forall p | p != [] ensures AgreesAt(g, full, Max(since, now), p) {
      SweepAgreesAt(f, full, since, now, p);
    }
  }

  lemma SweepAgreesAt(f: Flat, full: Flat, since: int, now: int, p: seq<string>)
    requires AgreesAt(f, full, since, p) && Ordered(f.puts, f.touched) && p != []
    ensures AgreesAt(Forget(f, now), full, Max(since, now), p)
  {
    hide LastUrl, LastTouch, Filter, Ordered;
    FilterLook(f.puts, f, now, p);
    Untouched(f.puts, p);
    if LastTouch(f.puts, p).Some? {
      ParentOutlives(f.puts, f.touched, p[..1], p);
    }
  }

  ghost predicate AllQuiet(f: Flat, full: Flat, es: seq<Event>)
    decreases |es|
  {
    es == [] || (Quiet(f, full, es[0]) && AllQuiet(FlatStep(f, es[0]), FullStep(full, es[0]), es[1..]))
  }

  lemma {:induction false} RunAgrees(f: Flat, full: Flat, since: int, es: seq<Event>)
    requires Agrees(f, full, since) && Ordered(f.puts, f.touched) && Clocked(f, es) && AllQuiet(f, full, es)
    ensures Agrees(FlatRun(f, es), FullRun(full, es), LastSweep(es, since))
    decreases |es|
  {
    hide Agrees, Ordered, Quiet, Recorded, Filter;
    if es != [] {
      match es[0] {
        case Store(path, url, now) =>
          StoreAgrees(f, full, since, path, url, now);
          RecordedOrdered(f, path, url, now);
          RecordedTouch(f, path, url, now);
          RunAgrees(FlatStep(f, es[0]), FullStep(full, es[0]), since, es[1..]);
        case Sweep(now) =>
          SweepAgrees(f, full, since, now);
          FilterOrdered(f.puts, f.touched, f, now);
          RunAgrees(FlatStep(f, es[0]), FullStep(full, es[0]), Max(since, now), es[1..]);
      }
    }
  }

  lemma AgreeingCandidates(f: Flat, full: Flat, since: int, cs: seq<string>, k: nat, now: int)
    requires Agrees(f, full, since) && now >= since
    ensures Candidate(f, cs, k, now) <==> Candidate(full, cs, k, now)
    ensures Candidate(f, cs, k, now) ==> LastUrl(f.puts, cs[..k]) == LastUrl(full.puts, cs[..k])
  {
    hide LastUrl, LastTouch;
    if k <= |cs| { assert AgreesAt(f, full, since, cs[..k]); }
  }

  /** At `now` the same prefixes of every path can answer, with the same URLs. */
  ghost predicate SameAnswers(f: Flat, full: Flat, now: int) {
    forall cs: seq<string>, k: nat ::
      && (Candidate(f, cs, k, now) <==> Candidate(full, cs, k, now))
      && (Candidate(f, cs, k, now) ==> k <= |cs| && LastUrl(f.puts, cs[..k]) == LastUrl(full.puts, cs[..k]))
  }

  lemma AgreeingAnswers(f: Flat, full: Flat, since: int, now: int)
    requires Agrees(f, full, since) && now >= since
    ensures SameAnswers(f, full, now)
  {
    hide Agrees, Candidate;
    forall cs: seq<string>, k: nat
      ensures Candidate(f, cs, k, now) <==> Candidate(full, cs, k, now)
      ensures Candidate(f, cs, k, now) ==> k <= |cs| && LastUrl(f.puts, cs[..k]) == LastUrl(full.puts, cs[..k])
    {
      AgreeingCandidates(f, full, since, cs, k, now);
      CandidateBound(f, cs, k, now);
    }
  }

  /** Right after a Put every lookup has the same prefixes to answer from as in the whole history if and
      only if the Put is quiet. */
  lemma StoreSeenExactly(f: Flat, full: Flat, since: int, path: string, url: string, now: int)
    requires Agrees(f, full, since) && now >= since
    ensures SameAnswers(Recorded(f, path, url, now), Recorded(full, path, url, now), now) <==> Quiet(f, full, Store(path, url, now))
  {
    StoreAgrees(f, full, since, path, url, now);
    if Quiet(f, full, Store(path, url, now)) {
      AgreeingAnswers(Recorded(f, path, url, now), Recorded(full, path, url, now), since, now);
    } else {
      var cs := Components(path);
      var p :| p <= cs && p != cs && LastUrl(f.puts, p) != LastUrl(full.puts, p);
      assert AgreesAt(f, full, since, p);
      RevivesAt(f, full, path, url, now, p);
    }
  }

  lemma RevivesAt(f: Flat, full: Flat, path: string, url: string, now: int, p: seq<string>)
    requires p <= Components(path) && p != Components(path) && LastUrl(f.puts, p) == "" && LastUrl(full.puts, p) != ""
    ensures !SameAnswers(Recorded(f, path, url, now), Recorded(full, path, url, now), now)
  {
    var g, h := Recorded(f, path, url, now), Recorded(full, path, url, now);
    assert g.puts[..|g.puts| - 1] == f.puts && h.puts[..|h.puts| - 1] == full.puts && p[..|p|] == p;
    assert Candidate(h, p, |p|, now) && !Candidate(g, p, |p|, now);
  }

  /** So it is right after a sweep. */
  lemma SweepSeenExactly(f: Flat, full: Flat, since: int, now: int)
    requires Agrees(f, full, since) && Ordered(f.puts, f.touched) && now >= since
    ensures SameAnswers(Forget(f, now), full, now) <==> Quiet(f, full, Sweep(now))
  {
    hide LastUrl, LastTouch, Filter, Ordered;
    SweepAgrees(f, full, since, now);
    if Quiet(f, full, Sweep(now)) {
      AgreeingAnswers(Forget(f, now), full, Max(since, now), now);
    } else {
      var root: seq<string> := [];
      FilterLook(f.puts, f, now, root);
      assert AgreesAt(f, full, since, root) && root[..0] == root;
      assert Candidate(full, root, 0, now) && !Candidate(Forget(f, now), root, 0, now);
    }
  }

  /** In a run whose events are all quiet, lookups from the last sweep on answer as the whole history of Puts
      does: sweeping is invisible. */
  lemma SweepsUnseen(start: int, es: seq<Event>, path: string, now: int)
    requires Clocked(Flat([], start), es) && AllQuiet(Flat([], start), Flat([], start), es) && now >= LastSweep(es, start)
    ensures Correct(FullRun(Flat([], start), es), path, now, Get(TrieRun(Fresh(start), es), path, now))
  {
    var zero := Flat([], start);
    assert Agrees(zero, zero, start);
    RunCorrect(start, es, path, now);
    RunAgrees(zero, zero, start, es);
    var f, full, cs := FlatRun(zero, es), FullRun(zero, es), Components(path);
    hide Agrees, Candidate, FlatRun, FullRun, TrieRun, Get;
    forall k: nat
      ensures Candidate(f, cs, k, now) <==> Candidate(full, cs, k, now)
      ensures Candidate(f, cs, k, now) ==> k <= |cs| && LastUrl(f.puts, cs[..k]) == LastUrl(full.puts, cs[..k])
    {
      AgreeingCandidates(f, full, LastSweep(es, start), cs, k, now);
      CandidateBound(f, cs, k, now);
    }
  }

  lemma CandidateBound(f: Flat, cs: seq<string>, k: nat, now: int)
    ensures Candidate(f, cs, k, now) ==> k <= |cs|
  {
  }

  /** A sweep that finds the root without a URL, and then a Put below a forgotten entry: the entry is live
      again, but its URL is gone from the trie. */
  function Revival(): seq<Event> {
    [Store("/a", "u", 0), Sweep(70), Store("/a/b", "v", 80)]
  }

  lemma PathsAreParsed()
    ensures Components("/a") == ["a"] && Components("/a/b") == ["a", "b"] && Rest("/a", 1) == ""
  {
    assert Skip("/a") == "a" && Name("a") == "a" by { assert "/a"[1..] == "a" && "a"[1..] == ""; }
    assert Skip("/a/b") == "a/b" && Name("a/b") == "a" by { assert "/a/b"[1..] == "a/b" && "a/b"[1..] == "/b"; }
    assert Skip("/b") == "b" && Name("b") == "b" by { assert "/b"[1..] == "b" && "b"[1..] == ""; }
    assert First("/a") == Some(("a", "")) && First("") == None;
    assert First("/a/b") == Some(("a", "/b")) by { assert "a/b"[1..] == "/b"; }
    assert First("/b") == Some(("b", ""));
  }

  lemma RevivalHistories()
    ensures FlatRun(Flat([], 0), Revival()) == Flat([Record(["a", "b"], "v", 80)], 80)
    ensures FullRun(Flat([], 0), Revival()) == Flat([Record(["a"], "u", 0), Record(["a", "b"], "v", 80)], 80)
    ensures Clocked(Flat([], 0), Revival())
  {
    PathsAreParsed();
    hide Components;
    var first, second := Record(["a"], "u", 0), Record(["a", "b"], "v", 80);
    var none: seq<Record> := [];
    var es, zero := Revival(), Flat(none, 0);
    assert none + [first] == [first] && [first][..0] == none && none + [second] == [second];
    assert ["a"][..1] == ["a"];
    var one := Flat([first], 0);
    assert FlatStep(zero, es[0]) == one && FullStep(zero, es[0]) == one;
    assert !Kept(one, 70, first);
    assert FlatStep(one, es[1]) == zero && FullStep(one, es[1]) == one;
    assert FlatStep(zero, es[2]) == Flat([second], 80) && FullStep(one, es[2]) == Flat([first, second], 80);
    assert es[1..][1..] == es[2..] && es[2..][1..] == [] && es[1..][0] == es[1] && es[2..][0] == es[2];
  }

  /** Without the condition on Puts sweeping is seen: here the whole history answers "u", the trie nothing. */
  lemma SweepSeen()
    ensures Clocked(Flat([], 0), Revival())
    ensures Correct(FullRun(Flat([], 0), Revival()), "/a", 81, "u")
    ensures Get(TrieRun(Fresh(0), Revival()), "/a", 81) == ""
  {
    RevivalHistories();
    PathsAreParsed();
    RunCorrect(0, Revival(), "/a", 81);
    hide Components, FlatRun, FullRun, TrieRun, Get, Clocked, Rest;
    var first, second := Record(["a"], "u", 0), Record(["a", "b"], "v", 80);
    var f, full, cs := Flat([second], 80), Flat([first, second], 80), ["a"];
    assert cs[..0] == [] && cs[..1] == cs && [first, second][..1] == [first] && [second][..0] == [] && [first][..0] == [];
    assert cs <= second.path;
    assert LastUrl(f.puts, []) == "" && LastUrl(f.puts, cs) == "";
    assert LastUrl(full.puts, cs) == "u" && LastTouch(full.puts, cs) == Some(80);
    forall k: nat ensures !Candidate(f, cs, k, 81) {
      if k <= 1 { assert cs[..k] == [] || cs[..k] == cs; }
    }
    assert Candidate(full, cs, 1, 81);
    forall j: nat | j > 1 ensures !Candidate(full, cs, j, 81) {
    }
    assert "u" == LastUrl(full.puts, cs[..1]) + Rest("/a", 1);
  }
}
