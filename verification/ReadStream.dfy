/** The byte-level state of a download operation (`CurlReadOp`): how bytes handed over by
    libcurl are split between the client buffer and the overflow buffer, and how they leave again
    when the client buffer is delivered. */
module ReadStream {
  import opened Common

  /** The buffer of the read being served: its capacity and the bytes written into it. */
  datatype Buffer = Buffer(size: nat, written: Octets)

  /** `start` and `limit` are the requested offset and size, `delivered` counts the bytes already
      handed to clients, and `overflow` holds the accepted bytes that did not fit. */
  datatype Stream = Stream(start: nat, limit: nat, delivered: nat, current: Option<Buffer>, overflow: Octets)

  datatype Verdict = Taken | Paused | TooMuch

  /** The write callback is all or nothing: with no room the data is refused (and libcurl keeps it),
      otherwise all of it is taken, what does not fit going to the overflow. */
  function Accept(s: Stream, data: Octets): (r: (Stream, Verdict)) {
    match s.current
    case None => (s, Paused)
    case Some(b) =>
      if b.size <= |b.written| then (s, Paused)
      else
        var n := Min(|data|, b.size - |b.written|);
        var filled := s.(current := Some(b.(written := b.written + data[..n])));
        if n < |data| && s.limit <= b.size then (filled, TooMuch)
        else (filled.(overflow := s.overflow + data[n..]), Taken)
  }

  /** A new read installs its buffer and is served from the overflow first. */
  function Install(s: Stream, size: nat): Stream {
    var n := Min(|s.overflow|, size);
    s.(current := Some(Buffer(size, s.overflow[..n])), overflow := s.overflow[n..])
  }

  /** Hand the client buffer over. */
  function Deliver(s: Stream): Stream
    requires s.current.Some?
  {
    s.(delivered := s.delivered + |s.current.value.written|, current := None)
  }

  /** The bytes sitting in the current client buffer. */
  function Pending(s: Stream): Octets {
    if s.current.Some? then s.current.value.written else []
  }

  /** Overflow exists only while the client buffer is full or absent. */
  predicate Sound(s: Stream) {
    s.current.Some? ==>
      && |s.current.value.written| <= s.current.value.size
      && (s.overflow != [] ==> |s.current.value.written| == s.current.value.size)
  }

  /** The bytes accepted and not yet delivered, oldest first. */
  function Held(s: Stream): Octets {
    Pending(s) + s.overflow
  }

  /** Data is refused exactly when there is no room at all, and is too much exactly when the reader asked for
      the whole range, or more, and all that is held would not fit into its buffer. */
  lemma AcceptVerdict(s: Stream, data: Octets)
    requires Sound(s)
    ensures Accept(s, data).1 == Paused <==> s.current.None? || |s.current.value.written| == s.current.value.size
    ensures Accept(s, data).1 == TooMuch <==>
            (s.current.Some? && |s.current.value.written| < s.current.value.size
             && s.limit <= s.current.value.size < |Held(s) + data|)
  {
  }

  lemma AcceptHolds(s: Stream, data: Octets)
    requires Sound(s)
    ensures var (t, v) := Accept(s, data);
            && Sound(t) && t.start == s.start && t.limit == s.limit && t.delivered == s.delivered
            && t.current.Some? == s.current.Some?
            && (t.current.Some? ==> t.current.value.size == s.current.value.size)
            && (v == Taken ==> Held(t) == Held(s) + data)
            && (v == Paused ==> t == s)
            && (v == TooMuch ==> exists n: nat :: n < |data| && Held(t) == Held(s) + data[..n])
  {
    if s.current.Some? && |s.current.value.written| < s.current.value.size {
      var b := s.current.value;
      var n := Min(|data|, b.size - |b.written|);
      assert s.overflow == [];
      assert data == data[..n] + data[n..];
      assert Held(s) == b.written;
      if Accept(s, data).1 == TooMuch {
        assert Held(Accept(s, data).0) == Held(s) + data[..n];
      }
    }
  }

  lemma InstallHolds(s: Stream, size: nat)
    requires Sound(s) && s.current.None?
    ensures Sound(Install(s, size)) && Held(Install(s, size)) == Held(s)
    ensures Install(s, size).current.Some? && Install(s, size).current.value.size == size
    ensures Install(s, size) == s.(current := Install(s, size).current, overflow := Install(s, size).overflow)
  {
    var n := Min(|s.overflow|, size);
    assert s.overflow == s.overflow[..n] + s.overflow[n..];
  }
}
