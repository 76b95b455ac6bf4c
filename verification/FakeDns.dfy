/** The fake DNS of a worker: hosts reached through a connection broker get an invented address.  Three
    tables describe the same entries: host to address, address to host, and the use count of each
    address, kept under the handle that libcurl passes back when a socket closes. */
module FakeDns {
  import opened Common

  const LIFETIME: int := 60

  /** A use count; `addr` is the text that the handle points to. */
  datatype Ref = Ref(addr: string, count: int, lastUsed: int)

  predicate IsExpired(r: Ref, now: int) {
    now - r.lastUsed > LIFETIME
  }

  /** The tables: `forward` leads from a host to its address and handle, `reverse` from an address to its
      host and handle. */
  datatype Tables = Tables(forward: map<string, (string, nat)>, reverse: map<string, (string, nat)>, refs: map<nat, Ref>)

  /** Forward and reverse are inverses of each other, and the use counts have exactly their handles. */
  ghost predicate Consistent(t: Tables) {
    && (forall k | k in t.forward :: t.forward[k].0 in t.reverse && t.reverse[t.forward[k].0] == (k, t.forward[k].1))
    && (forall a | a in t.reverse :: t.reverse[a].0 in t.forward && t.forward[t.reverse[a].0] == (a, t.reverse[a].1))
    && (forall a | a in t.reverse :: t.reverse[a].1 in t.refs && t.refs[t.reverse[a].1].addr == a)
    && (forall h | h in t.refs :: t.refs[h].addr in t.reverse && t.reverse[t.refs[h].addr].1 == h)
  }

  /** The open sockets of a handle. */
  ghost function Users(sockets: map<nat, nat>, h: nat): set<nat> {
    set s | s in sockets && sockets[s] == h
  }

  /** Every open socket has its entry, and the counts are the numbers of open sockets. */
  ghost predicate Counted(refs: map<nat, Ref>, sockets: map<nat, nat>) {
    && (forall s | s in sockets :: sockets[s] in refs)
    && (forall h | h in refs :: refs[h].count == |Users(sockets, h)|)
  }

  predicate Evictable(r: Ref, now: int) {
    r.count <= 0 && IsExpired(r, now)
  }

  /** Forget an entry in all three tables. */
  function Evict(t: Tables, h: nat): Tables
    requires h in t.refs
  {
    var a := t.refs[h].addr;
    if a in t.reverse then Tables(t.forward - {t.reverse[a].0}, t.reverse - {a}, t.refs - {h})
    else t.(refs := t.refs - {h})
  }

  lemma EvictConsistent(t: Tables, h: nat)
    requires Consistent(t) && h in t.refs
    ensures Consistent(Evict(t, h))
  {
  }

  /** An entry without open sockets can be forgotten. */
  lemma EvictCounted(refs: map<nat, Ref>, sockets: map<nat, nat>, h: nat)
    requires Counted(refs, sockets) && h in refs && refs[h].count <= 0
    ensures Counted(refs - {h}, sockets)
  {
    forall s | s in sockets ensures sockets[s] != h {
      assert s in Users(sockets, sockets[s]);
    }
  }

  lemma UsersOpen(sockets: map<nat, nat>, s: nat, h: nat, g: nat)
    requires s !in sockets
    ensures |Users(sockets[s := h], g)| == |Users(sockets, g)| + if g == h then 1 else 0
  {
    assert Users(sockets[s := h], g) == if g == h then Users(sockets, g) + {s} else Users(sockets, g);
  }

  lemma UsersClose(sockets: map<nat, nat>, s: nat, g: nat)
    requires s in sockets
    ensures |Users(sockets - {s}, g)| == |Users(sockets, g)| - if g == sockets[s] then 1 else 0
  {
    assert s in Users(sockets, sockets[s]);
    assert Users(sockets - {s}, g) == Users(sockets, g) - {s};
  }

  lemma OpenCounted(refs: map<nat, Ref>, sockets: map<nat, nat>, h: nat, s: nat, r: Ref)
    requires Counted(refs, sockets) && h in refs && s !in sockets && r.count == refs[h].count + 1
    ensures Counted(refs[h := r], sockets[s := h])
  {
    hide Users;
    forall g | g in refs ensures refs[h := r][g].count == |Users(sockets[s := h], g)| {
      UsersOpen(sockets, s, h, g);
    }
  }

  lemma CloseCounted(refs: map<nat, Ref>, sockets: map<nat, nat>, s: nat, r: Ref)
    requires Counted(refs, sockets) && s in sockets && r.count == refs[sockets[s]].count - 1
    ensures Counted(refs[sockets[s] := r], sockets - {s})
  {
    hide Users;
    forall g | g in refs ensures refs[sockets[s] := r][g].count == |Users(sockets - {s}, g)| {
      UsersClose(sockets, s, g);
    }
  }

  lemma AddCounted(refs: map<nat, Ref>, sockets: map<nat, nat>, h: nat, r: Ref)
    requires Counted(refs, sockets) && h !in refs && r.count == 0
    ensures Counted(refs[h := r], sockets)
  {
    assert Users(sockets, h) == {};
  }

  /** A new entry for a new host at a new address. */
  function Added(t: Tables, host: string, addr: string, h: nat, now: int): Tables {
    Tables(t.forward[host := (addr, h)], t.reverse[addr := (host, h)], t.refs[h := Ref(addr, 0, now)])
  }

  lemma AddConsistent(t: Tables, host: string, addr: string, h: nat, now: int)
    requires Consistent(t) && host !in t.forward && addr !in t.reverse && h !in t.refs
    ensures Consistent(Added(t, host, addr, h, now))
  {
  }

  lemma HostKnown(t: Tables, host: string)
    requires Consistent(t) && host in t.forward
    ensures t.forward[host].1 in t.refs
  {
  }

  lemma RecountConsistent(t: Tables, h: nat, r: Ref)
    requires Consistent(t) && h in t.refs && r.addr == t.refs[h].addr
    ensures Consistent(t.(refs := t.refs[h := r]))
  {
  }

  /** The close of an open socket passes its own handle; the close of another passes no known one. */
  predicate Matching(refs: map<nat, Ref>, sockets: map<nat, nat>, socket: nat, handle: Option<nat>) {
    if socket in sockets then handle == Some(sockets[socket]) else handle.None? || handle.value !in refs
  }

  lemma KnownSocket(refs: map<nat, Ref>, sockets: map<nat, nat>, s: nat)
    requires Counted(refs, sockets) && s in sockets
    ensures sockets[s] in refs
  {
  }

  lemma StrayCounted(refs: map<nat, Ref>, sockets: map<nat, nat>, s: nat)
    requires Counted(refs, sockets) && s !in sockets
    ensures Counted(refs, sockets - {s})
  {
    assert sockets - {s} == sockets;
  }

  /** Handles are never used again. */
  predicate Below(refs: map<nat, Ref>, n: nat) {
    forall h | h in refs :: h < n
  }

  class Resolver {
    var tables: Tables
    var nextHandle: nat
    ghost var sockets: map<nat, nat>
    ghost var matched: bool

    /** The tables always agree; and while every close matched its open, so do the counts. */
    ghost predicate Valid()
      reads this
    {
      Consistent(tables) && Below(tables.refs, nextHandle) && (matched ==> Counted(tables.refs, sockets))
    }

    constructor ()
      ensures Valid() && tables == Tables(map[], map[], map[]) && sockets == map[] && matched
    {
      tables, nextHandle, sockets, matched := Tables(map[], map[], map[]), 0, map[], true;
    }

    /** The address of a host; `generated` is the next invented address. */
    method GetFakeEndpointForHost(host: string, generated: string, now: int) returns (handle: Option<nat>)
      requires Valid()
      modifies this`tables, this`nextHandle
      ensures Valid()
      ensures handle.None? <==> host !in old(tables).forward && generated in old(tables).reverse
      ensures handle.Some? ==> host in tables.forward && tables.forward[host].1 == handle.value && handle.value in tables.refs
      ensures forall k | k in old(tables).forward :: k in tables.forward && tables.forward[k] == old(tables).forward[k]
      ensures forall k | k in tables.forward :: k in old(tables).forward || k == host
      ensures handle.Some? && host !in old(tables).forward ==> tables.forward[host].0 == generated && handle.value !in old(tables).refs
      ensures forall h | h in tables.refs :: if h in old(tables).refs then tables.refs[h] == old(tables).refs[h] else tables.refs[h] == Ref(generated, 0, now)
    {
      hide Counted, Consistent;
      if host in tables.forward {
        HostKnown(tables, host);
        return Some(tables.forward[host].1);
      }
      if generated in tables.reverse {
        return None;
      }
      var h := nextHandle;
      AddConsistent(tables, host, generated, h, now);
      if matched { AddCounted(tables.refs, sockets, h, Ref(generated, 0, now)); }
      tables := Added(tables, host, generated, h, now);
      nextHandle := nextHandle + 1;
      return Some(h);
    }

    /** libcurl opens a socket to an invented address. */
    method OpenSocket(addr: string, socket: nat, now: int) returns (ok: bool)
      requires Valid() && socket !in sockets
      modifies this`tables, this`sockets
      ensures Valid() && ok == (addr in old(tables).reverse)
      ensures tables.forward == old(tables).forward && tables.reverse == old(tables).reverse
      ensures sockets == if ok then old(sockets)[socket := old(tables).reverse[addr].1] else old(sockets)
      ensures tables.refs.Keys == old(tables).refs.Keys
      ensures forall h | h in tables.refs :: var r := old(tables).refs[h];
                tables.refs[h] == if ok && r.addr == addr then Ref(addr, r.count + 1, now) else r
    {
      if addr !in tables.reverse {
        return false;
      }
      var h := tables.reverse[addr].1;
      var r := tables.refs[h];
      var used := r.(count := r.count + 1, lastUsed := now);
      hide Consistent, Counted;
      if matched { OpenCounted(tables.refs, sockets, h, socket, used); }
      RecountConsistent(tables, h, used);
      tables := tables.(refs := tables.refs[h := used]);
      sockets := sockets[socket := h];
      return true;
    }

    /** libcurl closes a socket and passes back the handle it was given for it, if any; an unknown handle is
        ignored. */
    method CloseSocket(socket: nat, handle: Option<nat>, now: int)
      requires Valid()
      modifies this`tables, this`sockets, this`matched
      ensures Valid() && sockets == old(sockets) - {socket}
      ensures matched == (old(matched) && Matching(old(tables).refs, old(sockets), socket, handle))
      ensures handle.None? || handle.value !in old(tables).refs ==> tables == old(tables)
      ensures forall h | h in old(tables).refs && Some(h) != handle :: h in tables.refs && tables.refs[h] == old(tables).refs[h]
      ensures forall h | h in old(tables).refs && Some(h) == handle ::
                var r := old(tables).refs[h];
                && (h !in tables.refs <==> r.count <= 1 && now > r.lastUsed + LIFETIME)
                && (h in tables.refs ==> tables.refs[h] == r.(count := r.count - 1))
    {
      hide Consistent, Counted;
      ghost var before := sockets;
      matched := matched && Matching(tables.refs, sockets, socket, handle);
      sockets := sockets - {socket};
      if handle.None? || handle.value !in tables.refs {
        if matched {
          if socket in before { KnownSocket(tables.refs, before, socket); }
          StrayCounted(tables.refs, before, socket);
        }
        return;
      }
      var h := handle.value;
      var r := tables.refs[h].(count := tables.refs[h].count - 1);
      if matched { CloseCounted(tables.refs, before, socket, r); }
      RecountConsistent(tables, h, r);
      tables := tables.(refs := tables.refs[h := r]);
      if r.count <= 0 && IsExpired(r, now) {
        EvictConsistent(tables, h);
        if matched { EvictCounted(tables.refs, sockets, h); }
        tables := Evict(tables, h);
      }
    }

    /** Forget the entries that are unused for long; none of them has an open socket. */
    method CleanupDnsCache(now: int)
      requires Valid()
      modifies this`tables
      ensures Valid()
      ensures forall h :: h in tables.refs <==> h in old(tables).refs && !Evictable(old(tables).refs[h], now)
      ensures forall h | h in tables.refs :: tables.refs[h] == old(tables).refs[h]
    {
      hide Consistent, Counted;
      ghost var before := tables.refs;
      var rest := tables.refs.Keys;
      while rest != {}
        invariant Valid() && rest <= tables.refs.Keys <= before.Keys
        invariant forall h | h in before :: h in tables.refs <==> h in rest || !Evictable(before[h], now)
        invariant forall h | h in tables.refs :: tables.refs[h] == before[h]
      {
        var h :| h in rest;
        if Evictable(tables.refs[h], now) {
          EvictConsistent(tables, h);
          if matched { EvictCounted(tables.refs, sockets, h); }
          tables := Evict(tables, h);
        }
        rest := rest - {h};
      }
    }
  }
}
