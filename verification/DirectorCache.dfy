/** The cache object around the trie.  A ghost list of the Puts it has seen and not swept says what its
    lookups must answer. */
module DirectorCache {
  import opened PathTrie

  class Cache {
    var root: Entry
    ghost var log: Flat

    ghost predicate Valid()
      reads this
    {
      Refines(root, log)
    }

    constructor (now: int)
      ensures Valid() && log == Flat([], now)
    {
      root := Fresh(now);
      log := Flat([], now);
      FreshRefines(now);
    }

    method Put(path: string, url: string, now: int)
      requires Valid()
      modifies this
      ensures Valid() && log == Recorded(old(log), path, url, now)
      ensures old(Ordered(log.puts, log.touched)) && now >= old(log).touched ==> Ordered(log.puts, log.touched)
    {
      PutRefines(root, log, path, url, now);
      if Ordered(log.puts, log.touched) && now >= log.touched { RecordedOrdered(log, path, url, now); }
      root := PathTrie.Put(root, path, url, now);
      log := Recorded(log, path, url, now);
    }

    /** With times that never went back the answer is that of the longest live prefix. */
    method Get(path: string, now: int) returns (url: string)
      requires Valid()
      ensures Followed(log, path, now, url)
      ensures Ordered(log.puts, log.touched) ==> Correct(log, path, now, url)
    {
      GetFollows(root, log, path, now);
      if Ordered(log.puts, log.touched) { GetCorrect(root, log, path, now); }
      url := PathTrie.Get(root, path, now);
    }

    method Expire(now: int)
      requires Valid()
      modifies this
      ensures Valid() && log == Forget(old(log), now)
      ensures old(Ordered(log.puts, log.touched)) ==> Ordered(log.puts, log.touched)
    {
      ExpireRefines(root, log, now);
      if Ordered(log.puts, log.touched) { FilterOrdered(log.puts, log.touched, log, now); }
      root := PathTrie.Expire(root, now);
      log := Forget(log, now);
    }
  }
}
