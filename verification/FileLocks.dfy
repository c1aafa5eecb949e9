/** The table of per-path write locks: weak entries that die with their last writer and are swept. */
module FileLocks {
  const SWEEP_AT := 4096

  /** The allocation behind an `Arc`; `strong` counts the handles in writers' hands. */
  class Lock {
    var strong: nat

    constructor ()
      ensures strong == 1
    {
      strong := 1;
    }
  }

  class LockTable {
    var entries: map<string, Lock>

    constructor ()
      ensures entries == map[] && Valid()
    {
      entries := map[];
    }

    ghost predicate Valid()
      reads this
    {
      forall p, q :: p in entries && q in entries && entries[p] == entries[q] ==> p == q
    }

    /** The entries a writer could still upgrade. */
    ghost function Live(): map<string, Lock>
      reads this, entries.Values
    {
      map p | p in entries && entries[p].strong > 0 :: entries[p]
    }

    /** Hand out the path's lock. Whether the table was swept cannot be seen from outside. */
    method FileWriteLock(path: string) returns (lock: Lock)
      requires Valid()
      modifies this, if path in entries then {entries[path]} else {}
      ensures Valid() && path in entries && entries[path] == lock
      ensures path in old(Live()) ==> lock == old(entries[path]) && lock.strong == old(lock.strong) + 1
      ensures path !in old(Live()) ==> fresh(lock) && lock.strong == 1
      ensures Live() == old(Live())[path := lock]
      ensures path in old(Live()) ==> entries == old(entries)
      ensures path !in old(Live()) ==> |entries| <= SWEEP_AT || |entries| <= |old(Live())| + 1
    {
      if path in entries && entries[path].strong > 0 {
        assert path in Live();
        lock := entries[path];
        lock.strong := lock.strong + 1;
        assert Live() == old(Live());
        return;
      }
      if |entries| >= SWEEP_AT {
        Sweep();
      }
      lock := Enter(path);
    }

    /** A new lock takes the place of the path's dead entry, if there is one. */
    method Enter(path: string) returns (lock: Lock)
      requires Valid() && path !in Live()
      modifies this
      ensures Valid() && entries == old(entries)[path := lock]
      ensures fresh(lock) && lock.strong == 1
      ensures Live() == old(Live())[path := lock]
      ensures |entries| <= |old(entries)| + 1
    {
      lock := new Lock();
      GrowsByOne(entries, path, lock);
      entries := entries[path := lock];
      assert Live() == old(Live())[path := lock];
    }

    method Sweep()
      requires Valid()
      modifies this
      ensures Valid() && entries == old(Live()) && Live() == old(Live())
    {
      entries := map p | p in entries && entries[p].strong > 0 :: entries[p];
    }

    /** A writer gives up its handle; with the last one the entry is dead. */
    method Release(path: string, lock: Lock)
      requires Valid() && lock.strong > 0
      requires path in entries && entries[path] == lock
      modifies lock
      ensures Valid() && lock.strong == old(lock.strong) - 1
      ensures Live() == if old(lock.strong) == 1 then old(Live()) - {path} else old(Live())
    {
      lock.strong := lock.strong - 1;
    }
  }

  lemma GrowsByOne(m: map<string, Lock>, path: string, lock: Lock)
    ensures |m[path := lock]| <= |m| + 1
  {
    assert m[path := lock].Keys == m.Keys + {path};
  }
}
