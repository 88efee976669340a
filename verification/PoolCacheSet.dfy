/** Which of a thread's few caches serves a pool, and which pools the thread releases to
  * without one.
  *
  * Cache 0 is the primary one, the others, if any, are the overflow caches; `direct` remembers pools
  * that this thread releases to but does not acquire from, for pools whose remote releases go
  * straight to the block.
  */
module PoolCacheSet {
  import opened Options
  import opened PoolCache

  class CacheSet {
    const owners: array<Option<nat>>       // the pool of each cache
    const direct: array<Option<nat>>
    var active: nat                        // the overflow cache used last
    var nextVictim: nat
    var nextDirect: nat

    ghost predicate Valid()
      reads this, owners, direct
    {
      && owners != direct && owners.Length >= 1 && direct.Length >= 1 && nextDirect < direct.Length
      && (owners.Length > 1 ==> 1 <= active < owners.Length && 1 <= nextVictim < owners.Length)
      && OnePerPool() && Apart()
    }

    // At most one cache belongs to a pool.
    ghost predicate OnePerPool()
      reads this, owners
    {
      forall i: nat, j: nat | i < j < owners.Length && owners[i] != None :: owners[i] != owners[j]
    }

    // No pool in the direct set has a cache.
    ghost predicate Apart()
      reads this, owners, direct
    {
      forall i: nat, j: nat | i < owners.Length && j < direct.Length && owners[i] != None :: owners[i] != direct[j]
    }

    ghost predicate Has(pool: nat)
      reads this, owners
    {
      Some(pool) in owners[..]
    }

    constructor (caches: nat, directSize: nat)
      requires caches >= 1 && directSize >= 1
      ensures Valid() && fresh(owners) && fresh(direct)
      ensures forall pool :: !Has(pool)
    {
      owners := new Option<nat>[caches](_ => None);
      direct := new Option<nat>[directSize](_ => None);
      active, nextVictim, nextDirect := 1, 1, 0;
    }

    // ---- The direct set ----

    method DirectContains(pool: nat) returns (r: bool)
      ensures r <==> Some(pool) in direct[..]
    {
      for i := 0 to direct.Length
        invariant Some(pool) !in direct[..i]
      {
        if direct[i] == Some(pool) {
          return true;
        }
      }
      return false;
    }

    method DirectErase(pool: nat)
      modifies direct
      ensures Some(pool) !in direct[..]
      ensures forall i: nat | i < direct.Length :: direct[i] == if old(direct[i]) == Some(pool) then None else old(direct[i])
    {
      for i := 0 to direct.Length
        invariant forall j: nat | j < i :: direct[j] == if old(direct[j]) == Some(pool) then None else old(direct[j])
        invariant forall j: nat | i <= j < direct.Length :: direct[j] == old(direct[j])
      {
        if direct[i] == Some(pool) {
          direct[i] := None;
        }
      }
    }

    /** Takes a free entry, or else the next victim's; entry `at` is the only one that may change, and
      * a pool loses its entry only if none was free.
      */
    method DirectInsert(pool: nat) returns (ghost at: nat)
      requires Valid() && !Has(pool)
      modifies direct, `nextDirect
      ensures Valid() && at < direct.Length && Some(pool) in direct[..]
      ensures direct[..] == old(direct[..]) || direct[..] == old(direct[..])[at := Some(pool)]
      ensures direct[..] != old(direct[..]) && old(direct[at]) != None ==> None !in old(direct[..])
    {
      at := nextDirect;
      var present := DirectContains(pool);
      if present {
        return;
      }
      var entry := FreeEntry();
      at := entry;
      direct[entry] := Some(pool);
      nextDirect := if entry + 1 == direct.Length then 0 else entry + 1;
      assert direct[..][at] == Some(pool);
    }

    method FreeEntry() returns (at: nat)
      requires nextDirect < direct.Length
      ensures at < direct.Length && (direct[at] != None ==> None !in direct[..])
    {
      for i := 0 to direct.Length
        invariant None !in direct[..i]
      {
        if direct[i] == None {
          return i;
        }
      }
      return nextDirect;
    }

    // ---- Choosing a cache ----

    // A search among the overflow caches.
    method FindOverflow(owner: Option<nat>) returns (i: nat)
      requires owners.Length >= 1
      ensures i == 0 <==> owner !in owners[1..]
      ensures i != 0 ==> i < owners.Length && owners[i] == owner
    {
      for k := 1 to owners.Length
        invariant owner !in owners[1..k]
      {
        if owners[k] == owner {
          assert owners[1..][k - 1] == owner;
          return k;
        }
      }
      return 0;
    }

    // The overflow cache after the active one, if it is the pool's.
    method NextHint(pool: nat) returns (i: nat)
      requires Valid() && owners.Length > 1
      modifies `active
      ensures Valid()
      ensures i != 0 ==> i < owners.Length && owners[i] == Some(pool)
    {
      var next := if active + 1 == owners.Length then 1 else active + 1;
      if next != active && owners[next] == Some(pool) {
        active := next;
        return next;
      }
      return 0;
    }

    // Hands cache i, which was emptied first, to the pool.
    method Assign(i: nat, pool: nat)
      requires Valid() && i < owners.Length && !Has(pool) && Some(pool) !in direct[..]
      modifies owners
      ensures Valid() && owners[..] == old(owners[..])[i := Some(pool)]
    {
      assert forall j: nat | j < owners.Length :: owners[..][j] == owners[j];
      assert forall j: nat | j < direct.Length :: direct[..][j] == direct[j];
      owners[i] := Some(pool);
    }

    /** The pool's cache: its own if it has one, and otherwise one whose former owner, if any,
      * loses it. Only when every cache has an owner is one taken away.
      */
    method Get(pool: nat) returns (i: nat)
      requires Valid()
      modifies this, owners, direct
      ensures Valid() && i < owners.Length && owners[i] == Some(pool)
      ensures old(Has(pool)) ==> owners[..] == old(owners[..])
      ensures !old(Has(pool)) ==> owners[..] == old(owners[..])[i := Some(pool)]
      ensures !old(Has(pool)) && old(owners[i]) != None ==> None !in old(owners[..])
    {
      if owners[0] == Some(pool) {
        assert owners[..][0] == Some(pool);
        return 0;
      }
      if owners.Length == 1 {
        i := GetOnly(pool);
        return;
      }
      if owners[active] == Some(pool) {
        assert owners[..][active] == Some(pool);
        return active;
      }
      i := NextHint(pool);
      if i != 0 {
        assert owners[..][i] == Some(pool);
        return;
      }
      i := GetSlow(pool);
    }

    // With one cache only, it goes from pool to pool.
    method GetOnly(pool: nat) returns (i: nat)
      requires Valid() && owners.Length == 1 && owners[0] != Some(pool)
      modifies owners, direct
      ensures Valid() && i == 0 && !old(Has(pool)) && owners[..] == old(owners[..])[0 := Some(pool)]
      ensures old(owners[0]) != None ==> None !in old(owners[..])
    {
      DirectErase(pool);
      assert owners[..] == [owners[0]];
      Assign(0, pool);
      return 0;
    }

    method GetSlow(pool: nat) returns (i: nat)
      requires Valid() && owners.Length > 1 && owners[0] != Some(pool)
      modifies this, owners, direct
      ensures Valid() && i < owners.Length && owners[i] == Some(pool)
      ensures old(Has(pool)) ==> owners[..] == old(owners[..])
      ensures !old(Has(pool)) ==> owners[..] == old(owners[..])[i := Some(pool)]
      ensures !old(Has(pool)) && old(owners[i]) != None ==> None !in old(owners[..])
    {
      DirectErase(pool);
      assert owners[..] == [owners[0]] + owners[1..];
      i := FindOverflow(Some(pool));
      if i != 0 {
        active := i;
        return;
      }
      if owners[0] == None {
        Assign(0, pool);
        return 0;
      }
      i := FindOverflow(None);
      if i == 0 {
        i := nextVictim;
        nextVictim := if nextVictim + 1 == owners.Length then 1 else nextVictim + 1;
      }
      Assign(i, pool);
      active := i;
    }

    /** The cache to release into: the pool's cache exactly when it has one. Without one, the
      * pool is remembered for direct release.
      */
    method FindReleaseCache(pool: nat) returns (i: Option<nat>)
      requires Valid()
      modifies this, direct
      ensures Valid()
      ensures i.Some? <==> Has(pool)
      ensures i.Some? ==> i.value < owners.Length && owners[i.value] == Some(pool)
      ensures i == None ==> Some(pool) in direct[..]
    {
      if owners[0] == Some(pool) {
        assert owners[..][0] == Some(pool);
        return Some(0);
      }
      if owners.Length > 1 && owners[active] == Some(pool) {
        assert owners[..][active] == Some(pool);
        return Some(active);
      }
      var skip := DirectContains(pool);
      if skip {
        return None;
      }
      var k := 0;
      if owners.Length > 1 {
        k := NextHint(pool);
      }
      if k == 0 {
        assert owners[..] == [owners[0]] + owners[1..];
        k := FindOverflow(Some(pool));
        if k == 0 {
          var _ := DirectInsert(pool);
          return None;
        }
        active := k;
      }
      assert owners[..][k] == Some(pool);
      return Some(k);
    }

    // A pool that goes away takes its cache and its entry with it.
    method Discard(pool: nat)
      requires Valid()
      modifies owners, direct
      ensures Valid() && !Has(pool) && Some(pool) !in direct[..]
      ensures forall i: nat | i < owners.Length :: owners[i] == if old(owners[i]) == Some(pool) then None else old(owners[i])
    {
      for i := 0 to owners.Length
        invariant forall j: nat | j < i :: owners[j] == if old(owners[j]) == Some(pool) then None else old(owners[j])
        invariant forall j: nat | i <= j < owners.Length :: owners[j] == old(owners[j])
        invariant direct[..] == old(direct[..])
      {
        if owners[i] == Some(pool) {
          owners[i] := None;
        }
      }
      DirectErase(pool);
    }
  }
}
