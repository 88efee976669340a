/** The object pool as a whole: blocks with free lists, any number of threads with caches, and
  * the slots in use. One step is one free-list operation or one move inside a thread.
  */
module PoolConservation {
  import opened Options
  import opened PoolCache

  datatype Cache = Cache(owner: Option<nat>, slots: seq<Slot>)
  datatype Place = InFreeList | InCache(cache: nat) | InUse

  // `poolOf` says which pool a block belongs to, `place` is history: where each slot went last.
  datatype State = State(capacity: nat, poolOf: map<nat, nat>, free: map<nat, seq<Slot>>,
                         caches: map<nat, Cache>, inUse: set<Slot>, place: map<Slot, Place>)

  ghost predicate Init(s: State) {
    && s.poolOf == map[] && s.free == map[] && s.inUse == {} && s.place == map[]
    && (forall k | k in s.caches :: s.caches[k] == Cache(None, []))
  }

  function PlaceAll(place: map<Slot, Place>, xs: seq<Slot>, p: Place): (r: map<Slot, Place>)
    ensures forall x :: x in r <==> x in place || x in xs
    ensures forall x | x in r :: r[x] == if x in xs then p else place[x]
  {
    map x | x in place.Keys + (set y | y in xs) :: if x in xs then p else place[x]
  }

  // ---- Steps ----

  // add_block: a block of new slots, all free.
  ghost predicate AddBlock(s: State, s': State, b: nat, pool: nat, xs: seq<Slot>) {
    && b !in s.free && b !in s.poolOf && Distinct(xs)
    && (forall i: nat | i < |xs| :: xs[i].block == b && xs[i] !in s.place)
    && s' == s.(poolOf := s.poolOf[b := pool], free := s.free[b := xs], place := PlaceAll(s.place, xs, InFreeList))
  }

  // refill_cache_from_block: a cache of the block's pool takes n slots off the free list.
  ghost predicate Refill(s: State, s': State, k: nat, b: nat, n: nat) {
    && k in s.caches && b in s.free && b in s.poolOf && s.caches[k].owner == Some(s.poolOf[b])
    && n <= |s.free[b]| && |s.caches[k].slots| + n <= s.capacity
    && s' == s.(free := s.free[b := s.free[b][n..]],
                caches := s.caches[k := s.caches[k].(slots := s.caches[k].slots + s.free[b][..n])],
                place := PlaceAll(s.place, s.free[b][..n], InCache(k)))
  }

  // acquire from the cache, or straight from a free list.
  ghost predicate Take(s: State, s': State, k: nat) {
    && k in s.caches && s.caches[k].slots != []
    && var n := |s.caches[k].slots| - 1;
       var x := s.caches[k].slots[n];
       s' == s.(caches := s.caches[k := s.caches[k].(slots := s.caches[k].slots[..n])],
                inUse := s.inUse + {x}, place := s.place[x := InUse])
  }

  ghost predicate TakeDirect(s: State, s': State, b: nat) {
    && b in s.free && s.free[b] != []
    && var x := s.free[b][0];
       s' == s.(free := s.free[b := s.free[b][1..]], inUse := s.inUse + {x}, place := s.place[x := InUse])
  }

  // release into a cache of the slot's pool that has room, or straight to the slot's block.
  ghost predicate Keep(s: State, s': State, k: nat, x: Slot) {
    && k in s.caches && x in s.inUse && x.block in s.poolOf && s.caches[k].owner == Some(s.poolOf[x.block])
    && |s.caches[k].slots| < s.capacity
    && s' == s.(caches := s.caches[k := s.caches[k].(slots := s.caches[k].slots + [x])],
                inUse := s.inUse - {x}, place := s.place[x := InCache(k)])
  }

  ghost predicate GiveBack(s: State, s': State, x: Slot) {
    && x in s.inUse && x.block in s.free
    && s' == s.(free := s.free[x.block := [x] + s.free[x.block]], inUse := s.inUse - {x}, place := s.place[x := InFreeList])
  }

  // One push_many of a flush: the cache's last slots, all of one block.
  ghost predicate Flush(s: State, s': State, k: nat, p: Push) {
    && k in s.caches && OneBlock(p) && p.block in s.free
    && |p.slots| <= |s.caches[k].slots|
    && var n := |s.caches[k].slots| - |p.slots|;
       && s.caches[k].slots[n..] == p.slots
       && s' == s.(free := s.free[p.block := p.slots + s.free[p.block]],
                   caches := s.caches[k := s.caches[k].(slots := s.caches[k].slots[..n])],
                   place := PlaceAll(s.place, p.slots, InFreeList))
  }

  // reset_for: an emptied cache goes to another pool.
  ghost predicate Reassign(s: State, s': State, k: nat, owner: Option<nat>) {
    && k in s.caches && s.caches[k].slots == []
    && s' == s.(caches := s.caches[k := Cache(owner, [])])
  }

  ghost predicate Next(s: State, s': State) {
    || (exists b: nat, pool: nat, xs: seq<Slot> :: AddBlock(s, s', b, pool, xs))
    || (exists k: nat, b: nat, n: nat :: Refill(s, s', k, b, n))
    || (exists k: nat :: Take(s, s', k))
    || (exists b: nat :: TakeDirect(s, s', b))
    || (exists k: nat, x: Slot :: Keep(s, s', k, x))
    || (exists x: Slot :: GiveBack(s, s', x))
    || (exists k: nat, p: Push :: Flush(s, s', k, p))
    || (exists k: nat, owner: Option<nat> :: Reassign(s, s', k, owner))
  }

  ghost predicate NextAt(run: seq<State>, i: nat)
    requires i + 1 < |run|
  {
    Next(run[i], run[i + 1])
  }

  ghost predicate IsRun(run: seq<State>) {
    && |run| > 0 && Init(run[0])
    && forall i: nat | i + 1 < |run| :: NextAt(run, i)
  }

  // ---- Invariant ----

  ghost predicate Distinct(xs: seq<Slot>) {
    forall i: nat, j: nat | i < j < |xs| :: xs[i] != xs[j]
  }

  // The list holds exactly the slots at this place among those of interest, each once.
  ghost predicate HoldsOnly(xs: seq<Slot>, place: map<Slot, Place>, p: Place) {
    && Distinct(xs)
    && forall x | x in xs :: x in place && place[x] == p
  }

  ghost predicate ListOk(s: State, b: nat)
    requires b in s.free
  {
    && b in s.poolOf && HoldsOnly(s.free[b], s.place, InFreeList)
    && (forall x | x in s.free[b] :: x.block == b)
  }

  ghost predicate FreeOk(s: State) {
    forall b | b in s.free :: ListOk(s, b)
  }

  ghost predicate CacheOk(s: State, k: nat)
    requires k in s.caches
  {
    && |s.caches[k].slots| <= s.capacity && HoldsOnly(s.caches[k].slots, s.place, InCache(k))
    && (forall x | x in s.caches[k].slots :: x.block in s.poolOf && s.caches[k].owner == Some(s.poolOf[x.block]))
  }

  ghost predicate CachesOk(s: State) {
    forall k | k in s.caches :: CacheOk(s, k)
  }

  ghost predicate PlacesOk(s: State) {
    && s.inUse <= s.place.Keys
    && (forall x | x in s.place :: x.block in s.free
          && match s.place[x]
             case InFreeList => x in s.free[x.block] && x !in s.inUse
             case InCache(k) => k in s.caches && x in s.caches[k].slots && x !in s.inUse
             case InUse => x in s.inUse)
  }

  ghost predicate Inv(s: State) {
    FreeOk(s) && CachesOk(s) && PlacesOk(s)
  }

  // Only the slots of xs were moved.
  ghost predicate Moved(s: State, s': State, xs: seq<Slot>) {
    && s'.capacity == s.capacity && s'.poolOf == s.poolOf && s'.place.Keys == s.place.Keys
    && forall x | x in s.place && x !in xs :: s'.place[x] == s.place[x]
  }

  // Free lists other than b's do not notice.
  lemma OtherLists(s: State, s': State, xs: seq<Slot>, b: nat)
    requires FreeOk(s) && Moved(s, s', xs) && b in s'.free && ListOk(s', b)
    requires s'.free == s.free[b := s'.free[b]]
    requires forall x | x in xs :: x.block == b || x !in s.place || s.place[x] != InFreeList
    ensures FreeOk(s')
  {
    forall c | c in s'.free
      ensures ListOk(s', c)
    {
      if c != b {
        assert ListOk(s, c);
      }
    }
  }

  // Caches other than k do not notice.
  lemma OtherCaches(s: State, s': State, xs: seq<Slot>, k: nat)
    requires CachesOk(s) && Moved(s, s', xs) && k in s'.caches && CacheOk(s', k)
    requires s'.caches == s.caches[k := s'.caches[k]]
    requires forall x | x in xs && x in s.place && s.place[x].InCache? :: s.place[x] == InCache(k)
    ensures CachesOk(s')
  {
    forall c | c in s'.caches
      ensures CacheOk(s', c)
    {
      if c != k {
        assert CacheOk(s, c);
      }
    }
  }

  lemma SameLists(s: State, s': State, xs: seq<Slot>)
    requires FreeOk(s) && Moved(s, s', xs) && s'.free == s.free
    requires forall x | x in xs && x in s.place :: s.place[x] != InFreeList
    ensures FreeOk(s')
  {
    forall b | b in s'.free
      ensures ListOk(s', b)
    {
      assert ListOk(s, b);
    }
  }

  lemma SameCaches(s: State, s': State, xs: seq<Slot>)
    requires CachesOk(s) && Moved(s, s', xs) && s'.caches == s.caches
    requires forall x | x in xs && x in s.place :: !s.place[x].InCache?
    ensures CachesOk(s')
  {
    forall k | k in s'.caches
      ensures CacheOk(s', k)
    {
      assert CacheOk(s, k);
    }
  }

  lemma SplitDistinct(xs: seq<Slot>, n: nat)
    requires Distinct(xs) && n <= |xs|
    ensures Distinct(xs[..n]) && Distinct(xs[n..])
    ensures forall x | x in xs :: x in xs[..n] <==> x !in xs[n..]
  {
  }

  lemma JoinDistinct(xs: seq<Slot>, ys: seq<Slot>)
    requires Distinct(xs) && Distinct(ys) && (forall x | x in xs :: x !in ys)
    ensures Distinct(xs + ys)
  {
    forall i: nat, j: nat | i < j < |xs + ys|
      ensures (xs + ys)[i] != (xs + ys)[j]
    {
      if i < |xs| <= j {
        assert xs[i] in xs && ys[j - |xs|] in ys;
      }
    }
  }

  lemma AddBlockKeeps(s: State, s': State, b: nat, pool: nat, xs: seq<Slot>)
    requires Inv(s) && AddBlock(s, s', b, pool, xs)
    ensures Inv(s')
  {
    forall c | c in s'.free
      ensures ListOk(s', c)
    {
      assert c != b ==> ListOk(s, c);
    }
    forall k | k in s'.caches
      ensures CacheOk(s', k)
    {
      assert CacheOk(s, k);
    }
  }

  lemma RefillLists(s: State, s': State, k: nat, b: nat, n: nat)
    requires FreeOk(s) && CachesOk(s) && Refill(s, s', k, b, n)
    ensures ListOk(s', b) && CacheOk(s', k) && Moved(s, s', s.free[b][..n])
  {
    assert ListOk(s, b) && CacheOk(s, k);
    SplitDistinct(s.free[b], n);
    JoinDistinct(s.caches[k].slots, s.free[b][..n]);
  }

  lemma RefillKeeps(s: State, s': State, k: nat, b: nat, n: nat)
    requires Inv(s) && Refill(s, s', k, b, n)
    ensures Inv(s')
  {
    RefillLists(s, s', k, b, n);
    assert ListOk(s, b);
    OtherLists(s, s', s.free[b][..n], b);
    OtherCaches(s, s', s.free[b][..n], k);
    SplitDistinct(s.free[b], n);
  }

  lemma TakeLists(s: State, s': State, k: nat)
    requires CachesOk(s) && Take(s, s', k)
    ensures var xs := s.caches[k].slots; var x := xs[|xs| - 1];
            x in s.place && s.place[x] == InCache(k) && CacheOk(s', k) && Moved(s, s', [x]) && x !in s'.caches[k].slots
  {
    assert CacheOk(s, k);
    SplitDistinct(s.caches[k].slots, |s.caches[k].slots| - 1);
  }

  lemma TakeKeeps(s: State, s': State, k: nat)
    requires Inv(s) && Take(s, s', k)
    ensures Inv(s')
  {
    var xs := s.caches[k].slots;
    TakeLists(s, s', k);
    OtherCaches(s, s', [xs[|xs| - 1]], k);
    SameLists(s, s', [xs[|xs| - 1]]);
  }

  lemma TakeDirectLists(s: State, s': State, b: nat)
    requires FreeOk(s) && TakeDirect(s, s', b)
    ensures var x := s.free[b][0];
            x in s.place && x.block == b && s.place[x] == InFreeList && ListOk(s', b) && Moved(s, s', [x]) && x !in s'.free[b]
  {
    assert ListOk(s, b);
    SplitDistinct(s.free[b], 1);
  }

  lemma TakeDirectKeeps(s: State, s': State, b: nat)
    requires Inv(s) && TakeDirect(s, s', b)
    ensures Inv(s')
  {
    TakeDirectLists(s, s', b);
    OtherLists(s, s', [s.free[b][0]], b);
    SameCaches(s, s', [s.free[b][0]]);
  }

  lemma KeepKeeps(s: State, s': State, k: nat, x: Slot)
    requires Inv(s) && Keep(s, s', k, x)
    ensures Inv(s')
  {
    assert CacheOk(s, k);
    JoinDistinct(s.caches[k].slots, [x]);
    assert Moved(s, s', [x]) && CacheOk(s', k);
    OtherCaches(s, s', [x], k);
    SameLists(s, s', [x]);
  }

  lemma GiveBackKeeps(s: State, s': State, x: Slot)
    requires Inv(s) && GiveBack(s, s', x)
    ensures Inv(s')
  {
    assert ListOk(s, x.block);
    JoinDistinct([x], s.free[x.block]);
    assert Moved(s, s', [x]) && ListOk(s', x.block);
    OtherLists(s, s', [x], x.block);
    SameCaches(s, s', [x]);
  }

  // What a flush takes from the end of a cache.
  lemma FlushTakes(s: State, s': State, k: nat, p: Push)
    requires k in s.caches && CacheOk(s, k) && Flush(s, s', k, p)
    ensures Distinct(p.slots) && Distinct(s'.caches[k].slots)
    ensures forall x | x in p.slots :: x.block == p.block && x in s.place && s.place[x] == InCache(k)
    ensures forall x | x in s'.caches[k].slots :: x in s.caches[k].slots && x !in p.slots
  {
    SplitDistinct(s.caches[k].slots, |s.caches[k].slots| - |p.slots|);
    assert forall x | x in p.slots :: x in s.caches[k].slots;
  }

  lemma FlushedCache(s: State, s': State, k: nat, p: Push)
    requires k in s.caches && CacheOk(s, k) && Flush(s, s', k, p)
    ensures CacheOk(s', k)
  {
    FlushTakes(s, s', k, p);
  }

  lemma FlushedList(s: State, s': State, k: nat, p: Push)
    requires k in s.caches && p.block in s.free && CacheOk(s, k) && ListOk(s, p.block) && Flush(s, s', k, p)
    ensures ListOk(s', p.block)
  {
    FlushTakes(s, s', k, p);
    JoinDistinct(p.slots, s.free[p.block]);
  }

  lemma FlushLists(s: State, s': State, k: nat, p: Push)
    requires FreeOk(s) && CachesOk(s) && Flush(s, s', k, p)
    ensures ListOk(s', p.block) && CacheOk(s', k) && Moved(s, s', p.slots)
    ensures forall x | x in p.slots :: x.block == p.block && x in s.place && s.place[x] == InCache(k)
  {
    assert ListOk(s, p.block) && CacheOk(s, k);
    FlushTakes(s, s', k, p);
    FlushedCache(s, s', k, p);
    FlushedList(s, s', k, p);
  }

  lemma FlushKeeps(s: State, s': State, k: nat, p: Push)
    requires Inv(s) && Flush(s, s', k, p)
    ensures Inv(s')
  {
    FlushLists(s, s', k, p);
    OtherLists(s, s', p.slots, p.block);
    OtherCaches(s, s', p.slots, k);
    FlushPlaces(s, s', k, p);
  }

  lemma FlushPlaces(s: State, s': State, k: nat, p: Push)
    requires Inv(s) && Flush(s, s', k, p)
    ensures PlacesOk(s')
  {
    FlushTakes(s, s', k, p);
    assert s.caches[k].slots == s'.caches[k].slots + p.slots;
  }

  lemma ReassignKeeps(s: State, s': State, k: nat, owner: Option<nat>)
    requires Inv(s) && Reassign(s, s', k, owner)
    ensures Inv(s')
  {
    assert Moved(s, s', []) && CacheOk(s', k);
    OtherCaches(s, s', [], k);
    SameLists(s, s', []);
  }

  lemma StepKeepsInv(s: State, s': State)
    requires Inv(s) && Next(s, s')
    ensures Inv(s')
  {
    if b: nat, pool: nat, xs: seq<Slot> :| AddBlock(s, s', b, pool, xs) {
      AddBlockKeeps(s, s', b, pool, xs);
    } else if k: nat, b: nat, n: nat :| Refill(s, s', k, b, n) {
      RefillKeeps(s, s', k, b, n);
    } else if k: nat :| Take(s, s', k) {
      TakeKeeps(s, s', k);
    } else if b: nat :| TakeDirect(s, s', b) {
      TakeDirectKeeps(s, s', b);
    } else if k: nat, x: Slot :| Keep(s, s', k, x) {
      KeepKeeps(s, s', k, x);
    } else if x: Slot :| GiveBack(s, s', x) {
      GiveBackKeeps(s, s', x);
    } else if k: nat, p: Push :| Flush(s, s', k, p) {
      FlushKeeps(s, s', k, p);
    } else {
      var k: nat, owner: Option<nat> :| Reassign(s, s', k, owner);
      ReassignKeeps(s, s', k, owner);
    }
  }

  lemma {:induction false} RunInv(run: seq<State>, i: nat)
    requires IsRun(run) && i < |run|
    ensures Inv(run[i])
  {
    if i > 0 {
      RunInv(run, i - 1);
      assert NextAt(run, i - 1);
      StepKeepsInv(run[i - 1], run[i]);
    }
  }

  // ---- What the pool promises ----

  /** Every slot ever cut is in exactly one place, once: its own block's free list, one
    * thread's cache, or in use.
    */
  lemma SlotsAreConserved(run: seq<State>, i: nat, x: Slot)
    requires IsRun(run) && i < |run| && x in run[i].place
    ensures var s := run[i];
            match s.place[x]
            case InFreeList =>
              && x.block in s.free && x in s.free[x.block] && x !in s.inUse
              && (forall k | k in s.caches :: x !in s.caches[k].slots)
            case InCache(c) =>
              && c in s.caches && x in s.caches[c].slots && x !in s.inUse
              && (forall k | k in s.caches && k != c :: x !in s.caches[k].slots)
              && (forall b | b in s.free :: x !in s.free[b])
            case InUse =>
              && x in s.inUse && (forall b | b in s.free :: x !in s.free[b])
              && (forall k | k in s.caches :: x !in s.caches[k].slots)
    ensures forall b | b in run[i].free :: Distinct(run[i].free[b]) && (x in run[i].free[b] ==> x.block == b)
    ensures forall k | k in run[i].caches :: Distinct(run[i].caches[k].slots)
  {
    RunInv(run, i);
    var s := run[i];
    assert forall b | b in s.free :: ListOk(s, b);
    assert forall k | k in s.caches :: CacheOk(s, k);
  }

  /** No cache exceeds its capacity, and it holds only slots of the pool it belongs to. */
  lemma CachesStayBounded(run: seq<State>, i: nat, k: nat)
    requires IsRun(run) && i < |run| && k in run[i].caches
    ensures |run[i].caches[k].slots| <= run[i].capacity
    ensures forall x | x in run[i].caches[k].slots ::
              x.block in run[i].poolOf && run[i].caches[k].owner == Some(run[i].poolOf[x.block])
  {
    RunInv(run, i);
    assert CacheOk(run[i], k);
  }
}
