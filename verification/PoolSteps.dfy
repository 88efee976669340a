/** The cache code and the whole-pool machine: whatever the operations of a thread's cache do, by
  * their contracts, is a sequence of steps of that machine.
  */
module PoolSteps {
  import opened Options
  import opened PoolCache
  import opened PoolConservation

  ghost predicate Steps(run: seq<State>) {
    |run| > 0 && forall i: nat | i + 1 < |run| :: NextAt(run, i)
  }

  // The run leads from s to a state that differs in the content of cache k and in what is in use.
  ghost predicate Leads(run: seq<State>, s: State, k: nat, slots: seq<Slot>, inUse: set<Slot>) {
    && Steps(run) && run[0] == s && k in s.caches
    && var s' := run[|run| - 1];
       && Inv(s') && s'.caches == s.caches[k := s.caches[k].(slots := slots)] && s'.inUse == inUse
       && s'.poolOf == s.poolOf && s'.capacity == s.capacity
  }

  /** The pushes of a cache flush are steps of the machine, one after the other, and leave the
    * cache with what it did not give back.
    */
  lemma {:induction false} FlushTakesSteps(s: State, k: nat, pushes: seq<Push>, kept: seq<Slot>, given: seq<Slot>)
    returns (run: seq<State>)
    requires Inv(s) && k in s.caches && Returns(pushes, given) && s.caches[k].slots == kept + given
    ensures Leads(run, s, k, kept, s.inUse)
    decreases |pushes|
  {
    if pushes == [] {
      run := [s];
      assert kept + given == kept;
      assert s.caches[k].(slots := kept) == s.caches[k];
    } else {
      var n := |pushes| - 1;
      var p := pushes[n];
      var first := Unloaded(pushes[..n]);
      LastPush(pushes, kept, given);
      run := FlushTakesSteps(s, k, pushes[..n], kept + p.slots, first);
      OnePush(run[|run| - 1], k, p, kept);
      run := Extended(run, AfterPush(run[|run| - 1], k, p, kept));
    }
  }

  lemma LastPush(pushes: seq<Push>, kept: seq<Slot>, given: seq<Slot>)
    requires Returns(pushes, given) && pushes != []
    ensures var n := |pushes| - 1;
            var first := Unloaded(pushes[..n]);
            OneBlock(pushes[n]) && Returns(pushes[..n], first) && kept + given == kept + pushes[n].slots + first
  {
  }

  lemma OnePush(s: State, k: nat, p: Push, kept: seq<Slot>)
    requires Inv(s) && k in s.caches && OneBlock(p) && s.caches[k].slots == kept + p.slots
    ensures Next(s, AfterPush(s, k, p, kept)) && Inv(AfterPush(s, k, p, kept))
  {
    var s' := AfterPush(s, k, p, kept);
    assert s.caches[k].slots[|kept|..] == p.slots && s.caches[k].slots[..|kept|] == kept;
    assert CacheOk(s, k) && p.slots[0] in s.caches[k].slots;
    assert Flush(s, s', k, p);
    FlushKeeps(s, s', k, p);
  }

  ghost function AfterPush(s: State, k: nat, p: Push, kept: seq<Slot>): State
    requires k in s.caches
  {
    s.(free := s.free[p.block := p.slots + if p.block in s.free then s.free[p.block] else []],
       caches := s.caches[k := s.caches[k].(slots := kept)],
       place := PlaceAll(s.place, p.slots, InFreeList))
  }

  lemma Extended(run: seq<State>, s: State) returns (longer: seq<State>)
    requires Steps(run) && Next(run[|run| - 1], s)
    ensures longer == run + [s] && Steps(longer)
  {
    longer := run + [s];
    forall i: nat | i + 1 < |longer|
      ensures NextAt(longer, i)
    {
      if i + 1 < |run| {
        assert NextAt(run, i);
      }
    }
  }

  // ---- Acquiring ----

  lemma OneStep(s: State, s': State) returns (run: seq<State>)
    requires Next(s, s')
    ensures Steps(run) && run == [s, s']
  {
    run := Extended([s], s');
  }

  /** A pop of the cache takes its slot into use. */
  lemma PopTakesStep(s: State, k: nat, after: seq<Slot>, x: Slot) returns (run: seq<State>)
    requires Inv(s) && k in s.caches && Popped(s.caches[k].slots, after, Some(x))
    ensures Leads(run, s, k, after, s.inUse + {x})
  {
    var s' := s.(caches := s.caches[k := s.caches[k].(slots := after)], inUse := s.inUse + {x},
                 place := s.place[x := InUse]);
    assert s.caches[k].slots[..|after|] == after;
    assert Take(s, s', k);
    TakeKeeps(s, s', k);
    run := OneStep(s, s');
  }

  /** A refill takes as many slots off a free list of the cache's pool as fit. */
  lemma RefillTakesStep(s: State, k: nat, b: nat, after: seq<Slot>, n: nat) returns (run: seq<State>)
    requires Inv(s) && k in s.caches && b in s.free && b in s.poolOf && s.caches[k].owner == Some(s.poolOf[b])
    requires Refilled(s.capacity, s.caches[k].slots, after, s.free[b], n)
    ensures Leads(run, s, k, after, s.inUse)
  {
    var s' := s.(free := s.free[b := s.free[b][n..]], caches := s.caches[k := s.caches[k].(slots := after)],
                 place := PlaceAll(s.place, s.free[b][..n], InCache(k)));
    assert Refill(s, s', k, b, n);
    RefillKeeps(s, s', k, b, n);
    run := OneStep(s, s');
  }

  // ---- Releasing ----

  // The slot is in use and belongs to the pool of cache k.
  ghost predicate MayKeep(s: State, k: nat, x: Slot) {
    k in s.caches && x in s.inUse && x.block in s.poolOf && s.caches[k].owner == Some(s.poolOf[x.block])
  }

  lemma KeepTakesStep(s: State, k: nat, x: Slot) returns (run: seq<State>)
    requires Inv(s) && MayKeep(s, k, x) && |s.caches[k].slots| < s.capacity
    ensures Leads(run, s, k, s.caches[k].slots + [x], s.inUse - {x})
  {
    var s' := s.(caches := s.caches[k := s.caches[k].(slots := s.caches[k].slots + [x])],
                 inUse := s.inUse - {x}, place := s.place[x := InCache(k)]);
    assert Keep(s, s', k, x);
    KeepKeeps(s, s', k, x);
    run := OneStep(s, s');
  }

  lemma JoinSteps(a: seq<State>, b: seq<State>) returns (run: seq<State>)
    requires Steps(a) && Steps(b) && a[|a| - 1] == b[0]
    ensures Steps(run) && run[0] == a[0] && run[|run| - 1] == b[|b| - 1]
  {
    run := a + b[1..];
    forall i: nat | i + 1 < |run|
      ensures NextAt(run, i)
    {
      if i + 1 < |a| {
        assert NextAt(a, i);
      } else {
        assert NextAt(b, i + 1 - |a|);
      }
    }
  }

  // One operation on cache k after another.
  lemma LeadsOn(a: seq<State>, b: seq<State>, s: State, k: nat, mid: seq<Slot>, use: set<Slot>,
                slots: seq<Slot>, inUse: set<Slot>) returns (run: seq<State>)
    requires Leads(a, s, k, mid, use) && Leads(b, a[|a| - 1], k, slots, inUse)
    ensures Leads(run, s, k, slots, inUse)
  {
    run := JoinSteps(a, b);
    assert s.caches[k].(slots := mid).(slots := slots) == s.caches[k].(slots := slots);
  }

  /** A release by a thread that acquires gives back half of a full cache and then keeps the slot:
    * the cache always has room for it.
    */
  lemma ReleaseLocalTakesSteps(s: State, k: nat, x: Slot, after: seq<Slot>, pushes: seq<Push>)
    returns (run: seq<State>)
    requires Inv(s) && MayKeep(s, k, x) && s.capacity >= 2
    requires KeptLocal(s.capacity, s.caches[k].slots, after, x, pushes)
    ensures Leads(run, s, k, after, s.inUse - {x})
  {
    var before := s.caches[k].slots;
    var n := if |before| == s.capacity then s.capacity / 2 else 0;
    var kept := before[..|before| - n];
    assert before == kept + before[|before| - n..];
    assert CacheOk(s, k);
    var a := FlushTakesSteps(s, k, pushes, kept, before[|before| - n..]);
    var b := KeepTakesStep(a[|a| - 1], k, x);
    run := LeadsOn(a, b, s, k, kept, s.inUse, after, s.inUse - {x});
  }

  /** A release by a thread that only releases keeps the slot, and gives back a complete batch. */
  lemma ReleaseRemoteTakesSteps(s: State, k: nat, x: Slot, batch: nat, after: seq<Slot>, pushes: seq<Push>)
    returns (run: seq<State>)
    requires Inv(s) && MayKeep(s, k, x) && |s.caches[k].slots| < batch <= s.capacity
    requires KeptRemote(batch, s.caches[k].slots, after, x, pushes)
    ensures Leads(run, s, k, after, s.inUse - {x})
  {
    var full := s.caches[k].slots + [x];
    run := KeepTakesStep(s, k, x);
    if |full| == batch {
      assert full == [] + full;
      var b := FlushTakesSteps(run[|run| - 1], k, pushes, [], full);
      run := LeadsOn(run, b, s, k, full, s.inUse - {x}, [], s.inUse - {x});
    }
  }

  /** A cache that is given to another pool is emptied first. */
  lemma EvictionTakesSteps(s: State, k: nat, pushes: seq<Push>, pool: nat) returns (run: seq<State>)
    requires Inv(s) && k in s.caches && Returns(pushes, s.caches[k].slots)
    ensures Steps(run) && run[0] == s
    ensures var s' := run[|run| - 1];
            Inv(s') && s'.caches == s.caches[k := Cache(Some(pool), [])] && s'.inUse == s.inUse
  {
    assert s.caches[k].slots == [] + s.caches[k].slots;
    run := FlushTakesSteps(s, k, pushes, [], s.caches[k].slots);
    var last := run[|run| - 1];
    var s' := last.(caches := last.caches[k := Cache(Some(pool), [])]);
    assert Reassign(last, s', k, Some(pool));
    ReassignKeeps(last, s', k, Some(pool));
    run := Extended(run, s');
  }
}
