/** The per-thread slot cache of an object pool.
  *
  * A slot knows the block it was cut from. What a cache gives back is recorded as the list of
  * batch pushes it makes onto block free lists; the free lists themselves are in `FreeStack`.
  */
module PoolCache {
  import opened Options

  datatype Slot = Slot(block: nat, index: nat)

  // One push_many call.
  datatype Push = Push(block: nat, slots: seq<Slot>)

  ghost predicate OneBlock(p: Push) {
    p.slots != [] && forall i: nat | i < |p.slots| :: p.slots[i].block == p.block
  }

  // Each push carries slots of its own block; a cache is emptied from its end.
  ghost predicate Returns(pushes: seq<Push>, slots: seq<Slot>) {
    && (forall i: nat | i < |pushes| :: OneBlock(pushes[i]))
    && Unloaded(pushes) == slots
  }

  ghost function Unloaded(pushes: seq<Push>): seq<Slot> {
    if pushes == [] then [] else pushes[|pushes| - 1].slots + Unloaded(pushes[..|pushes| - 1])
  }

  lemma OneMorePush(pushes: seq<Push>, p: Push, slots: seq<Slot>)
    requires Returns(pushes, slots) && OneBlock(p)
    ensures Returns(pushes + [p], p.slots + slots)
  {
    assert (pushes + [p])[..|pushes|] == pushes;
  }

  // No two pushes in a row go to the same block: runs of slots of one block leave together.
  ghost predicate Grouped(pushes: seq<Push>) {
    forall i: nat | 0 < i < |pushes| :: pushes[i].block != pushes[i - 1].block
  }

  // ---- What the operations of a cache do to its content ----

  ghost predicate Popped(before: seq<Slot>, after: seq<Slot>, r: Option<Slot>) {
    match r
    case None => before == [] && after == []
    case Some(x) => before == after + [x]
  }

  ghost predicate Refilled(capacity: nat, before: seq<Slot>, after: seq<Slot>, available: seq<Slot>, n: nat) {
    && |before| <= capacity && n <= |available|
    && n == (if |available| < capacity - |before| then |available| else capacity - |before|)
    && after == before + available[..n]
  }

  // The slot is kept; a full cache first gives back the half that it got last.
  ghost predicate KeptLocal(capacity: nat, before: seq<Slot>, after: seq<Slot>, slot: Slot, pushes: seq<Push>) {
    var n := if |before| == capacity then capacity / 2 else 0;
    n <= |before| && after == before[..|before| - n] + [slot] && Returns(pushes, before[|before| - n..])
  }

  // The slot is kept until the batch is complete, which then goes back whole.
  ghost predicate KeptRemote(batch: nat, before: seq<Slot>, after: seq<Slot>, slot: Slot, pushes: seq<Push>) {
    if |before| + 1 == batch then after == [] && Returns(pushes, before + [slot])
    else after == before + [slot] && pushes == []
  }

  class LocalCache {
    const slots: array<Slot>
    const batch: nat               // remote_release_batch_size
    var size: nat
    var locallyAcquired: bool

    ghost predicate Valid()
      reads this
    {
      && slots.Length >= 2 && 0 < batch <= slots.Length && size <= slots.Length
      && (!locallyAcquired ==> size < batch)
    }

    ghost function Contents(): seq<Slot>
      requires size <= slots.Length
      reads this, slots
    {
      slots[..size]
    }

    constructor (capacity: nat, remoteBatch: nat)
      requires capacity >= 2 && 0 < remoteBatch <= capacity
      ensures Valid() && Contents() == [] && !locallyAcquired && fresh(slots)
      ensures slots.Length == capacity && batch == remoteBatch
    {
      slots := new Slot[capacity](_ => Slot(0, 0));
      batch, size, locallyAcquired := remoteBatch, 0, false;
    }

    // Moves back over slots of the last slot's block, as far as they go: at least one, at most `count`.
    method LastGroup(count: nat) returns (start: nat)
      requires size <= slots.Length && 0 < count && 0 < size
      ensures start < size && size - start <= count
      ensures forall i: nat | start <= i < size :: slots[i].block == slots[size - 1].block
      ensures start == 0 || size - start == count || slots[start - 1].block != slots[size - 1].block
    {
      var block := slots[size - 1].block;
      start := size - 1;
      while size - start < count && start != 0 && slots[start - 1].block == block
        invariant start < size && size - start <= count
        invariant forall i: nat | start <= i < size :: slots[i].block == block
      {
        start := start - 1;
      }
    }

    /** Gives back the last `count` slots, or all, each to the block it came from. */
    method FlushSome(count: nat) returns (pushes: seq<Push>)
      requires size <= slots.Length
      modifies `size
      ensures size == if count <= old(size) then old(size) - count else 0
      ensures Returns(pushes, slots[size..old(size)]) && Grouped(pushes)
    {
      pushes := [];
      var left: nat := count;
      while left != 0 && size != 0
        invariant size <= old(size) <= slots.Length && left + (old(size) - size) == count
        invariant Returns(pushes, slots[size..old(size)]) && Grouped(pushes)
        invariant pushes != [] && left != 0 && size != 0 ==> slots[size - 1].block != pushes[|pushes| - 1].block
      {
        var start := LastGroup(left);
        var p := Push(slots[size - 1].block, slots[start..size]);
        OneMorePush(pushes, p, slots[size..old(size)]);
        assert p.slots + slots[size..old(size)] == slots[start..old(size)];
        pushes := pushes + [p];
        left := left - (size - start);
        size := start;
      }
    }

    /** Gives back everything. */
    method Flush() returns (pushes: seq<Push>)
      requires Valid()
      modifies `size, `locallyAcquired
      ensures Valid() && Contents() == [] && !locallyAcquired
      ensures Returns(pushes, old(Contents()))
    {
      pushes := FlushSome(size);
      locallyAcquired := false;
      assert slots[0..old(size)] == old(Contents());
    }

    /** The most recently cached slot; from then on the cache keeps what its thread releases. */
    method Pop() returns (r: Option<Slot>)
      requires Valid()
      modifies `size, `locallyAcquired
      ensures Valid() && locallyAcquired
      ensures Popped(old(Contents()), Contents(), r)
    {
      locallyAcquired := true;
      if size == 0 {
        return None;
      }
      size := size - 1;
      return Some(slots[size]);
    }

    /** Takes up to as many slots as fit from what a block's free list has at its top. */
    method Refill(available: seq<Slot>) returns (n: nat)
      requires Valid() && locallyAcquired
      modifies `size, slots
      ensures Valid() && Refilled(slots.Length, old(Contents()), Contents(), available, n)
    {
      n := if |available| < slots.Length - size then |available| else slots.Length - size;
      var i := 0;
      while i < n
        invariant 0 <= i <= n && size == old(size) && size + n <= slots.Length
        invariant slots[..size] == old(Contents())
        invariant slots[size..size + i] == available[..i]
      {
        slots[size + i] := available[i];
        i := i + 1;
      }
      size := size + n;
      assert slots[..size] == old(Contents()) + available[..n];
    }

    // Stores one slot at the end.
    method Store(slot: Slot)
      requires size < slots.Length && slots.Length >= 2 && 0 < batch <= slots.Length
      modifies `size, slots
      ensures size == old(size) + 1 && slots[..size] == old(slots[..size]) + [slot]
    {
      slots[size] := slot;
      size := size + 1;
    }

    /** A thread that acquires from the pool keeps what it releases; a full cache first gives
      * back the half that it got last.
      */
    method ReleaseLocal(slot: Slot) returns (pushes: seq<Push>)
      requires Valid() && locallyAcquired
      modifies `size, slots
      ensures Valid() && KeptLocal(slots.Length, old(Contents()), Contents(), slot, pushes)
    {
      pushes := [];
      assert Returns([], []);
      if size == slots.Length {
        pushes := FlushSome(slots.Length / 2);
      }
      Store(slot);
    }

    /** A thread that only releases gathers a batch and then gives it all back. */
    method ReleaseRemote(slot: Slot) returns (pushes: seq<Push>)
      requires Valid() && !locallyAcquired
      modifies `size, slots
      ensures Valid() && KeptRemote(batch, old(Contents()), Contents(), slot, pushes)
    {
      pushes := [];
      Store(slot);
      if size == batch {
        ghost var all := slots[..size];
        pushes := FlushSome(size);
        assert slots[0..|all|] == all;
      }
    }
  }
}
