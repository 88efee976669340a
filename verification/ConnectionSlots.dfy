/** The connection slot table of a TCP shard: slots are reused, and a generation number per
  * slot tells handles to the old and the new connection apart.
  */
module ConnectionSlots {
  import opened Options

  // `id` names the connection: it is history, the source compares only generations.
  datatype Conn = Conn(id: nat, generation: nat, alive: bool)

  datatype Slot = Slot(index: nat, generation: nat)

  const GENERATIONS: nat := 0xFFFF_FFFF      // 32-bit values without zero

  // The generation of a slot's k-th use.
  function Generation(k: nat): (g: nat)
    ensures 0 < g <= GENERATIONS
  {
    1 + k % GENERATIONS
  }

  // 32-bit increment that skips zero.
  function NextGeneration(g: nat): nat {
    var next := (g + 1) % 0x1_0000_0000;
    if next == 0 then 1 else next
  }

  lemma GenerationAdvances(k: nat)
    ensures NextGeneration(Generation(k)) == Generation(k + 1)
  {
    var m := k % GENERATIONS;
    if m + 1 < GENERATIONS {
      assert (k + 1) % GENERATIONS == m + 1;
    } else {
      assert (k + 1) % GENERATIONS == 0;
    }
  }

  // ---- Free lists ----

  ghost predicate Distinct(s: seq<nat>) {
    forall i: nat, j: nat | i < j < |s| :: s[i] != s[j]
  }

  predicate IsEmptySlot(conns: seq<Option<Conn>>, i: nat) {
    i < |conns| && conns[i] == None
  }

  // The free list holds distinct empty slots, and every empty one except perhaps the last.
  ghost predicate Listed(free: seq<nat>, conns: seq<Option<Conn>>) {
    && Distinct(free)
    && (forall i: nat | i in free :: IsEmptySlot(conns, i))
    && (forall i: nat | IsEmptySlot(conns, i) && i + 1 < |conns| :: i in free)
  }

  predicate LastUsed(conns: seq<Option<Conn>>) {
    conns == [] || conns[|conns| - 1] != None
  }

  ghost predicate AnyEmpty(conns: seq<Option<Conn>>) {
    exists i: nat :: IsEmptySlot(conns, i)
  }

  lemma ListedAny(free: seq<nat>, conns: seq<Option<Conn>>)
    requires Listed(free, conns) && LastUsed(conns)
    ensures free != [] <==> AnyEmpty(conns)
  {
    if free != [] {
      assert free[0] in free;
    }
    if i: nat :| IsEmptySlot(conns, i) {
      assert i in free;
    }
  }

  // One empty slot is on the way to be filled; the others are all listed.
  ghost predicate ListedBut(free: seq<nat>, conns: seq<Option<Conn>>, index: nat) {
    && Distinct(free) && index !in free
    && (forall i: nat | i in free :: IsEmptySlot(conns, i))
    && (forall i: nat | IsEmptySlot(conns, i) && i != index :: i in free)
  }

  lemma DropLast(free: seq<nat>, conns: seq<Option<Conn>>)
    requires Listed(free, conns) && LastUsed(conns) && |free| > 0
    ensures IsEmptySlot(conns, free[|free| - 1])
    ensures ListedBut(free[..|free| - 1], conns, free[|free| - 1])
  {
    var n := |free| - 1;
    assert free[n] in free;
    forall i: nat | IsEmptySlot(conns, i) && i != free[n]
      ensures i in free[..n]
    {
      assert i in free;
    }
  }

  lemma FillListed(free: seq<nat>, conns: seq<Option<Conn>>, index: nat, c: Conn)
    requires ListedBut(free, conns, index) && index < |conns|
    ensures Listed(free, conns[index := Some(c)])
  {
    var filled := conns[index := Some(c)];
    forall i: nat
      ensures IsEmptySlot(filled, i) <==> IsEmptySlot(conns, i) && i != index
    {
    }
  }

  lemma AddListed(conns: seq<Option<Conn>>)
    requires Listed([], conns) && LastUsed(conns)
    ensures ListedBut([], conns + [None], |conns|)
  {
    forall i: nat | IsEmptySlot(conns + [None], i) && i != |conns|
      ensures false
    {
      assert IsEmptySlot(conns, i);
    }
  }

  lemma EmptyListed(free: seq<nat>, conns: seq<Option<Conn>>, index: nat)
    requires Listed(free, conns) && index < |conns| && conns[index] != None
    ensures index !in free
    ensures Listed(if index + 1 < |conns| then free + [index] else free, conns[index := None])
  {
    var emptied := conns[index := None];
    forall i: nat
      ensures IsEmptySlot(emptied, i) <==> IsEmptySlot(conns, i) || i == index
    {
    }
    assert index in free ==> IsEmptySlot(conns, index);
  }

  lemma DropTail(free: seq<nat>, kept: seq<nat>, conns: seq<Option<Conn>>)
    requires Listed(free, conns) && |conns| > 0 && Distinct(kept)
    requires forall i: nat :: i in kept <==> i in free && i != |conns| - 1
    ensures Listed(kept, conns[..|conns| - 1])
  {
    var shorter := conns[..|conns| - 1];
    assert forall i: nat | i < |shorter| :: shorter[i] == conns[i];
    forall i: nat | i in kept
      ensures IsEmptySlot(shorter, i)
    {
      assert IsEmptySlot(conns, i);
    }
    forall i: nat | IsEmptySlot(shorter, i) && i + 1 < |shorter|
      ensures i in kept
    {
      assert IsEmptySlot(conns, i);
    }
  }

  // ---- Uses, names and connections ----

  ghost predicate GenerationsOk(generations: seq<nat>, uses: seq<nat>) {
    && |uses| == |generations|
    && (forall i: nat | i < |uses| :: uses[i] > 0 && generations[i] == Generation(uses[i] - 1))
  }

  // Every connection was named for one use of one slot, and no use was named twice.
  ghost predicate NamesOk(named: seq<(nat, nat)>, uses: seq<nat>) {
    forall id: nat | id < |named| :: named[id].0 < |uses| && named[id].1 < uses[named[id].0]
  }

  ghost predicate Apart(named: seq<(nat, nat)>) {
    forall a: nat, b: nat | a < b < |named| :: named[a] != named[b]
  }

  // A connection in slot i is the one named for the slot's latest use, under its generation.
  ghost predicate ConnOk(c: Conn, i: nat, uses: seq<nat>, named: seq<(nat, nat)>) {
    && i < |uses| && uses[i] > 0 && c.generation == Generation(uses[i] - 1)
    && c.id < |named| && named[c.id] == (i, uses[i] - 1)
  }

  ghost predicate ConnsOk(conns: seq<Option<Conn>>, uses: seq<nat>, named: seq<(nat, nat)>) {
    && |conns| <= |uses|
    && (forall i: nat | i < |conns| && conns[i].Some? :: ConnOk(conns[i].value, i, uses, named))
  }

  // Every closed connection still in the table waits to be reaped.
  ghost predicate RetiredOk(conns: seq<Option<Conn>>, retired: seq<Slot>) {
    forall i: nat | i < |conns| && conns[i].Some? && !conns[i].value.alive ::
      Slot(i, conns[i].value.generation) in retired
  }

  lemma ReuseKeeps(conns: seq<Option<Conn>>, uses: seq<nat>, named: seq<(nat, nat)>, index: nat)
    requires NamesOk(named, uses) && ConnsOk(conns, uses, named) && IsEmptySlot(conns, index)
    ensures var more := uses[index := uses[index] + 1];
            NamesOk(named, more) && ConnsOk(conns, more, named) && (index, more[index] - 1) !in named
  {
    var more := uses[index := uses[index] + 1];
    forall i: nat | i < |conns| && conns[i].Some?
      ensures ConnOk(conns[i].value, i, more, named)
    {
      assert ConnOk(conns[i].value, i, uses, named);
    }
  }

  lemma AddKeeps(conns: seq<Option<Conn>>, uses: seq<nat>, named: seq<(nat, nat)>)
    requires NamesOk(named, uses) && ConnsOk(conns, uses, named) && |conns| == |uses|
    ensures var more := uses + [1];
            NamesOk(named, more) && ConnsOk(conns + [None], more, named) && (|conns|, 0) !in named
  {
    var more := uses + [1];
    forall i: nat | i < |conns| && conns[i].Some?
      ensures ConnOk((conns + [None])[i].value, i, more, named)
    {
      assert ConnOk(conns[i].value, i, uses, named);
    }
  }

  lemma NameKeeps(conns: seq<Option<Conn>>, uses: seq<nat>, named: seq<(nat, nat)>, index: nat)
    requires NamesOk(named, uses) && Apart(named) && ConnsOk(conns, uses, named)
    requires index < |uses| && uses[index] > 0 && (index, uses[index] - 1) !in named
    ensures var more := named + [(index, uses[index] - 1)];
            NamesOk(more, uses) && Apart(more) && ConnsOk(conns, uses, more)
  {
    var more := named + [(index, uses[index] - 1)];
    forall a: nat, b: nat | a < b < |more|
      ensures more[a] != more[b]
    {
      assert named[a] in named;
    }
    forall i: nat | i < |conns| && conns[i].Some?
      ensures ConnOk(conns[i].value, i, uses, more)
    {
      assert ConnOk(conns[i].value, i, uses, named);
    }
  }

  lemma FillKeeps(conns: seq<Option<Conn>>, uses: seq<nat>, named: seq<(nat, nat)>, retired: seq<Slot>,
                  index: nat, c: Conn)
    requires ConnsOk(conns, uses, named) && RetiredOk(conns, retired)
    requires index < |conns| && c.alive && ConnOk(c, index, uses, named)
    ensures ConnsOk(conns[index := Some(c)], uses, named) && RetiredOk(conns[index := Some(c)], retired)
  {
  }

  class Table {
    var conns: seq<Option<Conn>>
    var generations: seq<nat>
    var free: seq<nat>
    var retired: seq<Slot>
    var nextId: nat                            // names the connections apart

    ghost var uses: seq<nat>                   // how often each slot was acquired
    ghost var named: seq<(nat, nat)>           // the slot and the use that each connection was made for

    // Everything but the free list.
    ghost predicate Sound()
      reads this
    {
      && nextId == |named| && Apart(named) && NamesOk(named, uses)
      && GenerationsOk(generations, uses) && ConnsOk(conns, uses, named) && RetiredOk(conns, retired)
    }

    ghost predicate Valid()
      reads this
    {
      Sound() && Listed(free, conns) && LastUsed(conns)
    }

    ghost function Snap(): Snapshot
      reads this
    {
      Snapshot(conns, uses, named)
    }

    constructor ()
      ensures Valid() && Snap() == Snapshot([], [], [])
    {
      conns, generations, free, retired := [], [], [], [];
      uses, named, nextId := [], [], 0;
    }

    /** The free list names every empty slot once, and nothing else. */
    lemma FreeListIsExact(i: nat)
      requires Valid()
      ensures i in free <==> IsEmptySlot(conns, i)
      ensures multiset(free)[i] <= 1
    {
      if multiset(free)[i] > 1 {
        TwiceIsNotDistinct(free, i);
      }
    }

    method Find(index: nat, generation: nat) returns (r: Option<Conn>)
      ensures r == Lookup(conns, index, generation)
    {
      if index >= |conns| {
        return None;
      }
      r := conns[index];
      if r == None || !r.value.alive || r.value.generation != generation {
        return None;
      }
    }

    // ---- Acquiring and releasing ----

    // The acquired slot is empty and in no list until it is filled or released.
    ghost predicate Reserved(slot: Slot)
      reads this
    {
      && Sound() && IsEmptySlot(conns, slot.index) && slot.index < |generations|
      && generations[slot.index] == slot.generation
      && (slot.index, uses[slot.index] - 1) !in named
      && (slot.index + 1 == |conns| || LastUsed(conns))
      && ListedBut(free, conns, slot.index)
    }

    method Acquire(memory: bool) returns (slot: Option<Slot>)
      requires Valid()
      modifies `conns, `generations, `free, `uses
      ensures slot.Some? <==> AnyEmpty(old(conns)) || memory
      ensures slot == None ==> Valid() && conns == old(conns) && uses == old(uses)
      ensures slot.Some? ==> Reserved(slot.value) && AddsEmpty(old(conns), conns)
      ensures Grown(old(uses), uses)
    {
      ListedAny(free, conns);
      if free != [] {
        var reused := AcquireFree();
        return Some(reused);
      }
      if !memory {
        return None;
      }
      var added := AcquireNew();
      return Some(added);
    }

    method AcquireFree() returns (slot: Slot)
      requires Valid() && free != []
      modifies `free, `generations, `uses
      ensures Reserved(slot) && Grown(old(uses), uses)
    {
      var index := free[|free| - 1];
      DropLast(free, conns);
      free := free[..|free| - 1];
      slot := Reuse(index);
    }

    method AcquireNew() returns (slot: Slot)
      requires Valid() && free == []
      modifies `conns, `generations, `uses
      ensures Reserved(slot) && conns == old(conns) + [None] && Grown(old(uses), uses)
    {
      var index := |conns|;
      AddListed(conns);
      if index >= |generations| {
        AddKeeps(conns, uses, named);
        conns := conns + [None];
        generations := generations + [1];
        uses := uses + [1];
        return Slot(index, 1);
      }
      conns := conns + [None];
      slot := Reuse(index);
    }

    // Gives the slot its next generation.
    method Reuse(index: nat) returns (slot: Slot)
      requires Sound() && IsEmptySlot(conns, index)
      modifies `generations, `uses
      ensures Sound() && slot.index == index && index < |generations| && generations[index] == slot.generation
      ensures Grown(old(uses), uses) && (index, uses[index] - 1) !in named
    {
      var next := NextGeneration(generations[index]);
      GenerationAdvances(uses[index] - 1);
      ReuseKeeps(conns, uses, named, index);
      generations := generations[index := next];
      uses := uses[index := uses[index] + 1];
      slot := Slot(index, next);
    }

    // Fills a reserved slot with a connection of a new name.
    method Fill(slot: Slot)
      requires Reserved(slot)
      modifies `conns, `named, `nextId
      ensures Sound() && Listed(free, conns)
      ensures conns == old(conns)[slot.index := Some(Conn(old(nextId), slot.generation, true))]
      ensures named == old(named) + [(slot.index, uses[slot.index] - 1)]
    {
      var c := Conn(nextId, slot.generation, true);
      FillListed(free, conns, slot.index, c);
      NameKeeps(conns, uses, named, slot.index);
      named := named + [(slot.index, uses[slot.index] - 1)];
      nextId := nextId + 1;
      FillKeeps(conns, uses, named, retired, slot.index, c);
      conns := conns[slot.index := Some(c)];
    }

    method ReleaseUnused(slot: Slot)
      requires Reserved(slot)
      modifies `free, `conns
      ensures Valid()
      ensures SameConns(old(conns), conns)
    {
      if slot.index + 1 < |conns| {
        free := free + [slot.index];
      }
      TrimEmptyTail();
    }

    // ---- Trimming ----

    // From the back of the list; the slot is there at most once.
    method EraseFree(index: nat)
      requires Distinct(free)
      modifies `free
      ensures Distinct(free)
      ensures forall i: nat :: i in free <==> i in old(free) && i != index
    {
      var k: nat := |free|;
      while k > 0
        invariant k <= |free| && free == old(free)
        invariant forall j: nat | k <= j < |free| :: free[j] != index
      {
        k := k - 1;
        if free[k] == index {
          ghost var was := free;
          free := free[..k] + free[k + 1..];
          ErasedAt(was, k);
          return;
        }
      }
    }

    method TrimOne()
      requires Sound() && Listed(free, conns) && conns != [] && conns[|conns| - 1] == None
      modifies `free, `conns
      ensures Sound() && Listed(free, conns) && conns == old(conns)[..|old(conns)| - 1]
    {
      ghost var was := free;
      EraseFree(|conns| - 1);
      DropTail(was, free, conns);
      conns := conns[..|conns| - 1];
    }

    method TrimEmptyTail()
      requires Sound() && Listed(free, conns)
      modifies `free, `conns
      ensures Valid()
      ensures SameConns(old(conns), conns)
    {
      while |conns| > 0 && conns[|conns| - 1] == None
        invariant Sound() && Listed(free, conns) && SameConns(old(conns), conns)
        decreases |conns|
      {
        TrimOne();
      }
    }

    // ---- Closing and reaping ----

    // A connection closes itself once and asks to be reaped.
    method Close(index: nat)
      requires Sound() && Listed(free, conns) && LiveAtSome(conns, index)
      modifies `conns, `retired
      ensures Sound() && Listed(free, conns)
      ensures LastUsed(old(conns)) ==> LastUsed(conns)
      ensures conns == old(conns)[index := Some(old(conns)[index].value.(alive := false))]
    {
      var c := conns[index].value;
      assert ConnOk(c, index, uses, named);
      conns := conns[index := Some(c.(alive := false))];
      retired := retired + [Slot(index, c.generation)];
    }

    // Drops the connection behind one retired slot, if it is still that one and closed.
    method ReapOne(slot: Slot)
      requires Sound() && Listed(free, conns)
      modifies `conns, `free
      ensures Sound() && Listed(free, conns) && |conns| == |old(conns)|
      ensures forall i: nat | i < |conns| ::
                conns[i] == if i == slot.index && Closed(old(conns)[i], slot.generation) then None else old(conns)[i]
    {
      if slot.index >= |conns| || slot.index >= |generations| || generations[slot.index] != slot.generation {
        ghost var i := slot.index;
        assert i < |conns| && conns[i].Some? ==> ConnOk(conns[i].value, i, uses, named);
        return;
      }
      var c := conns[slot.index];
      if c == None || c.value.alive || c.value.generation != slot.generation {
        return;
      }
      EmptyListed(free, conns, slot.index);
      conns := conns[slot.index := None];
      if slot.index + 1 < |conns| {
        free := free + [slot.index];
      }
    }

    method ReapAll()
      requires Sound() && Listed(free, conns)
      modifies `conns, `free
      ensures Sound() && Listed(free, conns)
      ensures Reaped(old(conns), conns) && NoneLeft(conns, retired, |retired|)
    {
      var k: nat := 0;
      while k < |retired|
        invariant k <= |retired|
        invariant Sound() && Listed(free, conns)
        invariant Reaped(old(conns), conns) && NoneLeft(conns, retired, k)
      {
        ghost var was := conns;
        ReapOne(retired[k]);
        assert Reaped(was, conns);
        k := k + 1;
      }
    }

    /** Reaping leaves exactly the live connections. */
    method ReapRetired()
      requires Sound() && Listed(free, conns)
      modifies `conns, `free, `retired
      ensures Valid() && retired == []
      ensures SameLive(old(conns), conns)
      ensures forall i: nat | i < |conns| && conns[i].Some? :: conns[i].value.alive
    {
      ReapAll();
      retired := [];
      TrimEmptyTail();
    }

    // ---- Creating ----

    // A connection that cannot be registered is closed and reaped at once.
    method Abort(index: nat)
      requires Sound() && Listed(free, conns) && LiveAtSome(conns, index)
      modifies `conns, `free, `retired
      ensures Valid() && SameLive(old(conns)[index := None], conns)
    {
      Close(index);
      ReapRetired();
    }

    /** A new connection gets a new name and a handle that leads to it; all other connections
      * and all earlier names stay as they are. `made` says whether constructing the connection
      * succeeds, `started` whether registering its socket does.
      */
    method Create(memory: bool, made: bool, started: bool) returns (handle: Option<Slot>)
      requires Valid()
      modifies this
      ensures Valid() && Evolves(old(Snap()), Snap())
      ensures handle.Some? <==> (AnyEmpty(old(conns)) || memory) && made && started
      ensures handle == None ==> SameLive(old(conns), conns)
      ensures handle.Some? ==> Issues(old(Snap()), Snap(), handle.value)
      ensures handle.Some? ==>
                AddsLive(old(conns), conns, handle.value.index, Conn(old(nextId), handle.value.generation, true))
    {
      var slot := Acquire(memory);
      if slot == None {
        return None;
      }
      ghost var before := conns;
      var ok := Occupy(slot.value, made, started);
      if ok {
        AddedIsFound(before, conns, slot.value.index, Conn(old(nextId), slot.value.generation, true));
        return slot;
      }
      return None;
    }

    method Occupy(slot: Slot, made: bool, started: bool) returns (ok: bool)
      requires Reserved(slot)
      modifies `conns, `named, `nextId, `free, `retired
      ensures Valid() && old(named) <= named && (ok <==> made && started)
      ensures !ok ==> SameLive(old(conns), conns)
      ensures ok ==> named == old(named) + [(slot.index, uses[slot.index] - 1)]
      ensures ok ==> AddsLive(old(conns), conns, slot.index, Conn(old(nextId), slot.generation, true))
    {
      if !made {
        ReleaseUnused(slot);
        return false;
      }
      Fill(slot);
      if !started {
        assert conns[slot.index := None] == old(conns);
        Abort(slot.index);
        return false;
      }
      return true;
    }

    // Closing through a handle: nothing happens when it no longer resolves.
    method CloseBy(handle: Slot) returns (found: bool)
      requires Valid()
      modifies `conns, `retired
      ensures Valid() && ClosesLive(old(conns), conns, handle)
      ensures found <==> Lookup(old(conns), handle.index, handle.generation).Some?
      ensures !found ==> conns == old(conns)
    {
      var c := Find(handle.index, handle.generation);
      found := c.Some?;
      if found {
        Close(handle.index);
      }
    }

    // The table is at the end of this history of operations, which returned these handles.
    ghost predicate Ends(run: seq<Snapshot>, ops: seq<Op>, handles: seq<Option<Slot>>)
      reads this
    {
      Valid() && IsHistory(run) && Follows(run, ops, handles) && run[|ops|] == Snap()
    }

    lemma Begins()
      requires Valid()
      ensures Ends([Snap()], [], [])
    {
      assert SnapOk(Snap());
    }

    method ApplyNext(op: Op, ghost run: seq<Snapshot>, ghost ops: seq<Op>, ghost handles: seq<Option<Slot>>)
      returns (handle: Option<Slot>)
      requires Ends(run, ops, handles)
      modifies this
      ensures Ends(run + [Snap()], ops + [op], handles + [handle])
    {
      handle := Apply(op);
      HistoryGrows(run, Snap());
      FollowsGrow(run, ops, handles, Snap(), op, handle);
    }

    method Apply(op: Op) returns (handle: Option<Slot>)
      requires Valid()
      modifies this
      ensures Valid() && Evolves(old(Snap()), Snap()) && Does(op, old(Snap()), Snap(), handle)
    {
      handle := None;
      match op {
        case Create(memory, made, started) => handle := Create(memory, made, started);
        case CloseBy(h) => var _ := CloseBy(h);
        case Reap => ReapRetired();
      }
    }
  }

  // ---- Histories ----

  // What the caller of the table does.
  datatype Op = Create(memory: bool, made: bool, started: bool) | CloseBy(handle: Slot) | Reap

  // The table at one moment, with the history of its names.
  datatype Snapshot = Snapshot(conns: seq<Option<Conn>>, uses: seq<nat>, named: seq<(nat, nat)>)

  ghost predicate SnapOk(s: Snapshot) {
    Apart(s.named) && NamesOk(s.named, s.uses) && ConnsOk(s.conns, s.uses, s.named)
  }

  ghost predicate Grown(a: seq<nat>, b: seq<nat>) {
    |a| <= |b| && forall i: nat | i < |a| :: a[i] <= b[i]
  }

  // Names are kept and added to, uses are counted up.
  ghost predicate Evolves(s: Snapshot, s': Snapshot) {
    s.named <= s'.named && Grown(s.uses, s'.uses)
  }

  function Lookup(conns: seq<Option<Conn>>, index: nat, generation: nat): Option<Conn> {
    if index < |conns| && conns[index].Some? && conns[index].value.alive && conns[index].value.generation == generation
    then conns[index] else None
  }

  // The handle that connection `id` was given.
  ghost function HandleOf(s: Snapshot, id: nat): Slot
    requires id < |s.named|
  {
    Slot(s.named[id].0, Generation(s.named[id].1))
  }

  // A step that names one connection, gives out its handle, and leaves it alive.
  ghost predicate Issues(s: Snapshot, s': Snapshot, handle: Slot) {
    var id := |s.named|;
    && |s'.named| == id + 1 && handle == HandleOf(s', id)
    && Lookup(s'.conns, handle.index, handle.generation) == Some(Conn(id, handle.generation, true))
  }

  ghost predicate StepAt(run: seq<Snapshot>, i: nat)
    requires i + 1 < |run|
  {
    Evolves(run[i], run[i + 1])
  }

  ghost predicate IsHistory(run: seq<Snapshot>) {
    && (forall i: nat | i < |run| :: SnapOk(run[i]))
    && (forall i: nat | i + 1 < |run| :: StepAt(run, i))
  }

  // What one operation does to the live connections, and which handle it returns.
  ghost predicate Does(op: Op, s: Snapshot, s': Snapshot, handle: Option<Slot>) {
    match op
    case Create(memory, made, started) =>
      && (handle.Some? <==> (AnyEmpty(s.conns) || memory) && made && started)
      && (if handle == None then SameLive(s.conns, s'.conns)
          else
            && Issues(s, s', handle.value)
            && AddsLive(s.conns, s'.conns, handle.value.index, Conn(|s.named|, handle.value.generation, true)))
    case CloseBy(h) => handle == None && ClosesLive(s.conns, s'.conns, h)
    case Reap => handle == None && SameLive(s.conns, s'.conns)
  }

  ghost predicate DoesAt(run: seq<Snapshot>, ops: seq<Op>, handles: seq<Option<Slot>>, k: nat)
    requires k < |ops| == |handles| && |run| == |ops| + 1
  {
    Does(ops[k], run[k], run[k + 1], handles[k])
  }

  ghost predicate Follows(run: seq<Snapshot>, ops: seq<Op>, handles: seq<Option<Slot>>) {
    && |run| == |ops| + 1 && |handles| == |ops|
    && forall k: nat | k < |ops| :: DoesAt(run, ops, handles, k)
  }

  method NewTable() returns (t: Table)
    ensures fresh(t) && t.Ends([t.Snap()], [], [])
  {
    t := new Table();
    t.Begins();
  }

  /** Whatever the caller does, the table goes through a history in which every operation does
    * what it should to the live connections, and every handle it gives out is the handle of a
    * connection named in that step.
    */
  method Replay(ops: seq<Op>) returns (t: Table, handles: seq<Option<Slot>>, ghost run: seq<Snapshot>)
    ensures t.Ends(run, ops, handles)
  {
    t := NewTable();
    handles, run := [], [t.Snap()];
    assert ops[..0] == [];
    var i := 0;
    while i < |ops|
      invariant 0 <= i <= |ops|
      invariant fresh(t) && t.Ends(run, ops[..i], handles)
    {
      var handle := t.ApplyNext(ops[i], run, ops[..i], handles);
      assert ops[..i + 1] == ops[..i] + [ops[i]];
      handles := handles + [handle];
      run := run + [t.Snap()];
      i := i + 1;
    }
    assert ops[..|ops|] == ops;
  }

  lemma FollowsGrow(run: seq<Snapshot>, ops: seq<Op>, handles: seq<Option<Slot>>, s: Snapshot, op: Op, handle: Option<Slot>)
    requires Follows(run, ops, handles) && Does(op, run[|ops|], s, handle)
    ensures Follows(run + [s], ops + [op], handles + [handle])
  {
    forall k: nat | k < |ops| + 1
      ensures DoesAt(run + [s], ops + [op], handles + [handle], k)
    {
      assert k < |ops| ==> DoesAt(run, ops, handles, k);
    }
  }

  lemma HistoryGrows(run: seq<Snapshot>, s: Snapshot)
    requires IsHistory(run) && |run| > 0 && SnapOk(s) && Evolves(run[|run| - 1], s)
    ensures IsHistory(run + [s])
  {
    forall i: nat | i + 1 < |run + [s]|
      ensures StepAt(run + [s], i)
    {
      if i + 1 < |run| {
        assert StepAt(run, i);
      }
    }
  }

  lemma {:induction false} HistoryEvolves(run: seq<Snapshot>, i: nat, j: nat)
    requires IsHistory(run) && i <= j < |run|
    ensures Evolves(run[i], run[j])
    decreases j
  {
    if i < j {
      HistoryEvolves(run, i, j - 1);
      assert StepAt(run, j - 1);
    }
  }

  /** The handle of a connection resolves, if at all, to the connection of its slot's latest use.
    * It does so if and only if that one is alive and its use comes a multiple of 2^32 - 1 uses
    * later, or is the same; and it is the same connection only if it is the same use.
    */
  lemma HandleResolves(s: Snapshot, id: nat)
    requires SnapOk(s) && id < |s.named|
    ensures var (index, use) := s.named[id];
            index < |s.uses| && use < s.uses[index]
    ensures var (index, use) := s.named[id];
            var c := Lookup(s.conns, index, Generation(use));
            && (c.Some? <==> LiveAtSome(s.conns, index) && (s.uses[index] - 1 - use) % GENERATIONS == 0)
            && (c.Some? ==> c == s.conns[index] && (c.value.id == id <==> use == s.uses[index] - 1))
  {
    var (index, use) := s.named[id];
    SameGeneration(use, s.uses[index] - 1);
    if LiveAtSome(s.conns, index) {
      var other := s.conns[index].value.id;
      assert ConnOk(s.conns[index].value, index, s.uses, s.named);
      assert other < id ==> s.named[other] != s.named[id];
      assert id < other ==> s.named[id] != s.named[other];
    }
  }

  /** Over every history: a handle returned by step i resolves at any later step j only to the
    * connection that step i made, with fewer than 2^32 - 1 reuses of its slot.
    */
  lemma HandlesNeverAlias(run: seq<Snapshot>, ops: seq<Op>, handles: seq<Option<Slot>>, i: nat, j: nat)
    requires IsHistory(run) && Follows(run, ops, handles) && i < j < |run| && handles[i].Some?
    ensures handles[i].value.index < |run[j].uses|
    ensures var c := Lookup(run[j].conns, handles[i].value.index, handles[i].value.generation);
            c.Some? && run[j].uses[handles[i].value.index] <= GENERATIONS ==> c.value.id == |run[i].named|
  {
    var id := |run[i].named|;
    assert DoesAt(run, ops, handles, i);
    HistoryEvolves(run, i + 1, j);
    assert run[j].named[id] == run[i + 1].named[id];
    HandleResolves(run[j], id);
  }

  /** As long as the connection lives, its handle finds it. */
  lemma LiveIsFound(s: Snapshot, i: nat)
    requires SnapOk(s) && LiveAtSome(s.conns, i)
    ensures s.conns[i].value.id < |s.named|
    ensures var h := HandleOf(s, s.conns[i].value.id);
            h.index == i && Lookup(s.conns, h.index, h.generation) == s.conns[i]
  {
    assert ConnOk(s.conns[i].value, i, s.uses, s.named);
  }

  lemma AddedIsFound(a: seq<Option<Conn>>, b: seq<Option<Conn>>, index: nat, added: Conn)
    requires AddsLive(a, b, index, added)
    ensures Lookup(b, index, added.generation) == Some(added)
  {
    assert LiveAt(b, index, added);
  }

  // ---- Comparing tables ----

  // One more live connection, in this slot; all others as before.
  ghost predicate AddsLive(a: seq<Option<Conn>>, b: seq<Option<Conn>>, index: nat, added: Conn) {
    forall i: nat, c :: LiveAt(b, i, c) <==> if i == index then c == added else LiveAt(a, i, c)
  }

  // The connection the handle leads to, if any, is gone; all others as before.
  ghost predicate ClosesLive(a: seq<Option<Conn>>, b: seq<Option<Conn>>, handle: Slot) {
    forall i: nat, c :: LiveAt(b, i, c) <==> LiveAt(a, i, c) && !(i == handle.index && c.generation == handle.generation)
  }

  predicate LiveAtSome(conns: seq<Option<Conn>>, i: nat) {
    i < |conns| && conns[i].Some? && conns[i].value.alive
  }

  // The second table is the first, perhaps with one empty slot more at its end.
  ghost predicate AddsEmpty(a: seq<Option<Conn>>, b: seq<Option<Conn>>) {
    b == a || b == a + [None]
  }

  ghost predicate Reaped(a: seq<Option<Conn>>, b: seq<Option<Conn>>) {
    && |a| == |b|
    && forall i: nat | i < |a| :: b[i] == a[i] || (b[i] == None && IsClosed(a[i]))
  }

  ghost predicate NoneLeft(conns: seq<Option<Conn>>, retired: seq<Slot>, k: nat)
    requires k <= |retired|
  {
    forall j: nat | j < k && retired[j].index < |conns| :: !Closed(conns[retired[j].index], retired[j].generation)
  }

  predicate Closed(c: Option<Conn>, generation: nat) {
    c.Some? && !c.value.alive && c.value.generation == generation
  }

  predicate IsClosed(c: Option<Conn>) {
    c.Some? && !c.value.alive
  }

  // The tables agree wherever a connection is; empty slots at the end may differ.
  ghost predicate SameConns(a: seq<Option<Conn>>, b: seq<Option<Conn>>) {
    && |b| <= |a|
    && (forall i: nat | i < |b| :: b[i] == a[i])
    && (forall i: nat | |b| <= i < |a| :: a[i] == None)
  }

  predicate LiveAt(a: seq<Option<Conn>>, i: nat, c: Conn) {
    i < |a| && a[i] == Some(c) && c.alive
  }

  // The same live connections are in the same slots.
  ghost predicate SameLive(a: seq<Option<Conn>>, b: seq<Option<Conn>>) {
    forall i: nat, c :: LiveAt(a, i, c) <==> LiveAt(b, i, c)
  }

  lemma SameGeneration(a: nat, b: nat)
    requires a <= b
    ensures Generation(a) == Generation(b) <==> (b - a) % GENERATIONS == 0
  {
    assert a == a / GENERATIONS * GENERATIONS + a % GENERATIONS;
    assert b == b / GENERATIONS * GENERATIONS + b % GENERATIONS;
    var q := b / GENERATIONS - a / GENERATIONS;
    assert b - a == q * GENERATIONS + b % GENERATIONS - a % GENERATIONS;
  }

  lemma {:induction false} TwiceIsNotDistinct(s: seq<nat>, x: nat)
    requires multiset(s)[x] > 1
    ensures !Distinct(s)
  {
    var n := |s| - 1;
    assert s == s[..n] + [s[n]];
    if s[n] == x {
      assert multiset(s[..n])[x] > 0;
      assert x in s[..n];
    } else {
      TwiceIsNotDistinct(s[..n], x);
    }
  }

  lemma ErasedAt(s: seq<nat>, k: nat)
    requires Distinct(s) && k < |s|
    ensures Distinct(s[..k] + s[k + 1..])
    ensures forall i: nat :: i in s[..k] + s[k + 1..] <==> i in s && i != s[k]
  {
    var t := s[..k] + s[k + 1..];
    forall i: nat | i in s && i != s[k]
      ensures i in t
    {
      var j: nat :| j < |s| && s[j] == i;
      assert t[if j < k then j else j - 1] == i;
    }
  }
}
