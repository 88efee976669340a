/** The single-producer single-consumer queue with both threads running: one shared access per
  * step, a batch copied cell by cell. A single push or pop is a batch of one.
  */
module SpscProtocol {
  import opened Bits
  import opened SpscWords
  import RingQueue

  datatype Producer =
    | Ready
    | LoadHead(values: seq<nat>)             // the cached head leaves too little room
    | Write(values: seq<nat>, i: nat)        // i values are in their cells

  datatype Consumer =
    | Waiting
    | LoadTail(max: nat)                     // the cached tail shows too few values
    | Read(out: seq<nat>, count: nat)

  datatype Ring = Ring(buffer: seq<nat>, head: nat, tail: nat, headCache: nat, tailCache: nat)

  // `pushed` and `popped` are histories, `seenHead` and `seenTail` the cached words unwrapped.
  datatype State = State(ring: Ring, prod: Producer, cons: Consumer,
                         pushed: seq<nat>, popped: seq<nat>, seenHead: nat, seenTail: nat)

  ghost predicate Init(s: State) {
    && ValidCapacity(|s.ring.buffer|)
    && s.ring.head == 0 && s.ring.tail == 0 && s.ring.headCache == 0 && s.ring.tailCache == 0
    && s.prod == Ready && s.cons == Waiting
    && s.pushed == [] && s.popped == [] && s.seenHead == 0 && s.seenTail == 0
  }

  // ---- Producer ----

  function Room(r: Ring, head: nat): nat
    requires head < WORD
  {
    var used := Minus(r.tail, head);
    if used < |r.buffer| then |r.buffer| - used else 0
  }

  ghost predicate StartPush(s: State, s': State, values: seq<nat>) {
    && s.prod == Ready && |values| > 0 && s.ring.headCache < WORD
    && s' == s.(prod := if |values| > Room(s.ring, s.ring.headCache) then LoadHead(values) else Write(values, 0))
  }

  ghost predicate RefreshHead(s: State, s': State) {
    && s.prod.LoadHead? && s.ring.head < WORD
    && var room := Room(s.ring, s.ring.head);
       var values := s.prod.values;
       s' == s.(ring := s.ring.(headCache := s.ring.head), seenHead := |s.popped|,
                prod := if room == 0 then Ready
                        else Write(if |values| < room then values else values[..room], 0))
  }

  ghost predicate WriteCell(s: State, s': State) {
    && s.prod.Write? && s.prod.i < |s.prod.values| && |s.ring.buffer| > 0
    && var cap := |s.ring.buffer|;
       var first := Slot(s.ring.tail, cap);
       var count := |s.prod.values|;
       && first < cap
       && var k := CopySlot(first, if count < cap - first then count else cap - first, s.prod.i);
       k < cap
       && s' == s.(ring := s.ring.(buffer := s.ring.buffer[k := s.prod.values[s.prod.i]]),
                   prod := Write(s.prod.values, s.prod.i + 1))
  }

  ghost predicate PublishTail(s: State, s': State) {
    && s.prod.Write? && s.prod.i == |s.prod.values|
    && s' == s.(ring := s.ring.(tail := Plus(s.ring.tail, |s.prod.values|)),
                prod := Ready, pushed := s.pushed + s.prod.values)
  }

  // ---- Consumer ----

  ghost predicate StartPop(s: State, s': State, max: nat) {
    && s.cons == Waiting && max > 0 && s.ring.head < WORD
    && var r := s.ring;
       s' == s.(cons := if r.tailCache == r.head || Minus(r.tailCache, r.head) < max then LoadTail(max) else Read([], max))
  }

  ghost predicate RefreshTail(s: State, s': State) {
    && s.cons.LoadTail? && s.ring.head < WORD
    && var available := Minus(s.ring.tail, s.ring.head);
       s' == s.(ring := s.ring.(tailCache := s.ring.tail), seenTail := |s.pushed|,
                cons := if available == 0 then Waiting
                        else Read([], if available < s.cons.max then available else s.cons.max))
  }

  ghost predicate ReadCell(s: State, s': State) {
    && s.cons.Read? && |s.cons.out| < s.cons.count && |s.ring.buffer| > 0
    && var k := Slot(Plus(s.ring.head, |s.cons.out|), |s.ring.buffer|);
       && k < |s.ring.buffer|
       && s' == s.(cons := Read(s.cons.out + [s.ring.buffer[k]], s.cons.count))
  }

  ghost predicate PublishHead(s: State, s': State) {
    && s.cons.Read? && |s.cons.out| == s.cons.count
    && s' == s.(ring := s.ring.(head := Plus(s.ring.head, s.cons.count)),
                cons := Waiting, popped := s.popped + s.cons.out)
  }

  ghost predicate Next(s: State, s': State) {
    || (exists values :: StartPush(s, s', values))
    || RefreshHead(s, s') || WriteCell(s, s') || PublishTail(s, s')
    || (exists max :: StartPop(s, s', max))
    || RefreshTail(s, s') || ReadCell(s, s') || PublishHead(s, s')
  }

  ghost predicate NextAt(run: seq<State>, i: nat)
    requires i + 1 < |run|
  {
    Next(run[i], run[i + 1])
  }

  ghost predicate IsRun(run: seq<State>) {
    && |run| > 0 && Init(run[0])
    && forall i: nat | i + 1 < |run| :: NextAt(run, i)
  }

  // ---- Invariant ----

  ghost predicate Positions(s: State) {
    && ValidCapacity(|s.ring.buffer|)
    && s.ring.head == Word(|s.popped|) && s.ring.tail == Word(|s.pushed|)
    && s.ring.headCache == Word(s.seenHead) && s.ring.tailCache == Word(s.seenTail)
    && s.seenHead <= |s.popped| <= s.seenTail <= |s.pushed| <= s.seenHead + |s.ring.buffer|
  }

  // The cells of positions from, from + 1, ... hold these values.
  ghost predicate Stored(buffer: seq<nat>, from: nat, values: seq<nat>) {
    && |buffer| > 0
    && (forall p: nat | from <= p < from + |values| :: buffer[RingQueue.Cell(p, |buffer|)] == values[p - from])
  }

  ghost predicate ProducerOk(s: State) {
    s.prod.Write? ==>
      && s.prod.i <= |s.prod.values| && |s.prod.values| > 0
      && |s.pushed| + |s.prod.values| <= s.seenHead + |s.ring.buffer|
      && Stored(s.ring.buffer, |s.pushed|, s.prod.values[..s.prod.i])
  }

  ghost predicate ConsumerOk(s: State) {
    && s.popped <= s.pushed
    && (s.cons.LoadTail? ==> s.cons.max > 0)
    && (s.cons.Read? ==>
        && |s.cons.out| <= s.cons.count && s.cons.count > 0
        && |s.popped| + s.cons.count <= s.seenTail
        && s.popped + s.cons.out <= s.pushed)
  }

  ghost predicate Inv(s: State) {
    && Positions(s)
    && Stored(s.ring.buffer, |s.popped|, s.pushed[|s.popped|..])
    && ProducerOk(s) && ConsumerOk(s)
    && (s.prod.LoadHead? ==> |s.prod.values| > 0)
  }

  lemma RoomIs(s: State, head: nat)
    requires ValidCapacity(|s.ring.buffer|) && s.ring.tail == Word(|s.pushed|)
    requires head <= |s.pushed| <= head + |s.ring.buffer|
    ensures Room(s.ring, Word(head)) == head + |s.ring.buffer| - |s.pushed|
  {
    Distance(|s.pushed|, head);
  }

  lemma WriteKeepsStored(s: State, s': State)
    requires Inv(s) && WriteCell(s, s')
    ensures Stored(s'.ring.buffer, |s.popped|, s.pushed[|s.popped|..])
    ensures Stored(s'.ring.buffer, |s.pushed|, s.prod.values[..s.prod.i + 1])
  {
    var cap, here := |s.ring.buffer|, |s.pushed| + s.prod.i;
    SlotIsCell(|s.pushed|, cap);
    CopySlotIsCell(|s.pushed|, s.prod.i, |s.prod.values|, cap);
    forall p: nat | |s.popped| <= p < here
      ensures RingQueue.Cell(p, cap) != RingQueue.Cell(here, cap)
    {
      CellsDiffer(p, here, cap);
    }
  }

  lemma PublishKeepsStored(s: State, s': State)
    requires Inv(s) && PublishTail(s, s')
    ensures Stored(s'.ring.buffer, |s'.popped|, s'.pushed[|s'.popped|..])
  {
    assert s.prod.values[..s.prod.i] == s.prod.values;
  }

  lemma ProducerKeepsInv(s: State, s': State)
    requires Inv(s)
    requires RefreshHead(s, s') || WriteCell(s, s') || PublishTail(s, s')
    ensures Inv(s')
  {
    if RefreshHead(s, s') {
      RoomIs(s, |s.popped|);
    } else if WriteCell(s, s') {
      WriteKeepsStored(s, s');
    } else {
      PublishKeepsStored(s, s');
      Advance(|s.pushed|, |s.prod.values|);
    }
  }

  lemma ReadKeepsInv(s: State, s': State)
    requires Inv(s) && ReadCell(s, s')
    ensures Inv(s')
  {
    var p := |s.popped| + |s.cons.out|;
    Advance(|s.popped|, |s.cons.out|);
    SlotIsCell(p, |s.ring.buffer|);
    assert s.ring.buffer[RingQueue.Cell(p, |s.ring.buffer|)] == s.pushed[|s.popped|..][p - |s.popped|];
  }

  lemma ConsumerKeepsInv(s: State, s': State)
    requires Inv(s)
    requires RefreshTail(s, s') || ReadCell(s, s') || PublishHead(s, s')
    ensures Inv(s')
  {
    if RefreshTail(s, s') {
      Distance(|s.pushed|, |s.popped|);
    } else if ReadCell(s, s') {
      ReadKeepsInv(s, s');
    } else {
      Advance(|s.popped|, s.cons.count);
    }
  }

  lemma StepKeepsInv(s: State, s': State)
    requires Inv(s) && Next(s, s')
    ensures Inv(s')
  {
    if values :| StartPush(s, s', values) {
      RoomIs(s, s.seenHead);
    } else if max :| StartPop(s, s', max) {
      Distance(s.seenTail, |s.popped|);
    } else if RefreshHead(s, s') || WriteCell(s, s') || PublishTail(s, s') {
      ProducerKeepsInv(s, s');
    } else {
      ConsumerKeepsInv(s, s');
    }
  }

  lemma {:induction false} RunInv(run: seq<State>, i: nat)
    requires IsRun(run) && i < |run|
    ensures Inv(run[i])
  {
    if i > 0 {
      RunInv(run, i - 1);
      assert NextAt(run, i - 1);
      StepKeepsInv(run[i - 1], run[i]);
    }
  }

  // ---- What the queue promises ----

  /** Values come out exactly once and in the order they went in, and never more than the
    * capacity are inside, however the two threads interleave and however stale their copies
    * of each other's position are.
    */
  lemma FirstInFirstOut(run: seq<State>, i: nat)
    requires IsRun(run) && i < |run|
    ensures run[i].popped <= run[i].pushed
    ensures |run[i].pushed| - |run[i].popped| <= |run[i].ring.buffer|
  {
    RunInv(run, i);
  }

  /** The producer never stores to a cell that holds a value not yet popped, not even one the
    * consumer is just reading.
    */
  lemma NoValueOverwritten(run: seq<State>, i: nat, p: nat)
    requires IsRun(run) && i + 1 < |run| && WriteCell(run[i], run[i + 1])
    requires |run[i].popped| <= p < |run[i].pushed|
    ensures run[i + 1].ring.buffer[RingQueue.Cell(p, |run[i].ring.buffer|)] == run[i].pushed[p]
  {
    RunInv(run, i);
    WriteKeepsStored(run[i], run[i + 1]);
    assert run[i].pushed[p] == run[i].pushed[|run[i].popped|..][p - |run[i].popped|];
  }

  /** A push gives up exactly when the queue is full at the moment it loads the consumer's
    * position, and otherwise goes on with as many of its values as there is room for then.
    */
  lemma RefusedOnlyWhenFull(run: seq<State>, i: nat)
    requires IsRun(run) && i + 1 < |run| && RefreshHead(run[i], run[i + 1])
    ensures |run[i].popped| <= |run[i].pushed| <= |run[i].popped| + |run[i].ring.buffer|
    ensures var s := run[i];
            var room := |s.ring.buffer| - (|s.pushed| - |s.popped|);
            run[i + 1].prod == if room == 0 then Ready
                               else Write(if |s.prod.values| < room then s.prod.values else s.prod.values[..room], 0)
  {
    RunInv(run, i);
    RoomIs(run[i], |run[i].popped|);
  }

  // A push that trusts its stale copy of the consumer's position has room for all its values.
  lemma StaleHeadIsSafe(run: seq<State>, i: nat, values: seq<nat>)
    requires IsRun(run) && i + 1 < |run| && StartPush(run[i], run[i + 1], values) && run[i + 1].prod.Write?
    ensures |run[i].pushed| - |run[i].popped| + |values| <= |run[i].ring.buffer|
  {
    RunInv(run, i);
    RoomIs(run[i], run[i].seenHead);
  }

  /** A pop gives up exactly when the queue is empty at the moment it loads the producer's
    * position, and otherwise takes all there is then, up to its limit.
    */
  lemma EmptyOnlyWhenEmpty(run: seq<State>, i: nat)
    requires IsRun(run) && i + 1 < |run| && RefreshTail(run[i], run[i + 1])
    ensures |run[i].popped| <= |run[i].pushed|
    ensures var s := run[i];
            var inside := |s.pushed| - |s.popped|;
            run[i + 1].cons == if inside == 0 then Waiting
                               else Read([], if inside < s.cons.max then inside else s.cons.max)
  {
    RunInv(run, i);
    Distance(|run[i].pushed|, |run[i].popped|);
  }

  /** A batch is published whole: what a finished push adds is what it set out to write, and
    * the values are in their cells before the consumer can see them.
    */
  lemma PublishedWhole(run: seq<State>, i: nat)
    requires IsRun(run) && i + 1 < |run| && PublishTail(run[i], run[i + 1])
    ensures run[i + 1].pushed == run[i].pushed + run[i].prod.values
    ensures Stored(run[i].ring.buffer, |run[i].pushed|, run[i].prod.values)
  {
    RunInv(run, i);
    assert run[i].prod.values[..run[i].prod.i] == run[i].prod.values;
  }
}
