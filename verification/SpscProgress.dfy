/** The single-producer single-consumer queue makes progress: every run can be continued by the
  * steps of one side alone until its push or pop returns, having moved exactly as many values as
  * there is room for, or as there are.
  */
module SpscProgress {
  import opened Runs
  import opened SpscWords
  import opened SpscProtocol

  datatype Side = Pushing | Popping

  ghost predicate StepOf(s: State, s': State, side: Side) {
    match side
    case Pushing => (exists values :: StartPush(s, s', values)) || RefreshHead(s, s') || WriteCell(s, s') || PublishTail(s, s')
    case Popping => (exists max :: StartPop(s, s', max)) || RefreshTail(s, s') || ReadCell(s, s') || PublishHead(s, s')
  }

  ghost predicate StepAt(run: seq<State>, i: nat, side: Side)
    requires i + 1 < |run|
  {
    StepOf(run[i], run[i + 1], side)
  }

  // A run whose steps from state `from` on are all steps of one side.
  ghost predicate Alone(run: seq<State>, from: nat, side: Side) {
    && IsRun(run) && from < |run|
    && forall i: nat | from <= i && i + 1 < |run| :: StepAt(run, i, side)
  }

  lemma LongerRun(run: seq<State>, s': State)
    requires IsRun(run) && Next(Last(run), s')
    ensures IsRun(run + [s'])
  {
    var longer := run + [s'];
    forall i: nat | i + 1 < |longer|
      ensures NextAt(longer, i)
    {
      assert i + 1 < |run| ==> NextAt(run, i);
    }
  }

  lemma GoOn(run: seq<State>, from: nat, side: Side, s': State) returns (longer: seq<State>)
    requires Alone(run, from, side) && StepOf(Last(run), s', side)
    ensures Alone(longer, from, side) && longer == run + [s'] && Last(longer) == s'
  {
    longer := run + [s'];
    LongerRun(run, s');
    forall i: nat | from <= i && i + 1 < |longer|
      ensures StepAt(longer, i, side)
    {
      assert i + 1 < |run| ==> StepAt(run, i, side);
    }
  }

  lemma LastInv(run: seq<State>)
    requires IsRun(run)
    ensures Inv(Last(run))
  {
    RunInv(run, |run| - 1);
  }

  function Min(a: int, b: int): int {
    if a < b then a else b
  }

  // ---- A push alone ----

  // Room as it is, whatever the producer's cached position says.
  function Free(s: State): int {
    |s.ring.buffer| - (|s.pushed| - |s.popped|)
  }

  ghost predicate Pushed(s: State, s': State, values: seq<nat>) {
    s'.prod == Ready && s'.pushed == s.pushed + values && s'.popped == s.popped && s'.cons == s.cons
  }

  lemma CellStep(s: State) returns (m: State)
    requires Inv(s) && s.prod.Write? && s.prod.i < |s.prod.values|
    ensures WriteCell(s, m) && m.prod == Write(s.prod.values, s.prod.i + 1)
    ensures m.pushed == s.pushed && m.popped == s.popped && m.cons == s.cons
  {
    var cap, count := |s.ring.buffer|, |s.prod.values|;
    SlotIsCell(|s.pushed|, cap);
    CopySlotIsCell(|s.pushed|, s.prod.i, count, cap);
    var first := Slot(s.ring.tail, cap);
    var k := CopySlot(first, if count < cap - first then count else cap - first, s.prod.i);
    m := s.(ring := s.ring.(buffer := s.ring.buffer[k := s.prod.values[s.prod.i]]), prod := Write(s.prod.values, s.prod.i + 1));
  }

  lemma {:induction false} WriteAlone(run: seq<State>, from: nat) returns (longer: seq<State>)
    requires Alone(run, from, Pushing) && Last(run).prod.Write?
    ensures Alone(longer, from, Pushing) && run <= longer && Pushed(Last(run), Last(longer), Last(run).prod.values)
    decreases if Last(run).prod.i < |Last(run).prod.values| then |Last(run).prod.values| - Last(run).prod.i else 0
  {
    LastInv(run);
    var s := Last(run);
    if s.prod.i < |s.prod.values| {
      var m := CellStep(s);
      longer := GoOn(run, from, Pushing, m);
      longer := WriteAlone(longer, from);
    } else {
      var m := s.(ring := s.ring.(tail := Plus(s.ring.tail, |s.prod.values|)), prod := Ready, pushed := s.pushed + s.prod.values);
      assert PublishTail(s, m);
      longer := GoOn(run, from, Pushing, m);
    }
  }

  lemma RefreshStep(s: State) returns (m: State)
    requires Inv(s) && s.prod.LoadHead?
    ensures RefreshHead(s, m) && m.pushed == s.pushed && m.popped == s.popped && m.cons == s.cons && 0 <= Free(s)
    ensures m.prod == if Free(s) == 0 then Ready else Write(s.prod.values[..Min(|s.prod.values|, Free(s))], 0)
  {
    RoomIs(s, |s.popped|);
    var room, values := Room(s.ring, s.ring.head), s.prod.values;
    m := s.(ring := s.ring.(headCache := s.ring.head), seenHead := |s.popped|,
            prod := if room == 0 then Ready else Write(if |values| < room then values else values[..room], 0));
    assert |values| < room ==> values[..|values|] == values;
  }

  lemma LoadAlone(run: seq<State>, from: nat) returns (longer: seq<State>)
    requires Alone(run, from, Pushing) && Last(run).prod.LoadHead?
    ensures Alone(longer, from, Pushing) && run <= longer && 0 <= Free(Last(run))
    ensures var values := Last(run).prod.values;
            Pushed(Last(run), Last(longer), values[..Min(|values|, Free(Last(run)))])
  {
    LastInv(run);
    var s := Last(run);
    var m := RefreshStep(s);
    longer := GoOn(run, from, Pushing, m);
    if m.prod.Write? {
      longer := WriteAlone(longer, from);
    }
  }

  lemma StartStep(s: State, values: seq<nat>) returns (m: State)
    requires Inv(s) && s.prod == Ready && |values| > 0
    ensures StartPush(s, m, values) && m == s.(prod := m.prod)
    ensures m.prod == LoadHead(values) || (m.prod == Write(values, 0) && |values| <= Free(s))
  {
    RoomIs(s, s.seenHead);
    m := s.(prod := if |values| > Room(s.ring, s.ring.headCache) then LoadHead(values) else Write(values, 0));
  }

  /** However a run has gone, a push that goes on alone returns, having put in as many of its values,
    * from the front, as there is room for.
    */
  lemma PushAlone(run: seq<State>, values: seq<nat>) returns (longer: seq<State>)
    requires IsRun(run) && Last(run).prod == Ready && |values| > 0
    ensures Alone(longer, |run| - 1, Pushing) && run < longer && 0 <= Free(Last(run))
    ensures Pushed(Last(run), Last(longer), values[..Min(|values|, Free(Last(run)))])
  {
    LastInv(run);
    var s := Last(run);
    var m := StartStep(s, values);
    longer := GoOn(run, |run| - 1, Pushing, m);
    if m.prod.LoadHead? {
      longer := LoadAlone(longer, |run| - 1);
    } else {
      longer := WriteAlone(longer, |run| - 1);
      assert values[..|values|] == values;
    }
  }

  // ---- A pop alone ----

  function Held(s: State): int {
    |s.pushed| - |s.popped|
  }

  // The next n values have been popped, in order.
  ghost predicate Popped(s: State, s': State, n: int) {
    && 0 <= n <= Held(s) && s'.cons == Waiting && s'.pushed == s.pushed && s'.prod == s.prod
    && s'.popped == s.pushed[..|s.popped| + n]
  }

  lemma ReadStep(s: State) returns (m: State)
    requires Inv(s) && s.cons.Read? && |s.cons.out| < s.cons.count
    ensures ReadCell(s, m) && m == s.(cons := m.cons) && m.cons.Read? && m.cons.count == s.cons.count
    ensures |m.cons.out| == |s.cons.out| + 1
  {
    var cap := |s.ring.buffer|;
    Advance(|s.popped|, |s.cons.out|);
    SlotIsCell(|s.popped| + |s.cons.out|, cap);
    m := s.(cons := Read(s.cons.out + [s.ring.buffer[Slot(Plus(s.ring.head, |s.cons.out|), cap)]], s.cons.count));
  }

  lemma HeadStep(s: State) returns (m: State)
    requires Inv(s) && s.cons.Read? && |s.cons.out| == s.cons.count
    ensures PublishHead(s, m) && Popped(s, m, s.cons.count)
  {
    m := s.(ring := s.ring.(head := Plus(s.ring.head, s.cons.count)), cons := Waiting, popped := s.popped + s.cons.out);
    assert s.popped + s.cons.out == s.pushed[..|s.popped| + s.cons.count];
  }

  lemma {:induction false} ReadAlone(run: seq<State>, from: nat) returns (longer: seq<State>)
    requires Alone(run, from, Popping) && Last(run).cons.Read?
    ensures Alone(longer, from, Popping) && run <= longer && Popped(Last(run), Last(longer), Last(run).cons.count)
    decreases if |Last(run).cons.out| < Last(run).cons.count then Last(run).cons.count - |Last(run).cons.out| else 0
  {
    LastInv(run);
    var s := Last(run);
    if |s.cons.out| < s.cons.count {
      var m := ReadStep(s);
      longer := GoOn(run, from, Popping, m);
      longer := ReadAlone(longer, from);
    } else {
      var m := HeadStep(s);
      longer := GoOn(run, from, Popping, m);
    }
  }

  lemma TailStep(s: State) returns (m: State)
    requires Inv(s) && s.cons.LoadTail?
    ensures RefreshTail(s, m) && m.pushed == s.pushed && m.popped == s.popped && m.prod == s.prod && 0 <= Held(s)
    ensures m.cons == if Held(s) == 0 then Waiting else Read([], Min(Held(s), s.cons.max))
  {
    Distance(|s.pushed|, |s.popped|);
    var available := Minus(s.ring.tail, s.ring.head);
    m := s.(ring := s.ring.(tailCache := s.ring.tail), seenTail := |s.pushed|,
            cons := if available == 0 then Waiting else Read([], if available < s.cons.max then available else s.cons.max));
  }

  lemma StartPopStep(s: State, max: nat) returns (m: State)
    requires Inv(s) && s.cons == Waiting && max > 0
    ensures StartPop(s, m, max) && m == s.(cons := m.cons)
    ensures m.cons == LoadTail(max) || (m.cons == Read([], max) && max <= Held(s))
  {
    Distance(s.seenTail, |s.popped|);
    var r := s.ring;
    m := s.(cons := if r.tailCache == r.head || Minus(r.tailCache, r.head) < max then LoadTail(max) else Read([], max));
  }

  lemma TailAlone(run: seq<State>, from: nat) returns (longer: seq<State>)
    requires Alone(run, from, Popping) && Last(run).cons.LoadTail?
    ensures Alone(longer, from, Popping) && run <= longer
    ensures Popped(Last(run), Last(longer), Min(Held(Last(run)), Last(run).cons.max))
  {
    LastInv(run);
    var s := Last(run);
    var m := TailStep(s);
    longer := GoOn(run, from, Popping, m);
    if m.cons.Read? {
      longer := ReadAlone(longer, from);
    } else {
      assert s.pushed[..|s.popped|] == s.popped;
    }
  }

  /** However a run has gone, a pop that goes on alone returns, with all the values that are there, up
    * to its limit and in order.
    */
  lemma PopAlone(run: seq<State>, max: nat) returns (longer: seq<State>)
    requires IsRun(run) && Last(run).cons == Waiting && max > 0
    ensures Alone(longer, |run| - 1, Popping) && run < longer
    ensures Popped(Last(run), Last(longer), Min(Held(Last(run)), max))
  {
    LastInv(run);
    var m := StartPopStep(Last(run), max);
    longer := GoOn(run, |run| - 1, Popping, m);
    if m.cons.LoadTail? {
      longer := TailAlone(longer, |run| - 1);
    } else {
      longer := ReadAlone(longer, |run| - 1);
    }
  }
}
