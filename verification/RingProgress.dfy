/** The ring queues make progress: every run can be continued by the steps of one thread alone until
  * its push or pop returns, with exactly the result that the state of the queue calls for.
  */
module RingProgress {
  import opened Runs
  import opened RingQueue
  import opened RingProperties

  // The queue has one consumer (`sole`, MPSC) or any number (MPMC).
  ghost predicate QueueRun(run: seq<State>, sole: bool) {
    if sole then MpscRun(run) else MpmcRun(run)
  }

  // A thread that takes steps on its own.
  datatype Thread = Pusher(t: nat) | Popper(k: nat)

  ghost predicate StepOf(s: State, s': State, th: Thread, sole: bool) {
    && Shape(s)
    && match th
       case Pusher(t) => ProducerStep(s, s', t)
       case Popper(k) => TakeStep(s, s', k) || if sole then SoleClaimStep(s, s', k) else ClaimStep(s, s', k)
  }

  ghost predicate StepAt(run: seq<State>, i: nat, th: Thread, sole: bool)
    requires i + 1 < |run|
  {
    StepOf(run[i], run[i + 1], th, sole)
  }

  // A run whose steps from state `from` on are all steps of one thread.
  ghost predicate Alone(run: seq<State>, from: nat, th: Thread, sole: bool) {
    && QueueRun(run, sole) && from < |run|
    && forall i: nat | from <= i && i + 1 < |run| :: StepAt(run, i, th, sole)
  }

  lemma LongerRun(run: seq<State>, s': State, th: Thread, sole: bool)
    requires QueueRun(run, sole) && |run| > 0 && StepOf(Last(run), s', th, sole)
    ensures QueueRun(run + [s'], sole)
  {
    var longer := run + [s'];
    assert if sole then MpscStep(Last(run), s') else MpmcStep(Last(run), s');
    forall i: nat | i + 1 < |longer|
      ensures if sole then MpscAt(longer, i) else MpmcAt(longer, i)
    {
      if i + 1 < |run| {
        assert if sole then MpscAt(run, i) else MpmcAt(run, i);
      }
    }
  }

  lemma GoOn(run: seq<State>, from: nat, th: Thread, sole: bool, s': State) returns (longer: seq<State>)
    requires Alone(run, from, th, sole) && StepOf(Last(run), s', th, sole)
    ensures Alone(longer, from, th, sole) && longer == run + [s'] && Last(longer) == s'
  {
    longer := run + [s'];
    LongerRun(run, s', th, sole);
    forall i: nat | from <= i && i + 1 < |longer|
      ensures StepAt(longer, i, th, sole)
    {
      if i + 1 < |run| {
        assert StepAt(run, i, th, sole);
      }
    }
  }

  lemma LastInv(run: seq<State>, sole: bool)
    requires QueueRun(run, sole) && |run| > 0
    ensures Inv(Last(run))
  {
    RunInv(run, |run| - 1);
  }

  // ---- A push alone ----

  // Only the producers' side has changed, and the log is longer by these values.
  ghost predicate Logged(s: State, s': State, t: nat, values: seq<Value>) {
    && s'.log == s.log + values && s'.cap == s.cap && s'.deq == s.deq && s'.claimed == s.claimed && s'.got == s.got
    && s'.consumers == s.consumers && t in s'.producers && s'.producers.Keys == s.producers.Keys
    && (forall u | u in s.producers && u != t :: s'.producers[u] == s.producers[u])
  }

  lemma LoggedOn(s: State, m: State, s': State, t: nat, a: seq<Value>, b: seq<Value>)
    requires Logged(s, m, t, a) && Logged(m, s', t, b)
    ensures Logged(s, s', t, a + b)
  {
    assert s.log + a + b == s.log + (a + b);
  }

  // Where a producer at work on its batch goes next.
  function Then(p: Producer): Producer
    requires Writes(p)
  {
    if p.PWrite? then PPublish(p.vals, p.pos, p.r, p.i)
    else if p.i + 1 < p.r then PWrite(p.vals, p.pos, p.r, p.i + 1)
    else POut(p.r)
  }

  lemma WriteStep(s: State, t: nat, sole: bool) returns (m: State)
    requires Inv(s) && t in s.producers && s.producers[t].PWrite?
    ensures StepOf(s, m, Pusher(t), sole) && Logged(s, m, t, []) && m.producers[t] == Then(s.producers[t])
    ensures s.producers[t].i < s.producers[t].r
  {
    assert ProducerOk(s, s.producers[t]);
    m := WriteIsStep(s, t, sole);
  }

  lemma WriteIsStep(s: State, t: nat, sole: bool) returns (m: State)
    requires Shape(s) && t in s.producers && s.producers[t].PWrite? && s.producers[t].i < |s.producers[t].vals|
    ensures StepOf(s, m, Pusher(t), sole) && Logged(s, m, t, []) && m.producers[t] == Then(s.producers[t])
  {
    var p := s.producers[t];
    m := P(s, t, Then(p)).(data := s.data[Cell(p.pos + p.i, s.cap) := p.vals[p.i]]);
  }

  lemma PublishStep(s: State, t: nat, sole: bool) returns (m: State)
    requires Inv(s) && t in s.producers && s.producers[t].PPublish?
    ensures StepOf(s, m, Pusher(t), sole) && Logged(s, m, t, []) && m.producers[t] == Then(s.producers[t])
    ensures s.producers[t].i < s.producers[t].r
  {
    assert ProducerOk(s, s.producers[t]);
    m := PublishIsStep(s, t, sole);
  }

  lemma PublishIsStep(s: State, t: nat, sole: bool) returns (m: State)
    requires Shape(s) && t in s.producers && s.producers[t].PPublish?
    ensures StepOf(s, m, Pusher(t), sole) && Logged(s, m, t, []) && m.producers[t] == Then(s.producers[t])
  {
    var p := s.producers[t];
    m := P(s, t, Then(p)).(seqs := s.seqs[Cell(p.pos + p.i, s.cap) := p.pos + p.i + 1]);
  }

  lemma WorkOn(run: seq<State>, from: nat, t: nat, sole: bool) returns (longer: seq<State>)
    requires Alone(run, from, Pusher(t), sole) && t in Last(run).producers && Writes(Last(run).producers[t])
    ensures Alone(longer, from, Pusher(t), sole) && run <= longer && Logged(Last(run), Last(longer), t, [])
    ensures Last(longer).producers[t] == Then(Last(run).producers[t])
    ensures Last(run).producers[t].i < Last(run).producers[t].r
  {
    LastInv(run, sole);
    var m;
    if Last(run).producers[t].PWrite? {
      m := WriteStep(Last(run), t, sole);
    } else {
      m := PublishStep(Last(run), t, sole);
    }
    longer := GoOn(run, from, Pusher(t), sole, m);
  }

  // How far a producer is from the end of its batch.
  function Left(p: Producer): int {
    if Writes(p) then 2 * (p.r - p.i) + (if p.PWrite? then 1 else 0) else 0
  }

  // A producer at work on its batch publishes the rest of it.
  lemma {:induction false} FinishAlone(run: seq<State>, from: nat, t: nat, sole: bool) returns (longer: seq<State>)
    requires Alone(run, from, Pusher(t), sole) && t in Last(run).producers && Writes(Last(run).producers[t])
    ensures Alone(longer, from, Pusher(t), sole) && run <= longer && Logged(Last(run), Last(longer), t, [])
    ensures Last(longer).producers[t] == POut(Last(run).producers[t].r)
    decreases Left(Last(run).producers[t])
  {
    longer := WorkOn(run, from, t, sole);
    var m := Last(longer);
    if !m.producers[t].POut? {
      longer := FinishAlone(longer, from, t, sole);
      LoggedOn(Last(run), m, Last(longer), t, [], []);
    }
  }

  // What a push of these values from this state comes to: it puts in the first k of them.
  ghost predicate PutsIn(s: State, s': State, t: nat, vals: seq<Value>, k: nat) {
    && k <= |vals| && Logged(s, s', t, vals[..k]) && s'.producers[t] == POut(k)
    && (k < |vals| ==> LapHeld(s, s.enq + k))
    && (forall q | s.enq <= q < s.enq + k :: !LapHeld(s, q))
  }

  lemma ReserveStep(s: State, t: nat, vals: seq<Value>, sole: bool) returns (m: State)
    requires Shape(s) && t in s.producers && FitsExactly(s, vals, s.producers[t])
    ensures StepOf(s, m, Pusher(t), sole) && Logged(s, m, t, vals[..s.producers[t].r])
    ensures m.producers[t] == PWrite(vals, s.enq, s.producers[t].r, 0)
  {
    var r := s.producers[t].r;
    m := P(s, t, PWrite(vals, s.enq, r, 0)).(enq := s.enq + r, log := s.log + vals[..r]);
  }

  // With its reservation scanned at the current position, a producer takes it and fills it.
  lemma ReserveAlone(run: seq<State>, from: nat, t: nat, vals: seq<Value>, sole: bool) returns (longer: seq<State>)
    requires Alone(run, from, Pusher(t), sole) && t in Last(run).producers
    requires FitsExactly(Last(run), vals, Last(run).producers[t])
    ensures Alone(longer, from, Pusher(t), sole) && run <= longer
    ensures PutsIn(Last(run), Last(longer), t, vals, Last(run).producers[t].r)
  {
    LastInv(run, sole);
    var s := Last(run);
    var r := s.producers[t].r;
    var m := ReserveStep(s, t, vals, sole);
    longer := GoOn(run, from, Pusher(t), sole, m);
    longer := FinishAlone(longer, from, t, sole);
    LoggedOn(s, m, Last(longer), t, vals[..r], []);
    assert vals[..r] + [] == vals[..r];
  }

  // How a scan at the current position can go on.
  ghost predicate ScansOn(s: State, vals: seq<Value>, r: nat, p: Producer) {
    || (p == PScan(vals, s.enq, r + 1) && r + 1 < |vals|)
    || FitsExactly(s, vals, p)
    || (p == POut(0) && LapHeld(s, s.enq))
  }

  function Scanned(s: State, vals: seq<Value>, r: nat): Producer
    requires Shape(s)
  {
    if s.seqs[Cell(s.enq + r, s.cap)] == s.enq + r then
      if r + 1 < |vals| then PScan(vals, s.enq, r + 1) else PReserve(vals, s.enq, r + 1)
    else Stop(vals, s.enq, r, POut(0))
  }

  lemma ScanIsStep(s: State, t: nat, vals: seq<Value>, r: nat, sole: bool)
    requires Shape(s) && t in s.producers && s.producers[t] == PScan(vals, s.enq, r)
    requires s.seqs[Cell(s.enq + r, s.cap)] <= s.enq + r
    ensures StepOf(s, P(s, t, Scanned(s, vals, r)), Pusher(t), sole)
  {
  }

  lemma ScannedIs(s: State, vals: seq<Value>, r: nat)
    requires Inv(s) && r < |vals| <= s.cap && FreeFrom(s, s.enq, r)
    ensures ScansOn(s, vals, r, Scanned(s, vals, r)) && s.seqs[Cell(s.enq + r, s.cap)] <= s.enq + r
  {
    FreeOrBehind(s, s.enq + r);
    if Scanned(s, vals, r).PReserve? {
      StopsFit(s, vals, s.enq, r, Scanned(s, vals, r));
    }
  }

  lemma ScannedFits(s: State, t: nat, vals: seq<Value>, r: nat)
    requires Inv(s) && t in s.producers && s.producers[t] == PScan(vals, s.enq, r)
    ensures r < |vals| && ScansOn(s, vals, r, Scanned(s, vals, r))
    ensures s.seqs[Cell(s.enq + r, s.cap)] <= s.enq + r
  {
    assert ProducerOk(s, s.producers[t]);
    ScannedIs(s, vals, r);
  }

  lemma ScanOn(run: seq<State>, from: nat, t: nat, vals: seq<Value>, r: nat, sole: bool) returns (longer: seq<State>)
    requires Alone(run, from, Pusher(t), sole) && t in Last(run).producers
    requires Last(run).producers[t] == PScan(vals, Last(run).enq, r)
    ensures Alone(longer, from, Pusher(t), sole) && run <= longer && r < |vals| && t in Last(longer).producers
    ensures Last(longer) == P(Last(run), t, Last(longer).producers[t])
    ensures ScansOn(Last(run), vals, r, Last(longer).producers[t])
  {
    LastInv(run, sole);
    ScannedFits(Last(run), t, vals, r);
    ScanIsStep(Last(run), t, vals, r, sole);
    longer := GoOn(run, from, Pusher(t), sole, P(Last(run), t, Scanned(Last(run), vals, r)));
  }

  // A step of the scan changes nothing of what a push from here comes to.
  lemma PutsInLater(s: State, m: State, s': State, t: nat, vals: seq<Value>, k: nat)
    requires t in s.producers && t in m.producers && m == P(s, t, m.producers[t]) && PutsIn(m, s', t, vals, k)
    ensures PutsIn(s, s', t, vals, k)
  {
    assert forall q: nat :: LapHeld(m, q) <==> LapHeld(s, q);
  }

  lemma FitsLater(s: State, m: State, vals: seq<Value>, p: Producer)
    requires m == s.(producers := m.producers) && FitsExactly(s, vals, p)
    ensures FitsExactly(m, vals, p)
  {
    assert forall q: nat :: LapHeld(m, q) <==> LapHeld(s, q);
  }

  lemma PutsInNothing(s: State, t: nat, vals: seq<Value>)
    requires t in s.producers && LapHeld(s, s.enq)
    ensures PutsIn(s, P(s, t, POut(0)), t, vals, 0)
  {
    assert s.log + vals[..0] == s.log;
  }

  lemma {:induction false} ScanAlone(run: seq<State>, from: nat, t: nat, vals: seq<Value>, r: nat, sole: bool)
    returns (longer: seq<State>, k: nat)
    requires Alone(run, from, Pusher(t), sole) && t in Last(run).producers
    requires Last(run).producers[t] == PScan(vals, Last(run).enq, r) && r < |vals|
    ensures Alone(longer, from, Pusher(t), sole) && run <= longer && PutsIn(Last(run), Last(longer), t, vals, k)
    decreases |vals| - r
  {
    var s := Last(run);
    longer := ScanOn(run, from, t, vals, r, sole);
    var m := Last(longer);
    if m.producers[t].POut? {
      k := 0;
      PutsInNothing(s, t, vals);
    } else {
      if m.producers[t].PScan? {
        longer, k := ScanAlone(longer, from, t, vals, r + 1, sole);
      } else {
        k := m.producers[t].r;
        FitsLater(s, m, vals, m.producers[t]);
        longer := ReserveAlone(longer, from, t, vals, sole);
      }
      PutsInLater(s, m, Last(longer), t, vals, k);
    }
  }

  lemma LoadStep(s: State, t: nat, sole: bool) returns (m: State)
    requires Inv(s) && t in s.producers && s.producers[t].PLoad?
    ensures m == P(s, t, PScan(s.producers[t].vals, s.enq, 0)) && 0 < |s.producers[t].vals|
    ensures StepOf(s, m, Pusher(t), sole)
  {
    assert ProducerOk(s, s.producers[t]);
    m := P(s, t, PScan(s.producers[t].vals, s.enq, 0));
  }

  /** However a run has gone, a push that goes on alone finishes. It puts in, as its answer says, the
    * longest prefix of its values for which there are free cells in a row, and nothing else of the
    * queue changes.
    */
  lemma PushAlone(run: seq<State>, t: nat, sole: bool) returns (longer: seq<State>, k: nat)
    requires QueueRun(run, sole) && |run| > 0 && t in Last(run).producers && Last(run).producers[t].PLoad?
    ensures Alone(longer, |run| - 1, Pusher(t), sole) && run <= longer
    ensures PutsIn(Last(run), Last(longer), t, Last(run).producers[t].vals, k)
  {
    LastInv(run, sole);
    var s := Last(run);
    var m := LoadStep(s, t, sole);
    longer := GoOn(run, |run| - 1, Pusher(t), sole, m);
    longer, k := ScanAlone(longer, |run| - 1, t, s.producers[t].vals, 0, sole);
    PutsInLater(s, m, Last(longer), t, s.producers[t].vals, k);
  }

  // ---- A pop alone ----

  // The consumer is handed the value of this position, and only the consumers' side has changed.
  ghost predicate HandedOut(s: State, s': State, k: nat, p: nat) {
    && p < |s.log| && s'.got == s.got[p := Delivery(k, s.log[p])] && s'.log == s.log && s'.enq == s.enq
    && k in s.consumers && s'.consumers == s.consumers[k := COut] && s'.producers == s.producers
  }

  lemma ReadStep(s: State, k: nat, sole: bool) returns (m: State)
    requires Inv(s) && k in s.consumers && s.consumers[k].CRead?
    ensures StepOf(s, m, Popper(k), sole) && s.consumers[k].pos < |s.log|
    ensures m == C(s, k, CRelease(s.consumers[k].pos, s.log[s.consumers[k].pos]))
  {
    var pos := s.consumers[k].pos;
    assert ConsumerOk(s, k, s.consumers[k]);
    m := C(s, k, CRelease(pos, s.data[Cell(pos, s.cap)]));
  }

  lemma ReleaseStep(s: State, k: nat, sole: bool) returns (m: State)
    requires Inv(s) && k in s.consumers && s.consumers[k].CRelease?
    ensures StepOf(s, m, Popper(k), sole) && m.deq == s.deq && HandedOut(s, m, k, s.consumers[k].pos)
  {
    var pos := s.consumers[k].pos;
    assert ConsumerOk(s, k, s.consumers[k]);
    m := C(s, k, COut).(seqs := s.seqs[Cell(pos, s.cap) := pos + s.cap], at := s.at[Cell(pos, s.cap) := pos + s.cap],
                        got := s.got[pos := Delivery(k, s.log[pos])]);
  }

  // A consumer that claimed a position reads and releases it.
  lemma TakeAlone(run: seq<State>, from: nat, k: nat, sole: bool) returns (longer: seq<State>)
    requires Alone(run, from, Popper(k), sole) && k in Last(run).consumers && Last(run).consumers[k].CRead?
    ensures Alone(longer, from, Popper(k), sole) && run <= longer && Last(longer).deq == Last(run).deq
    ensures HandedOut(Last(run), Last(longer), k, Last(run).consumers[k].pos)
  {
    LastInv(run, sole);
    var m := ReadStep(Last(run), k, sole);
    longer := GoOn(run, from, Popper(k), sole, m);
    LastInv(longer, sole);
    m := ReleaseStep(m, k, sole);
    longer := GoOn(longer, from, Popper(k), sole, m);
  }

  // What a pop from this state comes to.
  ghost predicate TakesNext(s: State, s': State, k: nat) {
    if NotReady(s) then k in s.consumers && s' == C(s, k, COut) else s'.deq == s.deq + 1 && HandedOut(s, s', k, s.deq)
  }

  lemma ClaimStepIs(s: State, k: nat, sole: bool) returns (m: State)
    requires Inv(s) && k in s.consumers && !NotReady(s) && s.consumers[k] == if sole then COut else CClaim(s.deq)
    ensures StepOf(s, m, Popper(k), sole)
    ensures m == C(s, k, CRead(s.deq)).(deq := s.deq + 1, claimed := s.claimed + [k])
  {
    ReadyCell(s);
    m := C(s, k, CRead(s.deq)).(deq := s.deq + 1, claimed := s.claimed + [k]);
  }

  // The claim of a position that is ready, and the rest of the pop.
  lemma ClaimAlone(run: seq<State>, from: nat, k: nat, sole: bool) returns (longer: seq<State>)
    requires Alone(run, from, Popper(k), sole) && k in Last(run).consumers && !NotReady(Last(run))
    requires Last(run).consumers[k] == if sole then COut else CClaim(Last(run).deq)
    ensures Alone(longer, from, Popper(k), sole) && run <= longer && TakesNext(Last(run), Last(longer), k)
  {
    LastInv(run, sole);
    var m := ClaimStepIs(Last(run), k, sole);
    longer := GoOn(run, from, Popper(k), sole, m);
    longer := TakeAlone(longer, from, k, sole);
  }

  lemma LookStep(s: State, k: nat) returns (m: State)
    requires Inv(s) && k in s.consumers && s.consumers[k] == CScan(s.deq)
    ensures StepOf(s, m, Popper(k), false) && m == C(s, k, if NotReady(s) then COut else CClaim(s.deq))
  {
    ReadyCell(s);
    m := C(s, k, if NotReady(s) then COut else CClaim(s.deq));
  }

  lemma SameReadiness(s: State, m: State)
    requires m == s.(consumers := m.consumers)
    ensures NotReady(m) <==> NotReady(s)
  {
  }

  lemma TakesLater(s: State, m: State, s': State, k: nat)
    requires k in s.consumers && k in m.consumers && m == C(s, k, m.consumers[k]) && TakesNext(m, s', k)
    ensures TakesNext(s, s', k)
  {
    SameReadiness(s, m);
  }

  lemma LookAlone(run: seq<State>, from: nat, k: nat) returns (longer: seq<State>)
    requires Alone(run, from, Popper(k), false) && k in Last(run).consumers && Last(run).consumers[k] == CScan(Last(run).deq)
    ensures Alone(longer, from, Popper(k), false) && run <= longer && TakesNext(Last(run), Last(longer), k)
  {
    LastInv(run, false);
    var s := Last(run);
    var m := LookStep(s, k);
    longer := GoOn(run, from, Popper(k), false, m);
    if !NotReady(s) {
      SameReadiness(s, m);
      longer := ClaimAlone(longer, from, k, false);
      TakesLater(s, m, Last(longer), k);
    }
  }

  lemma LoadHeadStep(s: State, k: nat) returns (m: State)
    requires Inv(s) && k in s.consumers && s.consumers[k] == CLoad
    ensures StepOf(s, m, Popper(k), false) && m == C(s, k, CScan(s.deq))
  {
    m := C(s, k, CScan(s.deq));
  }

  /** However a run has gone, a pop that goes on alone finishes: with the value of the next position
    * if that is published, and with nothing otherwise.
    */
  lemma PopAlone(run: seq<State>, k: nat) returns (longer: seq<State>)
    requires MpmcRun(run) && k in Last(run).consumers && Last(run).consumers[k] == CLoad
    ensures Alone(longer, |run| - 1, Popper(k), false) && run <= longer && TakesNext(Last(run), Last(longer), k)
  {
    LastInv(run, false);
    var s := Last(run);
    var m := LoadHeadStep(s, k);
    longer := GoOn(run, |run| - 1, Popper(k), false, m);
    longer := LookAlone(longer, |run| - 1, k);
    TakesLater(s, m, Last(longer), k);
  }

  lemma SoleMissStep(s: State, k: nat)
    requires Inv(s) && k in s.consumers && s.consumers[k] == COut && NotReady(s)
    ensures StepOf(s, s, Popper(k), true) && C(s, k, COut) == s
  {
    ReadyCell(s);
  }

  /** ... and so does a pop of the only consumer of an MPSC queue. */
  lemma SolePopAlone(run: seq<State>, k: nat) returns (longer: seq<State>)
    requires MpscRun(run) && k in Last(run).consumers && Last(run).consumers[k] == COut
    ensures Alone(longer, |run| - 1, Popper(k), true) && run < longer && TakesNext(Last(run), Last(longer), k)
  {
    var s := Last(run);
    if NotReady(s) {
      LastInv(run, true);
      SoleMissStep(s, k);
      longer := GoOn(run, |run| - 1, Popper(k), true, s);
    } else {
      longer := ClaimAlone(run, |run| - 1, k, true);
    }
  }
}
