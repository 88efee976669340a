/** What the bounded ring queues promise, over every run: the MPSC queue is a FIFO, and the
  * MPMC queue hands every reserved position to exactly one consumer.
  */
module RingProperties {
  import opened RingQueue

  ghost predicate MpscAt(run: seq<State>, i: nat)
    requires i + 1 < |run|
  {
    MpscStep(run[i], run[i + 1])
  }

  ghost predicate MpmcAt(run: seq<State>, i: nat)
    requires i + 1 < |run|
  {
    MpmcStep(run[i], run[i + 1])
  }

  ghost predicate MpscRun(run: seq<State>) {
    && |run| > 0 && Init(run[0]) && run[0].consumers.Keys == {0}
    && forall i: nat | i + 1 < |run| :: MpscAt(run, i)
  }

  ghost predicate MpmcRun(run: seq<State>) {
    && |run| > 0 && Init(run[0])
    && forall i: nat | i + 1 < |run| :: MpmcAt(run, i)
  }

  lemma {:induction false} RunInv(run: seq<State>, i: nat)
    requires (MpscRun(run) || MpmcRun(run)) && i < |run|
    ensures Inv(run[i])
  {
    if i == 0 {
      InitInv(run[0]);
    } else {
      RunInv(run, i - 1);
      assert MpscAt(run, i - 1) || MpmcAt(run, i - 1);
      StepKeepsInv(run[i - 1], run[i]);
    }
  }

  // ---- Nothing handed out or reserved is ever taken back ----

  ghost predicate Extends(s: State, s': State) {
    && s'.cap == s.cap && s'.consumers.Keys == s.consumers.Keys
    && s.log <= s'.log && s.claimed <= s'.claimed
    && (forall p | p in s.got :: p in s'.got && s'.got[p] == s.got[p])
  }

  lemma ProducerExtends(s: State, s': State, t: nat)
    requires Shape(s) && ProducerStep(s, s', t)
    ensures Extends(s, s') && s'.got == s.got && s'.deq == s.deq && s'.consumers == s.consumers
  {
  }

  lemma ConsumerExtends(s: State, s': State, k: nat)
    requires Shape(s) && (ClaimStep(s, s', k) || SoleClaimStep(s, s', k) || TakeStep(s, s', k))
    requires forall j | j in s.consumers :: ConsumerOk(s, j, s.consumers[j])
    ensures Extends(s, s')
  {
  }

  lemma StepExtends(s: State, s': State)
    requires Inv(s) && (MpmcStep(s, s') || MpscStep(s, s'))
    ensures Extends(s, s')
  {
    var t: nat :| ProducerStep(s, s', t) || ClaimStep(s, s', t) || SoleClaimStep(s, s', t) || TakeStep(s, s', t);
    if ProducerStep(s, s', t) {
      ProducerExtends(s, s', t);
    } else {
      ConsumerExtends(s, s', t);
    }
  }

  lemma {:induction false} RunExtends(run: seq<State>, i: nat, j: nat)
    requires (MpscRun(run) || MpmcRun(run)) && i <= j < |run|
    ensures Extends(run[i], run[j])
  {
    if i < j {
      RunExtends(run, i, j - 1);
      RunInv(run, j - 1);
      assert MpscAt(run, j - 1) || MpmcAt(run, j - 1);
      StepExtends(run[j - 1], run[j]);
      ExtendsTrans(run[i], run[j - 1], run[j]);
    }
  }

  lemma ExtendsTrans(a: State, b: State, c: State)
    requires Extends(a, b) && Extends(b, c)
    ensures Extends(a, c)
  {
  }

  // ---- MPMC ----

  /** Every position handed out went to the one consumer that claimed it, with the value its
    * producer reserved it for; later states agree; and a claimed position that has not been
    * handed out yet is in the hands of its claimant.
    */
  lemma DeliveredOnce(run: seq<State>, i: nat, j: nat, p: nat)
    requires MpmcRun(run) && i <= j < |run| && p < run[i].deq
    ensures p < |run[i].claimed| <= |run[j].claimed| && run[j].claimed[p] == run[i].claimed[p]
    ensures p < |run[i].log| <= |run[j].log| && run[j].log[p] == run[i].log[p]
    ensures p in run[j].got ==> run[j].got[p] == Delivery(run[i].claimed[p], run[i].log[p])
    ensures p !in run[i].got ==>
              var k := run[i].claimed[p];
              k in run[i].consumers && HoldsCell(run[i].consumers[k]) && run[i].consumers[k].pos == p
  {
    RunInv(run, i);
    RunInv(run, j);
    RunExtends(run, i, j);
  }

  /** No cell is overwritten before its consumer has read it: a producer at work on a cell and
    * a consumer holding one are never on the same cell.
    */
  lemma NoOverwrite(run: seq<State>, i: nat, t: nat, k: nat)
    requires MpmcRun(run) && i < |run|
    requires t in run[i].producers && k in run[i].consumers && run[i].cap > 0
    requires Writes(run[i].producers[t]) && HoldsCell(run[i].consumers[k])
    ensures var w := run[i].producers[t];
            Cell(w.pos + w.i, run[i].cap) != Cell(run[i].consumers[k].pos, run[i].cap)
  {
    var s := run[i];
    RunInv(run, i);
    var w := s.producers[t];
    assert ProducerOk(s, w) && ConsumerOk(s, k, s.consumers[k]);
    Serving(s, w.pos + w.i);
  }

  ghost predicate Quiet(s: State) {
    && (forall t | t in s.producers :: !Writes(s.producers[t]))
    && (forall k | k in s.consumers :: !HoldsCell(s.consumers[k]))
  }

  /** When no thread is inside a cell, every position below the head was handed out with its
    * value, and every position from the head on sits published in its cell.
    */
  lemma NothingIsLost(run: seq<State>, i: nat)
    requires (MpscRun(run) || MpmcRun(run)) && i < |run| && Quiet(run[i])
    ensures Shape(run[i])
    ensures forall p | 0 <= p < run[i].deq :: p in run[i].got && run[i].got[p].value == run[i].log[p]
    ensures forall p | run[i].deq <= p < run[i].enq ::
              var c := Cell(p, run[i].cap); run[i].seqs[c] == p + 1 && run[i].data[c] == run[i].log[p]
  {
    var s := run[i];
    RunInv(run, i);
    forall p | s.deq <= p < s.enq
      ensures s.seqs[Cell(p, s.cap)] == p + 1 && s.data[Cell(p, s.cap)] == s.log[p]
    {
      assert s.at[Cell(p, s.cap)] == p;
    }
  }

  // The producer is inside a push and has not reserved anything.
  predicate Trying(p: Producer) {
    p.PLoad? || p.PScan? || p.PReserve?
  }

  // The position one lap before p is not released yet.
  predicate LapHeld(s: State, p: nat) {
    s.cap <= p && p - s.cap !in s.got
  }

  // The cell of an unreleased position still serves it.
  lemma UnreleasedCell(s: State, p: nat)
    requires Inv(s) && p < s.enq && p !in s.got
    ensures s.at[Cell(p, s.cap)] == p && s.seqs[Cell(p, s.cap)] <= p + 1
  {
    if p < s.deq {
      assert ConsumerOk(s, s.claimed[p], s.consumers[s.claimed[p]]);
    }
  }

  // A cell that is not free for a position from the current one on is one lap behind.
  lemma CellBehind(s: State, p: nat)
    requires Shape(s) && CellsOk(s) && s.enq <= p < s.enq + s.cap && s.seqs[Cell(p, s.cap)] != p
    ensures s.seqs[Cell(p, s.cap)] < p && s.cap <= p && s.at[Cell(p, s.cap)] == p - s.cap
  {
    var q := s.at[Cell(p, s.cap)];
    if p < q {
      SameCell(p, q, s.cap);
    } else if q < p {
      SameCell(q, p, s.cap);
      NextLap(q, s.cap);
      if q + s.cap < p {
        SameCell(q + s.cap, p, s.cap);
      }
    }
  }

  lemma BehindIsHeld(s: State, c: nat)
    requires Inv(s) && c < s.cap
    ensures s.at[c] !in s.got
  {
    if s.at[c] < s.deq {
      assert ConsumerOk(s, s.claimed[s.at[c]], s.consumers[s.claimed[s.at[c]]]);
    }
  }

  // From the current position on, a cell is free or one lap behind.
  lemma FreeOrBehind(s: State, p: nat)
    requires Inv(s) && s.enq <= p < s.enq + s.cap
    ensures s.seqs[Cell(p, s.cap)] <= p
    ensures s.seqs[Cell(p, s.cap)] < p <==> LapHeld(s, p)
  {
    if LapHeld(s, p) {
      NextLap(p - s.cap, s.cap);
      UnreleasedCell(s, p - s.cap);
    }
    if s.seqs[Cell(p, s.cap)] != p {
      CellBehind(s, p);
      BehindIsHeld(s, Cell(p, s.cap));
    }
  }

  // A scan at an old position meets no cell that is behind.
  lemma StaleScan(s: State, pos: nat)
    requires Inv(s) && pos < s.enq
    ensures pos <= s.seqs[Cell(pos, s.cap)]
  {
    var q := s.at[Cell(pos, s.cap)];
    if q < pos {
      SameCell(q, pos, s.cap);
    }
  }

  // The step itself: it gives up only at its first cell, and only if that one is behind.
  lemma GivesUpAtFirst(s: State, s': State, t: nat)
    requires Shape(s) && ProducerStep(s, s', t) && Trying(s.producers[t])
    ensures t in s'.producers
    ensures var p := s.producers[t];
            s'.producers[t].POut? <==> p.PScan? && p.r == 0 && s.seqs[Cell(p.pos, s.cap)] < p.pos
    ensures s'.producers[t].POut? ==> s' == P(s, t, POut(0))
  {
  }

  lemma GivesUp(s: State, s': State, t: nat)
    requires Inv(s) && ProducerStep(s, s', t) && Trying(s.producers[t])
    ensures t in s'.producers
    ensures s'.producers[t].POut? <==> s.producers[t].PScan? && s.producers[t].r == 0
                                       && s.producers[t].pos == s.enq && LapHeld(s, s.enq)
    ensures s'.producers[t].POut? ==> s' == P(s, t, POut(0))
  {
    GivesUpAtFirst(s, s', t);
    if s.producers[t].PScan? {
      FirstCell(s, t);
    }
  }

  lemma FirstCell(s: State, t: nat)
    requires Inv(s) && t in s.producers && s.producers[t].PScan?
    ensures var pos := s.producers[t].pos; s.seqs[Cell(pos, s.cap)] < pos <==> pos == s.enq && LapHeld(s, s.enq)
  {
    assert ProducerOk(s, s.producers[t]);
    if s.producers[t].pos == s.enq {
      FreeOrBehind(s, s.enq);
    } else {
      StaleScan(s, s.producers[t].pos);
    }
  }

  /** A push of either queue gives up, and says that it put in nothing, if and only if it finds
    * the position one lap before the current one not yet released.
    */
  lemma RefusedPush(run: seq<State>, i: nat, t: nat)
    requires (MpscRun(run) || MpmcRun(run)) && i + 1 < |run| && Shape(run[i])
    requires ProducerStep(run[i], run[i + 1], t) && Trying(run[i].producers[t])
    ensures t in run[i + 1].producers
    ensures var s := run[i]; var p := s.producers[t];
            run[i + 1].producers[t].POut? <==>
              p.PScan? && p.r == 0 && p.pos == s.enq && LapHeld(s, s.enq)
    ensures run[i + 1].producers[t].POut? ==> run[i + 1] == P(run[i], t, POut(0))
  {
    RunInv(run, i);
    GivesUp(run[i], run[i + 1], t);
  }

  // The reservation is of all the values, or of the free cells in a row from the current one on.
  ghost predicate FitsExactly(s: State, vals: seq<Value>, p: Producer) {
    && p.PReserve? && p.vals == vals && p.pos == s.enq && 0 < p.r <= |vals|
    && (p.r < |vals| ==> LapHeld(s, s.enq + p.r))
    && forall q | s.enq <= q < s.enq + p.r :: !LapHeld(s, q)
  }

  // How the scan of r free cells stops at the next one.
  predicate Stops(s: State, vals: seq<Value>, pos: nat, r: nat, p: Producer)
    requires |s.seqs| == s.cap > 0
  {
    && p.PReserve? && p.vals == vals && p.pos == pos
    && if s.seqs[Cell(pos + r, s.cap)] == pos + r then p.r == r + 1 >= |vals| else p.r == r > 0
  }

  lemma ScanStops(s: State, s': State, t: nat)
    requires Shape(s) && ProducerStep(s, s', t) && s.producers[t].PScan?
    requires t in s'.producers && s'.producers[t].PReserve?
    ensures Stops(s, s.producers[t].vals, s.producers[t].pos, s.producers[t].r, s'.producers[t])
  {
  }

  lemma StopsFit(s: State, vals: seq<Value>, pos: nat, r: nat, p: Producer)
    requires Inv(s) && pos == s.enq && r < |vals| <= s.cap && FreeFrom(s, pos, r) && Stops(s, vals, pos, r, p)
    ensures FitsExactly(s, vals, p)
  {
    FreeOrBehind(s, pos + r);
    FreeInARow(s, pos, r);
  }

  lemma StopsScanning(s: State, s': State, t: nat)
    requires Inv(s) && ProducerStep(s, s', t) && s.producers[t].PScan? && s.producers[t].pos == s.enq
    requires t in s'.producers && s'.producers[t].PReserve?
    ensures FitsExactly(s, s.producers[t].vals, s'.producers[t])
  {
    assert ProducerOk(s, s.producers[t]);
    ScanStops(s, s', t);
    StopsFit(s, s.producers[t].vals, s.producers[t].pos, s.producers[t].r, s'.producers[t]);
  }

  lemma FreeInARow(s: State, pos: nat, r: nat)
    requires Inv(s) && pos == s.enq && r <= s.cap && FreeFrom(s, pos, r)
    ensures forall q | pos <= q < pos + r :: !LapHeld(s, q)
  {
    forall q: nat | pos <= q < pos + r
      ensures !LapHeld(s, q)
    {
      FreeOrBehind(s, q);
    }
  }

  /** A push that stops scanning at the current position reserves all its values, or as many as
    * there are free cells in a row.
    */
  lemma TakesWhatFits(run: seq<State>, i: nat, t: nat)
    requires (MpscRun(run) || MpmcRun(run)) && i + 1 < |run| && Shape(run[i])
    requires ProducerStep(run[i], run[i + 1], t) && run[i].producers[t].PScan?
    requires run[i].producers[t].pos == run[i].enq && t in run[i + 1].producers && run[i + 1].producers[t].PReserve?
    ensures FitsExactly(run[i], run[i].producers[t].vals, run[i + 1].producers[t])
  {
    RunInv(run, i);
    StopsScanning(run[i], run[i + 1], t);
  }

  /** A finished push says how many values it put in: those of its batch. */
  lemma PushTells(run: seq<State>, i: nat, t: nat)
    requires (MpscRun(run) || MpmcRun(run)) && i + 1 < |run| && Shape(run[i])
    requires ProducerStep(run[i], run[i + 1], t) && Writes(run[i].producers[t])
    ensures t in run[i + 1].producers
    ensures run[i + 1].producers[t].POut? ==>
              var w := run[i].producers[t];
              && run[i + 1].producers[t].put == w.r <= |w.vals| && w.pos + w.r <= |run[i + 1].log|
              && run[i + 1].log[w.pos..w.pos + w.r] == w.vals[..w.r]
  {
    BatchIsContiguous(run, i, i + 1, t);
  }

  // The next position to be popped is not there yet: not reserved, or not published.
  ghost predicate NotReady(s: State) {
    s.deq == s.enq || exists t :: t in s.producers && Reserved(s.producers[t], s.deq)
  }

  lemma ReadyCell(s: State)
    requires Inv(s)
    ensures s.seqs[Cell(s.deq, s.cap)] <= s.deq + 1
    ensures s.seqs[Cell(s.deq, s.cap)] == s.deq + 1 <==> !NotReady(s)
  {
    var q := s.at[Cell(s.deq, s.cap)];
    if s.deq < q {
      SameCell(s.deq, q, s.cap);
    }
    if s.deq < s.enq {
      assert s.at[Cell(s.deq, s.cap)] == s.deq;
      if t :| t in s.producers && Reserved(s.producers[t], s.deq) {
        ReservedBelow(s, t, s.deq);
      }
    }
  }

  // The cell of a position popped before is not waiting for its value.
  lemma StaleClaim(s: State, pos: nat)
    requires Inv(s) && pos < s.deq
    ensures pos + 1 <= s.seqs[Cell(pos, s.cap)]
  {
    var q := s.at[Cell(pos, s.cap)];
    if q < pos {
      SameCell(q, pos, s.cap);
    }
    if q < s.deq {
      assert ConsumerOk(s, s.claimed[q], s.consumers[s.claimed[q]]);
    }
  }

  /** A pop of the MPMC queue that has not claimed a position gives up if and only if it is at the
    * current position, and that one is not reserved or its producer has not finished storing.
    */
  lemma RefusedPop(run: seq<State>, i: nat, k: nat)
    requires MpmcRun(run) && i + 1 < |run| && Shape(run[i]) && ClaimStep(run[i], run[i + 1], k)
    requires run[i].consumers[k] != COut
    ensures k in run[i + 1].consumers
    ensures var c := run[i].consumers[k];
            run[i + 1].consumers[k] == COut <==> c == CScan(run[i].deq) && NotReady(run[i])
    ensures run[i + 1].consumers[k] == COut ==> run[i + 1] == C(run[i], k, COut)
  {
    var s := run[i];
    RunInv(run, i);
    assert ConsumerOk(s, k, s.consumers[k]);
    ReadyCell(s);
    if s.consumers[k].CScan? && s.consumers[k].pos < s.deq {
      StaleClaim(s, s.consumers[k].pos);
    }
  }

  // ---- MPSC ----

  // What the only consumer has handed out, in position order.
  ghost predicate Popped(s: State, n: nat) {
    && n <= |s.log| && (forall p: nat :: p in s.got <==> p < n)
    && forall p | 0 <= p < n :: s.got[p].value == s.log[p]
  }

  function Released(s: State): int
    requires 0 in s.consumers
  {
    if HoldsCell(s.consumers[0]) then s.deq - 1 else s.deq
  }

  // With one consumer only the last claimed position can be unreleased.
  ghost predicate LastOnly(s: State) {
    && s.consumers.Keys == {0}
    && (HoldsCell(s.consumers[0]) ==> s.consumers[0].pos + 1 == s.deq)
    && (forall p: nat | p < s.deq && p !in s.got :: p + 1 == s.deq && HoldsCell(s.consumers[0]))
  }

  lemma ConsumerLastOnly(s: State, s': State)
    requires Shape(s) && LastOnly(s) && ConsumerOk(s, 0, s.consumers[0])
    requires SoleClaimStep(s, s', 0) || TakeStep(s, s', 0)
    ensures LastOnly(s')
  {
  }

  lemma StepLastOnly(s: State, s': State)
    requires Inv(s) && LastOnly(s) && MpscStep(s, s')
    ensures LastOnly(s')
  {
    var t: nat :| ProducerStep(s, s', t) || SoleClaimStep(s, s', t) || TakeStep(s, s', t);
    if ProducerStep(s, s', t) {
      ProducerExtends(s, s', t);
    } else {
      ConsumerLastOnly(s, s');
    }
  }

  lemma InitLastOnly(s: State)
    requires Init(s) && s.consumers.Keys == {0}
    ensures LastOnly(s)
  {
  }

  lemma {:induction false} RunLastOnly(run: seq<State>, i: nat)
    requires MpscRun(run) && i < |run|
    ensures LastOnly(run[i])
  {
    if i == 0 {
      InitLastOnly(run[0]);
    } else {
      RunLastOnly(run, i - 1);
      RunInv(run, i - 1);
      assert MpscAt(run, i - 1);
      StepLastOnly(run[i - 1], run[i]);
    }
  }

  lemma PoppedPrefix(s: State)
    requires Inv(s) && LastOnly(s)
    ensures 0 <= Released(s) && Popped(s, Released(s))
  {
    var n := Released(s);
    if HoldsCell(s.consumers[0]) {
      assert ConsumerOk(s, 0, s.consumers[0]);
    }
    forall p: nat
      ensures p in s.got <==> p < n
    {
      if p in s.got {
        assert p < s.deq;
      }
    }
  }

  /** FIFO: in every state of every run the values popped are the first values in reservation
    * order, each exactly once; and as the run goes on that sequence is only extended.
    */
  lemma PopsInReservationOrder(run: seq<State>, i: nat, j: nat)
    requires MpscRun(run) && i <= j < |run|
    ensures 0 in run[i].consumers && 0 <= Released(run[i]) && Popped(run[i], Released(run[i]))
    ensures 0 in run[j].consumers && Released(run[i]) <= Released(run[j])
    ensures run[i].log <= run[j].log
  {
    RunInv(run, i);
    RunInv(run, j);
    RunLastOnly(run, i);
    RunLastOnly(run, j);
    PoppedPrefix(run[i]);
    PoppedPrefix(run[j]);
    RunExtends(run, i, j);
    if Released(run[i]) > 0 {
      assert Released(run[i]) - 1 in run[i].got;
    }
  }

  /** A batch is reserved in one piece, and from then on its values stand next to each other in
    * reservation order.
    */
  lemma BatchIsContiguous(run: seq<State>, i: nat, j: nat, t: nat)
    requires (MpscRun(run) || MpmcRun(run)) && i <= j < |run|
    requires t in run[i].producers && Writes(run[i].producers[t])
    ensures var w := run[i].producers[t];
            w.r <= |w.vals| && w.pos + w.r <= |run[j].log| && run[j].log[w.pos..w.pos + w.r] == w.vals[..w.r]
  {
    RunInv(run, i);
    assert ProducerOk(run[i], run[i].producers[t]);
    RunExtends(run, i, j);
    var w := run[i].producers[t];
    assert run[j].log[w.pos..w.pos + w.r] == run[i].log[w.pos..w.pos + w.r];
  }

  /** The only consumer pops the values of a batch one after the other. */
  lemma BatchIsPoppedInOrder(run: seq<State>, i: nat, j: nat, t: nat, k: nat)
    requires MpscRun(run) && i <= j < |run| && t in run[i].producers && Writes(run[i].producers[t])
    requires k < run[i].producers[t].r
    ensures 0 in run[j].consumers && k < |run[i].producers[t].vals|
    ensures var w := run[i].producers[t];
            w.pos + k < Released(run[j]) ==>
              w.pos + k in run[j].got && run[j].got[w.pos + k].value == w.vals[k]
  {
    var w := run[i].producers[t];
    BatchIsContiguous(run, i, j, t);
    PopsInReservationOrder(run, j, j);
    assert run[j].log[w.pos + k] == run[j].log[w.pos..w.pos + w.r][k];
  }

  // With one consumer, every unreleased reserved position is served by its cell.
  lemma UnreleasedServed(s: State, p: nat)
    requires Inv(s) && LastOnly(s) && Released(s) <= p < s.enq
    ensures s.at[Cell(p, s.cap)] == p
  {
    if p < s.deq {
      assert ConsumerOk(s, 0, s.consumers[0]);
    }
  }

  /** A push of the MPSC queue gives up if and only if exactly `capacity` positions are reserved
    * and not yet released when it looks at the first cell of the current position.
    */
  lemma FullMeansFull(run: seq<State>, i: nat, t: nat)
    requires MpscRun(run) && i + 1 < |run| && Shape(run[i])
    requires ProducerStep(run[i], run[i + 1], t) && Trying(run[i].producers[t])
    ensures t in run[i + 1].producers && 0 in run[i].consumers
    ensures var s := run[i]; var p := s.producers[t];
            run[i + 1].producers[t].POut? <==>
              p.PScan? && p.r == 0 && p.pos == s.enq && s.enq == Released(s) + s.cap
  {
    RefusedPush(run, i, t);
    RunInv(run, i);
    RunLastOnly(run, i);
    UnreleasedFrom(run[i], run[i].enq);
  }

  // The position one lap before p is unreleased exactly from `Released` on.
  lemma UnreleasedFrom(s: State, p: nat)
    requires Inv(s) && LastOnly(s) && s.enq <= p < s.enq + s.cap
    ensures LapHeld(s, p) <==> Released(s) + s.cap <= p
    ensures s.enq <= Released(s) + s.cap
  {
    PoppedPrefix(s);
    if Released(s) < s.enq {
      UnreleasedServed(s, Released(s));
      assert s.enq <= s.at[Cell(Released(s), s.cap)] + s.cap;
    }
  }

  /** A pop of the MPSC queue gives up if and only if nothing is reserved, or the producer of the
    * next position has not finished storing its value.
    */
  lemma EmptyMeansNotReady(run: seq<State>, i: nat, k: nat)
    requires MpscRun(run) && i + 1 < |run| && Shape(run[i]) && SoleClaimStep(run[i], run[i + 1], k)
    ensures k in run[i + 1].consumers && (run[i + 1].consumers[k] == COut <==> NotReady(run[i]))
    ensures run[i + 1].consumers[k] == COut ==> run[i + 1] == run[i]
  {
    RunInv(run, i);
    ReadyCell(run[i]);
  }
}
