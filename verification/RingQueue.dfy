/** The bounded MPSC and MPMC queues: a ring of cells with a sequence number each, as a step
  * machine with one atomic access per step. Positions count up without bound here;
  * `QueueCapacity` ties them to the wrapped words of the code.
  *
  * A push of one value is a batch of one: the two push loops take the same steps then.
  */
module RingQueue {
  import Bits

  type Value = nat

  function Cell(p: nat, cap: nat): (c: nat)
    requires cap > 0
    ensures c < cap
  {
    p % cap
  }

  datatype Producer =
    | POut(put: nat)                                               // history: how many values the last push put in
    | PLoad(vals: seq<Value>)                                      // load enqueue_pos_
    | PScan(vals: seq<Value>, pos: nat, r: nat)                    // load the sequence of cell pos + r
    | PReserve(vals: seq<Value>, pos: nat, r: nat)                 // CAS enqueue_pos_: pos -> pos + r
    | PWrite(vals: seq<Value>, pos: nat, r: nat, i: nat)           // write the data of cell pos + i
    | PPublish(vals: seq<Value>, pos: nat, r: nat, i: nat)         // store the sequence of cell pos + i

  datatype Consumer =
    | COut
    | CLoad                                                        // load dequeue_pos_
    | CScan(pos: nat)                                              // load the sequence of cell pos
    | CClaim(pos: nat)                                             // CAS dequeue_pos_: pos -> pos + 1
    | CRead(pos: nat)                                              // read the data of cell pos
    | CRelease(pos: nat, value: Value)                             // store the sequence of cell pos

  datatype Delivery = Delivery(consumer: nat, value: Value)

  datatype State = State(
    cap: nat,
    enq: nat,
    deq: nat,
    seqs: seq<nat>,
    data: seq<Value>,
    producers: map<nat, Producer>,
    consumers: map<nat, Consumer>,
    at: seq<nat>,                      // history: the position each cell is serving
    log: seq<Value>,                   // history: values in reservation order
    claimed: seq<nat>,                 // history: which consumer claimed each position
    got: map<nat, Delivery>)           // history: what was handed out for each position

  ghost predicate Init(s: State) {
    && s.cap >= 2 && s.enq == 0 && s.deq == 0
    && |s.seqs| == |s.data| == |s.at| == s.cap
    && (forall c | 0 <= c < s.cap :: s.seqs[c] == c && s.at[c] == c)
    && (forall t | t in s.producers :: s.producers[t].POut?)
    && (forall k | k in s.consumers :: s.consumers[k] == COut)
    && s.log == [] && s.claimed == [] && s.got == map[]
  }

  function P(s: State, t: nat, p: Producer): State {
    s.(producers := s.producers[t := p])
  }

  function C(s: State, k: nat, c: Consumer): State {
    s.(consumers := s.consumers[k := c])
  }

  // The scan stops after r free cells: reserve them if there are any.
  function Stop(vals: seq<Value>, pos: nat, r: nat, otherwise: Producer): Producer {
    if r > 0 then PReserve(vals, pos, r) else otherwise
  }

  ghost predicate ProducerStep(s: State, s': State, t: nat)
    requires |s.seqs| == |s.data| == s.cap > 0
  {
    && t in s.producers
    && match s.producers[t]
       case POut(_) =>
         && t in s'.producers && s'.producers[t].PLoad? && 0 < |s'.producers[t].vals| <= s.cap
         && s' == P(s, t, s'.producers[t])
       case PLoad(vals) => s' == P(s, t, PScan(vals, s.enq, 0))
       case PScan(vals, pos, r) =>
         var q := s.seqs[Cell(pos + r, s.cap)];
         s' == P(s, t,
                 if q == pos + r then (if r + 1 < |vals| then PScan(vals, pos, r + 1) else PReserve(vals, pos, r + 1))
                 else if q < pos + r then Stop(vals, pos, r, POut(0))      // full
                 else Stop(vals, pos, r, PLoad(vals)))                     // the position is stale
       case PReserve(vals, pos, r) =>
         || s' == P(s, t, PScan(vals, s.enq, 0))
         || (s.enq == pos && r <= |vals|
             && s' == P(s, t, PWrite(vals, pos, r, 0)).(enq := pos + r, log := s.log + vals[..r]))
       case PWrite(vals, pos, r, i) =>
         i < |vals|
         && s' == P(s, t, PPublish(vals, pos, r, i)).(data := s.data[Cell(pos + i, s.cap) := vals[i]])
       case PPublish(vals, pos, r, i) =>
         s' == P(s, t, if i + 1 < r then PWrite(vals, pos, r, i + 1) else POut(r))
               .(seqs := s.seqs[Cell(pos + i, s.cap) := pos + i + 1])
  }

  // Reading and releasing a claimed cell; the same for both queues.
  ghost predicate TakeStep(s: State, s': State, k: nat)
    requires |s.seqs| == |s.data| == |s.at| == s.cap > 0
  {
    && k in s.consumers
    && match s.consumers[k]
       case CRead(pos) => s' == C(s, k, CRelease(pos, s.data[Cell(pos, s.cap)]))
       case CRelease(pos, value) =>
         s' == C(s, k, COut).(seqs := s.seqs[Cell(pos, s.cap) := pos + s.cap],
                              at := s.at[Cell(pos, s.cap) := pos + s.cap],
                              got := s.got[pos := Delivery(k, value)])
       case _ => false
  }

  // Claiming in the MPMC queue.
  ghost predicate ClaimStep(s: State, s': State, k: nat)
    requires |s.seqs| == s.cap > 0
  {
    && k in s.consumers
    && match s.consumers[k]
       case COut => s' == C(s, k, CLoad)
       case CLoad => s' == C(s, k, CScan(s.deq))
       case CScan(pos) =>
         var q := s.seqs[Cell(pos, s.cap)];
         s' == C(s, k, if q == pos + 1 then CClaim(pos) else if q < pos + 1 then COut else CLoad)
       case CClaim(pos) =>
         || s' == C(s, k, CScan(s.deq))
         || (s.deq == pos && s' == C(s, k, CRead(pos)).(deq := pos + 1, claimed := s.claimed + [k]))
       case _ => false
  }

  // Claiming in the MPSC queue: dequeue_pos_ is private to the only consumer.
  ghost predicate SoleClaimStep(s: State, s': State, k: nat)
    requires |s.seqs| == s.cap > 0
  {
    && k in s.consumers && s.consumers[k] == COut
    && s' == if s.seqs[Cell(s.deq, s.cap)] == s.deq + 1
             then C(s, k, CRead(s.deq)).(deq := s.deq + 1, claimed := s.claimed + [k])
             else s
  }

  ghost predicate Shape(s: State) {
    && s.cap >= 2 && |s.seqs| == |s.data| == |s.at| == s.cap
    && s.deq <= s.enq == |s.log| && |s.claimed| == s.deq
  }

  ghost predicate MpmcStep(s: State, s': State) {
    Shape(s) && exists t: nat :: ProducerStep(s, s', t) || ClaimStep(s, s', t) || TakeStep(s, s', t)
  }

  ghost predicate MpscStep(s: State, s': State) {
    Shape(s) && exists t: nat :: ProducerStep(s, s', t) || SoleClaimStep(s, s', t) || TakeStep(s, s', t)
  }

  // ---- The invariant ----

  predicate HoldsCell(c: Consumer) {
    c.CRead? || c.CRelease?
  }

  predicate Writes(p: Producer) {
    p.PWrite? || p.PPublish?
  }

  // Producer p has reserved position q and not yet published it.
  predicate Reserved(p: Producer, q: nat) {
    Writes(p) && p.pos + p.i <= q < p.pos + p.r
  }

  ghost predicate CellsOk(s: State)
    requires Shape(s)
  {
    forall c | 0 <= c < s.cap ::
      && Cell(s.at[c], s.cap) == c && s.enq <= s.at[c] + s.cap && s.at[c] < s.deq + s.cap
      && (s.seqs[c] == s.at[c] || (s.seqs[c] == s.at[c] + 1 && s.at[c] < s.enq && s.data[c] == s.log[s.at[c]]))
  }

  // Every position between the two ends is served by its cell.
  ghost predicate WindowOk(s: State)
    requires Shape(s)
  {
    forall p | s.deq <= p < s.enq :: s.at[Cell(p, s.cap)] == p
  }

  // A cell whose position was claimed and not released is in a consumer's hands.
  ghost predicate LateCellsHeld(s: State)
    requires Shape(s)
  {
    forall c | 0 <= c < s.cap && s.at[c] < s.deq ::
      var k := s.claimed[s.at[c]]; k in s.consumers && HoldsCell(s.consumers[k]) && s.consumers[k].pos == s.at[c]
  }

  ghost predicate ConsumerOk(s: State, k: nat, c: Consumer)
    requires Shape(s)
  {
    && (HoldsCell(c) ==>
        && c.pos < s.deq && s.claimed[c.pos] == k && s.at[Cell(c.pos, s.cap)] == c.pos
        && s.seqs[Cell(c.pos, s.cap)] == c.pos + 1 && c.pos !in s.got)
    && (c.CRelease? ==> c.value == s.log[c.pos])
    && (c.CScan? || c.CClaim? ==> c.pos <= s.deq)
    && (c.CClaim? && c.pos == s.deq ==> s.deq < s.enq && s.seqs[Cell(c.pos, s.cap)] == c.pos + 1)
  }

  ghost predicate ProducerOk(s: State, p: Producer)
    requires Shape(s)
  {
    match p
    case POut(_) => true
    case PLoad(vals) => 0 < |vals| <= s.cap
    case PScan(vals, pos, r) => r < |vals| <= s.cap && FreeFrom(s, pos, r)
    case PReserve(vals, pos, r) => 0 < r <= |vals| <= s.cap && FreeFrom(s, pos, r)
    case PWrite(vals, pos, r, i) => i < r <= |vals| <= s.cap && Pending(s, vals, pos, r, i)
    case PPublish(vals, pos, r, i) =>
      && i < r <= |vals| <= s.cap && Pending(s, vals, pos, r, i)
      && (forall q | pos + i <= q <= pos + i :: s.data[Cell(q, s.cap)] == vals[i])
  }

  // If nobody reserved since, the scanned cells are still free.
  ghost predicate FreeFrom(s: State, pos: nat, r: nat)
    requires Shape(s)
  {
    && pos <= s.enq
    && (pos == s.enq ==> forall q | pos <= q < pos + r :: s.seqs[Cell(q, s.cap)] == q)
  }

  // A reserved batch is logged in one piece; its rest is unpublished and unclaimed.
  ghost predicate Pending(s: State, vals: seq<Value>, pos: nat, r: nat, i: nat)
    requires Shape(s)
  {
    && s.deq <= pos + i && pos + r <= s.enq && r <= |vals|
    && s.log[pos..pos + r] == vals[..r]
    && forall q | pos + i <= q < pos + r :: s.seqs[Cell(q, s.cap)] == q
  }

  ghost predicate ProducersApart(s: State) {
    forall t, u, q | t in s.producers && u in s.producers
                     && Reserved(s.producers[t], q) && Reserved(s.producers[u], q) :: t == u
  }

  // A reserved position that is not published has a producer at work on it.
  ghost predicate UnpublishedReserved(s: State)
    requires Shape(s)
  {
    forall q | s.deq <= q < s.enq && s.seqs[Cell(q, s.cap)] == q ::
      exists t :: t in s.producers && Reserved(s.producers[t], q)
  }

  ghost predicate DeliveriesOk(s: State)
    requires Shape(s)
  {
    && (forall p | p in s.got :: p < s.deq && s.got[p] == Delivery(s.claimed[p], s.log[p]))
    && (forall p | 0 <= p < s.deq && p !in s.got ::
          s.claimed[p] in s.consumers && HoldsCell(s.consumers[s.claimed[p]]) && s.consumers[s.claimed[p]].pos == p)
  }

  ghost predicate Inv(s: State) {
    && Shape(s) && CellsOk(s) && WindowOk(s) && LateCellsHeld(s)
    && (forall t | t in s.producers :: ProducerOk(s, s.producers[t]))
    && (forall k | k in s.consumers :: ConsumerOk(s, k, s.consumers[k]))
    && ProducersApart(s) && UnpublishedReserved(s) && DeliveriesOk(s)
  }

  // ---- Facts about cells ----

  lemma SameCell(p: nat, q: nat, cap: nat)
    requires cap > 0 && p < q && Cell(p, cap) == Cell(q, cap)
    ensures p + cap <= q
  {
    var a, b := p / cap, q / cap;
    if a != b {
      Bits.MulStep(if a < b then a else b, if a < b then b else a, cap);
    }
  }

  lemma NextCell(p: nat, cap: nat)
    requires cap >= 2
    ensures Cell(p + 1, cap) != Cell(p, cap)
  {
    if Cell(p + 1, cap) == Cell(p, cap) {
      SameCell(p, p + 1, cap);
    }
  }

  lemma NextLap(p: nat, cap: nat)
    requires cap > 0
    ensures Cell(p + cap, cap) == Cell(p, cap)
  {
    Bits.RemainderIs(p + cap, cap, p / cap + 1, p % cap);
  }

  // The sequence of a cell tells which position it is serving.
  lemma Serving(s: State, p: nat)
    requires Shape(s) && CellsOk(s)
    ensures s.seqs[Cell(p, s.cap)] == p ==> s.at[Cell(p, s.cap)] == p
    ensures s.seqs[Cell(p, s.cap)] == p + 1 ==> s.at[Cell(p, s.cap)] == p
  {
    var c := Cell(p, s.cap);
    if s.seqs[c] == p && s.at[c] != p {
      SameCell(s.at[c], p, s.cap);
    }
    if s.seqs[c] == p + 1 && s.at[c] != p {
      SameCell(p, s.at[c], s.cap);
    }
  }

  lemma InitInv(s: State)
    requires Init(s)
    ensures Inv(s)
  {
    forall c | 0 <= c < s.cap
      ensures Cell(c, s.cap) == c
    {
      Bits.RemainderIs(c, s.cap, 0, c);
    }
  }

  // ---- Producers ----

  // Steps that only move the program counter of producer t.
  lemma ProducerMoves(s: State, t: nat, p: Producer)
    requires Inv(s) && t in s.producers && !Writes(s.producers[t]) && !Writes(p) && ProducerOk(s, p)
    ensures Inv(P(s, t, p))
  {
    var s' := P(s, t, p);
    forall u | u in s'.producers
      ensures ProducerOk(s', s'.producers[u])
    {
      assert u != t ==> ProducerOk(s, s.producers[u]);
    }
    forall q | s'.deq <= q < s'.enq && s'.seqs[Cell(q, s'.cap)] == q
      ensures exists u :: u in s'.producers && Reserved(s'.producers[u], q)
    {
      var u :| u in s.producers && Reserved(s.producers[u], q);
      assert Reserved(s'.producers[u], q);
    }
  }

  lemma ScanStepOk(s: State, t: nat, s': State)
    requires Shape(s) && t in s.producers && ProducerOk(s, s.producers[t])
    requires s.producers[t].PScan? && ProducerStep(s, s', t)
    ensures t in s'.producers && s' == P(s, t, s'.producers[t]) && ProducerOk(s, s'.producers[t])
    ensures forall q :: !Reserved(s.producers[t], q) && !Reserved(s'.producers[t], q)
  {
  }

  lemma ScanKeeps(s: State, t: nat, s': State)
    requires Inv(s) && t in s.producers && s.producers[t].PScan? && ProducerStep(s, s', t)
    ensures Inv(s')
  {
    assert ProducerOk(s, s.producers[t]);
    ScanStepOk(s, t, s');
    ProducerMoves(s, t, s'.producers[t]);
  }

  // Reserving r positions that were scanned free.
  lemma ReserveKeepsCells(s: State, s': State, pos: nat, r: nat, more: seq<Value>)
    requires Inv(s) && s.enq == pos && FreeFrom(s, pos, r) && |more| == r
    requires s'.cap == s.cap && s'.seqs == s.seqs && s'.at == s.at && s'.data == s.data && s'.deq == s.deq
    requires s'.claimed == s.claimed && s'.enq == pos + r && s'.log == s.log + more
    ensures Shape(s') && CellsOk(s') && WindowOk(s')
  {
    forall q | pos <= q < pos + r
      ensures s.at[Cell(q, s.cap)] == q
    {
      Serving(s, q);
    }
    forall c | 0 <= c < s.cap
      ensures pos + r <= s.at[c] + s.cap
    {
      NextLap(s.at[c], s.cap);
      assert pos <= s.at[c] + s.cap;
    }
  }

  // What a producer knows survives when others reserve.
  lemma ReserveElsewhere(s: State, s': State, p: Producer)
    requires Shape(s) && Shape(s') && ProducerOk(s, p)
    requires s'.cap == s.cap && s'.seqs == s.seqs && s'.data == s.data && s'.deq == s.deq
    requires s.enq < s'.enq && s.log <= s'.log
    ensures ProducerOk(s', p)
  {
  }

  lemma ReservedBelow(s: State, u: nat, q: nat)
    requires Shape(s) && u in s.producers && ProducerOk(s, s.producers[u]) && Reserved(s.producers[u], q)
    ensures s.deq <= q < s.enq && s.seqs[Cell(q, s.cap)] == q
  {
  }

  lemma ReserveKeepsOwners(s: State, s': State, t: nat, vals: seq<Value>, pos: nat, r: nat)
    requires Inv(s) && t in s.producers && s.producers[t] == PReserve(vals, pos, r) && s.enq == pos
    requires s'.producers == s.producers[t := PWrite(vals, pos, r, 0)] && Shape(s')
    requires s'.cap == s.cap && s'.seqs == s.seqs && s'.deq == s.deq && s'.enq == pos + r
    ensures ProducersApart(s') && UnpublishedReserved(s')
  {
    forall u, q: nat | u in s.producers && Reserved(s.producers[u], q)
      ensures q < pos
    {
      ReservedBelow(s, u, q);
    }
    forall q | s'.deq <= q < s'.enq && s'.seqs[Cell(q, s'.cap)] == q
      ensures exists u :: u in s'.producers && Reserved(s'.producers[u], q)
    {
      if q < pos {
        var u :| u in s.producers && Reserved(s.producers[u], q);
        assert Reserved(s'.producers[u], q);
      } else {
        assert Reserved(s'.producers[t], q);
      }
    }
  }

  lemma ReserveKeeps(s: State, t: nat, s': State)
    requires Inv(s) && t in s.producers && s.producers[t].PReserve? && ProducerStep(s, s', t)
    ensures Inv(s')
  {
    assert ProducerOk(s, s.producers[t]);
    var PReserve(vals, pos, r) := s.producers[t];
    if s'.enq == s.enq {
      ProducerMoves(s, t, PScan(vals, s.enq, 0));
    } else {
      ReserveKeepsCells(s, s', pos, r, vals[..r]);
      ReserveKeepsOwners(s, s', t, vals, pos, r);
      forall u | u in s'.producers
        ensures ProducerOk(s', s'.producers[u])
      {
        if u != t {
          ReserveElsewhere(s, s', s.producers[u]);
        }
      }
      forall k | k in s'.consumers
        ensures ConsumerOk(s', k, s'.consumers[k])
      {
        assert ConsumerOk(s, k, s.consumers[k]);
      }
    }
  }

  // Two producers at work on cells never share one.
  lemma CellsApart(s: State, t: nat, u: nat, p: nat, q: nat)
    requires Inv(s) && t in s.producers && u in s.producers
    requires Reserved(s.producers[t], p) && Reserved(s.producers[u], q)
    requires Cell(p, s.cap) == Cell(q, s.cap)
    ensures t == u && p == q
  {
    assert ProducerOk(s, s.producers[t]) && ProducerOk(s, s.producers[u]);
    assert s.seqs[Cell(p, s.cap)] == p && s.seqs[Cell(q, s.cap)] == q;
  }

  // Writing data touches no cell that another producer or a reader depends on.
  lemma WriteElsewhere(s: State, s': State, p: Producer, c: nat)
    requires Shape(s) && Shape(s') && ProducerOk(s, p) && c < s.cap
    requires s' == s.(producers := s'.producers, data := s'.data)
    requires forall d | 0 <= d < s.cap && d != c :: s'.data[d] == s.data[d]
    requires p.PPublish? ==> Cell(p.pos + p.i, s.cap) != c
    ensures ProducerOk(s', p)
  {
  }

  lemma WriteMoves(s: State, t: nat, s': State)
    requires Shape(s) && t in s.producers && s.producers[t].PWrite? && ProducerStep(s, s', t)
    ensures var PWrite(vals, pos, r, i) := s.producers[t];
            && i < |vals| && t in s'.producers && s'.producers[t] == PPublish(vals, pos, r, i)
            && s'.data == s.data[Cell(pos + i, s.cap) := vals[i]]
    ensures s' == s.(producers := s'.producers, data := s'.data)
  {
  }

  lemma WriteKeepsOwn(s: State, t: nat, s': State)
    requires Shape(s) && t in s.producers && ProducerOk(s, s.producers[t])
    requires s.producers[t].PWrite? && ProducerStep(s, s', t) && Shape(s')
    ensures t in s'.producers && ProducerOk(s', s'.producers[t])
    ensures Reserved(s.producers[t], s.producers[t].pos + s.producers[t].i)
  {
    WriteMoves(s, t, s');
    var PWrite(vals, pos, r, i) := s.producers[t];
    assert Pending(s', vals, pos, r, i);
  }

  lemma WriteKeepsOther(s: State, t: nat, s': State, p: nat, u: nat)
    requires Inv(s) && t in s.producers && u in s.producers && u != t && Reserved(s.producers[t], p)
    requires Shape(s') && u in s'.producers && s'.producers[u] == s.producers[u]
    requires s' == s.(producers := s'.producers, data := s'.data)
    requires s'.data == s.data[Cell(p, s.cap) := s'.data[Cell(p, s.cap)]]
    ensures ProducerOk(s', s'.producers[u])
  {
    assert ProducerOk(s, s.producers[u]);
    if s.producers[u].PPublish? {
      var q := s.producers[u].pos + s.producers[u].i;
      assert Reserved(s.producers[u], q);
      if Cell(q, s.cap) == Cell(p, s.cap) {
        CellsApart(s, t, u, p, q);
      }
    }
    WriteElsewhere(s, s', s.producers[u], Cell(p, s.cap));
  }

  lemma WriteKeepsProducers(s: State, t: nat, s': State)
    requires Inv(s) && t in s.producers && s.producers[t].PWrite? && ProducerStep(s, s', t) && Shape(s')
    ensures forall u | u in s'.producers :: ProducerOk(s', s'.producers[u])
  {
    assert ProducerOk(s, s.producers[t]);
    WriteKeepsOwn(s, t, s');
    var p := s.producers[t].pos + s.producers[t].i;
    forall u | u in s'.producers && u != t
      ensures ProducerOk(s', s'.producers[u])
    {
      WriteKeepsOther(s, t, s', p, u);
    }
  }

  // Same reservations, same cells: the ownership facts carry over.
  lemma OwnersCarryOver(s: State, s': State)
    requires Inv(s) && Shape(s') && s'.cap == s.cap && s'.seqs == s.seqs && s'.enq == s.enq && s.deq <= s'.deq
    requires s'.producers.Keys == s.producers.Keys
    requires forall u, q | u in s.producers :: Reserved(s'.producers[u], q) <==> Reserved(s.producers[u], q)
    ensures ProducersApart(s') && UnpublishedReserved(s')
  {
    forall q | s'.deq <= q < s'.enq && s'.seqs[Cell(q, s'.cap)] == q
      ensures exists u :: u in s'.producers && Reserved(s'.producers[u], q)
    {
      var u :| u in s.producers && Reserved(s.producers[u], q);
      assert Reserved(s'.producers[u], q);
    }
  }

  lemma WriteKeepsCells(s: State, s': State, c: nat, v: Value)
    requires Shape(s) && CellsOk(s) && c < s.cap && s.seqs[c] == s.at[c]
    requires s' == s.(producers := s'.producers, data := s.data[c := v])
    ensures Shape(s') && CellsOk(s')
  {
  }

  lemma WriteKeepsConsumers(s: State, s': State)
    requires Inv(s) && Shape(s') && s' == s.(producers := s'.producers, data := s'.data)
    ensures WindowOk(s') && LateCellsHeld(s') && DeliveriesOk(s')
    ensures forall k | k in s'.consumers :: ConsumerOk(s', k, s'.consumers[k])
  {
    forall k | k in s'.consumers
      ensures ConsumerOk(s', k, s'.consumers[k])
    {
      assert ConsumerOk(s, k, s.consumers[k]);
    }
  }

  lemma WriteKeeps(s: State, t: nat, s': State)
    requires Inv(s) && t in s.producers && s.producers[t].PWrite? && ProducerStep(s, s', t)
    ensures Inv(s')
  {
    var PWrite(vals, pos, r, i) := s.producers[t];
    assert ProducerOk(s, s.producers[t]);
    assert s' == s.(producers := s'.producers, data := s.data[Cell(pos + i, s.cap) := vals[i]]);
    assert s.seqs[Cell(pos + i, s.cap)] == pos + i;
    Serving(s, pos + i);
    WriteKeepsCells(s, s', Cell(pos + i, s.cap), vals[i]);
    WriteKeepsProducers(s, t, s');
    SameReservations(s, s', t);
    OwnersCarryOver(s, s');
    WriteKeepsConsumers(s, s');
  }

  lemma SameReservations(s: State, s': State, t: nat)
    requires t in s.producers && s.producers[t].PWrite?
    requires s'.producers == s.producers[t := PPublish(s.producers[t].vals, s.producers[t].pos, s.producers[t].r, s.producers[t].i)]
    ensures forall u, q | u in s.producers :: Reserved(s'.producers[u], q) <==> Reserved(s.producers[u], q)
  {
  }

  // What a producer knows survives a change of the sequence of a cell that is not its own.
  lemma SequenceElsewhere(s: State, s': State, p: Producer, c: nat)
    requires Shape(s) && Shape(s') && ProducerOk(s, p) && c < s.cap
    requires s'.cap == s.cap && s'.enq == s.enq && s'.deq == s.deq && s'.log == s.log && s'.data == s.data
    requires forall d | 0 <= d < s.cap && d != c :: s'.seqs[d] == s.seqs[d]
    requires forall q | Reserved(p, q) :: Cell(q, s.cap) != c
    requires forall q | q >= s.enq && s.seqs[Cell(q, s.cap)] == q :: Cell(q, s.cap) != c
    ensures ProducerOk(s', p)
  {
    if Writes(p) {
      forall q | p.pos + p.i <= q < p.pos + p.r
        ensures s'.seqs[Cell(q, s.cap)] == q
      {
        assert Reserved(p, q);
      }
    }
  }

  lemma PublishElsewhere(s: State, t: nat, p: nat, u: nat, w: Producer)
    requires Inv(s) && t in s.producers && u in s.producers && Reserved(s.producers[t], p)
    requires forall q | Reserved(w, q) :: Reserved(s.producers[u], q) && !(u == t && q == p)
    ensures forall q: nat | Reserved(w, q) :: Cell(q, s.cap) != Cell(p, s.cap)
    ensures forall q: nat | q >= s.enq && s.seqs[Cell(q, s.cap)] == q :: Cell(q, s.cap) != Cell(p, s.cap)
  {
    ReservedBelow(s, t, p);
    forall q: nat | Reserved(w, q)
      ensures Cell(q, s.cap) != Cell(p, s.cap)
    {
      if Cell(q, s.cap) == Cell(p, s.cap) {
        CellsApart(s, t, u, p, q);
      }
    }
  }

  // Producer t publishes position p: the cell's sequence moves on and p is no longer reserved.
  ghost predicate Publishes(s: State, s': State, t: nat, p: nat)
    requires Shape(s)
  {
    && p < s.enq && t in s.producers && Reserved(s.producers[t], p) && s.data[Cell(p, s.cap)] == s.log[p]
    && s' == s.(producers := s'.producers, seqs := s.seqs[Cell(p, s.cap) := p + 1])
    && s'.producers.Keys == s.producers.Keys
    && (forall u | u in s.producers && u != t :: s'.producers[u] == s.producers[u])
    && (forall q :: Reserved(s'.producers[t], q) <==> Reserved(s.producers[t], q) && q != p)
    && ProducerOk(s, s'.producers[t])
  }

  lemma PublishEffect(s: State, t: nat, s': State)
    requires Shape(s) && t in s.producers && s.producers[t].PPublish? && ProducerOk(s, s.producers[t])
    requires ProducerStep(s, s', t)
    ensures Publishes(s, s', t, s.producers[t].pos + s.producers[t].i)
  {
  }

  lemma PublishKeepsProducers(s: State, t: nat, s': State, p: nat)
    requires Inv(s) && p < s.enq && Publishes(s, s', t, p) && Shape(s')
    ensures forall u | u in s'.producers :: ProducerOk(s', s'.producers[u])
  {
    forall u | u in s'.producers
      ensures ProducerOk(s', s'.producers[u])
    {
      assert ProducerOk(s, s'.producers[u]);
      PublishElsewhere(s, t, p, u, s'.producers[u]);
      SequenceElsewhere(s, s', s'.producers[u], Cell(p, s.cap));
    }
  }

  lemma PublishKeepsOwners(s: State, t: nat, s': State, p: nat)
    requires Shape(s) && ProducersApart(s) && UnpublishedReserved(s)
    requires p < s.enq && Publishes(s, s', t, p) && Shape(s')
    ensures ProducersApart(s') && UnpublishedReserved(s')
  {
    NextCell(p, s.cap);
    forall q | s'.deq <= q < s'.enq && s'.seqs[Cell(q, s'.cap)] == q
      ensures exists u :: u in s'.producers && Reserved(s'.producers[u], q)
    {
      assert Cell(q, s.cap) != Cell(p, s.cap);
      var u :| u in s.producers && Reserved(s.producers[u], q);
      assert Reserved(s'.producers[u], q);
    }
  }

  lemma PublishKeepsConsumers(s: State, t: nat, s': State, p: nat)
    requires Inv(s) && s.deq <= p < s.enq && Publishes(s, s', t, p) && Shape(s')
    requires s.at[Cell(p, s.cap)] == p
    ensures WindowOk(s') && LateCellsHeld(s') && DeliveriesOk(s')
    ensures forall k | k in s'.consumers :: ConsumerOk(s', k, s'.consumers[k])
  {
    forall k | k in s'.consumers
      ensures ConsumerOk(s', k, s'.consumers[k])
    {
      assert ConsumerOk(s, k, s.consumers[k]);
    }
  }

  lemma PublishedCell(s: State, s': State, p: nat)
    requires Shape(s) && CellsOk(s) && p < s.enq && s.at[Cell(p, s.cap)] == p
    requires s.data[Cell(p, s.cap)] == s.log[p]
    requires s' == s.(producers := s'.producers, seqs := s.seqs[Cell(p, s.cap) := p + 1])
    ensures Shape(s') && CellsOk(s')
  {
  }

  lemma PublishKeeps(s: State, t: nat, s': State, p: nat)
    requires Inv(s) && Publishes(s, s', t, p)
    ensures Inv(s')
  {
    ReservedBelow(s, t, p);
    Serving(s, p);
    PublishedCell(s, s', p);
    PublishKeepsProducers(s, t, s', p);
    PublishKeepsOwners(s, t, s', p);
    PublishKeepsConsumers(s, t, s', p);
  }

  lemma PublishStepKeeps(s: State, t: nat, s': State)
    requires Inv(s) && t in s.producers && s.producers[t].PPublish? && ProducerStep(s, s', t)
    ensures Inv(s')
  {
    var p := PublishHasEffect(s, t, s');
    PublishKeeps(s, t, s', p);
  }

  lemma PublishHasEffect(s: State, t: nat, s': State) returns (p: nat)
    requires Shape(s) && (forall u | u in s.producers :: ProducerOk(s, s.producers[u]))
    requires t in s.producers && s.producers[t].PPublish? && ProducerStep(s, s', t)
    ensures Publishes(s, s', t, p)
  {
    PublishEffect(s, t, s');
    p := s.producers[t].pos + s.producers[t].i;
  }

  lemma EnterKeeps(s: State, t: nat, s': State)
    requires Inv(s) && t in s.producers && (s.producers[t].POut? || s.producers[t].PLoad?) && ProducerStep(s, s', t)
    ensures Inv(s')
  {
    assert ProducerOk(s, s.producers[t]);
    ProducerMoves(s, t, s'.producers[t]);
  }

  lemma ProducerKeeps(s: State, t: nat, s': State)
    requires Inv(s) && ProducerStep(s, s', t)
    ensures Inv(s')
  {
    var p := s.producers[t];
    if p.PScan? {
      ScanKeeps(s, t, s');
    } else if p.PReserve? {
      ReserveKeeps(s, t, s');
    } else if p.PWrite? {
      WriteKeeps(s, t, s');
    } else if p.PPublish? {
      PublishStepKeeps(s, t, s');
    } else {
      EnterKeeps(s, t, s');
    }
  }

  // ---- Consumers ----

  // Steps that only move the program counter of consumer k.
  lemma ConsumerMovesThreads(s: State, k: nat, c: Consumer)
    requires Inv(s) && k in s.consumers && ConsumerOk(s, k, c)
    ensures var s' := C(s, k, c);
            && Shape(s') && (forall j | j in s'.consumers :: ConsumerOk(s', j, s'.consumers[j]))
            && (forall t | t in s'.producers :: ProducerOk(s', s'.producers[t]))
  {
    var s' := C(s, k, c);
    forall j | j in s'.consumers
      ensures ConsumerOk(s', j, s'.consumers[j])
    {
      assert j != k ==> ConsumerOk(s, j, s.consumers[j]);
    }
    forall t | t in s'.producers
      ensures ProducerOk(s', s'.producers[t])
    {
      assert ProducerOk(s, s.producers[t]);
    }
  }

  lemma ConsumerMoves(s: State, k: nat, c: Consumer)
    requires Inv(s) && k in s.consumers && ConsumerOk(s, k, c)
    requires HoldsCell(s.consumers[k]) <==> HoldsCell(c)
    requires HoldsCell(c) ==> c.pos == s.consumers[k].pos
    ensures Inv(C(s, k, c))
  {
    ConsumerMovesThreads(s, k, c);
  }

  // Consumer k takes the next position, whose cell is published.
  ghost predicate Claims(s: State, s': State, k: nat)
    requires Shape(s)
  {
    && k in s.consumers && !HoldsCell(s.consumers[k])
    && s.seqs[Cell(s.deq, s.cap)] == s.deq + 1
    && s' == C(s, k, CRead(s.deq)).(deq := s.deq + 1, claimed := s.claimed + [k])
  }

  lemma ClaimIsReserved(s: State)
    requires Shape(s) && CellsOk(s) && s.seqs[Cell(s.deq, s.cap)] == s.deq + 1
    ensures s.deq < s.enq && s.at[Cell(s.deq, s.cap)] == s.deq
  {
    Serving(s, s.deq);
  }

  lemma ClaimKeepsProducers(s: State, s': State, p: Producer)
    requires Shape(s) && Shape(s') && ProducerOk(s, p)
    requires s' == s.(deq := s.deq + 1, claimed := s'.claimed, consumers := s'.consumers)
    requires s.seqs[Cell(s.deq, s.cap)] == s.deq + 1
    ensures ProducerOk(s', p)
  {
  }

  lemma ClaimKeepsConsumers(s: State, s': State, k: nat)
    requires Inv(s) && Claims(s, s', k) && Shape(s') && s.at[Cell(s.deq, s.cap)] == s.deq
    ensures LateCellsHeld(s') && DeliveriesOk(s')
    ensures forall j | j in s'.consumers :: ConsumerOk(s', j, s'.consumers[j])
  {
    forall j | j in s'.consumers
      ensures ConsumerOk(s', j, s'.consumers[j])
    {
      assert ConsumerOk(s, j, s.consumers[j]);
    }
  }

  lemma ClaimKeeps(s: State, s': State, k: nat)
    requires Inv(s) && Claims(s, s', k)
    ensures Inv(s')
  {
    ClaimIsReserved(s);
    forall t | t in s'.producers
      ensures ProducerOk(s', s'.producers[t])
    {
      ClaimKeepsProducers(s, s', s.producers[t]);
    }
    ClaimKeepsConsumers(s, s', k);
    OwnersCarryOver(s, s');
  }

  // Consumer k gives back the cell of position p.
  ghost predicate Releases(s: State, s': State, k: nat, p: nat)
    requires Shape(s)
  {
    && p < s.deq && k in s.consumers && s.consumers[k] == CRelease(p, s.log[p])
    && s.claimed[p] == k && s.at[Cell(p, s.cap)] == p && s.seqs[Cell(p, s.cap)] == p + 1 && p !in s.got
    && s' == C(s, k, COut).(seqs := s.seqs[Cell(p, s.cap) := p + s.cap],
                            at := s.at[Cell(p, s.cap) := p + s.cap],
                            got := s.got[p := Delivery(k, s.log[p])])
  }

  lemma ReleaseKeepsCells(s: State, s': State, k: nat, p: nat)
    requires Shape(s) && CellsOk(s) && WindowOk(s) && Releases(s, s', k, p)
    ensures Shape(s') && CellsOk(s') && WindowOk(s')
  {
    NextLap(p, s.cap);
  }

  lemma ReleaseKeepsConsumers(s: State, s': State, k: nat, p: nat)
    requires Inv(s) && Releases(s, s', k, p) && Shape(s')
    ensures LateCellsHeld(s') && DeliveriesOk(s')
    ensures forall j | j in s'.consumers :: ConsumerOk(s', j, s'.consumers[j])
  {
    forall j | j in s'.consumers
      ensures ConsumerOk(s', j, s'.consumers[j])
    {
      assert ConsumerOk(s, j, s.consumers[j]);
    }
  }

  lemma ReleaseKeepsProducers(s: State, s': State, k: nat, p: nat, w: Producer)
    requires Shape(s) && Releases(s, s', k, p) && Shape(s') && ProducerOk(s, w)
    ensures ProducerOk(s', w)
  {
    NextCell(p, s.cap);
    forall q: nat | s.seqs[Cell(q, s.cap)] == q
      ensures Cell(q, s.cap) != Cell(p, s.cap)
    {
    }
    if Writes(w) {
      forall q: nat | Reserved(w, q)
        ensures Cell(q, s.cap) != Cell(p, s.cap)
      {
        assert s.seqs[Cell(q, s.cap)] == q;
      }
    }
    SequenceElsewhere(s, s', w, Cell(p, s.cap));
  }

  lemma ReleaseKeepsOwners(s: State, s': State, k: nat, p: nat)
    requires Shape(s) && WindowOk(s) && ProducersApart(s) && UnpublishedReserved(s)
    requires Releases(s, s', k, p) && Shape(s')
    ensures ProducersApart(s') && UnpublishedReserved(s')
  {
    forall q | s'.deq <= q < s'.enq && s'.seqs[Cell(q, s'.cap)] == q
      ensures exists u :: u in s'.producers && Reserved(s'.producers[u], q)
    {
      assert s.at[Cell(q, s.cap)] == q;
      assert Cell(q, s.cap) != Cell(p, s.cap);
    }
  }

  lemma ReleaseKeeps(s: State, s': State, k: nat, p: nat)
    requires Inv(s) && Releases(s, s', k, p)
    ensures Inv(s')
  {
    ReleaseKeepsCells(s, s', k, p);
    ReleaseKeepsConsumers(s, s', k, p);
    ReleaseKeepsOwners(s, s', k, p);
    forall t | t in s'.producers
      ensures ProducerOk(s', s'.producers[t])
    {
      ReleaseKeepsProducers(s, s', k, p, s.producers[t]);
    }
  }

  lemma TakeKeeps(s: State, s': State, k: nat)
    requires Inv(s) && TakeStep(s, s', k)
    ensures Inv(s')
  {
    assert ConsumerOk(s, k, s.consumers[k]);
    if s.consumers[k].CRead? {
      ConsumerMoves(s, k, s'.consumers[k]);
    } else {
      ReleaseKeeps(s, s', k, s.consumers[k].pos);
    }
  }

  lemma ClaimStepKeeps(s: State, s': State, k: nat)
    requires Inv(s) && ClaimStep(s, s', k)
    ensures Inv(s')
  {
    assert ConsumerOk(s, k, s.consumers[k]);
    if s'.deq == s.deq {
      if s.consumers[k].CScan? && s'.consumers[k].CClaim? && s.consumers[k].pos == s.deq {
        ClaimIsReserved(s);
      }
      ConsumerMoves(s, k, s'.consumers[k]);
    } else {
      ClaimKeeps(s, s', k);
    }
  }

  lemma SoleClaimKeeps(s: State, s': State, k: nat)
    requires Inv(s) && SoleClaimStep(s, s', k)
    ensures Inv(s')
  {
    if s' != s {
      ClaimKeeps(s, s', k);
    }
  }

  lemma StepKeepsInv(s: State, s': State)
    requires Inv(s) && (MpmcStep(s, s') || MpscStep(s, s'))
    ensures Inv(s')
  {
    var t: nat :| ProducerStep(s, s', t) || ClaimStep(s, s', t) || SoleClaimStep(s, s', t) || TakeStep(s, s', t);
    if ProducerStep(s, s', t) {
      ProducerKeeps(s, t, s');
    } else if ClaimStep(s, s', t) {
      ClaimStepKeeps(s, s', t);
    } else if SoleClaimStep(s, s', t) {
      SoleClaimKeeps(s, s', t);
    } else {
      TakeKeeps(s, s', t);
    }
  }
}
