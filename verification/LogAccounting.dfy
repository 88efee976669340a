/** The counters of the asynchronous logger: `pending` covers a record from before it is queued
  * until its batch has been written, `ready` from after it is queued until its batch has been
  * written.
  *
  * One atomic access per step; any number of producers, lanes and backends, one consumer.
  * A lane is a first-in first-out queue; ordered logging is the case of one lane.
  */
module LogAccounting {

  type Msg = nat
  datatype Rec = Rec(lane: nat, msg: Msg)

  datatype Producer =
    | Outside
    | Acquired(lane: nat, msg: Msg)          // holds a record; adds to `pending` next
    | Pushing(lane: nat, msg: Msg)
    | Abandoning                             // the queue was full; lowers `pending` next
    | Announcing                             // queued; adds to `ready` next

  datatype Consumer =
    | Resting
    | Collecting(limit: nat, batch: seq<Rec>)
    | Writing(backend: nat, batch: seq<Rec>)
    | LowerReady(batch: seq<Rec>)
    | LowerPending(batch: seq<Rec>)

  datatype Counters = Counters(pending: nat, ready: nat)

  // `pushes` is history: everything that was queued on each lane.
  datatype Queues = Queues(lanes: seq<seq<Msg>>, pushes: seq<seq<Msg>>)

  // `done` is history: the records of all batches before the one in the consumer's hands.
  datatype State = State(count: Counters, queues: Queues, backends: seq<seq<Rec>>, done: seq<Rec>,
                         producers: map<nat, Producer>, consumer: Consumer)

  ghost predicate Init(s: State) {
    && s.count == Counters(0, 0)
    && |s.queues.pushes| == |s.queues.lanes| && s.done == []
    && (forall l: nat | l < |s.queues.lanes| :: s.queues.lanes[l] == [] && s.queues.pushes[l] == [])
    && (forall b: nat | b < |s.backends| :: s.backends[b] == [])
    && (forall t | t in s.producers :: s.producers[t] == Outside)
    && s.consumer == Resting
  }

  // ---- Producers ----

  ghost predicate At(s: State, s': State, t: nat, p: Producer) {
    s'.producers == s.producers[t := p] && s'.consumer == s.consumer && s'.backends == s.backends && s'.done == s.done
  }

  function Push(q: Queues, l: nat, m: Msg): Queues
    requires l < |q.lanes| && |q.pushes| == |q.lanes|
  {
    q.(lanes := q.lanes[l := q.lanes[l] + [m]], pushes := q.pushes[l := q.pushes[l] + [m]])
  }

  // `l` and `m` are what the caller logs.
  ghost predicate ProducerStep(s: State, s': State, t: nat, l: nat, m: Msg) {
    && t in s.producers && |s.queues.pushes| == |s.queues.lanes|
    && var c := s.count;
       match s.producers[t]
       case Outside => l < |s.queues.lanes| && At(s, s', t, Acquired(l, m)) && s'.count == c && s'.queues == s.queues
       case Acquired(k, r) => At(s, s', t, Pushing(k, r)) && s'.count == c.(pending := c.pending + 1) && s'.queues == s.queues
       case Pushing(k, r) =>
         && s'.count == c && k < |s.queues.lanes|
         && (|| (At(s, s', t, Announcing) && s'.queues == Push(s.queues, k, r))
             || (At(s, s', t, Abandoning) && s'.queues == s.queues))
       case Abandoning =>
         c.pending > 0 && At(s, s', t, Outside) && s'.count == c.(pending := c.pending - 1) && s'.queues == s.queues
       case Announcing => At(s, s', t, Outside) && s'.count == c.(ready := c.ready + 1) && s'.queues == s.queues
  }

  // ---- The consumer ----

  function Tag(l: nat, msgs: seq<Msg>): (r: seq<Rec>)
    ensures |r| == |msgs|
  {
    if msgs == [] then [] else Tag(l, msgs[..|msgs| - 1]) + [Rec(l, msgs[|msgs| - 1])]
  }

  function Pop(q: Queues, l: nat, k: nat): Queues
    requires l < |q.lanes| && k <= |q.lanes[l]|
  {
    q.(lanes := q.lanes[l := q.lanes[l][k..]])
  }

  // Pops k records from lane l; a queue may show fewer than it holds.
  ghost predicate CollectStep(s: State, s': State, l: nat, k: nat) {
    && s.consumer.Collecting? && l < |s.queues.lanes| && 0 < k <= |s.queues.lanes[l]|
    && |s.consumer.batch| + k <= s.consumer.limit
    && s' == s.(queues := Pop(s.queues, l, k),
                consumer := Collecting(s.consumer.limit, s.consumer.batch + Tag(l, s.queues.lanes[l][..k])))
  }

  ghost predicate DrainStep(s: State, s': State, maxBatch: nat) {
    match s.consumer
    case Resting =>
      && s.count.ready > 0
      && s' == s.(consumer := Collecting(if maxBatch < s.count.ready then maxBatch else s.count.ready, []))
    case Collecting(_, batch) => s' == s.(consumer := if batch == [] then Resting else Writing(0, batch))
    case Writing(b, batch) =>
      if b < |s.backends| then
        s' == s.(backends := s.backends[b := s.backends[b] + batch], consumer := Writing(b + 1, batch))
      else s' == s.(consumer := LowerReady(batch))
    case LowerReady(batch) =>
      && s.count.ready >= |batch|
      && s' == s.(count := s.count.(ready := s.count.ready - |batch|), consumer := LowerPending(batch))
    case LowerPending(batch) =>
      && s.count.pending >= |batch|
      && s' == s.(count := s.count.(pending := s.count.pending - |batch|), done := s.done + batch, consumer := Resting)
  }

  ghost predicate Next(s: State, s': State) {
    || (exists t: nat, l: nat, m: Msg :: ProducerStep(s, s', t, l, m))
    || (exists l: nat, k: nat :: CollectStep(s, s', l, k))
    || (exists maxBatch: nat :: DrainStep(s, s', maxBatch))
  }

  ghost predicate NextAt(run: seq<State>, i: nat)
    requires i + 1 < |run|
  {
    Next(run[i], run[i + 1])
  }

  ghost predicate IsRun(run: seq<State>) {
    && |run| > 0 && Init(run[0])
    && forall i: nat | i + 1 < |run| :: NextAt(run, i)
  }

  // ---- Lane contents ----

  function Total(lanes: seq<seq<Msg>>): nat {
    if lanes == [] then 0 else Total(lanes[..|lanes| - 1]) + |lanes[|lanes| - 1]|
  }

  lemma {:induction false} TotalChange(lanes: seq<seq<Msg>>, l: nat, q: seq<Msg>)
    requires l < |lanes|
    ensures Total(lanes[l := q]) + |lanes[l]| == Total(lanes) + |q|
  {
    var n := |lanes| - 1;
    if l == n {
      assert lanes[l := q][..n] == lanes[..n];
    } else {
      assert lanes[l := q][..n] == lanes[..n][l := q];
      TotalChange(lanes[..n], l, q);
    }
  }

  lemma {:induction false} TotalZero(lanes: seq<seq<Msg>>)
    ensures Total(lanes) == 0 <==> forall l: nat | l < |lanes| :: lanes[l] == []
  {
    if lanes != [] {
      var n := |lanes| - 1;
      TotalZero(lanes[..n]);
      assert forall l: nat | l < n :: lanes[..n][l] == lanes[l];
    }
  }

  // The messages of one lane, in order.
  function Of(l: nat, s: seq<Rec>): seq<Msg> {
    if s == [] then [] else Of(l, s[..|s| - 1]) + if s[|s| - 1].lane == l then [s[|s| - 1].msg] else []
  }

  lemma {:induction false} OfConcat(l: nat, s: seq<Rec>, t: seq<Rec>)
    ensures Of(l, s + t) == Of(l, s) + Of(l, t)
  {
    if t == [] {
      assert s + t == s;
    } else {
      var n := |t| - 1;
      assert (s + t)[..|s + t| - 1] == s + t[..n];
      OfConcat(l, s, t[..n]);
    }
  }

  lemma {:induction false} OfTag(l: nat, k: nat, msgs: seq<Msg>)
    ensures Of(l, Tag(k, msgs)) == if k == l then msgs else []
  {
    if msgs != [] {
      var n := |msgs| - 1;
      OfTag(l, k, msgs[..n]);
      assert Tag(k, msgs)[..n] == Tag(k, msgs[..n]);
      assert msgs == msgs[..n] + [msgs[n]];
    }
  }

  // ---- Invariant ----

  predicate Holds(p: Producer) {
    p.Pushing? || p.Abandoning?
  }

  function Holding(producers: map<nat, Producer>): set<nat> {
    set t | t in producers && Holds(producers[t])
  }

  function One(b: bool): nat {
    if b then 1 else 0
  }

  function Announcers(producers: map<nat, Producer>): set<nat> {
    set t | t in producers && producers[t].Announcing?
  }

  function Batch(c: Consumer): seq<Rec> {
    if c.Resting? then [] else c.batch
  }

  // What the batch still contributes to `ready`.
  function Unlowered(c: Consumer): nat {
    if c.Resting? || c.LowerPending? then 0 else |c.batch|
  }

  ghost predicate CountsOk(s: State) {
    && s.count.pending == |Holding(s.producers)| + Total(s.queues.lanes) + |Batch(s.consumer)|
    && s.count.ready + |Announcers(s.producers)| == Total(s.queues.lanes) + Unlowered(s.consumer)
    && (s.consumer.Collecting? ==> |s.consumer.batch| <= s.consumer.limit <= s.count.ready)
    && (s.consumer.Writing? || s.consumer.LowerReady? ==> |s.consumer.batch| <= s.count.ready)
  }

  // Of each lane's records, some were taken and the rest are queued, in order.
  ghost predicate LanesOk(q: Queues, taken: seq<Rec>) {
    && |q.pushes| == |q.lanes|
    && forall l: nat | l < |q.lanes| :: Of(l, taken) + q.lanes[l] == q.pushes[l]
  }

  // A backend has everything taken, or everything but the batch in hand.
  ghost predicate BackendsOk(s: State) {
    forall b: nat | b < |s.backends| ::
      s.backends[b] == if Written(s.consumer, b) then s.done + Batch(s.consumer) else s.done
  }

  function Taken(s: State): seq<Rec> {
    s.done + Batch(s.consumer)
  }

  predicate Written(c: Consumer, b: nat) {
    match c
    case Writing(n, _) => b < n
    case LowerReady(_) => true
    case LowerPending(_) => true
    case _ => false
  }

  ghost predicate TargetsOk(s: State) {
    forall t | t in s.producers && (s.producers[t].Acquired? || s.producers[t].Pushing?) ::
      s.producers[t].lane < |s.queues.lanes|
  }

  ghost predicate Inv(s: State) {
    CountsOk(s) && LanesOk(s.queues, Taken(s)) && BackendsOk(s) && TargetsOk(s)
  }

  lemma PushKeepsLanes(q: Queues, taken: seq<Rec>, l: nat, m: Msg)
    requires LanesOk(q, taken) && l < |q.lanes|
    ensures LanesOk(Push(q, l, m), taken) && Total(Push(q, l, m).lanes) == Total(q.lanes) + 1
  {
    TotalChange(q.lanes, l, q.lanes[l] + [m]);
    assert Of(l, taken) + (q.lanes[l] + [m]) == q.pushes[l] + [m];
  }

  lemma OfTaken(n: nat, taken: seq<Rec>, l: nat, head: seq<Msg>)
    ensures Of(n, taken + Tag(l, head)) == if n == l then Of(n, taken) + head else Of(n, taken)
  {
    OfConcat(n, taken, Tag(l, head));
    OfTag(n, l, head);
  }

  // Taking from the front of a lane: `before` was taken, the lane splits.
  lemma SplitLane(before: seq<Msg>, lane: seq<Msg>, k: nat)
    requires k <= |lane|
    ensures before + lane[..k] + lane[k..] == before + lane
  {
  }

  lemma PopKeepsLane(q: Queues, taken: seq<Rec>, l: nat, k: nat, n: nat)
    requires l < |q.lanes| && k <= |q.lanes[l]| && n < |q.lanes| == |q.pushes|
    requires Of(n, taken) + q.lanes[n] == q.pushes[n]
    ensures Of(n, taken + Tag(l, q.lanes[l][..k])) + Pop(q, l, k).lanes[n] == q.pushes[n]
  {
    OfTaken(n, taken, l, q.lanes[l][..k]);
    SplitLane(Of(n, taken), q.lanes[l], k);
  }

  lemma PopKeepsLanes(q: Queues, taken: seq<Rec>, l: nat, k: nat)
    requires LanesOk(q, taken) && l < |q.lanes| && k <= |q.lanes[l]|
    ensures LanesOk(Pop(q, l, k), taken + Tag(l, q.lanes[l][..k]))
    ensures Total(Pop(q, l, k).lanes) + k == Total(q.lanes)
  {
    TotalChange(q.lanes, l, q.lanes[l][k..]);
    forall n: nat | n < |q.lanes|
      ensures Of(n, taken + Tag(l, q.lanes[l][..k])) + Pop(q, l, k).lanes[n] == q.pushes[n]
    {
      PopKeepsLane(q, taken, l, k, n);
    }
  }

  lemma HoldingChanges(producers: map<nat, Producer>, t: nat, p: Producer)
    requires t in producers
    ensures |Holding(producers[t := p])| + One(Holds(producers[t])) == |Holding(producers)| + One(Holds(p))
  {
    var was, now := Holding(producers), Holding(producers[t := p]);
    assert now - {t} == was - {t};
    assert t in was <==> Holds(producers[t]);
    assert t in now <==> Holds(p);
    assert |was| == |was - {t}| + One(t in was);
    assert |now| == |now - {t}| + One(t in now);
  }

  lemma AnnouncersChange(producers: map<nat, Producer>, t: nat, p: Producer)
    requires t in producers
    ensures |Announcers(producers[t := p])| + One(producers[t].Announcing?) == |Announcers(producers)| + One(p.Announcing?)
  {
    var was, now := Announcers(producers), Announcers(producers[t := p]);
    assert now - {t} == was - {t};
    assert t in was <==> producers[t].Announcing?;
    assert t in now <==> p.Announcing?;
    assert |was| == |was - {t}| + One(t in was);
    assert |now| == |now - {t}| + One(t in now);
  }

  lemma ProducerKeepsQueues(s: State, s': State, t: nat, l: nat, m: Msg)
    requires LanesOk(s.queues, Taken(s)) && ProducerStep(s, s', t, l, m)
    ensures LanesOk(s'.queues, Taken(s)) && |s'.queues.lanes| == |s.queues.lanes| && t in s'.producers
    ensures Total(s'.queues.lanes) == Total(s.queues.lanes)
         + if s.producers[t].Pushing? && s'.producers[t].Announcing? then 1 else 0
  {
    var p := s.producers[t];
    if p.Pushing? && p.lane < |s.queues.lanes| {
      PushKeepsLanes(s.queues, Taken(s), p.lane, p.msg);
    }
  }

  lemma ProducerKeepsCounts(s: State, s': State, t: nat, l: nat, m: Msg)
    requires CountsOk(s) && LanesOk(s.queues, Taken(s)) && ProducerStep(s, s', t, l, m)
    ensures CountsOk(s')
  {
    HoldingChanges(s.producers, t, s'.producers[t]);
    AnnouncersChange(s.producers, t, s'.producers[t]);
    ProducerKeepsQueues(s, s', t, l, m);
  }

  lemma ProducerKeepsInv(s: State, s': State, t: nat, l: nat, m: Msg)
    requires Inv(s) && ProducerStep(s, s', t, l, m)
    ensures Inv(s')
  {
    ProducerKeepsQueues(s, s', t, l, m);
    ProducerKeepsCounts(s, s', t, l, m);
  }

  lemma CollectKeepsCounts(s: State, s': State, l: nat, k: nat)
    requires CountsOk(s) && CollectStep(s, s', l, k)
    ensures CountsOk(s')
  {
    TotalChange(s.queues.lanes, l, s.queues.lanes[l][k..]);
  }

  lemma CollectKeepsLanes(s: State, s': State, l: nat, k: nat)
    requires LanesOk(s.queues, Taken(s)) && CollectStep(s, s', l, k)
    ensures LanesOk(s'.queues, Taken(s'))
  {
    PopKeepsLanes(s.queues, Taken(s), l, k);
    assert Taken(s') == Taken(s) + Tag(l, s.queues.lanes[l][..k]);
  }

  lemma CollectKeepsInv(s: State, s': State, l: nat, k: nat)
    requires Inv(s) && CollectStep(s, s', l, k)
    ensures Inv(s')
  {
    CollectKeepsCounts(s, s', l, k);
    CollectKeepsLanes(s, s', l, k);
  }

  lemma DrainKeepsBackends(s: State, s': State, maxBatch: nat)
    requires BackendsOk(s) && DrainStep(s, s', maxBatch)
    ensures BackendsOk(s') && Taken(s') == Taken(s) && s'.queues == s.queues && s'.producers == s.producers
  {
  }

  lemma DrainKeepsInv(s: State, s': State, maxBatch: nat)
    requires Inv(s) && DrainStep(s, s', maxBatch)
    ensures Inv(s')
  {
    DrainKeepsBackends(s, s', maxBatch);
  }

  lemma StepKeepsInv(s: State, s': State)
    requires Inv(s) && Next(s, s')
    ensures Inv(s')
  {
    if t: nat, l: nat, m: Msg :| ProducerStep(s, s', t, l, m) {
      ProducerKeepsInv(s, s', t, l, m);
    } else if l: nat, k: nat :| CollectStep(s, s', l, k) {
      CollectKeepsInv(s, s', l, k);
    } else {
      var maxBatch: nat :| DrainStep(s, s', maxBatch);
      DrainKeepsInv(s, s', maxBatch);
    }
  }

  lemma InitInv(s: State)
    requires Init(s)
    ensures Inv(s)
  {
    TotalZero(s.queues.lanes);
    assert Holding(s.producers) == {} && Announcers(s.producers) == {};
  }

  lemma {:induction false} RunInv(run: seq<State>, i: nat)
    requires IsRun(run) && i < |run|
    ensures Inv(run[i])
  {
    if i == 0 {
      InitInv(run[0]);
    } else {
      RunInv(run, i - 1);
      assert NextAt(run, i - 1);
      StepKeepsInv(run[i - 1], run[i]);
    }
  }

  // ---- What the counters promise ----

  /** `pending` is exactly the records held by producers, queued, or in the consumer's hands. */
  lemma PendingIsExact(run: seq<State>, i: nat)
    requires IsRun(run) && i < |run|
    ensures run[i].count.pending
         == |Holding(run[i].producers)| + Total(run[i].queues.lanes) + |Batch(run[i].consumer)|
  {
    RunInv(run, i);
  }

  /** Neither counter is ever lowered below zero, although the consumer may pop records whose
    * producers have not announced them yet.
    */
  lemma CountersNeverUnderflow(run: seq<State>, i: nat)
    requires IsRun(run) && i < |run|
    ensures run[i].consumer.LowerReady? ==> run[i].count.ready >= |run[i].consumer.batch|
    ensures run[i].consumer.LowerPending? ==> run[i].count.pending >= |run[i].consumer.batch|
    ensures forall t | t in run[i].producers && run[i].producers[t].Abandoning? :: run[i].count.pending > 0
  {
    RunInv(run, i);
    forall t | t in run[i].producers && run[i].producers[t].Abandoning?
      ensures run[i].count.pending > 0
    {
      assert t in Holding(run[i].producers);
    }
  }

  ghost predicate Extends(s: State, s': State, l: nat) {
    && l < |s.queues.pushes| && l < |s'.queues.pushes| && s.queues.pushes[l] <= s'.queues.pushes[l]
    && |s'.backends| == |s.backends|
  }

  lemma ProducerExtends(s: State, s': State, t: nat, k: nat, m: Msg, l: nat)
    requires ProducerStep(s, s', t, k, m) && l < |s.queues.pushes|
    ensures Extends(s, s', l)
  {
  }

  lemma StepExtends(s: State, s': State, l: nat)
    requires Next(s, s') && l < |s.queues.pushes|
    ensures Extends(s, s', l)
  {
    if t: nat, k: nat, m: Msg :| ProducerStep(s, s', t, k, m) {
      ProducerExtends(s, s', t, k, m, l);
    }
  }

  lemma {:induction false} AcceptedStays(run: seq<State>, i: nat, j: nat, l: nat)
    requires IsRun(run) && i <= j < |run| && l < |run[i].queues.pushes|
    ensures Extends(run[i], run[j], l)
    decreases j
  {
    if i < j {
      AcceptedStays(run, i, j - 1, l);
      assert NextAt(run, j - 1);
      StepExtends(run[j - 1], run[j], l);
    }
  }

  /** A flush that sees `pending` at zero: every record accepted up to then, on any lane, has
    * been given to every backend, once and in the order of its lane.
    */
  lemma FlushIsSound(run: seq<State>, i: nat, j: nat, l: nat, b: nat)
    requires IsRun(run) && i <= j < |run| && run[j].count.pending == 0
    requires l < |run[i].queues.pushes| && b < |run[i].backends|
    ensures b < |run[j].backends| && l < |run[j].queues.pushes|
    ensures Of(l, run[j].backends[b]) == run[j].queues.pushes[l]
    ensures run[i].queues.pushes[l] <= Of(l, run[j].backends[b])
  {
    AcceptedStays(run, i, j, l);
    RunInv(run, j);
    TotalZero(run[j].queues.lanes);
    assert Batch(run[j].consumer) == [];
    assert Taken(run[j]) == run[j].done;
  }

  /** At every moment, each backend has received a prefix of what was accepted on each lane. */
  lemma LaneOrderIsKept(run: seq<State>, i: nat, l: nat, b: nat)
    requires IsRun(run) && i < |run| && l < |run[i].queues.pushes| && b < |run[i].backends|
    ensures Of(l, run[i].backends[b]) <= run[i].queues.pushes[l]
  {
    RunInv(run, i);
    var s := run[i];
    OfConcat(l, s.done, Batch(s.consumer));
  }
}
