/** A flush can always complete: every run can be continued, with nothing new being logged, until
  * `pending` is zero.
  */
module LogProgress {
  import opened Runs
  import opened LogAccounting

  // ---- Continuing a run ----

  ghost predicate BeginsNothing(s: State, s': State) {
    forall t | t in s.producers && s.producers[t] == Outside :: t in s'.producers && s'.producers[t] == Outside
  }

  ghost predicate StepAt(run: seq<State>, i: nat)
    requires i + 1 < |run|
  {
    BeginsNothing(run[i], run[i + 1])
  }

  // A run in which nothing new is logged from state `from` on.
  ghost predicate NothingNew(run: seq<State>, from: nat) {
    && IsRun(run) && from < |run|
    && forall i: nat | from <= i && i + 1 < |run| :: StepAt(run, i)
  }

  lemma LongerRun(run: seq<State>, s': State)
    requires IsRun(run) && Next(Last(run), s')
    ensures IsRun(run + [s'])
  {
    var longer := run + [s'];
    forall i: nat | i + 1 < |longer|
      ensures NextAt(longer, i)
    {
      assert i + 1 < |run| ==> NextAt(run, i);
    }
  }

  lemma GoOn(run: seq<State>, from: nat, s': State) returns (longer: seq<State>)
    requires NothingNew(run, from) && Next(Last(run), s') && BeginsNothing(Last(run), s')
    ensures NothingNew(longer, from) && longer == run + [s'] && Last(longer) == s'
  {
    longer := run + [s'];
    LongerRun(run, s');
    forall i: nat | from <= i && i + 1 < |longer|
      ensures StepAt(longer, i)
    {
      assert i + 1 < |run| ==> StepAt(run, i);
    }
  }

  lemma LastInv(run: seq<State>)
    requires IsRun(run)
    ensures Inv(Last(run))
  {
    RunInv(run, |run| - 1);
  }

  // ---- The producers return ----

  function ToReturn(p: Producer): nat {
    match p
    case Outside => 0
    case Acquired(_, _) => 3
    case Pushing(_, _) => 2
    case Abandoning => 1
    case Announcing => 1
  }

  ghost predicate Returns(s: State, m: State, t: nat) {
    && t in s.producers && t in m.producers && m.producers == s.producers[t := m.producers[t]]
    && ToReturn(m.producers[t]) < ToReturn(s.producers[t]) && Next(s, m)
  }

  lemma ProducerOn(s: State, t: nat) returns (m: State)
    requires Inv(s) && t in s.producers && s.producers[t] != Outside
    ensures Returns(s, m, t)
  {
    var p, c := s.producers[t], s.count;
    var next, count, queues := Outside, c, s.queues;
    if p.Acquired? {
      next, count := Pushing(p.lane, p.msg), c.(pending := c.pending + 1);
    } else if p.Pushing? {
      next, queues := Announcing, Push(s.queues, p.lane, p.msg);
    } else if p.Abandoning? {
      assert t in Holding(s.producers);
      count := c.(pending := c.pending - 1);
    } else {
      count := c.(ready := c.ready + 1);
    }
    m := s.(producers := s.producers[t := next], count := count, queues := queues);
    assert ProducerStep(s, m, t, 0, 0);
  }

  lemma {:induction false} ReturnOf(run: seq<State>, from: nat, t: nat) returns (longer: seq<State>)
    requires NothingNew(run, from) && t in Last(run).producers
    ensures NothingNew(longer, from) && run <= longer && Last(longer).producers == Last(run).producers[t := Outside]
    decreases ToReturn(Last(run).producers[t])
  {
    longer := run;
    if Last(run).producers[t] != Outside {
      LastInv(run);
      var m := ProducerOn(Last(run), t);
      longer := GoOn(run, from, m);
      longer := ReturnOf(longer, from, t);
    } else {
      assert Last(run).producers == Last(run).producers[t := Outside];
    }
  }

  function StillIn(s: State): set<nat> {
    set t | t in s.producers && s.producers[t] != Outside
  }

  lemma {:induction false} AllReturn(run: seq<State>, from: nat) returns (longer: seq<State>)
    requires NothingNew(run, from)
    ensures NothingNew(longer, from) && run <= longer && StillIn(Last(longer)) == {}
    decreases StillIn(Last(run))
  {
    longer := run;
    if t :| t in StillIn(Last(run)) {
      longer := ReturnOf(run, from, t);
      assert StillIn(Last(longer)) == StillIn(Last(run)) - {t};
      longer := AllReturn(longer, from);
    }
  }

  // ---- The consumer drains ----

  // With all producers outside, the counters count what is queued or in the batch.
  lemma CountsAlone(s: State)
    requires Inv(s) && StillIn(s) == {}
    ensures s.count.pending == Total(s.queues.lanes) + |Batch(s.consumer)|
    ensures s.count.ready == Total(s.queues.lanes) + Unlowered(s.consumer)
  {
    forall t | t in s.producers
      ensures s.producers[t] == Outside
    {
      assert t !in StillIn(s);
    }
    assert Holding(s.producers) == {} && Announcers(s.producers) == {};
  }

  // There are records to collect and there is room for them.
  predicate CanCollect(s: State) {
    s.consumer.Collecting? && |s.consumer.batch| < s.consumer.limit && Total(s.queues.lanes) > 0
  }

  function ToCollect(s: State): nat {
    match s.consumer
    case Resting => 1
    case Collecting(_, _) => if CanCollect(s) then 0 else 5 + |s.backends|
    case Writing(b, _) => 4 + if b < |s.backends| then |s.backends| - b else 0
    case LowerReady(_) => 3
    case LowerPending(_) => 2
  }

  ghost predicate Drains(s: State, m: State) {
    && m.producers == s.producers && Next(s, m)
    && var was, now := Total(s.queues.lanes), Total(m.queues.lanes);
       now < was || (now == was && ToCollect(m) < ToCollect(s))
  }

  lemma {:induction false} SomeLane(lanes: seq<seq<Msg>>) returns (l: nat)
    requires Total(lanes) > 0
    ensures l < |lanes| && lanes[l] != []
  {
    var last := |lanes| - 1;
    if lanes[last] != [] {
      l := last;
    } else {
      l := SomeLane(lanes[..last]);
    }
  }

  lemma CollectOn(s: State) returns (m: State)
    requires CanCollect(s)
    ensures Drains(s, m)
  {
    var l := SomeLane(s.queues.lanes);
    var lane := s.queues.lanes[l];
    m := s.(queues := Pop(s.queues, l, 1),
            consumer := Collecting(s.consumer.limit, s.consumer.batch + Tag(l, lane[..1])));
    TotalChange(s.queues.lanes, l, lane[1..]);
    assert CollectStep(s, m, l, 1);
  }

  // A consumer that has nothing to collect, or no room, goes on.
  lemma DrainOn(s: State) returns (m: State)
    requires Inv(s) && StillIn(s) == {} && !CanCollect(s)
    requires s.consumer != Resting || Total(s.queues.lanes) > 0
    ensures Drains(s, m)
  {
    CountsAlone(s);
    var c := s.consumer;
    if c == Resting {
      m := s.(consumer := Collecting(s.count.ready, []));
    } else if c.Collecting? {
      m := s.(consumer := if c.batch == [] then Resting else Writing(0, c.batch));
    } else if c.Writing? {
      m := if c.backend < |s.backends| then
             s.(backends := s.backends[c.backend := s.backends[c.backend] + c.batch], consumer := Writing(c.backend + 1, c.batch))
           else s.(consumer := LowerReady(c.batch));
    } else if c.LowerReady? {
      m := s.(count := s.count.(ready := s.count.ready - |c.batch|), consumer := LowerPending(c.batch));
    } else {
      m := s.(count := s.count.(pending := s.count.pending - |c.batch|), done := s.done + c.batch, consumer := Resting);
    }
    assert DrainStep(s, m, s.count.ready);
  }

  lemma {:induction false} Drained(run: seq<State>, from: nat) returns (longer: seq<State>)
    requires NothingNew(run, from) && StillIn(Last(run)) == {}
    ensures NothingNew(longer, from) && run <= longer && Last(longer).count.pending == 0
    decreases Total(Last(run).queues.lanes), ToCollect(Last(run))
  {
    var s := Last(run);
    LastInv(run);
    longer := run;
    if s.consumer == Resting && Total(s.queues.lanes) == 0 {
      CountsAlone(s);
    } else {
      var m;
      if CanCollect(s) {
        m := CollectOn(s);
      } else {
        m := DrainOn(s);
      }
      longer := GoOn(run, from, m);
      assert StillIn(m) == StillIn(s);
      longer := Drained(longer, from);
    }
  }

  /** However a run has gone, it can be continued, with nothing new being logged, until `pending` is
    * zero; and then every record accepted on any lane has reached every backend, once and in order.
    */
  lemma FlushCompletes(run: seq<State>, l: nat, b: nat) returns (longer: seq<State>)
    requires IsRun(run) && l < |Last(run).queues.pushes| && b < |Last(run).backends|
    ensures NothingNew(longer, |run| - 1) && run <= longer && Last(longer).count.pending == 0
    ensures b < |Last(longer).backends| && Last(run).queues.pushes[l] <= Of(l, Last(longer).backends[b])
  {
    longer := AllReturn(run, |run| - 1);
    longer := Drained(longer, |run| - 1);
    assert longer[|run| - 1] == Last(run);
    FlushIsSound(longer, |run| - 1, |longer| - 1, l, b);
  }
}
