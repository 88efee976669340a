/** The executor makes progress: as long as no stop is requested, every run can be continued, with
  * nothing new being offered, until the producers have returned, everything that was put into the
  * queues has been executed, and the executor sleeps.
  */
module ExecutorProgress {
  import opened Runs
  import opened ExecutorSleep
  import opened ExecutorLoop

  // ---- Cells that are not published yet ----

  predicate CellOk(s: State, c: Cell) {
    !c.published ==> c.producer in s.producers && s.producers[c.producer] == Publish
  }

  ghost predicate CellsOk(s: State) {
    && (forall j | 0 <= j < |s.q.ext| :: CellOk(s, s.q.ext[j]))
    && (forall i, j | 0 <= i < j < |s.q.ext| && !s.q.ext[i].published && !s.q.ext[j].published ::
          s.q.ext[i].producer != s.q.ext[j].producer)
  }

  lemma OfferKeepsCells(s: State, s': State, t: nat, i: nat)
    requires CellsOk(s) && Offer(s, s', t, i)
    ensures CellsOk(s')
  {
    forall j | 0 <= j < |s'.q.ext|
      ensures CellOk(s', s'.q.ext[j])
    {
      assert j < |s.q.ext| ==> CellOk(s, s.q.ext[j]);
    }
    if s'.q.ext != s.q.ext {
      forall j | 0 <= j < |s.q.ext| && !s.q.ext[j].published
        ensures s.q.ext[j].producer != t
      {
        assert CellOk(s, s.q.ext[j]);
      }
    }
  }

  lemma AnnounceKeepsCells(s: State, s': State, t: nat, j: nat)
    requires CellsOk(s) && AnnounceStep(s, s', t, j)
    ensures CellsOk(s')
  {
    forall k | 0 <= k < |s'.q.ext|
      ensures CellOk(s', s'.q.ext[k])
    {
      assert CellOk(s, s.q.ext[k]);
    }
  }

  lemma WakeKeepsCells(s: State, s': State, t: nat)
    requires CellsOk(s) && WakeStep(s, s', t)
    ensures CellsOk(s')
  {
    forall k | 0 <= k < |s'.q.ext|
      ensures CellOk(s', s'.q.ext[k])
    {
      assert CellOk(s, s.q.ext[k]);
    }
  }

  // The executor only takes cells away.
  lemma PopKeepsCells(s: State, s': State)
    requires CellsOk(s) && s'.producers == s.producers
    requires s'.q.ext == s.q.ext || (Poppable(s.q) && s'.q.ext == s.q.ext[1..])
    ensures CellsOk(s')
  {
    forall k | 0 <= k < |s'.q.ext|
      ensures CellOk(s', s'.q.ext[k])
    {
      assert CellOk(s, s.q.ext[k + |s.q.ext| - |s'.q.ext|]);
    }
  }

  // ---- A producer about to publish has its cell ----

  ghost predicate HasCell(q: Queues, t: nat) {
    exists j :: 0 <= j < |q.ext| && q.ext[j] == Cell(t, false)
  }

  ghost predicate PublishersOk(s: State) {
    forall t | t in s.producers && s.producers[t] == Publish :: HasCell(s.q, t)
  }

  lemma OfferKeepsPublishers(s: State, s': State, t: nat, i: nat)
    requires PublishersOk(s) && Offer(s, s', t, i)
    ensures PublishersOk(s')
  {
    forall u | u in s'.producers && s'.producers[u] == Publish
      ensures HasCell(s'.q, u)
    {
      if u == t {
        assert s'.q.ext[|s.q.ext|] == Cell(t, false);
      } else {
        var k :| 0 <= k < |s.q.ext| && s.q.ext[k] == Cell(u, false);
        assert s'.q.ext[k] == Cell(u, false);
      }
    }
  }

  lemma AnnounceKeepsPublishers(s: State, s': State, t: nat, j: nat)
    requires PublishersOk(s) && AnnounceStep(s, s', t, j)
    ensures PublishersOk(s')
  {
    forall u | u in s'.producers && s'.producers[u] == Publish
      ensures HasCell(s'.q, u)
    {
      var k :| 0 <= k < |s.q.ext| && s.q.ext[k] == Cell(u, false);
      assert s'.q.ext[k] == Cell(u, false);
    }
  }

  lemma WakeKeepsPublishers(s: State, s': State, t: nat)
    requires PublishersOk(s) && WakeStep(s, s', t)
    ensures PublishersOk(s')
  {
    WakeLeaves(s, s', t);
    forall u | u in s'.producers && s'.producers[u] == Publish
      ensures HasCell(s'.q, u)
    {
      assert HasCell(s.q, u);
    }
  }

  lemma PopKeepsPublishers(s: State, s': State)
    requires PublishersOk(s) && s'.producers == s.producers
    requires s'.q.ext == s.q.ext || (Poppable(s.q) && s'.q.ext == s.q.ext[1..])
    ensures PublishersOk(s')
  {
    forall u | u in s'.producers && s'.producers[u] == Publish
      ensures HasCell(s'.q, u)
    {
      var k :| 0 <= k < |s.q.ext| && s.q.ext[k] == Cell(u, false);
      assert s'.q.ext[k + |s'.q.ext| - |s.q.ext|] == Cell(u, false);
    }
  }

  lemma StepKeepsCells(s: State, s': State)
    requires CellsOk(s) && PublishersOk(s) && Next(s, s')
    ensures CellsOk(s') && PublishersOk(s')
  {
    if t: nat, i: nat :| Offer(s, s', t, i) {
      OfferKeepsCells(s, s', t, i);
      OfferKeepsPublishers(s, s', t, i);
    } else if t: nat, j: nat :| AnnounceStep(s, s', t, j) {
      AnnounceKeepsCells(s, s', t, j);
      AnnounceKeepsPublishers(s, s', t, j);
    } else if t: nat :| WakeStep(s, s', t) {
      WakeKeepsCells(s, s', t);
      WakeKeepsPublishers(s, s', t);
    } else {
      ExecutorTakesCells(s, s');
      PopKeepsCells(s, s');
      PopKeepsPublishers(s, s');
    }
  }

  lemma ExecutorTakesCells(s: State, s': State)
    requires (exists n: nat :: SleepStep(s, s', n)) || (exists i: nat :: WorkStep(s, s', i)) || exists raised: bool :: ReadyStep(s, s', raised)
    ensures s'.producers == s.producers
    ensures s'.q.ext == s.q.ext || (Poppable(s.q) && s'.q.ext == s.q.ext[1..])
  {
  }

  lemma {:induction false} RunCells(run: seq<State>, i: nat)
    requires IsRun(run) && i < |run|
    ensures CellsOk(run[i]) && PublishersOk(run[i])
  {
    if i > 0 {
      RunCells(run, i - 1);
      assert NextAt(run, i - 1);
      StepKeepsCells(run[i - 1], run[i]);
    }
  }

  // ---- Nothing new ----

  // A step of the executor that puts nothing into its own ring.
  ghost predicate ExecStep(s: State, s': State) {
    s'.put == s.put && (SleepStep(s, s', 0) || exists i: nat :: WorkStep(s, s', i))
  }

  // A step of a producer that has made its offer.
  ghost predicate ReturnStep(s: State, s': State) {
    (exists t: nat, j: nat :: AnnounceStep(s, s', t, j)) || exists t: nat :: WakeStep(s, s', t)
  }

  ghost predicate StepAt(run: seq<State>, i: nat)
    requires i + 1 < |run|
  {
    ExecStep(run[i], run[i + 1]) || ReturnStep(run[i], run[i + 1])
  }

  // A run in which nothing is offered or put in from state `from` on.
  ghost predicate NothingNew(run: seq<State>, from: nat) {
    && IsRun(run) && from < |run|
    && forall i: nat | from <= i && i + 1 < |run| :: StepAt(run, i)
  }

  lemma LongerRun(run: seq<State>, s': State)
    requires IsRun(run) && Next(Last(run), s')
    ensures IsRun(run + [s'])
  {
    var longer := run + [s'];
    forall i: nat | i + 1 < |longer|
      ensures NextAt(longer, i)
    {
      assert i + 1 < |run| ==> NextAt(run, i);
    }
  }

  lemma GoOn(run: seq<State>, from: nat, s': State) returns (longer: seq<State>)
    requires NothingNew(run, from) && (ExecStep(Last(run), s') || ReturnStep(Last(run), s'))
    ensures NothingNew(longer, from) && longer == run + [s'] && Last(longer) == s'
  {
    longer := run + [s'];
    LongerRun(run, s');
    forall i: nat | from <= i && i + 1 < |longer|
      ensures StepAt(longer, i)
    {
      assert i + 1 < |run| ==> StepAt(run, i);
    }
  }

  // No stop is requested, and the loop has not ended.
  predicate Live(s: State) {
    !s.f.stop && s.exec != Exited
  }

  // ... and every producer has returned.
  ghost predicate Settled(s: State) {
    Live(s) && forall t | t in s.producers :: s.producers[t] == Out
  }

  // ---- The producers return ----

  function ToReturn(pc: ProducerPc): nat {
    match pc
    case Out => 0
    case Publish => 8
    case ReadReady => 7
    case SetReady => 6
    case Advance(_, _) => 5
    case ReadSleeping => 4
    case ClaimSleeping => 3
    case ClaimPending => 2
    case NotifyOne => 1
    case Write => 1
  }

  // Producer t is nearer to its return, and the other producers and what was put in are as before.
  ghost predicate Returns(s: State, m: State, t: nat) {
    && t in s.producers && t in m.producers && m.producers == s.producers[t := m.producers[t]]
    && ToReturn(m.producers[t]) < ToReturn(s.producers[t])
    && Live(m) && m.put == s.put && ReturnStep(s, m)
  }

  lemma AnnounceOn(s: State, t: nat) returns (m: State)
    requires PublishersOk(s) && Live(s) && t in s.producers && ToReturn(s.producers[t]) > 4
    ensures Returns(s, m, t)
  {
    var j: nat := 0;
    var pc := s.producers[t];
    if pc.Publish? {
      assert HasCell(s.q, t);
      j :| j < |s.q.ext| && s.q.ext[j] == Cell(t, false);
      m := To(s, t, ReadReady).(q := s.q.(ext := s.q.ext[j := Cell(t, true)]));
    } else if pc.ReadReady? {
      m := To(s, t, if s.f.ready then Advance(false, External) else SetReady);
    } else if pc.SetReady? {
      m := To(s, t, Advance(true, External)).(f := s.f.(ready := true));
    } else {
      m := To(s, t, if !s.io then NotifyOne else if pc.force then ClaimPending else ReadSleeping)
           .(f := s.f.(epoch := s.f.epoch + 1));
    }
    assert AnnounceStep(s, m, t, j);
  }

  lemma WakeOn(s: State, t: nat) returns (m: State)
    requires Live(s) && t in s.producers && 0 < ToReturn(s.producers[t]) <= 4
    ensures Returns(s, m, t)
  {
    var pc := s.producers[t];
    if pc.NotifyOne? {
      m := To(s, t, Out).(exec := if s.exec.Blocked? && !s.io then Enter(s.exec.o) else s.exec);
    } else if pc.ReadSleeping? {
      m := To(s, t, if s.f.sleeping then ClaimSleeping else Out);
    } else if pc.ClaimSleeping? {
      m := if s.f.sleeping then To(s, t, ClaimPending).(f := s.f.(sleeping := false)) else To(s, t, Out);
    } else if pc.ClaimPending? {
      m := if s.f.pending then To(s, t, Out) else To(s, t, Write).(f := s.f.(pending := true));
    } else {
      m := To(s, t, Out).(f := s.f.(eventfd := s.f.eventfd + 1));
    }
    assert WakeStep(s, m, t);
  }

  lemma {:induction false} ReturnOf(run: seq<State>, from: nat, t: nat) returns (longer: seq<State>)
    requires NothingNew(run, from) && Live(Last(run)) && t in Last(run).producers
    ensures NothingNew(longer, from) && run <= longer && Live(Last(longer)) && Last(longer).put == Last(run).put
    ensures Last(longer).producers == Last(run).producers[t := Out]
    decreases ToReturn(Last(run).producers[t])
  {
    longer := run;
    var s := Last(run);
    if s.producers[t] != Out {
      var m;
      if ToReturn(s.producers[t]) > 4 {
        RunCells(run, |run| - 1);
        m := AnnounceOn(s, t);
      } else {
        m := WakeOn(s, t);
      }
      longer := GoOn(run, from, m);
      longer := ReturnOf(longer, from, t);
    } else {
      assert s.producers == s.producers[t := Out];
    }
  }

  function Inside(s: State): set<nat> {
    set t | t in s.producers && s.producers[t] != Out
  }

  lemma {:induction false} AllReturn(run: seq<State>, from: nat) returns (longer: seq<State>)
    requires NothingNew(run, from) && Live(Last(run))
    ensures NothingNew(longer, from) && run <= longer && Settled(Last(longer)) && Last(longer).put == Last(run).put
    decreases Inside(Last(run))
  {
    longer := run;
    if t :| t in Inside(Last(run)) {
      longer := ReturnOf(run, from, t);
      assert Inside(Last(longer)) == Inside(Last(run)) - {t};
      longer := AllReturn(longer, from);
    } else {
      forall t | t in Last(run).producers
        ensures Last(run).producers[t] == Out
      {
        assert t !in Inside(Last(run));
      }
    }
  }

  // What a run gives in a settled state.
  ghost predicate Sound(s: State) {
    && Inv(s) && Settled(s)
    && (forall j | 0 <= j < |s.q.ext| :: s.q.ext[j].published)
  }

  lemma LastSound(run: seq<State>)
    requires IsRun(run) && Settled(Last(run))
    ensures Sound(Last(run))
  {
    var s := Last(run);
    RunInv(run, |run| - 1);
    RunCells(run, |run| - 1);
    forall j | 0 <= j < |s.q.ext|
      ensures s.q.ext[j].published
    {
      assert CellOk(s, s.q.ext[j]);
    }
  }

  // ---- Work gets done ----

  lemma {:induction false} SomeEntry(a: seq<nat>) returns (i: nat)
    requires Total(a) > 0
    ensures i < |a| && a[i] > 0
  {
    var last := |a| - 1;
    if a[last] > 0 {
      i := last;
    } else {
      i := SomeEntry(a[..last]);
    }
  }

  // A search that has still to look at these sources will find something.
  ghost predicate Finds(q: Queues, todo: set<nat>) {
    || q.local > 0 || Poppable(q)
    || exists i :: i in todo && IsSource(q, i) && q.spsc[i] > 0
  }

  lemma FreshSearchFinds(s: State)
    requires Sound(s) && Waiting(s.q) > 0
    ensures Finds(s.q, Sources(s.q))
  {
    if s.q.local == 0 && |s.q.ext| == 0 {
      var i := SomeEntry(s.q.spsc);
      assert i in Sources(s.q) && IsSource(s.q, i);
    }
  }

  // Something is available that the executor, about to sleep, has not been told about: so the wake
  // epoch has moved on, and a blocked IO thread has a readable eventfd.
  lemma EpochMovedOn(s: State)
    requires Sound(s) && Waiting(s.q) > 0 && (s.exec.CheckEpoch? || s.exec.Enter? || s.exec.Blocked?)
    ensures s.f.epoch != s.exec.o
    ensures s.exec.Blocked? ==> s.io && s.f.eventfd > 0
  {
    FreshSearchFinds(s);
    var item := External;
    if !Poppable(s.q) {
      var i :| i in Sources(s.q) && IsSource(s.q, i) && s.q.spsc[i] > 0;
      item := Source(i);
    }
    assert Missed(s.exec, item) && Available(s, item);
  }

  // Entries to execute, and how far the executor is from the next one.
  function Owed(s: State): nat {
    2 * Waiting(s.q) + One(InHand(s.exec))
  }

  function Width(q: Queues): nat {
    |Sources(q)|
  }

  ghost function Distance(s: State): nat {
    var w := Width(s.q);
    match s.exec
    case Scan(todo, _) => if Finds(s.q, todo) then |todo| else w + 6 + |todo|
    case ScanAgain(_, todo) => if Finds(s.q, todo) then |todo| else w + 7 + |todo|
    case Run(_) => 0
    case ClearSleeping(popped) => if popped then 1 else w + 1
    case ReadStopAgain(_) => w + 1
    case SetSleeping(_) => w + 2
    case ClearPending(_) => w + 2
    case Observe => w + 3
    case Drain(_) => w + 3
    case Poll => w + 4
    case Blocked(_) => w + 4
    case ReadStop(_) => w + 5
    case Enter(_) => w + 5
    case CheckEpoch(_) => w + 6
    case Exited => 0
  }

  ghost predicate Nearer(s: State, m: State) {
    && ExecStep(s, m) && Settled(m)
    && (Owed(m) < Owed(s) || (Owed(m) == Owed(s) && Distance(m) < Distance(s)))
  }

  // Looks at a source that has an entry, if one is left, or else at any.
  lemma PickSource(q: Queues, todo: set<nat>) returns (i: nat)
    ensures todo != {} ==> i in todo
    ensures todo != {} && (exists k :: k in todo && IsSource(q, k) && q.spsc[k] > 0) ==> IsSource(q, i) && q.spsc[i] > 0
  {
    i := 0;
    if k :| k in todo && IsSource(q, k) && q.spsc[k] > 0 {
      i := k;
    } else if k :| k in todo {
      i := k;
    }
  }

  lemma CrossOff(q: Queues, todo: set<nat>, i: nat)
    requires q.local == 0 && i in todo && !(IsSource(q, i) && q.spsc[i] > 0)
    ensures Finds(q, todo - {i}) <==> Finds(q, todo)
    ensures |todo - {i}| < |todo|
  {
    if k :| k in todo && IsSource(q, k) && q.spsc[k] > 0 {
      assert k in todo - {i};
    }
  }

  // One look of a search: it takes an entry, or crosses off a source, or ends without a find.
  lemma Looks(q: Queues, todo: set<nat>) returns (i: nat)
    ensures todo != {} ==> i in todo
    ensures var (q', r) := PopOnce(q, todo, i);
            && Waiting(q') + One(r == Found) == Waiting(q)
            && (r.More? ==> q' == q && |r.rest| < |todo| && (Finds(q, r.rest) <==> Finds(q, todo)))
            && (r == Nothing ==> q' == q && !Finds(q, todo) && |todo| == 0)
  {
    i := PickSource(q, todo);
    PopTakesOne(q, todo, i);
    if q.local == 0 && todo != {} && !(IsSource(q, i) && q.spsc[i] > 0) {
      CrossOff(q, todo, i);
    }
  }

  lemma SearchOn(s: State) returns (m: State)
    requires Settled(s) && s.exec.Scan?
    ensures Nearer(s, m)
  {
    var Scan(todo, did) := s.exec;
    var i := Looks(s.q, todo);
    var (q, r) := PopOnce(s.q, todo, i);
    m := s.(q := q, exec := match r case Found => Run(true) case More(rest) => Scan(rest, did) case Nothing => ReadStop(did));
    assert WorkStep(s, m, i);
  }

  lemma SearchAgainOn(s: State) returns (m: State)
    requires Settled(s) && s.exec.ScanAgain?
    ensures Nearer(s, m)
  {
    var ScanAgain(o, todo) := s.exec;
    var i := Looks(s.q, todo);
    var (q, r) := PopOnce(s.q, todo, i);
    m := s.(q := q, exec := match r case Found => ClearSleeping(true) case More(rest) => ScanAgain(o, rest)
                                     case Nothing => CheckEpoch(o));
    assert WorkStep(s, m, i);
  }

  lemma RunOn(s: State) returns (m: State)
    requires Settled(s) && s.exec.Run?
    ensures Nearer(s, m)
  {
    m := s.(exec := Scan(Sources(s.q), s.exec.did), ran := s.ran + 1);
    assert WorkStep(s, m, 0);
  }

  // Where the executor goes next outside a search and a task, when there is work.
  function Onward(s: State): ExecPc {
    match s.exec
    case ReadStop(_) => Poll
    case Poll => Observe
    case Observe => SetSleeping(s.f.epoch)
    case SetSleeping(o) => ReadStopAgain(o)
    case ReadStopAgain(o) => ScanAgain(o, Sources(s.q))
    case CheckEpoch(o) => ClearSleeping(false)
    case Enter(o) => if s.io then Blocked(o) else ClearSleeping(false)
    case Blocked(_) => Drain(false)
    case Drain(polling) => ClearPending(polling)
    case ClearPending(polling) => if polling then Scan(Sources(s.q), false) else ClearSleeping(false)
    case ClearSleeping(popped) => if popped then Run(false) else Scan(Sources(s.q), false)
    case pc => pc
  }

  function OnwardFlags(s: State): Flags {
    match s.exec
    case SetSleeping(_) => s.f.(sleeping := true)
    case Drain(_) => s.f.(eventfd := 0)
    case ClearPending(_) => s.f.(pending := false)
    case ClearSleeping(_) => s.f.(sleeping := false)
    case _ => s.f
  }

  lemma PassOn(s: State) returns (m: State)
    requires Sound(s) && !s.exec.Scan? && !s.exec.ScanAgain? && !s.exec.Run?
    requires Waiting(s.q) > 0 || InHand(s.exec)
    ensures Nearer(s, m)
  {
    m := s.(exec := Onward(s), f := OnwardFlags(s));
    if Waiting(s.q) > 0 {
      FreshSearchFinds(s);
      if s.exec.CheckEpoch? || s.exec.Enter? || s.exec.Blocked? {
        EpochMovedOn(s);
      }
    }
    assert SleepStep(s, m, 0);
  }

  lemma WorkerOn(s: State) returns (m: State)
    requires Sound(s) && (Waiting(s.q) > 0 || InHand(s.exec))
    ensures Nearer(s, m)
  {
    if s.exec.Scan? {
      m := SearchOn(s);
    } else if s.exec.ScanAgain? {
      m := SearchAgainOn(s);
    } else if s.exec.Run? {
      m := RunOn(s);
    } else {
      m := PassOn(s);
    }
  }

  lemma {:induction false} WorkOff(run: seq<State>, from: nat) returns (longer: seq<State>)
    requires NothingNew(run, from) && Settled(Last(run))
    ensures NothingNew(longer, from) && run <= longer && Settled(Last(longer)) && Last(longer).put == Last(run).put
    ensures Waiting(Last(longer).q) == 0 && !InHand(Last(longer).exec)
    decreases Owed(Last(run)), Distance(Last(run))
  {
    longer := run;
    if Waiting(Last(run).q) > 0 || InHand(Last(run).exec) {
      LastSound(run);
      var m := WorkerOn(Last(run));
      longer := GoOn(run, from, m);
      longer := WorkOff(longer, from);
    }
  }

  // ---- And then it sleeps ----

  // The executor observed the current wake epoch before it set out to sleep.
  predicate Fresh(s: State) {
    match s.exec
    case SetSleeping(o) => o == s.f.epoch
    case ReadStopAgain(o) => o == s.f.epoch
    case ScanAgain(o, _) => o == s.f.epoch
    case CheckEpoch(o) => o == s.f.epoch
    case Enter(o) => s.io || o == s.f.epoch
    case _ => true
  }

  ghost function ToSleep(s: State): nat {
    var w := Width(s.q);
    var again := if Fresh(s) then 0 else 2 * w + 10;
    match s.exec
    case Blocked(_) => 0
    case Enter(_) => again + 1
    case CheckEpoch(_) => again + 2
    case ScanAgain(_, todo) => again + 3 + |todo|
    case ReadStopAgain(_) => again + w + 4
    case SetSleeping(_) => again + w + 5
    case Observe => w + 6
    case Poll => w + 7
    case ReadStop(_) => w + 8
    case Scan(todo, _) => w + 9 + |todo|
    case ClearSleeping(_) => 2 * w + 10
    case ClearPending(_) => 2 * w + 11
    case Drain(_) => 2 * w + 12
    case _ => 0
  }

  // Nothing waits and nothing is in hand.
  predicate Dry(s: State) {
    Waiting(s.q) == 0 && !InHand(s.exec)
  }

  ghost predicate Sleepier(s: State, m: State) {
    ExecStep(s, m) && Settled(m) && Dry(m) && ToSleep(m) < ToSleep(s)
  }

  lemma DrySearchOn(s: State) returns (m: State)
    requires Settled(s) && Dry(s) && s.exec.Scan?
    ensures Sleepier(s, m)
  {
    var i := Looks(s.q, s.exec.todo);
    var (q, r) := PopOnce(s.q, s.exec.todo, i);
    m := s.(exec := if r.More? then Scan(r.rest, s.exec.did) else ReadStop(s.exec.did));
    assert WorkStep(s, m, i);
  }

  lemma DrySearchAgainOn(s: State) returns (m: State)
    requires Settled(s) && Dry(s) && s.exec.ScanAgain?
    ensures Sleepier(s, m)
  {
    var i := Looks(s.q, s.exec.todo);
    var (q, r) := PopOnce(s.q, s.exec.todo, i);
    m := s.(exec := if r.More? then ScanAgain(s.exec.o, r.rest) else CheckEpoch(s.exec.o));
    assert WorkStep(s, m, i);
  }

  // Where it goes next when there is nothing to do.
  function Homeward(s: State): ExecPc {
    match s.exec
    case CheckEpoch(o) => if o == s.f.epoch then Enter(o) else ClearSleeping(false)
    case Enter(o) => if Fresh(s) then Blocked(o) else ClearSleeping(false)
    case _ => Onward(s)
  }

  lemma DryPassOn(s: State) returns (m: State)
    requires Settled(s) && Dry(s) && !s.exec.Scan? && !s.exec.ScanAgain? && !s.exec.Blocked?
    ensures Sleepier(s, m)
  {
    m := s.(exec := Homeward(s), f := OnwardFlags(s));
    assert SleepStep(s, m, 0);
  }

  lemma {:induction false} SleepOff(run: seq<State>, from: nat) returns (longer: seq<State>)
    requires NothingNew(run, from) && Settled(Last(run)) && Dry(Last(run))
    ensures NothingNew(longer, from) && run <= longer && Settled(Last(longer)) && Last(longer).put == Last(run).put
    ensures Dry(Last(longer)) && Last(longer).exec.Blocked?
    decreases ToSleep(Last(run))
  {
    var s := Last(run);
    longer := run;
    if !s.exec.Blocked? {
      var m;
      if s.exec.Scan? {
        m := DrySearchOn(s);
      } else if s.exec.ScanAgain? {
        m := DrySearchAgainOn(s);
      } else {
        m := DryPassOn(s);
      }
      longer := GoOn(run, from, m);
      longer := SleepOff(longer, from);
    }
  }

  /** However a run has gone, as long as no stop is requested it can be continued, with nothing new
    * put in, to a state in which the producers have returned, every entry ever put in has been
    * executed, and the executor sleeps.
    */
  lemma WorksThenSleeps(run: seq<State>) returns (longer: seq<State>)
    requires IsRun(run) && Live(Last(run))
    ensures NothingNew(longer, |run| - 1) && run <= longer && Last(longer).exec.Blocked?
    ensures Last(longer).ran == Last(longer).put == Last(run).put
  {
    longer := AllReturn(run, |run| - 1);
    longer := WorkOff(longer, |run| - 1);
    longer := SleepOff(longer, |run| - 1);
    NoEntryIsDropped(longer, |longer| - 1);
  }
}
