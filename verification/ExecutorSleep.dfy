/** How an executor goes to sleep and how producers wake it: the wake epoch, the sleeping
  * flag and, on an IO thread, the eventfd with its pending flag. One atomic access per step,
  * any number of producers.
  *
  * The ready bits only steer the order in which `pop_one` looks at the queues: a fruitless
  * `pop_one` has looked at every source and then at the external queue. The external-ready flag
  * also decides whether a producer wakes the executor in any case or only when it sleeps; the
  * executor lowers and raises it while it looks for work. Tasks that run and IO events that are
  * polled put entries into the executor's own ring. Successful eventfd writes are assumed; the wake
  * epoch does not wrap.
  */
module ExecutorSleep {

  // What can be waiting for the executor.
  datatype Item = Source(i: nat) | External | Stop

  // A cell of the external queue: reserved by a producer, then published.
  datatype Cell = Cell(producer: nat, published: bool)

  datatype ExecPc =
    | Scan(todo: set<nat>, did: bool)              // pop_one at the head of the loop
    | Run(did: bool)                               // executing a task; `did` is for the scan after it
    | ReadStop(did: bool)
    | Poll                                         // poll_io(0)
    | Observe                                      // observed = wake_epoch_
    | SetSleeping(o: nat)
    | ReadStopAgain(o: nat)
    | ScanAgain(o: nat, todo: set<nat>)            // pop_one with the sleeping flag up
    | CheckEpoch(o: nat)
    | Enter(o: nat)                                // wait(observed), or epoll_wait without timeout
    | Blocked(o: nat)
    | Drain(polling: bool) | ClearPending(polling: bool)
    | ClearSleeping(popped: bool)
    | Exited

  datatype ProducerPc =
    | Out
    | Publish                                      // external queue: cell reserved, not published
    | ReadReady | SetReady                         // notify_external_ready
    | Advance(force: bool, item: Item)             // wake_epoch_.fetch_add
    | NotifyOne                                    // wake_epoch_.notify_one
    | ReadSleeping | ClaimSleeping                 // load, then CAS true -> false
    | ClaimPending | Write                         // CAS false -> true, then write the eventfd

  // Everything the executor can take work from.
  datatype Queues = Queues(
    local: nat,                                    // entries of the executor's own ring
    spsc: seq<nat>,                                // entries per source
    ext: seq<Cell>)

  datatype Flags = Flags(
    epoch: nat,
    sleeping: bool,
    pending: bool,
    eventfd: nat,
    stop: bool,
    ready: bool)                                   // external_ready_

  datatype State = State(
    io: bool,                                      // an IO thread with a working backend
    q: Queues,
    f: Flags,
    exec: ExecPc,
    producers: map<nat, ProducerPc>,
    put: nat,                                      // history: entries put into any queue so far
    ran: nat)                                      // history: tasks executed so far

  ghost predicate Init(s: State) {
    && s.f == Flags(0, false, false, 0, false, false)
    && s.q.local == 0 && s.q.ext == [] && (forall i | 0 <= i < |s.q.spsc| :: s.q.spsc[i] == 0)
    && s.exec == Scan(Sources(s.q), false)
    && (forall t | t in s.producers :: s.producers[t] == Out)
    && s.put == 0 && s.ran == 0
  }

  predicate IsSource(q: Queues, i: nat) {
    i < |q.spsc|
  }

  function Sources(q: Queues): set<nat> {
    set i: nat | i < |q.spsc| && IsSource(q, i)
  }

  predicate Poppable(q: Queues) {
    |q.ext| > 0 && q.ext[0].published
  }

  predicate Available(s: State, item: Item) {
    match item
    case Source(i) => IsSource(s.q, i) && s.q.spsc[i] > 0
    case External => Poppable(s.q)
    case Stop => s.f.stop
  }

  datatype PopResult = Found | More(rest: set<nat>) | Nothing

  // One step of a pop_one that has still to look at `todo`, source i next: what it finds,
  // and the queues afterwards.
  function PopOnce(q: Queues, todo: set<nat>, i: nat): (Queues, PopResult) {
    if q.local > 0 then (q.(local := q.local - 1), Found)
    else if todo != {} then
      if IsSource(q, i) && q.spsc[i] > 0 then (q.(spsc := q.spsc[i := q.spsc[i] - 1]), Found)
      else (q, More(todo - {i}))
    else if Poppable(q) then (q.(ext := q.ext[1..]), Found)
    else (q, Nothing)
  }

  // The executor's own thread puts n entries into its own ring.
  function PutLocal(s: State, n: nat): State {
    s.(q := s.q.(local := s.q.local + n), put := s.put + n)
  }

  // Looking for work and executing it; `i` is the source looked at, if one is.
  ghost predicate WorkStep(s: State, s': State, i: nat) {
    match s.exec
    case Scan(todo, did) =>
      && (todo != {} ==> i in todo)
      && var (q, r) := PopOnce(s.q, todo, i);
         s' == s.(q := q, exec := match r case Found => Run(true) case More(rest) => Scan(rest, did)
                                          case Nothing => ReadStop(did))
    case ScanAgain(o, todo) =>
      && (todo != {} ==> i in todo)
      && var (q, r) := PopOnce(s.q, todo, i);
         s' == s.(q := q, exec := match r case Found => ClearSleeping(true) case More(rest) => ScanAgain(o, rest)
                                          case Nothing => CheckEpoch(o))
    case Run(did) =>
      || s' == s.(exec := Scan(Sources(s.q), did), ran := s.ran + 1)
      || s' == PutLocal(s, 1)                                                // the task posts to its own executor
    case _ => false
  }

  // pop_one lowers the external-ready flag when it finds the external queue empty, and raises
  // it again when it then finds an entry after all.
  ghost predicate ReadyStep(s: State, s': State, raised: bool) {
    && (s.exec.Scan? || s.exec.ScanAgain? || s.exec.Run? || s.exec.ClearSleeping?)
    && s' == s.(f := s.f.(ready := raised))
  }

  // The way into the wait and out of it; IO events put n waiting tasks into the executor's own ring.
  ghost predicate SleepStep(s: State, s': State, n: nat) {
    match s.exec
    case ReadStop(did) =>
      s' == s.(exec := if !s.f.stop then Poll else if did then Scan(Sources(s.q), false) else Exited)
    case Poll =>
      || s' == s.(exec := Observe)
      || (s.io && s' == PutLocal(s, n).(exec := Scan(Sources(s.q), false)))  // other IO events
      || (s.io && s.f.eventfd > 0 && s' == PutLocal(s, n).(exec := Drain(true)))
    case Observe => s' == s.(exec := SetSleeping(s.f.epoch))
    case SetSleeping(o) => s' == s.(exec := ReadStopAgain(o), f := s.f.(sleeping := true))
    case ReadStopAgain(o) => s' == s.(exec := if s.f.stop then ClearSleeping(false) else ScanAgain(o, Sources(s.q)))
    case CheckEpoch(o) => s' == s.(exec := if s.f.epoch != o then ClearSleeping(false) else Enter(o))
    case Enter(o) => s' == s.(exec := if !s.io && s.f.epoch != o then ClearSleeping(false) else Blocked(o))
    case Blocked(o) =>
      && s.io
      && ((s.f.eventfd > 0 && s' == PutLocal(s, n).(exec := Drain(false)))
          || s' == PutLocal(s, n).(exec := ClearSleeping(false)))
    case Drain(polling) => s' == s.(exec := ClearPending(polling), f := s.f.(eventfd := 0))
    case ClearPending(polling) =>
      s' == s.(exec := if polling then Scan(Sources(s.q), false) else ClearSleeping(false),
               f := s.f.(pending := false))
    case ClearSleeping(popped) =>
      s' == s.(exec := if popped then Run(false) else Scan(Sources(s.q), false), f := s.f.(sleeping := false))
    case _ => false
  }

  // A producer makes something available: an entry of source i, a cell, or the stop flag.
  ghost predicate Offer(s: State, s': State, t: nat, i: nat) {
    && t in s.producers && s.producers[t] == Out
    && (|| (i < |s.q.spsc|
            && s' == To(s, t, Advance(false, Source(i))).(q := s.q.(spsc := s.q.spsc[i := s.q.spsc[i] + 1]), put := s.put + 1))
        || s' == To(s, t, Publish).(q := s.q.(ext := s.q.ext + [Cell(t, false)]), put := s.put + 1)
        || s' == To(s, t, Advance(true, Stop)).(f := s.f.(stop := true)))
  }

  function To(s: State, t: nat, pc: ProducerPc): State {
    s.(producers := s.producers[t := pc])
  }

  // From the offer to the new wake epoch; j is the producer's cell in the external queue.
  ghost predicate AnnounceStep(s: State, s': State, t: nat, j: nat) {
    && t in s.producers
    && match s.producers[t]
       case Publish =>
         && j < |s.q.ext| && s.q.ext[j] == Cell(t, false)
         && s' == To(s, t, ReadReady).(q := s.q.(ext := s.q.ext[j := Cell(t, true)]))
       case ReadReady => s' == To(s, t, if s.f.ready then Advance(false, External) else SetReady)
       case SetReady => s' == To(s, t, Advance(true, External)).(f := s.f.(ready := true))
       case Advance(force, item) =>
         s' == To(s, t, if !s.io then NotifyOne else if force then ClaimPending else ReadSleeping)
               .(f := s.f.(epoch := s.f.epoch + 1))
       case _ => false
  }

  // From the new wake epoch to the executor.
  ghost predicate WakeStep(s: State, s': State, t: nat) {
    && t in s.producers
    && match s.producers[t]
       case NotifyOne =>
         s' == To(s, t, Out).(exec := if s.exec.Blocked? && !s.io then Enter(s.exec.o) else s.exec)
       case ReadSleeping => s' == To(s, t, if s.f.sleeping then ClaimSleeping else Out)
       case ClaimSleeping =>
         s' == (if s.f.sleeping then To(s, t, ClaimPending).(f := s.f.(sleeping := false)) else To(s, t, Out))
       case ClaimPending =>
         s' == (if s.f.pending then To(s, t, Out) else To(s, t, Write).(f := s.f.(pending := true)))
       case Write => s' == To(s, t, Out).(f := s.f.(eventfd := s.f.eventfd + 1))
       case _ => false
  }

  ghost predicate Next(s: State, s': State) {
    || (exists n: nat :: SleepStep(s, s', n))
    || (exists i: nat :: WorkStep(s, s', i))
    || (exists raised: bool :: ReadyStep(s, s', raised))
    || (exists t: nat, i: nat :: Offer(s, s', t, i))
    || (exists t: nat, j: nat :: AnnounceStep(s, s', t, j))
    || (exists t: nat :: WakeStep(s, s', t))
  }

  ghost predicate NextAt(run: seq<State>, i: nat)
    requires i + 1 < |run|
  {
    Next(run[i], run[i + 1])
  }

  ghost predicate IsRun(run: seq<State>) {
    && |run| > 0 && Init(run[0])
    && forall i: nat | i + 1 < |run| :: NextAt(run, i)
  }

  // ---- The invariant ----

  // The producer has made the item available and will still advance the wake epoch.
  predicate Announces(pc: ProducerPc, item: Item) {
    (pc.Advance? && pc.item == item) || (item.External? && (pc.ReadReady? || pc.SetReady?))
  }

  ghost predicate Announced(s: State, item: Item) {
    exists t :: t in s.producers && Announces(s.producers[t], item)
  }

  // Between raising the sleeping flag and leaving the wait.
  predicate FlagUp(pc: ExecPc) {
    pc.ReadStopAgain? || pc.ScanAgain? || pc.CheckEpoch? || pc.Enter? || pc.Blocked?
  }

  // The executor has looked for the item since it read the wake epoch `o`, and not found it.
  predicate Missed(pc: ExecPc, item: Item) {
    || pc.CheckEpoch? || pc.Enter? || pc.Blocked?
    || (pc.ScanAgain? && (item.Stop? || (item.Source? && item.i !in pc.todo)))
  }

  // A producer that took the sleeping flag, or is not bound to it, is about to ring.
  predicate Ringing(pc: ProducerPc) {
    pc.ClaimPending? || pc.Write?
  }

  // A producer that advanced the epoch is still on its way to the executor.
  predicate OnItsWay(pc: ProducerPc) {
    pc.NotifyOne? || pc.ReadSleeping? || pc.ClaimSleeping? || pc.ClaimPending? || pc.Write?
  }

  ghost predicate Writing(s: State) {
    exists t :: t in s.producers && s.producers[t].Write?
  }

  ghost predicate Rings(s: State) {
    exists t :: t in s.producers && Ringing(s.producers[t])
  }

  ghost predicate Coming(s: State) {
    exists t :: t in s.producers && OnItsWay(s.producers[t])
  }

  ghost predicate EpochOk(s: State) {
    && (FlagUp(s.exec) || s.exec.SetSleeping? ==> s.exec.o <= s.f.epoch)
    && (forall item | Missed(s.exec, item) && Available(s, item) :: Announced(s, item) || s.f.epoch != s.exec.o)
  }

  // With entries in its own ring the executor is on its way to look for work.
  ghost predicate LocalOk(s: State) {
    s.q.local > 0 ==> s.exec.Scan? || s.exec.Run? || s.exec.Drain? || s.exec.ClearPending? || s.exec.ClearSleeping?
  }

  ghost predicate FlagsOk(s: State) {
    && (s.f.pending ==> s.f.eventfd > 0 || Writing(s) || s.exec.ClearPending?)
    && (s.io && FlagUp(s.exec) && !s.f.sleeping ==> s.f.eventfd > 0 || Rings(s))
    && ((s.exec.Enter? || s.exec.Blocked?) && s.io && s.f.epoch != s.exec.o ==> s.f.eventfd > 0 || Coming(s))
    && (s.exec.Blocked? && !s.io && s.f.epoch != s.exec.o ==> Coming(s))
    && (forall t | t in s.producers && OnItsWay(s.producers[t]) :: s.producers[t].NotifyOne? <==> !s.io)
  }

  ghost predicate Inv(s: State) {
    EpochOk(s) && FlagsOk(s) && LocalOk(s)
  }

  lemma InitInv(s: State)
    requires Init(s)
    ensures Inv(s)
  {
  }

  // ---- Every step keeps it ----

  lemma WorkKeepsEpoch(s: State, s': State, i: nat)
    requires EpochOk(s) && WorkStep(s, s', i)
    ensures EpochOk(s')
  {
    forall item | Missed(s'.exec, item) && Available(s', item)
      ensures Announced(s', item) || s'.f.epoch != s'.exec.o
    {
      assert Missed(s.exec, item) && Available(s, item);
      assert Announced(s', item) <==> Announced(s, item);
    }
  }

  lemma SleepKeepsEpoch(s: State, s': State, n: nat)
    requires EpochOk(s) && SleepStep(s, s', n)
    ensures EpochOk(s')
  {
    forall item | Missed(s'.exec, item) && Available(s', item)
      ensures Announced(s', item) || s'.f.epoch != s'.exec.o
    {
      assert Missed(s.exec, item) && Available(s, item);
      assert Announced(s', item) <==> Announced(s, item);
    }
  }

  // Announcements by other producers persist.
  lemma AnnouncedByOther(s: State, s': State, t: nat, item: Item)
    requires s'.producers.Keys == s.producers.Keys
    requires forall u | u in s.producers && u != t :: s'.producers[u] == s.producers[u]
    requires Announced(s, item) && t in s.producers
    requires Announces(s.producers[t], item) ==> Announces(s'.producers[t], item)
    ensures Announced(s', item)
  {
    var u :| u in s.producers && Announces(s.producers[u], item);
    assert Announces(s'.producers[u], item);
  }

  lemma OfferKeepsEpoch(s: State, s': State, t: nat, i: nat)
    requires EpochOk(s) && Offer(s, s', t, i)
    ensures EpochOk(s')
  {
    forall item | Missed(s'.exec, item) && Available(s', item)
      ensures Announced(s', item) || s'.f.epoch != s'.exec.o
    {
      if !Announces(s'.producers[t], item) {
        assert Available(s, item);
        if Announced(s, item) {
          AnnouncedByOther(s, s', t, item);
        }
      }
    }
  }

  lemma AnnounceKeepsEpoch(s: State, s': State, t: nat, j: nat)
    requires EpochOk(s) && AnnounceStep(s, s', t, j)
    ensures EpochOk(s')
  {
    if s'.f.epoch == s.f.epoch {
      forall item | Missed(s'.exec, item) && Available(s', item)
        ensures Announced(s', item) || s'.f.epoch != s'.exec.o
      {
        if !Announces(s'.producers[t], item) {
          assert Available(s, item);
          if Announced(s, item) {
            AnnouncedByOther(s, s', t, item);
          }
        }
      }
    }
  }

  lemma WakeKeepsEpoch(s: State, s': State, t: nat)
    requires EpochOk(s) && WakeStep(s, s', t)
    ensures EpochOk(s')
  {
    forall item | Missed(s'.exec, item) && Available(s', item)
      ensures Announced(s', item) || s'.f.epoch != s'.exec.o
    {
      assert Missed(s.exec, item) && Available(s, item);
      if Announced(s, item) {
        AnnouncedByOther(s, s', t, item);
      }
    }
  }

  lemma WorkKeepsFlags(s: State, s': State, i: nat)
    requires FlagsOk(s) && LocalOk(s) && WorkStep(s, s', i)
    ensures FlagsOk(s') && LocalOk(s')
  {
    assert (Writing(s') <==> Writing(s)) && (Rings(s') <==> Rings(s)) && (Coming(s') <==> Coming(s));
  }

  lemma ReadyKeepsInv(s: State, s': State, raised: bool)
    requires Inv(s) && ReadyStep(s, s', raised)
    ensures Inv(s')
  {
    assert (Writing(s') <==> Writing(s)) && (Rings(s') <==> Rings(s)) && (Coming(s') <==> Coming(s));
    forall item | Missed(s'.exec, item) && Available(s', item)
      ensures Announced(s', item) || s'.f.epoch != s'.exec.o
    {
      assert Available(s, item) && (Announced(s, item) ==> Announced(s', item));
    }
  }

  lemma SleepKeepsFlags(s: State, s': State, n: nat)
    requires FlagsOk(s) && LocalOk(s) && SleepStep(s, s', n)
    ensures FlagsOk(s') && LocalOk(s')
  {
    assert (Writing(s') <==> Writing(s)) && (Rings(s') <==> Rings(s)) && (Coming(s') <==> Coming(s));
  }

  // Producers other than t keep writing, ringing and coming.
  lemma OthersGoOn(s: State, s': State, t: nat)
    requires t in s.producers && s'.producers.Keys == s.producers.Keys
    requires forall u | u in s.producers && u != t :: s'.producers[u] == s.producers[u]
    ensures Writing(s) && (s.producers[t].Write? ==> s'.producers[t].Write?) ==> Writing(s')
    ensures Rings(s) && (Ringing(s.producers[t]) ==> Ringing(s'.producers[t])) ==> Rings(s')
    ensures Coming(s) && (OnItsWay(s.producers[t]) ==> OnItsWay(s'.producers[t])) ==> Coming(s')
    ensures s'.producers[t].Write? ==> Writing(s')
    ensures Ringing(s'.producers[t]) ==> Rings(s')
    ensures OnItsWay(s'.producers[t]) ==> Coming(s')
    ensures Writing(s') ==> Rings(s') && Coming(s')
    ensures Rings(s') ==> Coming(s')
  {
    if Writing(s) {
      var u :| u in s.producers && s.producers[u].Write?;
      assert u != t ==> s'.producers[u].Write?;
    }
    if Rings(s) {
      var u :| u in s.producers && Ringing(s.producers[u]);
      assert u != t ==> Ringing(s'.producers[u]);
    }
    if Coming(s) {
      var u :| u in s.producers && OnItsWay(s.producers[u]);
      assert u != t ==> OnItsWay(s'.producers[u]);
    }
    if Writing(s') {
      var u :| u in s'.producers && s'.producers[u].Write?;
      assert Ringing(s'.producers[u]);
    }
    if Rings(s') {
      var u :| u in s'.producers && Ringing(s'.producers[u]);
      assert OnItsWay(s'.producers[u]);
    }
  }

  lemma OfferHasEffect(s: State, s': State, t: nat, i: nat)
    requires Offer(s, s', t, i)
    ensures t in s.producers && s'.producers.Keys == s.producers.Keys
    ensures forall u | u in s.producers && u != t :: s'.producers[u] == s.producers[u]
    ensures s'.exec == s.exec && s'.io == s.io && s'.q.local == s.q.local
    ensures s'.f == s.f.(stop := s'.f.stop)
    ensures !OnItsWay(s.producers[t]) && !Ringing(s.producers[t]) && !s.producers[t].Write?
    ensures !OnItsWay(s'.producers[t])
  {
  }

  lemma OfferKeepsFlags(s: State, s': State, t: nat, i: nat)
    requires FlagsOk(s) && LocalOk(s) && Offer(s, s', t, i)
    ensures FlagsOk(s') && LocalOk(s')
  {
    OfferHasEffect(s, s', t, i);
    OthersGoOn(s, s', t);
  }

  // Announcing leaves the flags alone, and after the epoch a notification is on its way.
  lemma AnnounceHasEffect(s: State, s': State, t: nat, j: nat)
    requires AnnounceStep(s, s', t, j)
    ensures t in s.producers && s'.producers.Keys == s.producers.Keys
    ensures forall u | u in s.producers && u != t :: s'.producers[u] == s.producers[u]
    ensures s'.exec == s.exec && s'.io == s.io && s'.q.local == s.q.local
    ensures s'.f == s.f.(epoch := s'.f.epoch, ready := s'.f.ready)
    ensures !OnItsWay(s.producers[t]) && !Ringing(s.producers[t]) && !s.producers[t].Write?
    ensures OnItsWay(s'.producers[t]) ==> (s'.producers[t].NotifyOne? <==> !s.io)
    ensures s'.f.epoch != s.f.epoch ==> OnItsWay(s'.producers[t])
  {
  }

  lemma AnnounceKeepsFlags(s: State, s': State, t: nat, j: nat)
    requires FlagsOk(s) && LocalOk(s) && AnnounceStep(s, s', t, j)
    ensures FlagsOk(s') && LocalOk(s')
  {
    AnnounceHasEffect(s, s', t, j);
    OthersGoOn(s, s', t);
  }

  lemma NotifyKeepsFlags(s: State, s': State, t: nat)
    requires FlagsOk(s) && LocalOk(s) && WakeStep(s, s', t) && s.producers[t].NotifyOne?
    ensures FlagsOk(s') && LocalOk(s')
  {
    OthersGoOn(s, s', t);
  }

  lemma RingKeepsFlags(s: State, s': State, t: nat)
    requires FlagsOk(s) && LocalOk(s) && WakeStep(s, s', t) && Ringing(s.producers[t])
    ensures FlagsOk(s') && LocalOk(s')
  {
    OthersGoOn(s, s', t);
  }

  // The handshake itself: a producer leaves without ringing only if somebody else rings,
  // has rung, or the executor is not waiting.
  lemma WakeKeepsFlags(s: State, s': State, t: nat)
    requires FlagsOk(s) && LocalOk(s) && WakeStep(s, s', t)
    ensures FlagsOk(s') && LocalOk(s')
  {
    if s.producers[t].NotifyOne? {
      NotifyKeepsFlags(s, s', t);
    } else if Ringing(s.producers[t]) {
      RingKeepsFlags(s, s', t);
    } else {
      OthersGoOn(s, s', t);
    }
  }

  lemma StepKeepsInv(s: State, s': State)
    requires Inv(s) && Next(s, s')
    ensures Inv(s')
  {
    if n: nat :| SleepStep(s, s', n) {
      SleepKeepsEpoch(s, s', n);
      SleepKeepsFlags(s, s', n);
    } else if i: nat :| WorkStep(s, s', i) {
      WorkKeepsEpoch(s, s', i);
      WorkKeepsFlags(s, s', i);
    } else if raised: bool :| ReadyStep(s, s', raised) {
      ReadyKeepsInv(s, s', raised);
    } else if t: nat, i: nat :| Offer(s, s', t, i) {
      OfferKeepsEpoch(s, s', t, i);
      OfferKeepsFlags(s, s', t, i);
    } else if t: nat, j: nat :| AnnounceStep(s, s', t, j) {
      AnnounceKeepsEpoch(s, s', t, j);
      AnnounceKeepsFlags(s, s', t, j);
    } else {
      var t: nat :| WakeStep(s, s', t);
      WakeKeepsEpoch(s, s', t);
      WakeKeepsFlags(s, s', t);
    }
  }

  lemma {:induction false} RunInv(run: seq<State>, i: nat)
    requires IsRun(run) && i < |run|
    ensures Inv(run[i])
  {
    if i == 0 {
      InitInv(run[0]);
    } else {
      RunInv(run, i - 1);
      assert NextAt(run, i - 1);
      StepKeepsInv(run[i - 1], run[i]);
    }
  }

  /** An executor blocked in its wait never has work, or a stop request, that nobody is going
    * to tell it about: whoever offered it has still to advance the wake epoch, or a producer
    * is on its way to wake the executor, or the eventfd is already readable.
    */
  lemma NeverSleepsOnWork(run: seq<State>, i: nat, item: Item)
    requires IsRun(run) && i < |run| && run[i].exec.Blocked? && Available(run[i], item)
    ensures Announced(run[i], item) || Coming(run[i]) || (run[i].io && run[i].f.eventfd > 0)
    ensures run[i].q.local == 0
  {
    RunInv(run, i);
    assert Missed(run[i].exec, item);
  }

  /** Once every producer has returned, a worker is not blocked while anything is available,
    * and an IO thread is not blocked for good: its eventfd is readable.
    */
  lemma NoMissedWakeup(run: seq<State>, i: nat, item: Item)
    requires IsRun(run) && i < |run| && run[i].exec.Blocked? && Available(run[i], item)
    requires forall t | t in run[i].producers :: run[i].producers[t] == Out
    ensures run[i].io && run[i].f.eventfd > 0
  {
    NeverSleepsOnWork(run, i, item);
  }
}
