/** How the log consumer task parks and is woken: the Idle / Active / Parking handshake.
  *
  * One atomic access per step; any number of threads raise the ready count and wake. The
  * runtime's part is kept to one bit: a run of the consumer task is owed to it, or not.
  * Whether a stop was requested with nothing pending is left open at each check.
  */
module LogConsumer {

  datatype WakeState = Idle | Active | Parking

  // A thread in wake_async_log_consumer; `raised` if it moved the ready count away from zero.
  datatype Waker =
    | Out
    | Check(raised: bool)             // reads `finished`
    | Exchange(raised: bool)
    | Claim                           // found Idle; decides between start and wake
    | Schedule(first: bool)
    | UndoStart                       // scheduling was rejected
    | UndoWake

  // The consumer task: between runs, or inside run().
  datatype Task =
    | Parked
    | MarkRunning
    | Drain
    | CheckStop
    | CheckReady
    | StoreParking
    | RecheckReady
    | TryIdle                         // saw no ready record after storing Parking
    | StoreActive
    | ReturnPending                   // stored Idle; about to return pending
    | StoreFinished
    | SetFinished
    | Done

  datatype Shared = Shared(ready: nat, wake: WakeState, started: bool, finished: bool)

  // `idles` and `wakes` count how often Idle was stored and a run was scheduled by a wake.
  datatype History = History(idles: nat, wakes: nat, rejected: bool)

  datatype State = State(mem: Shared, owed: bool, task: Task, wakers: map<nat, Waker>, hist: History)

  ghost predicate Init(s: State) {
    && s.mem == Shared(0, Idle, false, false) && !s.owed && s.task == Parked
    && s.hist == History(1, 0, false)
    && (forall t | t in s.wakers :: s.wakers[t] == Out)
  }

  // ---- Wakers ----

  ghost predicate Moves(s: State, s': State, t: nat, w: Waker) {
    s'.wakers == s.wakers[t := w] && s'.task == s.task
  }

  ghost predicate NotifyStep(s: State, s': State, t: nat, raise: bool) {
    && t in s.wakers && s'.owed == s.owed && s'.hist == s.hist
    && var m := s.mem;
       match s.wakers[t]
       case Out =>
         if raise then                // a producer announces a record
           s'.mem == m.(ready := m.ready + 1) && Moves(s, s', t, if m.ready == 0 then Check(true) else Out)
         else                         // a flush or a shutdown wakes the consumer
           s'.mem == m && Moves(s, s', t, Check(false))
       case Check(raised) => s'.mem == m && Moves(s, s', t, if m.finished then Out else Exchange(raised))
       case Exchange(_) => s'.mem == m.(wake := Active) && Moves(s, s', t, if m.wake == Idle then Claim else Out)
       case Claim => s'.mem == m.(started := true) && Moves(s, s', t, Schedule(!m.started))
       case _ => false
  }

  ghost predicate ScheduleStep(s: State, s': State, t: nat) {
    && t in s.wakers
    && match s.wakers[t]
       case Schedule(first) =>
         || (s'.mem == s.mem && s'.owed && s'.hist == s.hist.(wakes := s.hist.wakes + 1) && Moves(s, s', t, Out))
         || (s'.mem == s.mem && s'.owed == s.owed && s'.hist == s.hist.(rejected := true)
             && Moves(s, s', t, if first then UndoStart else UndoWake))
       case UndoStart =>
         s'.mem == s.mem.(started := false) && s'.owed == s.owed && s'.hist == s.hist && Moves(s, s', t, UndoWake)
       case UndoWake =>
         s'.mem == s.mem.(wake := Idle) && s'.owed == s.owed && s'.hist == s.hist && Moves(s, s', t, Out)
       case _ => false
  }

  // ---- The task ----

  // A run that returns again() owes the next one.
  ghost predicate RunStep(s: State, s': State, n: nat, stop: bool) {
    && s'.wakers == s.wakers
    && var m := s.mem;
       match s.task
       case Parked => s.owed && s'.mem == m && !s'.owed && s'.task == MarkRunning && s'.hist == s.hist
       case MarkRunning => s'.mem == m.(wake := Active) && s'.owed == s.owed && s'.task == Drain && s'.hist == s.hist
       case Drain =>
         && s'.owed == s.owed && s'.hist == s.hist
         && (|| (0 < n <= m.ready && s'.mem == m.(ready := m.ready - n) && s'.task == Drain)
             || (s'.mem == m && s'.task == CheckStop))
       case CheckStop =>
         s'.mem == m && s'.owed == s.owed && s'.task == (if stop then StoreFinished else CheckReady) && s'.hist == s.hist
       case CheckReady =>
         && s'.mem == m && s'.hist == s.hist
         && (if m.ready != 0 then s'.owed && s'.task == Parked else s'.owed == s.owed && s'.task == StoreParking)
       case _ => false
  }

  ghost predicate ParkStep(s: State, s': State, stop: bool) {
    && s'.wakers == s.wakers
    && var m := s.mem;
       match s.task
       case StoreParking => s'.mem == m.(wake := Parking) && s'.owed == s.owed && s'.task == RecheckReady && s'.hist == s.hist
       case RecheckReady =>
         && s'.mem == m && s'.owed == s.owed && s'.hist == s.hist
         && s'.task == if m.ready == 0 && !stop then TryIdle else StoreActive
       case TryIdle =>
         if m.wake == Parking then
           && s'.mem == m.(wake := Idle) && s'.owed == s.owed && s'.task == ReturnPending
           && s'.hist == s.hist.(idles := s.hist.idles + 1)
         else
           s'.mem == m && s'.owed && s'.task == Parked && s'.hist == s.hist
       case StoreActive => s'.mem == m.(wake := Active) && s'.owed && s'.task == Parked && s'.hist == s.hist
       case ReturnPending => s'.mem == m && s'.owed == s.owed && s'.task == Parked && s'.hist == s.hist
       case StoreFinished =>
         s'.mem == m.(wake := Active) && s'.owed == s.owed && s'.task == SetFinished && s'.hist == s.hist
       case SetFinished =>
         s'.mem == m.(finished := true) && s'.owed == s.owed && s'.task == Done && s'.hist == s.hist
       case _ => false
  }

  ghost predicate Next(s: State, s': State) {
    || (exists t: nat, raise: bool :: NotifyStep(s, s', t, raise))
    || (exists t: nat :: ScheduleStep(s, s', t))
    || (exists n: nat, stop: bool :: RunStep(s, s', n, stop))
    || (exists stop: bool :: ParkStep(s, s', stop))
  }

  ghost predicate NextAt(run: seq<State>, i: nat)
    requires i + 1 < |run|
  {
    Next(run[i], run[i + 1])
  }

  ghost predicate IsRun(run: seq<State>) {
    && |run| > 0 && Init(run[0])
    && forall i: nat | i + 1 < |run| :: NextAt(run, i)
  }

  // ---- Invariant ----

  // Threads that made the ready count non-zero and have yet to exchange the wake state.
  function Raisers(wakers: map<nat, Waker>): set<nat> {
    set t | t in wakers && (wakers[t].Check? || wakers[t].Exchange?) && wakers[t].raised
  }

  // Threads that found Idle and have yet to schedule the task, or to undo that.
  function Claimers(wakers: map<nat, Waker>): set<nat> {
    set t | t in wakers && Claims(wakers[t])
  }

  // In a run that has not given up its turn.
  predicate InRun(task: Task) {
    !task.Parked? && !task.ReturnPending?
  }

  function One(b: bool): nat {
    if b then 1 else 0
  }

  // Exactly one of: the task is idle, someone will schedule it, a run is owed, a run goes on.
  ghost predicate TurnOk(s: State) {
    One(s.mem.wake == Idle) + |Claimers(s.wakers)| + One(s.owed) + One(InRun(s.task)) == 1
  }

  ghost predicate ReadyOk(s: State) {
    && (s.mem.wake == Idle && s.mem.ready > 0 ==> Raisers(s.wakers) != {})
    && (s.task == TryIdle && s.mem.wake == Parking && s.mem.ready > 0 ==> Raisers(s.wakers) != {})
  }

  ghost predicate ShapeOk(s: State) {
    && (s.mem.wake == Parking ==> s.task == RecheckReady || s.task == TryIdle || s.task == StoreActive)
    && (s.task == ReturnPending ==> !s.mem.finished)
    && (s.mem.finished <==> s.task == Done)
  }

  // Every Idle period before this one has been ended by one wake.
  ghost predicate PeriodsOk(s: State) {
    s.hist.wakes + |Claimers(s.wakers)| + One(s.mem.wake == Idle) == s.hist.idles
  }

  // A thread that starts the task, or undoes that, is the first to schedule it; one that wakes it is not.
  predicate FirstOk(s: State, w: Waker) {
    match w
    case Schedule(first) => s.mem.started && (first <==> s.hist.wakes == 0)
    case UndoStart => s.mem.started && s.hist.wakes == 0
    case _ => s.mem.started <==> s.hist.wakes > 0
  }

  // The started flag says that the task has been scheduled, or that someone is just doing it.
  ghost predicate StartedOk(s: State) {
    && (forall t | t in s.wakers && Claims(s.wakers[t]) :: FirstOk(s, s.wakers[t]))
    && (Claimers(s.wakers) == {} ==> (s.mem.started <==> s.hist.wakes > 0))
  }

  // Whose turn it is holds whether or not scheduling was refused; the rest up to the first refusal.
  ghost predicate Inv(s: State) {
    && TurnOk(s) && ShapeOk(s) && StartedOk(s)
    && (s.hist.rejected || (ReadyOk(s) && PeriodsOk(s) && NoUndo(s)))
  }

  ghost predicate NoUndo(s: State) {
    forall t | t in s.wakers :: !s.wakers[t].UndoStart? && !s.wakers[t].UndoWake?
  }

  predicate Raises(w: Waker) {
    (w.Check? || w.Exchange?) && w.raised
  }

  predicate Claims(w: Waker) {
    w.Claim? || w.Schedule? || w.UndoStart? || w.UndoWake?
  }

  lemma RaisersChange(wakers: map<nat, Waker>, t: nat, w: Waker)
    requires t in wakers
    ensures Raisers(wakers[t := w]) == if Raises(w) then Raisers(wakers) + {t} else Raisers(wakers) - {t}
  {
  }

  lemma ClaimersChange(wakers: map<nat, Waker>, t: nat, w: Waker)
    requires t in wakers
    ensures |Claimers(wakers[t := w])| + One(Claims(wakers[t])) == |Claimers(wakers)| + One(Claims(w))
  {
    var was, now := Claimers(wakers), Claimers(wakers[t := w]);
    assert now - {t} == was - {t};
    assert t in was <==> Claims(wakers[t]);
    assert t in now <==> Claims(w);
    assert |was| == |was - {t}| + One(t in was);
    assert |now| == |now - {t}| + One(t in now);
  }

  lemma NotifyKeepsTurn(s: State, s': State, t: nat, raise: bool)
    requires TurnOk(s) && ShapeOk(s) && NotifyStep(s, s', t, raise)
    ensures TurnOk(s') && ShapeOk(s') && (PeriodsOk(s) ==> PeriodsOk(s'))
  {
    ClaimersChange(s.wakers, t, s'.wakers[t]);
  }

  lemma NotifyKeepsReady(s: State, s': State, t: nat, raise: bool)
    requires ReadyOk(s) && TurnOk(s) && ShapeOk(s) && NoUndo(s) && NotifyStep(s, s', t, raise)
    ensures ReadyOk(s') && NoUndo(s')
  {
    assert t in Raisers(s.wakers) <==> Raises(s.wakers[t]);
    RaisersChange(s.wakers, t, s'.wakers[t]);
  }

  // Nobody else is at it: there is one turn.
  lemma OnlyClaimer(s: State, t: nat, u: nat)
    requires TurnOk(s) && t in s.wakers && u in s.wakers && Claims(s.wakers[t]) && Claims(s.wakers[u])
    ensures t == u && s.mem.wake != Idle
  {
    var c := Claimers(s.wakers);
    assert t in c && u in c;
    assert |c - {t}| == 0;
    assert u !in c - {t};
  }

  lemma ClaimIsOnlyOne(s: State, t: nat)
    requires TurnOk(s) && t in s.wakers && Claims(s.wakers[t])
    ensures Claimers(s.wakers) == {t} && s.mem.wake != Idle
  {
    forall u | u in Claimers(s.wakers)
      ensures u == t
    {
      OnlyClaimer(s, t, u);
    }
    assert t in Claimers(s.wakers);
    OnlyClaimer(s, t, t);
  }

  // A step of the one claimer, or one that makes the first.
  lemma ClaimerKeepsStarted(s: State, s': State, t: nat)
    requires TurnOk(s) && TurnOk(s') && StartedOk(s) && t in s.wakers
    requires NotifyStep(s, s', t, false) || NotifyStep(s, s', t, true) || ScheduleStep(s, s', t)
    requires Claims(s.wakers[t]) || Claims(s'.wakers[t])
    ensures StartedOk(s')
  {
    if Claims(s.wakers[t]) {
      ClaimIsOnlyOne(s, t);
    } else {
      assert s.mem.wake == Idle;
      assert |Claimers(s.wakers)| == 0;
    }
    forall u | u in s'.wakers && Claims(s'.wakers[u])
      ensures FirstOk(s', s'.wakers[u])
    {
      assert u != t ==> u in Claimers(s.wakers);
    }
    if !Claims(s'.wakers[t]) {
      assert t !in Claimers(s'.wakers);
    } else {
      assert t in Claimers(s'.wakers);
    }
  }

  lemma OthersKeepStarted(s: State, s': State, t: nat)
    requires StartedOk(s) && t in s.wakers && t in s'.wakers && s'.wakers == s.wakers[t := s'.wakers[t]]
    requires !Claims(s.wakers[t]) && !Claims(s'.wakers[t])
    requires s'.mem.started == s.mem.started && s'.hist.wakes == s.hist.wakes
    ensures StartedOk(s')
  {
    assert Claimers(s'.wakers) == Claimers(s.wakers);
    forall u | u in s'.wakers && Claims(s'.wakers[u])
      ensures FirstOk(s', s'.wakers[u])
    {
      assert FirstOk(s, s.wakers[u]);
    }
  }

  lemma NotifyKeepsInv(s: State, s': State, t: nat, raise: bool)
    requires Inv(s) && NotifyStep(s, s', t, raise)
    ensures Inv(s')
  {
    NotifyKeepsTurn(s, s', t, raise);
    if Claims(s.wakers[t]) || Claims(s'.wakers[t]) {
      ClaimerKeepsStarted(s, s', t);
    } else {
      OthersKeepStarted(s, s', t);
    }
    if !s.hist.rejected {
      NotifyKeepsReady(s, s', t, raise);
    }
  }

  lemma ScheduleKeepsTurn(s: State, s': State, t: nat)
    requires TurnOk(s) && ShapeOk(s) && ScheduleStep(s, s', t)
    ensures TurnOk(s') && ShapeOk(s')
  {
    ClaimersChange(s.wakers, t, s'.wakers[t]);
    ClaimIsOnlyOne(s, t);
  }

  lemma ScheduleKeepsInv(s: State, s': State, t: nat)
    requires Inv(s) && ScheduleStep(s, s', t)
    ensures Inv(s')
  {
    ScheduleKeepsTurn(s, s', t);
    ClaimerKeepsStarted(s, s', t);
    if !s'.hist.rejected {
      assert t in Raisers(s.wakers) <==> Raises(s.wakers[t]);
      RaisersChange(s.wakers, t, s'.wakers[t]);
      ClaimersChange(s.wakers, t, s'.wakers[t]);
      assert Raisers(s'.wakers) == Raisers(s.wakers);
    }
  }

  lemma TaskKeepsStarted(s: State, s': State)
    requires StartedOk(s) && s'.wakers == s.wakers
    requires s'.mem.started == s.mem.started && s'.hist.wakes == s.hist.wakes
    ensures StartedOk(s')
  {
    forall u | u in s'.wakers && Claims(s'.wakers[u])
      ensures FirstOk(s', s'.wakers[u])
    {
      assert FirstOk(s, s.wakers[u]);
    }
  }

  lemma RunKeepsInv(s: State, s': State, n: nat, stop: bool)
    requires Inv(s) && RunStep(s, s', n, stop)
    ensures Inv(s')
  {
    TaskKeepsStarted(s, s');
  }

  lemma ParkKeepsInv(s: State, s': State, stop: bool)
    requires Inv(s) && ParkStep(s, s', stop)
    ensures Inv(s')
  {
    TaskKeepsStarted(s, s');
  }

  lemma StepKeepsInv(s: State, s': State)
    requires Inv(s) && Next(s, s')
    ensures Inv(s')
  {
    if t: nat, raise: bool :| NotifyStep(s, s', t, raise) {
      NotifyKeepsInv(s, s', t, raise);
    } else if t: nat :| ScheduleStep(s, s', t) {
      ScheduleKeepsInv(s, s', t);
    } else if n: nat, stop: bool :| RunStep(s, s', n, stop) {
      RunKeepsInv(s, s', n, stop);
    } else {
      var stop: bool :| ParkStep(s, s', stop);
      ParkKeepsInv(s, s', stop);
    }
  }

  lemma InitInv(s: State)
    requires Init(s)
    ensures Inv(s)
  {
    assert Claimers(s.wakers) == {};
  }

  lemma {:induction false} RunInv(run: seq<State>, i: nat)
    requires IsRun(run) && i < |run|
    ensures Inv(run[i])
  {
    if i == 0 {
      InitInv(run[0]);
    } else {
      RunInv(run, i - 1);
      assert NextAt(run, i - 1);
      StepKeepsInv(run[i - 1], run[i]);
    }
  }

  // ---- What the handshake promises ----

  /** As long as no scheduling was rejected, the consumer is parked Idle with ready records
    * only while a thread that raised the count from zero has yet to exchange the wake state.
    */
  lemma NeverParkedOnRecords(run: seq<State>, i: nat)
    requires IsRun(run) && i < |run| && !run[i].hist.rejected
    requires run[i].mem.wake == Idle && run[i].mem.ready > 0
    ensures exists t :: t in run[i].wakers && Raises(run[i].wakers[t])
  {
    RunInv(run, i);
    var t :| t in Raisers(run[i].wakers);
  }

  /** Ready records always have somebody to see to them, until the consumer has finished. */
  lemma RecordsAreSeenTo(run: seq<State>, i: nat)
    requires IsRun(run) && i < |run| && !run[i].hist.rejected
    requires run[i].mem.ready > 0 && !run[i].mem.finished
    ensures run[i].owed || InRun(run[i].task)
         || exists t :: t in run[i].wakers && (Raises(run[i].wakers[t]) || Claims(run[i].wakers[t]))
  {
    RunInv(run, i);
    var s := run[i];
    if !s.owed && !InRun(s.task) {
      var t :| t in Raisers(s.wakers) + Claimers(s.wakers);
    }
  }

  /** With or without refused scheduling there is always exactly one of: the consumer is Idle, a
    * thread that found it so is about to schedule it or to undo that, a run is owed, a run goes on.
    * And while nobody is scheduling it, the started flag says whether it ever was.
    */
  lemma OneTurn(run: seq<State>, i: nat)
    requires IsRun(run) && i < |run|
    ensures TurnOk(run[i])
    ensures Claimers(run[i].wakers) == {} ==> (run[i].mem.started <==> run[i].hist.wakes > 0)
  {
    RunInv(run, i);
  }

  /** Each Idle period causes at most one task wake, and no two wakes are on their way at once. */
  lemma OneWakePerIdlePeriod(run: seq<State>, i: nat)
    requires IsRun(run) && i < |run| && !run[i].hist.rejected
    ensures run[i].hist.idles - 1 <= run[i].hist.wakes + |Claimers(run[i].wakers)| <= run[i].hist.idles
    ensures |Claimers(run[i].wakers)| <= 1
    ensures run[i].mem.wake == Idle ==> Claimers(run[i].wakers) == {} && !run[i].owed
  {
    RunInv(run, i);
  }
}
