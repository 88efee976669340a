/** The log consumer and the scheduling protocol together: the wakes that the Idle / Active /
  * Parking handshake sends are ordinary wakes of one task, step by step, and its runs are
  * ordinary runs. One executor owns the task and inserts into its queue wait for room.
  *
  * In `LogConsumer` a scheduled run is one bit, `owed`. Here that bit is history, raised by the
  * step with which a wake takes effect and lowered when a run's body begins.
  */
module LogConsumerTask {
  import L = LogConsumer
  import T = TaskProtocol
  import N = TaskNoLostWake
  import E = TaskExclusivity
  import R = TaskPromptWake

  datatype State = State(log: L.State, proto: T.State)

  ghost predicate Init(s: State) {
    && L.Init(s.log) && T.Init(s.proto) && s.proto.execs.Keys == {0}
    && s.proto.wakers.Keys == s.log.wakers.Keys
  }

  // The wake has not taken effect yet.
  predicate Fresh(pc: T.WakerPc) {
    pc.ReadState? || pc.ClaimQueued? || pc.ReadEpoch? || pc.Install? || pc.ClearStale?
  }

  // ---- Steps ----

  // Outside schedule(): raising the ready count, exchanging the wake state.
  ghost predicate NotifyStep(s: State, s': State, t: nat, raise: bool) {
    && L.NotifyStep(s.log, s'.log, t, raise) && s'.proto == s.proto
    && t in s.proto.wakers && s.proto.wakers[t].pc == T.Out
  }

  // schedule() was refused: the waker undoes what it did.
  function Refused(log: L.State, t: nat): L.State
    requires t in log.wakers && log.wakers[t].Schedule?
  {
    log.(wakers := log.wakers[t := if log.wakers[t].first then L.UndoStart else L.UndoWake],
         hist := log.hist.(rejected := true))
  }

  function Effective(log: L.State, t: nat): L.State {
    log.(owed := true, wakers := log.wakers[t := L.Out], hist := log.hist.(wakes := log.hist.wakes + 1))
  }

  // Inside schedule(), until it takes effect or is refused, and from there to its return.
  ghost predicate WakeStep(s: State, s': State, t: nat) {
    && t in s.log.wakers && T.WakeStep(s.proto, s'.proto, t) && t in s'.proto.wakers
    && var before, after := s.proto.wakers[t].pc, s'.proto.wakers[t].pc;
       if before == T.Out || Fresh(before) then
         && s.log.wakers[t].Schedule?
         && s'.log == (if Fresh(after) then s.log
                       else if after == T.Out then Refused(s.log, t)
                       else Effective(s.log, t))
       else s'.log == s.log
  }

  // The executor, outside run().
  ghost predicate ExecStep(s: State, s': State) {
    && 0 in s.proto.execs && s.proto.execs[0] != T.Body && T.ExecStep(s.proto, s'.proto, 0)
    && s'.log == if s.proto.execs[0] == T.StoreRunning then s.log.(owed := false, task := L.MarkRunning) else s.log
  }

  // Inside run(), and its three ways to return.
  ghost predicate BodyStep(s: State, s': State, n: nat, stop: bool) {
    && 0 in s.proto.execs && s.proto.execs[0] == T.Body && s.log.task != L.Parked
    && if s.log.task == L.Done then s'.log == s.log && s'.proto == T.XAt(s.proto, 0, T.StoreDone)
       else
         && (L.RunStep(s.log, s'.log, n, stop) || L.ParkStep(s.log, s'.log, stop))
         && s'.proto == if s'.log.task != L.Parked then s.proto
                        else T.XAt(s.proto, 0, if s.log.task == L.ReturnPending then T.StorePending else T.StoreAgain)
  }

  ghost predicate Next(s: State, s': State) {
    || (exists t: nat, raise: bool :: NotifyStep(s, s', t, raise))
    || (exists t: nat :: WakeStep(s, s', t))
    || ExecStep(s, s')
    || (exists n: nat, stop: bool :: BodyStep(s, s', n, stop))
  }

  ghost predicate NextAt(run: seq<State>, i: nat)
    requires i + 1 < |run|
  {
    Next(run[i], run[i + 1])
  }

  ghost predicate IsRun(run: seq<State>) {
    && |run| > 0 && Init(run[0])
    && forall i: nat | i + 1 < |run| :: NextAt(run, i)
  }

  // ---- What the protocol is doing for the consumer ----

  ghost predicate NoQueuer(p: T.State) {
    forall t | t in p.wakers :: !p.wakers[t].pc.ResolveQueue?
  }

  predicate CalmExec(x: T.ExecPc) {
    x.Idle? || x.Body? || x.StorePending? || x.TakePending? || x == T.CheckPending(T.NoRequest) || x.StoreDone? || x.TakeDone?
  }

  // Nothing will start a run.
  ghost predicate Calm(p: T.State) {
    && 0 in p.execs && p.req == T.NoRequest && NoQueuer(p)
    && p.st != T.Queued && p.st != T.Starting && CalmExec(p.execs[0])
  }

  // A waker left the request after the executor looked for one, and will clear it and queue the task.
  predicate Installer(p: T.State, t: nat) {
    && t in p.wakers && p.req == T.Want(p.epoch, p.wakers[t].tag)
    && (p.wakers[t].pc == T.ResolveState(p.epoch) || p.wakers[t].pc == T.ResolveClear(p.epoch, T.Pending))
  }

  ghost predicate Queuing(p: T.State) {
    && 0 in p.execs && p.req == T.NoRequest && NoQueuer(p)
    && (p.st == T.Queued || p.st == T.Starting || p.execs[0] == T.StoreAgain)
  }

  ghost predicate Requested(p: T.State) {
    && 0 in p.execs && p.req.Want? && p.req.epoch == p.epoch && NoQueuer(p)
    && var x := p.execs[0];
       || ((x.Body? || x.StorePending?) && p.st == T.Running)
       || (x.TakePending? && p.st == T.Pending)
       || ((x.Idle? || x == T.CheckPending(T.NoRequest)) && p.st == T.Pending && exists t :: Installer(p, t))
  }

  ghost predicate Held(p: T.State) {
    && 0 in p.execs && p.req == T.NoRequest && NoQueuer(p) && p.st == T.Pending
    && var x := p.execs[0];
       x.ClaimPending? || (x.CheckPending? && x.taken.Want? && x.taken.epoch == p.epoch)
  }

  ghost predicate QueuerIs(p: T.State, t: nat) {
    && 0 in p.execs && p.req == T.NoRequest && p.st == T.Pending
    && (p.execs[0].Idle? || p.execs[0].TakePending? || p.execs[0] == T.CheckPending(T.NoRequest))
    && t in p.wakers && p.wakers[t].pc.ResolveQueue?
    && forall u | u in p.wakers && u != t :: !p.wakers[u].pc.ResolveQueue?
  }

  // One thread, and only one, will see to it that a run starts.
  ghost predicate Due(p: T.State) {
    Queuing(p) || Requested(p) || Held(p) || exists t :: QueuerIs(p, t)
  }

  ghost predicate Sound(p: T.State) {
    N.Inv(p) && R.AllEarly(p)
  }

  // ---- The executor ----

  lemma ExecKeepsCalm(p: T.State, p': T.State)
    requires Sound(p) && Calm(p) && T.ExecStep(p, p', 0) && p.execs[0] != T.Body
    ensures Calm(p') && p'.epoch == p.epoch && p'.wakers == p.wakers
    ensures p'.execs[0] != T.Body
  {
    N.SingleExec(p);
  }

  lemma CalmDoesNotStart(p: T.State)
    requires Sound(p) && Calm(p)
    ensures p.execs[0] != T.StoreRunning
  {
  }

  lemma QueuingGoesOn(p: T.State, p': T.State)
    requires Sound(p) && Queuing(p) && T.ExecStep(p, p', 0) && p.execs[0] != T.Body && p.execs[0] != T.StoreRunning
    ensures Queuing(p')
  {
    N.SingleExec(p);
  }

  lemma RequestGoesOn(p: T.State, p': T.State)
    requires Sound(p) && Requested(p) && T.ExecStep(p, p', 0) && p.execs[0] != T.Body
    ensures Requested(p') || Held(p')
  {
    N.SingleExec(p);
    if t :| Installer(p, t) {
      assert p.execs[0].Idle? || p.execs[0] == T.CheckPending(T.NoRequest) ==> Installer(p', t);
    }
  }

  lemma HeldGoesOn(p: T.State, p': T.State)
    requires Sound(p) && Held(p) && T.ExecStep(p, p', 0)
    ensures Held(p') || Queuing(p')
  {
  }

  lemma QueuerWaits(p: T.State, p': T.State, t: nat)
    requires Sound(p) && QueuerIs(p, t) && T.ExecStep(p, p', 0)
    ensures QueuerIs(p', t)
  {
    N.SingleExec(p);
  }

  lemma ExecKeepsDue(p: T.State, p': T.State)
    requires Sound(p) && Due(p) && T.ExecStep(p, p', 0) && p.execs[0] != T.Body && p.execs[0] != T.StoreRunning
    ensures Due(p')
  {
    if Queuing(p) {
      QueuingGoesOn(p, p');
    } else if Requested(p) {
      RequestGoesOn(p, p');
    } else if Held(p) {
      HeldGoesOn(p, p');
    } else {
      var t :| QueuerIs(p, t);
      QueuerWaits(p, p', t);
    }
  }

  lemma BodyBeginsCalm(p: T.State, p': T.State)
    requires Sound(p) && Due(p) && T.ExecStep(p, p', 0) && p.execs[0] == T.StoreRunning
    ensures Calm(p') && p'.execs[0] == T.Body && p'.wakers == p.wakers
  {
    N.SingleExec(p);
  }

  // ---- Wakers whose wake has taken effect ----

  predicate Spent(pc: T.WakerPc) {
    pc != T.Out && !Fresh(pc)
  }

  lemma SpentKeepsCalm(p: T.State, p': T.State, t: nat)
    requires Sound(p) && Calm(p) && T.WakeStep(p, p', t) && Spent(p.wakers[t].pc)
    ensures Calm(p') && t in p'.wakers && !Fresh(p'.wakers[t].pc)
  {
    if p.wakers[t].pc.Push? {
      N.PusherQueued(p, t);
    }
  }

  lemma SpentKeepsQueuing(p: T.State, p': T.State, t: nat)
    requires Sound(p) && Queuing(p) && T.WakeStep(p, p', t) && Spent(p.wakers[t].pc)
    ensures Queuing(p') && t in p'.wakers && !Fresh(p'.wakers[t].pc)
  {
  }

  lemma SpentKeepsHeld(p: T.State, p': T.State, t: nat)
    requires Sound(p) && Held(p) && T.WakeStep(p, p', t) && Spent(p.wakers[t].pc)
    ensures Held(p') && t in p'.wakers && !Fresh(p'.wakers[t].pc)
  {
    if p.wakers[t].pc.Push? {
      N.PusherQueued(p, t);
    }
  }

  lemma SpentKeepsQueuer(p: T.State, p': T.State, t: nat, u: nat)
    requires Sound(p) && QueuerIs(p, u) && T.WakeStep(p, p', t) && Spent(p.wakers[t].pc)
    ensures (QueuerIs(p', u) || Queuing(p')) && t in p'.wakers && !Fresh(p'.wakers[t].pc)
  {
    if p.wakers[t].pc.Push? {
      N.PusherQueued(p, t);
    }
  }

  // A clear that hits the current request is by a waker that saw Pending.
  lemma ClearSawPending(p: T.State, t: nat)
    requires Sound(p) && Requested(p) && t in p.wakers && p.wakers[t].pc.ResolveClear?
    requires p.req == T.Want(p.wakers[t].pc.e, p.wakers[t].tag)
    ensures p.wakers[t].pc.seen == T.Pending && p.st == T.Pending
  {
    N.SingleExec(p);
    assert N.WakerOk(p, p.wakers[t]);
    assert R.Early(p.st, p.epoch, p.execs[0], p.wakers[t].pc);
  }

  lemma SpentKeepsRequested(p: T.State, p': T.State, t: nat)
    requires Sound(p) && Requested(p) && T.WakeStep(p, p', t) && Spent(p.wakers[t].pc)
    ensures (Requested(p') || QueuerIs(p', t)) && t in p'.wakers && !Fresh(p'.wakers[t].pc)
  {
    if p.wakers[t].pc.Push? {
      N.PusherQueued(p, t);
    } else if p.wakers[t].pc.ResolveClear? && p.req == T.Want(p.wakers[t].pc.e, p.wakers[t].tag) {
      ClearSawPending(p, t);
    } else if u :| Installer(p, u) {
      assert p.st == T.Pending ==> Installer(p', u);
    }
  }

  lemma SpentKeepsDue(p: T.State, p': T.State, t: nat)
    requires Sound(p) && Due(p) && T.WakeStep(p, p', t) && Spent(p.wakers[t].pc)
    ensures Due(p') && t in p'.wakers && !Fresh(p'.wakers[t].pc)
  {
    if Queuing(p) {
      SpentKeepsQueuing(p, p', t);
    } else if Requested(p) {
      SpentKeepsRequested(p, p', t);
    } else if Held(p) {
      SpentKeepsHeld(p, p', t);
    } else {
      var u :| QueuerIs(p, u);
      SpentKeepsQueuer(p, p', t, u);
    }
  }

  // ---- The one waker whose wake has yet to take effect ----

  lemma FreshGoesOn(p: T.State, p': T.State, t: nat)
    requires Sound(p) && Calm(p) && T.WakeStep(p, p', t) && (p.wakers[t].pc == T.Out || Fresh(p.wakers[t].pc))
    requires p.st != T.Done && !p.execs[0].StoreDone? && !p.wakers[t].pc.ClearStale?
    requires p.wakers[t].pc.Install? ==> p.wakers[t].pc.e == p.epoch
    ensures t in p'.wakers && p'.epoch == p.epoch
    ensures Fresh(p'.wakers[t].pc) ==> Calm(p') && !p'.wakers[t].pc.ClearStale?
    ensures p'.wakers[t].pc.Install? ==> p'.wakers[t].pc.e == p.epoch
    ensures !Fresh(p'.wakers[t].pc) ==> p'.wakers[t].pc != T.Out && Due(p')
  {
    N.SingleExec(p);
    assert N.WakerOk(p, p.wakers[t]);
    if p.wakers[t].pc.Install? {
      assert Installer(p', t);
    }
  }

  // ---- The invariant of both ----

  ghost predicate ProtoOk(p: T.State) {
    N.Inv(p) && N.Safe(p) && R.AllEarly(p)
  }

  ghost predicate LogOk(log: L.State) {
    !log.hist.rejected && L.Inv(log)
  }

  predicate FreshOk(log: L.State, p: T.State, t: nat)
    requires t in p.wakers
  {
    Fresh(p.wakers[t].pc) ==>
      && t in log.wakers && log.wakers[t].Schedule? && !p.wakers[t].pc.ClearStale?
      && (p.wakers[t].pc.Install? ==> p.wakers[t].pc.e == p.epoch)
  }

  ghost predicate AllFreshOk(log: L.State, p: T.State) {
    p.wakers.Keys == log.wakers.Keys && forall t | t in p.wakers :: FreshOk(log, p, t)
  }

  predicate BodyOk(task: L.Task, st: T.TaskState, x: T.ExecPc) {
    && (task == L.Parked ==> x != T.Body && !x.StoreDone? && !x.TakeDone? && st != T.Done)
    && (task != L.Parked && task != L.Done ==> x == T.Body && st != T.Done)
    && (task == L.Done ==> x.Body? || x.StoreDone? || x.TakeDone? || x.Idle?)
  }

  ghost predicate Inv(s: State) {
    && ProtoOk(s.proto) && LogOk(s.log) && AllFreshOk(s.log, s.proto)
    && 0 in s.proto.execs && BodyOk(s.log.task, s.proto.st, s.proto.execs[0])
    && (if s.log.owed then Due(s.proto) else Calm(s.proto))
  }

  // A waker about to schedule excludes an owed run and a run that goes on.
  lemma ClaimMeansParked(log: L.State, t: nat)
    requires LogOk(log) && t in log.wakers && log.wakers[t].Schedule?
    ensures !log.owed && (log.task == L.Parked || log.task == L.ReturnPending)
  {
    assert t in L.Claimers(log.wakers);
  }

  lemma IsPrompt(s: State)
    requires Inv(s)
    ensures R.Prompt(s.proto)
  {
    forall t | t in s.proto.wakers && s.proto.st == T.Starting
      ensures s.proto.wakers[t].pc != T.ReadEpoch
    {
      assert FreshOk(s.log, s.proto, t);
      if s.proto.wakers[t].pc == T.ReadEpoch {
        ClaimMeansParked(s.log, t);
      }
    }
  }

  lemma WakeKeepsProto(s: State, p': T.State, t: nat)
    requires Inv(s) && T.WakeStep(s.proto, p', t)
    ensures ProtoOk(p') && p'.epoch == s.proto.epoch && p'.execs == s.proto.execs
    ensures t in p'.wakers && p'.wakers.Keys == s.proto.wakers.Keys
    ensures forall u | u in p'.wakers && u != t :: p'.wakers[u] == s.proto.wakers[u]
  {
    IsPrompt(s);
    N.StepKeepsInv(s.proto, p');
    R.EarlyNoClobber(s.proto, t);
    N.WakeKeepsSafe(s.proto, p', t);
    R.WakeKeepsEarly(s.proto, p', t);
    N.WakeEvolves(s.proto, p', t);
    assert E.SeenOk(s.proto.wakers[t]);
    E.WakeHasEffect(s.proto, p', t);
  }

  lemma ExecKeepsProto(s: State, p': T.State)
    requires Inv(s) && T.ExecStep(s.proto, p', 0)
    ensures ProtoOk(p') && p'.wakers == s.proto.wakers && 0 in p'.execs
  {
    N.StepKeepsInv(s.proto, p');
    N.ExecKeepsSafe(s.proto, p');
    R.ExecKeepsEarly(s.proto, p');
    N.ExecEvolves(s.proto, p');
  }

  // ---- Steps keep it ----

  lemma NotifyKeepsInv(s: State, s': State, t: nat, raise: bool)
    requires Inv(s) && NotifyStep(s, s', t, raise)
    ensures Inv(s')
  {
    NotifyKeepsLog(s.log, s'.log, t, raise);
    NotifyKeepsFresh(s.log, s'.log, s.proto, t, raise);
  }

  lemma NotifyKeepsLog(log: L.State, log': L.State, t: nat, raise: bool)
    requires LogOk(log) && L.NotifyStep(log, log', t, raise)
    ensures LogOk(log') && log'.owed == log.owed && log'.task == log.task
  {
    L.NotifyKeepsInv(log, log', t, raise);
  }

  lemma NotifyKeepsFresh(log: L.State, log': L.State, p: T.State, t: nat, raise: bool)
    requires AllFreshOk(log, p) && L.NotifyStep(log, log', t, raise) && t in p.wakers && p.wakers[t].pc == T.Out
    ensures AllFreshOk(log', p)
  {
    forall u | u in p.wakers
      ensures FreshOk(log', p, u)
    {
      assert FreshOk(log, p, u);
    }
  }

  lemma SpentKeepsInv(s: State, s': State, t: nat)
    requires Inv(s) && WakeStep(s, s', t) && Spent(s.proto.wakers[t].pc)
    ensures Inv(s')
  {
    WakeKeepsProto(s, s'.proto, t);
    if s.log.owed {
      SpentKeepsDue(s.proto, s'.proto, t);
    } else {
      SpentKeepsCalm(s.proto, s'.proto, t);
    }
    WakeKeepsBody(s, s'.proto, t);
    forall u | u in s'.proto.wakers
      ensures FreshOk(s'.log, s'.proto, u)
    {
      assert FreshOk(s.log, s.proto, u);
    }
  }

  lemma WakeKeepsBody(s: State, p': T.State, t: nat)
    requires Inv(s) && T.WakeStep(s.proto, p', t)
    ensures 0 in p'.execs && BodyOk(s.log.task, p'.st, p'.execs[0])
  {
    WakeKeepsProto(s, p', t);
    assert E.SeenOk(s.proto.wakers[t]);
    N.WakeHasFrame(s.proto, p', t);
  }

  /** A wake of the consumer is never refused: it goes on, or takes effect. */
  lemma FreshNeverRefused(s: State, s': State, t: nat)
    requires Inv(s) && WakeStep(s, s', t) && !Spent(s.proto.wakers[t].pc)
    ensures s'.proto.wakers[t].pc != T.Out && s'.proto.epoch == s.proto.epoch
    ensures Fresh(s'.proto.wakers[t].pc) ==> s'.log == s.log && Calm(s'.proto) && FreshOk(s.log, s'.proto, t)
    ensures !Fresh(s'.proto.wakers[t].pc) ==> s'.log == Effective(s.log, t) && Due(s'.proto)
  {
    ClaimMeansParked(s.log, t);
    assert FreshOk(s.log, s.proto, t);
    FreshGoesOn(s.proto, s'.proto, t);
  }

  lemma EffectKeepsLog(log: L.State, t: nat)
    requires LogOk(log) && t in log.wakers && log.wakers[t].Schedule?
    ensures LogOk(Effective(log, t))
  {
    var log' := Effective(log, t);
    assert L.ScheduleStep(log, log', t);
    L.ScheduleKeepsInv(log, log', t);
  }

  lemma FreshKeepsInv(s: State, s': State, t: nat)
    requires Inv(s) && WakeStep(s, s', t) && !Spent(s.proto.wakers[t].pc)
    ensures Inv(s')
  {
    WakeKeepsProto(s, s'.proto, t);
    WakeKeepsBody(s, s'.proto, t);
    ClaimMeansParked(s.log, t);
    FreshNeverRefused(s, s', t);
    if !Fresh(s'.proto.wakers[t].pc) {
      EffectKeepsLog(s.log, t);
    }
    WakeKeepsFresh(s.log, s'.log, s.proto, s'.proto, t);
  }

  // A step of one waker leaves the others where they were.
  lemma WakeKeepsFresh(log: L.State, log': L.State, p: T.State, p': T.State, t: nat)
    requires AllFreshOk(log, p) && T.WakeStep(p, p', t) && p'.epoch == p.epoch && t in p'.wakers
    requires log' == log || (t in log.wakers && log' == Effective(log, t))
    requires FreshOk(log', p', t)
    ensures AllFreshOk(log', p')
  {
    forall u | u in p'.wakers
      ensures FreshOk(log', p', u)
    {
      assert u != t ==> FreshOk(log, p, u);
    }
  }

  // Wakers whose wake is under way do not notice the executor.
  lemma ExecKeepsFresh(s: State, log': L.State, p': T.State)
    requires Inv(s) && p'.wakers == s.proto.wakers && log'.wakers == s.log.wakers
    requires !s.log.owed ==> p'.epoch == s.proto.epoch
    ensures AllFreshOk(log', p')
  {
    forall u | u in p'.wakers
      ensures FreshOk(log', p', u)
    {
      assert FreshOk(s.log, s.proto, u);
      if Fresh(s.proto.wakers[u].pc) {
        ClaimMeansParked(s.log, u);
      }
    }
  }

  lemma ExecBody(s: State, s': State)
    requires Inv(s) && ExecStep(s, s') && s.proto.execs[0] != T.StoreRunning && 0 in s'.proto.execs
    ensures BodyOk(s'.log.task, s'.proto.st, s'.proto.execs[0])
  {
    N.SingleExec(s.proto);
  }

  lemma BeginKeepsInv(s: State, s': State)
    requires Inv(s) && ExecStep(s, s') && s.proto.execs[0] == T.StoreRunning
    ensures Inv(s')
  {
    ExecKeepsProto(s, s'.proto);
    if !s.log.owed {
      CalmDoesNotStart(s.proto);
    }
    BodyBeginsCalm(s.proto, s'.proto);
    ExecKeepsFresh(s, s'.log, s'.proto);
    BeginKeepsLog(s.log, s'.log);
  }

  lemma BeginKeepsLog(log: L.State, log': L.State)
    requires LogOk(log) && log.owed && log.task == L.Parked && log' == log.(owed := false, task := L.MarkRunning)
    ensures LogOk(log')
  {
    assert L.RunStep(log, log', 0, false);
    L.RunKeepsInv(log, log', 0, false);
  }

  lemma ExecKeepsInv(s: State, s': State)
    requires Inv(s) && ExecStep(s, s')
    ensures Inv(s')
  {
    if s.proto.execs[0] == T.StoreRunning {
      BeginKeepsInv(s, s');
    } else {
      ExecKeepsProto(s, s'.proto);
      ExecBody(s, s');
      if s.log.owed {
        ExecKeepsDue(s.proto, s'.proto);
      } else {
        ExecKeepsCalm(s.proto, s'.proto);
      }
      ExecKeepsFresh(s, s'.log, s'.proto);
    }
  }

  // The step of run() itself.
  lemma RunKeepsLog(s: State, s': State, n: nat, stop: bool)
    requires Inv(s) && BodyStep(s, s', n, stop) && s.log.task != L.Done
    ensures LogOk(s'.log) && s'.log.wakers == s.log.wakers
    ensures s'.log.task != L.Parked ==> s'.log.owed == s.log.owed
    ensures s'.log.task == L.Parked && s.log.task == L.ReturnPending ==> s'.log.owed == s.log.owed
    ensures s'.log.task == L.Parked && s.log.task != L.ReturnPending ==> s'.log.owed && !s.log.owed
  {
    BodyKeepsLog(s.log, s'.log, n, stop);
  }

  lemma BodyKeepsLog(log: L.State, log': L.State, n: nat, stop: bool)
    requires LogOk(log) && log.task != L.Parked && (L.RunStep(log, log', n, stop) || L.ParkStep(log, log', stop))
    ensures LogOk(log') && log'.wakers == log.wakers
    ensures log'.task != L.Parked ==> log'.owed == log.owed
    ensures log'.task == L.Parked && log.task == L.ReturnPending ==> log'.owed == log.owed
    ensures log'.task == L.Parked && log.task != L.ReturnPending ==> log'.owed && !log.owed
  {
    if L.RunStep(log, log', n, stop) {
      L.RunKeepsInv(log, log', n, stop);
    } else {
      L.ParkKeepsInv(log, log', stop);
    }
  }

  lemma DoneKeepsInv(s: State, s': State, n: nat, stop: bool)
    requires Inv(s) && BodyStep(s, s', n, stop) && s.log.task == L.Done
    ensures Inv(s')
  {
    assert T.ExecStep(s.proto, s'.proto, 0);
    ExecKeepsProto(s, s'.proto);
    ExecKeepsFresh(s, s'.log, s'.proto);
  }

  lemma ReturnKeepsInv(s: State, s': State, n: nat, stop: bool)
    requires Inv(s) && BodyStep(s, s', n, stop) && s.log.task != L.Done && s'.log.task == L.Parked
    ensures Inv(s')
  {
    RunKeepsLog(s, s', n, stop);
    assert T.ExecStep(s.proto, s'.proto, 0);
    ExecKeepsProto(s, s'.proto);
    ExecKeepsFresh(s, s'.log, s'.proto);
    ReturnKeepsPhase(s, s', n, stop);
  }

  lemma ReturnKeepsPhase(s: State, s': State, n: nat, stop: bool)
    requires Inv(s) && BodyStep(s, s', n, stop) && s.log.task != L.Done && s'.log.task == L.Parked
    requires s'.log.owed == (s.log.owed || s.log.task != L.ReturnPending)
    requires s.log.task != L.ReturnPending ==> !s.log.owed
    ensures if s'.log.owed then Due(s'.proto) else Calm(s'.proto)
    ensures 0 in s'.proto.execs && BodyOk(s'.log.task, s'.proto.st, s'.proto.execs[0])
  {
    N.SingleExec(s.proto);
    if s.log.owed {
      assert !Queuing(s.proto) && !Held(s.proto);
      assert forall t :: !QueuerIs(s.proto, t);
      assert Requested(s'.proto);
    } else if s'.log.owed {
      assert Queuing(s'.proto);
    }
  }

  lemma BodyKeepsInv(s: State, s': State, n: nat, stop: bool)
    requires Inv(s) && BodyStep(s, s', n, stop)
    ensures Inv(s')
  {
    if s.log.task == L.Done {
      DoneKeepsInv(s, s', n, stop);
    } else if s'.log.task == L.Parked {
      ReturnKeepsInv(s, s', n, stop);
    } else {
      RunKeepsLog(s, s', n, stop);
      ExecKeepsFresh(s, s'.log, s'.proto);
    }
  }

  lemma StepKeepsInv(s: State, s': State)
    requires Inv(s) && Next(s, s')
    ensures Inv(s')
  {
    if t: nat, raise: bool :| NotifyStep(s, s', t, raise) {
      NotifyKeepsInv(s, s', t, raise);
    } else if t: nat :| WakeStep(s, s', t) {
      if Spent(s.proto.wakers[t].pc) {
        SpentKeepsInv(s, s', t);
      } else {
        FreshKeepsInv(s, s', t);
      }
    } else if ExecStep(s, s') {
      ExecKeepsInv(s, s');
    } else {
      var n: nat, stop: bool :| BodyStep(s, s', n, stop);
      BodyKeepsInv(s, s', n, stop);
    }
  }

  lemma InitInv(s: State)
    requires Init(s)
    ensures Inv(s)
  {
    N.InitInv(s.proto);
    L.InitInv(s.log);
  }

  lemma {:induction false} RunInv(run: seq<State>, i: nat)
    requires IsRun(run) && i < |run|
    ensures Inv(run[i])
  {
    if i == 0 {
      InitInv(run[0]);
    } else {
      RunInv(run, i - 1);
      assert NextAt(run, i - 1);
      StepKeepsInv(run[i - 1], run[i]);
    }
  }

  // ---- What it means for the logger ----

  /** No wake of the consumer is ever refused by the scheduling protocol, and none is lost: the
    * task is done, or a run body began after the wake did, or one is forced.
    */
  lemma ConsumerWakesAreNotLost(run: seq<State>, i: nat)
    requires IsRun(run) && i < |run|
    ensures !run[i].log.hist.rejected
    ensures 0 in run[i].proto.execs && N.NoWakeLost(run[i].proto)
  {
    RunInv(run, i);
    N.SafeLosesNothing(run[i].proto);
  }

  /** A run is owed to the consumer exactly when the protocol has one under way: the task is
    * queued or starting, or a request for it is about to be taken by one thread.
    */
  lemma OwedIsReal(run: seq<State>, i: nat)
    requires IsRun(run) && i < |run|
    ensures run[i].log.owed <==> Due(run[i].proto)
    ensures !run[i].log.owed ==> Calm(run[i].proto)
  {
    RunInv(run, i);
  }

  /** Ready records always have somebody to see to them, until the consumer has finished: a run
    * goes on, one is under way in the protocol, or a thread is about to cause one.
    */
  lemma RecordsAreSeenTo(run: seq<State>, i: nat)
    requires IsRun(run) && i < |run| && run[i].log.mem.ready > 0 && !run[i].log.mem.finished
    ensures L.InRun(run[i].log.task) || Due(run[i].proto)
         || exists t :: t in run[i].log.wakers && (L.Raises(run[i].log.wakers[t]) || L.Claims(run[i].log.wakers[t]))
  {
    RunInv(run, i);
    var s := run[i].log;
    if !s.owed && !L.InRun(s.task) {
      var t :| t in L.Raisers(s.wakers) + L.Claimers(s.wakers);
    }
  }
}
