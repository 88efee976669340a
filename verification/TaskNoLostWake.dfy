/** No wake is lost: what an accepted wake of a task guarantees, when one executor owns the
  * task, inserts into the ready queue block instead of failing, and run epochs do not wrap.
  *
  * The guarantee does not hold of every interleaving of the code. It fails exactly through
  * one step, `Clobbers`: a waker that loaded the epoch of a run before the body of that run
  * began clears a request that the body's own wakes rely on.
  */
module TaskNoLostWake {
  import opened TaskProtocol
  import opened TaskExclusivity

  // One executor, number 0, and blocking inserts.
  ghost predicate OwnedStep(s: State, s': State) {
    || ExecStep(s, s', 0)
    || exists t: nat :: WakeStep(s, s', t)
  }

  ghost predicate OwnedAt(run: seq<State>, i: nat)
    requires i + 1 < |run|
  {
    OwnedStep(run[i], run[i + 1])
  }

  ghost predicate OwnedRun(run: seq<State>) {
    && |run| > 0 && Init(run[0]) && run[0].execs.Keys == {0}
    && forall i: nat | i + 1 < |run| :: OwnedAt(run, i)
  }

  // The executor has not yet emptied the request slot for the current run.
  predicate BeforeTake(pc: ExecPc) {
    InRunning(pc) || pc.TakePending?
  }

  predicate Resolving(pc: WakerPc) {
    pc.ResolveState? || pc.ResolveEpoch? || pc.ResolveClear? || pc.ResolveQueue?
  }

  // A waker that will still act on the current run: install a request or queue the task.
  predicate Acting(s: State, w: Waker) {
    || w.pc.ReadEpoch? || w.pc.ClearStale?
    || (w.pc.Install? && w.pc.e == s.epoch)
    || (w.pc.ResolveQueue? && w.pc.e == s.epoch)
  }

  // A waker that will find its own request in the slot and queue the task.
  predicate Owns(s: State, w: Waker) {
    && ((w.pc.ResolveState? && w.pc.e == s.epoch)
        || (w.pc.ResolveClear? && w.pc.e == s.epoch && w.pc.seen == Pending))
    && s.req == Want(s.epoch, w.tag)
  }

  predicate CurrentRequest(s: State) {
    s.req.Want? && s.req.epoch == s.epoch
  }

  ghost predicate SomeActing(s: State) {
    exists t :: t in s.wakers && Acting(s, s.wakers[t])
  }

  ghost predicate SomeOwner(s: State) {
    exists t :: t in s.wakers && Owns(s, s.wakers[t])
  }

  // The executor took a request of the current run and will queue the task for it.
  predicate Holding(s: State)
    requires 0 in s.execs
  {
    var x := s.execs[0];
    x.ClaimPending? || (x.CheckPending? && x.taken.Want? && x.taken.epoch == s.epoch)
  }

  // While the task runs or rests: something forces another run.
  ghost predicate Covered(s: State)
    requires 0 in s.execs
  {
    || Holding(s)
    || SomeActing(s)
    || (CurrentRequest(s) && (BeforeTake(s.execs[0]) || SomeOwner(s)))
  }

  // A run body that begins after the `b`-th one has begun is certain, or no longer needed.
  ghost predicate Forced(s: State, b: nat)
    requires 0 in s.execs
  {
    || s.st == Done
    || s.runs > b
    || s.st == Queued || s.st == Starting
    || ((s.st == Running || s.st == Pending) && Covered(s))
  }

  ghost predicate NoWakeLost(s: State)
    requires 0 in s.execs
  {
    forall b | b in s.accepted :: Forced(s, b)
  }

  /** The failing branch. Waker t loaded the epoch of the current run while that run was
    * still Starting, saw Starting, and clears its request only now, after the body began.
    */
  predicate LateClear(s: State, t: nat) {
    && t in s.wakers && s.wakers[t].pc.ResolveClear? && s.wakers[t].pc.seen == Starting
    && s.wakers[t].pc.e == s.epoch && s.req == Want(s.epoch, s.wakers[t].tag)
    && (s.st == Running || s.st == Pending)
  }

  // A wake of the current run was accepted, or is about to be without doing anything more.
  ghost predicate Relied(s: State) {
    || s.runs in s.accepted
    || exists t :: t in s.wakers && Resolving(s.wakers[t].pc) && s.wakers[t].begin == s.runs
  }

  // A late clear that takes away the only thing a wake of the current run relies on.
  ghost predicate Clobbers(s: State, t: nat)
    requires 0 in s.execs
  {
    LateClear(s, t) && Relied(s) && !Holding(s) && !SomeActing(s)
  }

  ghost predicate ClobberStep(s: State, s': State)
    requires 0 in s.execs
  {
    exists t: nat :: WakeStep(s, s', t) && Clobbers(s, t)
  }

  // ---- Facts about single wakers, stated over the three words they depend on ----

  // A run after run e is certain, or the task is done.
  predicate Beyond(s: State, e: nat) {
    e <= s.runs && (s.st == Done || s.runs > e || s.st == Queued || s.st == Starting)
  }

  // The body of run e is over.
  predicate Ended(s: State, e: nat) {
    e <= s.runs && (s.runs > e || s.st != Running)
  }

  predicate WakerOk(s: State, w: Waker) {
    && w.begin <= s.runs
    && match w.pc
       case Install(e) => w.begin <= e <= s.epoch && s.st != Created
       case ResolveState(e) => w.begin <= e <= s.epoch && s.st != Created
       case ResolveEpoch(e) => w.begin <= e <= s.epoch && s.st != Created
       case ResolveQueue(e) => w.begin <= e && Ended(s, e) && s.st != Created
       case ResolveClear(e, seen) =>
         && w.begin <= e <= s.epoch && s.st != Created
         && (match seen
             case Created => false
             case Queued => Beyond(s, e)
             case Starting => Beyond(s, w.begin)
             case Running => e < s.epoch
             case Pending => Ended(s, e)
             case Done => s.st == Done)
       case ReadEpoch => s.st != Created
       case ClearStale(_) => s.st != Created
       case _ => true
  }

  predicate CoreOk(s: State) {
    && s.execs.Keys == {0}
    && var x := s.execs[0];
    && (if x.StoreRunning? then s.epoch == s.runs + 1 else s.epoch == s.runs)
    && (x.StoreEpoch? ==> x.next == s.epoch + 1)
    && (s.st == Created ==> s.runs == 0 && x.Idle? && s.accepted == {})
    && (x.TakePending? || x.CheckPending? || x.ClaimPending? ==> s.st == Pending || s.st == Queued)
    && (x.TakeDone? ==> s.st == Done)
    && (s.req.Want? ==> s.req.epoch <= s.epoch && s.st != Created)
    && (forall b | b in s.accepted :: b <= s.runs)
  }

  ghost predicate WakersOk(s: State) {
    forall t | t in s.wakers :: WakerOk(s, s.wakers[t])
  }

  // A request left in the slot after the executor emptied it has an owner.
  ghost predicate RequestOwned(s: State) {
    && 0 in s.execs
    && (s.st == Pending && CurrentRequest(s) && !BeforeTake(s.execs[0]) ==> SomeOwner(s))
  }

  ghost predicate Inv(s: State) {
    Exclusive(s) && CoreOk(s) && WakersOk(s) && RequestOwned(s)
  }

  ghost predicate Safe(s: State) {
    && 0 in s.execs
    && ((s.st == Running || s.st == Pending) && Relied(s) ==> Covered(s))
  }

  // Exclusivity, read for the single executor.
  lemma SingleExec(s: State)
    requires Exclusive(s) && s.execs.Keys == {0}
    ensures InStarting(s.execs[0]) <==> s.st == Starting
    ensures InRunning(s.execs[0]) <==> s.st == Running
    ensures HoldsEntry(s.execs[0]) ==> s.st == Queued
    ensures s.entries > 0 ==> s.st == Queued
  {
    if HoldsEntry(s.execs[0]) {
      assert ByExec(0) in Tokens(s);
    }
    if s.entries > 0 {
      assert InQueue in Tokens(s);
    }
  }

  lemma PusherQueued(s: State, t: nat)
    requires Exclusive(s) && t in s.wakers && s.wakers[t].pc.Push?
    ensures s.st == Queued
  {
    assert ByWaker(t) in Tokens(s);
  }

  // The ways in which state, epoch and run count move together.
  predicate Evolves(s: State, s': State) {
    || (s'.st == s.st && s'.epoch == s.epoch && s'.runs == s.runs)
    || ((s.st == Created || s.st == Pending) && s'.st == Queued && s'.epoch == s.epoch && s'.runs == s.runs)
    || (s.st == Queued && s'.st == Starting && s'.epoch == s.epoch && s'.runs == s.runs)
    || (s.st == s'.st == Starting && s'.epoch == s.epoch + 1 && s'.runs == s.runs)
    || (s.st == Starting && s'.st == Running && s'.epoch == s.epoch && s'.runs == s.runs + 1)
    || (s.st == Running && s'.st in {Done, Pending, Queued} && s'.epoch == s.epoch && s'.runs == s.runs)
  }

  lemma WakeEvolves(s: State, s': State, t: nat)
    requires Inv(s) && WakeStep(s, s', t)
    ensures Evolves(s, s') && s'.execs == s.execs && s'.epoch == s.epoch && s'.runs == s.runs
  {
    WakeHasFrame(s, s', t);
  }

  lemma ExecEvolves(s: State, s': State)
    requires Inv(s) && ExecStep(s, s', 0)
    ensures Evolves(s, s') && s'.wakers == s.wakers && s'.accepted == s.accepted
  {
    SingleExec(s);
  }

  // Nothing a waker knows is undone by the other threads.
  lemma WakerStable(s: State, s': State, w: Waker)
    requires Evolves(s, s') && WakerOk(s, w) && s.runs <= s.epoch
    ensures WakerOk(s', w)
  {
  }

  // The stepping waker itself, while it resolves its request and before that.
  lemma ResolverOk(s: State, s': State, t: nat)
    requires t in s.wakers && WakerOk(s, s.wakers[t]) && Resolving(s.wakers[t].pc)
    requires s.runs <= s.epoch && (s.st != Starting ==> s.epoch == s.runs)
    requires WakeStep(s, s', t)
    ensures WakerOk(s', s'.wakers[t])
  {
  }

  lemma RequesterOk(s: State, s': State, t: nat)
    requires t in s.wakers && WakerOk(s, s.wakers[t]) && !Resolving(s.wakers[t].pc)
    requires s.runs <= s.epoch && SeenOk(s.wakers[t])
    requires WakeStep(s, s', t)
    ensures WakerOk(s', s'.wakers[t])
  {
  }

  // What a waker's step can change of the words outside the waker.
  predicate WakeFrame(s: State, s': State, w: Waker) {
    && s'.epoch == s.epoch && s'.runs == s.runs && s'.execs == s.execs
    && (s'.st == s.st || (s'.st == Queued && (s.st == Created || s.st == Pending)))
    && (s'.req == s.req || s'.req == NoRequest || (w.pc.Install? && s'.req == Want(w.pc.e, w.tag)))
    && (s'.accepted == s.accepted
        || ((Resolving(w.pc) || w.pc.Push?) && s'.accepted == s.accepted + {w.begin}))
  }

  lemma WakeHasFrame(s: State, s': State, t: nat)
    requires t in s.wakers && SeenOk(s.wakers[t]) && WakeStep(s, s', t)
    ensures WakeFrame(s, s', s.wakers[t])
  {
  }

  lemma WakeKeepsCore(s: State, s': State, w: Waker)
    requires CoreOk(s) && WakerOk(s, w) && WakeFrame(s, s', w)
    requires w.pc.Push? ==> s.st == Queued
    ensures CoreOk(s')
  {
  }

  lemma ExecKeepsCore(s: State, s': State)
    requires Inv(s) && ExecStep(s, s', 0)
    ensures CoreOk(s')
  {
    SingleExec(s);
  }

  lemma WakeKeepsOwned(s: State, s': State, t: nat)
    requires Inv(s) && WakeStep(s, s', t)
    ensures RequestOwned(s')
  {
    WakeEvolves(s, s', t);
    assert SeenOk(s.wakers[t]);
    if s'.st == Pending && CurrentRequest(s') && !BeforeTake(s'.execs[0]) {
      assert s.st == Pending;
      if s'.req == s.req {
        var u :| u in s.wakers && Owns(s, s.wakers[u]);
        assert WakerOk(s, s.wakers[u]);
        assert Owns(s', s'.wakers[u]);
      } else {
        assert Owns(s', s'.wakers[t]);
      }
    }
  }

  lemma ExecKeepsOwned(s: State, s': State)
    requires Inv(s) && ExecStep(s, s', 0)
    ensures RequestOwned(s')
  {
    SingleExec(s);
    ExecEvolves(s, s');
    if s'.st == Pending && CurrentRequest(s') && !BeforeTake(s'.execs[0]) {
      var u :| u in s.wakers && Owns(s, s.wakers[u]);
      assert Owns(s', s'.wakers[u]);
    }
  }

  lemma ExecKeepsInv(s: State, s': State)
    requires Inv(s) && ExecStep(s, s', 0)
    ensures Inv(s')
  {
    StepKeepsExclusive(s, s');
    ExecKeepsCore(s, s');
    ExecKeepsOwned(s, s');
    ExecEvolves(s, s');
    forall t | t in s'.wakers
      ensures WakerOk(s', s'.wakers[t])
    {
      WakerStable(s, s', s.wakers[t]);
    }
  }

  lemma WakeKeepsWakers(s: State, s': State, t: nat)
    requires Inv(s) && WakeStep(s, s', t)
    ensures WakersOk(s')
  {
    assert SeenOk(s.wakers[t]);
    SingleExec(s);
    if Resolving(s.wakers[t].pc) {
      ResolverOk(s, s', t);
    } else {
      RequesterOk(s, s', t);
    }
    WakeEvolves(s, s', t);
    WakeHasEffect(s, s', t);
    forall u | u in s'.wakers
      ensures WakerOk(s', s'.wakers[u])
    {
      if u != t {
        WakerStable(s, s', s.wakers[u]);
      }
    }
  }

  lemma WakeKeepsInv(s: State, s': State, t: nat)
    requires Inv(s) && WakeStep(s, s', t)
    ensures Inv(s')
  {
    StepKeepsExclusive(s, s');
    assert SeenOk(s.wakers[t]) && WakerOk(s, s.wakers[t]);
    if s.wakers[t].pc.Push? {
      PusherQueued(s, t);
    }
    WakeHasFrame(s, s', t);
    WakeKeepsCore(s, s', s.wakers[t]);
    WakeKeepsOwned(s, s', t);
    WakeKeepsWakers(s, s', t);
  }

  // ---- Coverage is kept by every step except a late clear ----

  lemma ActingPersists(s: State, s': State, u: nat)
    requires u in s.wakers && u in s'.wakers && s'.wakers[u] == s.wakers[u] && s'.epoch == s.epoch
    requires Acting(s, s.wakers[u])
    ensures SomeActing(s')
  {
    assert Acting(s', s'.wakers[u]);
  }

  lemma ExecKeepsCovered(s: State, s': State)
    requires Inv(s) && ExecStep(s, s', 0) && Covered(s)
    requires s.st == Running || s.st == Pending
    requires s'.st == Running || s'.st == Pending
    ensures Covered(s')
  {
    SingleExec(s);
    ExecEvolves(s, s');
    if SomeActing(s) {
      var u :| u in s.wakers && Acting(s, s.wakers[u]);
      ActingPersists(s, s', u);
    } else if SomeOwner(s) && s'.req == s.req {
      var u :| u in s.wakers && Owns(s, s.wakers[u]);
      assert Owns(s', s'.wakers[u]);
    }
  }

  // The waker that steps was itself the acting one.
  lemma ActorKeepsCovered(s: State, s': State, t: nat)
    requires Inv(s) && WakeStep(s, s', t) && Acting(s, s.wakers[t])
    requires s.st == Running || s.st == Pending
    requires s'.st == Running || s'.st == Pending
    ensures Covered(s')
  {
    assert WakerOk(s, s.wakers[t]);
    SingleExec(s);
    var pc := s.wakers[t].pc;
    if pc.Install? {
      if s.req.Want? && s.req.epoch == pc.e && s.req != Want(pc.e, s.wakers[t].tag) {
        if !BeforeTake(s.execs[0]) {
          var u :| u in s.wakers && Owns(s, s.wakers[u]);
          assert u != t;
          assert Owns(s', s'.wakers[u]);
        }
      } else if s'.wakers[t].pc.ResolveState? {
        assert Owns(s', s'.wakers[t]);
      } else {
        assert Acting(s', s'.wakers[t]);
      }
    } else {
      assert Acting(s', s'.wakers[t]);
    }
  }

  // The slot holds the request that covers, and some other waker, or none, is acting.
  lemma RequestKeepsCovered(s: State, s': State, t: nat)
    requires Inv(s) && WakeStep(s, s', t) && !Acting(s, s.wakers[t]) && !LateClear(s, t)
    requires CurrentRequest(s) && (BeforeTake(s.execs[0]) || SomeOwner(s))
    requires s.st == Running || s.st == Pending
    requires s'.st == Running || s'.st == Pending
    ensures Covered(s')
  {
    assert WakerOk(s, s.wakers[t]) && SeenOk(s.wakers[t]);
    SingleExec(s);
    WakeEvolves(s, s', t);
    if s'.req == s.req {
      if !BeforeTake(s.execs[0]) {
        var u :| u in s.wakers && Owns(s, s.wakers[u]);
        assert Owns(s', s'.wakers[u]);
      }
    } else {
      assert s.wakers[t].pc.ResolveClear? && s.wakers[t].pc.seen == Pending;
      assert Acting(s', s'.wakers[t]);
    }
  }

  lemma WakeKeepsCovered(s: State, s': State, t: nat)
    requires Inv(s) && WakeStep(s, s', t) && Covered(s)
    requires LateClear(s, t) ==> Holding(s) || SomeActing(s)
    requires s.st == Running || s.st == Pending
    requires s'.st == Running || s'.st == Pending
    ensures Covered(s')
  {
    WakeEvolves(s, s', t);
    if Acting(s, s.wakers[t]) {
      ActorKeepsCovered(s, s', t);
    } else if Holding(s) {
      assert Holding(s');
    } else if SomeActing(s) {
      var u :| u in s.wakers && Acting(s, s.wakers[u]);
      assert u != t;
      ActingPersists(s, s', u);
    } else {
      RequestKeepsCovered(s, s', t);
    }
  }

  lemma ExecKeepsSafe(s: State, s': State)
    requires Inv(s) && Safe(s) && ExecStep(s, s', 0)
    ensures Safe(s')
  {
    ExecEvolves(s, s');
    SingleExec(s);
    if s.execs[0].StoreRunning? {
      forall t | t in s.wakers
        ensures s.wakers[t].begin != s'.runs
      {
        assert WakerOk(s, s.wakers[t]);
      }
      assert !Relied(s');
    } else if (s'.st == Running || s'.st == Pending) && Relied(s') {
      ExecKeepsCovered(s, s');
    }
  }

  // A waker that starts to resolve for the current run finds or leaves a current request.
  lemma NewlyRelied(s: State, s': State, t: nat)
    requires Inv(s) && WakeStep(s, s', t) && !Relied(s) && Relied(s')
    requires s.st == Running || s.st == Pending
    requires s'.st == Running || s'.st == Pending
    ensures Covered(s')
  {
    assert WakerOk(s, s.wakers[t]) && SeenOk(s.wakers[t]);
    SingleExec(s);
    WakeHasEffect(s, s', t);
    if s.wakers[t].pc.Push? {
      PusherQueued(s, t);
    }
    assert Owns(s', s'.wakers[t]);
  }

  lemma WakeKeepsSafe(s: State, s': State, t: nat)
    requires Inv(s) && Safe(s) && WakeStep(s, s', t) && !Clobbers(s, t)
    ensures Safe(s')
  {
    WakeEvolves(s, s', t);
    assert SeenOk(s.wakers[t]);
    if (s'.st == Running || s'.st == Pending) && Relied(s') {
      if Relied(s) {
        WakeKeepsCovered(s, s', t);
      } else {
        NewlyRelied(s, s', t);
      }
    }
  }

  // ---- Whole runs ----

  lemma InitInv(s: State)
    requires Init(s) && s.execs.Keys == {0}
    ensures Inv(s) && Safe(s)
  {
    InitExclusive(s);
  }

  lemma StepKeepsInv(s: State, s': State)
    requires Inv(s) && OwnedStep(s, s')
    ensures Inv(s')
    ensures Safe(s) && !ClobberStep(s, s') ==> Safe(s')
  {
    if ExecStep(s, s', 0) {
      ExecKeepsInv(s, s');
      if Safe(s) {
        ExecKeepsSafe(s, s');
      }
    } else {
      var t: nat :| WakeStep(s, s', t);
      WakeKeepsInv(s, s', t);
      if Safe(s) && !ClobberStep(s, s') {
        WakeKeepsSafe(s, s', t);
      }
    }
  }

  lemma {:induction false} RunInv(run: seq<State>, i: nat)
    requires OwnedRun(run) && i < |run|
    ensures Inv(run[i])
  {
    if i == 0 {
      InitInv(run[0]);
    } else {
      RunInv(run, i - 1);
      assert OwnedAt(run, i - 1);
      StepKeepsInv(run[i - 1], run[i]);
    }
  }

  ghost predicate ClobberAt(run: seq<State>, i: nat)
    requires i + 1 < |run|
  {
    0 in run[i].execs && ClobberStep(run[i], run[i + 1])
  }

  // No step of the run takes away what a wake relies on.
  ghost predicate ClobberFree(run: seq<State>)
    requires OwnedRun(run)
  {
    forall i: nat | i + 1 < |run| :: !ClobberAt(run, i)
  }

  lemma {:induction false} RunSafe(run: seq<State>, i: nat)
    requires OwnedRun(run) && ClobberFree(run) && i < |run|
    ensures Inv(run[i]) && Safe(run[i])
  {
    if i == 0 {
      InitInv(run[0]);
    } else {
      RunSafe(run, i - 1);
      assert OwnedAt(run, i - 1) && !ClobberAt(run, i - 1);
      StepKeepsInv(run[i - 1], run[i]);
    }
  }

  lemma SafeLosesNothing(s: State)
    requires Inv(s) && Safe(s)
    ensures NoWakeLost(s)
  {
    forall b | b in s.accepted
      ensures Forced(s, b)
    {
      assert s.st != Created;
    }
  }

  /** Along every run without a clobbering clear, each accepted wake has been followed by
    * the beginning of a run body, or one is forced, or the task is done.
    */
  lemma NoWakeIsLost(run: seq<State>, i: nat)
    requires OwnedRun(run) && ClobberFree(run) && i < |run|
    ensures 0 in run[i].execs && NoWakeLost(run[i])
  {
    RunSafe(run, i);
    SafeLosesNothing(run[i]);
  }

  ghost predicate Quiet(s: State) {
    && s.execs.Keys == {0} && s.execs[0] == Idle
    && forall t | t in s.wakers :: s.wakers[t].pc == Out
  }

  /** Once every thread is outside the protocol nothing is left to a promise: an accepted
    * wake that no run body followed has its entry in the ready queue.
    */
  lemma QuietMeansQueued(run: seq<State>, i: nat, b: nat)
    requires OwnedRun(run) && ClobberFree(run) && i < |run|
    requires Quiet(run[i]) && b in run[i].accepted
    ensures run[i].st == Done || run[i].runs > b || (run[i].st == Queued && run[i].entries == 1)
  {
    var s := run[i];
    RunSafe(run, i);
    SafeLosesNothing(s);
    SingleExec(s);
    assert Forced(s, b);
    if s.st == Queued {
      var a :| a in Tokens(s);
      assert a == InQueue;
    }
  }
}
