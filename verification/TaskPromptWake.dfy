/** A second way to be safe from the lost wake: no run is started while a waker that found the
  * task running has yet to load the run epoch. A caller that starts no new wake before the run
  * caused by its last one has begun, and whose task does not ask to be run again meanwhile, is
  * of this kind, even if its calls overlap.
  */
module TaskPromptWake {
  import opened TaskProtocol
  import opened TaskExclusivity
  import opened TaskNoLostWake

  ghost predicate Prompt(s: State) {
    s.st == Starting ==> forall t | t in s.wakers :: s.wakers[t].pc != ReadEpoch
  }

  // The waker has loaded a run epoch.
  predicate Loaded(pc: WakerPc) {
    pc.Install? || pc.ResolveState? || pc.ResolveEpoch? || pc.ResolveClear? || pc.ResolveQueue?
  }

  // The run epoch of the run being started is not stored yet.
  predicate BeforeStore(pc: ExecPc) {
    pc.LoadEpoch? || pc.StoreEpoch?
  }

  // Nobody has the epoch of a run before its body begins.
  predicate Early(st: TaskState, epoch: nat, x: ExecPc, pc: WakerPc) {
    && (Loaded(pc) ==> pc.e <= epoch)
    && (Loaded(pc) && st == Starting && x == StoreRunning ==> pc.e < epoch)
    && (pc.ResolveClear? && pc.seen == Starting ==> pc.e < epoch || (st == Starting && BeforeStore(x)))
  }

  ghost predicate AllEarly(s: State) {
    0 in s.execs && forall t | t in s.wakers :: Early(s.st, s.epoch, s.execs[0], s.wakers[t].pc)
  }

  // Starting means that the executor is on its way to the body.
  lemma StartingExec(s: State)
    requires Inv(s)
    ensures 0 in s.execs && (s.st == Starting <==> BeforeStore(s.execs[0]) || s.execs[0] == StoreRunning)
    ensures s.execs[0].StoreEpoch? ==> s.execs[0].next == s.epoch + 1
  {
    SingleExec(s);
  }

  lemma ExecKeepsEarly(s: State, s': State)
    requires Inv(s) && Inv(s') && AllEarly(s) && ExecStep(s, s', 0)
    ensures AllEarly(s')
  {
    StartingExec(s);
    StartingExec(s');
    ExecEvolves(s, s');
    forall t | t in s'.wakers
      ensures Early(s'.st, s'.epoch, s'.execs[0], s'.wakers[t].pc)
    {
      assert Early(s.st, s.epoch, s.execs[0], s.wakers[t].pc);
      ExecKeepsOne(s, s', s.wakers[t].pc);
    }
  }

  lemma ExecKeepsOne(s: State, s': State, pc: WakerPc)
    requires 0 in s.execs && 0 in s'.execs && ExecStep(s, s', 0) && Early(s.st, s.epoch, s.execs[0], pc)
    requires s.st == Starting <==> BeforeStore(s.execs[0]) || s.execs[0] == StoreRunning
    requires s'.st == Starting <==> BeforeStore(s'.execs[0]) || s'.execs[0] == StoreRunning
    requires s.execs[0].StoreEpoch? ==> s.execs[0].next == s.epoch + 1
    ensures Early(s'.st, s'.epoch, s'.execs[0], pc)
  {
  }

  // The stepping waker.
  lemma WakeKeepsOwn(s: State, s': State, t: nat)
    requires WakeStep(s, s', t) && 0 in s.execs && s'.execs == s.execs
    requires s.st == Starting <==> BeforeStore(s.execs[0]) || s.execs[0] == StoreRunning
    requires s'.st == Starting <==> s.st == Starting
    requires Early(s.st, s.epoch, s.execs[0], s.wakers[t].pc)
    requires s.wakers[t].pc == ReadEpoch ==> s.st != Starting
    ensures t in s'.wakers && Early(s'.st, s'.epoch, s'.execs[0], s'.wakers[t].pc)
  {
  }

  lemma WakeKeepsEarly(s: State, s': State, t: nat)
    requires Inv(s) && Inv(s') && AllEarly(s) && Prompt(s) && WakeStep(s, s', t)
    ensures AllEarly(s')
  {
    StartingExec(s);
    StartingExec(s');
    WakeEvolves(s, s', t);
    assert SeenOk(s.wakers[t]);
    WakeHasEffect(s, s', t);
    WakeKeepsOwn(s, s', t);
    forall u | u in s'.wakers
      ensures Early(s'.st, s'.epoch, s'.execs[0], s'.wakers[u].pc)
    {
      if u != t {
        assert s'.wakers[u] == s.wakers[u] && Early(s.st, s.epoch, s.execs[0], s.wakers[u].pc);
      }
    }
  }

  ghost predicate AllPrompt(run: seq<State>) {
    forall i: nat | i < |run| :: Prompt(run[i])
  }

  lemma {:induction false} RunEarly(run: seq<State>, i: nat)
    requires OwnedRun(run) && AllPrompt(run) && i < |run|
    ensures AllEarly(run[i])
  {
    if i > 0 {
      RunEarly(run, i - 1);
      StepEarly(run, i - 1);
    }
  }

  lemma StepEarly(run: seq<State>, i: nat)
    requires OwnedRun(run) && i + 1 < |run| && AllEarly(run[i]) && Prompt(run[i])
    ensures AllEarly(run[i + 1])
  {
    RunInv(run, i);
    RunInv(run, i + 1);
    assert OwnedAt(run, i);
    if ExecStep(run[i], run[i + 1], 0) {
      ExecKeepsEarly(run[i], run[i + 1]);
    } else {
      var t: nat :| WakeStep(run[i], run[i + 1], t);
      WakeKeepsEarly(run[i], run[i + 1], t);
    }
  }

  lemma EarlyNoClobber(s: State, t: nat)
    requires AllEarly(s)
    ensures !Clobbers(s, t)
  {
    if t in s.wakers {
      assert Early(s.st, s.epoch, s.execs[0], s.wakers[t].pc);
    }
  }

  /** If no run is Starting while a waker that found the task running has yet to load the run
    * epoch, no wake is lost.
    */
  lemma PromptWakesAreNotLost(run: seq<State>, i: nat)
    requires OwnedRun(run) && AllPrompt(run) && i < |run|
    ensures 0 in run[i].execs && NoWakeLost(run[i])
  {
    forall j: nat | j + 1 < |run|
      ensures !ClobberAt(run, j)
    {
      RunEarly(run, j);
      forall t: nat
        ensures !Clobbers(run[j], t)
      {
        EarlyNoClobber(run[j], t);
      }
    }
    NoWakeIsLost(run, i);
  }
}
