/** Where wake requests come from and where they go, when one executor owns the task: none is left
  * behind, and a run that ended with "pending" is followed by another one on the executor's own
  * account only if a wake left a request for it.
  */
module TaskRequests {
  import opened TaskProtocol
  import opened TaskExclusivity
  import opened TaskNoLostWake
  import opened TaskAnswers

  // ---- Every request has somebody who will remove it ----

  // The executor has yet to empty the slot for the current run.
  predicate WillTake(x: ExecPc) {
    InRunning(x) || x.TakePending? || x.TakeDone? || x.TakeAgain?
  }

  // The waker left this request, or found it in place, and will look again and clear it.
  predicate Minds(s: State, w: Waker) {
    && s.req.Want? && w.tag == s.req.tag
    && (|| w.pc == ResolveState(s.req.epoch)
        || (w.pc.ResolveClear? && w.pc.e == s.req.epoch)
        || (w.pc == ResolveEpoch(s.req.epoch) && s.req.epoch != s.epoch))
  }

  ghost predicate Minded(s: State) {
    exists t :: t in s.wakers && Minds(s, s.wakers[t])
  }

  ghost predicate RequestKept(s: State) {
    && 0 in s.execs
    && (s.req.Want? ==> (s.req.epoch == s.epoch && WillTake(s.execs[0])) || Minded(s))
  }

  lemma MinderSteps(s: State, s': State, t: nat)
    requires WakeStep(s, s', t) && Minds(s, s.wakers[t]) && 0 in s.execs && s'.req == s.req
    requires s.st == Running ==> InRunning(s.execs[0])
    ensures RequestKept(s')
  {
    if s'.wakers[t].pc != ResolveEpoch(s.epoch) {
      assert Minds(s', s'.wakers[t]);
    }
  }

  lemma WakeKeepsRequest(s: State, s': State, t: nat)
    requires Inv(s) && RequestKept(s) && WakeStep(s, s', t)
    ensures RequestKept(s')
  {
    SingleExec(s);
    assert SeenOk(s.wakers[t]);
    WakeHasFrame(s, s', t);
    WakeHasEffect(s, s', t);
    if s'.req.Want? {
      if s'.req != s.req {
        assert Minds(s', s'.wakers[t]);
      } else if u :| u in s.wakers && Minds(s, s.wakers[u]) {
        if u == t {
          MinderSteps(s, s', t);
        } else {
          assert Minds(s', s'.wakers[u]);
        }
      }
    }
  }

  lemma ExecKeepsRequest(s: State, s': State)
    requires Inv(s) && RequestKept(s) && ExecStep(s, s', 0)
    ensures RequestKept(s')
  {
    SingleExec(s);
    ExecEvolves(s, s');
    if s'.req.Want? && !(s.req.epoch == s.epoch && WillTake(s.execs[0])) {
      var u :| u in s.wakers && Minds(s, s.wakers[u]);
      assert WakerOk(s, s.wakers[u]);
      assert Minds(s', s'.wakers[u]);
    }
  }

  lemma {:induction false} RunKeepsRequest(run: seq<State>, i: nat)
    requires OwnedRun(run) && i < |run|
    ensures RequestKept(run[i])
  {
    if i > 0 {
      RunKeepsRequest(run, i - 1);
      RunInv(run, i - 1);
      assert OwnedAt(run, i - 1);
      StepKeepsRequest(run[i - 1], run[i]);
    }
  }

  lemma StepKeepsRequest(s: State, s': State)
    requires Inv(s) && RequestKept(s) && OwnedStep(s, s')
    ensures RequestKept(s')
  {
    if ExecStep(s, s', 0) {
      ExecKeepsRequest(s, s');
    } else {
      var t: nat :| WakeStep(s, s', t);
      WakeKeepsRequest(s, s', t);
    }
  }

  /** Once every thread is outside the protocol the request slot is empty. */
  lemma NoRequestIsLeftBehind(run: seq<State>, i: nat)
    requires OwnedRun(run) && i < |run| && Quiet(run[i])
    ensures run[i].req == NoRequest
  {
    RunKeepsRequest(run, i);
  }

  // ---- Every request was left by a wake ----

  // In this step waker t left a request for run e, while that was the current one or an earlier one.
  ghost predicate LeavesFor(s: State, s': State, t: nat, e: nat) {
    LeavesRequest(s, s', t) && s.wakers[t].pc.e == e
  }

  ghost predicate SomeLeaves(s: State, s': State, e: nat) {
    exists t :: LeavesFor(s, s', t, e)
  }

  ghost predicate LeftAt(run: seq<State>, k: nat, e: nat)
    requires k + 1 < |run|
  {
    SomeLeaves(run[k], run[k + 1], e)
  }

  ghost predicate Caused(run: seq<State>, j: nat, e: nat)
    requires j < |run|
  {
    exists k: nat :: k < j && LeftAt(run, k, e)
  }

  // The request in the slot, the one the executor took, and the one it acts on.
  ghost predicate AllCaused(run: seq<State>, j: nat)
    requires j < |run|
  {
    && 0 in run[j].execs
    && (run[j].req.Want? ==> Caused(run, j, run[j].req.epoch))
    && (run[j].execs[0].CheckPending? && run[j].execs[0].taken.Want? ==> Caused(run, j, run[j].execs[0].taken.epoch))
    && (run[j].execs[0] == ClaimPending ==> Caused(run, j, run[j].epoch))
  }

  lemma CauseStep(s: State, s': State)
    requires OwnedStep(s, s') && 0 in s.execs
    ensures 0 in s'.execs
    ensures s'.req.Want? ==> s'.req == s.req || SomeLeaves(s, s', s'.req.epoch)
    ensures s'.execs[0].CheckPending? ==> s'.execs[0] == s.execs[0] || s'.execs[0].taken == s.req
    ensures s'.execs[0] == ClaimPending ==>
              s'.epoch == s.epoch
              && (s.execs[0] == ClaimPending || s.execs[0] == CheckPending(Want(s.epoch, s.execs[0].taken.tag)))
  {
    if ExecStep(s, s', 0) {
    } else {
      var t: nat :| WakeStep(s, s', t);
      WakeCauses(s, s', t);
    }
  }

  lemma WakeCauses(s: State, s': State, t: nat)
    requires WakeStep(s, s', t)
    ensures s'.execs == s.execs && s'.epoch == s.epoch
    ensures s'.req.Want? ==> s'.req == s.req || LeavesFor(s, s', t, s'.req.epoch)
  {
  }

  lemma StillCaused(run: seq<State>, i: nat, j: nat, e: nat)
    requires i <= j < |run| && Caused(run, i, e)
    ensures Caused(run, j, e)
  {
  }

  lemma {:induction false} RunCaused(run: seq<State>, j: nat)
    requires OwnedRun(run) && j < |run|
    ensures AllCaused(run, j)
  {
    if j > 0 {
      RunCaused(run, j - 1);
      assert OwnedAt(run, j - 1);
      CauseStep(run[j - 1], run[j]);
      forall e: nat | Caused(run, j - 1, e)
        ensures Caused(run, j, e)
      {
        StillCaused(run, j - 1, j, e);
      }
      if run[j].req.Want? && run[j].req != run[j - 1].req {
        assert LeftAt(run, j - 1, run[j].req.epoch);
      }
    }
  }

  lemma {:induction false} EpochGrows(run: seq<State>, i: nat, j: nat)
    requires OwnedRun(run) && i <= j < |run|
    ensures run[i].epoch <= run[j].epoch
    decreases j
  {
    if i < j {
      EpochGrows(run, i, j - 1);
      RunInv(run, j - 1);
      assert OwnedAt(run, j - 1);
      EpochStep(run[j - 1], run[j]);
    }
  }

  lemma EpochStep(s: State, s': State)
    requires Inv(s) && OwnedStep(s, s')
    ensures s.epoch <= s'.epoch
  {
    if ExecStep(s, s', 0) {
      ExecEvolves(s, s');
    } else {
      var t: nat :| WakeStep(s, s', t);
      WakeCauses(s, s', t);
    }
  }

  /** When the executor goes to queue a task whose run ended with "pending", some wake left its
    * request during that very run: at a moment when the run's epoch was the current one, and for it.
    */
  lemma QueuedAgainOnlyOnRequest(run: seq<State>, j: nat) returns (k: nat, t: nat)
    requires OwnedRun(run) && j < |run| && 0 in run[j].execs && run[j].execs[0] == ClaimPending
    ensures k < j && LeavesFor(run[k], run[k + 1], t, run[j].epoch) && run[k].epoch == run[j].epoch
  {
    RunCaused(run, j);
    k :| k < j && LeftAt(run, k, run[j].epoch);
    t :| LeavesFor(run[k], run[k + 1], t, run[j].epoch);
    EpochGrows(run, k, j);
    RunInv(run, k);
    assert WakerOk(run[k], run[k].wakers[t]);
  }
}
