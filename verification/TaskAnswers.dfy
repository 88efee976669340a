/** What the caller of a wake is told, and when: over every run, with any number of wakers and
  * executors and with rejected inserts.
  */
module TaskAnswers {
  import opened TaskProtocol
  import opened TaskExclusivity

  // ---- A task that has been run is never Created again ----

  // The waker is past the state check that found the task running.
  predicate Deferring(pc: WakerPc) {
    pc.ReadEpoch? || pc.Install? || pc.ClearStale? || InResolve(pc)
  }

  // The task was never inserted into a queue.
  ghost predicate New(s: State) {
    s.st == Created || exists t :: t in s.wakers && s.wakers[t].pc == Push(Created)
  }

  ghost predicate Untouched(s: State) {
    && (forall t | t in s.wakers :: !Deferring(s.wakers[t].pc))
    && (forall x | x in s.execs :: s.execs[x] == Idle)
  }

  ghost predicate OnceNew(s: State) {
    && (New(s) ==> Untouched(s))
    && (forall t | t in s.wakers && s.wakers[t].pc.ResolveClear? :: s.wakers[t].pc.seen != Created)
  }

  // A new task is in no queue, and nobody runs it.
  lemma NewIsQuiet(s: State)
    requires Exclusive(s) && New(s)
    ensures s.entries == 0 && (s.st == Created || s.st == Queued)
  {
    if s.entries > 0 {
      assert InQueue in Tokens(s);
    }
    if t :| t in s.wakers && s.wakers[t].pc == Push(Created) {
      assert ByWaker(t) in Tokens(s);
    }
  }

  // A waker that finds a new task does not go past the state check.
  lemma NewIsNotDeferred(s: State, s': State, t: nat)
    requires WakeStep(s, s', t) && (s.st == Created || s.st == Queued) && !Deferring(s.wakers[t].pc)
    ensures t in s'.wakers && !Deferring(s'.wakers[t].pc)
  {
  }

  // Only a new task is Created after the step, or claimed by the waker as such.
  lemma WakeBecomesNew(s: State, s': State, t: nat)
    requires WakeStep(s, s', t)
    ensures t in s'.wakers && (s'.wakers[t].pc == Push(Created) ==> s.st == Created)
    ensures s'.st == Created ==> s.st == Created
  {
  }

  lemma CancelBecomesNew(s: State, s': State, t: nat)
    requires CancelStep(s, s', t)
    ensures t in s'.wakers && s'.wakers[t].pc == Out
    ensures s'.st == Created ==> s.st == Created || s.wakers[t].pc == Push(Created)
  {
  }

  lemma SeesNotNew(s: State, s': State, t: nat)
    requires WakeStep(s, s', t) && (Deferring(s.wakers[t].pc) ==> s.st != Created)
    requires s.wakers[t].pc.ResolveClear? ==> s.wakers[t].pc.seen != Created
    ensures t in s'.wakers && (s'.wakers[t].pc.ResolveClear? ==> s'.wakers[t].pc.seen != Created)
  {
  }

  lemma WakeKeepsOnceNew(s: State, s': State, t: nat)
    requires Exclusive(s) && OnceNew(s) && (WakeStep(s, s', t) || CancelStep(s, s', t))
    ensures OnceNew(s')
  {
    assert SeenOk(s.wakers[t]);
    WakeHasEffect(s, s', t);
    if New(s) {
      NewIsQuiet(s);
    }
    if CancelStep(s, s', t) {
      CancelBecomesNew(s, s', t);
    } else {
      WakeBecomesNew(s, s', t);
      SeesNotNew(s, s', t);
      if New(s) {
        NewIsNotDeferred(s, s', t);
      }
    }
    if u :| u in s'.wakers && u != t && s'.wakers[u].pc == Push(Created) {
      assert s.wakers[u].pc == Push(Created);
    }
  }

  lemma ExecKeepsOnceNew(s: State, s': State, x: nat)
    requires Exclusive(s) && OnceNew(s) && ExecStep(s, s', x)
    ensures OnceNew(s')
  {
    ExecHasEffect(s, s', x);
    if New(s) {
      NewIsQuiet(s);
    }
  }

  lemma StepKeepsOnceNew(s: State, s': State)
    requires Exclusive(s) && OnceNew(s) && Next(s, s')
    ensures OnceNew(s')
  {
    var t: nat :| WakeStep(s, s', t) || CancelStep(s, s', t) || ExecStep(s, s', t);
    if ExecStep(s, s', t) {
      ExecKeepsOnceNew(s, s', t);
    } else {
      WakeKeepsOnceNew(s, s', t);
    }
  }

  lemma {:induction false} RunOnceNew(run: seq<State>, i: nat)
    requires IsRun(run) && i < |run|
    ensures Exclusive(run[i]) && OnceNew(run[i])
  {
    RunExclusive(run, i);
    if i > 0 {
      RunOnceNew(run, i - 1);
      assert NextAt(run, i - 1);
      StepKeepsOnceNew(run[i - 1], run[i]);
    }
  }

  // ---- One wake, from its beginning to its return ----

  // Waker t begins a wake after state i and is back outside in state j.
  ghost predicate Wake(run: seq<State>, t: nat, i: nat, j: nat) {
    && i + 1 < j < |run|
    && forall k | i <= k <= j :: t in run[k].wakers && (run[k].wakers[t].pc == Out <==> k == i || k == j)
  }

  // The waker has just come to hold the task on its way into the queue.
  ghost predicate TakesToken(s: State, s': State, t: nat) {
    ByWaker(t) !in Tokens(s) && ByWaker(t) in Tokens(s')
  }

  // The waker has just left its request, or found the same one in place.
  ghost predicate LeavesRequest(s: State, s': State, t: nat) {
    && t in s.wakers && t in s'.wakers && s.wakers[t].pc.Install? && s'.wakers[t].pc != s.wakers[t].pc
    && s'.req == Want(s.wakers[t].pc.e, s.wakers[t].tag)
  }

  ghost predicate EffectAt(run: seq<State>, t: nat, k: nat)
    requires k + 1 < |run|
  {
    TakesToken(run[k], run[k + 1], t) || LeavesRequest(run[k], run[k + 1], t)
  }

  ghost predicate TookEffect(run: seq<State>, t: nat, i: nat, j: nat)
    requires j < |run|
  {
    exists k: nat :: i < k < j && EffectAt(run, t, k)
  }

  // The waker gave up the task without inserting it.
  ghost predicate Cancelled(s: State, s': State, t: nat) {
    ByWaker(t) in Tokens(s) && ByWaker(t) !in Tokens(s') && s'.entries == s.entries
  }

  predicate Late(pc: WakerPc) {
    InResolve(pc) || pc.Push?
  }

  lemma OthersStay(s: State, s': State, u: nat, t: nat)
    requires (WakeStep(s, s', u) || CancelStep(s, s', u)) && t in s.wakers && t != u
    ensures t in s'.wakers && s'.wakers[t] == s.wakers[t]
  {
  }

  // Only waker t moves waker t.
  lemma MovedItself(s: State, s': State, t: nat)
    requires Next(s, s') && t in s.wakers && t in s'.wakers && s'.wakers[t] != s.wakers[t]
    ensures WakeStep(s, s', t) || CancelStep(s, s', t)
  {
    var u := Mover(s, s');
    if u != t {
      OthersStay(s, s', u, t);
    }
  }

  // A step that changes some waker is a step of one.
  lemma Mover(s: State, s': State) returns (u: nat)
    requires Next(s, s') && s'.wakers != s.wakers
    ensures WakeStep(s, s', u) || CancelStep(s, s', u)
  {
    u :| WakeStep(s, s', u) || CancelStep(s, s', u) || ExecStep(s, s', u);
    if ExecStep(s, s', u) {
      ExecHasEffect(s, s', u);
    }
  }

  lemma GoesOn(s: State, s': State, t: nat)
    requires WakeStep(s, s', t) && t in s'.wakers && s.wakers[t].pc != Out && s'.wakers[t].pc != Out
    ensures Late(s'.wakers[t].pc) <==> Late(s.wakers[t].pc) || TakesToken(s, s', t) || LeavesRequest(s, s', t)
  {
  }

  // One state later, the same question about what was done so far.
  lemma LateStep(s: State, s': State, t: nat)
    requires Next(s, s') && t in s.wakers && t in s'.wakers
    requires s.wakers[t].pc != Out && s'.wakers[t].pc != Out
    ensures Late(s'.wakers[t].pc) <==> Late(s.wakers[t].pc) || TakesToken(s, s', t) || LeavesRequest(s, s', t)
  {
    if s'.wakers[t] != s.wakers[t] {
      MovedItself(s, s', t);
      GoesOn(s, s', t);
    }
  }

  lemma FirstStep(s: State, s': State, t: nat)
    requires Next(s, s') && t in s.wakers && t in s'.wakers
    requires s.wakers[t].pc == Out && s'.wakers[t].pc != Out
    ensures !Late(s'.wakers[t].pc)
  {
    MovedItself(s, s', t);
  }

  lemma EffectSoFar(run: seq<State>, t: nat, i: nat, k: nat)
    requires i + 1 < k < |run|
    ensures TookEffect(run, t, i, k) <==> TookEffect(run, t, i, k - 1) || EffectAt(run, t, k - 1)
  {
  }

  ghost predicate LateIn(s: State, t: nat) {
    t in s.wakers && Late(s.wakers[t].pc)
  }

  // State k of a wake that began after state i is late by the last step, or was so before it.
  ghost predicate Accounts(run: seq<State>, t: nat, i: nat, k: nat)
    requires i < k < |run|
  {
    LateIn(run[k], t) <==> k > i + 1 && (LateIn(run[k - 1], t) || EffectAt(run, t, k - 1))
  }

  lemma LateAt(run: seq<State>, t: nat, i: nat, k: nat, j: nat)
    requires IsRun(run) && Wake(run, t, i, j) && i < k < j
    ensures Accounts(run, t, i, k)
  {
    assert NextAt(run, k - 1);
    if k == i + 1 {
      FirstStep(run[k - 1], run[k], t);
    } else {
      LateStep(run[k - 1], run[k], t);
    }
  }

  lemma {:induction false} LateMeansEffect(run: seq<State>, t: nat, i: nat, k: nat)
    requires i < k < |run| && forall m | i < m <= k :: Accounts(run, t, i, m)
    ensures LateIn(run[k], t) <==> TookEffect(run, t, i, k)
  {
    assert Accounts(run, t, i, k);
    if k > i + 1 {
      LateMeansEffect(run, t, i, k - 1);
      EffectSoFar(run, t, i, k);
    }
  }

  // The return itself.
  lemma WakeReturns(s: State, s': State, t: nat)
    requires WakeStep(s, s', t) && t in s'.wakers && s.wakers[t].pc != Out && s'.wakers[t].pc == Out
    requires s.wakers[t].pc.ResolveClear? ==> s.wakers[t].pc.seen != Created
    ensures s'.wakers[t].told <==> Late(s.wakers[t].pc)
    ensures s.wakers[t].pc.Push? ==> s'.entries == s.entries + 1
    ensures s'.wakers[t].told ==> s'.wakers[t].begin in s'.accepted
    ensures !s'.wakers[t].told <==> RefusedAtCheck(s, s.wakers[t])
  {
  }

  lemma CancelReturns(s: State, s': State, t: nat)
    requires CancelStep(s, s', t)
    ensures t in s'.wakers && !s'.wakers[t].told && Cancelled(s, s', t)
    ensures s.st == Queued ==> s'.st == s.wakers[t].pc.previous
  {
    assert ByWaker(t) in Tokens(s);
  }

  // Why a wake is refused.
  predicate RefusedAtCheck(s: State, w: Waker) {
    || (w.pc == ReadState && (s.st == Queued || s.st == Done))
    || (w.pc.Install? && s.req.Want? && s.req.epoch == w.pc.e && s.req.tag != w.tag)
  }

  ghost predicate PutsBack(s: State, s': State, t: nat)
    requires t in s.wakers
  {
    Cancelled(s, s', t) && s'.st == s.wakers[t].pc.previous
  }

  lemma LastHasNoEffect(s: State, s': State, t: nat)
    requires t in s'.wakers && s'.wakers[t].pc == Out && (WakeStep(s, s', t) || CancelStep(s, s', t))
    ensures !TakesToken(s, s', t) && !LeavesRequest(s, s', t)
  {
  }

  // What the return tells, by where the waker was.
  lemma ReturnTells(s: State, s': State, t: nat)
    requires OnceNew(s) && (WakeStep(s, s', t) || CancelStep(s, s', t)) && (s.wakers[t].pc.Push? ==> s.st == Queued)
    requires t in s'.wakers && s.wakers[t].pc != Out && s'.wakers[t].pc == Out
    ensures s'.wakers[t].told <==> Late(s.wakers[t].pc) && !Cancelled(s, s', t)
    ensures s'.wakers[t].told ==> s'.wakers[t].begin in s'.accepted
    ensures !s'.wakers[t].told <==> RefusedAtCheck(s, s.wakers[t]) || PutsBack(s, s', t)
  {
    if CancelStep(s, s', t) {
      CancelReturns(s, s', t);
    } else {
      WakeReturns(s, s', t);
    }
  }

  ghost predicate PushersQueued(s: State) {
    forall t | t in s.wakers && s.wakers[t].pc.Push? :: s.st == Queued
  }

  // How a wake that returns in this step is answered.
  ghost predicate Answered(s: State, s': State, t: nat) {
    && t in s.wakers && t in s'.wakers && !TakesToken(s, s', t) && !LeavesRequest(s, s', t)
    && (s'.wakers[t].told <==> Late(s.wakers[t].pc) && !Cancelled(s, s', t))
    && (s'.wakers[t].told ==> s'.wakers[t].begin in s'.accepted)
    && (!s'.wakers[t].told <==> RefusedAtCheck(s, s.wakers[t]) || PutsBack(s, s', t))
  }

  lemma ReturnAt(run: seq<State>, t: nat, i: nat, j: nat)
    requires IsRun(run) && Wake(run, t, i, j)
    ensures Answered(run[j - 1], run[j], t)
  {
    Settled(run, j - 1);
    assert NextAt(run, j - 1);
    ReturnStep(run[j - 1], run[j], t);
  }

  lemma Settled(run: seq<State>, k: nat)
    requires IsRun(run) && k < |run|
    ensures OnceNew(run[k]) && PushersQueued(run[k])
  {
    RunOnceNew(run, k);
    QueuedWhenHeld(run, k);
  }

  lemma ReturnStep(s: State, s': State, t: nat)
    requires OnceNew(s) && PushersQueued(s) && Next(s, s') && t in s.wakers
    requires t in s'.wakers && s.wakers[t].pc != Out && s'.wakers[t].pc == Out
    ensures Answered(s, s', t)
  {
    MovedItself(s, s', t);
    LastHasNoEffect(s, s', t);
    ReturnTells(s, s', t);
  }

  lemma LateAtReturn(run: seq<State>, t: nat, i: nat, j: nat)
    requires IsRun(run) && Wake(run, t, i, j)
    ensures Late(run[j - 1].wakers[t].pc) <==> TookEffect(run, t, i, j)
  {
    forall m | i < m <= j - 1
      ensures Accounts(run, t, i, m)
    {
      LateAt(run, t, i, m, j);
    }
    LateMeansEffect(run, t, i, j - 1);
    ReturnAt(run, t, i, j);
    EffectSoFar(run, t, i, j);
  }

  /** The caller of a wake is told "accepted" if and only if the wake came to hold the task or
    * left its request for the running task, and its insert was not rejected. A wake that is
    * accepted is one of those that must not be lost.
    */
  lemma AcceptedExactly(run: seq<State>, t: nat, i: nat, j: nat)
    requires IsRun(run) && Wake(run, t, i, j)
    ensures run[j].wakers[t].told <==> TookEffect(run, t, i, j) && !Cancelled(run[j - 1], run[j], t)
    ensures run[j].wakers[t].told ==> run[j].wakers[t].begin in run[j].accepted
  {
    LateAtReturn(run, t, i, j);
    ReturnAt(run, t, i, j);
  }

  /** It is told "refused" if and only if it found the task Queued or Done, or found another
    * request for the run whose epoch it loaded, or could not insert the task and put its state
    * back.
    */
  lemma RefusedExactly(run: seq<State>, t: nat, i: nat, j: nat)
    requires IsRun(run) && Wake(run, t, i, j)
    ensures !run[j].wakers[t].told
       <==> RefusedAtCheck(run[j - 1], run[j - 1].wakers[t]) || PutsBack(run[j - 1], run[j], t)
  {
    ReturnAt(run, t, i, j);
  }
}
