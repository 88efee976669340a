/** The other half of the no-lost-wake result: the clobbering clear really loses a wake, from
  * every reachable state in which it happens, and callers that do not overlap their wakes
  * never meet it.
  */
module TaskLostWake {
  import opened TaskProtocol
  import opened TaskExclusivity
  import opened TaskNoLostWake

  lemma ClobberBreaksSafe(s: State, s': State, t: nat)
    requires Inv(s) && WakeStep(s, s', t) && Clobbers(s, t)
    ensures Inv(s') && !Safe(s')
  {
    WakeKeepsInv(s, s', t);
    assert WakerOk(s, s.wakers[t]) && s.wakers[t].begin < s.runs;
    if s.runs !in s.accepted {
      var u :| u in s.wakers && Resolving(s.wakers[u].pc) && s.wakers[u].begin == s.runs;
      assert s'.wakers[u] == s.wakers[u];
    }
    assert Relied(s');
    forall u | u in s'.wakers
      ensures !Acting(s', s'.wakers[u])
    {
      assert u != t ==> s'.wakers[u] == s.wakers[u] && !Acting(s, s.wakers[u]);
    }
    assert !Holding(s');
  }

  // Exactly the clobbering clears break what the proof of the guarantee rests on.
  lemma OnlyClobbersBreakSafe(s: State, s': State, t: nat)
    requires Inv(s) && Safe(s) && WakeStep(s, s', t)
    ensures 0 in s'.execs && (Safe(s') <==> !Clobbers(s, t))
  {
    WakeKeepsInv(s, s', t);
    if Clobbers(s, t) {
      ClobberBreaksSafe(s, s', t);
    } else {
      WakeKeepsSafe(s, s', t);
    }
  }

  ghost predicate Steps(tail: seq<State>) {
    |tail| > 0 && forall i: nat | i + 1 < |tail| :: OwnedAt(tail, i)
  }

  // A resolving waker of the current run, with nothing covering it.
  ghost predicate Exposed(s: State, t: nat) {
    && 0 in s.execs && t in s.wakers && WakerOk(s, s.wakers[t])
    && (s.st == Running || s.st == Pending) && s.epoch == s.runs && !Covered(s)
    && Resolving(s.wakers[t].pc) && s.wakers[t].begin == s.runs
    && s.req != Want(s.epoch, s.wakers[t].tag)
  }

  // Its return keeps everyone else where they were, so the accepted wake stays uncovered.
  lemma ReturnLoses(s: State, t: nat)
    requires Exposed(s, t)
    ensures 0 in Return(s, t, true).execs && !NoWakeLost(Return(s, t, true))
  {
    var s' := Return(s, t, true);
    assert s.runs in s'.accepted;
    forall u | u in s'.wakers
      ensures !Acting(s', s'.wakers[u]) && !Owns(s', s'.wakers[u])
    {
      assert u != t ==> s'.wakers[u] == s.wakers[u];
      assert !Acting(s, s.wakers[u]);
      assert CurrentRequest(s) ==> !Owns(s, s.wakers[u]);
    }
    assert !Covered(s');
    assert !Forced(s', s.runs);
  }

  lemma MoveExposed(s: State, t: nat, pc: WakerPc)
    requires Exposed(s, t) && Resolving(pc) && !pc.ResolveQueue?
    requires WakerOk(At(s, t, pc), At(s, t, pc).wakers[t])
    ensures Exposed(At(s, t, pc), t)
  {
    var s' := At(s, t, pc);
    forall u | u in s'.wakers
      ensures !Acting(s', s'.wakers[u]) && !(CurrentRequest(s') && Owns(s', s'.wakers[u]) && !Owns(s, s.wakers[u]))
    {
      assert u != t ==> s'.wakers[u] == s.wakers[u];
      assert !Acting(s, s.wakers[u]);
    }
  }

  // Left to itself it returns "accepted" within two steps, and its wake is lost.
  lemma ExposedLoses(s: State, t: nat) returns (tail: seq<State>)
    requires Exposed(s, t)
    ensures Steps(tail) && tail[0] == s && |tail| <= if s.wakers[t].pc.ResolveState? then 3 else 2
    ensures 0 in tail[|tail| - 1].execs && !NoWakeLost(tail[|tail| - 1])
    decreases if s.wakers[t].pc.ResolveState? then 1 else 0
  {
    var pc := s.wakers[t].pc;
    var last := Return(s, t, true);
    if pc.ResolveState? {
      var s1 := At(s, t, if s.st == Running then ResolveEpoch(pc.e) else ResolveClear(pc.e, s.st));
      assert WakeStep(s, s1, t);
      MoveExposed(s, t, s1.wakers[t].pc);
      var rest := ExposedLoses(s1, t);
      tail := [s] + rest;
      forall i: nat | i + 1 < |tail|
        ensures OwnedAt(tail, i)
      {
        assert i > 0 ==> OwnedAt(rest, i - 1);
      }
    } else {
      assert !pc.ResolveQueue? by {
        assert !Acting(s, s.wakers[t]);
      }
      assert WakeStep(s, last, t);
      ReturnLoses(s, t);
      tail := [s, last];
    }
  }

  lemma UnsafeLoses(s: State) returns (tail: seq<State>)
    requires Inv(s) && !Safe(s)
    ensures Steps(tail) && tail[0] == s && |tail| <= 3
    ensures 0 in tail[|tail| - 1].execs && !NoWakeLost(tail[|tail| - 1])
  {
    SingleExec(s);
    if s.runs in s.accepted {
      assert !Forced(s, s.runs);
      tail := [s];
    } else {
      var t :| t in s.wakers && Resolving(s.wakers[t].pc) && s.wakers[t].begin == s.runs;
      assert WakerOk(s, s.wakers[t]);
      tail := ExposedLoses(s, t);
    }
  }

  /** Every run that ends in a clobbering clear can be continued, by at most two steps of
    * one waker, to a state in which an accepted wake is lost.
    */
  lemma ClobberLosesWake(run: seq<State>) returns (longer: seq<State>)
    requires OwnedRun(run) && |run| >= 2 && 0 in run[|run| - 2].execs
    requires ClobberStep(run[|run| - 2], run[|run| - 1])
    ensures OwnedRun(longer) && run <= longer && |longer| <= |run| + 2
    ensures 0 in longer[|longer| - 1].execs && !NoWakeLost(longer[|longer| - 1])
  {
    var n := |run|;
    RunInv(run, n - 2);
    var t: nat :| WakeStep(run[n - 2], run[n - 1], t) && Clobbers(run[n - 2], t);
    ClobberBreaksSafe(run[n - 2], run[n - 1], t);
    var tail := UnsafeLoses(run[n - 1]);
    longer := run + tail[1..];
    JoinRuns(run, tail);
  }

  lemma JoinRuns(run: seq<State>, tail: seq<State>)
    requires OwnedRun(run) && Steps(tail) && tail[0] == run[|run| - 1]
    ensures OwnedRun(run + tail[1..]) && (run + tail[1..])[|run| + |tail| - 2] == tail[|tail| - 1]
  {
    var longer, n := run + tail[1..], |run|;
    forall i: nat | i + 1 < |longer|
      ensures OwnedAt(longer, i)
    {
      if i < n - 1 {
        assert OwnedAt(run, i);
        assert longer[i] == run[i] && longer[i + 1] == run[i + 1];
      } else {
        assert OwnedAt(tail, i - (n - 1));
        assert longer[i] == tail[i - (n - 1)] && longer[i + 1] == tail[i - (n - 1) + 1];
      }
    }
  }

  // ---- Callers that do not overlap their wakes ----

  ghost predicate OneWakerIn(s: State) {
    forall t, u | t in s.wakers && u in s.wakers && s.wakers[t].pc != Out && s.wakers[u].pc != Out :: t == u
  }

  // Every wake accepted so far began no later than the one in progress.
  ghost predicate InOrder(s: State) {
    forall t, b | t in s.wakers && s.wakers[t].pc != Out && b in s.accepted :: b <= s.wakers[t].begin
  }

  // A waker that begins does so at the current run count; the others do not move.
  lemma WakeBegins(s: State, s': State, t: nat)
    requires WakeStep(s, s', t)
    ensures t in s'.wakers && s'.wakers[t].begin == if s.wakers[t].pc == Out then s.runs else s.wakers[t].begin
    ensures s'.accepted != s.accepted ==> s'.wakers[t].pc == Out
  {
  }

  lemma WakeKeepsInOrder(s: State, s': State, t: nat)
    requires Inv(s) && WakeStep(s, s', t) && OneWakerIn(s) && InOrder(s)
    ensures InOrder(s')
  {
    assert SeenOk(s.wakers[t]);
    WakeHasFrame(s, s', t);
    WakeHasEffect(s, s', t);
    WakeBegins(s, s', t);
    forall u, b | u in s'.wakers && s'.wakers[u].pc != Out && b in s'.accepted
      ensures b <= s'.wakers[u].begin
    {
      if u != t {
        assert s'.wakers[u] == s.wakers[u];
      }
    }
  }

  lemma StepKeepsInOrder(s: State, s': State)
    requires Inv(s) && OwnedStep(s, s') && OneWakerIn(s) && InOrder(s)
    ensures InOrder(s')
  {
    if ExecStep(s, s', 0) {
      ExecEvolves(s, s');
    } else {
      var t: nat :| WakeStep(s, s', t);
      WakeKeepsInOrder(s, s', t);
    }
  }

  lemma InOrderNoClobber(s: State, t: nat)
    requires Inv(s) && OneWakerIn(s) && InOrder(s)
    ensures !Clobbers(s, t)
  {
    if LateClear(s, t) {
      assert WakerOk(s, s.wakers[t]) && s.wakers[t].begin < s.runs;
    }
  }

  lemma SerialStep(run: seq<State>, i: nat)
    requires OwnedRun(run) && i + 1 < |run| && OneWakerIn(run[i]) && InOrder(run[i])
    ensures InOrder(run[i + 1])
  {
    RunInv(run, i);
    assert OwnedAt(run, i);
    StepKeepsInOrder(run[i], run[i + 1]);
  }

  ghost predicate Serial(run: seq<State>) {
    forall i: nat | i < |run| :: OneWakerIn(run[i])
  }

  lemma {:induction false} SerialInOrder(run: seq<State>, i: nat)
    requires OwnedRun(run) && i < |run| && Serial(run)
    ensures InOrder(run[i])
  {
    if i > 0 {
      SerialInOrder(run, i - 1);
      SerialStep(run, i - 1);
    }
  }

  lemma SerialNoClobber(run: seq<State>, i: nat, t: nat)
    requires OwnedRun(run) && i < |run| && Serial(run)
    ensures 0 in run[i].execs && !Clobbers(run[i], t)
  {
    SerialInOrder(run, i);
    RunInv(run, i);
    InOrderNoClobber(run[i], t);
  }

  /** If at most one wake of the task is in progress at any time, no wake is lost. */
  lemma SerialWakesAreNotLost(run: seq<State>, i: nat)
    requires OwnedRun(run) && i < |run| && Serial(run)
    ensures 0 in run[i].execs && NoWakeLost(run[i])
  {
    forall j: nat | j + 1 < |run|
      ensures !ClobberAt(run, j)
    {
      forall t: nat
        ensures 0 in run[j].execs && !Clobbers(run[j], t)
      {
        SerialNoClobber(run, j, t);
      }
    }
    NoWakeIsLost(run, i);
  }
}
