/** A forced run can always begin. `TaskNoLostWake` shows that after an accepted wake a run body has
  * begun or is forced; here every run in which one is forced is continued, by the executor and the
  * wakers that are already inside, until that body begins.
  *
  * A body that is running meanwhile is taken to end with "pending", the one result that does not
  * queue the task by itself.
  */
module TaskProgress {
  import opened Runs
  import opened TaskProtocol
  import opened TaskExclusivity
  import opened TaskNoLostWake

  // A step of the executor, or of a waker that has begun its wake.
  ghost predicate InsideStep(s: State, s': State) {
    ExecStep(s, s', 0) || exists t: nat :: t in s.wakers && s.wakers[t].pc != Out && WakeStep(s, s', t)
  }

  ghost predicate StepAt(run: seq<State>, i: nat)
    requires i + 1 < |run|
  {
    InsideStep(run[i], run[i + 1])
  }

  // A run in which no wake begins from state `from` on.
  ghost predicate NothingNew(run: seq<State>, from: nat) {
    && OwnedRun(run) && from < |run|
    && forall i: nat | from <= i && i + 1 < |run| :: StepAt(run, i)
  }

  lemma LongerRun(run: seq<State>, s': State)
    requires OwnedRun(run) && OwnedStep(Last(run), s')
    ensures OwnedRun(run + [s'])
  {
    var longer := run + [s'];
    forall i: nat | i + 1 < |longer|
      ensures OwnedAt(longer, i)
    {
      assert i + 1 < |run| ==> OwnedAt(run, i);
    }
  }

  lemma GoOn(run: seq<State>, from: nat, s': State) returns (longer: seq<State>)
    requires NothingNew(run, from) && InsideStep(Last(run), s')
    ensures NothingNew(longer, from) && longer == run + [s'] && Last(longer) == s'
  {
    longer := run + [s'];
    LongerRun(run, s');
    forall i: nat | from <= i && i + 1 < |longer|
      ensures StepAt(longer, i)
    {
      assert i + 1 < |run| ==> StepAt(run, i);
    }
  }

  lemma LastInv(run: seq<State>)
    requires OwnedRun(run)
    ensures Inv(Last(run)) && 0 in Last(run).execs
  {
    RunInv(run, |run| - 1);
  }

  // ---- Starting ----

  lemma StartStep(s: State) returns (m: State)
    requires Inv(s) && s.st == Starting
    ensures InsideStep(s, m)
    ensures if s.execs[0].StoreRunning? then m.runs == s.runs + 1
            else m.runs == s.runs && m.st == Starting && ToBody(m) < ToBody(s)
  {
    SingleExec(s);
    var x := s.execs[0];
    if x.LoadEpoch? {
      m := XAt(s, 0, StoreEpoch(s.epoch + 1));
    } else if x.StoreEpoch? {
      m := XAt(s, 0, StoreRunning).(epoch := x.next);
    } else {
      m := XAt(s, 0, Body).(st := Running, runs := s.runs + 1);
    }
    assert ExecStep(s, m, 0);
  }

  function ToBody(s: State): nat {
    if 0 !in s.execs then 0
    else match s.execs[0]
         case LoadEpoch => 2
         case StoreEpoch(_) => 1
         case _ => 0
  }

  lemma {:induction false} StartingBegins(run: seq<State>, from: nat) returns (longer: seq<State>)
    requires NothingNew(run, from) && Last(run).st == Starting
    ensures NothingNew(longer, from) && run <= longer && Last(longer).runs == Last(run).runs + 1
    decreases ToBody(Last(run))
  {
    LastInv(run);
    var m := StartStep(Last(run));
    longer := GoOn(run, from, m);
    if m.runs == Last(run).runs {
      longer := StartingBegins(longer, from);
    }
  }

  // ---- Queued ----

  // How far the executor is from being idle after a run that ended with "pending".
  function ToIdle(x: ExecPc): nat {
    match x
    case ClaimPending => 1
    case CheckPending(_) => 2
    case TakePending => 3
    case _ => 0
  }

  function ToPop(s: State): nat {
    if 0 !in s.execs || s.execs[0] == Popped then 0
    else if s.execs[0] == PushSelf then 9
    else if s.execs[0] == TakeAgain then 10
    else if s.entries > 0 then 1 + ToIdle(s.execs[0])
    else 5 + ToIdle(s.execs[0])
  }

  // The task is nearer to the executor, or has been popped and is Starting.
  ghost predicate Handed(s: State, m: State) {
    && InsideStep(s, m) && m.runs == s.runs
    && (m.st == Starting || (m.st == Queued && ToPop(m) < ToPop(s)))
  }

  lemma WakerHands(s: State, t: nat) returns (m: State)
    requires Inv(s) && t in s.wakers && s.wakers[t].pc.Push?
    ensures Handed(s, m)
  {
    SingleExec(s);
    assert ByWaker(t) in Tokens(s);
    assert ByExec(0) in Tokens(s) <==> HoldsEntry(s.execs[0]);
    assert InQueue in Tokens(s) <==> s.entries > 0;
    m := Return(s, t, true).(entries := s.entries + 1);
    assert WakeStep(s, m, t);
  }

  lemma HolderHands(s: State) returns (m: State)
    requires Inv(s) && HoldsEntry(s.execs[0])
    ensures Handed(s, m)
  {
    SingleExec(s);
    if s.execs[0] == Popped {
      m := XAt(s, 0, LoadEpoch).(st := Starting);
    } else if s.execs[0] == TakeAgain {
      m := XAt(s, 0, PushSelf).(req := NoRequest);
    } else {
      m := XAt(s, 0, Idle).(entries := s.entries + 1);
    }
    assert ExecStep(s, m, 0);
  }

  // An executor on its way out of the run before.
  lemma ExecutorComes(s: State) returns (m: State)
    requires Inv(s) && s.entries > 0
    ensures Handed(s, m)
  {
    SingleExec(s);
    assert InQueue in Tokens(s);
    assert ByExec(0) in Tokens(s) <==> HoldsEntry(s.execs[0]);
    var x := s.execs[0];
    if x == Idle {
      m := XAt(s, 0, Popped).(entries := s.entries - 1);
    } else if x == TakePending {
      m := XAt(s, 0, CheckPending(s.req)).(req := NoRequest);
    } else if x.CheckPending? {
      m := XAt(s, 0, if x.taken.Want? && x.taken.epoch == s.epoch then ClaimPending else Idle);
    } else {
      m := XAt(s, 0, Idle);
    }
    assert ExecStep(s, m, 0);
  }

  lemma QueueStep(s: State) returns (m: State)
    requires Inv(s) && s.st == Queued
    ensures Handed(s, m)
  {
    var a :| a in Tokens(s);
    match a
    case InQueue => m := ExecutorComes(s);
    case ByWaker(t) => m := WakerHands(s, t);
    case ByExec(x) => m := HolderHands(s);
  }

  lemma {:induction false} QueuedBegins(run: seq<State>, from: nat) returns (longer: seq<State>)
    requires NothingNew(run, from) && Last(run).st == Queued
    ensures NothingNew(longer, from) && run <= longer && Last(longer).runs == Last(run).runs + 1
    decreases ToPop(Last(run))
  {
    LastInv(run);
    var m := QueueStep(Last(run));
    longer := GoOn(run, from, m);
    if m.st == Queued {
      longer := QueuedBegins(longer, from);
    } else {
      longer := StartingBegins(longer, from);
    }
  }

  // ---- Pending, with a request for the current run in its owner's hands ----

  function ToQueue(pc: WakerPc): nat {
    match pc
    case ResolveState(_) => 2
    case ResolveClear(_, _) => 1
    case _ => 0
  }

  ghost predicate Resolves(s: State, t: nat) {
    && s.st == Pending && t in s.wakers
    && (Owns(s, s.wakers[t]) || s.wakers[t].pc == ResolveQueue(s.epoch))
  }

  lemma ResolveStep(s: State, t: nat) returns (m: State)
    requires Resolves(s, t)
    ensures InsideStep(s, m) && m.runs == s.runs
    ensures m.st == Queued || (Resolves(m, t) && ToQueue(m.wakers[t].pc) < ToQueue(s.wakers[t].pc))
  {
    var pc := s.wakers[t].pc;
    if pc.ResolveState? {
      m := At(s, t, ResolveClear(s.epoch, Pending));
    } else if pc.ResolveClear? {
      m := At(s, t, ResolveQueue(s.epoch)).(req := NoRequest);
    } else {
      m := At(s, t, Push(Pending)).(st := Queued);
    }
    assert WakeStep(s, m, t);
  }

  lemma {:induction false} ResolverBegins(run: seq<State>, from: nat, t: nat) returns (longer: seq<State>)
    requires NothingNew(run, from) && Resolves(Last(run), t)
    ensures NothingNew(longer, from) && run <= longer && Last(longer).runs == Last(run).runs + 1
    decreases ToQueue(Last(run).wakers[t].pc)
  {
    var m := ResolveStep(Last(run), t);
    longer := GoOn(run, from, m);
    if m.st == Queued {
      longer := QueuedBegins(longer, from);
    } else {
      longer := ResolverBegins(longer, from, t);
    }
  }

  // ---- Pending, with a waker that has yet to leave its request ----

  // A request of an earlier run has to be cleared first.
  function ToInstall(s: State, pc: WakerPc): nat {
    var stale := if s.req.Want? then 3 else 0;
    match pc
    case Install(_) => 4 + stale
    case ReadEpoch => 5 + stale
    case ClearStale(r) => if r == s.req then 6 else 6 + stale
    case _ => 0
  }

  ghost predicate Installs(s: State, t: nat) {
    && s.st == Pending && t in s.wakers && !CurrentRequest(s)
    && (s.wakers[t].pc == ReadEpoch || s.wakers[t].pc == Install(s.epoch) || s.wakers[t].pc.ClearStale?)
  }

  lemma InstallStep(s: State, t: nat) returns (m: State)
    requires Installs(s, t)
    ensures InsideStep(s, m) && m.runs == s.runs
    ensures Resolves(m, t) || (Installs(m, t) && ToInstall(m, m.wakers[t].pc) < ToInstall(s, s.wakers[t].pc))
  {
    var w := s.wakers[t];
    if w.pc == ReadEpoch {
      m := At(s, t, Install(s.epoch));
    } else if w.pc.ClearStale? {
      m := At(s, t, ReadEpoch).(req := if s.req == w.pc.stale then NoRequest else s.req);
    } else if s.req == NoRequest {
      m := At(s, t, ResolveState(s.epoch)).(req := Want(s.epoch, w.tag));
    } else {
      m := At(s, t, ClearStale(s.req));
    }
    assert WakeStep(s, m, t);
  }

  lemma {:induction false} InstallerBegins(run: seq<State>, from: nat, t: nat) returns (longer: seq<State>)
    requires NothingNew(run, from) && Installs(Last(run), t)
    ensures NothingNew(longer, from) && run <= longer && Last(longer).runs == Last(run).runs + 1
    decreases ToInstall(Last(run), Last(run).wakers[t].pc)
  {
    var m := InstallStep(Last(run), t);
    longer := GoOn(run, from, m);
    if Resolves(m, t) {
      longer := ResolverBegins(longer, from, t);
    } else {
      longer := InstallerBegins(longer, from, t);
    }
  }

  // ---- Pending, and the executor is still looking for a request ----

  lemma IdleBegins(run: seq<State>, from: nat) returns (longer: seq<State>)
    requires NothingNew(run, from) && Last(run).st == Pending && 0 in Last(run).execs && Last(run).execs[0] == Idle
    requires Covered(Last(run))
    ensures NothingNew(longer, from) && run <= longer && Last(longer).runs == Last(run).runs + 1
  {
    LastInv(run);
    var s := Last(run);
    if CurrentRequest(s) {
      var t :| t in s.wakers && Owns(s, s.wakers[t]);
      longer := ResolverBegins(run, from, t);
    } else {
      var t :| t in s.wakers && Acting(s, s.wakers[t]);
      if s.wakers[t].pc.ResolveQueue? {
        longer := ResolverBegins(run, from, t);
      } else {
        longer := InstallerBegins(run, from, t);
      }
    }
  }

  lemma LookStep(s: State) returns (m: State)
    requires Inv(s) && s.st == Pending && Covered(s) && s.execs[0] != Idle
    ensures InsideStep(s, m) && m.runs == s.runs && 0 in m.execs
    ensures m.st == Queued || (m.st == Pending && Covered(m) && ToIdle(m.execs[0]) < ToIdle(s.execs[0]))
  {
    SingleExec(s);
    var x := s.execs[0];
    if x == TakePending {
      m := XAt(s, 0, CheckPending(s.req)).(req := NoRequest);
    } else if x.CheckPending? {
      m := XAt(s, 0, if x.taken.Want? && x.taken.epoch == s.epoch then ClaimPending else Idle);
    } else {
      m := XAt(s, 0, PushSelf).(st := Queued);
    }
    assert ExecStep(s, m, 0);
    if m.st == Pending {
      ExecKeepsCovered(s, m);
    }
  }

  lemma {:induction false} PendingBegins(run: seq<State>, from: nat) returns (longer: seq<State>)
    requires NothingNew(run, from) && Last(run).st == Pending && 0 in Last(run).execs && Covered(Last(run))
    ensures NothingNew(longer, from) && run <= longer && Last(longer).runs == Last(run).runs + 1
    decreases ToIdle(Last(run).execs[0])
  {
    if Last(run).execs[0] == Idle {
      longer := IdleBegins(run, from);
    } else {
      LastInv(run);
      var m := LookStep(Last(run));
      longer := GoOn(run, from, m);
      if m.st == Queued {
        longer := QueuedBegins(longer, from);
      } else {
        longer := PendingBegins(longer, from);
      }
    }
  }

  // ---- Running ----

  lemma EndStep(s: State) returns (m: State)
    requires Inv(s) && s.st == Running && Covered(s)
    ensures InsideStep(s, m) && m.runs == s.runs && 0 in m.execs
    ensures || m.st == Done || m.st == Queued || (m.st == Pending && Covered(m))
            || (m.st == Running && Covered(m) && s.execs[0] == Body && m.execs[0] == StorePending)
  {
    SingleExec(s);
    var x := s.execs[0];
    if x == Body {
      m := XAt(s, 0, StorePending);
    } else if x == StoreDone {
      m := XAt(s, 0, TakeDone).(st := Done);
    } else if x == StorePending {
      m := XAt(s, 0, TakePending).(st := Pending);
    } else {
      m := XAt(s, 0, TakeAgain).(st := Queued);
    }
    assert ExecStep(s, m, 0);
    if m.st == Pending || m.st == Running {
      ExecKeepsCovered(s, m);
    }
  }

  lemma {:induction false} RunningBegins(run: seq<State>, from: nat) returns (longer: seq<State>)
    requires NothingNew(run, from) && Last(run).st == Running && 0 in Last(run).execs && Covered(Last(run))
    ensures NothingNew(longer, from) && run <= longer
    ensures Last(longer).runs == Last(run).runs + 1 || Last(longer).st == Done
    decreases if Last(run).execs[0] == Body then 1 else 0
  {
    LastInv(run);
    var m := EndStep(Last(run));
    longer := GoOn(run, from, m);
    if m.st == Queued {
      longer := QueuedBegins(longer, from);
    } else if m.st == Pending {
      longer := PendingBegins(longer, from);
    } else if m.st == Running {
      longer := RunningBegins(longer, from);
    }
  }

  /** However a run has gone, if a run body after the b-th one is forced then it has begun, or the
    * task is done, or the run can be continued, without any new wake, until one of the two holds.
    */
  lemma ForcedRunBegins(run: seq<State>, b: nat) returns (longer: seq<State>)
    requires OwnedRun(run) && 0 in Last(run).execs && b <= Last(run).runs && Forced(Last(run), b)
    ensures NothingNew(longer, |run| - 1) && run <= longer
    ensures Last(longer).runs > b || Last(longer).st == Done
  {
    var s, from := Last(run), |run| - 1;
    longer := run;
    if s.st != Done && s.runs <= b {
      if s.st == Queued {
        longer := QueuedBegins(run, from);
      } else if s.st == Starting {
        longer := StartingBegins(run, from);
      } else if s.st == Pending {
        longer := PendingBegins(run, from);
      } else {
        longer := RunningBegins(run, from);
      }
    }
  }

  /** Along every run without a clobbering clear, an accepted wake has been followed by a run body,
    * or the task is done, or the run can be continued, without any new wake, until one of the two
    * holds.
    */
  lemma AcceptedWakeIsAnswered(run: seq<State>, b: nat) returns (longer: seq<State>)
    requires OwnedRun(run) && ClobberFree(run) && b in Last(run).accepted
    ensures NothingNew(longer, |run| - 1) && run <= longer
    ensures Last(longer).runs > b || Last(longer).st == Done
  {
    LastInv(run);
    NoWakeIsLost(run, |run| - 1);
    longer := ForcedRunBegins(run, b);
  }
}
