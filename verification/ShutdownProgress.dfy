/** A shutdown can always complete: every run in which one has begun can be continued, without new
  * posts, until all threads have left, every accepted task has finished, and the runtime is Stopped.
  *
  * Tasks that wait are woken by their IO completions, and tasks that run are taken to end.
  */
module ShutdownProgress {
  import opened Runs
  import opened Shutdown

  // ---- Posted tasks exist ----

  ghost predicate TasksKnown(s: State) {
    forall t | t in s.posters && !s.posters[t].Out? && !s.posters[t].Leave? :: s.posters[t].task in s.work.tasks
  }

  lemma PostKeepsKnown(s: State, s': State, t: nat)
    requires TasksKnown(s) && (EnterStep(s, s', t) || PostStep(s, s', t))
    ensures TasksKnown(s')
  {
  }

  lemma ExecKeepsKnown(s: State, s': State, x: nat, n: nat)
    requires TasksKnown(s) && ExecStep(s, s', x, n)
    ensures TasksKnown(s')
  {
  }

  lemma StepKeepsKnown(s: State, s': State)
    requires TasksKnown(s) && Next(s, s')
    ensures TasksKnown(s')
  {
    if t: nat :| EnterStep(s, s', t) || PostStep(s, s', t) {
      PostKeepsKnown(s, s', t);
    } else if x: nat, n: nat :| ExecStep(s, s', x, n) {
      ExecKeepsKnown(s, s', x, n);
    }
  }

  lemma {:induction false} RunKnown(run: seq<State>, i: nat)
    requires IsRun(run) && i < |run|
    ensures TasksKnown(run[i])
  {
    if i > 0 {
      RunKnown(run, i - 1);
      assert NextAt(run, i - 1);
      StepKeepsKnown(run[i - 1], run[i]);
    }
  }

  // ---- Continuing a run ----

  ghost predicate BeginsNothing(s: State, s': State) {
    forall t | t in s.posters && s.posters[t] == Out :: t in s'.posters && s'.posters[t] == Out
  }

  ghost predicate StepAt(run: seq<State>, i: nat)
    requires i + 1 < |run|
  {
    BeginsNothing(run[i], run[i + 1])
  }

  // A run in which no post from outside begins from state `from` on.
  ghost predicate NothingNew(run: seq<State>, from: nat) {
    && IsRun(run) && from < |run|
    && forall i: nat | from <= i && i + 1 < |run| :: StepAt(run, i)
  }

  lemma LongerRun(run: seq<State>, s': State)
    requires IsRun(run) && Next(Last(run), s')
    ensures IsRun(run + [s'])
  {
    var longer := run + [s'];
    forall i: nat | i + 1 < |longer|
      ensures NextAt(longer, i)
    {
      assert i + 1 < |run| ==> NextAt(run, i);
    }
  }

  lemma GoOn(run: seq<State>, from: nat, s': State) returns (longer: seq<State>)
    requires NothingNew(run, from) && Next(Last(run), s') && BeginsNothing(Last(run), s')
    ensures NothingNew(longer, from) && longer == run + [s'] && Last(longer) == s'
  {
    longer := run + [s'];
    LongerRun(run, s');
    forall i: nat | from <= i && i + 1 < |longer|
      ensures StepAt(longer, i)
    {
      assert i + 1 < |run| ==> StepAt(run, i);
    }
  }

  // ---- The posters leave ----

  function ToLeave(p: Poster): nat {
    match p
    case Out => 0
    case Leave(_) => 1
    case Undo(_, _, _) => 2
    case Counted(_, _, _) => 3
    case Claimed(_, _, _) => 4
    case Inside(_, _) => 5
    case ReadGenerationAgain(_, _, _) => 6
    case ReadStatusAgain(_, _, _) => 7
    case Enter(_, _, _) => 8
    case ReadStatus(_, _, _) => 9
    case ReadGeneration(_, _) => 10
  }

  // Poster t is nearer to its return; the control thread, the executors and the others are as before.
  ghost predicate Leaves(s: State, m: State, t: nat) {
    && t in s.posters && t in m.posters && m.posters == s.posters[t := m.posters[t]] && s.posters[t] != Out
    && ToLeave(m.posters[t]) < ToLeave(s.posters[t])
    && m.gate.ctl == s.gate.ctl && m.execs == s.execs && Next(s, m)
  }

  lemma EnterOn(s: State, t: nat) returns (m: State)
    requires GateOk(s) && t in s.posters && (ToLeave(s.posters[t]) > 5 || s.posters[t].Leave?)
    ensures Leaves(s, m, t)
  {
    var p, g := s.posters[t], s.gate;
    var next, gate := Out, g;
    if p.ReadGeneration? {
      next := ReadStatus(p.target, p.task, g.gen);
    } else if p.ReadStatus? {
      next := if g.status == Running then Enter(p.target, p.task, p.g) else Out;
    } else if p.Enter? {
      next := ReadStatusAgain(p.target, p.task, p.g);
      gate := g.(counters := g.counters[p.target := g.counters[p.target] + 1]);
    } else if p.ReadStatusAgain? {
      next := if g.status == Running then ReadGenerationAgain(p.target, p.task, p.g) else Leave(p.target);
    } else if p.ReadGenerationAgain? {
      next := if g.gen == p.g then Inside(p.target, p.task) else Leave(p.target);
    } else {
      assert t in HoldersOf(s.posters, p.target);
      gate := g.(counters := g.counters[p.target := g.counters[p.target] - 1]);
    }
    m := s.(posters := s.posters[t := next], gate := gate);
    assert EnterStep(s, m, t);
  }

  lemma PostOn(s: State, t: nat) returns (m: State)
    requires TasksKnown(s) && t in s.posters && 2 <= ToLeave(s.posters[t]) <= 5
    ensures Leaves(s, m, t)
  {
    var p, w := s.posters[t], s.work;
    var next, work := Leave(p.target), w;
    if p.Inside? {
      if w.tasks[p.task] == Created || w.tasks[p.task] == Resting {
        next := Claimed(p.target, p.task, w.tasks[p.task] == Created);
        work := Mark(w, p.task, Queued(ByPoster(t)));
      }
    } else if p.Claimed? {
      next := Counted(p.target, p.task, p.first);
      work := if p.first then Count(w, p.task) else w;
    } else if p.Counted? {
      work := Mark(w, p.task, Queued(InQueue));
    } else {
      work := Mark(w, p.task, if p.first then Created else Resting);
    }
    m := s.(posters := s.posters[t := next], work := work);
    assert PostStep(s, m, t);
  }

  lemma LastInv(run: seq<State>)
    requires IsRun(run)
    ensures GateOk(Last(run)) && WorkOk(Last(run)) && HeldOk(Last(run)) && TasksKnown(Last(run))
  {
    RunInv(run, |run| - 1);
    RunKnown(run, |run| - 1);
  }

  lemma LeaveStep(run: seq<State>, t: nat) returns (m: State)
    requires IsRun(run) && t in Last(run).posters && Last(run).posters[t] != Out
    ensures Leaves(Last(run), m, t)
  {
    LastInv(run);
    if 2 <= ToLeave(Last(run).posters[t]) <= 5 {
      m := PostOn(Last(run), t);
    } else {
      m := EnterOn(Last(run), t);
    }
  }

  lemma {:induction false} LeaveOf(run: seq<State>, from: nat, t: nat) returns (longer: seq<State>)
    requires NothingNew(run, from) && t in Last(run).posters
    ensures NothingNew(longer, from) && run <= longer && Last(longer).execs == Last(run).execs
    ensures Last(longer).posters == Last(run).posters[t := Out]
    decreases ToLeave(Last(run).posters[t])
  {
    longer := run;
    if Last(run).posters[t] != Out {
      var m := LeaveStep(run, t);
      longer := GoOn(run, from, m);
      longer := LeaveOf(longer, from, t);
    } else {
      assert Last(run).posters == Last(run).posters[t := Out];
    }
  }

  function StillIn(s: State): set<nat> {
    set t | t in s.posters && s.posters[t] != Out
  }

  ghost predicate AllOut(s: State) {
    forall t | t in s.posters :: s.posters[t] == Out
  }

  lemma {:induction false} AllLeave(run: seq<State>, from: nat) returns (longer: seq<State>)
    requires NothingNew(run, from)
    ensures NothingNew(longer, from) && run <= longer && AllOut(Last(longer)) && Last(longer).execs == Last(run).execs
    decreases StillIn(Last(run))
  {
    longer := run;
    if t :| t in StillIn(Last(run)) {
      longer := LeaveOf(run, from, t);
      assert StillIn(Last(longer)) == StillIn(Last(run)) - {t};
      longer := AllLeave(longer, from);
    } else {
      forall t | t in Last(run).posters
        ensures Last(run).posters[t] == Out
      {
        assert t !in StillIn(Last(run));
      }
    }
  }

  // ---- The executors become idle ----

  function ToIdle(e: Exec): nat {
    match e
    case Idle => 0
    case Finish(_) => 1
    case Requeue(_) => 1
    case Run(_) => 2
    case RunUndo(_, _, _) => 3
    case RunCounted(_, _, _) => 3
    case RunClaimed(_, _, _) => 4
  }

  // Executor x is nearer to being idle, and the posters, the control thread and the others are as before.
  ghost predicate Rests(s: State, m: State, x: nat) {
    && x in s.execs && x in m.execs && m.execs == s.execs[x := m.execs[x]]
    && ToIdle(m.execs[x]) < ToIdle(s.execs[x])
    && m.posters == s.posters && m.gate == s.gate && Next(s, m)
  }

  lemma ExecOn(s: State, x: nat) returns (m: State)
    requires WorkOk(s) && x in s.execs && s.execs[x] != Idle
    ensures Rests(s, m, x)
  {
    var e, w := s.execs[x], s.work;
    assert ExecOk(w, x, e);
    var next, work := Idle, w;
    if e.Finish? {
      assert w.unfinished > 0;
      work := Mark(Discount(w, e.task), e.task, Finished);
    } else if e.Requeue? {
      work := Mark(w, e.task, Queued(InQueue));
    } else if e.Run? {
      next, work := Finish(e.task), Mark(w, e.task, Ending(x));
    } else if e.RunUndo? {
      next, work := Run(e.task), Mark(w, e.other, if e.first then Created else Resting);
    } else if e.RunCounted? {
      next, work := Run(e.task), Mark(w, e.other, Queued(InQueue));
    } else {
      next, work := RunCounted(e.task, e.other, e.first), if e.first then Count(w, e.other) else w;
    }
    m := s.(execs := s.execs[x := next], work := work);
    assert ExecStep(s, m, x, 0);
  }

  lemma {:induction false} IdleOf(run: seq<State>, from: nat, x: nat) returns (longer: seq<State>)
    requires NothingNew(run, from) && x in Last(run).execs
    ensures NothingNew(longer, from) && run <= longer && Last(longer).posters == Last(run).posters
    ensures Last(longer).execs == Last(run).execs[x := Idle]
    decreases ToIdle(Last(run).execs[x])
  {
    longer := run;
    if Last(run).execs[x] != Idle {
      LastInv(run);
      var m := ExecOn(Last(run), x);
      longer := GoOn(run, from, m);
      longer := IdleOf(longer, from, x);
    } else {
      assert Last(run).execs == Last(run).execs[x := Idle];
    }
  }

  function Busy(s: State): set<nat> {
    set x | x in s.execs && s.execs[x] != Idle
  }

  // Nobody is at work.
  ghost predicate Calm(s: State) {
    AllOut(s) && forall x | x in s.execs :: s.execs[x] == Idle
  }

  lemma {:induction false} AllIdle(run: seq<State>, from: nat) returns (longer: seq<State>)
    requires NothingNew(run, from) && AllOut(Last(run))
    ensures NothingNew(longer, from) && run <= longer && Calm(Last(longer))
    ensures Last(longer).execs.Keys == Last(run).execs.Keys
    decreases Busy(Last(run))
  {
    longer := run;
    if x :| x in Busy(Last(run)) {
      longer := IdleOf(run, from, x);
      assert Busy(Last(longer)) == Busy(Last(run)) - {x};
      longer := AllIdle(longer, from);
    } else {
      forall x | x in Last(run).execs
        ensures Last(run).execs[x] == Idle
      {
        assert x !in Busy(Last(run));
      }
    }
  }

  // ---- The tasks finish ----

  lemma LiveWaits(s: State, n: nat)
    requires WorkOk(s) && HeldOk(s) && Calm(s) && n in s.work.live
    ensures n in s.work.tasks && (s.work.tasks[n] == Queued(InQueue) || s.work.tasks[n] == Resting)
  {
    assert NamedOk(s, n);
  }

  // Executor x does something with task n alone.
  ghost predicate Handles(s: State, m: State, x: nat, n: nat, e: Exec, p: Phase) {
    && m.execs == s.execs[x := e] && n in m.work.tasks && m.work.tasks[n] == p
    && m.posters == s.posters && m.gate == s.gate && Next(s, m)
  }

  lemma PopStep(s: State, x: nat, n: nat) returns (m: State)
    requires x in s.execs && s.execs[x] == Idle && n in s.work.tasks && s.work.tasks[n] == Queued(InQueue)
    ensures Handles(s, m, x, n, Run(n), Active(x)) && m.work.live == s.work.live
  {
    m := s.(execs := s.execs[x := Run(n)], work := Mark(s.work, n, Active(x)));
    assert ExecStep(s, m, x, n);
  }

  lemma EndStepOf(s: State, x: nat, n: nat) returns (m: State)
    requires x in s.execs && s.execs[x] == Run(n)
    ensures Handles(s, m, x, n, Finish(n), Ending(x)) && m.work.live == s.work.live
  {
    m := s.(execs := s.execs[x := Finish(n)], work := Mark(s.work, n, Ending(x)));
    assert ExecStep(s, m, x, n);
  }

  lemma FinishStepOf(s: State, x: nat, n: nat) returns (m: State)
    requires WorkOk(s) && x in s.execs && s.execs[x] == Finish(n)
    ensures Handles(s, m, x, n, Idle, Finished) && m.work.live == s.work.live - {n}
  {
    assert ExecOk(s.work, x, s.execs[x]);
    m := s.(execs := s.execs[x := Idle], work := Mark(Discount(s.work, n), n, Finished));
    assert ExecStep(s, m, x, n);
  }

  lemma WakeStepOf(s: State, x: nat, n: nat) returns (m: State)
    requires x in s.execs && s.execs[x] == Idle && n in s.work.tasks && s.work.tasks[n] == Resting
    ensures Handles(s, m, x, n, Requeue(n), Queued(ByExec(x))) && m.work.live == s.work.live
  {
    m := s.(execs := s.execs[x := Requeue(n)], work := Mark(s.work, n, Queued(ByExec(x))));
    assert ExecStep(s, m, x, n);
  }

  lemma RequeueStepOf(s: State, x: nat, n: nat) returns (m: State)
    requires x in s.execs && s.execs[x] == Requeue(n)
    ensures Handles(s, m, x, n, Idle, Queued(InQueue)) && m.work.live == s.work.live
  {
    m := s.(execs := s.execs[x := Idle], work := Mark(s.work, n, Queued(InQueue)));
    assert ExecStep(s, m, x, n);
  }

  // A queued task is popped, run and finished.
  lemma QueuedFinishes(run: seq<State>, from: nat, x: nat, n: nat) returns (longer: seq<State>)
    requires NothingNew(run, from) && Calm(Last(run)) && x in Last(run).execs
    requires n in Last(run).work.tasks && Last(run).work.tasks[n] == Queued(InQueue)
    ensures NothingNew(longer, from) && run <= longer && Last(longer).execs == Last(run).execs
    ensures Calm(Last(longer)) && Last(longer).work.live == Last(run).work.live - {n}
  {
    var m := PopStep(Last(run), x, n);
    longer := GoOn(run, from, m);
    m := EndStepOf(m, x, n);
    longer := GoOn(longer, from, m);
    LastInv(longer);
    m := FinishStepOf(m, x, n);
    longer := GoOn(longer, from, m);
    assert m.execs == Last(run).execs;
  }

  lemma OneFinishes(run: seq<State>, from: nat, x: nat, n: nat) returns (longer: seq<State>)
    requires NothingNew(run, from) && Calm(Last(run)) && x in Last(run).execs && n in Last(run).work.live
    ensures NothingNew(longer, from) && run <= longer && Last(longer).execs == Last(run).execs
    ensures Calm(Last(longer)) && Last(longer).work.live == Last(run).work.live - {n}
  {
    LastInv(run);
    LiveWaits(Last(run), n);
    longer := run;
    if Last(run).work.tasks[n] == Resting {
      var m := WakeStepOf(Last(run), x, n);
      longer := GoOn(run, from, m);
      m := RequeueStepOf(m, x, n);
      longer := GoOn(longer, from, m);
      assert m.execs == Last(run).execs;
    }
    longer := QueuedFinishes(longer, from, x, n);
  }

  lemma {:induction false} AllFinish(run: seq<State>, from: nat, x: nat) returns (longer: seq<State>)
    requires NothingNew(run, from) && Calm(Last(run)) && x in Last(run).execs
    ensures NothingNew(longer, from) && run <= longer && Calm(Last(longer)) && Last(longer).work.live == {}
    decreases Last(run).work.live
  {
    longer := run;
    if n :| n in Last(run).work.live {
      longer := OneFinishes(run, from, x, n);
      longer := AllFinish(longer, from, x);
    }
  }

  // ---- The control thread ----

  function ToStop(g: Gate): nat {
    match g.ctl
    case AllStopped => 0
    case Joining => 1
    case Waited => 2
    case WaitPosts(k) => 3 + if k < |g.counters| then |g.counters| - k else 0
    case Serving => 4 + |g.counters|
    case InitRunning => 5 + |g.counters|
    case InitGeneration => 6 + |g.counters|
  }

  lemma ControlOn(s: State) returns (m: State)
    requires GateOk(s) && WorkOk(s) && Calm(s) && s.work.live == {} && s.gate.ctl != AllStopped
    ensures Next(s, m) && m == s.(gate := m.gate) && ToStop(m.gate) < ToStop(s.gate)
  {
    var g := s.gate;
    var next := g;
    if g.ctl == Serving {
      next := g.(status := Stopping, ctl := WaitPosts(0));
    } else if g.ctl.WaitPosts? {
      next := g.(ctl := if g.ctl.k < |g.counters| then WaitPosts(g.ctl.k + 1) else Waited);
      if g.ctl.k < |g.counters| {
        assert HoldersOf(s.posters, g.ctl.k) == {};
      }
    } else if g.ctl == Waited {
      next := g.(ctl := Joining);
    } else if g.ctl == Joining {
      next := g.(status := Stopped, ctl := AllStopped);
    } else if g.ctl == InitGeneration {
      next := g.(gen := g.gen + 1, ctl := InitRunning);
    } else {
      next := g.(status := Running, ctl := Serving);
    }
    m := s.(gate := next);
    assert ControlStep(s.gate, m.gate, s.work.unfinished);
  }

  lemma {:induction false} Stops(run: seq<State>, from: nat) returns (longer: seq<State>)
    requires NothingNew(run, from) && Calm(Last(run)) && Last(run).work.live == {}
    ensures NothingNew(longer, from) && run <= longer && Last(longer).gate.status == Stopped
    decreases ToStop(Last(run).gate)
  {
    LastInv(run);
    longer := run;
    if Last(run).gate.ctl != AllStopped {
      var m := ControlOn(Last(run));
      longer := GoOn(run, from, m);
      longer := Stops(longer, from);
    }
  }

  /** However a run has gone, with at least one executor it can be continued, without any new post
    * from outside, until the runtime is Stopped; and then it is at rest.
    */
  lemma ShutdownCompletes(run: seq<State>, x: nat) returns (longer: seq<State>)
    requires IsRun(run) && x in Last(run).execs
    ensures NothingNew(longer, |run| - 1) && run <= longer
    ensures Last(longer).gate.status == Stopped && AtRest(Last(longer))
  {
    longer := AllLeave(run, |run| - 1);
    longer := AllIdle(longer, |run| - 1);
    longer := AllFinish(longer, |run| - 1, x);
    longer := Stops(longer, |run| - 1);
    ShutdownQuiesces(longer, |longer| - 1);
  }
}
