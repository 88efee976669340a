/** Runtime shutdown under the wait-for-tasks policy: how external posts are kept out, and
  * why the runtime is at rest once the unfinished-task count has been seen at zero.
  *
  * One atomic access per step; any number of external threads, executors and tasks. A queued
  * task names the one place that holds it, as `TaskExclusivity` shows there is exactly one.
  */
module Shutdown {

  datatype Status = Stopped | Starting | Running | Stopping

  // The thread that won the status exchange of shutdown() or init().
  datatype Control =
    | Serving                              // nobody is starting or stopping the runtime
    | WaitPosts(k: nat)                    // wait_for_external_posts, counter k next
    | Waited                               // all counters were seen at zero; wait_for_idle next
    | Joining                              // unfinished tasks were seen at zero
    | AllStopped
    | InitGeneration | InitRunning         // init() after its exchange

  datatype Holder = InQueue | ByPoster(t: nat) | ByExec(x: nat)
  datatype Phase = Created | Queued(h: Holder) | Active(x: nat) | Resting | Ending(x: nat) | Finished

  // A thread outside the runtime, inside post(target, task).
  datatype Poster =
    | Out
    | ReadGeneration(target: nat, task: nat)
    | ReadStatus(target: nat, task: nat, g: nat)
    | Enter(target: nat, task: nat, g: nat)                // fetch_add on the counter
    | ReadStatusAgain(target: nat, task: nat, g: nat)
    | ReadGenerationAgain(target: nat, task: nat, g: nat)
    | Inside(target: nat, task: nat)                       // try_enter_post returned true
    | Claimed(target: nat, task: nat, first: bool)         // moved the task to Queued
    | Counted(target: nat, task: nat, first: bool)         // after on_task_started
    | Undo(target: nat, task: nat, first: bool)            // rejected; after on_task_finished
    | Leave(target: nat)                                   // fetch_sub on the counter

  // A runtime thread; `task` is the one it runs, `other` one that the run posts.
  datatype Exec =
    | Idle
    | Run(task: nat)
    | RunClaimed(task: nat, other: nat, first: bool)
    | RunCounted(task: nat, other: nat, first: bool)
    | RunUndo(task: nat, other: nat, first: bool)          // rejected; after on_task_finished
    | Finish(task: nat)                                    // state Done stored, count not yet lowered
    | Requeue(task: nat)                                   // moved the task to Queued, must insert it

  datatype Gate = Gate(status: Status, gen: nat, ctl: Control, counters: seq<nat>)

  datatype Work = Work(
    tasks: map<nat, Phase>,
    unfinished: nat,
    live: set<nat>)                        // history: the tasks that are counted

  datatype State = State(gate: Gate, work: Work, posters: map<nat, Poster>, execs: map<nat, Exec>)

  ghost predicate Init(s: State) {
    && s.gate.status == Stopped && s.gate.ctl == AllStopped
    && (forall k | 0 <= k < |s.gate.counters| :: s.gate.counters[k] == 0)
    && s.work.unfinished == 0 && s.work.live == {}
    && (forall n | n in s.work.tasks :: s.work.tasks[n] == Created)
    && (forall t | t in s.posters :: s.posters[t] == Out)
    && (forall x | x in s.execs :: s.execs[x] == Idle)
  }

  // ---- Steps ----

  ghost predicate ControlStep(g: Gate, g': Gate, unfinished: nat) {
    match g.ctl
    case Serving => g.status == Running && g' == g.(status := Stopping, ctl := WaitPosts(0))
    case WaitPosts(k) =>
      if k < |g.counters| then g.counters[k] == 0 && g' == g.(ctl := WaitPosts(k + 1))
      else g' == g.(ctl := Waited)
    case Waited => unfinished == 0 && g' == g.(ctl := Joining)
    case Joining => g' == g.(status := Stopped, ctl := AllStopped)
    case AllStopped => g.status == Stopped && g' == g.(status := Starting, ctl := InitGeneration)
    case InitGeneration => g' == g.(gen := g.gen + 1, ctl := InitRunning)
    case InitRunning => g' == g.(status := Running, ctl := Serving)
  }

  // try_enter_post up to the point where it returns, and leave_post.
  ghost predicate EnterStep(s: State, s': State, t: nat) {
    && t in s.posters && s'.work == s.work && s'.execs == s.execs
    && (match s.posters[t]
        case Out =>
          && t in s'.posters && s'.posters[t].ReadGeneration?
          && s'.posters[t].target < |s.gate.counters| && s'.posters[t].task in s.work.tasks
          && s'.posters == s.posters[t := s'.posters[t]] && s'.gate == s.gate
        case ReadGeneration(k, n) =>
          s'.posters == s.posters[t := ReadStatus(k, n, s.gate.gen)] && s'.gate == s.gate
        case ReadStatus(k, n, g) =>
          s'.posters == s.posters[t := if s.gate.status == Running then Enter(k, n, g) else Out] && s'.gate == s.gate
        case Enter(k, n, g) =>
          && k < |s.gate.counters|
          && s'.posters == s.posters[t := ReadStatusAgain(k, n, g)]
          && s'.gate == s.gate.(counters := s.gate.counters[k := s.gate.counters[k] + 1])
        case ReadStatusAgain(k, n, g) =>
          && s'.posters == s.posters[t := if s.gate.status == Running then ReadGenerationAgain(k, n, g) else Leave(k)]
          && s'.gate == s.gate
        case ReadGenerationAgain(k, n, g) =>
          s'.posters == s.posters[t := if s.gate.gen == g then Inside(k, n) else Leave(k)] && s'.gate == s.gate
        case Leave(k) =>
          && k < |s.gate.counters| && s.gate.counters[k] > 0
          && s'.posters == s.posters[t := Out]
          && s'.gate == s.gate.(counters := s.gate.counters[k := s.gate.counters[k] - 1])
        case _ => false)
  }

  function Mark(w: Work, n: nat, p: Phase): Work {
    w.(tasks := w.tasks[n := p])
  }

  // on_task_started and on_task_finished
  function Count(w: Work, n: nat): Work {
    w.(unfinished := w.unfinished + 1, live := w.live + {n})
  }

  function Discount(w: Work, n: nat): Work
    requires w.unfinished > 0
  {
    w.(unfinished := w.unfinished - 1, live := w.live - {n})
  }

  // The body of post(), between try_enter_post and leave_post.
  ghost predicate PostStep(s: State, s': State, t: nat) {
    && t in s.posters && s'.gate == s.gate && s'.execs == s.execs
    && match s.posters[t]
       case Inside(k, n) =>
         && n in s.work.tasks
         && (match s.work.tasks[n]
             case Created =>
               s'.posters == s.posters[t := Claimed(k, n, true)] && s'.work == Mark(s.work, n, Queued(ByPoster(t)))
             case Resting =>
               s'.posters == s.posters[t := Claimed(k, n, false)] && s'.work == Mark(s.work, n, Queued(ByPoster(t)))
             case _ =>                                     // deferred to the running task, or rejected
               s'.posters == s.posters[t := Leave(k)] && s'.work == s.work)
       case Claimed(k, n, first) =>
         && s'.posters == s.posters[t := Counted(k, n, first)]
         && s'.work == (if first then Count(s.work, n) else s.work)
       case Counted(k, n, first) =>
         || (s'.posters == s.posters[t := Leave(k)] && s'.work == Mark(s.work, n, Queued(InQueue)))
         || (s'.posters == s.posters[t := Undo(k, n, first)]     // the queue is full and rejects
             && (if first then s.work.unfinished > 0 && s'.work == Discount(s.work, n) else s'.work == s.work))
       case Undo(k, n, first) =>
         && s'.posters == s.posters[t := Leave(k)]
         && s'.work == Mark(s.work, n, if first then Created else Resting)
       case _ => false
  }

  // An executor takes a task, runs it, lets it post other tasks, and finishes the run.
  // `n` is the task it pops, posts or wakes, where it chooses one.
  ghost predicate ExecStep(s: State, s': State, x: nat, n: nat) {
    && x in s.execs && s'.gate == s.gate && s'.posters == s.posters
    && match s.execs[x]
       case Idle =>
         && n in s.work.tasks
         && (|| (s.work.tasks[n] == Queued(InQueue)
                 && s'.execs == s.execs[x := Run(n)] && s'.work == Mark(s.work, n, Active(x)))
             || (s.work.tasks[n] == Resting                // an IO completion wakes a waiting task
                 && s'.execs == s.execs[x := Requeue(n)] && s'.work == Mark(s.work, n, Queued(ByExec(x)))))
       case Run(m) =>
         || (n in s.work.tasks && (s.work.tasks[n] == Created || s.work.tasks[n] == Resting)
             && (s.gate.status == Running || s.gate.status == Stopping)
             && s'.execs == s.execs[x := RunClaimed(m, n, s.work.tasks[n] == Created)]
             && s'.work == Mark(s.work, n, Queued(ByExec(x))))
         || (s'.execs == s.execs[x := Finish(m)] && s'.work == Mark(s.work, m, Ending(x)))
         || (s'.execs == s.execs[x := Idle] && s'.work == Mark(s.work, m, Resting))
         || (s'.execs == s.execs[x := Requeue(m)] && s'.work == Mark(s.work, m, Queued(ByExec(x))))
       case RunClaimed(m, o, first) =>
         && s'.execs == s.execs[x := RunCounted(m, o, first)]
         && s'.work == (if first then Count(s.work, o) else s.work)
       case RunCounted(m, o, first) =>
         || (s'.execs == s.execs[x := Run(m)] && s'.work == Mark(s.work, o, Queued(InQueue)))
         || (s'.execs == s.execs[x := RunUndo(m, o, first)]      // the queue is full and rejects
             && (if first then s.work.unfinished > 0 && s'.work == Discount(s.work, o) else s'.work == s.work))
       case RunUndo(m, o, first) =>
         s'.execs == s.execs[x := Run(m)] && s'.work == Mark(s.work, o, if first then Created else Resting)
       case Finish(m) =>
         s.work.unfinished > 0 && s'.execs == s.execs[x := Idle] && s'.work == Mark(Discount(s.work, m), m, Finished)
       case Requeue(m) =>
         s'.execs == s.execs[x := Idle] && s'.work == Mark(s.work, m, Queued(InQueue))
  }

  ghost predicate Next(s: State, s': State) {
    || (ControlStep(s.gate, s'.gate, s.work.unfinished) && s' == s.(gate := s'.gate))
    || (exists t: nat :: EnterStep(s, s', t) || PostStep(s, s', t))
    || (exists x: nat, n: nat :: ExecStep(s, s', x, n))
  }

  ghost predicate NextAt(run: seq<State>, i: nat)
    requires i + 1 < |run|
  {
    Next(run[i], run[i + 1])
  }

  ghost predicate IsRun(run: seq<State>) {
    && |run| > 0 && Init(run[0])
    && forall i: nat | i + 1 < |run| :: NextAt(run, i)
  }

  // ---- The gate ----

  // The poster has raised the counter of target k and not lowered it.
  predicate Holds(p: Poster, k: nat) {
    && (p.ReadStatusAgain? || p.ReadGenerationAgain? || p.Inside? || p.Claimed? || p.Counted? || p.Undo? || p.Leave?)
    && p.target == k
  }

  // The poster saw the runtime Running after raising its counter, and has not left.
  predicate Within(p: Poster) {
    p.ReadGenerationAgain? || p.Inside? || p.Claimed? || p.Counted? || p.Undo?
  }

  // The stopping thread is past counter k.
  predicate Passed(c: Control, k: nat) {
    match c
    case Serving => false
    case WaitPosts(j) => k < j
    case _ => true
  }

  function HoldersOf(posters: map<nat, Poster>, k: nat): set<nat> {
    set t | t in posters && Holds(posters[t], k)
  }

  ghost predicate GateOk(s: State) {
    && (forall k | 0 <= k < |s.gate.counters| :: s.gate.counters[k] == |HoldersOf(s.posters, k)|)
    && (forall t | t in s.posters && Within(s.posters[t]) ::
          s.posters[t].target < |s.gate.counters| && !Passed(s.gate.ctl, s.posters[t].target))
    && (forall t | t in s.posters && !s.posters[t].Out? :: s.posters[t].target < |s.gate.counters|)
    && (s.gate.status == Running <==> s.gate.ctl == Serving)
    && (s.gate.status == Stopped <==> s.gate.ctl == AllStopped)
    && (s.gate.status == Stopping <==> s.gate.ctl.WaitPosts? || s.gate.ctl == Waited || s.gate.ctl == Joining)
  }

  lemma InitGateOk(s: State)
    requires Init(s)
    ensures GateOk(s)
  {
    forall k | 0 <= k < |s.gate.counters|
      ensures |HoldersOf(s.posters, k)| == 0
    {
      assert HoldersOf(s.posters, k) == {};
    }
  }

  lemma ControlKeepsGate(s: State, s': State)
    requires GateOk(s) && ControlStep(s.gate, s'.gate, s.work.unfinished) && s' == s.(gate := s'.gate)
    ensures GateOk(s')
  {
    if s.gate.ctl.WaitPosts? && s.gate.ctl.k < |s.gate.counters| {
      var k := s.gate.ctl.k;
      assert HoldersOf(s.posters, k) == {};
      forall t | t in s.posters && Within(s.posters[t])
        ensures s.posters[t].target != k
      {
        assert t in HoldersOf(s.posters, s.posters[t].target);
      }
    }
  }

  function One(b: bool): nat {
    if b then 1 else 0
  }

  lemma HolderCount(posters: map<nat, Poster>, t: nat, p: Poster, k: nat)
    requires t in posters
    ensures |HoldersOf(posters[t := p], k)| + One(Holds(posters[t], k)) == |HoldersOf(posters, k)| + One(Holds(p, k))
  {
    var was, now := HoldersOf(posters, k), HoldersOf(posters[t := p], k);
    assert now - {t} == was - {t};
    assert t in was <==> Holds(posters[t], k);
    assert t in now <==> Holds(p, k);
    assert |was| == |was - {t}| + One(t in was);
    assert |now| == |now - {t}| + One(t in now);
  }

  lemma EnterMovesCounter(s: State, s': State, t: nat, k: nat)
    requires EnterStep(s, s', t) && k < |s.gate.counters|
    ensures |s'.gate.counters| == |s.gate.counters| && t in s'.posters && s'.posters == s.posters[t := s'.posters[t]]
    ensures s'.gate.counters[k] + One(Holds(s.posters[t], k)) == s.gate.counters[k] + One(Holds(s'.posters[t], k))
  {
  }

  lemma EnterKeepsCounter(s: State, s': State, t: nat, k: nat)
    requires EnterStep(s, s', t) && k < |s.gate.counters|
    requires s.gate.counters[k] == |HoldersOf(s.posters, k)|
    ensures |s'.gate.counters| == |s.gate.counters| && s'.gate.counters[k] == |HoldersOf(s'.posters, k)|
  {
    EnterMovesCounter(s, s', t, k);
    HolderCount(s.posters, t, s'.posters[t], k);
  }

  lemma EnterKeepsTargets(s: State, s': State, t: nat)
    requires GateOk(s) && EnterStep(s, s', t)
    ensures forall u | u in s'.posters && Within(s'.posters[u]) ::
              s'.posters[u].target < |s'.gate.counters| && !Passed(s'.gate.ctl, s'.posters[u].target)
    ensures forall u | u in s'.posters && !s'.posters[u].Out? :: s'.posters[u].target < |s'.gate.counters|
    ensures s'.gate.(counters := []) == s.gate.(counters := [])
  {
  }

  lemma EnterKeepsGate(s: State, s': State, t: nat)
    requires GateOk(s) && EnterStep(s, s', t)
    ensures GateOk(s')
  {
    EnterKeepsTargets(s, s', t);
    forall k: nat | k < |s'.gate.counters|
      ensures s'.gate.counters[k] == |HoldersOf(s'.posters, k)|
    {
      EnterKeepsCounter(s, s', t, k);
    }
  }

  lemma PostKeepsHolds(s: State, s': State, t: nat, k: nat)
    requires PostStep(s, s', t)
    ensures s'.posters == s.posters[t := s'.posters[t]] && (Holds(s'.posters[t], k) <==> Holds(s.posters[t], k))
    ensures s'.posters[t].target == s.posters[t].target && Within(s.posters[t])
  {
  }

  lemma PostKeepsGate(s: State, s': State, t: nat)
    requires GateOk(s) && PostStep(s, s', t)
    ensures GateOk(s')
  {
    forall k: nat | k < |s'.gate.counters|
      ensures |HoldersOf(s'.posters, k)| == |HoldersOf(s.posters, k)|
    {
      PostKeepsHolds(s, s', t, k);
      HolderCount(s.posters, t, s'.posters[t], k);
    }
    PostKeepsHolds(s, s', t, 0);
  }

  // ---- The work ----

  predicate PosterOk(w: Work, t: nat, p: Poster) {
    match p
    case Claimed(_, n, first) => n in w.tasks && w.tasks[n] == Queued(ByPoster(t)) && (n in w.live <==> !first)
    case Counted(_, n, first) => n in w.tasks && w.tasks[n] == Queued(ByPoster(t)) && n in w.live
    case Undo(_, n, first) => n in w.tasks && w.tasks[n] == Queued(ByPoster(t)) && (n in w.live <==> !first)
    case _ => true
  }

  predicate Runs(w: Work, x: nat, m: nat) {
    m in w.tasks && w.tasks[m] == Active(x) && m in w.live
  }

  predicate ExecOk(w: Work, x: nat, e: Exec) {
    match e
    case Idle => true
    case Run(m) => Runs(w, x, m)
    case RunClaimed(m, o, first) =>
      Runs(w, x, m) && o in w.tasks && w.tasks[o] == Queued(ByExec(x)) && (o in w.live <==> !first)
    case RunCounted(m, o, _) => Runs(w, x, m) && o in w.tasks && w.tasks[o] == Queued(ByExec(x)) && o in w.live
    case RunUndo(m, o, first) =>
      Runs(w, x, m) && o in w.tasks && w.tasks[o] == Queued(ByExec(x)) && (o in w.live <==> !first)
    case Finish(m) => m in w.tasks && w.tasks[m] == Ending(x) && m in w.live
    case Requeue(m) => m in w.tasks && w.tasks[m] == Queued(ByExec(x)) && m in w.live
  }

  ghost predicate LiveOk(w: Work) {
    && w.unfinished == |w.live|
    && (forall n | n in w.live :: n in w.tasks && w.tasks[n] != Created && w.tasks[n] != Finished)
    && (forall n | n in w.tasks && (w.tasks[n] == Queued(InQueue) || w.tasks[n].Active? || w.tasks[n] == Resting) ::
          n in w.live)
  }

  ghost predicate WorkOk(s: State) {
    && LiveOk(s.work)
    && (forall t | t in s.posters :: PosterOk(s.work, t, s.posters[t]))
    && (forall x | x in s.execs :: ExecOk(s.work, x, s.execs[x]))
  }

  predicate PosterHolds(p: Poster, n: nat) {
    (p.Claimed? || p.Counted? || p.Undo?) && p.task == n
  }

  predicate ExecRuns(e: Exec, n: nat) {
    (e.Run? || e.RunClaimed? || e.RunCounted? || e.RunUndo?) && e.task == n
  }

  predicate ExecHolds(e: Exec, n: nat) {
    ((e.RunClaimed? || e.RunCounted? || e.RunUndo?) && e.other == n) || (e.Requeue? && e.task == n)
  }

  // Whoever a task's phase names is at a point where it deals with that task.
  ghost predicate NamedOk(s: State, n: nat)
    requires n in s.work.tasks
  {
    match s.work.tasks[n]
    case Queued(ByPoster(t)) => t in s.posters && PosterHolds(s.posters[t], n)
    case Queued(ByExec(x)) => x in s.execs && ExecHolds(s.execs[x], n)
    case Active(x) => x in s.execs && ExecRuns(s.execs[x], n)
    case Ending(x) => x in s.execs && s.execs[x] == Finish(n)
    case _ => true
  }

  ghost predicate HeldOk(s: State) {
    forall n | n in s.work.tasks :: NamedOk(s, n)
  }

  lemma PostKeepsHeld(s: State, s': State, t: nat)
    requires HeldOk(s) && PostStep(s, s', t)
    ensures HeldOk(s')
  {
    forall n | n in s'.work.tasks
      ensures NamedOk(s', n)
    {
      assert n in s.work.tasks ==> NamedOk(s, n);
    }
  }

  lemma ExecKeepsNamed(s: State, s': State, x: nat, m: nat, n: nat)
    requires n in s.work.tasks && NamedOk(s, n) && n in s'.work.tasks
    requires x in s.execs && ExecOk(s.work, x, s.execs[x]) && ExecStep(s, s', x, m)
    ensures NamedOk(s', n)
  {
  }

  lemma ExecKeepsHeld(s: State, s': State, x: nat, m: nat)
    requires HeldOk(s) && WorkOk(s) && ExecStep(s, s', x, m)
    ensures HeldOk(s')
  {
    var touched := ExecTouchesOne(s, s', x, m);
    forall n | n in s'.work.tasks
      ensures NamedOk(s', n)
    {
      ExecKeepsNamed(s, s', x, m, n);
    }
  }

  lemma EnterKeepsHeld(s: State, s': State, t: nat)
    requires HeldOk(s) && EnterStep(s, s', t)
    ensures HeldOk(s')
  {
    forall n | n in s'.work.tasks
      ensures NamedOk(s', n)
    {
      assert NamedOk(s, n);
    }
  }

  lemma ControlKeepsHeld(s: State, s': State)
    requires HeldOk(s) && s' == s.(gate := s'.gate)
    ensures HeldOk(s')
  {
    forall n | n in s'.work.tasks
      ensures NamedOk(s', n)
    {
      assert NamedOk(s, n);
    }
  }

  // A change to task n alone leaves everybody who does not hold n alone.
  ghost predicate Only(w: Work, w': Work, n: nat) {
    && w'.tasks.Keys == w.tasks.Keys
    && (forall m | m in w.tasks && m != n :: w'.tasks[m] == w.tasks[m])
    && (forall m | m != n :: m in w'.live <==> m in w.live)
  }

  lemma PosterElsewhere(w: Work, w': Work, n: nat, t: nat, p: Poster)
    requires Only(w, w', n) && PosterOk(w, t, p) && n in w.tasks
    requires w.tasks[n] != Queued(ByPoster(t))
    ensures PosterOk(w', t, p)
  {
  }

  lemma ExecElsewhere(w: Work, w': Work, n: nat, x: nat, e: Exec)
    requires Only(w, w', n) && ExecOk(w, x, e) && n in w.tasks
    requires w.tasks[n] != Queued(ByExec(x)) && w.tasks[n] != Active(x) && w.tasks[n] != Ending(x)
    ensures ExecOk(w', x, e)
  {
  }

  lemma PostTouchesOne(s: State, s': State, t: nat)
    requires WorkOk(s) && PostStep(s, s', t)
    ensures s.posters[t].task in s.work.tasks && Only(s.work, s'.work, s.posters[t].task)
    ensures LiveOk(s'.work) && t in s'.posters && PosterOk(s'.work, t, s'.posters[t])
    ensures s'.work == s.work || s.work.tasks[s.posters[t].task] in {Created, Resting, Queued(ByPoster(t))}
  {
    assert PosterOk(s.work, t, s.posters[t]);
  }

  lemma PostKeepsWork(s: State, s': State, t: nat)
    requires WorkOk(s) && PostStep(s, s', t)
    ensures WorkOk(s')
  {
    PostTouchesOne(s, s', t);
    var n := s.posters[t].task;
    if s'.work != s.work {
      forall u | u in s'.posters
        ensures PosterOk(s'.work, u, s'.posters[u])
      {
        if u != t {
          PosterElsewhere(s.work, s'.work, n, u, s.posters[u]);
        }
      }
      forall x | x in s'.execs
        ensures ExecOk(s'.work, x, s'.execs[x])
      {
        ExecElsewhere(s.work, s'.work, n, x, s.execs[x]);
      }
    } else {
      forall u | u in s'.posters
        ensures PosterOk(s'.work, u, s'.posters[u])
      {
        assert u != t ==> PosterOk(s.work, u, s.posters[u]);
      }
    }
  }

  // The task an executor's step changes.
  function Touched(e: Exec, n: nat): nat {
    match e
    case Idle => n
    case Run(m) => m
    case RunClaimed(_, o, _) => o
    case RunCounted(_, o, _) => o
    case RunUndo(_, o, _) => o
    case Finish(m) => m
    case Requeue(m) => m
  }

  lemma ExecTouchesOne(s: State, s': State, x: nat, n: nat) returns (m: nat)
    requires WorkOk(s) && ExecStep(s, s', x, n)
    ensures m in s.work.tasks && Only(s.work, s'.work, m)
    ensures LiveOk(s'.work) && x in s'.execs && ExecOk(s'.work, x, s'.execs[x])
    ensures s.work.tasks[m] in {Created, Resting, Queued(InQueue), Queued(ByExec(x)), Active(x), Ending(x)}
  {
    assert ExecOk(s.work, x, s.execs[x]);
    m := if s.execs[x].Run? && s'.execs[x].RunClaimed? then n else Touched(s.execs[x], n);
  }

  lemma ExecKeepsWork(s: State, s': State, x: nat, n: nat)
    requires WorkOk(s) && ExecStep(s, s', x, n)
    ensures WorkOk(s')
  {
    var m := ExecTouchesOne(s, s', x, n);
    forall t | t in s'.posters
      ensures PosterOk(s'.work, t, s'.posters[t])
    {
      PosterElsewhere(s.work, s'.work, m, t, s.posters[t]);
    }
    forall y | y in s'.execs
      ensures ExecOk(s'.work, y, s'.execs[y])
    {
      if y != x {
        ExecElsewhere(s.work, s'.work, m, y, s.execs[y]);
      }
    }
  }

  lemma EnterKeepsWork(s: State, s': State, t: nat)
    requires WorkOk(s) && EnterStep(s, s', t)
    ensures WorkOk(s')
  {
    forall u | u in s'.posters
      ensures PosterOk(s'.work, u, s'.posters[u])
    {
      assert u != t ==> PosterOk(s.work, u, s.posters[u]);
    }
  }

  lemma StepKeepsInv(s: State, s': State)
    requires GateOk(s) && WorkOk(s) && HeldOk(s) && Next(s, s')
    ensures GateOk(s') && WorkOk(s') && HeldOk(s')
  {
    if ControlStep(s.gate, s'.gate, s.work.unfinished) && s' == s.(gate := s'.gate) {
      ControlKeepsGate(s, s');
      ControlKeepsHeld(s, s');
    } else if t: nat :| EnterStep(s, s', t) || PostStep(s, s', t) {
      if EnterStep(s, s', t) {
        EnterKeepsGate(s, s', t);
        EnterKeepsWork(s, s', t);
        EnterKeepsHeld(s, s', t);
      } else {
        PostKeepsGate(s, s', t);
        PostKeepsWork(s, s', t);
        PostKeepsHeld(s, s', t);
      }
    } else {
      var x: nat, n: nat :| ExecStep(s, s', x, n);
      ExecKeepsWork(s, s', x, n);
      ExecKeepsHeld(s, s', x, n);
    }
  }

  lemma {:induction false} RunInv(run: seq<State>, i: nat)
    requires IsRun(run) && i < |run|
    ensures GateOk(run[i]) && WorkOk(run[i]) && HeldOk(run[i])
  {
    if i == 0 {
      InitGateOk(run[0]);
    } else {
      RunInv(run, i - 1);
      assert NextAt(run, i - 1);
      StepKeepsInv(run[i - 1], run[i]);
    }
  }

  // ---- What shutdown promises ----

  // wait_for_external_posts has returned and no later init() has finished.
  predicate Closed(s: State) {
    !s.gate.ctl.Serving? && !s.gate.ctl.WaitPosts?
  }

  /** From the return of wait_for_external_posts until a later init, no external thread is
    * between a successful try_enter_post and its leave_post, or about to be.
    */
  lemma GateIsClosed(run: seq<State>, i: nat, t: nat)
    requires IsRun(run) && i < |run| && Closed(run[i]) && t in run[i].posters
    ensures !Within(run[i].posters[t])
  {
    RunInv(run, i);
  }

  // Every task is finished or was never accepted, no executor works on one, and no external
  // thread can still queue one.
  ghost predicate AtRest(s: State) {
    && (forall n | n in s.work.tasks :: s.work.tasks[n] == Created || s.work.tasks[n] == Finished)
    && (forall x | x in s.execs :: s.execs[x] == Idle)
    && (forall t | t in s.posters :: !Within(s.posters[t]))
  }

  lemma ClosedAtZero(s: State)
    requires GateOk(s) && WorkOk(s) && HeldOk(s) && Closed(s) && s.work.unfinished == 0
    ensures AtRest(s)
  {
    assert s.work.live == {};
    forall x | x in s.execs
      ensures s.execs[x] == Idle
    {
      assert ExecOk(s.work, x, s.execs[x]);
    }
    forall n | n in s.work.tasks
      ensures s.work.tasks[n] == Created || s.work.tasks[n] == Finished
    {
      assert NamedOk(s, n);
    }
  }

  lemma RestStays(s: State, s': State)
    requires AtRest(s) && Next(s, s')
    ensures s'.work == s.work && s'.execs == s.execs
  {
  }

  /** Once wait_for_external_posts has returned, a zero count of unfinished tasks means the
    * runtime is at rest: and from there until a later init, nothing is queued or run.
    */
  lemma {:induction false} RestLasts(run: seq<State>, i: nat, j: nat)
    requires IsRun(run) && i <= j < |run|
    requires forall m | i <= m <= j :: Closed(run[m])
    requires run[i].work.unfinished == 0
    ensures AtRest(run[j]) && run[j].work == run[i].work && run[j].execs == run[i].execs
  {
    if i < j {
      RestLasts(run, i, j - 1);
      assert NextAt(run, j - 1);
      RestStays(run[j - 1], run[j]);
    }
    ClosedIsAtRest(run, j);
  }

  lemma ClosedIsAtRest(run: seq<State>, j: nat)
    requires IsRun(run) && j < |run| && Closed(run[j]) && run[j].work.unfinished == 0
    ensures AtRest(run[j])
  {
    RunInv(run, j);
    ClosedAtZero(run[j]);
  }

  // The stopping thread goes on only after it saw the count at zero.
  lemma {:induction false} JoinedAtZero(run: seq<State>, i: nat)
    requires IsRun(run) && i < |run|
    requires Closed(run[i]) && run[i].gate.ctl != Waited
    ensures run[i].work.unfinished == 0
  {
    if i > 0 {
      if Closed(run[i - 1]) && run[i - 1].gate.ctl != Waited {
        JoinedAtZero(run, i - 1);
      }
      RunInv(run, i - 1);
      assert NextAt(run, i - 1);
      JoinStep(run[i - 1], run[i]);
    }
  }

  lemma JoinStep(s: State, s': State)
    requires GateOk(s) && WorkOk(s) && HeldOk(s) && Next(s, s') && Closed(s') && s'.gate.ctl != Waited
    requires Closed(s) && s.gate.ctl != Waited ==> s.work.unfinished == 0
    ensures s'.work.unfinished == 0
  {
    if Closed(s) && s.gate.ctl != Waited {
      ClosedAtZero(s);
      RestStays(s, s');
    }
  }

  /** When shutdown returns, and at every moment before a later init has finished, every
    * task that was ever accepted has finished and the runtime is at rest.
    */
  lemma ShutdownQuiesces(run: seq<State>, i: nat)
    requires IsRun(run) && i < |run|
    requires run[i].gate.status == Stopped || run[i].gate.status == Starting
    ensures AtRest(run[i]) && run[i].work.unfinished == 0
  {
    RunInv(run, i);
    JoinedAtZero(run, i);
    ClosedAtZero(run[i]);
  }

  function Turn(status: Status): Status {
    match status
    case Running => Stopping
    case Stopping => Stopped
    case Stopped => Starting
    case Starting => Running
  }

  lemma StatusStep(s: State, s': State)
    requires GateOk(s) && Next(s, s')
    ensures s'.gate.status == s.gate.status || s'.gate.status == Turn(s.gate.status)
  {
  }

  /** The runtime goes round: Running, Stopping, Stopped, Starting, and Running again. */
  lemma StatusGoesRound(run: seq<State>, i: nat)
    requires IsRun(run) && i + 1 < |run|
    ensures run[i + 1].gate.status == run[i].gate.status || run[i + 1].gate.status == Turn(run[i].gate.status)
  {
    RunInv(run, i);
    assert NextAt(run, i);
    StatusStep(run[i], run[i + 1]);
  }

  // ---- Tasks finish only by being run ----

  lemma FinishStep(s: State, s': State, n: nat)
    requires Next(s, s') && n in s'.work.tasks && s'.work.tasks[n] == Finished
    ensures (n in s.work.tasks && s.work.tasks[n] == Finished) || exists x :: x in s.execs && s.execs[x] == Finish(n)
  {
  }

  lemma EndStep(s: State, s': State, x: nat, n: nat)
    requires Next(s, s') && x in s'.execs && s'.execs[x] == Finish(n)
    ensures x in s.execs && (s.execs[x] == Finish(n) || s.execs[x] == Run(n))
  {
  }

  lemma {:induction false} EndedAfterRun(run: seq<State>, j: nat, x: nat, n: nat) returns (i: nat)
    requires IsRun(run) && j < |run| && x in run[j].execs && run[j].execs[x] == Finish(n)
    ensures i < j && x in run[i].execs && run[i].execs[x] == Run(n)
  {
    assert NextAt(run, j - 1);
    EndStep(run[j - 1], run[j], x, n);
    i := j - 1;
    if run[j - 1].execs[x] == Finish(n) {
      i := EndedAfterRun(run, j - 1, x, n);
    }
  }

  /** A task is finished only after an executor has run it. */
  lemma {:induction false} FinishedAfterRun(run: seq<State>, j: nat, n: nat) returns (i: nat, x: nat)
    requires IsRun(run) && j < |run| && n in run[j].work.tasks && run[j].work.tasks[n] == Finished
    ensures i < j && x in run[i].execs && run[i].execs[x] == Run(n)
  {
    assert NextAt(run, j - 1);
    FinishStep(run[j - 1], run[j], n);
    if n in run[j - 1].work.tasks && run[j - 1].work.tasks[n] == Finished {
      i, x := FinishedAfterRun(run, j - 1, n);
    } else {
      x :| x in run[j - 1].execs && run[j - 1].execs[x] == Finish(n);
      i := EndedAfterRun(run, j - 1, x, n);
    }
  }

  // ---- Who is let in ----

  // The poster has loaded the generation and try_enter_post has not returned.
  predicate Entering(p: Poster) {
    p.ReadStatus? || p.Enter? || p.ReadStatusAgain? || p.ReadGenerationAgain?
  }

  // Poster t began a post after state i and has not returned in state j.
  ghost predicate Posting(run: seq<State>, t: nat, i: nat, j: nat) {
    && i < j < |run|
    && forall k: nat | i <= k <= j :: t in run[k].posters && (run[k].posters[t] == Out <==> k == i)
  }

  // Only poster t moves poster t.
  lemma MovedItself(s: State, s': State, t: nat)
    requires Next(s, s') && t in s.posters && t in s'.posters && s'.posters[t] != s.posters[t]
    ensures EnterStep(s, s', t) || PostStep(s, s', t)
  {
    if u: nat :| EnterStep(s, s', u) {
      EnterLeavesOthers(s, s', u, t);
    } else if u: nat :| PostStep(s, s', u) {
      PostLeavesOthers(s, s', u, t);
    }
  }

  lemma EnterLeavesOthers(s: State, s': State, u: nat, t: nat)
    requires EnterStep(s, s', u) && t in s.posters && t in s'.posters
    ensures u != t ==> s'.posters[t] == s.posters[t]
  {
  }

  lemma PostLeavesOthers(s: State, s': State, u: nat, t: nat)
    requires PostStep(s, s', u) && t in s.posters && t in s'.posters
    ensures u != t ==> s'.posters[t] == s.posters[t]
  {
  }

  // The generation carried after this step was carried before it, or is the current one.
  predicate Carries(s: State, s': State, t: nat) {
    && t in s.posters && t in s'.posters && Entering(s'.posters[t])
    && ((Entering(s.posters[t]) && s.posters[t].g == s'.posters[t].g)
        || (s.posters[t].ReadGeneration? && s.gate.gen == s'.posters[t].g))
  }

  lemma EnterCarries(s: State, s': State, t: nat)
    requires EnterStep(s, s', t) && t in s'.posters && Entering(s'.posters[t])
    ensures Carries(s, s', t)
  {
  }

  lemma LoadStep(s: State, s': State, t: nat)
    requires Next(s, s') && t in s.posters && t in s'.posters && Entering(s'.posters[t])
    ensures Carries(s, s', t)
  {
    if s'.posters[t] != s.posters[t] {
      MovedItself(s, s', t);
      if EnterStep(s, s', t) {
        EnterCarries(s, s', t);
      } else {
        PostKeepsHolds(s, s', t, 0);
      }
    }
  }

  lemma StepCarries(run: seq<State>, t: nat, i: nat, j: nat)
    requires IsRun(run) && Posting(run, t, i, j) && Entering(run[j].posters[t])
    ensures Carries(run[j - 1], run[j], t) && j > i + 1
  {
    assert NextAt(run, j - 1);
    LoadStep(run[j - 1], run[j], t);
  }

  // The generation a poster carries was the current one at some moment of its post.
  lemma {:induction false} LoadedAt(run: seq<State>, t: nat, i: nat, j: nat) returns (b: nat)
    requires IsRun(run) && Posting(run, t, i, j) && Entering(run[j].posters[t])
    ensures i < b < j && run[b].gate.gen == run[j].posters[t].g
  {
    StepCarries(run, t, i, j);
    b := j - 1;
    if Entering(run[j - 1].posters[t]) {
      b := LoadedAt(run, t, i, j - 1);
    }
  }

  lemma GenerationStep(s: State, s': State)
    requires GateOk(s) && Next(s, s')
    ensures s.gate.gen <= s'.gate.gen && (s'.gate.gen != s.gate.gen ==> s.gate.status != Running)
  {
  }

  // The generation only grows, and not while the runtime is Running.
  lemma {:induction false} GenerationGrows(run: seq<State>, b: nat, j: nat)
    requires IsRun(run) && b <= j < |run|
    ensures run[b].gate.gen <= run[j].gate.gen
    ensures run[b].gate.gen != run[j].gate.gen ==> exists k: nat :: b <= k < j && run[k].gate.status != Running
    decreases j
  {
    if b < j {
      GenerationGrows(run, b, j - 1);
      assert NextAt(run, j - 1);
      RunInv(run, j - 1);
      GenerationStep(run[j - 1], run[j]);
    }
  }

  lemma EnterRefuses(s: State, s': State, t: nat)
    requires EnterStep(s, s', t) && t in s'.posters && (Entering(s.posters[t]) || s.posters[t].ReadGeneration?)
    requires s'.posters[t].Out? || s'.posters[t].Leave?
    ensures s.gate.status != Running || (s.posters[t].ReadGenerationAgain? && s.gate.gen != s.posters[t].g)
  {
  }

  lemma RefusalStep(s: State, s': State, t: nat)
    requires Next(s, s') && t in s.posters && t in s'.posters && (Entering(s.posters[t]) || s.posters[t].ReadGeneration?)
    requires s'.posters[t].Out? || s'.posters[t].Leave?
    ensures s.gate.status != Running || (s.posters[t].ReadGenerationAgain? && s.gate.gen != s.posters[t].g)
  {
    MovedItself(s, s', t);
    if EnterStep(s, s', t) {
      EnterRefuses(s, s', t);
    }
  }

  /** A post is turned away at the gate only if the runtime was not Running at some moment since it
    * began: while the runtime stays Running every post is let in.
    */
  lemma TurnedAwayOnlyWhenNotRunning(run: seq<State>, t: nat, i: nat, j: nat) returns (k: nat)
    requires IsRun(run) && Posting(run, t, i, j) && j + 1 < |run| && t in run[j + 1].posters
    requires Entering(run[j].posters[t]) || run[j].posters[t].ReadGeneration?
    requires run[j + 1].posters[t].Out? || run[j + 1].posters[t].Leave?
    ensures i < k <= j && run[k].gate.status != Running
  {
    assert NextAt(run, j);
    RefusalStep(run[j], run[j + 1], t);
    k := j;
    if run[j].gate.status == Running {
      var b := LoadedAt(run, t, i, j);
      GenerationGrows(run, b, j);
      k :| b <= k < j && run[k].gate.status != Running;
    }
  }

  lemma AdmissionStep(s: State, s': State, t: nat)
    requires Next(s, s') && t in s.posters && t in s'.posters && Entering(s.posters[t]) && s'.posters[t].Inside?
    ensures s.posters[t].ReadGenerationAgain? && s.gate.gen == s.posters[t].g
  {
    MovedItself(s, s', t);
  }

  lemma InitStep(s: State, s': State)
    requires Next(s, s') && s.gate.ctl == InitGeneration && s'.gate.ctl != InitGeneration
    ensures s'.gate.gen > s.gate.gen
  {
  }

  // An init that goes on has made a new generation.
  lemma {:induction false} InitAdvances(run: seq<State>, k: nat, j: nat)
    requires IsRun(run) && k <= j < |run| && run[k].gate.ctl == InitGeneration && run[j].gate.ctl != InitGeneration
    ensures run[j].gate.gen > run[k].gate.gen
    decreases j
  {
    assert NextAt(run, j - 1);
    if run[j - 1].gate.ctl == InitGeneration {
      InitStep(run[j - 1], run[j]);
      GenerationGrows(run, k, j - 1);
    } else {
      InitAdvances(run, k, j - 1);
      GenerationGrows(run, j - 1, j);
    }
  }

  // A poster about to be let in is there while the runtime is Running or waits for it.
  lemma LetInWhileServing(run: seq<State>, t: nat, j: nat)
    requires IsRun(run) && j + 1 < |run| && t in run[j].posters && t in run[j + 1].posters
    requires Entering(run[j].posters[t]) && run[j + 1].posters[t].Inside?
    ensures run[j].gate.ctl != InitGeneration
    ensures run[j].gate.gen == run[j].posters[t].g
  {
    RunInv(run, j);
    assert NextAt(run, j);
    AdmissionStep(run[j], run[j + 1], t);
    assert Within(run[j].posters[t]);
  }

  /** A post that is let in is let into the runtime it began with: from the moment it loaded the
    * generation until it is let in, no init began a new generation.
    */
  lemma LetInWithoutRestart(run: seq<State>, t: nat, i: nat, j: nat) returns (b: nat)
    requires IsRun(run) && Posting(run, t, i, j) && j + 1 < |run| && t in run[j + 1].posters
    requires Entering(run[j].posters[t]) && run[j + 1].posters[t].Inside?
    ensures i < b < j
    ensures forall k: nat | b <= k <= j :: run[k].gate.gen == run[b].gate.gen && run[k].gate.ctl != InitGeneration
  {
    b := LoadedAt(run, t, i, j);
    LetInWhileServing(run, t, j);
    forall k: nat | b <= k <= j
      ensures run[k].gate.gen == run[b].gate.gen && run[k].gate.ctl != InitGeneration
    {
      GenerationGrows(run, b, k);
      GenerationGrows(run, k, j);
      if run[k].gate.ctl == InitGeneration {
        InitAdvances(run, k, j);
      }
    }
  }

  /** A post that was let in takes the task if and only if the task is new or waiting. */
  lemma LetInTakesTask(run: seq<State>, i: nat, t: nat)
    requires IsRun(run) && i + 1 < |run| && PostStep(run[i], run[i + 1], t) && run[i].posters[t].Inside?
    ensures t in run[i + 1].posters && run[i].posters[t].task in run[i].work.tasks
    ensures var n := run[i].posters[t].task; var was := run[i].work.tasks[n];
            && (run[i + 1].posters[t].Claimed? <==> was == Created || was == Resting)
            && (run[i + 1].posters[t].Claimed? ==>
                  n in run[i + 1].work.tasks && run[i + 1].work.tasks[n] == Queued(ByPoster(t))
                  && run[i + 1].posters[t].first == (was == Created))
  {
  }
}
