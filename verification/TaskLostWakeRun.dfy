/** A concrete run of the protocol that loses a wake: one executor, two wakers, no rejected
  * insert, and a quiet final state with nothing in the queue.
  */
module TaskLostWakeRun {
  import opened TaskProtocol
  import opened TaskNoLostWake
  import opened TaskLostWake

  const TAG := Tag(0, 0)

  // Where everything stands: waker 1 wakes the task in time, waker 2 is the late one.
  ghost predicate Stands(s: State, st: TaskState, req: Request, epoch: nat, entries: nat, runs: nat,
                         one: WakerPc, two: WakerPc, x: ExecPc) {
    && s.st == st && s.req == req && s.epoch == epoch && s.entries == entries && s.runs == runs
    && s.wakers.Keys == {1, 2} && s.execs.Keys == {0}
    && s.wakers[1].pc == one && s.wakers[2].pc == two && s.execs[0] == x
    && s.wakers[1].tag == TAG && s.wakers[2].tag == TAG
  }

  lemma Append(run: seq<State>, s': State)
    requires OwnedRun(run) && OwnedStep(run[|run| - 1], s')
    ensures OwnedRun(run + [s'])
  {
    JoinRuns(run, [run[|run| - 1], s']);
    assert run + [run[|run| - 1], s'][1..] == run + [s'];
  }

  lemma Exec(run: seq<State>, s': State) returns (longer: seq<State>)
    requires OwnedRun(run) && ExecStep(run[|run| - 1], s', 0)
    ensures OwnedRun(longer) && longer[|longer| - 1] == s'
  {
    Append(run, s');
    longer := run + [s'];
  }

  lemma Wake(run: seq<State>, t: nat, s': State) returns (longer: seq<State>)
    requires OwnedRun(run) && WakeStep(run[|run| - 1], s', t)
    ensures OwnedRun(longer) && longer[|longer| - 1] == s'
  {
    Append(run, s');
    longer := run + [s'];
  }

  // Waker 1 puts the new task into the queue.
  lemma FirstWake() returns (run: seq<State>, s: State)
    ensures OwnedRun(run) && run[|run| - 1] == s
    ensures Stands(s, Queued, NoRequest, 0, 1, 0, Out, Out, Idle)
  {
    s := State(Created, NoRequest, 0, 0, map[1 := Waker(Out, TAG, 0, false), 2 := Waker(Out, TAG, 0, false)], map[0 := Idle], 0, {});
    run := [s];
    s := s.(wakers := s.wakers[1 := Waker(ReadState, TAG, 0, false)]);
    run := Wake(run, 1, s);
    s := At(s, 1, ClaimQueued(Created));
    run := Wake(run, 1, s);
    s := At(s, 1, Push(Created)).(st := Queued);
    run := Wake(run, 1, s);
    s := Return(s, 1, true).(entries := 1);
    run := Wake(run, 1, s);
  }

  // The executor pops the task and prepares a run, up to the store of Running.
  lemma Prepare(run: seq<State>, s: State, epoch: nat, runs: nat, two: WakerPc) returns (longer: seq<State>, s': State)
    requires OwnedRun(run) && run[|run| - 1] == s
    requires Stands(s, Queued, NoRequest, epoch, 1, runs, Out, two, Idle)
    ensures OwnedRun(longer) && longer[|longer| - 1] == s'
    ensures Stands(s', Starting, NoRequest, epoch + 1, 0, runs, Out, two, StoreRunning)
  {
    s' := XAt(s, 0, Popped).(entries := 0);
    longer := Exec(run, s');
    s' := XAt(s', 0, LoadEpoch).(st := Starting);
    longer := Exec(longer, s');
    s' := XAt(s', 0, StoreEpoch(epoch + 1));
    longer := Exec(longer, s');
    s' := XAt(s', 0, StoreRunning).(epoch := epoch + 1);
    longer := Exec(longer, s');
  }

  // The first run's body begins.
  lemma FirstRun() returns (run: seq<State>, s: State)
    ensures OwnedRun(run) && run[|run| - 1] == s
    ensures Stands(s, Running, NoRequest, 1, 0, 1, Out, Out, Body)
  {
    run, s := FirstWake();
    run, s := Prepare(run, s, 0, 0, Out);
    s := XAt(s, 0, Body).(st := Running, runs := 1);
    run := Exec(run, s);
  }

  // Waker 2 sees the task Running and is delayed ...
  lemma LateWake() returns (run: seq<State>, s: State)
    ensures OwnedRun(run) && run[|run| - 1] == s
    ensures Stands(s, Running, NoRequest, 1, 0, 1, Out, ReadEpoch, Body)
  {
    run, s := FirstRun();
    s := s.(wakers := s.wakers[2 := Waker(ReadState, TAG, 1, s.wakers[2].told)]);
    run := Wake(run, 2, s);
    s := At(s, 2, ReadEpoch);
    run := Wake(run, 2, s);
  }

  // ... while the run asks to be run again.
  lemma RunAgain() returns (run: seq<State>, s: State)
    ensures OwnedRun(run) && run[|run| - 1] == s
    ensures Stands(s, Queued, NoRequest, 1, 1, 1, Out, ReadEpoch, Idle)
  {
    run, s := LateWake();
    s := XAt(s, 0, StoreAgain);
    run := Exec(run, s);
    s := XAt(s, 0, TakeAgain).(st := Queued);
    run := Exec(run, s);
    s := XAt(s, 0, PushSelf).(req := NoRequest);
    run := Exec(run, s);
    s := XAt(s, 0, Idle).(entries := 1);
    run := Exec(run, s);
  }

  // The next run is Starting.
  lemma SecondStart() returns (run: seq<State>, s: State)
    ensures OwnedRun(run) && run[|run| - 1] == s
    ensures Stands(s, Starting, NoRequest, 2, 0, 1, Out, ReadEpoch, StoreRunning)
  {
    run, s := RunAgain();
    run, s := Prepare(run, s, 1, 1, ReadEpoch);
  }

  // Waker 2 leaves a request for the new run, sees Starting, and is delayed again.
  lemma LateRequest() returns (run: seq<State>, s: State)
    ensures OwnedRun(run) && run[|run| - 1] == s
    ensures Stands(s, Running, Want(2, TAG), 2, 0, 2, Out, ResolveClear(2, Starting), Body)
  {
    run, s := SecondStart();
    s := At(s, 2, Install(2));
    run := Wake(run, 2, s);
    s := At(s, 2, ResolveState(2)).(req := Want(2, TAG));
    run := Wake(run, 2, s);
    s := At(s, 2, ResolveClear(2, Starting));
    run := Wake(run, 2, s);
    s := XAt(s, 0, Body).(st := Running, runs := 2);
    run := Exec(run, s);
  }

  // Waker 1 wakes the running task and finds the same request in place ...
  lemma SameRequest() returns (run: seq<State>, s: State)
    ensures OwnedRun(run) && run[|run| - 1] == s
    ensures Stands(s, Running, Want(2, TAG), 2, 0, 2, ResolveState(2), ResolveClear(2, Starting), Body)
    ensures s.wakers[1].begin == 2
  {
    run, s := LateRequest();
    s := s.(wakers := s.wakers[1 := Waker(ReadState, TAG, 2, s.wakers[1].told)]);
    run := Wake(run, 1, s);
    s := At(s, 1, ReadEpoch);
    run := Wake(run, 1, s);
    s := At(s, 1, Install(2));
    run := Wake(run, 1, s);
    s := At(s, 1, ResolveState(2));
    run := Wake(run, 1, s);
  }

  // ... and is told "accepted".
  lemma TimelyWake() returns (run: seq<State>, s: State)
    ensures OwnedRun(run) && run[|run| - 1] == s && 2 in s.accepted
    ensures Stands(s, Running, Want(2, TAG), 2, 0, 2, Out, ResolveClear(2, Starting), Body)
  {
    run, s := SameRequest();
    s := At(s, 1, ResolveEpoch(2));
    run := Wake(run, 1, s);
    s := Return(s, 1, true);
    run := Wake(run, 1, s);
  }

  // The late waker removes the request that waker 1 relies on.
  lemma LateClears() returns (run: seq<State>, s: State)
    ensures OwnedRun(run) && run[|run| - 1] == s && 2 in s.accepted
    ensures Stands(s, Running, NoRequest, 2, 0, 2, Out, Out, Body)
  {
    run, s := TimelyWake();
    s := Return(s, 2, true).(req := NoRequest);
    run := Wake(run, 2, s);
  }

  lemma QuietAndOwed(s: State)
    requires Quiet(s) && s.st == Pending && s.runs in s.accepted
    ensures !NoWakeLost(s)
  {
    assert !Forced(s, s.runs);
  }

  /** There is a run after which every thread is at rest, the task is Pending and in no queue,
    * and an accepted wake has not been followed by the beginning of a run body.
    */
  lemma WakeCanBeLost() returns (run: seq<State>, s: State)
    ensures OwnedRun(run) && run[|run| - 1] == s
    ensures Quiet(s) && s.st == Pending && s.entries == 0 && s.runs in s.accepted
    ensures 0 in s.execs && !NoWakeLost(s)
  {
    run, s := LateClears();
    s := XAt(s, 0, StorePending);
    run := Exec(run, s);
    s := XAt(s, 0, TakePending).(st := Pending);
    run := Exec(run, s);
    s := XAt(s, 0, CheckPending(NoRequest)).(req := NoRequest);
    run := Exec(run, s);
    s := XAt(s, 0, Idle);
    run := Exec(run, s);
    QuietAndOwed(s);
  }
}
