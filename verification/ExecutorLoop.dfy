/** The run loop of an executor over whole runs: it executes what is put into its queues, drops
  * nothing, and ends only when it was asked to and a whole search found nothing.
  */
module ExecutorLoop {
  import opened ExecutorSleep

  // ---- Every entry is waiting, in hand, or executed ----

  function Total(a: seq<nat>): nat {
    if a == [] then 0 else Total(a[..|a| - 1]) + a[|a| - 1]
  }

  lemma {:induction false} TotalChange(a: seq<nat>, i: nat, n: nat)
    requires i < |a|
    ensures Total(a[i := n]) + a[i] == Total(a) + n
  {
    var last := |a| - 1;
    if i == last {
      assert a[i := n][..last] == a[..last];
    } else {
      assert a[i := n][..last] == a[..last][i := n];
      TotalChange(a[..last], i, n);
    }
  }

  lemma {:induction false} TotalZero(a: seq<nat>)
    requires forall i | 0 <= i < |a| :: a[i] == 0
    ensures Total(a) == 0
  {
    if a != [] {
      TotalZero(a[..|a| - 1]);
    }
  }

  function Waiting(q: Queues): nat {
    q.local + Total(q.spsc) + |q.ext|
  }

  // The executor has taken an entry and has not executed it to its end.
  predicate InHand(pc: ExecPc) {
    pc.Run? || pc == ClearSleeping(true)
  }

  function One(b: bool): nat {
    if b then 1 else 0
  }

  predicate Conserved(s: State) {
    s.put == s.ran + One(InHand(s.exec)) + Waiting(s.q)
  }

  lemma PopTakesOne(q: Queues, todo: set<nat>, i: nat)
    ensures var (q', r) := PopOnce(q, todo, i); Waiting(q') + One(r == Found) == Waiting(q)
  {
    if q.local == 0 && todo != {} && IsSource(q, i) && q.spsc[i] > 0 {
      TotalChange(q.spsc, i, q.spsc[i] - 1);
    }
  }

  lemma WorkConserves(s: State, s': State, i: nat)
    requires Conserved(s) && WorkStep(s, s', i)
    ensures Conserved(s')
  {
    if s.exec.Scan? || s.exec.ScanAgain? {
      PopTakesOne(s.q, s.exec.todo, i);
    }
  }

  lemma OfferConserves(s: State, s': State, t: nat, i: nat)
    requires Conserved(s) && Offer(s, s', t, i)
    ensures Conserved(s')
  {
    if i < |s.q.spsc| {
      TotalChange(s.q.spsc, i, s.q.spsc[i] + 1);
    }
  }

  lemma SleepConserves(s: State, s': State, n: nat)
    requires Conserved(s) && SleepStep(s, s', n)
    ensures Conserved(s')
  {
  }

  lemma AnnounceConserves(s: State, s': State, t: nat, j: nat)
    requires Conserved(s) && AnnounceStep(s, s', t, j)
    ensures Conserved(s')
  {
  }

  // A producer on its way to the executor moves it at most from its wait back to the check before it.
  lemma WakeLeaves(s: State, s': State, t: nat)
    requires WakeStep(s, s', t)
    ensures s'.q == s.q && s'.put == s.put && s'.ran == s.ran && s'.f.stop == s.f.stop
    ensures s'.exec == s.exec || (s.exec.Blocked? && s'.exec.Enter?)
  {
  }

  lemma StepConserves(s: State, s': State)
    requires Conserved(s) && Next(s, s')
    ensures Conserved(s')
  {
    if n: nat :| SleepStep(s, s', n) {
      SleepConserves(s, s', n);
    } else if i: nat :| WorkStep(s, s', i) {
      WorkConserves(s, s', i);
    } else if raised: bool :| ReadyStep(s, s', raised) {
      assert s'.q == s.q && s'.exec == s.exec;
    } else if t: nat, i: nat :| Offer(s, s', t, i) {
      OfferConserves(s, s', t, i);
    } else if t: nat, j: nat :| AnnounceStep(s, s', t, j) {
      AnnounceConserves(s, s', t, j);
    } else {
      var t: nat :| WakeStep(s, s', t);
      WakeLeaves(s, s', t);
    }
  }

  /** In every state of every run, the entries put into any of the executor's queues so far are
    * those executed, the one in its hands, and those still waiting in a queue.
    */
  lemma {:induction false} NoEntryIsDropped(run: seq<State>, i: nat)
    requires IsRun(run) && i < |run|
    ensures Conserved(run[i])
  {
    if i == 0 {
      TotalZero(run[0].q.spsc);
    } else {
      NoEntryIsDropped(run, i - 1);
      assert NextAt(run, i - 1);
      StepConserves(run[i - 1], run[i]);
    }
  }

  // ---- When the loop ends ----

  // In a search that has executed nothing.
  predicate Idling(pc: ExecPc) {
    pc.Scan? && !pc.did
  }

  // A step into a search that has executed nothing continues one, and then what it crossed off
  // was empty, or begins one.
  ghost predicate Searches(s: State, s': State) {
    && Idling(s'.exec)
    && if Idling(s.exec) then
         && s'.q.local == s.q.local && |s'.q.spsc| == |s.q.spsc|
         && forall i: nat | IsSource(s.q, i) && i in s.exec.todo && i !in s'.exec.todo :: s.q.spsc[i] == 0
       else s'.exec.todo == Sources(s'.q)
  }

  lemma SearchStep(s: State, s': State)
    requires Next(s, s') && Idling(s'.exec)
    ensures Searches(s, s')
  {
    if i: nat :| WorkStep(s, s', i) {
      WorkSearches(s, s', i);
    } else if n: nat :| SleepStep(s, s', n) {
      SleepSearches(s, s', n);
    } else if t: nat, j: nat :| AnnounceStep(s, s', t, j) {
      AnnounceHasEffect(s, s', t, j);
    }
  }

  lemma WorkSearches(s: State, s': State, i: nat)
    requires WorkStep(s, s', i) && Idling(s'.exec)
    ensures Searches(s, s')
  {
  }

  lemma SleepSearches(s: State, s': State, n: nat)
    requires SleepStep(s, s', n) && Idling(s'.exec)
    ensures Searches(s, s')
  {
  }

  ghost predicate EmptyAt(run: seq<State>, k: nat, i: nat) {
    k < |run| && IsSource(run[k].q, i) && run[k].q.spsc[i] == 0
  }

  // Since state b the executor has been searching, executed nothing, and found source i empty.
  ghost predicate SeenEmpty(run: seq<State>, b: nat, j: nat, i: nat) {
    exists k: nat :: b <= k < j && EmptyAt(run, k, i)
  }

  ghost predicate SearchAt(run: seq<State>, j: nat, k: nat)
    requires j < |run| && k < |run|
  {
    Idling(run[k].exec) && run[k].q.local == run[j].q.local && |run[k].q.spsc| == |run[j].q.spsc|
  }

  ghost predicate SearchFrom(run: seq<State>, b: nat, j: nat) {
    && b <= j < |run| && run[b].exec == Scan(Sources(run[b].q), false)
    && (forall k: nat | b <= k <= j :: SearchAt(run, j, k))
    && run[j].exec.Scan?
    && forall i: nat | IsSource(run[j].q, i) && i !in run[j].exec.todo :: SeenEmpty(run, b, j, i)
  }

  lemma SearchGoesOn(run: seq<State>, b: nat, j: nat, n: nat)
    requires n == j + 1 < |run| && SearchFrom(run, b, j) && Searches(run[j], run[n])
    ensures SearchFrom(run, b, n)
  {
    assert SearchAt(run, j, j);
    forall i: nat | IsSource(run[n].q, i) && i !in run[n].exec.todo
      ensures SeenEmpty(run, b, n, i)
    {
      if i in run[j].exec.todo {
        assert EmptyAt(run, j, i);
      } else {
        assert SeenEmpty(run, b, j, i);
      }
    }
    forall k: nat | b <= k <= n
      ensures SearchAt(run, n, k)
    {
      assert k <= j ==> SearchAt(run, j, k);
    }
  }

  lemma {:induction false} SearchSoFar(run: seq<State>, j: nat) returns (b: nat)
    requires IsRun(run) && j < |run| && Idling(run[j].exec)
    ensures SearchFrom(run, b, j)
  {
    if j > 0 {
      assert NextAt(run, j - 1);
      SearchStep(run[j - 1], run[j]);
      if Idling(run[j - 1].exec) {
        b := SearchSoFar(run, j - 1);
        SearchGoesOn(run, b, j - 1, j);
        return;
      }
    }
    b := j;
  }

  // How the loop gets to its check for a stop with nothing done, and past it.
  lemma CheckStep(s: State, s': State)
    requires Next(s, s') && s'.exec == ReadStop(false)
    ensures s.exec == ReadStop(false) || (s.exec == Scan({}, false) && s.q.local == 0 && !Poppable(s.q))
  {
  }

  lemma ExitStep(s: State, s': State)
    requires Next(s, s')
    ensures s'.exec == Exited ==> s.exec == Exited || (s.exec == ReadStop(false) && s.f.stop)
    ensures s.f.stop ==> s'.f.stop
  {
    if n: nat :| SleepStep(s, s', n) {
      SleepExits(s, s', n);
    } else if t: nat, j: nat :| AnnounceStep(s, s', t, j) {
      AnnounceHasEffect(s, s', t, j);
    } else if t: nat :| WakeStep(s, s', t) {
      WakeLeaves(s, s', t);
    }
  }

  lemma SleepExits(s: State, s': State, n: nat)
    requires SleepStep(s, s', n)
    ensures s'.exec == Exited ==> s.exec == ReadStop(false) && s.f.stop
    ensures s'.f.stop == s.f.stop
  {
  }

  ghost predicate StaysAt(run: seq<State>, a: nat, b: nat, pc: ExecPc)
    requires b < |run|
  {
    forall k: nat | a < k <= b :: run[k].exec == pc
  }

  lemma {:induction false} CheckedAfter(run: seq<State>, e: nat) returns (m: nat)
    requires IsRun(run) && e < |run| && run[e].exec == ReadStop(false)
    ensures m < e && run[m].exec == Scan({}, false) && run[m].q.local == 0 && !Poppable(run[m].q)
    ensures StaysAt(run, m, e, ReadStop(false))
  {
    assert NextAt(run, e - 1);
    CheckStep(run[e - 1], run[e]);
    m := e - 1;
    if run[e - 1].exec == ReadStop(false) {
      m := CheckedAfter(run, e - 1);
    }
  }

  lemma {:induction false} ExitedAfter(run: seq<State>, j: nat) returns (e: nat)
    requires IsRun(run) && j < |run| && run[j].exec == Exited
    ensures e < j && run[e].exec == ReadStop(false) && run[e].f.stop && run[j].f.stop
    ensures StaysAt(run, e, j, Exited)
  {
    assert NextAt(run, j - 1);
    ExitStep(run[j - 1], run[j]);
    e := j - 1;
    if run[j - 1].exec == Exited {
      e := ExitedAfter(run, j - 1);
    }
  }

  /** The loop has ended only if a stop was requested, and right after one whole search that
    * executed nothing: from state b to state m it looked at its own ring, which was empty all the
    * time, and at every source, each of which was empty at some moment, and last at the external
    * queue, which had nothing to pop; it then saw the stop request in state e.
    */
  lemma EndsOnlyWhenAskedAndDry(run: seq<State>, j: nat) returns (b: nat, m: nat, e: nat)
    requires IsRun(run) && j < |run| && run[j].exec == Exited
    ensures b <= m < e < j && SearchFrom(run, b, m) && run[m].exec.todo == {}
    ensures forall i: nat | IsSource(run[m].q, i) :: SeenEmpty(run, b, m, i)
    ensures run[m].q.local == 0 && !Poppable(run[m].q)
    ensures StaysAt(run, m, e, ReadStop(false)) && run[e].f.stop && StaysAt(run, e, j, Exited)
    ensures run[j].f.stop
  {
    e := ExitedAfter(run, j);
    m := CheckedAfter(run, e);
    b := SearchSoFar(run, m);
  }

  /** ... and it does end there: after a search that executed nothing the loop goes on if and only
    * if no stop was requested.
    */
  lemma EndsWhenAskedAndDry(run: seq<State>, i: nat, n: nat)
    requires IsRun(run) && i + 1 < |run| && SleepStep(run[i], run[i + 1], n) && run[i].exec.ReadStop?
    ensures run[i + 1].exec == Exited <==> run[i].f.stop && run[i].exec == ReadStop(false)
    ensures run[i + 1].exec == Poll <==> !run[i].f.stop
  {
  }
}
