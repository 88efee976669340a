/** Exclusivity of a task: it is never in two places at once and never run twice at a time,
  * for any number of executors and wakers and with rejected inserts.
  */
module TaskExclusivity {
  import opened TaskProtocol

  // The places that can stand for "this task is queued".
  datatype Token = InQueue | ByWaker(t: nat) | ByExec(x: nat)

  // Executors that moved the task to Queued and have not inserted it, or that popped it.
  predicate HoldsEntry(pc: ExecPc) {
    pc.Popped? || pc.TakeAgain? || pc.PushSelf?
  }

  predicate InStarting(pc: ExecPc) {
    pc.LoadEpoch? || pc.StoreEpoch? || pc.StoreRunning?
  }

  predicate InRunning(pc: ExecPc) {
    pc.Body? || pc.StoreDone? || pc.StorePending? || pc.StoreAgain?
  }

  predicate InSection(pc: ExecPc) {
    InStarting(pc) || InRunning(pc)
  }

  function Tokens(s: State): set<Token> {
    (if s.entries > 0 then {InQueue} else {})
    + (set t | t in s.wakers && s.wakers[t].pc.Push? :: ByWaker(t))
    + (set x | x in s.execs && HoldsEntry(s.execs[x]) :: ByExec(x))
  }

  ghost predicate OneToken(s: State) {
    && s.entries <= 1
    && (forall a, b | a in Tokens(s) && b in Tokens(s) :: a == b)
    && (s.st == Queued <==> exists a :: a in Tokens(s))
  }

  ghost predicate OneSection(s: State) {
    && (forall x, y | x in s.execs && y in s.execs && InSection(s.execs[x]) && InSection(s.execs[y]) :: x == y)
    && (forall x | x in s.execs && InStarting(s.execs[x]) :: s.st == Starting)
    && (forall x | x in s.execs && InRunning(s.execs[x]) :: s.st == Running)
    && (s.st == Starting ==> exists x :: x in s.execs && InStarting(s.execs[x]))
    && (s.st == Running ==> exists x :: x in s.execs && InRunning(s.execs[x]))
  }

  ghost predicate SeenOk(w: Waker) {
    && (w.pc.ClaimQueued? ==> w.pc.seen == Created || w.pc.seen == Pending)
    && (w.pc.Push? ==> w.pc.previous == Created || w.pc.previous == Pending)
  }

  ghost predicate Exclusive(s: State) {
    && OneToken(s) && OneSection(s)
    && forall t | t in s.wakers :: SeenOk(s.wakers[t])
  }

  lemma InitExclusive(s: State)
    requires Init(s)
    ensures Exclusive(s)
  {
    assert Tokens(s) == {};
  }

  // How the tokens move when waker t steps to a new program counter.
  lemma WakerTokens(s: State, s': State, t: nat)
    requires t in s.wakers && s'.wakers.Keys == s.wakers.Keys && s'.execs == s.execs
    requires forall u | u in s.wakers && u != t :: s'.wakers[u] == s.wakers[u]
    ensures forall a :: a in Tokens(s') <==>
      if a == InQueue then s'.entries > 0
      else if a == ByWaker(t) then s'.wakers[t].pc.Push?
      else a in Tokens(s)
  {
  }

  // What a step of waker t does to the queue entries and the state.
  ghost predicate WakeEffect(s: State, s': State, t: nat) {
    && t in s.wakers && s'.wakers.Keys == s.wakers.Keys && s'.execs == s.execs
    && (forall u | u in s.wakers && u != t :: s'.wakers[u] == s.wakers[u])
    && SeenOk(s'.wakers[t])
    && var held, holds := s.wakers[t].pc.Push?, s'.wakers[t].pc.Push?;
       || (!held && !holds && s'.st == s.st && s'.entries == s.entries)
       || (!held && holds && (s.st == Created || s.st == Pending) && s'.st == Queued && s'.entries == s.entries)
       || (held && !holds && s'.st == s.st && s'.entries == s.entries + 1)
       || (held && !holds && (s.st == Queued ==> s'.st == Created || s'.st == Pending) && s'.entries == s.entries)
  }

  predicate InResolve(pc: WakerPc) {
    pc.ResolveState? || pc.ResolveEpoch? || pc.ResolveClear? || pc.ResolveQueue?
  }

  lemma PushHasEffect(s: State, s': State, t: nat)
    requires t in s.wakers && SeenOk(s.wakers[t]) && s.wakers[t].pc.Push?
    requires WakeStep(s, s', t) || CancelStep(s, s', t)
    ensures WakeEffect(s, s', t)
  {
  }

  lemma ResolveHasEffect(s: State, s': State, t: nat)
    requires t in s.wakers && SeenOk(s.wakers[t]) && InResolve(s.wakers[t].pc) && WakeStep(s, s', t)
    ensures WakeEffect(s, s', t)
  {
  }

  lemma RequestHasEffect(s: State, s': State, t: nat)
    requires t in s.wakers && SeenOk(s.wakers[t]) && !InResolve(s.wakers[t].pc) && !s.wakers[t].pc.Push?
    requires WakeStep(s, s', t)
    ensures WakeEffect(s, s', t)
  {
  }

  lemma WakeHasEffect(s: State, s': State, t: nat)
    requires t in s.wakers && SeenOk(s.wakers[t]) && (WakeStep(s, s', t) || CancelStep(s, s', t))
    ensures WakeEffect(s, s', t)
  {
    if s.wakers[t].pc.Push? {
      PushHasEffect(s, s', t);
    } else if InResolve(s.wakers[t].pc) {
      ResolveHasEffect(s, s', t);
    } else {
      RequestHasEffect(s, s', t);
    }
  }

  lemma WakeKeepsOneToken(s: State, s': State, t: nat)
    requires OneToken(s) && WakeEffect(s, s', t)
    ensures OneToken(s')
  {
    WakerTokens(s, s', t);
    if s.wakers[t].pc.Push? {
      assert ByWaker(t) in Tokens(s);
      assert InQueue !in Tokens(s);
      if s'.entries > 0 {
        assert InQueue in Tokens(s');
      }
    } else if s'.wakers[t].pc.Push? {
      assert ByWaker(t) in Tokens(s');
    } else {
      assert Tokens(s') == Tokens(s);
    }
  }

  lemma WakeKeepsOneSection(s: State, s': State, t: nat)
    requires OneToken(s) && OneSection(s) && WakeEffect(s, s', t)
    ensures OneSection(s')
  {
    if s.wakers[t].pc.Push? {
      assert ByWaker(t) in Tokens(s);
    }
  }

  lemma ExecTokens(s: State, s': State, x: nat)
    requires x in s.execs && s'.wakers == s.wakers && s'.execs.Keys == s.execs.Keys
    requires forall y | y in s.execs && y != x :: s'.execs[y] == s.execs[y]
    ensures forall a :: a in Tokens(s') <==>
      if a == InQueue then s'.entries > 0
      else if a == ByExec(x) then HoldsEntry(s'.execs[x])
      else a in Tokens(s)
  {
  }

  // What a step of executor x does to the queue entries and to Queued.
  ghost predicate HoldEffect(s: State, s': State, x: nat) {
    && x in s.execs && s'.execs.Keys == s.execs.Keys && s'.wakers == s.wakers
    && (forall y | y in s.execs && y != x :: s'.execs[y] == s.execs[y])
    && var held, holds := HoldsEntry(s.execs[x]), HoldsEntry(s'.execs[x]);
       || (held == holds && s'.entries == s.entries && (s'.st == Queued <==> s.st == Queued))
       || (!held && holds && s.entries > 0 && s'.entries == s.entries - 1 && s'.st == s.st)
       || (!held && holds && s'.entries == s.entries && s.st != Queued && s'.st == Queued)
       || (held && !holds && s'.entries == s.entries && s'.st != Queued)
       || (held && !holds && s'.entries == s.entries + 1 && s'.st == s.st)
  }

  lemma ExecHasHold(s: State, s': State, x: nat)
    requires OneSection(s) && ExecStep(s, s', x)
    ensures HoldEffect(s, s', x)
  {
  }

  lemma HoldKeepsOneToken(s: State, s': State, x: nat)
    requires OneToken(s) && HoldEffect(s, s', x)
    ensures OneToken(s')
  {
    ExecTokens(s, s', x);
    assert ByExec(x) in Tokens(s) <==> HoldsEntry(s.execs[x]);
    assert InQueue in Tokens(s) <==> s.entries > 0;
    if HoldsEntry(s.execs[x]) == HoldsEntry(s'.execs[x]) {
      assert Tokens(s') == Tokens(s);
    }
  }

  lemma ExecKeepsOneToken(s: State, s': State, x: nat)
    requires Exclusive(s) && ExecStep(s, s', x)
    ensures OneToken(s')
  {
    ExecHasHold(s, s', x);
    HoldKeepsOneToken(s, s', x);
  }

  // What a step of executor x does to the state, by where x was and where it goes.
  ghost predicate ExecEffect(s: State, s': State, x: nat) {
    && x in s.execs && s'.execs.Keys == s.execs.Keys && s'.wakers == s.wakers
    && (forall y | y in s.execs && y != x :: s'.execs[y] == s.execs[y])
    && var before, after := s.execs[x], s'.execs[x];
       || (InStarting(before) && InStarting(after) && s'.st == s.st)
       || (InStarting(before) && InRunning(after) && s'.st == Running)
       || (InRunning(before) && InRunning(after) && s'.st == s.st)
       || (InRunning(before) && !InSection(after) && s'.st != Starting && s'.st != Running)
       || (!InSection(before) && InStarting(after) && s.st == Queued && s'.st == Starting)
       || (!InSection(before) && !InSection(after)
           && (s'.st == s.st || (s.st == Pending && s'.st == Queued)))
  }

  lemma ExecHasEffect(s: State, s': State, x: nat)
    requires ExecStep(s, s', x)
    ensures ExecEffect(s, s', x)
  {
  }

  lemma ExecKeepsOneSection(s: State, s': State, x: nat)
    requires OneSection(s) && ExecEffect(s, s', x)
    ensures OneSection(s')
  {
  }

  lemma StepKeepsExclusive(s: State, s': State)
    requires Exclusive(s) && Next(s, s')
    ensures Exclusive(s')
  {
    var t: nat :| WakeStep(s, s', t) || CancelStep(s, s', t) || ExecStep(s, s', t);
    if ExecStep(s, s', t) {
      ExecKeepsOneToken(s, s', t);
      ExecHasEffect(s, s', t);
      ExecKeepsOneSection(s, s', t);
    } else {
      WakeHasEffect(s, s', t);
      WakeKeepsOneToken(s, s', t);
      WakeKeepsOneSection(s, s', t);
    }
  }

  lemma {:induction false} RunExclusive(run: seq<State>, i: nat)
    requires IsRun(run) && i < |run|
    ensures Exclusive(run[i])
  {
    if i == 0 {
      InitExclusive(run[0]);
    } else {
      RunExclusive(run, i - 1);
      assert NextAt(run, i - 1);
      StepKeepsExclusive(run[i - 1], run[i]);
    }
  }

  lemma SingletonSize<T>(a: set<T>)
    requires forall x, y | x in a && y in a :: x == y
    ensures |a| == if a == {} then 0 else 1
  {
    if x :| x in a {
      assert a == {x};
    }
  }

  /** In every state of every run the queue entries plus the threads that hold the task on
    * its way into or out of the queue total one exactly when it is Queued, and at most one
    * executor is between Starting and its finishing store.
    */
  lemma TaskIsInOnePlace(run: seq<State>, i: nat)
    requires IsRun(run) && i < |run|
    ensures run[i].entries <= 1
    ensures |Tokens(run[i])| == if run[i].st == Queued then 1 else 0
    ensures |set x | x in run[i].execs && InSection(run[i].execs[x])|
         == if run[i].st == Starting || run[i].st == Running then 1 else 0
  {
    var s := run[i];
    RunExclusive(run, i);
    SingletonSize(Tokens(s));
    var inside := set x | x in s.execs && InSection(s.execs[x]);
    SingletonSize(inside);
    if s.st == Starting || s.st == Running {
      var x :| x in s.execs && InSection(s.execs[x]);
      assert x in inside;
    } else {
      assert inside == {};
    }
  }

  /** The two assertions of the code that speak of exclusivity never fire: an executor that
    * popped the task finds it Queued, and so does a waker that undoes its move to Queued.
    */
  lemma QueuedWhenHeld(run: seq<State>, i: nat)
    requires IsRun(run) && i < |run|
    ensures forall x | x in run[i].execs && run[i].execs[x] == Popped :: run[i].st == Queued
    ensures forall t | t in run[i].wakers && run[i].wakers[t].pc.Push? :: run[i].st == Queued
  {
    var s := run[i];
    RunExclusive(run, i);
    forall x | x in s.execs && s.execs[x] == Popped
      ensures s.st == Queued
    {
      assert ByExec(x) in Tokens(s);
    }
    forall t | t in s.wakers && s.wakers[t].pc.Push?
      ensures s.st == Queued
    {
      assert ByWaker(t) in Tokens(s);
    }
  }
}
