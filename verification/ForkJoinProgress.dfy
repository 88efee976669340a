/** The fork/join always can complete: every run can be continued until every launched shard has
  * finished and the owner has been resumed.
  */
module ForkJoinProgress {
  import Runs
  import opened ForkJoin

  lemma GoOn(run: seq<State>, s': State) returns (longer: seq<State>)
    requires IsRun(run) && Next(Runs.Last(run), s')
    ensures IsRun(longer) && longer == run + [s'] && Runs.Last(longer) == s'
  {
    longer := run + [s'];
    forall i: nat | i + 1 < |longer|
      ensures NextAt(longer, i)
    {
      assert i + 1 < |run| ==> NextAt(run, i);
    }
  }

  // ---- How far all threads are from their ends ----

  function ShardLeft(h: Shard): nat {
    match h
    case Unlaunched => 6
    case Launched => 5
    case Ended => 4
    case Last => 3
    case Told => 2
    case Resumed => 1
    case Finished => 0
  }

  function Total(shards: seq<Shard>): nat {
    if shards == [] then 0 else Total(shards[..|shards| - 1]) + ShardLeft(shards[|shards| - 1])
  }

  lemma {:induction false} TotalChange(shards: seq<Shard>, i: nat, h: Shard)
    requires i < |shards|
    ensures Total(shards[i := h]) + ShardLeft(shards[i]) == Total(shards) + ShardLeft(h)
  {
    var last := |shards| - 1;
    if i == last {
      assert shards[i := h][..last] == shards[..last];
    } else {
      assert shards[i := h][..last] == shards[..last][i := h];
      TotalChange(shards[..last], i, h);
    }
  }

  function LauncherLeft(l: Launcher, n: nat): nat {
    match l
    case Start => 2 * n + 3
    case Loop(i) => if i < n then 2 * (n - i) + 2 else 1
    case Inline(i) => if i < n then 2 * (n - i) + 1 else 0
    case Returned => 0
  }

  function Left(s: State): nat {
    LauncherLeft(s.launcher, |s.shards|) + Total(s.shards)
  }

  // ---- There is always a next step ----

  lemma LaunchOn(s: State) returns (m: State)
    requires Shaped(s) && LauncherOk(s) && (s.launcher == Start || s.launcher.Loop?)
    ensures Next(s, m) && Left(m) < Left(s)
  {
    if s.launcher == Start {
      m := if Targets(s.call) == {} then s.(launcher := Returned, owner := Resume(s.owner))
           else s.(launcher := Loop(0), group := Live(|Targets(s.call)|, 0, 0));
    } else {
      var i := s.launcher.i;
      if i >= |s.shards| {
        m := s.(launcher := Returned);
      } else if !Target(s.call, i) {
        m := s.(launcher := Loop(i + 1));
      } else {
        TotalChange(s.shards, i, Launched);
        m := if s.call.begin + i == s.call.here then s.(launcher := Inline(i), shards := s.shards[i := Launched])
             else s.(launcher := Loop(i + 1), shards := s.shards[i := Launched], posts := s.posts[i := s.call.begin + i]);
      }
    }
    assert LaunchStep(s, m);
  }

  lemma EndOn(s: State, i: nat) returns (m: State)
    requires Shaped(s) && i < |s.shards| && s.group.Live? && (s.shards[i] == Launched || s.shards[i] == Ended)
    requires s.shards[i] == Ended ==> s.group.pending > 0
    ensures Next(s, m) && Left(m) < Left(s)
  {
    var g := s.group;
    if s.shards[i] == Launched {
      m := s.(shards := s.shards[i := Ended], group := if s.call.ok[i] then g else g.(failed := g.failed + 1));
    } else {
      m := s.(shards := s.shards[i := if g.pending == 1 then Last else Finished],
              group := g.(pending := g.pending - 1, closer := i));
    }
    TotalChange(s.shards, i, m.shards[i]);
    assert ShardStep(s, m, i);
  }

  lemma CloseOn(s: State, i: nat) returns (m: State)
    requires Shaped(s) && i < |s.shards| && s.group.Live? && Busy(s.shards[i])
    ensures Next(s, m) && Left(m) < Left(s)
  {
    if s.shards[i] == Last {
      m := s.(shards := s.shards[i := Told], owner := s.owner.(failures := s.group.failed));
    } else if s.shards[i] == Told {
      m := s.(shards := s.shards[i := Resumed], owner := Resume(s.owner));
    } else {
      m := s.(shards := s.shards[i := Finished], group := Destroyed);
    }
    TotalChange(s.shards, i, m.shards[i]);
    assert ShardStep(s, m, i);
  }

  lemma ShardOn(s: State, i: nat, before: nat) returns (m: State)
    requires Inv(s, before) && i < |s.shards| && s.shards[i] != Unlaunched && s.shards[i] != Finished
    ensures Next(s, m) && Left(m) < Left(s)
  {
    assert Target(s.call, i) && s.group.Live?;
    if Busy(s.shards[i]) {
      m := CloseOn(s, i);
    } else {
      assert i in Open(s);
      m := EndOn(s, i);
    }
  }

  lemma LeaveInline(s: State) returns (m: State)
    requires Shaped(s) && s.launcher.Inline? && s.launcher.i < |s.shards| && s.shards[s.launcher.i] == Finished
    ensures Next(s, m) && Left(m) < Left(s)
  {
    m := s.(launcher := Loop(s.launcher.i + 1));
    assert LaunchStep(s, m);
  }

  lemma StepOn(s: State, before: nat) returns (m: State)
    requires Inv(s, before) && Placed(s) && !AllDone(s)
    ensures Next(s, m) && Left(m) < Left(s)
  {
    if s.launcher == Start || s.launcher.Loop? {
      m := LaunchOn(s);
    } else if s.launcher.Inline? {
      if s.shards[s.launcher.i] == Finished {
        m := LeaveInline(s);
      } else {
        m := ShardOn(s, s.launcher.i, before);
      }
    } else {
      var i: nat :| i < |s.shards| && s.shards[i] != Unlaunched && s.shards[i] != Finished;
      m := ShardOn(s, i, before);
    }
  }

  /** However a run has gone, it can be continued until the launcher has returned, every target has
    * finished, and the owner has been resumed once, on the count that `ResumedWithExactCount` says.
    */
  lemma {:induction false} Completes(run: seq<State>) returns (longer: seq<State>)
    requires IsRun(run)
    ensures IsRun(longer) && run <= longer && AllDone(Runs.Last(longer)) && |Runs.Last(longer).owner.resumes| == 1
    decreases Left(Runs.Last(run))
  {
    var n := |run| - 1;
    longer := run;
    if AllDone(Runs.Last(run)) {
      ResumedOnceAfterAll(run, n);
    } else {
      RunInv(run, n);
      RunPlaced(run, n);
      var m := StepOn(Runs.Last(run), run[0].owner.failures);
      longer := GoOn(run, m);
      longer := Completes(longer);
    }
  }
}
