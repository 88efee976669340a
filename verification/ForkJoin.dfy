/** The fork/join of parallel_shards: a task of the runtime fans work out to shards, inline on
  * its own thread or as tasks posted to others, and is resumed by whichever shard finishes last.
  *
  * One atomic access per step; completions interleave freely with each other and with the
  * launching loop. Cancellation of shard tasks at runtime shutdown is not part of this model.
  */
module ForkJoin {

  // What the caller passes: which shards are empty, where they run, and how each will end.
  datatype Call = Call(skipEmpty: bool, nonEmpty: seq<bool>, begin: nat, here: nat, ok: seq<bool>)

  predicate ValidCall(c: Call) {
    |c.ok| == |c.nonEmpty|
  }

  predicate Target(c: Call, i: nat)
    requires i < |c.nonEmpty|
  {
    !c.skipEmpty || c.nonEmpty[i]
  }

  function Targets(c: Call): set<nat> {
    set i: nat | i < |c.nonEmpty| && Target(c, i)
  }

  function Failures(c: Call): set<nat>
    requires ValidCall(c)
  {
    set i: nat | i < |c.nonEmpty| && Target(c, i) && !c.ok[i]
  }

  function TargetsBelow(c: Call, n: nat): set<nat>
    requires n <= |c.nonEmpty|
  {
    set i: nat | i < n && Target(c, i)
  }

  // The loop that counts how many shards will be launched.
  method CountTargets(c: Call) returns (count: nat)
    ensures count == |Targets(c)|
  {
    count := |c.nonEmpty|;
    if c.skipEmpty {
      count := 0;
      var i := 0;
      while i < |c.nonEmpty|
        invariant 0 <= i <= |c.nonEmpty|
        invariant count == |TargetsBelow(c, i)|
      {
        assert TargetsBelow(c, i + 1) == TargetsBelow(c, i) + if c.nonEmpty[i] then {i} else {};
        if c.nonEmpty[i] {
          count := count + 1;
        }
        i := i + 1;
      }
      assert TargetsBelow(c, i) == Targets(c);
    } else {
      AllAreTargets(c, |c.nonEmpty|);
      assert TargetsBelow(c, |c.nonEmpty|) == Targets(c);
    }
  }

  lemma {:induction false} AllAreTargets(c: Call, n: nat)
    requires !c.skipEmpty && n <= |c.nonEmpty|
    ensures |TargetsBelow(c, n)| == n
  {
    if n == 0 {
      assert TargetsBelow(c, 0) == {};
    } else {
      AllAreTargets(c, n - 1);
      assert TargetsBelow(c, n) == TargetsBelow(c, n - 1) + {n - 1};
    }
  }

  // ---- The machine ----

  datatype Launcher =
    | Start
    | Loop(i: nat)
    | Inline(i: nat)                // running shard i on the launching thread
    | Returned

  // One shard: run_parallel_shard and then RuntimeParallelGroup::complete.
  datatype Shard =
    | Unlaunched
    | Launched
    | Ended                         // a failure has been added to `failed`; `pending` is next
    | Last                          // it lowered `pending` to zero
    | Told                          // the owner's failure count is stored
    | Resumed                       // the owner is posted; the group is destroyed next
    | Finished

  // `closer` is history: the shard that lowered `pending` to zero.
  datatype Group = NoGroup | Live(pending: nat, failed: nat, closer: nat) | Destroyed

  // The owner's stored failure count, and the counts it found each time it was resumed.
  datatype Owner = Owner(failures: nat, resumes: seq<nat>)

  // `posts` is history: the thread each shard was posted to, for those that were.
  datatype State = State(call: Call, launcher: Launcher, shards: seq<Shard>, group: Group, owner: Owner,
                         posts: map<nat, nat>)

  predicate Shaped(s: State) {
    ValidCall(s.call) && |s.shards| == |s.call.nonEmpty|
  }

  ghost predicate Init(s: State) {
    && ValidCall(s.call) && s.launcher == Start && s.group == NoGroup && s.owner.resumes == []
    && |s.shards| == |s.call.nonEmpty|
    && (forall i: nat | i < |s.shards| :: s.shards[i] == Unlaunched)
    && s.posts == map[]
  }

  function Resume(o: Owner): Owner {
    o.(resumes := o.resumes + [o.failures])
  }

  ghost predicate LaunchStep(s: State, s': State)
    requires Shaped(s)
  {
    match s.launcher
    case Start =>
      if Targets(s.call) == {} then s' == s.(launcher := Returned, owner := Resume(s.owner))
      else s' == s.(launcher := Loop(0), group := Live(|Targets(s.call)|, 0, 0))
    case Loop(i) =>
      if i >= |s.shards| then s' == s.(launcher := Returned)
      else if !Target(s.call, i) then s' == s.(launcher := Loop(i + 1))
      else if s.call.begin + i == s.call.here then
        s' == s.(launcher := Inline(i), shards := s.shards[i := Launched])
      else s' == s.(launcher := Loop(i + 1), shards := s.shards[i := Launched], posts := s.posts[i := s.call.begin + i])
    case Inline(i) => i < |s.shards| && s.shards[i] == Finished && s' == s.(launcher := Loop(i + 1))
    case Returned => false
  }

  ghost predicate ShardStep(s: State, s': State, i: nat)
    requires Shaped(s)
  {
    && i < |s.shards| && s.group.Live? && s'.call == s.call && s'.launcher == s.launcher && s'.posts == s.posts
    && var g := s.group;
       match s.shards[i]
       case Launched =>
         && s'.shards == s.shards[i := Ended] && s'.owner == s.owner
         && s'.group == if s.call.ok[i] then g else g.(failed := g.failed + 1)
       case Ended =>
         && g.pending > 0
         && s'.shards == s.shards[i := if g.pending == 1 then Last else Finished] && s'.owner == s.owner
         && s'.group == g.(pending := g.pending - 1, closer := i)
       case Last => s'.shards == s.shards[i := Told] && s'.group == g && s'.owner == s.owner.(failures := g.failed)
       case Told => s'.shards == s.shards[i := Resumed] && s'.group == g && s'.owner == Resume(s.owner)
       case Resumed => s'.shards == s.shards[i := Finished] && s'.group == Destroyed && s'.owner == s.owner
       case _ => false
  }

  ghost predicate Next(s: State, s': State) {
    && Shaped(s)
    && (LaunchStep(s, s') || exists i: nat :: ShardStep(s, s', i))
  }

  ghost predicate NextAt(run: seq<State>, i: nat)
    requires i + 1 < |run|
  {
    Next(run[i], run[i + 1])
  }

  ghost predicate IsRun(run: seq<State>) {
    && |run| > 0 && Init(run[0])
    && forall i: nat | i + 1 < |run| :: NextAt(run, i)
  }

  // ---- Invariant ----

  predicate Busy(h: Shard) {
    h.Last? || h.Told? || h.Resumed?
  }

  // Targets that have yet to lower `pending`.
  function Open(s: State): set<nat>
    requires Shaped(s)
  {
    set i: nat | i < |s.shards| && Target(s.call, i)
                 && (s.shards[i].Unlaunched? || s.shards[i].Launched? || s.shards[i].Ended?)
  }

  // Failed targets that have added themselves to `failed`.
  function Counted(s: State): set<nat>
    requires Shaped(s)
  {
    set i: nat | i < |s.shards| && Target(s.call, i) && !s.call.ok[i] && !s.shards[i].Unlaunched? && !s.shards[i].Launched?
  }

  // Shards below the launcher's index have been launched, the others have not.
  ghost predicate LauncherOk(s: State)
    requires Shaped(s)
  {
    && (forall i: nat | i < |s.shards| && s.shards[i] != Unlaunched :: Target(s.call, i))
    && match s.launcher
       case Start => forall i: nat | i < |s.shards| :: s.shards[i] == Unlaunched
       case Loop(n) => forall i: nat | i < |s.shards| && Target(s.call, i) :: s.shards[i] == Unlaunched <==> n <= i
       case Inline(n) => forall i: nat | i < |s.shards| && Target(s.call, i) :: s.shards[i] == Unlaunched <==> n < i
       case Returned => forall i: nat | i < |s.shards| && Target(s.call, i) :: s.shards[i] != Unlaunched
  }

  ghost predicate GroupOk(s: State)
    requires Shaped(s)
  {
    match s.group
    case NoGroup =>
      && (s.launcher == Start || Targets(s.call) == {})
      && (forall i: nat | i < |s.shards| :: s.shards[i] == Unlaunched)
    case Live(pending, failed, closer) =>
      && s.launcher != Start && Targets(s.call) != {}
      && pending == |Open(s)| && failed == |Counted(s)|
      && (pending == 0 ==> closer < |s.shards| && Busy(s.shards[closer]))
      && (forall i: nat | i < |s.shards| && Busy(s.shards[i]) :: pending == 0 && i == closer)
    case Destroyed =>
      && s.launcher != Start && Targets(s.call) != {}
      && (forall i: nat | i < |s.shards| && Target(s.call, i) :: s.shards[i] == Finished)
  }

  // The owner is posted and the group about to be destroyed.
  predicate Closing(s: State) {
    s.group.Live? && s.group.pending == 0 && s.group.closer < |s.shards| && s.shards[s.group.closer] == Resumed
  }

  ghost predicate OwnerOk(s: State, before: nat)
    requires Shaped(s)
  {
    && (s.launcher == Start ==> s.owner == Owner(before, []))
    && (Targets(s.call) == {} ==> s.owner == Owner(before, if s.launcher == Start then [] else [before]))
    && (s.group.Live? ==>
          && (forall i: nat | i < |s.shards| && s.shards[i] == Told :: s.owner.failures == |Failures(s.call)|)
          && (s.owner.resumes == if Closing(s) then [|Failures(s.call)|] else []))
    && (s.group == Destroyed ==> s.owner.resumes == [|Failures(s.call)|])
  }

  ghost predicate Inv(s: State, before: nat) {
    && Shaped(s)
    && LauncherOk(s) && GroupOk(s) && OwnerOk(s, before)
  }

  // ---- Steps keep the invariant ----

  lemma NoTargets(c: Call)
    requires Targets(c) == {}
    ensures forall i: nat | i < |c.nonEmpty| :: !Target(c, i)
  {
    forall i: nat | i < |c.nonEmpty|
      ensures !Target(c, i)
    {
      assert i !in Targets(c);
    }
  }

  lemma StartKeepsInv(s: State, s': State, before: nat)
    requires Inv(s, before) && LaunchStep(s, s') && s.launcher == Start
    ensures Inv(s', before)
  {
    if Targets(s.call) == {} {
      NoTargets(s.call);
    }
    assert Open(s') == Targets(s.call);
    assert Counted(s') == {};
  }

  lemma LoopKeepsLauncher(s: State, s': State)
    requires Shaped(s) && LauncherOk(s) && LaunchStep(s, s') && s.launcher != Start
    ensures Shaped(s') && LauncherOk(s') && Open(s') == Open(s) && Counted(s') == Counted(s)
    ensures s'.group == s.group && s'.owner == s.owner && s'.launcher != Start
    ensures forall i: nat | i < |s.shards| ::
              s'.shards[i] == s.shards[i] || (s.shards[i] == Unlaunched && s'.shards[i] == Launched && i in Open(s))
  {
  }

  lemma LoopKeepsInv(s: State, s': State, before: nat)
    requires Inv(s, before) && LaunchStep(s, s') && s.launcher != Start
    ensures Inv(s', before)
  {
    if Targets(s.call) == {} {
      NoTargets(s.call);
    }
    LoopKeepsLauncher(s, s');
  }

  // With nothing open, everyone who fails has been counted.
  lemma AllCounted(s: State)
    requires Shaped(s) && Open(s) == {}
    ensures Counted(s) == Failures(s.call)
  {
    forall i: nat | i < |s.shards| && Target(s.call, i)
      ensures !s.shards[i].Unlaunched? && !s.shards[i].Launched? && !s.shards[i].Ended?
    {
      assert i !in Open(s);
    }
  }

  lemma EndKeepsOpen(s: State, s': State, i: nat)
    requires Shaped(s) && LauncherOk(s) && ShardStep(s, s', i) && s.shards[i] == Launched
    ensures Shaped(s') && LauncherOk(s') && Open(s') == Open(s) && i in Open(s)
  {
  }

  lemma EndKeepsCounts(s: State, s': State, i: nat)
    requires Shaped(s) && ShardStep(s, s', i) && s.shards[i] == Launched && Target(s.call, i)
    ensures Shaped(s') && |Counted(s')| == |Counted(s)| + if s.call.ok[i] then 0 else 1
  {
    assert i !in Counted(s);
    assert Counted(s') == Counted(s) + if s.call.ok[i] then {} else {i};
  }

  lemma EndKeepsInv(s: State, s': State, i: nat, before: nat)
    requires Inv(s, before) && ShardStep(s, s', i) && s.shards[i] == Launched
    ensures Inv(s', before)
  {
    EndKeepsOpen(s, s', i);
    EndKeepsCounts(s, s', i);
  }

  lemma LowerKeepsInv(s: State, s': State, i: nat, before: nat)
    requires Inv(s, before) && ShardStep(s, s', i) && s.shards[i] == Ended
    ensures Inv(s', before)
  {
    assert i in Open(s) && Open(s') == Open(s) - {i};
    assert Counted(s') == Counted(s);
    if s.group.pending == 1 {
      assert |Open(s')| == 0;
    }
  }

  lemma ResumeKeepsInv(s: State, s': State, i: nat, before: nat)
    requires Inv(s, before) && ShardStep(s, s', i) && Busy(s.shards[i])
    ensures Inv(s', before)
  {
    assert Open(s) == {};
    AllCounted(s);
    assert Open(s') == Open(s) && Counted(s') == Counted(s);
    forall j: nat | j < |s.shards| && Target(s.call, j)
      ensures j != i ==> s.shards[j] == Finished
    {
      assert j !in Open(s);
    }
  }

  lemma StepKeepsInv(s: State, s': State, before: nat)
    requires Inv(s, before) && Next(s, s')
    ensures Inv(s', before) && s'.call == s.call
  {
    if LaunchStep(s, s') {
      if s.launcher == Start {
        StartKeepsInv(s, s', before);
      } else {
        LoopKeepsInv(s, s', before);
      }
    } else {
      var i: nat :| ShardStep(s, s', i);
      if Busy(s.shards[i]) {
        ResumeKeepsInv(s, s', i, before);
      } else if s.shards[i] == Ended {
        LowerKeepsInv(s, s', i, before);
      } else {
        EndKeepsInv(s, s', i, before);
      }
    }
  }

  lemma {:induction false} RunInv(run: seq<State>, i: nat)
    requires IsRun(run) && i < |run|
    ensures Inv(run[i], run[0].owner.failures) && run[i].call == run[0].call
  {
    if i > 0 {
      RunInv(run, i - 1);
      assert NextAt(run, i - 1);
      StepKeepsInv(run[i - 1], run[i], run[0].owner.failures);
    }
  }

  // ---- What fork/join promises ----

  ghost predicate AllDone(s: State) {
    && s.launcher == Returned
    && forall i: nat | i < |s.shards| :: s.shards[i] == Unlaunched || s.shards[i] == Finished
  }

  /** The owner is never resumed twice, and is resumed only after every launched shard has
    * completed; when all is done it has been resumed once and the group is gone.
    */
  lemma ResumedOnceAfterAll(run: seq<State>, n: nat)
    requires IsRun(run) && n < |run|
    ensures Shaped(run[n]) && |run[n].owner.resumes| <= 1
    ensures run[n].owner.resumes != [] ==>
              forall i: nat | i < |run[n].shards| && Target(run[n].call, i) ::
                run[n].shards[i] == Resumed || run[n].shards[i] == Finished
    ensures AllDone(run[n]) ==> |run[n].owner.resumes| == 1 && !run[n].group.Live?
  {
    RunInv(run, n);
    var s := run[n];
    if Targets(s.call) == {} {
      NoTargets(s.call);
    }
    if s.group.Live? && s.owner.resumes != [] {
      assert Open(s) == {};
      forall i: nat | i < |s.shards| && Target(s.call, i)
        ensures s.shards[i] == Resumed || s.shards[i] == Finished
      {
        assert i !in Open(s);
      }
    }
    assert AllDone(s) ==> Open(s) == {};
  }

  /** Every access to the group finds it alive, and it is destroyed only when the launching
    * loop has nothing left to launch.
    */
  lemma GroupOutlivesUsers(run: seq<State>, n: nat, i: nat)
    requires IsRun(run) && n < |run| && i < |run[n].shards|
    ensures Shaped(run[n])
    ensures run[n].shards[i] != Unlaunched && run[n].shards[i] != Finished ==> run[n].group.Live?
    ensures run[n].group == Destroyed && Target(run[n].call, i) ==> run[n].shards[i] == Finished
  {
    RunInv(run, n);
  }

  // Shards are posted to the thread they belong to, or run in place if that is the launching one.
  ghost predicate Placed(s: State)
    requires Shaped(s)
  {
    && (forall i: nat :: i in s.posts <==>
          i < |s.shards| && s.shards[i] != Unlaunched && s.call.begin + i != s.call.here)
    && (forall i: nat | i in s.posts :: s.posts[i] == s.call.begin + i)
    && (s.launcher.Inline? ==>
          s.call.begin + s.launcher.i == s.call.here && s.launcher.i < |s.shards| && s.shards[s.launcher.i] != Unlaunched)
  }

  lemma LaunchKeepsPlaced(s: State, s': State)
    requires Shaped(s) && LauncherOk(s) && Placed(s) && LaunchStep(s, s')
    ensures Shaped(s') && Placed(s')
  {
  }

  lemma ShardKeepsPlaced(s: State, s': State, i: nat)
    requires Shaped(s) && Placed(s) && ShardStep(s, s', i)
    ensures Shaped(s') && Placed(s')
  {
  }

  lemma {:induction false} RunPlaced(run: seq<State>, n: nat)
    requires IsRun(run) && n < |run|
    ensures Shaped(run[n]) && Placed(run[n])
  {
    if n > 0 {
      RunPlaced(run, n - 1);
      RunInv(run, n - 1);
      assert NextAt(run, n - 1);
      if LaunchStep(run[n - 1], run[n]) {
        LaunchKeepsPlaced(run[n - 1], run[n]);
      } else {
        var i: nat :| ShardStep(run[n - 1], run[n], i);
        ShardKeepsPlaced(run[n - 1], run[n], i);
      }
    }
  }

  /** A launched shard was posted, to the thread that is `begin` plus its number, if and only if
    * that is not the launching thread; the launcher itself runs a shard only if it is.
    */
  lemma RunsWhereItBelongs(run: seq<State>, n: nat, i: nat)
    requires IsRun(run) && n < |run| && i < |run[n].shards|
    ensures run[n].shards[i] != Unlaunched ==> (i in run[n].posts <==> run[n].call.begin + i != run[n].call.here)
    ensures i in run[n].posts ==> run[n].shards[i] != Unlaunched && run[n].posts[i] == run[n].call.begin + i
    ensures run[n].launcher == Inline(i) ==> run[n].call.begin + i == run[n].call.here && i !in run[n].posts
  {
    RunPlaced(run, n);
  }

  /** The failure count the owner finds is the number of shards that failed if and only if
    * some shard was launched or the count left by an earlier call was zero: a call with
    * nothing to launch resumes the owner without storing a count.
    */
  lemma ResumedWithExactCount(run: seq<State>, n: nat)
    requires IsRun(run) && n < |run| && |run[n].owner.resumes| == 1
    ensures Shaped(run[n])
    ensures run[n].owner.resumes[0] == |Failures(run[n].call)|
       <==> Targets(run[n].call) != {} || run[0].owner.failures == 0
  {
    RunInv(run, n);
    var c := run[n].call;
    if Targets(c) == {} {
      assert Failures(c) <= Targets(c);
      assert Failures(c) == {};
    }
  }

  // Two empty shards, skipped, after a call that ended with one failure.
  lemma StaleCountIsSeen() returns (run: seq<State>)
    ensures IsRun(run) && |run| == 2 && Shaped(run[1])
    ensures run[1].owner.resumes == [1] && |Failures(run[1].call)| == 0
  {
    var c := Call(true, [false, false], 0, 0, [true, true]);
    var s := State(c, Start, [Unlaunched, Unlaunched], NoGroup, Owner(1, []), map[]);
    assert Targets(c) == {};
    assert Failures(c) == {};
    run := [s, s.(launcher := Returned, owner := Resume(s.owner))];
    assert LaunchStep(run[0], run[1]);
    assert NextAt(run, 0);
  }
}
