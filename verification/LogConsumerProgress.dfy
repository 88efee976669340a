/** Ready records can always be drained: every run in which the consumer has not finished and no
  * scheduling was refused can be continued, with nothing new being logged, until no record is ready
  * or the consumer has finished because it was asked to.
  */
module LogConsumerProgress {
  import opened Runs
  import opened LogConsumer

  ghost predicate BeginsNothing(s: State, s': State) {
    forall t | t in s.wakers && s.wakers[t] == Out :: t in s'.wakers && s'.wakers[t] == Out
  }

  ghost predicate StepAt(run: seq<State>, i: nat)
    requires i + 1 < |run|
  {
    BeginsNothing(run[i], run[i + 1])
  }

  // A run in which no thread announces a record or wakes the consumer anew from state `from` on.
  ghost predicate NothingNew(run: seq<State>, from: nat) {
    && IsRun(run) && from < |run|
    && forall i: nat | from <= i && i + 1 < |run| :: StepAt(run, i)
  }

  lemma LongerRun(run: seq<State>, s': State)
    requires IsRun(run) && Next(Last(run), s')
    ensures IsRun(run + [s'])
  {
    var longer := run + [s'];
    forall i: nat | i + 1 < |longer|
      ensures NextAt(longer, i)
    {
      assert i + 1 < |run| ==> NextAt(run, i);
    }
  }

  lemma GoOn(run: seq<State>, from: nat, s': State) returns (longer: seq<State>)
    requires NothingNew(run, from) && Next(Last(run), s') && BeginsNothing(Last(run), s')
    ensures NothingNew(longer, from) && longer == run + [s'] && Last(longer) == s'
  {
    longer := run + [s'];
    LongerRun(run, s');
    forall i: nat | from <= i && i + 1 < |longer|
      ensures StepAt(longer, i)
    {
      assert i + 1 < |run| ==> StepAt(run, i);
    }
  }

  // Records are ready, and the consumer is there to see to them.
  predicate Open(s: State) {
    !s.hist.rejected && !s.mem.finished && s.mem.ready > 0
  }

  predicate Seen(s: State) {
    s.mem.ready == 0 || s.mem.finished
  }

  // ---- Inside a run ----

  function ToDrain(s: State): nat {
    match s.task
    case Drain => 0
    case MarkRunning => 1
    case Parked => 2
    case StoreActive => 3
    case CheckReady => 3
    case CheckStop => 4
    case RecheckReady => 4
    case StoreParking => 5
    case SetFinished => 1
    case StoreFinished => 2
    case _ => 0
  }

  // A run that is owed to a parked task, or goes on and is not about to park.
  predicate Turning(s: State) {
    (s.task == Parked && s.owed) || (InRun(s.task) && s.task != Done && s.task != TryIdle)
  }

  lemma TurnStep(s: State) returns (m: State)
    requires Open(s) && Turning(s)
    ensures Next(s, m) && m.wakers == s.wakers
    ensures !m.hist.rejected && (Seen(m) || (Open(m) && Turning(m) && ToDrain(m) < ToDrain(s)))
  {
    var mem := s.mem;
    if s.task == Parked {
      m := s.(owed := false, task := MarkRunning);
      assert RunStep(s, m, 0, false);
    } else if s.task == MarkRunning {
      m := s.(mem := mem.(wake := Active), task := Drain);
      assert RunStep(s, m, 0, false);
    } else if s.task == Drain {
      m := s.(mem := mem.(ready := 0));
      assert RunStep(s, m, mem.ready, false);
    } else if s.task == CheckStop {
      m := s.(task := CheckReady);
      assert RunStep(s, m, 0, false);
    } else if s.task == CheckReady {
      m := s.(owed := true, task := Parked);
      assert RunStep(s, m, 0, false);
    } else {
      m := ParkingStep(s);
    }
  }

  lemma ParkingStep(s: State) returns (m: State)
    requires Open(s) && s.task in {StoreParking, RecheckReady, StoreActive, StoreFinished, SetFinished}
    ensures Next(s, m) && m.wakers == s.wakers
    ensures !m.hist.rejected && (Seen(m) || (Open(m) && Turning(m) && ToDrain(m) < ToDrain(s)))
  {
    var mem := s.mem;
    if s.task == StoreParking {
      m := s.(mem := mem.(wake := Parking), task := RecheckReady);
    } else if s.task == RecheckReady {
      m := s.(task := StoreActive);
    } else if s.task == StoreActive {
      m := s.(mem := mem.(wake := Active), owed := true, task := Parked);
    } else if s.task == StoreFinished {
      m := s.(mem := mem.(wake := Active), task := SetFinished);
    } else {
      m := s.(mem := mem.(finished := true), task := Done);
    }
    assert ParkStep(s, m, false);
  }

  lemma {:induction false} TurnDrains(run: seq<State>, from: nat) returns (longer: seq<State>)
    requires NothingNew(run, from) && Open(Last(run)) && Turning(Last(run))
    ensures NothingNew(longer, from) && run <= longer && Seen(Last(longer)) && !Last(longer).hist.rejected
    decreases ToDrain(Last(run))
  {
    var m := TurnStep(Last(run));
    longer := GoOn(run, from, m);
    if !Seen(m) {
      longer := TurnDrains(longer, from);
    }
  }

  // ---- A waker that found Idle ----

  // The task is between runs, or just about to be.
  predicate Between(s: State) {
    s.task == Parked || s.task == ReturnPending
  }

  lemma OwedDrains(run: seq<State>, from: nat) returns (longer: seq<State>)
    requires NothingNew(run, from) && Open(Last(run)) && Between(Last(run)) && Last(run).owed
    ensures NothingNew(longer, from) && run <= longer && Seen(Last(longer)) && !Last(longer).hist.rejected
  {
    var s := Last(run);
    longer := run;
    if s.task == ReturnPending {
      var m := s.(task := Parked);
      assert ParkStep(s, m, false);
      longer := GoOn(run, from, m);
    }
    longer := TurnDrains(longer, from);
  }

  lemma ScheduleDrains(run: seq<State>, from: nat, t: nat) returns (longer: seq<State>)
    requires NothingNew(run, from) && Open(Last(run)) && Between(Last(run))
    requires t in Last(run).wakers && Last(run).wakers[t].Schedule?
    ensures NothingNew(longer, from) && run <= longer && Seen(Last(longer)) && !Last(longer).hist.rejected
  {
    var s := Last(run);
    var m := s.(owed := true, hist := s.hist.(wakes := s.hist.wakes + 1), wakers := s.wakers[t := Out]);
    assert ScheduleStep(s, m, t);
    longer := GoOn(run, from, m);
    longer := OwedDrains(longer, from);
  }

  lemma ClaimDrains(run: seq<State>, from: nat, t: nat) returns (longer: seq<State>)
    requires NothingNew(run, from) && Open(Last(run)) && Between(Last(run))
    requires t in Last(run).wakers && (Last(run).wakers[t].Claim? || Last(run).wakers[t].Schedule?)
    ensures NothingNew(longer, from) && run <= longer && Seen(Last(longer)) && !Last(longer).hist.rejected
  {
    var s := Last(run);
    longer := run;
    if s.wakers[t].Claim? {
      var m := s.(mem := s.mem.(started := true), wakers := s.wakers[t := Schedule(!s.mem.started)]);
      assert NotifyStep(s, m, t, false);
      longer := GoOn(run, from, m);
    }
    longer := ScheduleDrains(longer, from, t);
  }

  // ---- A waker that raised the count ----

  lemma ExchangeDrains(run: seq<State>, from: nat, t: nat) returns (longer: seq<State>)
    requires NothingNew(run, from) && Open(Last(run)) && Between(Last(run)) && Last(run).mem.wake == Idle
    requires t in Last(run).wakers && Last(run).wakers[t].Exchange?
    ensures NothingNew(longer, from) && run <= longer && Seen(Last(longer)) && !Last(longer).hist.rejected
  {
    var s := Last(run);
    var m := s.(mem := s.mem.(wake := Active), wakers := s.wakers[t := Claim]);
    assert NotifyStep(s, m, t, false);
    longer := GoOn(run, from, m);
    longer := ClaimDrains(longer, from, t);
  }

  lemma RaiserDrains(run: seq<State>, from: nat, t: nat) returns (longer: seq<State>)
    requires NothingNew(run, from) && Open(Last(run)) && Between(Last(run)) && Last(run).mem.wake == Idle
    requires t in Last(run).wakers && Raises(Last(run).wakers[t])
    ensures NothingNew(longer, from) && run <= longer && Seen(Last(longer)) && !Last(longer).hist.rejected
  {
    var s := Last(run);
    longer := run;
    if s.wakers[t].Check? {
      var m := s.(wakers := s.wakers[t := Exchange(true)]);
      assert NotifyStep(s, m, t, false);
      longer := GoOn(run, from, m);
    }
    longer := ExchangeDrains(longer, from, t);
  }

  // Nobody runs the task: it is owed a run, or a waker will schedule one, or will find Idle.
  lemma BetweenDrains(run: seq<State>, from: nat) returns (longer: seq<State>)
    requires NothingNew(run, from) && Open(Last(run)) && Between(Last(run))
    ensures NothingNew(longer, from) && run <= longer && Seen(Last(longer)) && !Last(longer).hist.rejected
  {
    var s := Last(run);
    RunInv(run, |run| - 1);
    if s.owed {
      longer := OwedDrains(run, from);
    } else if t :| t in Claimers(s.wakers) {
      longer := ClaimDrains(run, from, t);
    } else {
      assert |Claimers(s.wakers)| == 0;
      var t :| t in Raisers(s.wakers);
      longer := RaiserDrains(run, from, t);
    }
  }

  // About to park, or not, by whether a waker came in between.
  lemma ParkerDrains(run: seq<State>, from: nat) returns (longer: seq<State>)
    requires NothingNew(run, from) && Open(Last(run)) && Last(run).task == TryIdle
    ensures NothingNew(longer, from) && run <= longer && Seen(Last(longer)) && !Last(longer).hist.rejected
  {
    var s := Last(run);
    var m := if s.mem.wake == Parking then
               s.(mem := s.mem.(wake := Idle), task := ReturnPending, hist := s.hist.(idles := s.hist.idles + 1))
             else s.(owed := true, task := Parked);
    assert ParkStep(s, m, false);
    longer := GoOn(run, from, m);
    longer := BetweenDrains(longer, from);
  }

  /** However a run has gone, as long as no scheduling was refused, it can be continued with nothing
    * new being announced until no record is ready or the consumer has finished.
    */
  lemma ReadyRecordsAreDrained(run: seq<State>) returns (longer: seq<State>)
    requires IsRun(run) && !Last(run).hist.rejected
    ensures NothingNew(longer, |run| - 1) && run <= longer && Seen(Last(longer)) && !Last(longer).hist.rejected
  {
    var s, from := Last(run), |run| - 1;
    RunInv(run, from);
    longer := run;
    if !Seen(s) {
      if Between(s) {
        longer := BetweenDrains(run, from);
      } else if s.task == TryIdle {
        longer := ParkerDrains(run, from);
      } else {
        longer := TurnDrains(run, from);
      }
    }
  }

  // ---- And then it parks ----

  // No record is ready, and the consumer has not finished.
  predicate Dry(s: State) {
    !s.hist.rejected && !s.mem.finished && s.mem.ready == 0
  }

  function ToReturn(w: Waker): nat {
    match w
    case Check(_) => 4
    case Exchange(_) => 3
    case Claim => 2
    case Schedule(_) => 1
    case _ => 0
  }

  lemma WakerOn(s: State, t: nat) returns (m: State)
    requires Dry(s) && NoUndo(s) && t in s.wakers && s.wakers[t] != Out
    ensures Next(s, m) && Dry(m) && t in m.wakers && m.wakers == s.wakers[t := m.wakers[t]]
    ensures ToReturn(m.wakers[t]) < ToReturn(s.wakers[t])
  {
    var w, mem := s.wakers[t], s.mem;
    if w.Check? {
      m := s.(wakers := s.wakers[t := Exchange(w.raised)]);
      assert NotifyStep(s, m, t, false);
    } else if w.Exchange? {
      m := s.(mem := mem.(wake := Active), wakers := s.wakers[t := if mem.wake == Idle then Claim else Out]);
      assert NotifyStep(s, m, t, false);
    } else if w.Claim? {
      m := s.(mem := mem.(started := true), wakers := s.wakers[t := Schedule(!mem.started)]);
      assert NotifyStep(s, m, t, false);
    } else {
      m := s.(owed := true, hist := s.hist.(wakes := s.hist.wakes + 1), wakers := s.wakers[t := Out]);
      assert ScheduleStep(s, m, t);
    }
  }

  lemma {:induction false} ReturnOf(run: seq<State>, from: nat, t: nat) returns (longer: seq<State>)
    requires NothingNew(run, from) && Dry(Last(run)) && t in Last(run).wakers
    ensures NothingNew(longer, from) && run <= longer && Dry(Last(longer))
    ensures Last(longer).wakers == Last(run).wakers[t := Out]
    decreases ToReturn(Last(run).wakers[t])
  {
    longer := run;
    if Last(run).wakers[t] != Out {
      RunInv(run, |run| - 1);
      var m := WakerOn(Last(run), t);
      longer := GoOn(run, from, m);
      longer := ReturnOf(longer, from, t);
    } else {
      assert Last(run).wakers == Last(run).wakers[t := Out];
    }
  }

  function StillIn(s: State): set<nat> {
    set t | t in s.wakers && s.wakers[t] != Out
  }

  lemma {:induction false} AllReturn(run: seq<State>, from: nat) returns (longer: seq<State>)
    requires NothingNew(run, from) && Dry(Last(run))
    ensures NothingNew(longer, from) && run <= longer && Dry(Last(longer)) && StillIn(Last(longer)) == {}
    decreases StillIn(Last(run))
  {
    longer := run;
    if t :| t in StillIn(Last(run)) {
      longer := ReturnOf(run, from, t);
      assert StillIn(Last(longer)) == StillIn(Last(run)) - {t};
      longer := AllReturn(longer, from);
    }
  }

  function ToPark(s: State): nat {
    match s.task
    case Parked => if s.owed then 9 else 0
    case ReturnPending => if s.owed then 10 else 1
    case TryIdle => if s.mem.wake == Parking then 2 else 10
    case RecheckReady => if s.mem.wake == Parking then 3 else 11
    case StoreParking => 4
    case CheckReady => 5
    case CheckStop => 6
    case Drain => 7
    case MarkRunning => 8
    case StoreActive => 10
    case SetFinished => 1
    case StoreFinished => 2
    case Done => 0
  }

  // Nearer to parking, or finished.
  ghost predicate ParksOn(s: State, m: State) {
    && Next(s, m) && m.wakers == s.wakers
    && (m.mem.finished || (Dry(m) && ToPark(m) < ToPark(s)))
  }

  lemma DryRunStep(s: State) returns (m: State)
    requires Dry(s) && ((s.task == Parked && s.owed) || s.task in {MarkRunning, Drain, CheckStop, CheckReady})
    ensures ParksOn(s, m)
  {
    if s.task == Parked {
      m := s.(owed := false, task := MarkRunning);
    } else if s.task == MarkRunning {
      m := s.(mem := s.mem.(wake := Active), task := Drain);
    } else {
      m := s.(task := if s.task == Drain then CheckStop else if s.task == CheckStop then CheckReady else StoreParking);
    }
    assert RunStep(s, m, 0, false);
  }

  lemma DryParkStep(s: State) returns (m: State)
    requires Dry(s) && s.task != Done && s.task !in {Parked, MarkRunning, Drain, CheckStop, CheckReady}
    requires InRun(s.task) ==> !s.owed
    ensures ParksOn(s, m)
  {
    var mem := s.mem;
    if s.task == RecheckReady {
      m := s.(task := TryIdle);
    } else if s.task == TryIdle {
      m := if mem.wake == Parking then
             s.(mem := mem.(wake := Idle), task := ReturnPending, hist := s.hist.(idles := s.hist.idles + 1))
           else s.(owed := true, task := Parked);
    } else if s.task == ReturnPending {
      m := s.(task := Parked);
    } else if s.task == StoreParking {
      m := s.(mem := mem.(wake := Parking), task := RecheckReady);
    } else if s.task == StoreActive {
      m := s.(mem := mem.(wake := Active), owed := true, task := Parked);
    } else if s.task == StoreFinished {
      m := s.(mem := mem.(wake := Active), task := SetFinished);
    } else {
      m := s.(mem := mem.(finished := true), task := Done);
    }
    assert ParkStep(s, m, false);
  }

  predicate IsParked(s: State) {
    s.task == Parked && s.mem.wake == Idle && !s.owed && s.mem.ready == 0
  }

  lemma {:induction false} Parks(run: seq<State>, from: nat) returns (longer: seq<State>)
    requires NothingNew(run, from) && Dry(Last(run)) && StillIn(Last(run)) == {}
    ensures NothingNew(longer, from) && run <= longer && (IsParked(Last(longer)) || Last(longer).mem.finished)
    decreases ToPark(Last(run))
  {
    var s := Last(run);
    RunInv(run, |run| - 1);
    longer := run;
    if s.task == Parked && !s.owed {
      assert Claimers(s.wakers) <= StillIn(s);
      assert Claimers(s.wakers) == {};
    } else {
      var m;
      if s.task in {Parked, MarkRunning, Drain, CheckStop, CheckReady} {
        m := DryRunStep(s);
      } else {
        m := DryParkStep(s);
      }
      longer := GoOn(run, from, m);
      if !m.mem.finished {
        assert StillIn(m) == StillIn(s);
        longer := Parks(longer, from);
      }
    }
  }

  /** ... and after that until the consumer is parked with nothing ready and no run owed, or has
    * finished.
    */
  lemma DrainsThenParks(run: seq<State>) returns (longer: seq<State>)
    requires IsRun(run) && !Last(run).hist.rejected
    ensures NothingNew(longer, |run| - 1) && run <= longer && (IsParked(Last(longer)) || Last(longer).mem.finished)
  {
    longer := ReadyRecordsAreDrained(run);
    if !Last(longer).mem.finished {
      longer := AllReturn(longer, |run| - 1);
      longer := Parks(longer, |run| - 1);
    }
  }
}
