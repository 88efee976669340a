/** The free list makes progress: every run can be continued by the steps of one thread alone until
  * its pop or push returns, with exactly the slots that the free list calls for.
  */
module FreeStackProgress {
  import opened Runs
  import opened FreeStack

  ghost predicate StepAt(run: seq<State>, i: nat, t: nat)
    requires i + 1 < |run|
  {
    PopStep(run[i], run[i + 1], t) || PushStep(run[i], run[i + 1], t)
  }

  // A run whose steps from state `from` on are all steps of thread t.
  ghost predicate Alone(run: seq<State>, from: nat, t: nat) {
    && IsRun(run) && from < |run|
    && forall i: nat | from <= i && i + 1 < |run| :: StepAt(run, i, t)
  }

  lemma LongerRun(run: seq<State>, s': State)
    requires IsRun(run) && Next(Last(run), s')
    ensures IsRun(run + [s'])
  {
    var longer := run + [s'];
    forall i: nat | i + 1 < |longer|
      ensures NextAt(longer, i)
    {
      assert i + 1 < |run| ==> NextAt(run, i);
    }
  }

  lemma GoOn(run: seq<State>, from: nat, t: nat, s': State) returns (longer: seq<State>)
    requires Alone(run, from, t) && (PopStep(Last(run), s', t) || PushStep(Last(run), s', t))
    ensures Alone(longer, from, t) && longer == run + [s'] && Last(longer) == s'
  {
    longer := run + [s'];
    LongerRun(run, s');
    forall i: nat | from <= i && i + 1 < |longer|
      ensures StepAt(longer, i, t)
    {
      assert i + 1 < |run| ==> StepAt(run, i, t);
    }
  }

  lemma LastInv(run: seq<State>)
    requires IsRun(run)
    ensures Inv(Last(run))
  {
    RunInv(run, |run| - 1);
  }

  // ---- A pop alone ----

  // What a pop of up to max slots comes to.
  ghost predicate Pops(s: State, s': State, t: nat, max: nat) {
    if s.chain == [] then s' == To(s, t, Out) else TakesTop(s, s', t, Min(max, |s.chain|))
  }

  lemma PopsLater(s: State, m: State, s': State, t: nat, max: nat)
    requires t in m.threads && m == To(s, t, m.threads[t]) && Pops(m, s', t, max)
    ensures Pops(s, s', t, max)
  {
  }

  lemma ExchangeStep(s: State, t: nat) returns (m: State)
    requires Inv(s) && t in s.threads && s.threads[t].PopCas? && s.threads[t].h == s.head
    ensures PopStep(s, m, t) && Pops(s, m, t, s.threads[t].max)
  {
    var PopCas(max, h, taken, rest) := s.threads[t];
    assert ThreadOk(s, t, s.threads[t]);
    m := To(s, t, Out).(head := Head(rest, h.version + 1), chain := s.chain[|taken|..],
                        owner := Give(s.owner, taken, By(t)));
    PopEnds(s, m, t);
  }

  // How far a pop is from its return: a head that is no longer current costs another walk.
  function Rounds(s: State, pc: Pc): nat {
    if (pc.PopWalk? || pc.PopCas?) && pc.h == s.head then 0 else 1
  }

  function Walking(pc: Pc): nat {
    if pc.PopWalk? then 1 else 0
  }

  function Ahead(pc: Pc): int {
    if pc.PopWalk? then pc.max - |pc.taken| else 0
  }

  ghost predicate Nearer(s: State, pc: Pc, pc': Pc) {
    || Rounds(s, pc') < Rounds(s, pc)
    || (Rounds(s, pc') == Rounds(s, pc) && Walking(pc') < Walking(pc))
    || (Rounds(s, pc') == Rounds(s, pc) && Walking(pc') == Walking(pc) && 0 <= Ahead(pc') < Ahead(pc))
  }

  // Walks on, or begins a walk from the current head.
  lemma MoveStep(s: State, t: nat) returns (m: State)
    requires Inv(s) && t in s.threads && InPop(s.threads[t])
    requires s.threads[t].PopCas? ==> s.threads[t].h != s.head
    ensures PopStep(s, m, t) && t in m.threads && m == To(s, t, m.threads[t])
    ensures if m.threads[t] == Out then s.chain == []
            else InPop(m.threads[t]) && m.threads[t].max == s.threads[t].max && Nearer(s, s.threads[t], m.threads[t])
  {
    assert ThreadOk(s, t, s.threads[t]);
    if s.threads[t].PopWalk? {
      var PopWalk(max, h, taken, at) := s.threads[t];
      var rest := s.next[at];
      m := To(s, t, if |taken| + 1 < max && rest != Null then PopWalk(max, h, taken + [at], rest.i)
                    else PopCas(max, h, taken + [at], rest));
    } else {
      m := To(s, t, Walk(s.threads[t].max, s.head));
    }
  }

  /** However a run has gone, a pop that goes on alone returns, with the top of the chain: as many
    * slots as it asked for or all there are.
    */
  lemma {:induction false} PopAlone(run: seq<State>, from: nat, t: nat) returns (longer: seq<State>)
    requires Alone(run, from, t) && t in Last(run).threads && InPop(Last(run).threads[t])
    ensures Alone(longer, from, t) && run <= longer && Pops(Last(run), Last(longer), t, Last(run).threads[t].max)
    decreases Rounds(Last(run), Last(run).threads[t]), Walking(Last(run).threads[t]), Ahead(Last(run).threads[t])
  {
    LastInv(run);
    var s := Last(run);
    if s.threads[t].PopCas? && s.threads[t].h == s.head {
      var m := ExchangeStep(s, t);
      longer := GoOn(run, from, t, m);
    } else {
      var m := MoveStep(s, t);
      longer := GoOn(run, from, t, m);
      if m.threads[t] != Out {
        longer := PopAlone(longer, from, t);
        PopsLater(s, m, Last(longer), t, s.threads[t].max);
      }
    }
  }

  // ---- A push alone ----

  // These slots are free, on top of the chain, and only that and links have changed.
  ghost predicate Pushes(s: State, s': State, t: nat, slots: seq<nat>) {
    && s'.chain == slots + s.chain && |s'.owner| == |s.owner| && s'.threads == s.threads[t := Out]
    && forall i | 0 <= i < |s.owner| :: s'.owner[i] == if i in slots then Free else s.owner[i]
  }

  lemma PushesLater(s: State, m: State, s': State, t: nat, slots: seq<nat>)
    requires m.chain == s.chain && m.owner == s.owner && t in m.threads && m.threads == s.threads[t := m.threads[t]]
    requires Pushes(m, s', t, slots)
    ensures Pushes(s, s', t, slots)
  {
  }

  // How far a push is from its return.
  function Left(s: State, pc: Pc): nat {
    match pc
    case PushLink(slots, k) => 4 + if k < |slots| then |slots| - k else 0
    case PushLoad(_) => 2
    case PushLast(_, h) => if h == s.head then 1 else 3
    case PushCas(_, h) => if h == s.head then 0 else 2
    case _ => 0
  }

  // One step of a push that is nearer to its return and leaves chain and owners alone.
  ghost predicate PushMoves(s: State, m: State, t: nat) {
    && t in s.threads && t in m.threads && InPush(s.threads[t]) && InPush(m.threads[t]) && PushStep(s, m, t)
    && m.chain == s.chain && m.owner == s.owner && m.threads == s.threads[t := m.threads[t]]
    && m.threads[t].slots == s.threads[t].slots && Left(m, m.threads[t]) < Left(s, s.threads[t])
  }

  lemma LinkStep(s: State, t: nat) returns (m: State)
    requires Inv(s) && t in s.threads && s.threads[t].PushLink?
    ensures PushMoves(s, m, t)
  {
    var PushLink(slots, k) := s.threads[t];
    assert ThreadOk(s, t, s.threads[t]);
    m := To(s, t, if k + 1 < |slots| then PushLink(slots, k + 1) else PushLoad(slots))
         .(next := s.next[slots[k - 1] := Slot(slots[k])]);
  }

  lemma LastStep(s: State, t: nat) returns (m: State)
    requires Inv(s) && t in s.threads && s.threads[t].PushLast?
    ensures PushMoves(s, m, t)
  {
    var PushLast(slots, h) := s.threads[t];
    assert ThreadOk(s, t, s.threads[t]);
    m := To(s, t, PushCas(slots, h)).(next := s.next[slots[|slots| - 1] := h.first]);
  }

  // Loads the head, again if the exchange finds that it is no longer current.
  lemma LoadStep(s: State, t: nat) returns (m: State)
    requires t in s.threads && (s.threads[t].PushLoad? || (s.threads[t].PushCas? && s.threads[t].h != s.head))
    ensures PushMoves(s, m, t)
  {
    m := To(s, t, PushLast(s.threads[t].slots, s.head));
  }

  lemma PushExchangeStep(s: State, t: nat) returns (m: State)
    requires Inv(s) && t in s.threads && s.threads[t].PushCas? && s.threads[t].h == s.head
    ensures PushStep(s, m, t) && Pushes(s, m, t, s.threads[t].slots)
  {
    var PushCas(slots, h) := s.threads[t];
    assert ThreadOk(s, t, s.threads[t]);
    m := To(s, t, Out).(head := Head(Slot(slots[0]), h.version + 1), chain := slots + s.chain,
                        owner := Give(s.owner, slots, Free));
  }

  /** However a run has gone, a push that goes on alone returns, with all its slots free, in order,
    * on top of the chain.
    */
  lemma {:induction false} PushAlone(run: seq<State>, from: nat, t: nat) returns (longer: seq<State>)
    requires Alone(run, from, t) && t in Last(run).threads && InPush(Last(run).threads[t])
    ensures Alone(longer, from, t) && run <= longer && Pushes(Last(run), Last(longer), t, Last(run).threads[t].slots)
    decreases Left(Last(run), Last(run).threads[t])
  {
    LastInv(run);
    var s := Last(run);
    if s.threads[t].PushCas? && s.threads[t].h == s.head {
      var m := PushExchangeStep(s, t);
      longer := GoOn(run, from, t, m);
    } else {
      var m;
      if s.threads[t].PushLink? {
        m := LinkStep(s, t);
      } else if s.threads[t].PushLast? {
        m := LastStep(s, t);
      } else {
        m := LoadStep(s, t);
      }
      longer := GoOn(run, from, t, m);
      longer := PushAlone(longer, from, t);
      PushesLater(s, m, Last(longer), t, s.threads[t].slots);
    }
  }
}
