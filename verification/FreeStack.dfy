/** The free list of one object-pool block: a stack of slots linked through the slots, whose
  * head carries a version that every successful exchange advances. Pops walk the links
  * without protection; pushes and pops take any number of slots at once.
  *
  * One atomic access per step, any number of threads. A popped slot may pass from thread to
  * thread before it is pushed back: objects are released by other threads than those that
  * acquired them, and log records are popped by producers and pushed by the consumer. The free
  * list of the log record pool is the same protocol with pops of one slot. Versions do not wrap
  * here.
  */
module FreeStack {

  datatype Link = Null | Slot(i: nat)
  datatype Head = Head(first: Link, version: nat)
  datatype Owner = Free | By(t: nat)

  datatype Pc =
    | Out
    | PopLoad(max: nat)                                           // load the head
    | PopWalk(max: nat, h: Head, taken: seq<nat>, at: nat)        // load the link of slot `at`
    | PopCas(max: nat, h: Head, taken: seq<nat>, rest: Link)      // CAS the head past the taken slots
    | PushLink(slots: seq<nat>, k: nat)                           // link slot k - 1 to slot k
    | PushLoad(slots: seq<nat>)                                   // load the head
    | PushLast(slots: seq<nat>, h: Head)                          // link the last slot to the head
    | PushCas(slots: seq<nat>, h: Head)                           // CAS the head to the first slot

  datatype State = State(
    head: Head,
    next: seq<Link>,
    threads: map<nat, Pc>,
    chain: seq<nat>,                 // history: the free slots, top first
    owner: seq<Owner>)               // history: who may use each slot

  function LinkAt(chain: seq<nat>, k: nat): Link {
    if k < |chain| then Slot(chain[k]) else Null
  }

  // Following the links from `first` visits exactly the chain and then ends.
  ghost predicate Linked(next: seq<Link>, first: Link, chain: seq<nat>) {
    && first == LinkAt(chain, 0)
    && (forall k | 0 <= k < |chain| :: chain[k] < |next| && next[chain[k]] == LinkAt(chain, k + 1))
  }

  predicate Distinct(a: seq<nat>) {
    forall i, j | 0 <= i < j < |a| :: a[i] != a[j]
  }

  ghost predicate Init(s: State) {
    && |s.next| == |s.owner| == |s.chain| > 0
    && s.head == Head(Slot(0), 0)
    && (forall i | 0 <= i < |s.next| :: s.chain[i] == i && s.owner[i] == Free
                                        && s.next[i] == if i + 1 < |s.next| then Slot(i + 1) else Null)
    && (forall t | t in s.threads :: s.threads[t] == Out)
  }

  function To(s: State, t: nat, pc: Pc): State {
    s.(threads := s.threads[t := pc])
  }

  // Give the listed slots to `who`.
  function Give(owner: seq<Owner>, slots: seq<nat>, who: Owner): (r: seq<Owner>)
    requires forall k | 0 <= k < |slots| :: slots[k] < |owner|
    ensures |r| == |owner|
    ensures forall i | 0 <= i < |owner| :: r[i] == if i in slots then who else owner[i]
  {
    seq(|owner|, i requires 0 <= i < |owner| => if i in slots then who else owner[i])
  }

  // Begin to walk from a head that was just read.
  function Walk(max: nat, h: Head): Pc {
    if h.first == Null then Out else PopWalk(max, h, [], h.first.i)
  }

  ghost predicate PopStep(s: State, s': State, t: nat) {
    && t in s.threads
    && match s.threads[t]
       case Out => t in s'.threads && s'.threads[t].PopLoad? && s'.threads[t].max > 0 && s' == To(s, t, s'.threads[t])
       case PopLoad(max) => s' == To(s, t, Walk(max, s.head))
       case PopWalk(max, h, taken, at) =>
         && at < |s.next|
         && var rest := s.next[at];
            s' == To(s, t, if |taken| + 1 < max && rest != Null then PopWalk(max, h, taken + [at], rest.i)
                           else PopCas(max, h, taken + [at], rest))
       case PopCas(max, h, taken, rest) =>
         || s' == To(s, t, Walk(max, s.head))       // failed, possibly spuriously
         || (s.head == h && |taken| <= |s.chain| && (forall k | 0 <= k < |taken| :: taken[k] < |s.owner|)
             && s' == To(s, t, Out).(head := Head(rest, h.version + 1),
                                     chain := s.chain[|taken|..], owner := Give(s.owner, taken, By(t))))
       case _ => false
  }

  ghost predicate PushStep(s: State, s': State, t: nat) {
    && t in s.threads
    && match s.threads[t]
       case Out =>
         && t in s'.threads && (s'.threads[t].PushLink? || s'.threads[t].PushLoad?)
         && var slots := s'.threads[t].slots;
         && |slots| > 0 && Distinct(slots)
         && (forall k | 0 <= k < |slots| :: slots[k] < |s.owner| && s.owner[slots[k]] == By(t))
         && s' == To(s, t, if |slots| > 1 then PushLink(slots, 1) else PushLoad(slots))
       case PushLink(slots, k) =>
         && 0 < k < |slots| && slots[k - 1] < |s.next|
         && s' == To(s, t, if k + 1 < |slots| then PushLink(slots, k + 1) else PushLoad(slots))
                  .(next := s.next[slots[k - 1] := Slot(slots[k])])
       case PushLoad(slots) => s' == To(s, t, PushLast(slots, s.head))
       case PushLast(slots, h) =>
         && |slots| > 0 && slots[|slots| - 1] < |s.next|
         && s' == To(s, t, PushCas(slots, h)).(next := s.next[slots[|slots| - 1] := h.first])
       case PushCas(slots, h) =>
         || s' == To(s, t, PushLast(slots, s.head))
         || (s.head == h && |slots| > 0 && (forall k | 0 <= k < |slots| :: slots[k] < |s.owner|)
             && s' == To(s, t, Out).(head := Head(Slot(slots[0]), h.version + 1),
                                     chain := slots + s.chain, owner := Give(s.owner, slots, Free)))
       case _ => false
  }

  predicate InPush(pc: Pc) {
    pc.PushLink? || pc.PushLoad? || pc.PushLast? || pc.PushCas?
  }

  // The slot is part of a push under way.
  predicate Pushing(pc: Pc, slot: nat) {
    InPush(pc) && slot in pc.slots
  }

  // Thread t hands a slot it owns, and is not pushing, to thread u.
  ghost predicate HandOver(s: State, s': State, t: nat, u: nat, slot: nat) {
    && slot < |s.owner| && s.owner[slot] == By(t)
    && (t in s.threads ==> !Pushing(s.threads[t], slot))
    && s' == s.(owner := s.owner[slot := By(u)])
  }

  ghost predicate Next(s: State, s': State) {
    || (exists t: nat :: PopStep(s, s', t) || PushStep(s, s', t))
    || (exists t: nat, u: nat, slot: nat :: HandOver(s, s', t, u, slot))
  }

  ghost predicate NextAt(run: seq<State>, i: nat)
    requires i + 1 < |run|
  {
    Next(run[i], run[i + 1])
  }

  ghost predicate IsRun(run: seq<State>) {
    && |run| > 0 && Init(run[0])
    && forall i: nat | i + 1 < |run| :: NextAt(run, i)
  }

  // ---- The invariant ----

  ghost predicate ChainOk(s: State) {
    && |s.next| == |s.owner|
    && Distinct(s.chain) && Linked(s.next, s.head.first, s.chain)
    && (forall i | 0 <= i < |s.owner| :: s.owner[i] == Free <==> i in s.chain)
    && (forall i | 0 <= i < |s.next| && s.next[i] != Null :: s.next[i].i < |s.next|)
  }

  // If no exchange succeeded since h was read, the walk so far is the top of the chain.
  ghost predicate WalkOk(s: State, h: Head, taken: seq<nat>, rest: Link) {
    && h.version <= s.head.version
    && (rest != Null ==> rest.i < |s.next|)
    && (forall k | 0 <= k < |taken| :: taken[k] < |s.next|)
    && (h.version == s.head.version ==>
          h == s.head && |taken| <= |s.chain| && taken == s.chain[..|taken|] && rest == LinkAt(s.chain, |taken|))
  }

  // The slots being pushed belong to the pusher, and the first `done` links are in place.
  ghost predicate PushOk(s: State, t: nat, slots: seq<nat>, done: nat) {
    && 0 < |slots| && done < |slots| && Distinct(slots)
    && (forall k | 0 <= k < |slots| :: slots[k] < |s.next| && slots[k] < |s.owner| && s.owner[slots[k]] == By(t))
    && (forall k | 0 <= k < done :: s.next[slots[k]] == LinkAt(slots, k + 1))
  }

  ghost predicate ThreadOk(s: State, t: nat, pc: Pc) {
    match pc
    case Out => true
    case PopLoad(max) => max > 0
    case PopWalk(max, h, taken, at) => |taken| < max && WalkOk(s, h, taken, Slot(at))
    case PopCas(max, h, taken, rest) =>
      0 < |taken| <= max && WalkOk(s, h, taken, rest) && (|taken| == max || rest == Null)
    case PushLink(slots, k) => 0 < k && PushOk(s, t, slots, k - 1) && k < |slots|
    case PushLoad(slots) => |slots| > 0 && PushOk(s, t, slots, |slots| - 1)
    case PushLast(slots, h) =>
      && |slots| > 0 && PushOk(s, t, slots, |slots| - 1)
      && h.version <= s.head.version && (h.version == s.head.version ==> h == s.head)
      && (h.first != Null ==> h.first.i < |s.next|)
    case PushCas(slots, h) =>
      && |slots| > 0 && PushOk(s, t, slots, |slots| - 1) && s.next[slots[|slots| - 1]] == h.first
      && h.version <= s.head.version && (h.version == s.head.version ==> h == s.head)
      && (h.first != Null ==> h.first.i < |s.next|)
  }

  ghost predicate Inv(s: State) {
    ChainOk(s) && forall t | t in s.threads :: ThreadOk(s, t, s.threads[t])
  }

  lemma InitInv(s: State)
    requires Init(s)
    ensures Inv(s)
  {
    forall i | 0 <= i < |s.owner|
      ensures i in s.chain
    {
      assert s.chain[i] == i;
    }
  }

  // Steps that touch only the program counter of t.
  lemma MoveKeeps(s: State, t: nat, pc: Pc)
    requires Inv(s) && ThreadOk(s, t, pc)
    ensures Inv(To(s, t, pc))
  {
    var s' := To(s, t, pc);
    forall u | u in s'.threads
      ensures ThreadOk(s', u, s'.threads[u])
    {
      assert u != t ==> ThreadOk(s, u, s.threads[u]);
    }
  }

  lemma StartWalkOk(s: State, max: nat, t: nat)
    requires Inv(s) && max > 0
    ensures ThreadOk(s, t, Walk(max, s.head))
  {
  }

  lemma WalkOn(s: State, h: Head, taken: seq<nat>, at: nat)
    requires ChainOk(s) && WalkOk(s, h, taken, Slot(at))
    ensures WalkOk(s, h, taken + [at], s.next[at])
  {
    if h.version == s.head.version {
      assert s.chain[..|taken| + 1] == s.chain[..|taken|] + [s.chain[|taken|]];
    }
  }

  // What a thread knows survives an exchange of the head by another thread.
  lemma ExchangeElsewhere(s: State, s': State, u: nat, pc: Pc)
    requires ThreadOk(s, u, pc) && s'.next == s.next && |s'.owner| == |s.owner|
    requires s'.head.version == s.head.version + 1
    requires forall i | 0 <= i < |s.owner| && s.owner[i] == By(u) :: s'.owner[i] == By(u)
    ensures ThreadOk(s', u, pc)
  {
  }

  // ... and a link stored into a slot it does not own and that is not free.
  lemma StoreElsewhere(s: State, s': State, u: nat, pc: Pc, i: nat, link: Link)
    requires ThreadOk(s, u, pc) && i < |s.next| == |s.owner|
    requires s'.next == s.next[i := link] && s'.head == s.head && s'.chain == s.chain && s'.owner == s.owner
    requires s.owner[i] != By(u)
    ensures ThreadOk(s', u, pc)
  {
  }

  lemma StoreKeepsChain(s: State, s': State, i: nat, link: Link)
    requires ChainOk(s) && i < |s.next| && s.owner[i] != Free && (link != Null ==> link.i < |s.next|)
    requires s'.next == s.next[i := link] && s'.head == s.head && s'.chain == s.chain && s'.owner == s.owner
    ensures ChainOk(s')
  {
  }

  lemma DropTop(chain: seq<nat>, n: nat)
    requires Distinct(chain) && n <= |chain|
    ensures forall i :: i in chain[n..] <==> i in chain && i !in chain[..n]
  {
    assert chain == chain[..n] + chain[n..];
    forall i | i in chain[n..]
      ensures i !in chain[..n]
    {
      var k :| 0 <= k < |chain| - n && chain[n..][k] == i;
      assert chain[n + k] == i;
    }
  }

  lemma DropTopLinked(next: seq<Link>, first: Link, chain: seq<nat>, n: nat)
    requires Linked(next, first, chain) && n <= |chain|
    ensures Linked(next, LinkAt(chain, n), chain[n..])
  {
    forall k | 0 <= k < |chain| - n
      ensures chain[n..][k] < |next| && next[chain[n..][k]] == LinkAt(chain[n..], k + 1)
    {
      assert chain[n..][k] == chain[n + k];
    }
  }

  lemma PopKeepsChain(s: State, s': State, t: nat, n: nat)
    requires ChainOk(s) && n <= |s.chain| && (forall k | 0 <= k < n :: s.chain[..n][k] < |s.owner|)
    requires s'.next == s.next && s'.chain == s.chain[n..] && s'.owner == Give(s.owner, s.chain[..n], By(t))
    requires s'.head.first == LinkAt(s.chain, n)
    ensures ChainOk(s')
  {
    DropTop(s.chain, n);
    DropTopLinked(s.next, s.head.first, s.chain, n);
  }

  lemma PopCasKeeps(s: State, s': State, t: nat)
    requires Inv(s) && t in s.threads && s.threads[t].PopCas? && s.head == s.threads[t].h
    requires |s.threads[t].taken| <= |s.chain|
    requires forall k | 0 <= k < |s.threads[t].taken| :: s.threads[t].taken[k] < |s.owner|
    requires var PopCas(max, h, taken, rest) := s.threads[t];
             s' == To(s, t, Out).(head := Head(rest, h.version + 1),
                                  chain := s.chain[|taken|..], owner := Give(s.owner, taken, By(t)))
    ensures Inv(s')
  {
    assert ThreadOk(s, t, s.threads[t]);
    PopKeepsChain(s, s', t, |s.threads[t].taken|);
    forall u | u in s'.threads
      ensures ThreadOk(s', u, s'.threads[u])
    {
      if u != t {
        forall i | 0 <= i < |s.owner| && s.owner[i] == By(u)
          ensures s'.owner[i] == By(u)
        {
          assert i !in s.chain;
        }
        ExchangeElsewhere(s, s', u, s.threads[u]);
      }
    }
  }

  // A chain of linked slots in front of another chain is one chain.
  lemma JoinedLinks(next: seq<Link>, slots: seq<nat>, chain: seq<nat>, first: Link)
    requires |slots| > 0 && Linked(next, first, chain)
    requires forall k | 0 <= k < |slots| :: slots[k] < |next|
    requires forall k | 0 <= k < |slots| - 1 :: next[slots[k]] == LinkAt(slots, k + 1)
    requires next[slots[|slots| - 1]] == first
    ensures Linked(next, Slot(slots[0]), slots + chain)
  {
    var m, joined := |slots|, slots + chain;
    forall k | 0 <= k < |joined|
      ensures joined[k] < |next| && next[joined[k]] == LinkAt(joined, k + 1)
    {
      if k < m - 1 {
        assert next[slots[k]] == LinkAt(slots, k + 1);
      } else if k >= m {
        assert joined[k] == chain[k - m];
      }
    }
  }

  lemma JoinedDistinct(slots: seq<nat>, chain: seq<nat>)
    requires Distinct(slots) && Distinct(chain) && (forall k | 0 <= k < |slots| :: slots[k] !in chain)
    ensures Distinct(slots + chain)
  {
  }

  lemma PushCasKeepsChain(s: State, s': State, t: nat, slots: seq<nat>)
    requires ChainOk(s) && |slots| > 0 && PushOk(s, t, slots, |slots| - 1) && s.next[slots[|slots| - 1]] == s.head.first
    requires s'.next == s.next && s'.chain == slots + s.chain && s'.owner == Give(s.owner, slots, Free)
    requires s'.head.first == Slot(slots[0])
    ensures ChainOk(s')
  {
    forall k | 0 <= k < |slots|
      ensures slots[k] !in s.chain
    {
      assert s.owner[slots[k]] == By(t);
    }
    JoinedDistinct(slots, s.chain);
    JoinedLinks(s.next, slots, s.chain, s.head.first);
    forall i | 0 <= i < |s'.owner|
      ensures s'.owner[i] == Free <==> i in s'.chain
    {
      assert i in s'.chain <==> i in slots || i in s.chain;
    }
  }

  lemma PushCasKeeps(s: State, s': State, t: nat)
    requires Inv(s) && t in s.threads && s.threads[t].PushCas? && s.head == s.threads[t].h
    requires |s.threads[t].slots| > 0
    requires forall k | 0 <= k < |s.threads[t].slots| :: s.threads[t].slots[k] < |s.owner|
    requires var PushCas(slots, h) := s.threads[t];
             s' == To(s, t, Out).(head := Head(Slot(slots[0]), h.version + 1),
                                  chain := slots + s.chain, owner := Give(s.owner, slots, Free))
    ensures Inv(s')
  {
    var PushCas(slots, h) := s.threads[t];
    assert ThreadOk(s, t, s.threads[t]);
    PushCasKeepsChain(s, s', t, slots);
    forall u | u in s'.threads
      ensures ThreadOk(s', u, s'.threads[u])
    {
      if u != t {
        ExchangeElsewhere(s, s', u, s.threads[u]);
      }
    }
  }

  // Storing a link into the pusher's own slot.
  lemma StoreKeeps(s: State, s': State, t: nat, pc: Pc, i: nat, link: Link)
    requires Inv(s) && t in s.threads && i < |s.next| && s.owner[i] == By(t) && (link != Null ==> link.i < |s.next|)
    requires s' == To(s, t, pc).(next := s.next[i := link])
    requires ThreadOk(s', t, pc)
    ensures Inv(s')
  {
    StoreKeepsChain(s, s', i, link);
    forall u | u in s'.threads
      ensures ThreadOk(s', u, s'.threads[u])
    {
      if u != t {
        StoreElsewhere(s, s', u, s.threads[u], i, link);
      }
    }
  }

  lemma PopKeeps(s: State, s': State, t: nat)
    requires Inv(s) && PopStep(s, s', t)
    ensures Inv(s')
  {
    assert ThreadOk(s, t, s.threads[t]);
    match s.threads[t]
    case Out => MoveKeeps(s, t, s'.threads[t]);
    case PopLoad(max) =>
      StartWalkOk(s, max, t);
      MoveKeeps(s, t, s'.threads[t]);
    case PopWalk(max, h, taken, at) =>
      WalkOn(s, h, taken, at);
      MoveKeeps(s, t, s'.threads[t]);
    case PopCas(max, h, taken, rest) =>
      if s'.head == s.head {
        StartWalkOk(s, max, t);
        MoveKeeps(s, t, s'.threads[t]);
      } else {
        PopCasKeeps(s, s', t);
      }
  }

  lemma PushLinked(s: State, t: nat, slots: seq<nat>, k: nat)
    requires 0 < k < |slots| && PushOk(s, t, slots, k - 1) && |s.next| == |s.owner|
    ensures PushOk(s.(next := s.next[slots[k - 1] := Slot(slots[k])]), t, slots, k)
  {
  }

  lemma LinkKeeps(s: State, s': State, t: nat)
    requires Inv(s) && PushStep(s, s', t) && s.threads[t].PushLink?
    ensures Inv(s')
  {
    var PushLink(slots, k) := s.threads[t];
    assert ThreadOk(s, t, s.threads[t]);
    PushLinked(s, t, slots, k);
    StoreKeeps(s, s', t, s'.threads[t], slots[k - 1], Slot(slots[k]));
  }

  lemma LastKeeps(s: State, s': State, t: nat)
    requires Inv(s) && PushStep(s, s', t) && s.threads[t].PushLast?
    ensures Inv(s')
  {
    var PushLast(slots, h) := s.threads[t];
    assert ThreadOk(s, t, s.threads[t]);
    StoreKeeps(s, s', t, s'.threads[t], slots[|slots| - 1], h.first);
  }

  lemma PushKeeps(s: State, s': State, t: nat)
    requires Inv(s) && PushStep(s, s', t)
    ensures Inv(s')
  {
    assert ThreadOk(s, t, s.threads[t]);
    if s.threads[t].PushLink? {
      LinkKeeps(s, s', t);
    } else if s.threads[t].PushLast? {
      LastKeeps(s, s', t);
    } else if s'.head == s.head {
      MoveKeeps(s, t, s'.threads[t]);
    } else {
      PushCasKeeps(s, s', t);
    }
  }

  lemma HandOverPush(s: State, s': State, w: nat, slots: seq<nat>, done: nat, slot: nat, who: Owner)
    requires PushOk(s, w, slots, done) && slot < |s.owner| && s' == s.(owner := s.owner[slot := who])
    requires s.owner[slot] == By(w) ==> slot !in slots
    ensures PushOk(s', w, slots, done)
  {
    forall k | 0 <= k < |slots|
      ensures s'.owner[slots[k]] == By(w)
    {
      assert slots[k] in slots;
    }
  }

  lemma HandOverThread(s: State, s': State, w: nat, pc: Pc, slot: nat, who: Owner)
    requires ThreadOk(s, w, pc) && slot < |s.owner| && s' == s.(owner := s.owner[slot := who])
    requires s.owner[slot] == By(w) ==> !Pushing(pc, slot)
    ensures ThreadOk(s', w, pc)
  {
    match pc
    case PushLink(slots, k) => HandOverPush(s, s', w, slots, k - 1, slot, who);
    case PushLoad(slots) => HandOverPush(s, s', w, slots, |slots| - 1, slot, who);
    case PushLast(slots, _) => HandOverPush(s, s', w, slots, |slots| - 1, slot, who);
    case PushCas(slots, _) => HandOverPush(s, s', w, slots, |slots| - 1, slot, who);
    case _ =>
  }

  lemma HandOverChain(s: State, s': State, t: nat, u: nat, slot: nat)
    requires ChainOk(s) && slot < |s.owner| && s.owner[slot] == By(t) && s' == s.(owner := s.owner[slot := By(u)])
    ensures ChainOk(s')
  {
  }

  lemma HandOverKeeps(s: State, s': State, t: nat, u: nat, slot: nat)
    requires Inv(s) && HandOver(s, s', t, u, slot)
    ensures Inv(s')
  {
    HandOverChain(s, s', t, u, slot);
    forall w | w in s'.threads
      ensures ThreadOk(s', w, s'.threads[w])
    {
      HandOverThread(s, s', w, s.threads[w], slot, By(u));
    }
  }

  lemma StepKeepsInv(s: State, s': State)
    requires Inv(s) && Next(s, s')
    ensures Inv(s')
  {
    if t: nat :| PopStep(s, s', t) {
      PopKeeps(s, s', t);
    } else if t: nat :| PushStep(s, s', t) {
      PushKeeps(s, s', t);
    } else {
      var t: nat, u: nat, slot: nat :| HandOver(s, s', t, u, slot);
      HandOverKeeps(s, s', t, u, slot);
    }
  }

  lemma {:induction false} RunInv(run: seq<State>, i: nat)
    requires IsRun(run) && i < |run|
    ensures Inv(run[i])
  {
    if i == 0 {
      InitInv(run[0]);
    } else {
      RunInv(run, i - 1);
      assert NextAt(run, i - 1);
      StepKeepsInv(run[i - 1], run[i]);
    }
  }

  /** In every state of every run each slot is either on the free chain, at exactly one place,
    * or owned by exactly one thread; and the links from the head spell out the chain.
    */
  lemma SlotsArePartitioned(run: seq<State>, i: nat, slot: nat)
    requires IsRun(run) && i < |run| && slot < |run[i].owner|
    ensures Linked(run[i].next, run[i].head.first, run[i].chain) && Distinct(run[i].chain)
    ensures run[i].owner[slot].By? <==> slot !in run[i].chain
  {
    RunInv(run, i);
  }

  /** A pop whose exchange is about to succeed has collected exactly the top of the current
    * chain, as much of it as it asked for, although it read the links unprotected.
    */
  lemma PopTakesTheTop(run: seq<State>, i: nat, t: nat)
    requires IsRun(run) && i < |run| && t in run[i].threads
    requires run[i].threads[t].PopCas? && run[i].threads[t].h == run[i].head
    ensures var pc := run[i].threads[t]; var n := |run[i].chain|;
            var k := if pc.max < n then pc.max else n;
            pc.taken == run[i].chain[..k] && pc.rest == LinkAt(run[i].chain, k)
  {
    RunInv(run, i);
    assert ThreadOk(run[i], t, run[i].threads[t]);
  }

  /** A push whose exchange is about to succeed has linked its slots, in order, to the current
    * top, and owns every one of them.
    */
  lemma PushIsLinked(run: seq<State>, i: nat, t: nat)
    requires IsRun(run) && i < |run| && t in run[i].threads
    requires run[i].threads[t].PushCas? && run[i].threads[t].h == run[i].head
    ensures var slots := run[i].threads[t].slots;
            && |slots| > 0 && Linked(run[i].next, Slot(slots[0]), slots + run[i].chain)
            && forall k | 0 <= k < |slots| :: slots[k] < |run[i].owner| && run[i].owner[slots[k]] == By(t)
  {
    RunInv(run, i);
    var s := run[i];
    var slots := s.threads[t].slots;
    assert ThreadOk(s, t, s.threads[t]);
    PushCasKeepsChain(s, s.(chain := slots + s.chain, owner := Give(s.owner, slots, Free), head := Head(Slot(slots[0]), 0)), t, slots);
  }

  predicate InPop(pc: Pc) {
    pc.PopLoad? || pc.PopWalk? || pc.PopCas?
  }

  function Min(a: nat, b: nat): nat {
    if a < b then a else b
  }

  // Thread t now owns the first k slots of the chain, and only that has changed.
  ghost predicate TakesTop(s: State, s': State, t: nat, k: nat) {
    && k <= |s.chain| && s'.chain == s.chain[k..] && |s'.owner| == |s.owner|
    && (forall i | 0 <= i < |s.owner| :: s'.owner[i] == if i in s.chain[..k] then By(t) else s.owner[i])
    && s' == s.(threads := s.threads[t := Out], head := s'.head, chain := s'.chain, owner := s'.owner)
  }

  lemma PopEnds(s: State, s': State, t: nat)
    requires Inv(s) && PopStep(s, s', t) && InPop(s.threads[t]) && t in s'.threads && s'.threads[t] == Out
    ensures if s.chain == [] then s' == To(s, t, Out) else TakesTop(s, s', t, Min(s.threads[t].max, |s.chain|))
  {
    assert ThreadOk(s, t, s.threads[t]);
  }

  /** A pop returns with exactly the top of the chain at that moment, as many slots as it asked for
    * or all there are; so it returns with none if and only if no slot is free.
    */
  lemma PopReturns(run: seq<State>, i: nat, t: nat)
    requires IsRun(run) && i + 1 < |run| && PopStep(run[i], run[i + 1], t)
    requires InPop(run[i].threads[t]) && t in run[i + 1].threads && run[i + 1].threads[t] == Out
    ensures if run[i].chain == [] then run[i + 1] == To(run[i], t, Out)
            else TakesTop(run[i], run[i + 1], t, Min(run[i].threads[t].max, |run[i].chain|))
  {
    RunInv(run, i);
    PopEnds(run[i], run[i + 1], t);
  }

  /** A push returns with all its slots, in order, free on top of the chain. */
  lemma PushReturns(run: seq<State>, i: nat, t: nat)
    requires IsRun(run) && i + 1 < |run| && PushStep(run[i], run[i + 1], t)
    requires InPush(run[i].threads[t]) && t in run[i + 1].threads && run[i + 1].threads[t] == Out
    ensures var slots := run[i].threads[t].slots;
            && run[i + 1].chain == slots + run[i].chain && |run[i + 1].owner| == |run[i].owner|
            && forall x | 0 <= x < |run[i].owner| :: run[i + 1].owner[x] == if x in slots then Free else run[i].owner[x]
    ensures Linked(run[i + 1].next, run[i + 1].head.first, run[i + 1].chain)
  {
    RunInv(run, i + 1);
  }
}
