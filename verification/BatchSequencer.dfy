/** The batch sequencer: numbered batches arrive in any order and possibly more than once, and
  * leave in order of their numbers. Batch numbers are unbounded here.
  */
module BatchSequencer {

  datatype Status = Submitted | Buffered | Duplicate

  type History<T> = seq<(nat, T)>

  // ---- What a history of submissions should produce ----

  function Seen<T>(h: History<T>): set<nat> {
    if h == [] then {} else Seen(h[..|h| - 1]) + {h[|h| - 1].0}
  }

  // The batch of the earliest submission under this number.
  function FirstBatch<T>(h: History<T>, id: nat): T
    requires id in Seen(h)
  {
    var before := h[..|h| - 1];
    if id in Seen(before) then FirstBatch(before, id) else h[|h| - 1].1
  }

  ghost predicate SeenFrom<T>(h: History<T>, first: nat, next: nat) {
    forall id: nat | first <= id < next :: id in Seen(h)
  }

  // The least number from `first` on that was never submitted.
  ghost predicate IsNext<T>(h: History<T>, first: nat, next: nat) {
    first <= next && next !in Seen(h) && SeenFrom(h, first, next)
  }

  function InOrder<T>(h: History<T>, first: nat, next: nat): (r: seq<T>)
    requires first <= next && SeenFrom(h, first, next)
    ensures |r| == next - first
  {
    if first == next then [] else InOrder(h, first, next - 1) + [FirstBatch(h, next - 1)]
  }

  lemma OneMore<T>(h: History<T>, id: nat, batch: T)
    ensures Seen(h + [(id, batch)]) == Seen(h) + {id}
    ensures forall k | k in Seen(h) :: FirstBatch(h + [(id, batch)], k) == FirstBatch(h, k)
    ensures id !in Seen(h) ==> FirstBatch(h + [(id, batch)], id) == batch
  {
    assert (h + [(id, batch)])[..|h|] == h;
  }

  lemma {:induction false} InOrderAt<T>(h: History<T>, first: nat, next: nat, i: nat)
    requires first <= next && SeenFrom(h, first, next) && i < next - first
    ensures InOrder(h, first, next)[i] == FirstBatch(h, first + i)
  {
    if i < next - 1 - first {
      InOrderAt(h, first, next - 1, i);
    }
  }

  // A later submission does not change what the numbers seen before produce.
  lemma {:induction false} InOrderKept<T>(h: History<T>, id: nat, batch: T, first: nat, next: nat)
    requires first <= next && SeenFrom(h, first, next)
    ensures SeenFrom(h + [(id, batch)], first, next)
    ensures InOrder(h + [(id, batch)], first, next) == InOrder(h, first, next)
  {
    OneMore(h, id, batch);
    if first < next {
      InOrderKept(h, id, batch, first, next - 1);
    }
  }

  // ---- The sequencer ----

  class Sequencer<T> {
    var next: nat
    var pending: map<nat, T>

    ghost const first: nat
    ghost var history: History<T>
    ghost var emitted: seq<T>      // everything handed to the submit callback so far

    ghost predicate Valid()
      reads this
    {
      && first <= next && SeenFrom(history, first, next) && next !in pending
      && PendingIs(history)
      && emitted == InOrder(history, first, next)
    }

    // `pending` holds the first copies of the numbers seen at or after `next`.
    ghost predicate PendingIs(h: History<T>)
      reads this
    {
      && (forall id | id in pending :: next <= id && id in Seen(h) && pending[id] == FirstBatch(h, id))
      && (forall id | id in Seen(h) && next <= id :: id in pending)
    }

    constructor (firstId: nat)
      ensures Valid() && first == firstId && history == [] && emitted == []
    {
      next, pending := firstId, map[];
      first, history, emitted := firstId, [], [];
    }

    // The next number to leave is always the least one never submitted.
    lemma NextIsLeast()
      requires Valid()
      ensures IsNext(history, first, next)
    {
    }

    // Hands over buffered batches for as long as the next number is among them.
    method DrainReady() returns (out: seq<T>)
      requires first <= next && SeenFrom(history, first, next)
      requires PendingIs(history) && emitted == InOrder(history, first, next)
      modifies this
      ensures Valid() && history == old(history) && emitted == old(emitted) + out
    {
      out := [];
      while next in pending
        invariant first <= next && SeenFrom(history, first, next)
        invariant PendingIs(history) && emitted == InOrder(history, first, next)
        invariant history == old(history) && emitted == old(emitted) + out
        decreases pending.Keys
      {
        var batch := pending[next];
        pending := pending - {next};
        out := out + [batch];
        emitted := emitted + [batch];
        next := next + 1;
      }
    }

    /** Every submission extends the history, and what has been handed over is again the first
      * copy of each number from the first up to the least number never submitted.
      */
    method Submit(id: nat, batch: T) returns (status: Status, out: seq<T>)
      requires Valid()
      modifies this
      ensures Valid()
      ensures history == old(history) + [(id, batch)]
      ensures emitted == old(emitted) + out
      ensures status == Duplicate <==> id < first || id in Seen(old(history))
      ensures status == Submitted <==> id == old(next)
      ensures status != Submitted ==> out == []
      ensures status == Submitted ==> |out| > 0 && out[0] == batch
    {
      OneMore(history, id, batch);
      InOrderKept(history, id, batch, first, next);
      history := history + [(id, batch)];
      if id < next {
        return Duplicate, [];
      }
      if id > next {
        if id in pending {
          return Duplicate, [];
        }
        pending := pending[id := batch];
        return Buffered, [];
      }
      next := next + 1;
      emitted := emitted + [batch];
      var more := DrainReady();
      return Submitted, [batch] + more;
    }
  }

  // ---- Order does not matter ----

  // The histories agree on which numbers were submitted, and on their first copies, as far as
  // the sequencer looks at them.
  ghost predicate Agree<T(!new)>(h: History<T>, g: History<T>, first: nat) {
    && (forall id: nat | first <= id :: id in Seen(h) <==> id in Seen(g))
    && (forall id: nat | first <= id && id in Seen(h) && id in Seen(g) :: FirstBatch(h, id) == FirstBatch(g, id))
  }

  lemma NextIsUnique<T(!new)>(h: History<T>, g: History<T>, first: nat, n: nat, m: nat)
    requires Agree(h, g, first) && IsNext(h, first, n) && IsNext(g, first, m)
    ensures n == m
  {
  }

  lemma SameOutput<T(!new)>(h: History<T>, g: History<T>, first: nat, n: nat, m: nat)
    requires Agree(h, g, first) && IsNext(h, first, n) && IsNext(g, first, m)
    ensures n == m && InOrder(h, first, n) == InOrder(g, first, m)
  {
    NextIsUnique(h, g, first, n, m);
    forall i: nat | i < n - first
      ensures InOrder(h, first, n)[i] == InOrder(g, first, n)[i]
    {
      InOrderAt(h, first, n, i);
      InOrderAt(g, first, n, i);
    }
  }

  /** Two sequencers whose histories agree on the first copy of each number are in the same
    * state: the next number, the buffered batches, and everything handed over.
    */
  lemma SameState<T(!new)>(a: Sequencer<T>, b: Sequencer<T>)
    requires a.Valid() && b.Valid() && a.first == b.first && Agree(a.history, b.history, a.first)
    ensures a.next == b.next && a.pending == b.pending && a.emitted == b.emitted
  {
    a.NextIsLeast();
    b.NextIsLeast();
    SameOutput(a.history, b.history, a.first, a.next, b.next);
    assert a.pending.Keys == b.pending.Keys;
    assert forall id | id in a.pending :: a.pending[id] == b.pending[id];
  }

  // The batches submitted under one number, in order.
  function Copies<T>(h: History<T>, id: nat): seq<T> {
    if h == [] then []
    else Copies(h[..|h| - 1], id) + if h[|h| - 1].0 == id then [h[|h| - 1].1] else []
  }

  lemma {:induction false} FirstOfCopies<T>(h: History<T>, id: nat)
    ensures id in Seen(h) <==> Copies(h, id) != []
    ensures id in Seen(h) ==> FirstBatch(h, id) == Copies(h, id)[0]
  {
    if h != [] {
      FirstOfCopies(h[..|h| - 1], id);
    }
  }

  ghost predicate SameStart<T>(a: seq<T>, b: seq<T>) {
    (a == [] <==> b == []) && (a != [] && b != [] ==> a[0] == b[0])
  }

  /** Submissions under different numbers may be interleaved in any way, and a number may be
    * submitted again any number of times, with any batch: only its first copy counts.
    */
  lemma OrderDoesNotMatter<T(!new)>(h: History<T>, g: History<T>, first: nat)
    requires forall id: nat | first <= id :: SameStart(Copies(h, id), Copies(g, id))
    ensures Agree(h, g, first)
  {
    forall id: nat | first <= id
      ensures id in Seen(h) <==> id in Seen(g)
      ensures id in Seen(h) && id in Seen(g) ==> FirstBatch(h, id) == FirstBatch(g, id)
    {
      assert SameStart(Copies(h, id), Copies(g, id));
      FirstOfCopies(h, id);
      FirstOfCopies(g, id);
    }
  }
}
