/** How the log consumer gathers a batch: lanes are visited in turn, up to 64 records at a
  * time, until the batch is full or a whole round found nothing.
  */
module LogCollect {
  import opened LogAccounting

  const MAX_DRAIN: nat := 64

  function Min(a: nat, b: nat): nat {
    if a < b then a else b
  }

  // The lane visited d visits before the one that is next.
  function Back(next: nat, d: nat, n: nat): (l: nat)
    requires next < n && d < n
    ensures l < n
  {
    if d < next then next - 1 - d else next + n - 1 - d
  }

  ghost predicate Conserved(before: seq<seq<Msg>>, lanes: seq<seq<Msg>>, got: seq<Rec>) {
    && |before| == |lanes|
    && forall l: nat | l < |lanes| :: Of(l, got) + lanes[l] == before[l]
  }

  lemma ConservedByPop(before: seq<seq<Msg>>, lanes: seq<seq<Msg>>, got: seq<Rec>, l: nat, k: nat)
    requires Conserved(before, lanes, got) && l < |lanes| && k <= |lanes[l]|
    ensures Conserved(before, lanes[l := lanes[l][k..]], got + Tag(l, lanes[l][..k]))
    ensures Total(lanes[l := lanes[l][k..]]) + k == Total(lanes)
  {
    var q := Queues(lanes, before);
    assert LanesOk(q, got);
    PopKeepsLanes(q, got, l, k);
  }

  class Lanes {
    var lanes: seq<seq<Msg>>
    var next: nat                  // the lane to visit next

    ghost predicate Valid()
      reads this
    {
      lanes == [] || next < |lanes|
    }

    // One visit: takes what fits from the next lane and moves on.
    method Visit(room: nat) returns (got: seq<Rec>)
      requires Valid() && lanes != [] && room > 0
      modifies this
      ensures Valid() && |lanes| == |old(lanes)|
      ensures var l := old(next);
              var k := Min(Min(MAX_DRAIN, room), |old(lanes)[l]|);
              && got == Tag(l, old(lanes)[l][..k]) && lanes == old(lanes)[l := old(lanes)[l][k..]]
              && next == if l + 1 == |lanes| then 0 else l + 1
    {
      var l := next;
      next := if next + 1 == |lanes| then 0 else next + 1;
      var k := Min(Min(MAX_DRAIN, room), |lanes[l]|);
      got := Tag(l, lanes[l][..k]);
      lanes := lanes[l := lanes[l][k..]];
    }

    /** Adds up to `room` records, from the front of each lane and in order, and stops short
      * only when every lane is empty.
      */
    method Collect(room: nat) returns (batch: seq<Rec>)
      requires Valid()
      modifies this
      ensures Valid() && |batch| <= room
      ensures Conserved(old(lanes), lanes, batch)
      ensures |batch| < room ==> forall l: nat | l < |lanes| :: lanes[l] == []
    {
      batch := [];
      if lanes == [] {
        return;
      }
      var emptyVisits: nat := 0;
      while |batch| < room && emptyVisits < |lanes|
        invariant Valid() && lanes != [] && |batch| <= room && emptyVisits <= |lanes|
        invariant Conserved(old(lanes), lanes, batch)
        invariant forall d: nat | d < emptyVisits :: lanes[Back(next, d, |lanes|)] == []
        decreases Total(lanes), |lanes| - emptyVisits
      {
        ghost var l, was := next, lanes;
        var got := Visit(room - |batch|);
        ConservedByPop(old(lanes), was, batch, l, |got|);
        batch := batch + got;
        if |got| == 0 {
          assert lanes == was;
          StillEmpty(lanes, l, next, emptyVisits);
          emptyVisits := emptyVisits + 1;
        } else {
          emptyVisits := 0;
        }
      }
      if emptyVisits == |lanes| {
        WholeRound(lanes, next);
      }
    }
  }

  // After visiting an empty lane, the run of empty lanes behind us is one longer.
  lemma StillEmpty(lanes: seq<seq<Msg>>, l: nat, next: nat, e: nat)
    requires l < |lanes| && e < |lanes| && lanes[l] == []
    requires next == if l + 1 == |lanes| then 0 else l + 1
    requires forall d: nat | d < e :: lanes[Back(l, d, |lanes|)] == []
    ensures forall d: nat | d < e + 1 :: lanes[Back(next, d, |lanes|)] == []
  {
    forall d: nat | d < e + 1
      ensures lanes[Back(next, d, |lanes|)] == []
    {
      if d > 0 {
        assert Back(next, d, |lanes|) == Back(l, d - 1, |lanes|);
      }
    }
  }

  lemma WholeRound(lanes: seq<seq<Msg>>, next: nat)
    requires next < |lanes|
    requires forall d: nat | d < |lanes| :: lanes[Back(next, d, |lanes|)] == []
    ensures forall l: nat | l < |lanes| :: lanes[l] == []
  {
    forall l: nat | l < |lanes|
      ensures lanes[l] == []
    {
      var d := if l < next then next - 1 - l else next + |lanes| - 1 - l;
      assert Back(next, d, |lanes|) == l;
    }
  }
}
