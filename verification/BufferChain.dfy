/** Chains of byte buffers: views into stored bytes, consumed from the front. */
module BufferChain {
  import opened Bits

  datatype Buffer = Buffer(storage: seq<Byte>, offset: nat, size: nat) {
    predicate Valid() {
      offset + size <= |storage|
    }

    function View(): (v: seq<Byte>)
      requires Valid()
      ensures |v| == size
    {
      storage[offset..offset + size]
    }

    function RemovePrefix(count: nat): (b: Buffer)
      requires Valid()
      ensures b.Valid()
      ensures b.View() == if count >= size then [] else View()[count..]
    {
      if count >= size then Buffer(storage, offset + size, 0) else Buffer(storage, offset + count, size - count)
    }
  }

  ghost predicate AllValid(bs: seq<Buffer>) {
    forall i: nat | i < |bs| :: bs[i].Valid()
  }

  ghost predicate AllFull(bs: seq<Buffer>) {
    forall i: nat | i < |bs| :: bs[i].size > 0
  }

  ghost function Flatten(bs: seq<Buffer>): seq<Byte>
    requires AllValid(bs)
  {
    if bs == [] then [] else bs[0].View() + Flatten(bs[1..])
  }

  function Concat(views: seq<seq<Byte>>): seq<Byte> {
    if views == [] then [] else Concat(views[..|views| - 1]) + views[|views| - 1]
  }

  lemma {:induction false} FlattenAppend(bs: seq<Buffer>, b: Buffer)
    requires AllValid(bs) && b.Valid()
    ensures AllValid(bs + [b]) && Flatten(bs + [b]) == Flatten(bs) + b.View()
  {
    if bs == [] {
      assert bs + [b] == [b];
      assert Flatten([b]) == b.View() + Flatten([]);
    } else {
      assert (bs + [b])[1..] == bs[1..] + [b];
      FlattenAppend(bs[1..], b);
      assert Flatten(bs + [b]) == bs[0].View() + (Flatten(bs[1..]) + b.View());
    }
  }

  lemma FlattenUncons(b: Buffer, bs: seq<Buffer>)
    requires b.Valid() && AllValid(bs)
    ensures AllValid([b] + bs) && Flatten([b] + bs) == b.View() + Flatten(bs)
  {
    assert ([b] + bs)[1..] == bs;
  }

  lemma FrontView(bs: seq<Buffer>, i: nat, views: seq<seq<Byte>>)
    requires i < |bs| && AllValid(bs[i..])
    ensures AllValid(bs[i + 1..]) && bs[i].Valid()
    ensures Concat(views + [bs[i].View()]) == Concat(views) + bs[i].View()
    ensures Concat(views) + Flatten(bs[i..]) == Concat(views) + bs[i].View() + Flatten(bs[i + 1..])
  {
    assert bs[i..] == [bs[i]] + bs[i + 1..];
    assert bs[i + 1..] == bs[i..][1..];
    assert bs[i..][0] == bs[i];
    FlattenUncons(bs[i], bs[i + 1..]);
    assert (views + [bs[i].View()])[..|views|] == views;
    assert Concat(views) + (bs[i].View() + Flatten(bs[i + 1..])) == Concat(views) + bs[i].View() + Flatten(bs[i + 1..]);
  }

  // ---- Lengths ----

  ghost function Lengths(bs: seq<Buffer>): (r: seq<nat>)
    ensures |r| == |bs|
    ensures forall i: nat | i < |bs| :: r[i] == bs[i].size
  {
    seq(|bs|, i requires 0 <= i < |bs| => bs[i].size)
  }

  // The lengths left after the first n bytes are gone.
  function DropBytes(lens: seq<nat>, n: nat): seq<nat> {
    if n == 0 || lens == [] then lens
    else if n < lens[0] then [lens[0] - n] + lens[1..]
    else DropBytes(lens[1..], n - lens[0])
  }

  // How many bytes the first `limit` non-empty buffers hold.
  function Offered(lens: seq<nat>, limit: nat): nat {
    if lens == [] || limit == 0 then 0
    else if lens[0] == 0 then Offered(lens[1..], limit)
    else lens[0] + Offered(lens[1..], limit - 1)
  }

  lemma LengthsFrom(bs: seq<Buffer>, i: nat)
    requires i < |bs|
    ensures Lengths(bs[i..])[0] == bs[i].size && Lengths(bs[i..])[1..] == Lengths(bs[i + 1..])
  {
    assert bs[i..][1..] == bs[i + 1..];
  }

  // ---- Consuming from the front ----

  // Takes up to `count` bytes from the first buffer, and drops it when it is empty.
  ghost function EatFront(bs: seq<Buffer>, count: nat): seq<Buffer>
    requires AllValid(bs) && bs != []
  {
    if count < bs[0].size then [bs[0].RemovePrefix(count)] + bs[1..] else bs[1..]
  }

  lemma EatFrontFacts(bs: seq<Buffer>, count: nat)
    requires AllValid(bs) && bs != []
    ensures var n := if count < bs[0].size then count else bs[0].size;
            && AllValid(EatFront(bs, count)) && n <= |Flatten(bs)|
            && Flatten(EatFront(bs, count)) == Flatten(bs)[n..]
            && (AllFull(bs) ==> AllFull(EatFront(bs, count)))
  {
    assert AllValid(bs[1..]);
    DropFromFirst(bs[0].View(), Flatten(bs[1..]), if count < bs[0].size then count else bs[0].size);
    if count < bs[0].size {
      FlattenUncons(bs[0].RemovePrefix(count), bs[1..]);
    }
  }

  lemma DropFromFirst(v: seq<Byte>, w: seq<Byte>, n: nat)
    requires n <= |v|
    ensures (v + w)[n..] == v[n..] + w
  {
  }

  lemma EatFrontLengths(bs: seq<Buffer>, count: nat)
    requires AllValid(bs) && bs != []
    ensures Lengths(EatFront(bs, count))
         == if count < bs[0].size then [bs[0].size - count] + Lengths(bs)[1..] else Lengths(bs)[1..]
  {
  }

  ghost function Eat(bs: seq<Buffer>, count: nat): seq<Buffer>
    requires AllValid(bs)
    decreases |bs|
  {
    if count == 0 || bs == [] then bs
    else if count < bs[0].size then EatFront(bs, count)
    else Eat(bs[1..], count - bs[0].size)
  }

  /** Consuming removes exactly the first bytes, or all. */
  lemma {:induction false} EatFacts(bs: seq<Buffer>, count: nat)
    requires AllValid(bs)
    ensures AllValid(Eat(bs, count)) && (AllFull(bs) ==> AllFull(Eat(bs, count)))
    ensures Flatten(Eat(bs, count)) == if count <= |Flatten(bs)| then Flatten(bs)[count..] else []
    decreases |bs|
  {
    if count != 0 && bs != [] {
      EatFrontFacts(bs, count);
      if count >= bs[0].size {
        EatFacts(bs[1..], count - bs[0].size);
      }
    }
  }

  lemma {:induction false} EatLengths(bs: seq<Buffer>, count: nat)
    requires AllValid(bs)
    ensures Lengths(Eat(bs, count)) == DropBytes(Lengths(bs), count)
    decreases |bs|
  {
    if count != 0 && bs != [] {
      EatFrontLengths(bs, count);
      if count >= bs[0].size {
        LengthsFrom(bs, 0);
        assert bs[0..] == bs;
        EatLengths(bs[1..], count - bs[0].size);
      }
    }
  }

  class Chain {
    var buffers: seq<Buffer>
    var first: nat
    var totalBytes: nat
    var totalDirty: bool

    ghost predicate Valid()
      reads this
    {
      && first <= |buffers| && AllValid(buffers[first..]) && Compact()
      && (!totalDirty ==> totalBytes == |Contents()|)
    }

    // Consumed buffers are kept only while they are few, or fewer than the others.
    predicate Compact()
      reads this
    {
      first == 0 || (first < |buffers| && (first < 32 || first * 2 < |buffers|))
    }

    ghost function Contents(): seq<Byte>
      requires first <= |buffers| && AllValid(buffers[first..])
      reads this
    {
      Flatten(buffers[first..])
    }

    // No buffer still in the chain is empty.
    ghost predicate Full()
      requires first <= |buffers|
      reads this
    {
      AllFull(buffers[first..])
    }

    ghost function Lens(): seq<nat>
      requires first <= |buffers|
      reads this
    {
      Lengths(buffers[first..])
    }

    constructor ()
      ensures Valid() && Full() && Contents() == [] && Lens() == [] && fresh(this)
    {
      buffers, first, totalBytes, totalDirty := [], 0, 0, false;
    }

    method PushBack(b: Buffer)
      requires Valid() && b.Valid()
      modifies this
      ensures Valid() && Contents() == old(Contents()) + b.View()
      ensures Lens() == if b.size == 0 then old(Lens()) else old(Lens()) + [b.size]
      ensures old(Full()) ==> Full()
    {
      if b.size != 0 {
        FlattenAppend(buffers[first..], b);
        assert (buffers + [b])[first..] == buffers[first..] + [b];
        if !totalDirty {
          totalBytes := totalBytes + b.size;
        }
        buffers := buffers + [b];
      }
    }

    // Exact only when no empty buffer is in the chain.
    method IsEmpty() returns (r: bool)
      requires Valid()
      ensures r <==> Lens() == []
      ensures r ==> Contents() == []
      ensures Full() ==> (r <==> Contents() == [])
    {
      r := first >= |buffers|;
    }

    // Recounts after the buffers were changed from outside.
    method EnsureTotalClean()
      requires Valid()
      modifies `totalBytes, `totalDirty
      ensures Valid() && !totalDirty
    {
      if totalDirty {
        totalBytes := SumSizes();
        totalDirty := false;
      }
    }

    method SumSizes() returns (total: nat)
      requires Valid()
      ensures total == |Contents()|
    {
      total := 0;
      var i := first;
      while i < |buffers|
        invariant first <= i <= |buffers|
        invariant AllValid(buffers[i..])
        invariant total + |Flatten(buffers[i..])| == |Contents()|
      {
        assert buffers[i..][1..] == buffers[i + 1..];
        assert buffers[i..][0] == buffers[i];
        total := total + buffers[i].size;
        i := i + 1;
      }
    }

    method Size() returns (n: nat)
      requires Valid()
      modifies `totalBytes, `totalDirty
      ensures Valid() && !totalDirty && n == |Contents()|
    {
      EnsureTotalClean();
      n := totalBytes;
    }

    // Forgets buffers that were consumed, now or once enough of them have gathered.
    method CompactFrontIfNeeded()
      requires first <= |buffers|
      modifies `buffers, `first
      ensures first <= |buffers| && buffers[first..] == old(buffers[first..]) && Compact()
    {
      if first >= |buffers| {
        buffers, first := [], 0;
      } else if first >= 32 && first * 2 >= |buffers| {
        buffers, first := buffers[first..], 0;
      }
    }

    method PopFront()
      requires Valid()
      modifies this
      ensures Valid() && (old(Full()) ==> Full())
      ensures old(first) < |old(buffers)| ==> old(buffers)[old(first)].Valid()
      ensures old(Contents()) == (if old(first) < |old(buffers)| then old(buffers)[old(first)].View() else []) + Contents()
    {
      if first >= |buffers| {
        return;
      }
      EnsureTotalClean();
      assert buffers[first..][1..] == buffers[first + 1..];
      assert buffers[first..][0] == buffers[first];
      totalBytes := totalBytes - buffers[first].size;
      first := first + 1;
      CompactFrontIfNeeded();
    }

    // One round of RemovePrefix: takes bytes from the front buffer and drops it when empty.
    method ConsumeFront(count: nat) returns (consumed: nat)
      requires Valid() && !totalDirty && first < |buffers| && count > 0
      modifies this
      ensures Valid() && !totalDirty
      ensures buffers[first..] == EatFront(old(buffers[first..]), count)
      ensures consumed == if count < old(buffers[first]).size then count else old(buffers[first]).size
    {
      ghost var bs := buffers[first..];
      EatFrontFacts(bs, count);
      var front := buffers[first];
      consumed := if count < front.size then count else front.size;
      totalBytes := totalBytes - consumed;
      ShrinkFront(front.RemovePrefix(consumed));
      if consumed == front.size {
        DropFront();
      }
    }

    method ShrinkFront(left: Buffer)
      requires first < |buffers| && Compact()
      modifies `buffers
      ensures first < |buffers| && Compact() && buffers[first..] == [left] + old(buffers[first..])[1..]
    {
      buffers := buffers[first := left];
    }

    method DropFront()
      requires first < |buffers|
      modifies `buffers, `first
      ensures first <= |buffers| && Compact() && buffers[first..] == old(buffers[first..])[1..]
    {
      first := first + 1;
      CompactFrontIfNeeded();
    }

    /** Drops the first `count` bytes of the chain, or all of them. */
    method RemovePrefix(count: nat)
      requires Valid()
      modifies this
      ensures Valid() && !totalDirty && (old(Full()) ==> Full())
      ensures Contents() == if count <= |old(Contents())| then old(Contents())[count..] else []
      ensures Lens() == DropBytes(old(Lens()), count)
    {
      EnsureTotalClean();
      ghost var bs := buffers[first..];
      Consume(count);
      EatFacts(bs, count);
      EatLengths(bs, count);
    }

    method Consume(count: nat)
      requires Valid() && !totalDirty
      modifies this
      ensures Valid() && !totalDirty && buffers[first..] == Eat(old(buffers[first..]), count)
    {
      var left: nat := count;
      while left != 0 && first < |buffers|
        invariant Valid() && !totalDirty
        invariant Eat(buffers[first..], left) == Eat(old(buffers[first..]), count)
        decreases left, |buffers| - first
      {
        ghost var bs := buffers[first..];
        var consumed := ConsumeFront(left);
        assert left >= bs[0].size ==> buffers[first..] == bs[1..];
        left := left - consumed;
      }
    }

    /** Up to `limit` views of the non-empty buffers: a prefix of the chain's bytes, as long as
      * those buffers together.
      */
    method FillViews(limit: nat) returns (views: seq<seq<Byte>>)
      requires Valid()
      ensures |views| <= limit
      ensures Concat(views) <= Contents() && |Concat(views)| == Offered(Lens(), limit)
    {
      views := [];
      var i := first;
      while i < |buffers| && |views| < limit
        invariant first <= i <= |buffers| && |views| <= limit
        invariant Viewed(i, views, limit)
      {
        views := AddView(i, views, limit);
        i := i + 1;
      }
    }

    method AddView(i: nat, views: seq<seq<Byte>>, limit: nat) returns (more: seq<seq<Byte>>)
      requires Valid() && first <= i < |buffers| && |views| < limit && Viewed(i, views, limit)
      ensures |more| <= limit && Viewed(i + 1, more, limit)
    {
      ViewedMore(i, views, limit);
      more := if buffers[i].size != 0 then views + [buffers[i].View()] else views;
    }

    // The views cover the buffers before i.
    ghost predicate Viewed(i: nat, views: seq<seq<Byte>>, limit: nat)
      requires first <= i <= |buffers| && AllValid(buffers[first..]) && |views| <= limit
      reads this
    {
      && AllValid(buffers[i..]) && Contents() == Concat(views) + Flatten(buffers[i..])
      && |Concat(views)| + Offered(Lengths(buffers[i..]), limit - |views|) == Offered(Lens(), limit)
    }

    lemma ViewedMore(i: nat, views: seq<seq<Byte>>, limit: nat)
      requires Valid() && first <= i < |buffers| && |views| < limit && Viewed(i, views, limit)
      ensures buffers[i].Valid()
      ensures Viewed(i + 1, if buffers[i].size != 0 then views + [buffers[i].View()] else views, limit)
    {
      FrontView(buffers, i, views);
      LengthsFrom(buffers, i);
    }

    // What the accessor that hands out the buffers for writing allows a caller to do.
    method Edit(replacement: seq<Buffer>)
      requires Valid() && AllValid(replacement)
      modifies this
      ensures Valid() && Contents() == Flatten(replacement)
    {
      buffers, first, totalDirty := replacement, 0, true;
      assert buffers[0..] == replacement;
    }
  }
}
