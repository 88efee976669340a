/** The packed words of the protocols: the wake request of a task and the tagged head of a
  * free list. Packing is exact precisely while the fields fit.
  */
module WordCodec {
  import opened Bits

  // ---- Wake request: epoch above bit 18, mode in bits 16 and 17, thread index plus one below ----

  function PackRequest(epoch: nat, thread: nat, mode: nat): nat {
    Fields(And(epoch, Pow2(46) - 1), And(mode, 3), thread)
  }

  function Fields(e: nat, mode: nat, thread: nat): nat {
    Or(Or(Shl(e, 18), Shl(mode, 16)), thread + 1)
  }

  function RequestedEpoch(word: nat): nat {
    Shr(word, 18)
  }

  // The subtraction is on 64 bits and the result is cut to 16.
  function RequestedTarget(word: nat): nat {
    (And(word, 0xFFFF) + WORD - 1) % WORD % 0x1_0000
  }

  function RequestedMode(word: nat): nat {
    And(Shr(word, 16), 3)
  }

  // The word as a number: three digits of mixed radix.
  function Digits(e: nat, mode: nat, thread: nat): (r: nat)
    ensures r > thread
  {
    Times(e * 4 + mode, Pow2(16)) + (thread + 1)
  }

  function Times(x: nat, y: nat): nat {
    x * y
  }

  lemma ShiftedParts(e: nat, mode: nat)
    requires e < Pow2(46) && mode < 4
    ensures Or(Shl(e, 18), Shl(mode, 16)) == (e * 4 + mode) * Pow2(16)
  {
    Pow2Values();
    ShlExact(e, 18);
    ShlExact(mode, 16);
    OrDisjoint(e, mode * Pow2(16), 18);
  }

  lemma ModeFits(mode: nat)
    requires mode < 4
    ensures And(mode, 3) == mode
  {
    assert Pow2(2) == 4;
    AndMask(mode, 2);
  }

  lemma FieldsValue(e: nat, mode: nat, thread: nat)
    requires e < Pow2(46) && mode < 4 && thread < 65535
    ensures Fields(e, mode, thread) == Digits(e, mode, thread)
  {
    ShiftedParts(e, mode);
    Pow2Values();
    OrDisjoint(e * 4 + mode, thread + 1, 16);
  }

  lemma PackedValue(epoch: nat, thread: nat, mode: nat)
    requires thread < 65535 && mode < 4
    ensures PackRequest(epoch, thread, mode) == Digits(epoch % Pow2(46), mode, thread)
  {
    AndMask(epoch, 46);
    ModeFits(mode);
    FieldsValue(epoch % Pow2(46), mode, thread);
  }

  lemma DigitsLow(e: nat, mode: nat, thread: nat)
    requires thread < 65535 && mode < 4
    ensures Shr(Digits(e, mode, thread), 16) == e * 4 + mode
    ensures And(Digits(e, mode, thread), 0xFFFF) == thread + 1
  {
    assert Pow2(16) == 0x1_0000 by {
      Pow2Values();
    }
    SplitWord(e * 4 + mode, thread + 1, 16);
  }

  lemma DigitsHigh(e: nat, mode: nat, thread: nat)
    requires thread < 65535 && mode < 4
    ensures Shr(Digits(e, mode, thread), 18) == e
  {
    assert Pow2(16) == 0x1_0000 && Pow2(18) == 0x4_0000 by {
      Pow2Values();
    }
    RemainderIs(Digits(e, mode, thread), 0x4_0000, e, mode * 0x1_0000 + thread + 1);
  }

  lemma TargetBack(word: nat, thread: nat)
    requires thread < 65535 && And(word, 0xFFFF) == thread + 1
    ensures RequestedTarget(word) == thread
  {
  }

  lemma ModeBack(word: nat, e: nat, mode: nat)
    requires mode < 4 && Shr(word, 16) == e * 4 + mode
    ensures RequestedMode(word) == mode
  {
    assert Pow2(2) == 4;
    SplitWord(e, mode, 2);
  }

  lemma FieldsBack(word: nat, e: nat, mode: nat, thread: nat)
    requires thread < 65535 && mode < 4 && word == Digits(e, mode, thread)
    ensures RequestedEpoch(word) == e && RequestedTarget(word) == thread && RequestedMode(word) == mode
  {
    DigitsLow(e, mode, thread);
    DigitsHigh(e, mode, thread);
    TargetBack(word, thread);
    ModeBack(word, e, mode);
  }

  /** The fields of a request are recovered exactly as long as the run epoch fits its 46 bits. */
  lemma RequestRoundTrip(epoch: nat, thread: nat, mode: nat)
    requires thread < 65535 && mode < 4
    ensures RequestedTarget(PackRequest(epoch, thread, mode)) == thread
    ensures RequestedMode(PackRequest(epoch, thread, mode)) == mode
    ensures RequestedEpoch(PackRequest(epoch, thread, mode)) == epoch <==> epoch < Pow2(46)
  {
    PackedValue(epoch, thread, mode);
    FieldsBack(PackRequest(epoch, thread, mode), epoch % Pow2(46), mode, thread);
    if epoch < Pow2(46) {
      RemainderIs(epoch, Pow2(46), 0, epoch);
    }
  }

  lemma RequestNotEmpty(epoch: nat, thread: nat, mode: nat)
    requires thread < 65535 && mode < 4
    ensures PackRequest(epoch, thread, mode) != 0
  {
    PackedValue(epoch, thread, mode);
  }

  /** Comparing request words is comparing requests, and no request is the empty word. */
  lemma RequestWordsDiffer(e1: nat, t1: nat, m1: nat, e2: nat, t2: nat, m2: nat)
    requires e1 < Pow2(46) && t1 < 65535 && m1 < 4
    requires e2 < Pow2(46) && t2 < 65535 && m2 < 4
    ensures PackRequest(e1, t1, m1) == PackRequest(e2, t2, m2) <==> (e1, t1, m1) == (e2, t2, m2)
    ensures PackRequest(e1, t1, m1) != 0
  {
    RequestRoundTrip(e1, t1, m1);
    RequestRoundTrip(e2, t2, m2);
    RequestNotEmpty(e1, t1, m1);
  }

  // ---- Head of a tagged free list: version above the 16 bits of the slot index ----

  function PackHead(index: nat, version: nat): nat {
    Or(Shl(version, 16), index)
  }

  function HeadIndex(head: nat): nat {
    And(head, 0xFFFF)
  }

  function HeadVersion(head: nat): nat {
    Shr(head, 16)
  }

  /** The index always survives; the version does exactly while it fits its 48 bits. */
  lemma HeadRoundTrip(index: nat, version: nat)
    requires index < Pow2(16)
    ensures HeadIndex(PackHead(index, version)) == index
    ensures HeadVersion(PackHead(index, version)) == version <==> version < Pow2(48)
  {
    var v := version % Pow2(48);
    assert Pow2(48) * Pow2(16) == WORD && 0xFFFF == Pow2(16) - 1 by {
      Pow2Values();
    }
    ShlDrops(version, 48, 16);
    OrDisjoint(v, index, 16);
    SplitWord(v, index, 16);
    if version < Pow2(48) {
      RemainderIs(version, Pow2(48), 0, version);
    }
  }
}
