/** 64-bit wrapping positions of the single-producer single-consumer ring. */
module SpscWords {
  import opened Bits
  import opened QueueCapacity
  import RingQueue

  // Unsigned 64-bit addition and subtraction.
  function Plus(x: nat, y: nat): nat {
    (x + y) % WORD
  }

  function Minus(x: nat, y: nat): nat
    requires y < WORD
  {
    (x + WORD - y) % WORD
  }

  function Word(position: nat): (w: nat)
    ensures w < WORD
  {
    position % WORD
  }

  function Slot(word: nat, cap: nat): nat
    requires cap > 0
  {
    And(word, cap - 1)
  }

  ghost predicate ValidCapacity(cap: nat) {
    2 <= cap <= 0x4000_0000_0000_0000 && IsPow2(cap)
  }

  // Wrapped positions less than 2^64 apart subtract to their true distance.
  lemma Distance(a: nat, b: nat)
    requires b <= a < b + WORD
    ensures Minus(Word(a), Word(b)) == a - b
  {
    var x, y := Word(a), Word(b);
    var q := a / WORD - b / WORD;
    assert a - b == q * WORD + x - y;
    assert 0 <= q <= 1;
  }

  lemma Advance(a: nat, n: nat)
    ensures Plus(Word(a), n) == Word(a + n)
  {
    var q, r := (Word(a) + n) / WORD, (Word(a) + n) % WORD;
    assert a + n == (a / WORD + q) * WORD + r;
    RemainderIs(a + n, WORD, a / WORD + q, r);
  }

  lemma SlotIsCell(p: nat, cap: nat)
    requires ValidCapacity(cap)
    ensures Slot(Word(p), cap) == RingQueue.Cell(p, cap)
  {
    var k: nat :| cap == Pow2(k);
    if k > 64 {
      Pow2Monotone(64, k);
      Pow2Values();
    }
    MaskedPosition(p, k);
  }

  // The two-part index that a batch copy uses: up to the end of the buffer, then from its start.
  function CopySlot(first: nat, firstCount: nat, i: nat): nat {
    if i < firstCount then first + i else i - firstCount
  }

  lemma CopySlotIsCell(p: nat, i: nat, n: nat, cap: nat)
    requires cap > 0 && i < n <= cap
    ensures var first := RingQueue.Cell(p, cap);
            var firstCount := if n < cap - first then n else cap - first;
            CopySlot(first, firstCount, i) == RingQueue.Cell(p + i, cap)
  {
    var first := RingQueue.Cell(p, cap);
    if first + i < cap {
      RemainderIs(p + i, cap, p / cap, first + i);
    } else {
      var q := p / cap + 1;
      assert (p / cap + 1) * cap == p / cap * cap + cap;
      RemainderIs(p + i, cap, q, first + i - cap);
    }
  }

  lemma CellsDiffer(p: nat, q: nat, cap: nat)
    requires cap > 0 && p < q < p + cap
    ensures RingQueue.Cell(p, cap) != RingQueue.Cell(q, cap)
  {
    if RingQueue.Cell(p, cap) == RingQueue.Cell(q, cap) {
      RingQueue.SameCell(p, q, cap);
    }
  }
}
