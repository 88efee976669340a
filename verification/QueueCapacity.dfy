/** Capacities and positions of the bounded queues. */
module QueueCapacity {
  import opened Bits

  datatype Capacity = Ok(value: nat) | LengthError

  ghost predicate IsPow2(c: nat) {
    exists k: nat :: c == Pow2(k)
  }

  // The highest set bit of v is bit b, and the `s` highest bits from there are all set.
  ghost predicate TopBits(v: nat, b: nat, s: nat) {
    var run := if s <= b + 1 then s else b + 1;
    && Pow2(b) <= v < Pow2(b + 1)
    && Pow2(b + 1) <= v + Pow2(b + 1 - run)
  }

  lemma {:induction false} HighestBit(v: nat) returns (b: nat)
    requires v > 0
    ensures Pow2(b) <= v < Pow2(b + 1)
  {
    if v == 1 {
      b := 0;
    } else {
      b := HighestBit(v / 2);
      b := b + 1;
    }
  }

  // w = v / p, where v is at least m * p less some slack: then so is w.
  lemma QuotientNear(v: nat, p: nat, m: nat, slack: nat)
    requires p > 0 && m * p <= v + slack * p && v < m * p
    ensures v / p < m && m <= v / p + slack
  {
    var w := v / p;
    assert v == w * p + v % p;
    if w > m {
      MulStep(m, w, p);
    }
    if w + slack < m {
      MulStep(w + slack, m, p);
    }
  }

  // With the s highest bits set, v / 2^s covers the next s bits.
  lemma ShiftedTop(v: nat, b: nat, s: nat, m: nat)
    requires 0 < s && b + 1 == m + s && m > 0 && TopBits(v, b, s)
    ensures v / Pow2(s) < Pow2(m) && Pow2(m) <= v / Pow2(s) + Pow2(if s <= m then m - s else 0)
  {
    Pow2Add(m, s);
    var slack := Pow2(if s <= m then m - s else 0);
    if s <= m {
      Pow2Add(m - s, s);
    } else {
      Pow2Monotone(m, s);
    }
    QuotientNear(v, Pow2(s), Pow2(m), slack);
  }

  // Or-ing a number below 2^m onto v keeps v's part above the m low bits.
  lemma SmearedLow(v: nat, w: nat, h: nat, m: nat)
    requires h * Pow2(m) <= v < h * Pow2(m) + Pow2(m) && w < Pow2(m)
    ensures h * Pow2(m) + w <= Or(v, w) < h * Pow2(m) + Pow2(m)
  {
    OrLow(h, v - h * Pow2(m), w, m);
  }

  lemma AllOnes(s: nat, m: nat)
    ensures (Pow2(s) - 1) * Pow2(m) + Pow2(m) == Pow2(s + m)
  {
    Pow2Add(s, m);
  }

  lemma TopFromParts(o: nat, w: nat, b: nat, s: nat, m: nat)
    requires 0 < s && b + 1 == m + s && m > 0
    requires Pow2(b + 1) - Pow2(m) + w <= o < Pow2(b + 1)
    requires Pow2(m) <= w + Pow2(if s <= m then m - s else 0)
    ensures TopBits(o, b, 2 * s)
  {
    Pow2Monotone(m, b + 1);
  }

  lemma SmearMore(v: nat, b: nat, s: nat, m: nat)
    requires 0 < s && b + 1 == m + s && m > 0 && TopBits(v, b, s)
    ensures TopBits(Or(v, v / Pow2(s)), b, 2 * s)
  {
    var w := v / Pow2(s);
    ShiftedTop(v, b, s, m);
    AllOnes(s, m);
    SmearedLow(v, w, Pow2(s) - 1, m);
    TopFromParts(Or(v, w), w, b, s, m);
  }

  lemma SmearNothing(v: nat, b: nat, s: nat)
    requires b < s && TopBits(v, b, s)
    ensures v / Pow2(s) == 0
  {
    if b + 1 < s {
      Pow2Monotone(b + 1, s);
    }
    RemainderIs(v, Pow2(s), 0, v);
  }

  // One round of the smearing loop doubles the block of set bits.
  lemma SmearDoubles(v: nat, b: nat, s: nat)
    requires s > 0 && TopBits(v, b, s)
    ensures TopBits(Or(v, Shr(v, s)), b, 2 * s)
  {
    if s <= b {
      SmearMore(v, b, s, b + 1 - s);
    } else {
      SmearNothing(v, b, s);
    }
  }

  lemma HighPower(b: nat)
    requires b >= 63
    ensures Pow2(b) >= Pow2(63)
  {
    if b > 63 {
      Pow2Monotone(63, b);
    }
  }

  /** The bit-smearing loop computes the least power of two that is at least the argument,
    * or zero when that does not fit the word.
    */
  method NextPowerOfTwo(value: nat) returns (r: nat)
    requires value < WORD
    ensures r == 0 <==> value > Pow2(63)
    ensures r != 0 ==> IsPow2(r) && r >= value && (forall k: nat :: Pow2(k) >= value ==> Pow2(k) >= r)
  {
    Pow2Values();
    if value <= 1 {
      assert Pow2(0) == 1;
      return 1;
    }
    if value > 0x8000_0000_0000_0000 {
      return 0;
    }
    var v: nat := value - 1;
    ghost var b := HighestBit(v);
    if b >= 63 {
      HighPower(b);
      assert false;
    }
    var shift: nat := 1;
    while shift < 64
      invariant shift == 1 || shift == 2 || shift == 4 || shift == 8 || shift == 16 || shift == 32 || shift == 64
      invariant TopBits(v, b, shift)
      decreases 64 - shift
    {
      SmearDoubles(v, b, shift);
      v := Or(v, Shr(v, shift));
      shift := 2 * shift;
    }
    r := v + 1;
    assert r == Pow2(b + 1);
    forall k: nat | Pow2(k) >= value
      ensures Pow2(k) >= r
    {
      if k < b {
        Pow2Monotone(k, b);
      }
      if b + 1 < k {
        Pow2Monotone(b + 1, k);
      }
    }
  }

  /** The normalised capacity is the least power of two that is at least two and at least the
    * request; larger requests than 2^62 raise the length error.
    */
  method NormalizeCapacity(requested: nat) returns (c: Capacity)
    requires requested < WORD
    ensures c.LengthError? <==> requested > Pow2(62)
    ensures c.Ok? ==> IsPow2(c.value) && 2 <= c.value <= Pow2(62) && c.value >= requested
    ensures c.Ok? ==> forall k: nat :: Pow2(k) >= 2 && Pow2(k) >= requested ==> Pow2(k) >= c.value
  {
    Pow2Values();
    var value := if requested < 2 then 2 else requested;
    var capacity := NextPowerOfTwo(value);
    if capacity == 0 || capacity > 0x4000_0000_0000_0000 {
      assert Pow2(62) < value;
      return LengthError;
    }
    return Ok(capacity);
  }

  /** Positions are kept modulo 2^64; indexing by mask picks the cell `position mod capacity`. */
  lemma MaskedPosition(position: nat, k: nat)
    requires k <= 64
    ensures And(position % WORD, Pow2(k) - 1) == position % Pow2(k)
  {
    var c, f := Pow2(k), Pow2(64 - k);
    assert f * c == WORD by {
      Pow2Values();
      Pow2Add(64 - k, k);
    }
    AndMask(position % WORD, k);
    RemainderTwice(position, f, c);
  }

  lemma RemainderTwice(x: nat, f: nat, c: nat)
    requires f > 0 && c > 0 && f * c > 0
    ensures x % (f * c) % c == x % c
  {
    var q, r := x / (f * c), x % (f * c);
    assert x == q * (f * c) + r;
    Regroup(q, f, c, r / c);
    RemainderIs(x, c, q * f + r / c, r % c);
  }

  lemma Regroup(q: nat, f: nat, c: nat, d: nat)
    ensures q * (f * c) + d * c == (q * f + d) * c
  {
  }

  function SequenceBefore(sequence: nat, position: nat): bool
    requires sequence < WORD && position < WORD
  {
    (sequence + WORD - position) % WORD >= 0x8000_0000_0000_0000
  }

  /** The wrapped comparison of a cell sequence with a position is the true one as long as the
    * two are less than 2^63 apart.
    */
  lemma SequenceOrder(sequence: nat, position: nat)
    requires -0x8000_0000_0000_0000 <= sequence - position < 0x8000_0000_0000_0000
    ensures SequenceBefore(sequence % WORD, position % WORD) <==> sequence < position
  {
    var a, b := sequence % WORD, position % WORD;
    var q := sequence / WORD - position / WORD;
    assert sequence - position == q * WORD + (a - b);
    if q > 1 || q < -1 {
      assert false;
    }
  }
}
