/** Machine words as natural numbers: bitwise operators defined bit by bit, and the handful
  * of facts that turn shifts and masks into multiplication and remainder.
  */
module Bits {

  function Pow2(k: nat): (r: nat)
    ensures r > 0
  {
    if k == 0 then 1 else 2 * Pow2(k - 1)
  }

  type Byte = b: nat | b < 256

  const WORD: nat := 0x1_0000_0000_0000_0000

  function And(x: nat, y: nat): nat {
    if x == 0 || y == 0 then 0 else (x % 2) * (y % 2) + 2 * And(x / 2, y / 2)
  }

  function Or(x: nat, y: nat): nat {
    if x == 0 then y
    else if y == 0 then x
    else (if x % 2 == 1 || y % 2 == 1 then 1 else 0) + 2 * Or(x / 2, y / 2)
  }

  // x << k on 64-bit words: the high bits fall off.
  function Shl(x: nat, k: nat): nat {
    x * Pow2(k) % WORD
  }

  function Quotient(x: nat, p: nat): nat
    requires p > 0
  {
    x / p
  }

  function Shr(x: nat, k: nat): nat {
    Quotient(x, Pow2(k))
  }

  lemma Pow2Values()
    ensures Pow2(2) == 4 && Pow2(16) == 0x1_0000 && Pow2(18) == 0x4_0000
    ensures Pow2(46) == 0x4000_0000_0000 && Pow2(48) == 0x1_0000_0000_0000
    ensures Pow2(62) == 0x4000_0000_0000_0000 && Pow2(63) == 0x8000_0000_0000_0000 && Pow2(64) == WORD
  {
    assert Pow2(8) == 256;
    assert Pow2(16) == 0x1_0000;
    assert Pow2(24) == 0x100_0000;
    assert Pow2(32) == 0x1_0000_0000;
    assert Pow2(40) == 0x100_0000_0000;
    assert Pow2(48) == 0x1_0000_0000_0000;
    assert Pow2(56) == 0x100_0000_0000_0000;
    assert Pow2(64) == WORD;
  }

  lemma {:induction false} Pow2Add(a: nat, b: nat)
    ensures Pow2(a + b) == Pow2(a) * Pow2(b)
  {
    if a > 0 {
      Pow2Add(a - 1, b);
    }
  }

  lemma {:induction false} Pow2Monotone(a: nat, b: nat)
    requires a < b
    ensures 2 * Pow2(a) <= Pow2(b)
  {
    if b > a + 1 {
      Pow2Monotone(a, b - 1);
    }
  }

  // Below a shifted part, or-ing acts on the low bits alone.
  lemma {:induction false} OrLow(h: nat, r: nat, w: nat, k: nat)
    requires r < Pow2(k) && w < Pow2(k)
    ensures Or(h * Pow2(k) + r, w) == h * Pow2(k) + Or(r, w)
    ensures w <= Or(r, w) < Pow2(k)
  {
    if k > 0 {
      var x := h * Pow2(k) + r;
      assert x == 2 * (h * Pow2(k - 1)) + r;
      assert x / 2 == h * Pow2(k - 1) + r / 2 && x % 2 == r % 2;
      OrLow(h, r / 2, w / 2, k - 1);
    }
  }

  lemma OrDisjoint(h: nat, w: nat, k: nat)
    requires w < Pow2(k)
    ensures Or(h * Pow2(k), w) == h * Pow2(k) + w
  {
    OrLow(h, 0, w, k);
  }

  /** Masking with a power of two minus one is the remainder. */
  lemma {:induction false} AndMask(x: nat, k: nat)
    ensures And(x, Pow2(k) - 1) == x % Pow2(k)
  {
    if k > 0 && x > 0 {
      var p := Pow2(k - 1);
      assert (2 * p - 1) / 2 == p - 1 && (2 * p - 1) % 2 == 1;
      AndMask(x / 2, k - 1);
      HalfRemainder(x, p);
      assert And(x, 2 * p - 1) == x % 2 + 2 * And(x / 2, p - 1);
    } else if k == 0 {
      assert x % 1 == 0;
    } else {
      assert 0 % Pow2(k) == 0;
    }
  }

  lemma HalfRemainder(x: nat, p: nat)
    requires p > 0
    ensures x % (2 * p) == x % 2 + 2 * (x / 2 % p)
  {
    var q, r := x / 2 / p, x / 2 % p;
    assert x / 2 == q * p + r;
    assert x == q * (2 * p) + (x % 2 + 2 * r);
    RemainderIs(x, 2 * p, q, x % 2 + 2 * r);
  }

  lemma {:induction false} MulStep(a: nat, b: nat, m: nat)
    requires a < b
    ensures a * m + m <= b * m
  {
    if b > a + 1 {
      MulStep(a, b - 1, m);
    }
    assert b * m == (b - 1) * m + m;
  }

  // Quotient and remainder are unique.
  lemma RemainderIs(x: nat, m: nat, q: nat, r: nat)
    requires m > 0 && x == q * m + r && r < m
    ensures x % m == r && x / m == q
  {
    var q' := x / m;
    assert x == q' * m + x % m;
    if q < q' {
      MulStep(q, q', m);
    } else if q' < q {
      MulStep(q', q, m);
    }
  }

  // A high part shifted above k low bits: both parts come back.
  lemma SplitWord(h: nat, w: nat, k: nat)
    requires w < Pow2(k)
    ensures Shr(h * Pow2(k) + w, k) == h && And(h * Pow2(k) + w, Pow2(k) - 1) == w
  {
    RemainderIs(h * Pow2(k) + w, Pow2(k), h, w);
    AndMask(h * Pow2(k) + w, k);
  }

  lemma ShlExact(x: nat, k: nat)
    requires x * Pow2(k) < WORD
    ensures Shl(x, k) == x * Pow2(k)
  {
    RemainderIs(x * Pow2(k), WORD, 0, x * Pow2(k));
  }

  lemma Regrouped(x: nat, p: nat, m: nat) returns (q: nat, v: nat)
    requires p > 0
    ensures v == x % p && x * m == q * (p * m) + v * m
  {
    q, v := x / p, x % p;
    assert x == q * p + v;
    assert (q * p + v) * m == q * p * m + v * m;
    assert q * p * m == q * (p * m);
  }

  // The high bits of x that a shift by k pushes out are those above bit n, where 2^(n+k) = 2^64.
  lemma ShlDrops(x: nat, n: nat, k: nat)
    requires Pow2(n) * Pow2(k) == WORD
    ensures Shl(x, k) == (x % Pow2(n)) * Pow2(k)
  {
    var q, v := Regrouped(x, Pow2(n), Pow2(k));
    MulStep(v, Pow2(n), Pow2(k));
    RemainderIs(x * Pow2(k), WORD, q, v * Pow2(k));
  }
}
