/** Bitwise operations on unbounded natural numbers, and 32-bit words among them. */
module Bits {
  const WORD: nat := 0x1_0000_0000

  /** A 32-bit word. */
  type Word = x: nat | x < 0x1_0000_0000

  // ---- bits of unbounded numbers ----

  function Xor(a: nat, b: nat): nat {
    if a == 0 then b else if b == 0 then a else (a + b) % 2 + 2 * Xor(a / 2, b / 2)
  }

  function Or(a: nat, b: nat): nat {
    if a == 0 then b else if b == 0 then a
    else (if a % 2 == 1 || b % 2 == 1 then 1 else 0) + 2 * Or(a / 2, b / 2)
  }

  function Pow2(n: nat): (p: nat)
    ensures p > 0
  {
    if n == 0 then 1 else 2 * Pow2(n - 1)
  }

  function Shl(a: nat, n: nat): nat
    decreases n, a
  {
    if n == 0 then a else Shl(2 * a, n - 1)
  }

  function Shr(a: nat, n: nat): nat { if n == 0 then a else Shr(a / 2, n - 1) }

  /** `& 0xFFFFFFFF` */
  function Low32(a: nat): Word { a % WORD }

  lemma HalfBelow(a: nat, n: nat)
    requires n > 0 && a < Pow2(n)
    ensures a / 2 < Pow2(n - 1)
  {
  }

  lemma {:induction false} XorBelow(a: nat, b: nat, n: nat)
    requires a < Pow2(n) && b < Pow2(n)
    ensures Xor(a, b) < Pow2(n)
  {
    if a != 0 && b != 0 {
      HalfBelow(a, n);
      HalfBelow(b, n);
      XorBelow(a / 2, b / 2, n - 1);
    }
  }

  lemma {:induction false} OrBelow(a: nat, b: nat, n: nat)
    requires a < Pow2(n) && b < Pow2(n)
    ensures Or(a, b) < Pow2(n)
  {
    if a != 0 && b != 0 {
      HalfBelow(a, n);
      HalfBelow(b, n);
      OrBelow(a / 2, b / 2, n - 1);
    }
  }

  /** The low `n` bits. */
  function Low(a: nat, n: nat): nat { if n == 0 then 0 else a % 2 + 2 * Low(a / 2, n - 1) }

  lemma {:induction false} Split(a: nat, n: nat)
    ensures a == Low(a, n) + Pow2(n) * Shr(a, n) && Low(a, n) < Pow2(n)
  {
    if n > 0 {
      Split(a / 2, n - 1);
      SplitHalf(a, Low(a / 2, n - 1), Pow2(n - 1), Shr(a / 2, n - 1));
    }
  }

  lemma SplitHalf(a: nat, low: nat, unit: nat, high: nat)
    requires a / 2 == low + unit * high && low < unit
    ensures a == (a % 2 + 2 * low) + (2 * unit) * high && a % 2 + 2 * low < 2 * unit
  {
    assert (2 * unit) * high == 2 * (unit * high);
  }

  lemma {:induction false} Pow2Adds(m: nat, n: nat)
    ensures Pow2(m + n) == Pow2(m) * Pow2(n)
  {
    if m > 0 { Pow2Adds(m - 1, n); }
  }

  lemma Pow2Word()
    ensures Pow2(32) == WORD
  {
    assert Pow2(8) == 256;
    Pow2Adds(8, 8);
    Pow2Adds(16, 16);
  }

  lemma LowIsLow32(a: nat)
    ensures Low(a, 32) == Low32(a)
  {
    Split(a, 32);
    Pow2Word();
    LowPart(a, Low(a, 32), Pow2(32), Shr(a, 32));
  }

  lemma LowPart(a: nat, low: nat, word: nat, high: nat)
    requires a == low + word * high && word == WORD && low < word
    ensures a % WORD == low
  {
    assert a == low + WORD * high;
  }

  lemma OrBits(a: nat, b: nat)
    ensures Or(a, b) / 2 == Or(a / 2, b / 2)
    ensures Or(a, b) % 2 == if a % 2 == 1 || b % 2 == 1 then 1 else 0
  {
  }

  /** Cutting off the high bits before or after an "or" is the same. */
  lemma {:induction false} OrLow(a: nat, b: nat, n: nat)
    ensures Low(Or(a, b), n) == Or(Low(a, n), Low(b, n))
  {
    if n > 0 {
      OrLow(a / 2, b / 2, n - 1);
      OrBits(a, b);
      OrBits(Low(a, n), Low(b, n));
    }
  }

  lemma OrLow32(a: nat, b: nat)
    ensures Low32(Or(a, b)) == Or(Low32(a), Low32(b))
  {
    OrLow(a, b, 32);
    LowIsLow32(a);
    LowIsLow32(b);
    LowIsLow32(Or(a, b));
  }

  lemma OrWord(a: Word, b: Word)
    ensures Or(a, b) < WORD
  {
    Pow2Word();
    OrBelow(a, b, 32);
  }

  lemma XorWord(a: Word, b: Word)
    ensures Xor(a, b) < WORD
  {
    Pow2Word();
    XorBelow(a, b, 32);
  }

  type Byte = x: nat | x < 256

  lemma {:induction false} ShrSmaller(h: nat, n: nat)
    ensures Shr(h, n) <= h
  {
    if n > 0 { ShrSmaller(h / 2, n - 1); }
  }

  lemma {:induction false} ShlIsProduct(k: nat, n: nat)
    ensures Shl(k, n) == Pow2(n) * k
    decreases n
  {
    if n > 0 {
      ShlIsProduct(2 * k, n - 1);
      assert Pow2(n) * k == Pow2(n - 1) * (2 * k);
    }
  }

  // ---- masks ----

  function And(a: nat, b: nat): nat {
    if a == 0 || b == 0 then 0 else (if a % 2 == 1 && b % 2 == 1 then 1 else 0) + 2 * And(a / 2, b / 2)
  }

  /** `~a` in a 32-bit word. */
  function Not(a: Word): Word { WORD - 1 - a }

  lemma AndBits(a: nat, b: nat)
    ensures And(a, b) / 2 == And(a / 2, b / 2)
    ensures And(a, b) % 2 == if a % 2 == 1 && b % 2 == 1 then 1 else 0
  {
  }

  lemma {:induction false} AndCommutes(a: nat, b: nat)
    ensures And(a, b) == And(b, a)
  {
    if a != 0 && b != 0 { AndCommutes(a / 2, b / 2); }
  }

  lemma {:induction false} AndAssociates(a: nat, b: nat, c: nat)
    ensures And(And(a, b), c) == And(a, And(b, c))
  {
    if a != 0 && b != 0 && c != 0 {
      AndAssociates(a / 2, b / 2, c / 2);
      AndBits(a, b);
      AndBits(b, c);
      AndBits(And(a, b), c);
      AndBits(a, And(b, c));
    }
  }

  /** The bits inside a mask and those outside make up the number. */
  lemma {:induction false} AndSplits(a: nat, m: nat, n: nat)
    requires a < Pow2(n) && m < Pow2(n)
    ensures And(a, m) + And(a, Pow2(n) - 1 - m) == a
  {
    if n > 0 {
      HalfBelow(a, n);
      HalfBelow(m, n);
      AndSplits(a / 2, m / 2, n - 1);
      AndBits(a, m);
      AndBits(a, Pow2(n) - 1 - m);
      assert (Pow2(n) - 1 - m) / 2 == Pow2(n - 1) - 1 - m / 2;
    }
  }

  lemma AndNot(a: Word, m: Word)
    ensures And(a, m) + And(a, Not(m)) == a
  {
    Pow2Word();
    AndSplits(a, m, 32);
  }

  lemma {:induction false} AndOnes(y: nat, n: nat)
    requires y < Pow2(n)
    ensures And(Pow2(n) - 1, y) == y
  {
    if n > 0 {
      HalfBelow(y, n);
      AndOnes(y / 2, n - 1);
      AndBits(Pow2(n) - 1, y);
      assert (Pow2(n) - 1) / 2 == Pow2(n - 1) - 1;
    }
  }

  /** `n` bits of which the lowest `a` are zero. */
  function Ones(n: nat, a: nat): nat
    requires a <= n
  {
    if a == 0 then Pow2(n) - 1 else 2 * Ones(n - 1, a - 1)
  }

  lemma {:induction false} OnesIs(n: nat, a: nat)
    requires a <= n
    ensures Ones(n, a) == Pow2(n) - Pow2(a)
  {
    if a > 0 { OnesIs(n - 1, a - 1); }
  }

  lemma {:induction false} AndMasks(n: nat, a: nat, b: nat)
    requires a <= b <= n
    ensures And(Ones(n, a), Ones(n, b)) == Ones(n, b)
  {
    OnesIs(n, b);
    if a == 0 {
      AndOnes(Ones(n, b), n);
    } else {
      AndMasks(n - 1, a - 1, b - 1);
      AndBits(Ones(n, a), Ones(n, b));
    }
  }
}
