/** Quotients and remainders. */
module Arith {
  /** How many pieces of `d` it takes to make `n`. */
  function CeilDiv(n: nat, d: nat): nat
    requires d > 0
  {
    (n + d - 1) / d
  }

  lemma AtLeast(k: int, d: nat)
    requires k >= 1
    ensures k * d >= d
  {
  }

  /** Quotient and remainder are the only numbers that can be them. */
  lemma DivisionIs(a: int, m: nat, q: int, r: int)
    requires m > 0 && a == q * m + r && 0 <= r < m
    ensures a / m == q && a % m == r
  {
    var q', r' := a / m, a % m;
    assert a == q' * m + r';
    assert (q - q') * m == r' - r && (q' - q) * m == r - r';
    if q > q' { AtLeast(q - q', m); }
    if q < q' { AtLeast(q' - q, m); }
  }

  /** One piece off the front. */
  lemma DivUp(n: nat, d: int)
    requires d > 0
    ensures n == 0 ==> CeilDiv(n, d) == 0
    ensures 0 < n <= d ==> CeilDiv(n, d) == 1
    ensures n > d ==> CeilDiv(n, d) == CeilDiv(n - d, d) + 1
  {
    if n > d {
      DivStep(n - 1, d);
    } else if n > 0 {
      DivStep(n - 1, d);
    }
  }

  lemma DivStep(a: nat, d: nat)
    requires d > 0
    ensures (a + d) / d == a / d + 1 && (a < d ==> a / d == 0)
  {
    var q, r := a / d, a % d;
    assert a == q * d + r;
    assert a + d == (q + 1) * d + r;
    DivisionIs(a + d, d, q + 1, r);
    if a < d { DivisionIs(a, d, 0, a); }
  }
}
