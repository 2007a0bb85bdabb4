// Nonlinear integer facts, isolated so that no other proof has to reason about products.
module Arith {

  lemma Distribute(a: int, b: int, m: int)
    ensures (a - b) * m == a * m - b * m
    ensures (a + b) * m == a * m + b * m
  {
  }

  lemma NonNegative(k: int, m: int)
    requires k >= 0 && m >= 0
    ensures k * m >= 0
  {
  }

  lemma AtLeastOnce(k: int, m: nat)
    requires k >= 1
    ensures k * m >= m
  {
    Distribute(k, 1, m);
    NonNegative(k - 1, m);
  }

  lemma DivMod(n: int, m: nat)
    requires m > 0
    ensures n == (n / m) * m + n % m && 0 <= n % m < m
  {
  }

  // Quotient and remainder are determined by the division equation.
  lemma ModUnique(n: int, q: int, r: int, m: nat)
    requires m > 0 && n == q * m + r && 0 <= r < m
    ensures n % m == r && n / m == q
  {
    var q' := n / m;
    DivMod(n, m);
    Distribute(q, q', m);
    Distribute(q', q, m);
    if q' < q {
      AtLeastOnce(q - q', m);
      assert false;
    } else if q' > q {
      AtLeastOnce(q' - q, m);
      assert false;
    }
  }

  lemma ModShift(a: int, k: int, m: nat)
    requires m > 0
    ensures (a + k * m) % m == a % m
  {
    DivMod(a, m);
    Distribute(a / m, k, m);
    ModUnique(a + k * m, a / m + k, a % m, m);
  }

  lemma ModSmall(n: int, m: nat)
    requires 0 <= n < m
    ensures n % m == n
  {
    ModUnique(n, 0, n, m);
  }

  lemma QuotientBound(x: nat, y: nat)
    requires y > 0
    ensures 0 <= x / y <= x
    ensures 0 <= x % y <= x
  {
    var q := x / y;
    DivMod(x, y);
    if q < 0 {
      AtLeastOnce(-q, y);
      Distribute(0, q, y);
      assert false;
    }
    Distribute(y, 1, q);
    NonNegative(q, y - 1);
    assert q * y == q + q * (y - 1);
  }
}
