/** Division by a positive number, for the modules that count. */
module Arithmetic {

  lemma Quotient(n: nat, d: nat, q: nat, r: nat)
    requires n == q * d + r && r < d
    ensures n / d == q
  {
    var k := n / d - q;
    DivMod(n, d);
    assert k * d == n / d * d - q * d;
    MulBound(k, d);
  }

  lemma DivMod(n: nat, d: nat)
    requires d > 0
    ensures n == n / d * d + n % d && 0 <= n % d < d
  {
  }

  lemma MulBound(k: int, d: nat)
    ensures k >= 1 ==> k * d >= d
    ensures k <= -1 ==> k * d + d <= 0
  {
    if k >= 1 { assert (k - 1) * d >= 0; } else if k <= -1 { assert (-1 - k) * d >= 0; }
  }

  lemma MulMonotone(a: int, b: int, d: nat)
    requires a <= b
    ensures a * d <= b * d
  {
    assert (b - a) * d >= 0;
  }
}
