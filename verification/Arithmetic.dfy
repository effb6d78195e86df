/** Facts about products and quotients that the solver needs one at a time. */
module Arithmetic {
  lemma TimesMono(a: int, b: int, c: nat)
    requires a <= b
    ensures a * c <= b * c
  {
  }

  lemma Steps(a: int, b: int, d: nat)
    ensures a < b ==> a * d + d <= b * d
  {
    if a < b { TimesMono(a + 1, b, d); }
  }

  lemma Quotient(x: nat, d: nat)
    requires d > 0
    ensures (x / d) * d <= x < (x / d) * d + d
  {
    assert x == d * (x / d) + x % d;
  }

  lemma DivIs(x: nat, d: nat, q: nat)
    requires d > 0 && q * d <= x < q * d + d
    ensures x / d == q
  {
    Quotient(x, d);
    Steps(x / d, q, d);
    Steps(q, x / d, d);
  }

  lemma Divides(x: nat, m: nat, d: nat, r: nat)
    requires r < d && x == m * d + r
    ensures x % d == r
  {
    DivIs(x, d, m);
    assert x == d * (x / d) + x % d;
  }
}
