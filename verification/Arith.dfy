/** Facts about products, quotients and remainders that the solver does not find by itself. */
module Arith {
  lemma MulMono(a: nat, b: nat, d: nat)
    requires a <= b
    ensures a * d <= b * d
  {
  }

  lemma MulSucc(a: nat, d: nat)
    ensures (a + 1) * d == a * d + d
  {
  }

  lemma DivMod(v: nat, d: nat)
    requires d > 0
    ensures v / d >= 0 && 0 <= v % d < d
    ensures v == v % d + (v / d) * d
  {
  }

  lemma DivBound(v: nat, d: nat, k: nat)
    requires d > 0 && v < k * d
    ensures v / d < k
  {
    DivMod(v, d);
    var q := v / d;
    if q >= k {
      MulMono(k, q, d);
    }
  }

  /** Quotient and remainder are the only parts that fit. */
  lemma Parts(x: nat, d: nat, q: nat, r: nat)
    requires r < d && x == q * d + r
    ensures x / d == q && x % d == r
  {
    DivMod(x, d);
    MulSucc(q, d);
    MulSucc(x / d, d);
    if q < x / d {
      MulMono(q + 1, x / d, d);
    } else if x / d < q {
      MulMono(x / d + 1, q, d);
    }
  }
}
