/** Division and multiplication facts the solver does not find by itself. */
module Arith {
  predicate IsPow2(n: nat) { n == 1 || (n > 0 && n % 2 == 0 && IsPow2(n / 2)) }

  function DivCeil(a: nat, b: nat): nat
    requires b > 0
  {
    (a + b - 1) / b
  }

  lemma MulGap(p: nat, q: nat, a: nat)
    requires p < q
    ensures p * a + a <= q * a
  {
    assert (q - p - 1) * a >= 0;
    assert q * a == p * a + a + (q - p - 1) * a;
  }

  lemma QuotientRemainder(x: nat, a: nat)
    requires a > 0
    ensures x == x / a * a + x % a && 0 <= x / a && x % a < a
  {
  }

  /** Quotient and remainder are unique. */
  lemma SplitUnique(a: nat, q: nat, r: nat, d: nat, e: nat)
    requires r < a && e < a && q * a + r == d * a + e
    ensures q == d && r == e
  {
    if d < q { MulGap(d, q, a); }
    if q < d { MulGap(q, d, a); }
  }

  lemma DivUnique(x: nat, a: nat, q: nat, r: nat)
    requires a > 0 && r < a && x == q * a + r
    ensures x / a == q && x % a == r
  {
    SplitUnique(a, q, r, x / a, x % a);
  }

  lemma MulMod(k: nat, a: nat)
    requires a > 0
    ensures (k * a) % a == 0 && (k * a) / a == k
  {
    DivUnique(k * a, a, k, 0);
  }

  /** A multiple of a multiple. */
  lemma MultipleOf(x: nat, a: nat, b: nat)
    requires a > 0 && b > 0 && x % a == 0 && a % b == 0
    ensures x % b == 0
  {
    var m, k := x / a, a / b;
    assert x == m * a && a == k * b;
    assert m * (k * b) == (m * k) * b;
    MulMod(m * k, b);
  }
}
