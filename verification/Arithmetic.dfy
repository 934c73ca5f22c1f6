// Products and quotients, one small fact at a time.
module Arithmetic {

  lemma MulMonotone(a: int, b: int, c: nat)
    requires a <= b
    ensures a * c <= b * c
  {
  }

  lemma MulSuccessor(a: int, b: int)
    ensures (a + 1) * b == a * b + b
    ensures b * (a + 1) == b * a + b
  {
  }

  // A leading digit decides between numbers of the same length.
  lemma LeadingDigit(d: nat, e: nat, p: nat, x: nat, y: nat)
    requires d < e && x < p
    ensures d * p + x < e * p + y
  {
    MulMonotone(d + 1, e, p);
    MulSuccessor(d, p);
  }

  lemma DivideUnique(n: nat, d: nat, q: nat, r: nat)
    requires d > 0 && r < d && n == q * d + r
    ensures n / d == q && n % d == r
  {
    var q', r' := n / d, n % d;
    assert n == q' * d + r' by { DivModIdentity(n, d); }
    if q < q' {
      LeadingDigit(q, q', d, r, r');
    } else if q' < q {
      LeadingDigit(q', q, d, r', r);
    }
  }

  lemma DivModIdentity(n: nat, d: nat)
    requires d > 0
    ensures n == (n / d) * d + n % d && 0 <= n % d < d && 0 <= n / d
  {
  }

  // Counting one further crosses at most one multiple of d.
  lemma DivideStep(n: nat, d: nat)
    requires d > 0
    ensures (n + 1) / d == if (n + 1) % d == 0 then n / d + 1 else n / d
  {
    var q, r := n / d, n % d;
    DivModIdentity(n, d);
    if r == d - 1 {
      MulSuccessor(q, d);
      DivideUnique(n + 1, d, q + 1, 0);
    } else {
      DivideUnique(n + 1, d, q, r + 1);
    }
  }
}
