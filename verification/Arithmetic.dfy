/** Facts about products and quotients that the solver needs to be told. */
module Arithmetic {

  lemma MulAssociates(a: nat, b: nat, c: nat)
    ensures a * (b * c) == (a * b) * c
  {
  }

  lemma MulStrict(a: nat, b: nat, p: nat)
    requires a < b && p > 0
    ensures a * p < b * p
  {
    assert b * p == a * p + (b - a) * p;
  }

  lemma MulCancel(a: nat, b: nat, p: nat)
    requires a * p == b * p && p > 0
    ensures a == b
  {
    if a < b {
      MulStrict(a, b, p);
    } else if b < a {
      MulStrict(b, a, p);
    }
  }

  lemma MulMonotone(a: nat, b: nat, p: nat)
    requires a <= b
    ensures a * p <= b * p
  {
    assert b * p == a * p + (b - a) * p;
  }

  lemma ExactQuotient(n: nat, k: nat)
    requires k > 0
    ensures n * k / k == n
  {
    var q := n * k / k;
    QuotientBounds(n * k, k);
    if q < n {
      MulMonotone(q + 1, n, k);
    } else if q > n {
      MulStrict(n, q, k);
    }
  }

  lemma QuotientBounds(x: nat, k: nat)
    requires k > 0
    ensures x / k * k <= x < (x / k + 1) * k
  {
  }

  lemma QuotientRises(x: nat, y: nat, k: nat)
    requires x <= y && k > 0
    ensures x / k <= y / k
  {
    if x / k > y / k {
      MulMonotone(y / k + 1, x / k, k);
    }
  }
}
