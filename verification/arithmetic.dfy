/** Facts about products and quotients of variables, kept apart because the solver finds them costly. */
module Arithmetic {

  lemma MulMonotone(a: nat, b: nat, k: nat)
    requires a <= b
    ensures a * k <= b * k
  {
    assert b * k == a * k + (b - a) * k;
  }

  lemma ProductAtLeast(q: nat, b: nat)
    requires b > 0
    ensures b * q >= q
  {
    MulMonotone(1, b, q);
  }

  lemma QuotientAtMost(a: nat, b: nat)
    requires b > 0
    ensures a / b <= a
  {
    ProductAtLeast(a / b, b);
    assert a == b * (a / b) + a % b;
  }

  lemma QuotientAtLeast(n: nat, k: nat, w: nat)
    requires k > 0 && n * k <= w
    ensures n <= w / k
  {
    var q := w / k;
    assert w < k * q + k;
    assert (q + 1) * k == k * q + k;
    if n > q {
      MulMonotone(q + 1, n, k);
    }
  }

  lemma QuotientIs(a: nat, d: nat, q: nat)
    requires d > 0 && q * d <= a < q * d + d
    ensures a / d == q
  {
    QuotientAtLeast(q, d, a);
    assert a == d * (a / d) + a % d;
    assert (q + 1) * d == q * d + d;
    if a / d > q {
      MulMonotone(q + 1, a / d, d);
    }
  }

  lemma HalveQuotient(a: nat, p: nat)
    requires p > 0
    ensures a / p / 2 == a / (2 * p)
  {
    var q, h := a / p, a / p / 2;
    assert a == p * q + a % p;
    assert q == 2 * h + q % 2;
    assert p * q == h * (2 * p) + p * (q % 2);
    QuotientIs(a, 2 * p, h);
  }

  lemma ModOnce(x: nat, n: nat)
    requires 0 < n && x < 2 * n
    ensures x % n == if x < n then x else x - n
  {
    if x >= n {
      assert x == n * 1 + (x - n);
      assert x / n == 1;
    }
  }
}
