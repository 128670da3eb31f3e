// Products and quotients, one small fact per lemma.
module Arithmetic {
  lemma MulNonNegative(x: int, y: int)
    requires x >= 0 && y >= 0
    ensures x * y >= 0
  {
  }

  lemma MulAtLeast(d: int, e: int)
    requires d >= 0 && e >= 1
    ensures d * e >= d
  {
    MulNonNegative(d, e - 1);
    assert d * e == d * (e - 1) + d;
  }

  lemma MulMono(d: int, x: int, y: int)
    requires d >= 0 && x <= y
    ensures d * x <= d * y
  {
    MulNonNegative(d, y - x);
    assert d * y == d * x + d * (y - x);
  }

  /** Quotient and remainder are determined by x == d * q + r. */
  lemma DivUnique(x: int, d: int, q: int, r: int)
    requires d > 0 && 0 <= r < d && x == d * q + r
    ensures x / d == q && x % d == r
  {
    var p, m := x / d, x % d;
    var e := p - q;
    assert d * e == r - m by {
      assert x == d * p + m;
      assert d * e == d * p - d * q;
    }
    if e >= 1 {
      MulAtLeast(d, e);
      assert false;
    } else if e <= -1 {
      MulAtLeast(d, -e);
      assert false;
    }
  }

  lemma DivExact(d: int, q: int)
    requires d > 0
    ensures (d * q) / d == q && (d * q) % d == 0
  {
    DivUnique(d * q, d, q, 0);
  }

  /** Two products with the same positive factor are equal only if the other factors are. */
  lemma MulCancel(d: int, x: int, y: int)
    requires d > 0 && d * x == d * y
    ensures x == y
  {
    DivExact(d, x);
    DivExact(d, y);
  }

  lemma MulAssoc(x: int, y: int, z: int)
    ensures (x * y) * z == x * (y * z)
  {
  }

  lemma DivMono(x: int, y: int, d: int)
    requires d > 0 && x <= y
    ensures x / d <= y / d
  {
    var p, q := x / d, y / d;
    if p > q {
      MulMono(d, q + 1, p);
      assert false;
    }
  }

  lemma QuotientAtMost(x: int, d: int)
    requires d > 0 && x >= 0
    ensures 0 <= x / d <= x
  {
    DivMono(0, x, d);
    MulAtLeast(x / d, d);
  }

  lemma QuotientMono(x: int, y: int, n: int, d: int)
    requires d > 0 && n >= 0 && x <= y
    ensures (x / d) * n <= (y / d) * n
  {
    DivMono(x, y, d);
    MulMono(n, x / d, y / d);
  }

  lemma ProductMono(x: int, y: int, n: int, d: int)
    requires d > 0 && n >= 0 && x <= y
    ensures (x * n) / d <= (y * n) / d
  {
    MulMono(n, x, y);
    DivMono(x * n, y * n, d);
  }

  lemma ScaledOrder(g: int, n: int, d: int)
    requires g > 0
    ensures g * n <= g * d <==> n <= d
  {
    if n <= d {
      MulMono(g, n, d);
    } else {
      MulMono(g, d + 1, n);
      assert g * (d + 1) == g * d + g;
    }
  }

  /** Dividing before multiplying drops the share of the remainder. */
  lemma SplitQuotient(a: nat, n: nat, d: nat)
    requires d > 0
    ensures (a * n) / d == (a / d) * n + ((a % d) * n) / d
  {
    var q, r := a / d, a % d;
    var p, m := (r * n) / d, (r * n) % d;
    calc {
      a * n;
      (d * q + r) * n;
      (d * q) * n + r * n;
      { MulAssoc(d, q, n); }
      d * (q * n) + (d * p + m);
      d * (q * n + p) + m;
    }
    DivUnique(a * n, d, q * n + p, m);
  }

  lemma DivLess(x: int, d: int, n: int)
    requires d > 0 && x < d * n
    ensures x / d < n
  {
    if n <= x / d {
      MulMono(d, n, x / d);
      assert false;
    }
  }

  lemma RemainderShare(r: nat, n: nat, d: nat)
    requires r < d && 0 < n <= d
    ensures 0 <= (r * n) / d <= r && (r * n) / d <= n - 1
  {
    MulNonNegative(r, n);
    assert r * n < d * (r + 1) by {
      MulMono(r, n, d);
    }
    assert r * n < d * n by {
      MulMono(n, r + 1, d);
    }
    DivLess(r * n, d, r + 1);
    DivLess(r * n, d, n);
    DivMono(0, r * n, d);
  }

  /**
   * A quotient by a positive number that is no larger stays positive, and is smaller exactly when that number
   * exceeds 1.
   */
  lemma QuotientInside(m: nat, n: nat)
    requires 1 <= n <= m
    ensures 1 <= m / n <= m && (n > 1 <==> m / n < m)
  {
    var q, r := m / n, m % n;
    if q < 1 {
      MulMono(n, q, 0);
    }
    if n > 1 {
      MulMono(q, 2, n);
    }
  }

  /** Dividing a large number by d and multiplying by more than d exceeds it. */
  lemma LargeProduct(m: nat, n: nat, d: nat, q: nat, r: nat, bound: nat)
    requires 0 < d < n && d <= bound && (bound + 1) * bound <= m && m == d * q + r && r < d
    ensures m < q * n
  {
    if q <= bound {
      MulMono(d, q, bound);
      MulMono(bound, d, bound);
    }
    MulMono(q, d + 1, n);
  }

  /** Dividing first loses less than n, and neither quotient exceeds a when n <= d. */
  lemma SplitBounds(a: nat, n: nat, d: nat)
    requires 0 < n <= d
    ensures 0 <= (a * n) / d - (a / d) * n <= n - 1
    ensures 0 <= (a / d) * n <= (a * n) / d <= a
  {
    var q, r := a / d, a % d;
    SplitQuotient(a, n, d);
    RemainderShare(r, n, d);
    MulNonNegative(q, n);
    MulMono(q, n, d);
  }

  /** A common factor of numerator and denominator cancels. */
  lemma ScaledQuotient(g: int, x: int, d: int)
    requires g > 0 && d > 0 && g * d > 0
    ensures (g * x) / (g * d) == x / d
  {
    var q, r := x / d, x % d;
    assert g * x == (g * d) * q + g * r by {
      MulAssoc(g, d, q);
      assert x == d * q + r;
    }
    MulNonNegative(g, r);
    MulMono(g, r + 1, d);
    DivUnique(g * x, g * d, q, g * r);
  }

  lemma CommonFactor(g: int, x: int, y: int, q: int, a: int)
    requires a == (g * x) * q + g * y
    ensures a == g * (x * q + y)
  {
    MulAssoc(g, x, q);
  }

  lemma MulSwap(x: int, g: int, n: int)
    ensures x * (g * n) == g * (x * n)
  {
    MulAssoc(x, g, n);
    MulAssoc(g, x, n);
  }
}
