/** Steps of real arithmetic that the solver needs one at a time. */
module RealArithmetic {

  /** Named, so that equal arguments give equal products. */
  function Product(n: real, a: real, b: real): real {
    n * a * b
  }

  /** |u - t v|^2 in terms of p = u.u, r = u.v and q = v.v. */
  function Quadratic(p: real, r: real, q: real, t: real): real {
    p - 2.0 * t * r + t * t * q
  }

  lemma QuadraticZero(t: real)
    ensures Quadratic(0.0, 0.0, 0.0, t) == 0.0
  {
  }

  lemma QuadraticStep(p: real, r: real, q: real, x: real, y: real, t: real)
    ensures Quadratic(p, r, q, t) + (x - t * y) * (x - t * y)
         == Quadratic(p + x * x, r + x * y, q + y * y, t)
  {
  }

  lemma PositiveSquare(a: real, v: real)
    requires a >= 0.0 && a * a == v
    ensures a > 0.0 <==> v != 0.0
  {
    assert Times(a, a) == a * a;
    if a > 0.0 { TimesPositive(a, a); }
  }

  lemma ZeroProduct(a: real, b: real)
    requires a * b == 0.0
    ensures a == 0.0 || b == 0.0
  {
    if a != 0.0 { assert b == (a * b) / a; }
  }

  lemma Cancel(x: real, y: real, n: real)
    requires n != 0.0 && x * n == y * n
    ensures x == y
  {
    assert (x - y) * n == 0.0;
    ZeroProduct(x - y, n);
  }

  lemma Quotient(c: real, d: real, q: real)
    requires d != 0.0 && c == q * d
    ensures c / d == q
  {
    Cancel(c / d, q, d);
  }

  function Times(a: real, b: real): real {
    a * b
  }

  lemma TimesPositive(a: real, b: real)
    requires a > 0.0 && b > 0.0
    ensures Times(a, b) > 0.0
  {
  }

  lemma ProductPositive(a: real, b: real)
    requires a > 0.0 && b > 0.0
    ensures a * b > 0.0
  {
  }

  lemma Square(x: real)
    ensures x * x >= 0.0 && (x * x == 0.0 ==> x == 0.0)
  {
    if x > 0.0 {
      ProductPositive(x, x);
    } else if x < 0.0 {
      var y := -x;
      ProductPositive(y, y);
      assert y * y == x * x;
    }
    if x * x == 0.0 { ZeroProduct(x, x); }
  }

  lemma SquareGrows(x: real, y: real)
    requires 0.0 <= y < x
    ensures x * x > y * y
  {
    assert x * x - y * y == (x - y) * (x + y);
    ProductPositive(x - y, x + y);
  }

  /** Non-negative numbers with equal squares are equal. */
  lemma RootsAgree(x: real, y: real)
    requires x >= 0.0 && y >= 0.0 && x * x == y * y
    ensures x == y
  {
    if x < y { SquareGrows(y, x); }
    if y < x { SquareGrows(x, y); }
  }

  lemma SquareBound(c: real, d: real)
    requires d >= 0.0 && c * c <= d * d
    ensures -d <= c <= d
  {
    if c > d { SquareGrows(c, d); }
    assert (-c) * (-c) == c * c;
    if -c > d { SquareGrows(-c, d); }
  }

  /** Comparing squares compares non-negative numbers. */
  lemma SquareCompare(x: real, y: real)
    requires x >= 0.0 && y >= 0.0
    ensures x > y <==> x * x > y * y
  {
    if x > y { SquareGrows(x, y); }
    if y > x { SquareGrows(y, x); }
  }

  lemma RatioBound(c: real, d: real)
    requires d > 0.0 && c * c <= d * d
    ensures -1.0 <= c / d <= 1.0
  {
    SquareBound(c, d);
    var q := c / d;
    assert q * d == c;
    if q > 1.0 { ProductPositive(q - 1.0, d); }
    if q < -1.0 { ProductPositive(-1.0 - q, d); }
  }

  /** `a * (a * d)`. */
  function Twice(a: real, d: real): real {
    Times(a, Times(a, d))
  }

  lemma RegroupScale(a: real, d: real, n: real)
    requires n != 0.0
    ensures Twice(a, d) / n == Twice(a, d / n)
  {
    var q := d / n;
    assert q * n == d;
    assert a * (a * (q * n)) == (a * (a * q)) * n;
    Quotient(Twice(a, d), n, Twice(a, q));
  }

  /** A quotient bounded through squares: c^2 <= p q with p = a^2 n and q = b^2 n. */
  lemma BoundFromSquares(c: real, p: real, q: real, n: real, a: real, b: real)
    requires c * c <= p * q && p == a * a * n && q == b * b * n && Product(n, a, b) > 0.0
    ensures -1.0 <= c / Product(n, a, b) <= 1.0
  {
    var d := Product(n, a, b);
    assert p * q == d * d;
    RatioBound(c, d);
  }

  /** `|x| / d > t` without the division. */
  lemma QuotientExceeds(x: real, d: real, t: real)
    requires d > 0.0
    ensures x / d > t <==> x > t * d
  {
    var q := x / d;
    assert q * d == x;
    if q > t { ProductPositive(q - t, d); }
    if x > t * d && q <= t {
      if q < t { ProductPositive(t - q, d); }
    }
  }

  /** `x / d >= t` without the division. */
  lemma QuotientReaches(x: real, d: real, t: real)
    requires d > 0.0
    ensures x / d >= t <==> x >= t * d
  {
    QuotientExceeds(-x, d, -t);
    var q := x / d;
    assert q * d == x;
    assert (-q) * d == -x;
    Quotient(-x, d, -q);
    assert (-t) * d == -(t * d);
  }

  lemma AffineQuotient(a: real, x: real, b: real, n: real)
    requires n != 0.0
    ensures (a * x + b * n) / n == a * (x / n) + b
  {
    var q := x / n;
    assert q * n == x;
    assert a * (q * n) == (a * q) * n;
    Quotient(a * x + b * n, n, a * q + b);
  }

  lemma ScaleStep(a: real, d: real, x: real, y: real)
    ensures a * d + (a * x) * y == a * (d + x * y)
  {
  }

  lemma ZeroQuotient(d: real, n: real)
    requires n != 0.0 && d / n == 0.0
    ensures d == 0.0
  {
    assert d == (d / n) * n;
  }

  /** A quadratic that is never negative has no positive discriminant. */
  lemma DiscriminantBound(p: real, r: real, q: real)
    requires q > 0.0 && Quadratic(p, r, q, r / q) >= 0.0
    ensures r * r <= p * q
  {
    var t := r / q;
    assert t * q == r;
    assert t * t * q == t * r;
    assert p - t * r >= 0.0;
    NonNegativeProduct(p - t * r, q);
    assert (t * r) * q == r * r;
  }

  lemma NonNegativeProduct(a: real, b: real)
    requires a >= 0.0 && b >= 0.0
    ensures a * b >= 0.0
  {
  }

  /** The root of a scaled square. */
  lemma ScaledRoot(a: real, x: real, v: real, y: real)
    requires a >= 0.0 && x >= 0.0 && x * x == v && y >= 0.0 && y * y == Twice(a, v)
    ensures y == a * x
  {
    NonNegativeProduct(a, x);
    assert (a * x) * (a * x) == a * (a * (x * x));
    RootsAgree(y, a * x);
  }

  /** `r` has the sign of `c`, and its square is that of `c` over `k`. */
  predicate IsRatio(r: real, c: real, k: real) {
    r * r * k == c * c && (r > 0.0 <==> c > 0.0) && (r < 0.0 <==> c < 0.0)
  }
}
