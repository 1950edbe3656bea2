/** The Pearson correlation of two lists of equal length. */
module Pearson {
  import opened RealArithmetic
  import opened Sequences
  import opened Stats
  import opened SumForms

  /** `pearson_r`; 0.0 on degenerate input. */
  function PearsonR(sqrt: real -> real, xs: seq<real>, ys: seq<real>): real
    requires IsRoot(sqrt) && |xs| == |ys|
  {
    var n := |xs|;
    if n < 2 then 0.0
    else
      var cov := Dot(Centred(xs), Centred(ys));
      var sdx, sdy := sqrt(Variance(xs)), sqrt(Variance(ys));
      if sdx == 0.0 || sdy == 0.0 then 0.0
      else
        assert Product(n as real, sdx, sdy) > 0.0 by { DivisorPositive(sqrt, xs, ys); }
        cov / (Product(n as real, sdx, sdy))
  }

  lemma DivisorPositive(sqrt: real -> real, xs: seq<real>, ys: seq<real>)
    requires IsRoot(sqrt) && |xs| == |ys| && |xs| >= 2
    ensures sqrt(Variance(xs)) >= 0.0 && sqrt(Variance(ys)) >= 0.0
    ensures sqrt(Variance(xs)) != 0.0 && sqrt(Variance(ys)) != 0.0
            ==> Product(|xs| as real, sqrt(Variance(xs)), sqrt(Variance(ys))) > 0.0
  {
    VarianceNonNegative(xs);
    VarianceNonNegative(ys);
    var a, b, n := sqrt(Variance(xs)), sqrt(Variance(ys)), |xs| as real;
    if a != 0.0 && b != 0.0 {
      ProductPositive(n, a);
      ProductPositive(n * a, b);
    }
  }

  /** Neither list is constant and there are at least two points. */
  predicate Proper(xs: seq<real>, ys: seq<real>)
    requires |xs| == |ys|
  {
    |xs| >= 2 && Variance(xs) != 0.0 && Variance(ys) != 0.0
  }

  lemma RootOfVariance(sqrt: real -> real, s: seq<real>)
    requires IsRoot(sqrt) && s != []
    ensures sqrt(Variance(s)) >= 0.0 && sqrt(Variance(s)) * sqrt(Variance(s)) == Variance(s)
    ensures sqrt(Variance(s)) > 0.0 <==> Variance(s) != 0.0
  {
    VarianceNonNegative(s);
    PositiveSquare(sqrt(Variance(s)), Variance(s));
  }

  lemma ProperDivisor(sqrt: real -> real, xs: seq<real>, ys: seq<real>)
    requires IsRoot(sqrt) && |xs| == |ys| && |xs| >= 2
    ensures sqrt(Variance(xs)) >= 0.0 && sqrt(Variance(ys)) >= 0.0
    ensures Proper(xs, ys) <==> sqrt(Variance(xs)) > 0.0 && sqrt(Variance(ys)) > 0.0
    ensures Proper(xs, ys) ==> Product(|xs| as real, sqrt(Variance(xs)), sqrt(Variance(ys))) > 0.0
  {
    RootOfVariance(sqrt, xs);
    RootOfVariance(sqrt, ys);
    DivisorPositive(sqrt, xs, ys);
  }

  lemma VarianceTimesCount(s: seq<real>)
    requires s != []
    ensures Variance(s) * (|s| as real) == Dot(Centred(s), Centred(s))
  {
  }

  /** The coefficient lies between -1 and 1, on all input. */
  lemma PearsonBounded(sqrt: real -> real, xs: seq<real>, ys: seq<real>)
    requires IsRoot(sqrt) && |xs| == |ys|
    ensures -1.0 <= PearsonR(sqrt, xs, ys) <= 1.0
  {
    if |xs| >= 2 {
      ProperDivisor(sqrt, xs, ys);
      if Proper(xs, ys) {
        ProperBound(sqrt, xs, ys);
      }
    }
  }

  lemma ProperBound(sqrt: real -> real, xs: seq<real>, ys: seq<real>)
    requires IsRoot(sqrt) && |xs| == |ys| && Proper(xs, ys)
    ensures var d := Product(|xs| as real, sqrt(Variance(xs)), sqrt(Variance(ys)));
            d > 0.0 && -1.0 <= Dot(Centred(xs), Centred(ys)) / d <= 1.0
  {
    var a, b, n := sqrt(Variance(xs)), sqrt(Variance(ys)), |xs| as real;
    ProperDivisor(sqrt, xs, ys);
    CauchySchwarz(Centred(xs), Centred(ys));
    VarianceTimesCount(xs);
    VarianceTimesCount(ys);
    RootOfVariance(sqrt, xs);
    RootOfVariance(sqrt, ys);
    BoundFromSquares(Dot(Centred(xs), Centred(ys)), Dot(Centred(xs), Centred(xs)), Dot(Centred(ys), Centred(ys)), n, a, b);
  }

  lemma PearsonSymmetric(sqrt: real -> real, xs: seq<real>, ys: seq<real>)
    requires IsRoot(sqrt) && |xs| == |ys|
    ensures PearsonR(sqrt, xs, ys) == PearsonR(sqrt, ys, xs)
  {
    if |xs| >= 2 {
      DotSymmetric(Centred(xs), Centred(ys), |xs|);
      var n, a, b := |xs| as real, sqrt(Variance(xs)), sqrt(Variance(ys));
      assert Product(n, a, b) == Product(n, b, a);
      if a != 0.0 && b != 0.0 {
        DivisorPositive(sqrt, xs, ys);
        assert PearsonR(sqrt, xs, ys) == Dot(Centred(xs), Centred(ys)) / Product(n, a, b);
        assert PearsonR(sqrt, ys, xs) == Dot(Centred(xs), Centred(ys)) / Product(n, b, a);
      }
    }
  }

  lemma ScaledRatio(k: real, c: real, n: real, a: real, b: real)
    requires k > 0.0 && Product(n, a, b) > 0.0
    ensures Product(n, k * a, b) > 0.0 && (k * c) / Product(n, k * a, b) == c / Product(n, a, b)
  {
    var d := Product(n, a, b);
    assert Product(n, k * a, b) == k * d;
    ProductPositive(k, d);
    var q := c / d;
    assert k * c == q * (k * d);
    Quotient(k * c, k * d, q);
  }

  /** A positive affine change of the first list leaves the coefficient unchanged;
      by symmetry so does one of the second. */
  lemma PearsonAffine(sqrt: real -> real, xs: seq<real>, ys: seq<real>, k: real, m: real)
    requires IsRoot(sqrt) && |xs| == |ys| && k > 0.0
    ensures PearsonR(sqrt, Affine(xs, k, m), ys) == PearsonR(sqrt, xs, ys)
    ensures PearsonR(sqrt, ys, Affine(xs, k, m)) == PearsonR(sqrt, ys, xs)
  {
    PearsonSymmetric(sqrt, Affine(xs, k, m), ys);
    PearsonSymmetric(sqrt, xs, ys);
    if |xs| >= 2 {
      AffineCoefficient(sqrt, xs, ys, k, m);
    }
  }

  lemma AffineCoefficient(sqrt: real -> real, xs: seq<real>, ys: seq<real>, k: real, m: real)
    requires IsRoot(sqrt) && |xs| == |ys| && |xs| >= 2 && k > 0.0
    ensures PearsonR(sqrt, Affine(xs, k, m), ys) == PearsonR(sqrt, xs, ys)
  {
    var xs' := Affine(xs, k, m);
    var a, b, n := sqrt(Variance(xs)), sqrt(Variance(ys)), |xs| as real;
    var c := Dot(Centred(xs), Centred(ys));
    CentredAffine(xs, k, m);
    DotScale(Centred(xs), Centred(xs'), Centred(ys), k, |xs|);
    DeviationAffine(sqrt, xs, k, m);
    DivisorPositive(sqrt, xs, ys);
    DivisorPositive(sqrt, xs', ys);
    if a != 0.0 && b != 0.0 {
      ProductPositive(k, a);
      ScaledRatio(k, c, n, a, b);
      assert PearsonR(sqrt, xs', ys) == (k * c) / Product(n, k * a, b);
    }
  }

  /** A list that is not constant correlates perfectly with itself. */
  lemma PearsonSelf(sqrt: real -> real, xs: seq<real>)
    requires IsRoot(sqrt) && Proper(xs, xs)
    ensures PearsonR(sqrt, xs, xs) == 1.0
  {
    ProperDivisor(sqrt, xs, xs);
    VarianceTimesCount(xs);
    VarianceNonNegative(xs);
    var a, n := sqrt(Variance(xs)), |xs| as real;
    assert Product(n, a, a) == Variance(xs) * n;
    Quotient(Dot(Centred(xs), Centred(xs)), Product(n, a, a), 1.0);
  }

  /** Lists in constant positive proportion correlate perfectly. */
  lemma ProportionalCorrelates(sqrt: real -> real, costs: seq<real>, revs: seq<real>, c: real)
    requires IsRoot(sqrt) && |costs| == |revs| && Proper(revs, revs) && c > 0.0
    requires forall i :: 0 <= i < |revs| ==> costs[i] == c * revs[i]
    ensures PearsonR(sqrt, costs, revs) == 1.0
  {
    assert costs == Affine(revs, c, 0.0);
    PearsonAffine(sqrt, revs, revs, c, 0.0);
    PearsonSelf(sqrt, revs);
  }

  // ---- The extreme case ----

  /** With these deviations and this product, the square of the difference vanishes. */
  lemma VanishingQuadratic(n: real, a: real, b: real, k: real)
    requires k * b == a
    ensures Quadratic((a * a) * n, Product(n, a, b), (b * b) * n, k) == 0.0
  {
    assert k * Product(n, a, b) == n * a * (k * b);
    assert k * k * ((b * b) * n) == (k * b) * (k * b) * n;
  }

  lemma PerfectProduct(sqrt: real -> real, xs: seq<real>, ys: seq<real>)
    requires IsRoot(sqrt) && |xs| == |ys| && PearsonR(sqrt, xs, ys) == 1.0
    ensures Proper(xs, ys)
    ensures Dot(Centred(xs), Centred(ys)) == Product(|xs| as real, sqrt(Variance(xs)), sqrt(Variance(ys)))
  {
    ProperDivisor(sqrt, xs, ys);
    var c, d := Dot(Centred(xs), Centred(ys)), Product(|xs| as real, sqrt(Variance(xs)), sqrt(Variance(ys)));
    assert c == (c / d) * d;
  }

  lemma VanishingDifference(u: seq<real>, v: seq<real>, k: real)
    requires |u| == |v| && Dot(Minus(u, v, k), Minus(u, v, k)) == 0.0
    ensures forall i :: 0 <= i < |u| ==> u[i] == k * v[i]
  {
    DotSquare(Minus(u, v, k), |u|);
    forall i | 0 <= i < |u| ensures u[i] == k * v[i] {
      assert Minus(u, v, k)[i] == 0.0;
    }
  }

  lemma PerfectDistance(sqrt: real -> real, xs: seq<real>, ys: seq<real>, k: real)
    requires IsRoot(sqrt) && |xs| == |ys| && PearsonR(sqrt, xs, ys) == 1.0
    requires Proper(xs, ys) && k * sqrt(Variance(ys)) == sqrt(Variance(xs))
    ensures Expanded(Centred(xs), Centred(ys), k, |xs|) == 0.0
  {
    PerfectProduct(sqrt, xs, ys);
    VarianceTimesCount(xs);
    VarianceTimesCount(ys);
    RootOfVariance(sqrt, xs);
    RootOfVariance(sqrt, ys);
    VanishingQuadratic(|xs| as real, sqrt(Variance(xs)), sqrt(Variance(ys)), k);
  }

  /** Then the deviations of one list are those of the other times `k`. */
  lemma PerfectDeviations(sqrt: real -> real, xs: seq<real>, ys: seq<real>, k: real)
    requires IsRoot(sqrt) && |xs| == |ys| && PearsonR(sqrt, xs, ys) == 1.0
    requires Proper(xs, ys) && k * sqrt(Variance(ys)) == sqrt(Variance(xs))
    ensures forall i :: 0 <= i < |xs| ==> Centred(xs)[i] == k * Centred(ys)[i]
  {
    PerfectDistance(sqrt, xs, ys, k);
    DotMinus(Centred(xs), Centred(ys), k, |xs|);
    VanishingDifference(Centred(xs), Centred(ys), k);
  }

  lemma PositiveRatio(a: real, b: real) returns (k: real)
    requires a > 0.0 && b > 0.0
    ensures k > 0.0 && k * b == a
  {
    k := a / b;
    assert k * b == a;
    assert (-k) * b == -(k * b);
    if k <= 0.0 { NonNegativeProduct(-k, b); }
  }

  lemma AffineAt(xs: seq<real>, ys: seq<real>, k: real, i: nat)
    requires |xs| == |ys| && i < |xs| && Centred(xs)[i] == k * Centred(ys)[i]
    ensures xs[i] == Affine(ys, k, Mean(xs) - k * Mean(ys))[i]
  {
    AffinePoint(xs[i], Mean(xs), ys[i], Mean(ys), k, Centred(xs)[i], Centred(ys)[i]);
  }

  lemma AffineFromCentred(xs: seq<real>, ys: seq<real>, k: real)
    requires |xs| == |ys| && xs != [] && forall i :: 0 <= i < |xs| ==> Centred(xs)[i] == k * Centred(ys)[i]
    ensures xs == Affine(ys, k, Mean(xs) - k * Mean(ys))
  {
    var image := Affine(ys, k, Mean(xs) - k * Mean(ys));
    forall i | 0 <= i < |xs| ensures xs[i] == image[i] {
      AffineAt(xs, ys, k, i);
    }
    SameElements(xs, image);
  }

  lemma PerfectIsAffine(sqrt: real -> real, xs: seq<real>, ys: seq<real>) returns (k: real, m: real)
    requires IsRoot(sqrt) && |xs| == |ys| && PearsonR(sqrt, xs, ys) == 1.0
    ensures Proper(xs, ys) && k > 0.0 && xs == Affine(ys, k, m)
  {
    PerfectProduct(sqrt, xs, ys);
    ProperDivisor(sqrt, xs, ys);
    k := PositiveRatio(sqrt(Variance(xs)), sqrt(Variance(ys)));
    m := Mean(xs) - k * Mean(ys);
    PerfectDeviations(sqrt, xs, ys, k);
    AffineFromCentred(xs, ys, k);
  }

  lemma AffinePoint(x: real, mx: real, y: real, my: real, k: real, u: real, v: real)
    requires u == x - mx && v == y - my && u == k * v
    ensures x == k * y + (mx - k * my)
  {
    assert k * (y - my) == k * y - k * my;
  }

  /** The coefficient is 1 exactly when neither list is constant and one is a positive
      affine image of the other: the equality case of the Cauchy-Schwarz inequality. */
  lemma PearsonIsOneExactly(sqrt: real -> real, xs: seq<real>, ys: seq<real>)
    requires IsRoot(sqrt) && |xs| == |ys|
    ensures PearsonR(sqrt, xs, ys) == 1.0 <==>
            Proper(ys, ys) && exists k: real, m: real :: k > 0.0 && xs == Affine(ys, k, m)
  {
    if PearsonR(sqrt, xs, ys) == 1.0 {
      var k, m := PerfectIsAffine(sqrt, xs, ys);
    } else if Proper(ys, ys) && exists k: real, m: real :: k > 0.0 && xs == Affine(ys, k, m) {
      var k: real, m: real :| k > 0.0 && xs == Affine(ys, k, m);
      PearsonAffine(sqrt, ys, ys, k, m);
      PearsonSelf(sqrt, ys);
      assert false;
    }
  }

  // ---- The coefficient without means and roots ----

  lemma SquaredQuotient(c: real, d: real, r: real)
    requires d > 0.0 && r == c / d
    ensures r * r * (d * d) == c * c && (r > 0.0 <==> c > 0.0) && (r < 0.0 <==> c < 0.0)
  {
    assert r * d == c;
    assert r * r * (d * d) == (r * d) * (r * d);
    assert (-r) * d == -(r * d);
    if r > 0.0 { ProductPositive(r, d); } else if r < 0.0 { ProductPositive(-r, d); }
  }

  lemma SquaredDivisor(n: real, a: real, b: real, p: real, q: real)
    requires p == (a * a) * n && q == (b * b) * n
    ensures Product(n, a, b) * Product(n, a, b) == p * q
  {
  }

  /** The square of the coefficient is the square of the product of the deviations over
      the product of their squares, and its sign is that of the former; on degenerate
      input it is 0. */
  lemma PearsonSquared(sqrt: real -> real, xs: seq<real>, ys: seq<real>)
    requires IsRoot(sqrt) && |xs| == |ys|
    ensures !Proper(xs, ys) ==> PearsonR(sqrt, xs, ys) == 0.0
    ensures Proper(xs, ys) ==>
              var cx, cy := Centred(xs), Centred(ys);
              IsRatio(PearsonR(sqrt, xs, ys), Dot(cx, cy), Times(Dot(cx, cx), Dot(cy, cy)))
  {
    if |xs| >= 2 { ProperDivisor(sqrt, xs, ys); }
    if Proper(xs, ys) {
      var n, a, b := |xs| as real, sqrt(Variance(xs)), sqrt(Variance(ys));
      VarianceTimesCount(xs);
      VarianceTimesCount(ys);
      RootOfVariance(sqrt, xs);
      RootOfVariance(sqrt, ys);
      SquaredDivisor(n, a, b, Dot(Centred(xs), Centred(xs)), Dot(Centred(ys), Centred(ys)));
      SquaredQuotient(Dot(Centred(xs), Centred(ys)), Product(n, a, b), PearsonR(sqrt, xs, ys));
    }
  }

  lemma ScaledSquares(r: real, n: real, c: real, p: real, q: real)
    requires n > 0.0 && IsRatio(r, c, Times(p, q))
    ensures IsRatio(r, Times(n, c), Times(Times(n, p), Times(n, q)))
  {
    assert r * r * ((n * p) * (n * q)) == (n * n) * (r * r * (p * q));
    assert (n * c) * (n * c) == (n * n) * (c * c);
    assert n * -c == -(n * c);
    if c > 0.0 { ProductPositive(n, c); } else if c < 0.0 { ProductPositive(n, -c); }
  }

  /** There are two points at least and neither list is constant, by sums. */
  predicate Varies(xs: seq<real>, ys: seq<real>)
    requires |xs| == |ys|
  {
    |xs| >= 2 && Spread(xs, xs) > 0.0 && Spread(ys, ys) > 0.0
  }

  lemma VariesIsProper(xs: seq<real>, ys: seq<real>)
    requires |xs| == |ys|
    ensures Varies(xs, ys) <==> Proper(xs, ys)
  {
    if |xs| >= 2 {
      VarianceBySums(xs);
      VarianceBySums(ys);
    }
  }

  /** The same by sums: `n` times the sum of the products less the product of the sums. */
  lemma PearsonBySums(sqrt: real -> real, xs: seq<real>, ys: seq<real>)
    requires IsRoot(sqrt) && |xs| == |ys|
    ensures !Varies(xs, ys) ==> PearsonR(sqrt, xs, ys) == 0.0
    ensures Varies(xs, ys) ==>
              IsRatio(PearsonR(sqrt, xs, ys), Spread(xs, ys), Times(Spread(xs, xs), Spread(ys, ys)))
  {
    VariesIsProper(xs, ys);
    PearsonSquared(sqrt, xs, ys);
    if Varies(xs, ys) {
      SpreadIsDeviation(xs, xs);
      SpreadIsDeviation(ys, ys);
      SpreadIsDeviation(xs, ys);
      ScaledSquares(PearsonR(sqrt, xs, ys), |xs| as real, Dot(Centred(xs), Centred(ys)),
                    Dot(Centred(xs), Centred(xs)), Dot(Centred(ys), Centred(ys)));
    }
  }

  /** Whether a coefficient with this numerator `c`, and this product `k` of the spreads,
      is at least `t`: a test without roots. */
  predicate Reaches(c: real, k: real, t: real) {
    if t > 0.0 then c > 0.0 && c * c >= (t * t) * k
    else c >= 0.0 || c * c <= (t * t) * k
  }

  lemma SquaresCompare(x: real, y: real, k: real)
    requires x >= 0.0 && y >= 0.0 && k > 0.0
    ensures x >= y <==> (x * x) * k >= (y * y) * k
  {
    SquareCompare(y, x);
    if y > x {
      ProductPositive(y * y - x * x, k);
      assert (y * y - x * x) * k == (y * y) * k - (x * x) * k;
    } else {
      NonNegativeProduct(x * x - y * y, k);
      assert (x * x - y * y) * k == (x * x) * k - (y * y) * k;
    }
  }

  lemma ReachesExactly(r: real, c: real, k: real, t: real)
    requires k > 0.0 && IsRatio(r, c, k)
    ensures r >= t <==> Reaches(c, k, t)
  {
    if t > 0.0 {
      if r > 0.0 { SquaresCompare(r, t, k); }
    } else if r < 0.0 {
      SquaresCompare(-t, -r, k);
      assert (-r) * (-r) == r * r && (-t) * (-t) == t * t;
    }
  }

  /** The comparison with a threshold, by sums alone. */
  predicate CorrelatesBySums(xs: seq<real>, ys: seq<real>, t: real)
    requires |xs| == |ys|
  {
    if Varies(xs, ys) then Reaches(Spread(xs, ys), Times(Spread(xs, xs), Spread(ys, ys)), t) else 0.0 >= t
  }

  lemma PearsonReaches(sqrt: real -> real, xs: seq<real>, ys: seq<real>, t: real)
    requires IsRoot(sqrt) && |xs| == |ys|
    ensures PearsonR(sqrt, xs, ys) >= t <==> CorrelatesBySums(xs, ys, t)
  {
    PearsonBySums(sqrt, xs, ys);
    if Varies(xs, ys) {
      ProductPositive(Spread(xs, xs), Spread(ys, ys));
      ReachesExactly(PearsonR(sqrt, xs, ys), Spread(xs, ys), Times(Spread(xs, xs), Spread(ys, ys)), t);
    }
  }
}
