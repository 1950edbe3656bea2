/** Means, population variances and inner products over exact reals. */
module Stats {
  import opened RealArithmetic

  /** The sum of the first `n` elements. */
  function SumTo(s: seq<real>, n: nat): real
    requires n <= |s|
  {
    if n == 0 then 0.0 else SumTo(s, n - 1) + s[n - 1]
  }

  function Sum(s: seq<real>): real {
    SumTo(s, |s|)
  }

  function Mean(s: seq<real>): real
    requires s != []
  {
    Sum(s) / (|s| as real)
  }

  /** `a * x + b` for every element. */
  function Affine(s: seq<real>, a: real, b: real): (r: seq<real>)
    ensures |r| == |s| && forall i :: 0 <= i < |s| ==> r[i] == a * s[i] + b
  {
    seq(|s|, i requires 0 <= i < |s| => a * s[i] + b)
  }

  /** The inner product of the first `n` elements. */
  function DotTo(u: seq<real>, v: seq<real>, n: nat): real
    requires n <= |u| && n <= |v|
  {
    if n == 0 then 0.0 else DotTo(u, v, n - 1) + u[n - 1] * v[n - 1]
  }

  function Dot(u: seq<real>, v: seq<real>): real
    requires |u| == |v|
  {
    DotTo(u, v, |u|)
  }

  /** The deviations from the mean. */
  function Centred(s: seq<real>): (r: seq<real>)
    requires s != []
    ensures |r| == |s| && forall i :: 0 <= i < |s| ==> r[i] == s[i] - Mean(s)
  {
    seq(|s|, i requires 0 <= i < |s| => s[i] - Mean(s))
  }

  /** `statistics.pvariance`. */
  function Variance(s: seq<real>): real
    requires s != []
  {
    Dot(Centred(s), Centred(s)) / (|s| as real)
  }

  /** A square root on the non-negative reals. */
  ghost predicate IsRoot(sqrt: real -> real) {
    forall v: real :: v >= 0.0 ==> sqrt(v) >= 0.0 && sqrt(v) * sqrt(v) == v
  }

  // ---- Sums ----

  lemma {:induction false} SumAffine(s: seq<real>, a: real, b: real, n: nat)
    requires n <= |s|
    ensures SumTo(Affine(s, a, b), n) == a * SumTo(s, n) + b * (n as real)
  {
    if n > 0 { SumAffine(s, a, b, n - 1); }
  }

  lemma MeanAffine(s: seq<real>, a: real, b: real)
    requires s != []
    ensures Mean(Affine(s, a, b)) == a * Mean(s) + b
  {
    var n, x := |s| as real, Sum(s);
    SumAffine(s, a, b, |s|);
    assert Sum(Affine(s, a, b)) == a * x + b * n;
    AffineQuotient(a, x, b, n);
  }

  lemma {:induction false} SumConstant(s: seq<real>, c: real, n: nat)
    requires n <= |s| && forall i :: 0 <= i < |s| ==> s[i] == c
    ensures SumTo(s, n) == c * (n as real)
  {
    if n > 0 { SumConstant(s, c, n - 1); }
  }

  // ---- Inner products ----

  lemma {:induction false} DotScale(u: seq<real>, w: seq<real>, v: seq<real>, a: real, n: nat)
    requires n <= |u| && n <= |v| && |w| == |u| && forall i :: 0 <= i < |u| ==> w[i] == a * u[i]
    ensures DotTo(w, v, n) == a * DotTo(u, v, n)
  {
    if n > 0 {
      DotScale(u, w, v, a, n - 1);
      ScaleStep(a, DotTo(u, v, n - 1), u[n - 1], v[n - 1]);
    }
  }

  lemma {:induction false} DotSymmetric(u: seq<real>, v: seq<real>, n: nat)
    requires n <= |u| && n <= |v|
    ensures DotTo(u, v, n) == DotTo(v, u, n)
  {
    if n > 0 { DotSymmetric(u, v, n - 1); }
  }

  lemma {:induction false} DotSquare(u: seq<real>, n: nat)
    requires n <= |u|
    ensures DotTo(u, u, n) >= 0.0
    ensures DotTo(u, u, n) == 0.0 ==> forall i :: 0 <= i < n ==> u[i] == 0.0
  {
    if n > 0 {
      DotSquare(u, n - 1);
      Square(u[n - 1]);
    }
  }

  lemma {:induction false} DotZero(u: seq<real>, v: seq<real>, n: nat)
    requires n <= |u| && n <= |v| && forall i :: 0 <= i < n ==> v[i] == 0.0
    ensures DotTo(u, v, n) == 0.0
  {
    if n > 0 { DotZero(u, v, n - 1); }
  }

  /** `u - t * v`. */
  function Minus(u: seq<real>, v: seq<real>, t: real): (r: seq<real>)
    requires |u| == |v|
    ensures |r| == |u| && forall i :: 0 <= i < |u| ==> r[i] == u[i] - t * v[i]
  {
    seq(|u|, i requires 0 <= i < |u| => u[i] - t * v[i])
  }

  lemma MinusStep(u: seq<real>, v: seq<real>, t: real, n: nat)
    requires |u| == |v| && n < |u|
    ensures var w, x, y := Minus(u, v, t), u[n], v[n];
            DotTo(w, w, n + 1) == DotTo(w, w, n) + (x - t * y) * (x - t * y)
  {
  }

  /** The square of `u - t v` over the first `n` places, in terms of the other products. */
  function Expanded(u: seq<real>, v: seq<real>, t: real, n: nat): real
    requires |u| == |v| && n <= |u|
  {
    Quadratic(DotTo(u, u, n), DotTo(u, v, n), DotTo(v, v, n), t)
  }

  lemma ExpandedStep(u: seq<real>, v: seq<real>, t: real, n: nat)
    requires |u| == |v| && n < |u|
    ensures var x, y := u[n], v[n];
            Expanded(u, v, t, n + 1) == Expanded(u, v, t, n) + (x - t * y) * (x - t * y)
  {
    QuadraticStep(DotTo(u, u, n), DotTo(u, v, n), DotTo(v, v, n), u[n], v[n], t);
  }

  /** Functions that start alike and grow alike agree. */
  lemma {:induction false} GrowAlike(f: nat -> real, g: nat -> real, n: nat)
    requires f(0) == g(0) && forall i :: 0 <= i < n ==> f(i + 1) - f(i) == g(i + 1) - g(i)
    ensures f(n) == g(n)
  {
    if n > 0 {
      GrowAlike(f, g, n - 1);
      assert f((n - 1) + 1) - f(n - 1) == g((n - 1) + 1) - g(n - 1);
    }
  }

  lemma MinusGrowsLikeExpanded(u: seq<real>, v: seq<real>, t: real, i: nat)
    requires |u| == |v| && i < |u|
    ensures var w := Minus(u, v, t);
            DotTo(w, w, i + 1) - DotTo(w, w, i) == Expanded(u, v, t, i + 1) - Expanded(u, v, t, i)
  {
    MinusStep(u, v, t, i);
    ExpandedStep(u, v, t, i);
  }

  lemma DotMinus(u: seq<real>, v: seq<real>, t: real, n: nat)
    requires |u| == |v| && n <= |u|
    ensures DotTo(Minus(u, v, t), Minus(u, v, t), n) == Expanded(u, v, t, n)
  {
    var w := Minus(u, v, t);
    var f := (i: nat) => if i <= n then DotTo(w, w, i) else 0.0;
    var g := (i: nat) => if i <= n then Expanded(u, v, t, i) else 0.0;
    QuadraticZero(t);
    forall i | 0 <= i < n ensures f(i + 1) - f(i) == g(i + 1) - g(i) {
      MinusGrowsLikeExpanded(u, v, t, i);
    }
    GrowAlike(f, g, n);
  }

  /** The Cauchy-Schwarz inequality. */
  lemma CauchySchwarz(u: seq<real>, v: seq<real>)
    requires |u| == |v|
    ensures Dot(u, v) * Dot(u, v) <= Dot(u, u) * Dot(v, v)
  {
    var p, r, q := Dot(u, u), Dot(u, v), Dot(v, v);
    DotSquare(v, |v|);
    if q == 0.0 {
      DotZero(u, v, |v|);
    } else {
      DotSquare(Minus(u, v, r / q), |u|);
      DotMinus(u, v, r / q, |u|);
      DiscriminantBound(p, r, q);
    }
  }

  // ---- Variances ----

  lemma VarianceNonNegative(s: seq<real>)
    requires s != []
    ensures Variance(s) >= 0.0
  {
    DotSquare(Centred(s), |s|);
  }

  lemma CentredAffine(s: seq<real>, a: real, b: real)
    requires s != []
    ensures forall i :: 0 <= i < |s| ==> Centred(Affine(s, a, b))[i] == a * Centred(s)[i]
  {
    MeanAffine(s, a, b);
  }

  lemma DotScaleBoth(c: seq<real>, w: seq<real>, a: real)
    requires |w| == |c| && forall i :: 0 <= i < |c| ==> w[i] == a * c[i]
    ensures Dot(w, w) == Twice(a, Dot(c, c))
  {
    DotScale(c, w, w, a, |c|);
    DotSymmetric(c, w, |c|);
    DotScale(c, w, c, a, |c|);
  }

  /** Scaling and shifting multiplies the variance by the square of the factor. */
  lemma VarianceAffine(s: seq<real>, a: real, b: real)
    requires s != []
    ensures Variance(Affine(s, a, b)) == Twice(a, Variance(s))
  {
    CentredAffine(s, a, b);
    DotScaleBoth(Centred(s), Centred(Affine(s, a, b)), a);
    RegroupScale(a, Dot(Centred(s), Centred(s)), |s| as real);
  }

  lemma RootOf(sqrt: real -> real, v: real)
    requires IsRoot(sqrt) && v >= 0.0
    ensures sqrt(v) >= 0.0 && sqrt(v) * sqrt(v) == v
  {
  }

  lemma DeviationAffine(sqrt: real -> real, s: seq<real>, a: real, b: real)
    requires IsRoot(sqrt) && s != [] && a >= 0.0
    ensures sqrt(Variance(Affine(s, a, b))) == a * sqrt(Variance(s))
  {
    VarianceAffine(s, a, b);
    VarianceNonNegative(s);
    VarianceNonNegative(Affine(s, a, b));
    var v, v' := Variance(s), Variance(Affine(s, a, b));
    RootOf(sqrt, v);
    RootOf(sqrt, v');
    ScaledRoot(a, sqrt(v), v, sqrt(v'));
  }

  /** A constant sequence has that constant as its mean, and no variance. */
  lemma ConstantStats(s: seq<real>, c: real)
    requires s != [] && forall i :: 0 <= i < |s| ==> s[i] == c
    ensures Mean(s) == c && Variance(s) == 0.0
  {
    SumConstant(s, c, |s|);
    Quotient(c * (|s| as real), |s| as real, c);
    DotZero(Centred(s), Centred(s), |s|);
  }

  /** No variance means constant. */
  lemma NoVarianceIsConstant(s: seq<real>)
    requires s != [] && Variance(s) == 0.0
    ensures forall i :: 0 <= i < |s| ==> s[i] == Mean(s)
  {
    ZeroQuotient(Dot(Centred(s), Centred(s)), |s| as real);
    DotSquare(Centred(s), |s|);
    assert forall i :: 0 <= i < |s| ==> Centred(s)[i] == s[i] - Mean(s);
  }
}
