/** The statistics in terms of plain sums: no means, no roots, no divisions. */
module SumForms {
  import opened RealArithmetic
  import opened Stats

  /** A sum and an inner product grow by the new elements. */
  lemma SumSnoc(s: seq<real>, x: real)
    ensures Sum([]) == 0.0 && Sum(s + [x]) == Sum(s) + x
  {
    SumPrefix(s, s + [x], |s|);
  }

  lemma {:induction false} SumPrefix(s: seq<real>, t: seq<real>, n: nat)
    requires s <= t && n <= |s|
    ensures SumTo(t, n) == SumTo(s, n)
  {
    if n > 0 { SumPrefix(s, t, n - 1); }
  }

  lemma DotSnoc(u: seq<real>, v: seq<real>, x: real, y: real)
    requires |u| == |v|
    ensures Dot([], []) == 0.0 && Dot(u + [x], v + [y]) == Dot(u, v) + x * y
  {
    DotPrefix(u, u + [x], v, v + [y], |u|);
  }

  lemma {:induction false} DotPrefix(u: seq<real>, u': seq<real>, v: seq<real>, v': seq<real>, n: nat)
    requires u <= u' && v <= v' && n <= |u| && n <= |v|
    ensures DotTo(u', v', n) == DotTo(u, v, n)
  {
    if n > 0 { DotPrefix(u, u', v, v', n - 1); }
  }

  // ---- Products of deviations ----

  /** The product of deviations from `a` and `b`, from the sums over `n` places. */
  function Deviated(d: real, sx: real, sy: real, n: real, a: real, b: real): real {
    d - b * sx - a * sy + n * (a * b)
  }

  lemma DeviatedStep(d: real, sx: real, sy: real, n: real, a: real, b: real, x: real, y: real)
    ensures Deviated(d + x * y, sx + x, sy + y, n + 1.0, a, b) == Deviated(d, sx, sy, n, a, b) + (x - a) * (y - b)
  {
    assert (x - a) * (y - b) == x * y - b * x - a * y + a * b;
    assert b * (sx + x) == b * sx + b * x && a * (sy + y) == a * sy + a * y;
    assert (n + 1.0) * (a * b) == n * (a * b) + a * b;
  }

  /** The same over the first `n` places, with the means. */
  function DeviatedTo(xs: seq<real>, ys: seq<real>, n: nat): real
    requires |xs| == |ys| && xs != [] && n <= |xs|
  {
    Deviated(DotTo(xs, ys, n), SumTo(xs, n), SumTo(ys, n), n as real, Mean(xs), Mean(ys))
  }

  lemma CentredStep(xs: seq<real>, ys: seq<real>, k: nat)
    requires |xs| == |ys| && k < |xs|
    ensures var u, v, mx, my := Centred(xs), Centred(ys), Mean(xs), Mean(ys);
            DotTo(u, v, k + 1) == DotTo(u, v, k) + (xs[k] - mx) * (ys[k] - my)
  {
  }

  lemma DeviatedToStep(xs: seq<real>, ys: seq<real>, k: nat)
    requires |xs| == |ys| && k < |xs|
    ensures var mx, my := Mean(xs), Mean(ys);
            DeviatedTo(xs, ys, k + 1) == DeviatedTo(xs, ys, k) + (xs[k] - mx) * (ys[k] - my)
  {
    DeviatedStep(DotTo(xs, ys, k), SumTo(xs, k), SumTo(ys, k), k as real, Mean(xs), Mean(ys), xs[k], ys[k]);
  }

  lemma SameGrowth(xs: seq<real>, ys: seq<real>, k: nat)
    requires |xs| == |ys| && k < |xs|
    ensures var u, v := Centred(xs), Centred(ys);
            DotTo(u, v, k + 1) - DotTo(u, v, k) == DeviatedTo(xs, ys, k + 1) - DeviatedTo(xs, ys, k)
  {
    CentredStep(xs, ys, k);
    DeviatedToStep(xs, ys, k);
  }

  lemma NothingDeviated(a: real, b: real)
    ensures Deviated(0.0, 0.0, 0.0, 0.0, a, b) == 0.0
  {
  }

  lemma DotDeviated(xs: seq<real>, ys: seq<real>)
    requires |xs| == |ys| && xs != []
    ensures Dot(Centred(xs), Centred(ys)) == DeviatedTo(xs, ys, |xs|)
  {
    var u, v, n := Centred(xs), Centred(ys), |xs|;
    var f := (i: nat) => if i <= n then DotTo(u, v, i) else 0.0;
    var g := (i: nat) => if i <= n then DeviatedTo(xs, ys, i) else 0.0;
    NothingDeviated(Mean(xs), Mean(ys));
    forall i | 0 <= i < n ensures f(i + 1) - f(i) == g(i + 1) - g(i) {
      SameGrowth(xs, ys, i);
    }
    GrowAlike(f, g, n);
  }

  /** `n` times the sum of the products, less the product of the sums. */
  function Spread(xs: seq<real>, ys: seq<real>): real
    requires |xs| == |ys|
  {
    |xs| as real * Dot(xs, ys) - Sum(xs) * Sum(ys)
  }

  /** The spread of `n` numbers that sum to `t` and whose squares sum to `q`. */
  function SpreadOf(n: real, q: real, t: real): real {
    n * q - t * t
  }

  lemma SpreadFrom(s: seq<real>, n: real, q: real, t: real)
    requires |s| as real == n && Dot(s, s) == q && Sum(s) == t
    ensures Spread(s, s) == SpreadOf(n, q, t)
  {
  }

  lemma DeviatedAtMeans(d: real, sx: real, sy: real, n: real, a: real, b: real)
    requires a * n == sx && b * n == sy
    ensures n * Deviated(d, sx, sy, n, a, b) == n * d - sx * sy
  {
    assert n * (b * sx) == sy * sx;
    assert n * (a * sy) == sx * sy;
    assert n * (n * (a * b)) == (a * n) * (b * n);
  }

  lemma MeanTimesCount(s: seq<real>)
    requires s != []
    ensures Mean(s) * (|s| as real) == Sum(s)
  {
  }

  /** The product of the deviations, from sums. */
  lemma SpreadIsDeviation(xs: seq<real>, ys: seq<real>)
    requires |xs| == |ys| && xs != []
    ensures Times(|xs| as real, Dot(Centred(xs), Centred(ys))) == Spread(xs, ys)
  {
    DotDeviated(xs, ys);
    MeanTimesCount(xs);
    MeanTimesCount(ys);
    var d, sx, sy, n, a, b := Dot(xs, ys), Sum(xs), Sum(ys), |xs| as real, Mean(xs), Mean(ys);
    DeviatedAtMeans(d, sx, sy, n, a, b);
    assert DeviatedTo(xs, ys, |xs|) == Deviated(d, sx, sy, n, a, b);
  }

  lemma DividedTwice(v: real, d: real, n: real, q: real)
    requires n != 0.0 && v == d / n && n * d == q
    ensures v * (n * n) == q
  {
    assert v * n == d;
    assert v * (n * n) == (v * n) * n;
  }

  /** The variance, from sums: its multiple by the square of the count. */
  lemma VarianceBySums(s: seq<real>)
    requires s != []
    ensures Variance(s) * (|s| as real * |s| as real) == Spread(s, s)
    ensures Spread(s, s) >= 0.0 && (Spread(s, s) == 0.0 <==> Variance(s) == 0.0)
  {
    SpreadIsDeviation(s, s);
    DividedTwice(Variance(s), Dot(Centred(s), Centred(s)), |s| as real, Spread(s, s));
    VarianceNonNegative(s);
    var n := |s| as real;
    ProductPositive(n, n);
    NonNegativeProduct(Variance(s), n * n);
    if Spread(s, s) == 0.0 { ZeroProduct(Variance(s), n * n); }
  }
}
