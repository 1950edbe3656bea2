/** Which invoices are flagged: each one is scored against the earlier invoices of
    its vendor. Amounts are exact reals. */
module Anomaly {
  import opened RealArithmetic
  import opened Stats
  import opened SumForms

  /** A move of less than 8 percent is never an anomaly. */
  const MIN_PCT_CHANGE: real := 8.0

  datatype Anomaly = Anomaly(vendor: string, current: real, mean: real, z: real, pct: real, isAnomaly: bool)

  function Abs(x: real): (r: real)
    ensures r >= 0.0
  {
    if x < 0.0 then -x else x
  }

  function ZScore(sqrt: real -> real, amount: real, history: seq<real>): real
    requires history != []
  {
    var sd := sqrt(Variance(history));
    if sd > 0.0 then (amount - Mean(history)) / sd else 0.0
  }

  function PctChange(amount: real, mean: real): real {
    if mean != 0.0 then (amount - mean) / mean * 100.0 else 0.0
  }

  /** `score_invoice`. */
  function Score(sqrt: real -> real, vendor: string, amount: real, history: seq<real>, t: real): Anomaly {
    if |history| < 2 then Anomaly(vendor, amount, if history == [] then 0.0 else history[0], 0.0, 0.0, false)
    else
      var z := ZScore(sqrt, amount, history);
      var pct := PctChange(amount, Mean(history));
      Anomaly(vendor, amount, Mean(history), z, pct, Abs(z) > t && Abs(pct) >= MIN_PCT_CHANGE)
  }

  // ---- The test without square roots ----

  /** The same test on squares: the deviation exceeds `t` standard deviations, and
      is at least 8 percent of a mean that is not zero. */
  predicate Flagged(amount: real, history: seq<real>, t: real) {
    && |history| >= 2
    && var (m, v) := (Mean(history), Variance(history));
    && (t < 0.0 || (v != 0.0 && Times(amount - m, amount - m) > Twice(t, v)))
    && m != 0.0 && 100.0 * Abs(amount - m) >= MIN_PCT_CHANGE * Abs(m)
  }

  lemma AbsQuotient(x: real, d: real)
    requires d > 0.0
    ensures Abs(x / d) == Abs(x) / d
  {
    var q := x / d;
    assert q * d == x;
    if x < 0.0 {
      if q > 0.0 { TimesPositive(q, d); }
      assert (-q) * d == -x;
      Quotient(-x, d, -q);
    } else if q < 0.0 {
      TimesPositive(-q, d);
    }
  }

  lemma AbsSquare(x: real)
    ensures Times(Abs(x), Abs(x)) == Times(x, x)
  {
  }

  lemma ZTest(x: real, sd: real, v: real, t: real)
    requires t >= 0.0 && sd > 0.0 && sd * sd == v
    ensures Abs(x / sd) > t <==> Times(x, x) > Twice(t, v)
  {
    AbsQuotient(x, sd);
    QuotientExceeds(Abs(x), sd, t);
    NonNegativeProduct(t, sd);
    SquareCompare(Abs(x), t * sd);
    AbsSquare(x);
    assert (t * sd) * (t * sd) == t * (t * (sd * sd));
  }

  lemma AbsScale(x: real, k: real)
    requires k > 0.0
    ensures Abs(k * x) == k * Abs(x)
  {
    if x > 0.0 { TimesPositive(k, x); } else if x < 0.0 { TimesPositive(k, -x); }
  }

  lemma AbsNegate(x: real)
    ensures Abs(-x) == Abs(x)
  {
  }

  lemma PctTest(x: real, m: real)
    requires m != 0.0
    ensures Abs(x / m * 100.0) >= MIN_PCT_CHANGE <==> 100.0 * Abs(x) >= MIN_PCT_CHANGE * Abs(m)
  {
    var q := x / m;
    assert q * m == x;
    AbsScale(q, 100.0);
    assert Abs(q * 100.0) == 100.0 * Abs(q);
    var a := Abs(m);
    assert Abs(x) == Abs(q) * a by {
      if m > 0.0 {
        AbsScale(q, m);
      } else {
        AbsScale(q, -m);
        AbsNegate(q * m);
        assert (-m) * q == -(q * m);
      }
    }
    if 100.0 * Abs(q) >= MIN_PCT_CHANGE {
      NonNegativeProduct(100.0 * Abs(q) - MIN_PCT_CHANGE, a);
    } else {
      TimesPositive(MIN_PCT_CHANGE - 100.0 * Abs(q), a);
      assert Times(MIN_PCT_CHANGE - 100.0 * Abs(q), a) == MIN_PCT_CHANGE * a - 100.0 * (Abs(q) * a);
    }
  }

  /** An invoice is an anomaly exactly when the test on squares says so. */
  lemma FlaggedWithoutRoots(sqrt: real -> real, vendor: string, amount: real, history: seq<real>, t: real)
    requires IsRoot(sqrt)
    ensures Score(sqrt, vendor, amount, history, t).isAnomaly <==> Flagged(amount, history, t)
  {
    if |history| >= 2 {
      var m, v, sd := Mean(history), Variance(history), sqrt(Variance(history));
      VarianceNonNegative(history);
      PositiveSquare(sd, v);
      if sd > 0.0 && t >= 0.0 { ZTest(amount - m, sd, v, t); }
      if m != 0.0 { PctTest(amount - m, m); }
    }
  }

  // ---- The verdict by sums ----

  /** `n` times the deviation of `amount` from the mean. */
  function Excess(amount: real, history: seq<real>): real {
    Times(|history| as real, amount) - Sum(history)
  }

  /** The verdict without mean, root or division: against at least two earlier amounts
      that add up to something, more than `t` deviations and at least 8 percent away. */
  predicate FlaggedBySums(amount: real, history: seq<real>, t: real) {
    && |history| >= 2 && Sum(history) != 0.0
    && (var d, v := Excess(amount, history), Spread(history, history);
        t < 0.0 || (v > 0.0 && d * d > (t * t) * v))
    && 100.0 * Abs(Excess(amount, history)) >= 8.0 * Abs(Sum(history))
  }

  lemma ExcessIsDeviation(amount: real, history: seq<real>)
    requires history != []
    ensures Times(|history| as real, amount - Mean(history)) == Excess(amount, history)
    ensures Times(|history| as real, Mean(history)) == Sum(history)
  {
    MeanTimesCount(history);
  }

  lemma OrderScales(x: real, y: real, k: real)
    requires k > 0.0
    ensures x > y <==> Times(x, k) > Times(y, k)
  {
    assert Times(x - y, k) == Times(x, k) - Times(y, k);
    if x > y { TimesPositive(x - y, k); } else { NonNegativeProduct(y - x, k); }
  }

  lemma SquaresBySums(x: real, v: real, n: real, t: real, d: real, w: real)
    requires n > 0.0 && Times(n, x) == d && v * (n * n) == w
    ensures Times(x, x) > Twice(t, v) <==> d * d > (t * t) * w
  {
    TimesPositive(n, n);
    OrderScales(Times(x, x), Twice(t, v), Times(n, n));
    assert Times(Times(x, x), Times(n, n)) == d * d;
    assert Times(Twice(t, v), Times(n, n)) == (t * t) * (v * (n * n));
  }

  lemma PercentBySums(x: real, m: real, n: real, d: real, s: real)
    requires n > 0.0 && Times(n, x) == d && Times(n, m) == s
    ensures 100.0 * Abs(x) >= 8.0 * Abs(m) <==> 100.0 * Abs(d) >= 8.0 * Abs(s)
    ensures m == 0.0 <==> s == 0.0
  {
    AbsScale(x, n);
    AbsScale(m, n);
    OrderScales(8.0 * Abs(m), 100.0 * Abs(x), n);
    assert Times(8.0 * Abs(m), n) == 8.0 * Abs(s) && Times(100.0 * Abs(x), n) == 100.0 * Abs(d);
    if s == 0.0 { ZeroProduct(n, m); }
  }

  /** An invoice is flagged exactly when the sums say so. */
  lemma FlaggedExactly(sqrt: real -> real, vendor: string, amount: real, history: seq<real>, t: real)
    requires IsRoot(sqrt)
    ensures Score(sqrt, vendor, amount, history, t).isAnomaly <==> FlaggedBySums(amount, history, t)
    ensures Flagged(amount, history, t) <==> FlaggedBySums(amount, history, t)
  {
    FlaggedWithoutRoots(sqrt, vendor, amount, history, t);
    FlagBySums(amount, history, t);
  }

  lemma FlagBySums(amount: real, history: seq<real>, t: real)
    ensures Flagged(amount, history, t) <==> FlaggedBySums(amount, history, t)
  {
    if |history| >= 2 {
      var m, v, n := Mean(history), Variance(history), |history| as real;
      var d, w, s := Excess(amount, history), Spread(history, history), Sum(history);
      ExcessIsDeviation(amount, history);
      VarianceBySums(history);
      SquaresBySums(amount - m, v, n, t, d, w);
      PercentBySums(amount - m, m, n, d, s);
    }
  }

  /** The numbers of a verdict: the mean, the score and the percentage, without division. */
  ghost predicate ScoredBySums(a: Anomaly, amount: real, history: seq<real>) {
    var d, v, s := Excess(amount, history), Spread(history, history), Sum(history);
    && Times(|history| as real, a.mean) == s
    && (if v > 0.0 then IsRatio(a.z, d, v) else a.z == 0.0)
    && (if s != 0.0 then a.pct * s == 100.0 * d else a.pct == 0.0)
  }

  lemma ScoreBySums(x: real, sd: real, v: real, n: real, d: real, w: real)
    requires n > 0.0 && sd > 0.0 && sd * sd == v && Times(n, x) == d && v * (n * n) == w
    ensures IsRatio(x / sd, d, w)
  {
    var z := x / sd;
    assert z * sd == x;
    assert (z * z) * ((sd * sd) * (n * n)) == Times(n, z * sd) * Times(n, z * sd);
    assert d == z * (sd * n);
    ProductPositive(sd, n);
    assert (-z) * (sd * n) == -(z * (sd * n));
    if z > 0.0 { ProductPositive(z, sd * n); } else if z < 0.0 { ProductPositive(-z, sd * n); }
  }

  lemma PctBySums(x: real, m: real, n: real, d: real, s: real)
    requires n > 0.0 && m != 0.0 && Times(n, x) == d && Times(n, m) == s
    ensures (x / m * 100.0) * s == 100.0 * d
  {
    var q := x / m;
    assert q * m == x;
    assert (q * 100.0) * Times(n, m) == 100.0 * Times(n, q * m);
  }

  /** The deviation `sd`, the count `n` and the spread `w` belong together. */
  predicate AreDeviation(sd: real, n: real, w: real) {
    n > 0.0 && sd >= 0.0 && (sd * sd) * (n * n) == w && (sd > 0.0 <==> w > 0.0)
  }

  lemma DeviationBySums(sqrt: real -> real, history: seq<real>)
    requires IsRoot(sqrt) && history != []
    ensures AreDeviation(sqrt(Variance(history)), |history| as real, Spread(history, history))
  {
    VarianceBySums(history);
    VarianceNonNegative(history);
    PositiveSquare(sqrt(Variance(history)), Variance(history));
  }

  /** `x / sd`, or nothing without deviation. */
  function QuotientOrZero(x: real, sd: real): real {
    if sd > 0.0 then x / sd else 0.0
  }

  lemma QuotientBySums(x: real, sd: real, n: real, d: real, w: real)
    requires AreDeviation(sd, n, w) && Times(n, x) == d
    ensures if w > 0.0 then IsRatio(QuotientOrZero(x, sd), d, w) else QuotientOrZero(x, sd) == 0.0
  {
    if sd > 0.0 { ScoreBySums(x, sd, sd * sd, n, d, w); }
  }

  lemma ZScoreIsQuotient(sqrt: real -> real, amount: real, history: seq<real>)
    requires history != []
    ensures ZScore(sqrt, amount, history) == QuotientOrZero(amount - Mean(history), sqrt(Variance(history)))
  {
  }

  lemma ZScoreBySums(sqrt: real -> real, amount: real, history: seq<real>)
    requires IsRoot(sqrt) && history != []
    ensures var z, d, v := ZScore(sqrt, amount, history), Excess(amount, history), Spread(history, history);
            if v > 0.0 then IsRatio(z, d, v) else z == 0.0
  {
    ExcessIsDeviation(amount, history);
    DeviationBySums(sqrt, history);
    ZScoreIsQuotient(sqrt, amount, history);
    QuotientBySums(amount - Mean(history), sqrt(Variance(history)), |history| as real,
                   Excess(amount, history), Spread(history, history));
  }

  lemma PctChangeBySums(amount: real, history: seq<real>)
    requires |history| >= 2
    ensures var pct, d, s := PctChange(amount, Mean(history)), Excess(amount, history), Sum(history);
            if s != 0.0 then pct * s == 100.0 * d else pct == 0.0
  {
    var m, n := Mean(history), |history| as real;
    ExcessIsDeviation(amount, history);
    PercentBySums(amount - m, m, n, Excess(amount, history), Sum(history));
    if m != 0.0 { PctBySums(amount - m, m, n, Excess(amount, history), Sum(history)); }
  }

  /** The verdict on an invoice: without two earlier amounts there is none. */
  lemma ScoreExactly(sqrt: real -> real, vendor: string, amount: real, history: seq<real>, t: real)
    requires IsRoot(sqrt)
    ensures var a := Score(sqrt, vendor, amount, history, t);
            && a.vendor == vendor && a.current == amount
            && (a.isAnomaly <==> FlaggedBySums(amount, history, t))
            && (|history| < 2 ==> a.z == 0.0 && a.pct == 0.0 && a.mean == if history == [] then 0.0 else history[0])
            && (|history| >= 2 ==> ScoredBySums(a, amount, history))
  {
    FlaggedExactly(sqrt, vendor, amount, history, t);
    if |history| >= 2 {
      ExcessIsDeviation(amount, history);
      ZScoreBySums(sqrt, amount, history);
      PctChangeBySums(amount, history);
    }
  }

  // ---- Scaling ----

  lemma ScaledZ(sqrt: real -> real, amount: real, history: seq<real>, k: real)
    requires IsRoot(sqrt) && history != [] && k > 0.0
    ensures ZScore(sqrt, k * amount, Affine(history, k, 0.0)) == ZScore(sqrt, amount, history)
  {
    MeanAffine(history, k, 0.0);
    DeviationAffine(sqrt, history, k, 0.0);
    var sd, x := sqrt(Variance(history)), amount - Mean(history);
    VarianceNonNegative(history);
    if sd > 0.0 {
      TimesPositive(k, sd);
      var q := x / sd;
      assert q * sd == x;
      assert q * (k * sd) == k * x;
      Quotient(k * x, k * sd, q);
      assert k * amount - k * Mean(history) == k * x;
    }
  }

  lemma ScaledPct(amount: real, mean: real, k: real)
    requires k > 0.0
    ensures PctChange(k * amount, k * mean) == PctChange(amount, mean)
  {
    if mean != 0.0 {
      if k * mean == 0.0 { ZeroProduct(k, mean); }
      var q := (amount - mean) / mean;
      assert q * mean == amount - mean;
      assert q * (k * mean) == k * amount - k * mean;
      Quotient(k * amount - k * mean, k * mean, q);
    }
  }

  /** The same verdict in another currency. */
  function Scaled(k: real): Anomaly -> Anomaly {
    (a: Anomaly) => a.(current := k * a.current, mean := k * a.mean)
  }

  lemma ScaledMean(history: seq<real>, k: real)
    requires history != []
    ensures Mean(Affine(history, k, 0.0)) == k * Mean(history)
  {
    MeanAffine(history, k, 0.0);
  }

  function Verdict(vendor: string, amount: real, mean: real, z: real, pct: real, t: real): Anomaly {
    Anomaly(vendor, amount, mean, z, pct, Abs(z) > t && Abs(pct) >= MIN_PCT_CHANGE)
  }

  lemma VerdictScales(vendor: string, amount: real, mean: real, z: real, pct: real, t: real, k: real)
    ensures Verdict(vendor, k * amount, k * mean, z, pct, t) == Scaled(k)(Verdict(vendor, amount, mean, z, pct, t))
  {
  }

  lemma ScoreFrom(sqrt: real -> real, vendor: string, amount: real, history: seq<real>, t: real)
    requires |history| >= 2
    ensures Score(sqrt, vendor, amount, history, t)
         == Verdict(vendor, amount, Mean(history), ZScore(sqrt, amount, history), PctChange(amount, Mean(history)), t)
  {
  }

  lemma ShortScales(sqrt: real -> real, vendor: string, amount: real, history: seq<real>, t: real, k: real)
    requires |history| < 2
    ensures Score(sqrt, vendor, k * amount, Affine(history, k, 0.0), t)
         == Scaled(k)(Score(sqrt, vendor, amount, history, t))
  {
    assert history != [] ==> Affine(history, k, 0.0)[0] == k * history[0] + 0.0;
  }

  /** Scaling all amounts scales the verdict and changes neither score nor flag. */
  lemma ScoreScales(sqrt: real -> real, vendor: string, amount: real, history: seq<real>, t: real, k: real)
    requires IsRoot(sqrt) && k > 0.0
    ensures Score(sqrt, vendor, k * amount, Affine(history, k, 0.0), t)
         == Scaled(k)(Score(sqrt, vendor, amount, history, t))
  {
    if |history| >= 2 {
      var z, m := ZScore(sqrt, amount, history), Mean(history);
      ScaledZ(sqrt, amount, history, k);
      ScaledMean(history, k);
      ScaledPct(amount, m, k);
      ScoreFrom(sqrt, vendor, amount, history, t);
      ScoreFrom(sqrt, vendor, k * amount, Affine(history, k, 0.0), t);
      VerdictScales(vendor, amount, m, z, PctChange(amount, m), t, k);
    } else {
      ShortScales(sqrt, vendor, amount, history, t, k);
    }
  }

  /** How an invoice of a vendor is scored against earlier amounts. */
  type Scorer = (string, real, seq<real>) -> Anomaly

  function ZScorer(sqrt: real -> real, t: real): Scorer {
    (vendor: string, amount: real, history: seq<real>) => Score(sqrt, vendor, amount, history, t)
  }

  /** Scaling all amounts scales the verdict and changes nothing else. */
  ghost predicate ScaleInvariant(score: Scorer, k: real) {
    forall vendor, amount, history ::
      score(vendor, k * amount, Affine(history, k, 0.0)) == Scaled(k)(score(vendor, amount, history))
  }

  lemma ZScorerScales(sqrt: real -> real, t: real, k: real)
    requires IsRoot(sqrt) && k > 0.0
    ensures ScaleInvariant(ZScorer(sqrt, t), k)
  {
    forall vendor, amount, history
      ensures ZScorer(sqrt, t)(vendor, k * amount, Affine(history, k, 0.0))
           == Scaled(k)(ZScorer(sqrt, t)(vendor, amount, history))
    {
      ScoreScales(sqrt, vendor, amount, history, t, k);
    }
  }
}
