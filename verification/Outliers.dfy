/** The anomaly test of the payment pipeline, on amounts in whole cents. */
module Outliers {
  import opened RealArithmetic
  import opened Stats
  import opened SumForms
  import opened Harness
  import opened Handle402
  import Anomaly
  import Graph

  function Total(h: seq<int>): int {
    if h == [] then 0 else Total(h[..|h| - 1]) + h[|h| - 1]
  }

  function Squares(h: seq<int>): int {
    if h == [] then 0 else Squares(h[..|h| - 1]) + h[|h| - 1] * h[|h| - 1]
  }

  function Magnitude(x: int): int {
    if x < 0 then -x else x
  }

  /** More than two standard deviations and at least 8 percent away from the mean of at
      least two earlier amounts, in integers: with `n` amounts that sum to `s`, `d` is `n`
      times the deviation, and `v` is `n` squared times the variance. */
  predicate IsOutlier(h: seq<int>, amount: int) {
    var n, s := |h|, Total(h);
    var d, v := n * amount - s, n * Squares(h) - s * s;
    n >= 2 && v > 0 && d * d > 4 * v && s != 0 && 100 * Magnitude(d) >= 8 * Magnitude(s)
  }

  lemma CastProduct(x: int, y: int)
    ensures (x * y) as real == x as real * y as real
  {
  }

  lemma {:induction false} CastSums(h: seq<int>)
    ensures Sum(Reals(h)) == Total(h) as real && Dot(Reals(h), Reals(h)) == Squares(h) as real
  {
    if h == [] {
      assert Reals(h) == [];
    } else {
      var init, last := h[..|h| - 1], h[|h| - 1];
      CastSums(init);
      assert Reals(h) == Reals(init) + [last as real];
      SumSnoc(Reals(init), last as real);
      DotSnoc(Reals(init), Reals(init), last as real, last as real);
      CastProduct(last, last);
    }
  }

  lemma CastDifference(n: int, q: int, s: int)
    ensures SpreadOf(n as real, q as real, s as real) == (n * q - s * s) as real
  {
    CastProduct(n, q);
    CastProduct(s, s);
  }

  lemma CastSpread(h: seq<int>)
    ensures Spread(Reals(h), Reals(h)) == (|h| * Squares(h) - Total(h) * Total(h)) as real
  {
    CastSums(h);
    SpreadFrom(Reals(h), |h| as real, Squares(h) as real, Total(h) as real);
    CastDifference(|h|, Squares(h), Total(h));
  }

  lemma CastTimes(n: int, a: int, s: int)
    ensures Times(n as real, a as real) - s as real == (n * a - s) as real
  {
    CastProduct(n, a);
  }

  lemma CastExcess(h: seq<int>, amount: int)
    ensures Anomaly.Excess(amount as real, Reals(h)) == (|h| * amount - Total(h)) as real
  {
    CastSums(h);
    CastTimes(|h|, amount, Total(h));
  }

  lemma CastTests(d: int, v: int, s: int)
    ensures d as real * d as real > (2.0 * 2.0) * v as real <==> d * d > 4 * v
    ensures 100.0 * Anomaly.Abs(d as real) >= 8.0 * Anomaly.Abs(s as real) <==> 100 * Magnitude(d) >= 8 * Magnitude(s)
  {
    CastProduct(d, d);
  }

  lemma SameTest(h: seq<int>, amount: int)
    ensures Anomaly.FlaggedBySums(amount as real, Reals(h), 2.0) <==> IsOutlier(h, amount)
  {
    var n, s := |h|, Total(h);
    var d, v := n * amount - s, n * Squares(h) - s * s;
    CastSums(h);
    CastSpread(h);
    CastExcess(h, amount);
    CastTests(d, v, s);
  }

  /** The pipeline's test is this test on the vendor's history in the graph. */
  lemma AnomalousExactly(env: Env, w: World, e: Event)
    ensures IsAnomalous(env, w, e) <==> IsOutlier(Graph.VendorHistory(env.norm, w.graph, e.vendor), e.amount)
  {
    var h := Graph.VendorHistory(env.norm, w.graph, e.vendor);
    Anomaly.FlagBySums(e.amount as real, Reals(h), 2.0);
    SameTest(h, e.amount);
  }
}
