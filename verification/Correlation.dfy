/** Costs that follow revenue: how categories are classed as revenue-correlated and
    when the ratio of cost to revenue is reported. Amounts are exact reals. */
module Correlation {
  import opened PyText
  import opened RealArithmetic
  import opened Stats
  import opened SumForms
  import opened Pearson
  import opened Sequences
  import opened StringOrder
  import opened StableSort
  import opened KeyLists
  import Anomaly

  datatype Txn = Txn(vendor: string, date: string, amount: real, direction: string, category: string)

  type Select = Txn -> bool

  /** `date[:7]`. */
  function Month(t: Txn): string {
    MonthOf(t.date)
  }

  // ---- Totals by month ----

  predicate Counts(sel: Select, t: Txn) {
    sel(t) && Month(t) != ""
  }

  /** The months of the selected transactions, in order of first appearance. */
  function MonthsOf(sel: Select, txns: seq<Txn>): seq<string> {
    if txns == [] then []
    else
      var ms, t := MonthsOf(sel, txns[..|txns| - 1]), txns[|txns| - 1];
      if Counts(sel, t) && Month(t) !in ms then ms + [Month(t)] else ms
  }

  /** What the selected transactions of month `m` sum to. */
  function MonthTotal(sel: Select, txns: seq<Txn>, m: string): real {
    if txns == [] then 0.0
    else
      var t := txns[|txns| - 1];
      MonthTotal(sel, txns[..|txns| - 1], m) + if Counts(sel, t) && Month(t) == m then t.amount else 0.0
  }

  /** A dict of totals, with its keys in order. */
  datatype Totals = Totals(months: seq<string>, total: map<string, real>) {
    predicate Valid() {
      && NoRepeats(months)
      && (forall m :: m in months ==> m in total) && (forall m :: m in total ==> m in months)
    }
  }

  /** The dict holds the sum of the selected transactions under each of their months. */
  ghost predicate IsTotals(d: Totals, sel: Select, txns: seq<Txn>) {
    && d.Valid() && d.months == MonthsOf(sel, txns)
    && forall m :: m in d.total ==> d.total[m] == MonthTotal(sel, txns, m)
  }

  lemma {:induction false} MonthsOfDistinct(sel: Select, txns: seq<Txn>)
    ensures NoRepeats(MonthsOf(sel, txns))
  {
    if txns != [] { MonthsOfDistinct(sel, txns[..|txns| - 1]); }
  }

  lemma {:induction false} AbsentTotal(sel: Select, txns: seq<Txn>, m: string)
    requires m !in MonthsOf(sel, txns)
    ensures MonthTotal(sel, txns, m) == 0.0
  {
    if txns != [] { AbsentTotal(sel, txns[..|txns| - 1], m); }
  }

  function TotalsOf(sel: Select, txns: seq<Txn>): (d: Totals)
    ensures IsTotals(d, sel, txns)
  {
    MonthsOfDistinct(sel, txns);
    Totals(MonthsOf(sel, txns), map m | m in MonthsOf(sel, txns) :: MonthTotal(sel, txns, m))
  }

  /** The accumulating loop behind the totals by month. */
  method SumByMonth(sel: Select, txns: seq<Txn>) returns (d: Totals)
    ensures d == TotalsOf(sel, txns)
  {
    d := Totals([], map[]);
    var i := 0;
    while i < |txns|
      invariant 0 <= i <= |txns| && IsTotals(d, sel, txns[..i])
    {
      var t := txns[i];
      assert txns[..i + 1][..i] == txns[..i] && txns[..i + 1][i] == t;
      if sel(t) && Month(t) != "" {
        var m := Month(t);
        if m in d.total {
          d := Totals(d.months, d.total[m := d.total[m] + t.amount]);
        } else {
          AbsentTotal(sel, txns[..i], m);
          d := Totals(d.months + [m], d.total[m := 0.0 + t.amount]);
        }
      }
      i := i + 1;
    }
    assert txns[..|txns|] == txns;
    assert d.total == TotalsOf(sel, txns).total;
  }

  function IsIncome(): Select {
    (t: Txn) => t.direction == "income"
  }

  function InCategory(cat: string): Select {
    (t: Txn) => t.category == cat
  }

  function Expenses(txns: seq<Txn>): seq<Txn> {
    if txns == [] then []
    else
      var t := txns[|txns| - 1];
      Expenses(txns[..|txns| - 1]) + if t.direction == "expense" then [t] else []
  }

  // ---- Months that both dicts have ----

  function Both(ms: seq<string>, rev: map<string, real>, positive: bool): (r: seq<string>)
    ensures forall m :: m in r ==> m in ms && m in rev && (positive ==> rev[m] > 0.0)
  {
    if ms == [] then []
    else
      var m := ms[|ms| - 1];
      Both(ms[..|ms| - 1], rev, positive) + if m in rev && (!positive || rev[m] > 0.0) then [m] else []
  }

  /** The months of both dicts in ascending order; with `positive`, only those
      with revenue above zero. */
  function SharedMonths(cost: Totals, rev: map<string, real>, positive: bool): (r: seq<string>)
    requires cost.Valid()
    ensures forall m :: m in r ==> m in cost.total && m in rev && (positive ==> rev[m] > 0.0)
  {
    SortMembers(Self(), Both(cost.months, rev, positive));
    Sort(Self(), Both(cost.months, rev, positive))
  }

  function ValuesAt(d: map<string, real>, ms: seq<string>): (r: seq<real>)
    requires forall m :: m in ms ==> m in d
    ensures |r| == |ms| && forall i :: 0 <= i < |ms| ==> r[i] == d[ms[i]]
  {
    seq(|ms|, i requires 0 <= i < |ms| => assert ms[i] in ms; d[ms[i]])
  }

  // ---- Classing a category ----

  const MIN_MONTHS: nat := 4

  function IsAutoCorrelated(sqrt: real -> real, cost: Totals, rev: map<string, real>, threshold: real): bool
    requires IsRoot(sqrt) && cost.Valid()
  {
    var ms := SharedMonths(cost, rev, false);
    |ms| >= MIN_MONTHS && PearsonR(sqrt, ValuesAt(cost.total, ms), ValuesAt(rev, ms)) >= threshold
  }

  /** `lower` is `str.lower`. */
  predicate IsConfigCorrelated(lower: string -> string, cat: string, subs: seq<string>) {
    exists k :: 0 <= k < |subs| && Contains(lower(cat), subs[k])
  }

  /** The settings of a run. */
  datatype Settings = Settings(lower: string -> string, subs: seq<string>, corr: real, ratioZ: real, ratioJump: real)

  predicate IsCorrelated(sqrt: real -> real, s: Settings, expenses: seq<Txn>, rev: map<string, real>, cat: string)
    requires IsRoot(sqrt)
  {
    IsConfigCorrelated(s.lower, cat, s.subs)
    || IsAutoCorrelated(sqrt, TotalsOf(InCategory(cat), expenses), rev, s.corr)
  }

  /** `build_correlated_categories`. */
  function CorrelatedCategories(sqrt: real -> real, s: Settings, expenses: seq<Txn>, rev: map<string, real>): set<string>
    requires IsRoot(sqrt)
  {
    CategoriesWhere(Correlated(sqrt, s, expenses, rev), expenses, |expenses|)
  }

  /** The named categories of the first `n` expenses that pass a test. */
  function CategoriesWhere(test: string -> bool, expenses: seq<Txn>, n: nat): set<string>
    requires n <= |expenses|
  {
    set i | 0 <= i < n && expenses[i].category != "" && test(expenses[i].category) :: expenses[i].category
  }

  function Correlated(sqrt: real -> real, s: Settings, expenses: seq<Txn>, rev: map<string, real>): string -> bool
    requires IsRoot(sqrt)
  {
    cat requires IsRoot(sqrt) => IsCorrelated(sqrt, s, expenses, rev, cat)
  }

  /** The expenses that the absolute anomaly scan sees. */
  function FixedExpenses(expenses: seq<Txn>, correlated: set<string>): (r: seq<Txn>)
    ensures forall i :: 0 <= i < |r| ==> r[i].category !in correlated
  {
    if expenses == [] then []
    else
      var t := expenses[|expenses| - 1];
      FixedExpenses(expenses[..|expenses| - 1], correlated) + if t.category in correlated then [] else [t]
  }

  // ---- Findings on the ratio ----

  datatype RatioFinding = RatioFinding(month: string, ratio: real, mean: real, z: real, jump: real)

  function Ratios(cost: map<string, real>, rev: map<string, real>, ms: seq<string>): (r: seq<real>)
    requires forall m :: m in ms ==> m in cost && m in rev && rev[m] > 0.0
    ensures |r| == |ms| && forall i :: 0 <= i < |ms| ==> r[i] == cost[ms[i]] / rev[ms[i]]
  {
    seq(|ms|, i requires 0 <= i < |ms| => assert ms[i] in ms; cost[ms[i]] / rev[ms[i]])
  }

  /** The ratio of month `i` against those before it. */
  function Deviation(sqrt: real -> real, ratios: seq<real>, i: nat, month: string): RatioFinding
    requires 0 < i < |ratios|
  {
    var history, ratio := ratios[..i], ratios[i];
    var m, sd := Mean(history), sqrt(Variance(history));
    RatioFinding(month, ratio, m,
                 if sd > 0.0 then (ratio - m) / sd else 0.0,
                 if m > 0.0 then (ratio - m) / m else 0.0)
  }

  /** The finding on month `i`, if its deviation reaches a threshold. */
  function Reported(sqrt: real -> real, s: Settings, ratios: seq<real>, i: nat, month: string): seq<RatioFinding>
    requires 0 < i < |ratios|
  {
    var f := Deviation(sqrt, ratios, i, month);
    if f.z >= s.ratioZ || f.jump >= s.ratioJump then [f] else []
  }

  function FindingsTo(sqrt: real -> real, s: Settings, ms: seq<string>, ratios: seq<real>, n: nat): seq<RatioFinding>
    requires |ms| == |ratios| && n <= |ms|
  {
    if n <= 2 then [] else FindingsTo(sqrt, s, ms, ratios, n - 1) + Reported(sqrt, s, ratios, n - 1, ms[n - 1])
  }

  /** `ratio_findings_for_category`. */
  function RatioFindings(sqrt: real -> real, s: Settings, cost: Totals, rev: map<string, real>): seq<RatioFinding>
    requires cost.Valid()
  {
    var ms := SharedMonths(cost, rev, true);
    FindingsTo(sqrt, s, ms, Ratios(cost.total, rev, ms), |ms|)
  }

  /** A ratio `x` above a mean `m` with deviation `sd` is reported, without divisions:
      it is `z` deviations above the mean, or exceeds the mean by the share `jump`. */
  predicate Rises(x: real, m: real, sd: real, z: real, jump: real) {
    || (if sd > 0.0 then x - m >= z * sd else 0.0 >= z)
    || (if m > 0.0 then x - m >= jump * m else 0.0 >= jump)
  }

  lemma DeviationRises(sqrt: real -> real, s: Settings, ratios: seq<real>, i: nat, month: string)
    requires 0 < i < |ratios|
    ensures var f := Deviation(sqrt, ratios, i, month);
            (f.z >= s.ratioZ || f.jump >= s.ratioJump) <==>
            Rises(ratios[i], Mean(ratios[..i]), sqrt(Variance(ratios[..i])), s.ratioZ, s.ratioJump)
  {
    var m, sd := Mean(ratios[..i]), sqrt(Variance(ratios[..i]));
    if sd > 0.0 { QuotientReaches(ratios[i] - m, sd, s.ratioZ); }
    if m > 0.0 { QuotientReaches(ratios[i] - m, m, s.ratioJump); }
  }

  /** Exactly the months from the third on whose ratio rises above the ones before are reported. */
  lemma {:induction false} RatioFindingsExact(sqrt: real -> real, s: Settings, ms: seq<string>, ratios: seq<real>,
                                             n: nat, f: RatioFinding)
    requires |ms| == |ratios| && n <= |ms|
    ensures f in FindingsTo(sqrt, s, ms, ratios, n) <==>
            exists i :: 2 <= i < n && f == Deviation(sqrt, ratios, i, ms[i])
                        && Rises(ratios[i], Mean(ratios[..i]), sqrt(Variance(ratios[..i])), s.ratioZ, s.ratioJump)
  {
    if n > 2 {
      RatioFindingsExact(sqrt, s, ms, ratios, n - 1, f);
      DeviationRises(sqrt, s, ratios, n - 1, ms[n - 1]);
    }
  }

  // ---- The tests by sums ----

  lemma TotalSnoc(sel: Select, txns: seq<Txn>, t: Txn, m: string)
    ensures MonthTotal(sel, txns + [t], m)
         == MonthTotal(sel, txns, m) + if sel(t) && Month(t) != "" && Month(t) == m then t.amount else 0.0
    ensures m in MonthsOf(sel, txns + [t]) <==> m in MonthsOf(sel, txns) || (sel(t) && Month(t) != "" && Month(t) == m)
  {
    assert (txns + [t])[..|txns|] == txns;
  }

  lemma {:induction false} BothExactly(ms: seq<string>, rev: map<string, real>, positive: bool)
    ensures forall m :: m in Both(ms, rev, positive) <==> m in ms && m in rev && (positive ==> rev[m] > 0.0)
    ensures NoRepeats(ms) ==> NoRepeats(Both(ms, rev, positive))
  {
    if ms != [] {
      BothExactly(ms[..|ms| - 1], rev, positive);
      assert ms == ms[..|ms| - 1] + [ms[|ms| - 1]];
    }
  }

  /** The shared months come each once, in ascending order. */
  lemma SharedExactly(cost: Totals, rev: map<string, real>, positive: bool)
    requires cost.Valid()
    ensures var ms := SharedMonths(cost, rev, positive);
            && (forall m :: m in ms <==> m in cost.total && m in rev && (positive ==> rev[m] > 0.0))
            && forall i, j :: 0 <= i < j < |ms| ==> Less(ms[i], ms[j])
  {
    var ms := SharedMonths(cost, rev, positive);
    BothExactly(cost.months, rev, positive);
    SortDistinct(Both(cost.months, rev, positive));
    forall i, j | 0 <= i < j < |ms| ensures Less(ms[i], ms[j]) {
      assert ms[i] != ms[j] && !Less(Self()(ms[j]), Self()(ms[i]));
      LessTotal(ms[i], ms[j]);
    }
  }

  /** Revenue is what is marked as income, by month. */
  lemma RevenueSnoc(txns: seq<Txn>, t: Txn, m: string)
    ensures MonthTotal(IsIncome(), txns + [t], m)
         == MonthTotal(IsIncome(), txns, m)
            + if t.direction == "income" && Month(t) != "" && Month(t) == m then t.amount else 0.0
  {
    TotalSnoc(IsIncome(), txns, t, m);
  }

  /** The cost of a category is that of the transactions with its name, by month. */
  lemma CostSnoc(cat: string, txns: seq<Txn>, t: Txn, m: string)
    ensures MonthTotal(InCategory(cat), txns + [t], m)
         == MonthTotal(InCategory(cat), txns, m)
            + if t.category == cat && Month(t) != "" && Month(t) == m then t.amount else 0.0
  {
    TotalSnoc(InCategory(cat), txns, t, m);
  }

  function IsExpense(): Select {
    (t: Txn) => t.direction == "expense"
  }

  /** The expenses are the transactions marked so, in order. */
  lemma {:induction false} ExpensesInOrder(txns: seq<Txn>)
    ensures Expenses(txns) == Filter(IsExpense(), txns)
  {
    if txns != [] { ExpensesInOrder(txns[..|txns| - 1]); }
  }

  function IsFixed(correlated: set<string>): Select {
    (t: Txn) => t.category !in correlated
  }

  /** The scan sees the expenses whose category is not correlated, in order. */
  lemma {:induction false} FixedInOrder(expenses: seq<Txn>, correlated: set<string>)
    ensures FixedExpenses(expenses, correlated) == Filter(IsFixed(correlated), expenses)
  {
    if expenses != [] { FixedInOrder(expenses[..|expenses| - 1], correlated); }
  }

  /** `x` is at least `z` deviations above the earlier ratios, by sums. */
  predicate FarAbove(x: real, history: seq<real>, z: real) {
    var d, v := Times(|history| as real, x) - Sum(history), Spread(history, history);
    if v > 0.0 then Reaches(d, v, z) else 0.0 >= z
  }

  /** `x` exceeds the mean of the earlier ratios by the share `jump`, by sums. */
  predicate RisesBy(x: real, history: seq<real>, jump: real) {
    var d, s := Times(|history| as real, x) - Sum(history), Sum(history);
    if s > 0.0 then d >= jump * s else 0.0 >= jump
  }

  lemma FarAboveExactly(sqrt: real -> real, x: real, history: seq<real>, z: real)
    requires IsRoot(sqrt) && history != []
    ensures Anomaly.ZScore(sqrt, x, history) >= z <==> FarAbove(x, history, z)
  {
    Anomaly.ZScoreBySums(sqrt, x, history);
    var d, v := Times(|history| as real, x) - Sum(history), Spread(history, history);
    if v > 0.0 { ReachesExactly(Anomaly.ZScore(sqrt, x, history), d, v, z); }
  }

  lemma RisesByExactly(x: real, history: seq<real>, jump: real)
    requires history != []
    ensures var m := Mean(history);
            (if m > 0.0 then (x - m) / m else 0.0) >= jump <==> RisesBy(x, history, jump)
  {
    var m, n := Mean(history), |history| as real;
    var d, s := Times(n, x) - Sum(history), Sum(history);
    MeanTimesCount(history);
    assert Times(n, m) == s && Times(n, x - m) == d;
    Anomaly.OrderScales(m, 0.0, n);
    if m > 0.0 {
      QuotientReaches(x - m, m, jump);
      Anomaly.OrderScales(jump * m, x - m, n);
      assert Times(jump * m, n) == jump * s;
    }
  }

  /** Month `i` is reported exactly if at least two months come before it and its ratio is
      far above theirs or rises by the share. */
  lemma ReportedExactly(sqrt: real -> real, s: Settings, ms: seq<string>, ratios: seq<real>, n: nat, i: nat)
    requires IsRoot(sqrt) && |ms| == |ratios| && n <= |ms| && 0 < i < |ratios|
    ensures Reported(sqrt, s, ratios, i, ms[i]) != [] <==>
            FarAbove(ratios[i], ratios[..i], s.ratioZ) || RisesBy(ratios[i], ratios[..i], s.ratioJump)
    ensures Reported(sqrt, s, ratios, i, ms[i]) != [] ==> Reported(sqrt, s, ratios, i, ms[i]) == [Deviation(sqrt, ratios, i, ms[i])]
  {
    FarAboveExactly(sqrt, ratios[i], ratios[..i], s.ratioZ);
    RisesByExactly(ratios[i], ratios[..i], s.ratioJump);
  }

  /** The categories classed as correlated: named by some expense, and matching the
      configuration or, over at least four shared months, correlating by sums. */
  lemma CategoriesExactly(sqrt: real -> real, s: Settings, expenses: seq<Txn>, rev: map<string, real>, cat: string)
    requires IsRoot(sqrt)
    ensures cat in CorrelatedCategories(sqrt, s, expenses, rev) <==>
            && cat != "" && (exists i :: 0 <= i < |expenses| && expenses[i].category == cat)
            && ((exists k :: 0 <= k < |s.subs| && Contains(s.lower(cat), s.subs[k]))
                || (var cost := TotalsOf(InCategory(cat), expenses);
                    var ms := SharedMonths(cost, rev, false);
                    |ms| >= 4 && CorrelatesBySums(ValuesAt(cost.total, ms), ValuesAt(rev, ms), s.corr)))
  {
    var cost := TotalsOf(InCategory(cat), expenses);
    var ms := SharedMonths(cost, rev, false);
    PearsonReaches(sqrt, ValuesAt(cost.total, ms), ValuesAt(rev, ms), s.corr);
  }

  // ---- A cost that is a constant share of revenue ----

  lemma NotConstantProper(xs: seq<real>, i: nat, j: nat)
    requires i < |xs| && j < |xs| && xs[i] != xs[j]
    ensures Proper(xs, xs)
  {
    if Variance(xs) == 0.0 { NoVarianceIsConstant(xs); }
  }

  /** The category's monthly cost is `c` times revenue in every shared month. */
  ghost predicate ConstantShare(cost: Totals, rev: map<string, real>, c: real) {
    forall m :: m in cost.total && m in rev ==> cost.total[m] == c * rev[m]
  }

  lemma ConstantShareCorrelates(sqrt: real -> real, cost: Totals, rev: map<string, real>, c: real, threshold: real,
                                i: nat, j: nat)
    requires IsRoot(sqrt) && cost.Valid() && ConstantShare(cost, rev, c) && c > 0.0 && threshold <= 1.0
    requires var ms := SharedMonths(cost, rev, false);
             |ms| >= MIN_MONTHS && i < |ms| && j < |ms| && rev[ms[i]] != rev[ms[j]]
    ensures IsAutoCorrelated(sqrt, cost, rev, threshold)
  {
    var ms := SharedMonths(cost, rev, false);
    var costs, revs := ValuesAt(cost.total, ms), ValuesAt(rev, ms);
    forall k | 0 <= k < |ms| ensures costs[k] == c * revs[k] {
      assert ms[k] in ms;
    }
    NotConstantProper(revs, i, j);
    ProportionalCorrelates(sqrt, costs, revs, c);
  }

  lemma {:induction false} ConstantRatioSilent(sqrt: real -> real, s: Settings, ms: seq<string>, ratios: seq<real>, c: real, n: nat)
    requires IsRoot(sqrt) && |ms| == |ratios| && n <= |ms| && s.ratioZ > 0.0 && s.ratioJump > 0.0
    requires forall i :: 0 <= i < |ratios| ==> ratios[i] == c
    ensures FindingsTo(sqrt, s, ms, ratios, n) == []
  {
    if n > 2 {
      ConstantRatioSilent(sqrt, s, ms, ratios, c, n - 1);
      var history := ratios[..n - 1];
      ConstantStats(history, c);
      var sd := sqrt(0.0);
      PositiveSquare(sd, 0.0);
      ZeroOver(ratios[n - 1] - c, c);
    }
  }

  lemma ZeroOver(x: real, d: real)
    requires x == 0.0
    ensures d != 0.0 ==> x / d == 0.0
  {
    if d != 0.0 { Quotient(x, d, 0.0); }
  }

  lemma ConstantRatios(cost: map<string, real>, rev: map<string, real>, ms: seq<string>, c: real)
    requires forall m :: m in ms ==> m in cost && m in rev && rev[m] > 0.0 && cost[m] == c * rev[m]
    ensures forall i :: 0 <= i < |ms| ==> Ratios(cost, rev, ms)[i] == c
  {
    forall i | 0 <= i < |ms| ensures Ratios(cost, rev, ms)[i] == c {
      assert ms[i] in ms;
      Quotient(cost[ms[i]], rev[ms[i]], c);
    }
  }

  lemma ConstantShareSilent(sqrt: real -> real, s: Settings, cost: Totals, rev: map<string, real>, c: real)
    requires IsRoot(sqrt) && cost.Valid() && ConstantShare(cost, rev, c)
    requires s.ratioZ > 0.0 && s.ratioJump > 0.0
    ensures RatioFindings(sqrt, s, cost, rev) == []
  {
    var ms := SharedMonths(cost, rev, true);
    ConstantRatios(cost.total, rev, ms, c);
    ConstantRatioSilent(sqrt, s, ms, Ratios(cost.total, rev, ms), c, |ms|);
  }

  /** A category whose monthly cost is a constant positive share of revenue, over at
      least four shared months in which revenue varies, is classed as correlated;
      then no transaction of it reaches the absolute anomaly scan, and the ratio
      detector reports nothing. */
  lemma ConstantFeeRaisesNoAnomaly(sqrt: real -> real, s: Settings, txns: seq<Txn>, cat: string, c: real, i: nat, j: nat)
    requires IsRoot(sqrt) && cat != "" && c > 0.0
    requires s.corr <= 1.0 && s.ratioZ > 0.0 && s.ratioJump > 0.0
    requires var rev := TotalsOf(IsIncome(), txns).total;
             var cost := TotalsOf(InCategory(cat), Expenses(txns));
             && ConstantShare(cost, rev, c)
             && var ms := SharedMonths(cost, rev, false);
                |ms| >= MIN_MONTHS && i < |ms| && j < |ms| && rev[ms[i]] != rev[ms[j]]
    ensures var rev := TotalsOf(IsIncome(), txns).total;
            var expenses := Expenses(txns);
            var correlated := CorrelatedCategories(sqrt, s, expenses, rev);
            && cat in correlated
            && (forall t :: t in FixedExpenses(expenses, correlated) ==> t.category != cat)
            && RatioFindings(sqrt, s, TotalsOf(InCategory(cat), expenses), rev) == []
  {
    var rev := TotalsOf(IsIncome(), txns).total;
    var expenses := Expenses(txns);
    var cost := TotalsOf(InCategory(cat), expenses);
    ConstantShareCorrelates(sqrt, cost, rev, c, s.corr, i, j);
    ConstantShareSilent(sqrt, s, cost, rev, c);
    var ms := SharedMonths(cost, rev, false);
    assert ms[i] in ms;
    var k := MonthHasSource(InCategory(cat), expenses, ms[i]);
    assert expenses[k].category == cat;
  }

  /** Every month of the totals comes from a selected transaction. */
  lemma {:induction false} MonthHasSource(sel: Select, txns: seq<Txn>, m: string) returns (k: nat)
    requires m in MonthsOf(sel, txns)
    ensures k < |txns| && Counts(sel, txns[k]) && Month(txns[k]) == m
  {
    var n := |txns| - 1;
    if m in MonthsOf(sel, txns[..n]) {
      k := MonthHasSource(sel, txns[..n], m);
    } else {
      k := n;
    }
  }

  // ---- The loops ----

  method ExpensesOf(txns: seq<Txn>) returns (r: seq<Txn>)
    ensures r == Expenses(txns)
  {
    r := [];
    for i := 0 to |txns|
      invariant r == Expenses(txns[..i])
    {
      assert txns[..i + 1][..i] == txns[..i];
      if txns[i].direction == "expense" { r := r + [txns[i]]; }
    }
    assert txns[..|txns|] == txns;
  }

  /** `_is_auto_correlated`. */
  method AutoCorrelated(sqrt: real -> real, expenses: seq<Txn>, rev: map<string, real>, cat: string, threshold: real)
    returns (b: bool)
    requires IsRoot(sqrt)
    ensures b == IsAutoCorrelated(sqrt, TotalsOf(InCategory(cat), expenses), rev, threshold)
    ensures var cost := TotalsOf(InCategory(cat), expenses);
            var ms := SharedMonths(cost, rev, false);
            b <==> |ms| >= 4 && CorrelatesBySums(ValuesAt(cost.total, ms), ValuesAt(rev, ms), threshold)
  {
    var cost := SumByMonth(InCategory(cat), expenses);
    var shared := SharedMonths(cost, rev, false);
    if |shared| < MIN_MONTHS {
      return false;
    }
    PearsonReaches(sqrt, ValuesAt(cost.total, shared), ValuesAt(rev, shared), threshold);
    b := PearsonR(sqrt, ValuesAt(cost.total, shared), ValuesAt(rev, shared)) >= threshold;
  }

  lemma CategoriesStep(test: string -> bool, expenses: seq<Txn>, n: nat)
    requires n < |expenses|
    ensures var cat := expenses[n].category;
            CategoriesWhere(test, expenses, n + 1)
            == CategoriesWhere(test, expenses, n) + if cat != "" && test(cat) then {cat} else {}
  {
  }

  method TestCategory(sqrt: real -> real, s: Settings, expenses: seq<Txn>, rev: map<string, real>, cat: string)
    returns (hit: bool)
    requires IsRoot(sqrt)
    ensures hit == Correlated(sqrt, s, expenses, rev)(cat)
  {
    hit := IsConfigCorrelated(s.lower, cat, s.subs);
    if !hit {
      hit := AutoCorrelated(sqrt, expenses, rev, cat, s.corr);
    }
  }

  /** `build_correlated_categories`: every category that occurs is tried. */
  method BuildCorrelatedCategories(sqrt: real -> real, s: Settings, expenses: seq<Txn>, rev: map<string, real>)
    returns (correlated: set<string>)
    requires IsRoot(sqrt)
    ensures correlated == CorrelatedCategories(sqrt, s, expenses, rev)
  {
    correlated := {};
    ghost var test := Correlated(sqrt, s, expenses, rev);
    for i := 0 to |expenses|
      invariant correlated == CategoriesWhere(test, expenses, i)
    {
      var cat := expenses[i].category;
      CategoriesStep(test, expenses, i);
      if cat != "" {
        var hit := TestCategory(sqrt, s, expenses, rev, cat);
        if hit { correlated := correlated + {cat}; }
      }
    }
  }

  method CompareMonth(sqrt: real -> real, s: Settings, ratios: seq<real>, i: nat, month: string)
    returns (found: seq<RatioFinding>)
    requires 0 < i < |ratios|
    ensures found == Reported(sqrt, s, ratios, i, month)
  {
    found := [];
    var f := Deviation(sqrt, ratios, i, month);
    if f.z >= s.ratioZ || f.jump >= s.ratioJump { found := [f]; }
  }

  /** Each month's ratio against the ones before it. */
  method CompareRatios(sqrt: real -> real, s: Settings, ms: seq<string>, ratios: seq<real>)
    returns (found: seq<RatioFinding>)
    requires |ms| == |ratios|
    ensures found == FindingsTo(sqrt, s, ms, ratios, |ms|)
  {
    found := [];
    for i := 0 to |ratios|
      invariant found == FindingsTo(sqrt, s, ms, ratios, i)
    {
      if i >= 2 {
        var more := CompareMonth(sqrt, s, ratios, i, ms[i]);
        found := found + more;
      }
    }
  }

  /** `ratio_findings_for_category`. */
  method FindRatios(sqrt: real -> real, s: Settings, expenses: seq<Txn>, cat: string, rev: map<string, real>)
    returns (found: seq<RatioFinding>)
    ensures found == RatioFindings(sqrt, s, TotalsOf(InCategory(cat), expenses), rev)
  {
    var cost := SumByMonth(InCategory(cat), expenses);
    var shared := SharedMonths(cost, rev, true);
    found := CompareRatios(sqrt, s, shared, Ratios(cost.total, rev, shared));
  }
}
