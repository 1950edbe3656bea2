/** Charges of one vendor on one day that are so alike that they may be one charge
    billed twice. */
module Duplicates {
  import opened Concats
  import opened RealArithmetic
  import opened Sequences
  import opened Stats
  import opened SumForms
  import opened Correlation
  import opened Findings
  import Anomaly

  /** A vendor and a date. */
  type Day = (string, string)

  function DayOf(t: Txn): Day {
    (t.vendor, t.date)
  }

  /** The days of the expenses, in order of first appearance. */
  function DaysOf(expenses: seq<Txn>): seq<Day> {
    if expenses == [] then []
    else
      var days, d := DaysOf(expenses[..|expenses| - 1]), DayOf(expenses[|expenses| - 1]);
      if d in days then days else days + [d]
  }

  function AmountsOn(expenses: seq<Txn>, d: Day): seq<real> {
    if expenses == [] then []
    else
      var t := expenses[|expenses| - 1];
      AmountsOn(expenses[..|expenses| - 1], d) + if DayOf(t) == d then [t.amount] else []
  }

  /** `abs(a - mean) / max(mean, 0.01) < 0.05`. */
  predicate Near(a: real, mean: real) {
    var base := if mean < 0.01 then 0.01 else mean;
    Anomaly.Abs(a - mean) / base < 0.05
  }

  predicate AreAlike(amounts: seq<real>) {
    |amounts| >= 2 && forall i :: 0 <= i < |amounts| ==> Near(amounts[i], Mean(amounts))
  }

  function DoubleReport(category: CategoryOf, expenses: seq<Txn>, d: Day, amounts: seq<real>): Report
    requires amounts != []
  {
    Report(d.0, category(d.0, expenses), (Sum(amounts) - Mean(amounts)) * 12.0, Medium,
           Doubled(|amounts|, d.1, Mean(amounts)))
  }

  /** What a day is reported for. */
  function Reporter(category: CategoryOf, expenses: seq<Txn>): Day -> seq<Report> {
    (d: Day) =>
      var amounts := AmountsOn(expenses, d);
      if AreAlike(amounts) then [DoubleReport(category, expenses, d, amounts)] else []
  }

  /** `_duplicate_charge_findings`. */
  function Doubles(category: CategoryOf, expenses: seq<Txn>): seq<Report> {
    Concat(Reporter(category, expenses), DaysOf(expenses), |DaysOf(expenses)|)
  }

  // ---- Exactly the days with charges that are alike ----

  lemma {:induction false} NoAmounts(expenses: seq<Txn>, d: Day)
    ensures d in DaysOf(expenses) <==> AmountsOn(expenses, d) != []
  {
    if expenses != [] { NoAmounts(expenses[..|expenses| - 1], d); }
  }

  /** `r` reports the charges of day `d`. */
  predicate IsDouble(category: CategoryOf, expenses: seq<Txn>, d: Day, r: Report) {
    var amounts := AmountsOn(expenses, d);
    AreAlike(amounts) && r == DoubleReport(category, expenses, d, amounts)
  }

  /** A day is reported exactly if it has several charges, all near their mean. */
  lemma DoublesExact(category: CategoryOf, expenses: seq<Txn>, r: Report)
    ensures r in Doubles(category, expenses) <==> exists d: Day :: IsDouble(category, expenses, d, r)
  {
    var f, days := Reporter(category, expenses), DaysOf(expenses);
    ConcatMember(f, days, |days|, r);
    forall d: Day ensures r in f(d) <==> IsDouble(category, expenses, d, r) {}
    if d: Day :| IsDouble(category, expenses, d, r) {
      NoAmounts(expenses, d);
      var i :| 0 <= i < |days| && days[i] == d;
      assert r in f(days[i]);
    }
  }

  /** Charges of one amount, twice or more often on a day, are always alike. */
  lemma EqualChargesAreAlike(amounts: seq<real>, a: real)
    requires |amounts| >= 2 && forall i :: 0 <= i < |amounts| ==> amounts[i] == a
    ensures AreAlike(amounts)
  {
    ConstantStats(amounts, a);
    var base := if a < 0.01 then 0.01 else a;
    Quotient(0.0, base, 0.0);
  }

  /** The amounts of a day, as they come. */
  lemma AmountsOnSnoc(expenses: seq<Txn>, t: Txn, d: Day)
    ensures AmountsOn(expenses + [t], d)
         == if t.vendor == d.0 && t.date == d.1 then AmountsOn(expenses, d) + [t.amount] else AmountsOn(expenses, d)
  {
    Parts(expenses, [t]);
    NothingAdded(AmountsOn(expenses, d));
  }

  /** All amounts lie within 5 percent of the mean, or of a cent if that is more: without
      mean or division, for `n` amounts that sum to `s`. */
  predicate AlikeBySums(amounts: seq<real>) {
    var n, s := |amounts| as real, Sum(amounts);
    |amounts| >= 2 && forall i :: 0 <= i < |amounts| ==>
      20.0 * Anomaly.Abs(Times(n, amounts[i]) - s) < if s < 0.01 * n then 0.01 * n else s
  }

  lemma NearBySums(a: real, mean: real, n: real, s: real)
    requires n > 0.0 && Times(n, mean) == s
    ensures Near(a, mean) <==> 20.0 * Anomaly.Abs(Times(n, a) - s) < if s < 0.01 * n then 0.01 * n else s
  {
    var base := if mean < 0.01 then 0.01 else mean;
    var x := Anomaly.Abs(a - mean);
    QuotientReaches(x, base, 0.05);
    Anomaly.AbsScale(a - mean, n);
    assert n * (a - mean) == Times(n, a) - s;
    Anomaly.OrderScales(0.01, mean, n);
    Anomaly.OrderScales(base, 20.0 * x, n);
    assert Times(20.0 * x, n) == 20.0 * (n * x);
  }

  lemma AlikeExactly(amounts: seq<real>)
    ensures AreAlike(amounts) <==> AlikeBySums(amounts)
  {
    if |amounts| >= 2 {
      MeanTimesCount(amounts);
      forall i | 0 <= i < |amounts|
        ensures Near(amounts[i], Mean(amounts)) <==>
                20.0 * Anomaly.Abs(Times(|amounts| as real, amounts[i]) - Sum(amounts))
                < if Sum(amounts) < 0.01 * |amounts| as real then 0.01 * |amounts| as real else Sum(amounts)
      {
        NearBySums(amounts[i], Mean(amounts), |amounts| as real, Sum(amounts));
      }
    }
  }

  /** A day is reported exactly if its amounts are alike; and what is more than their mean,
      over a year, is the impact: `n` times it is the sum, `n` - 1 times, and 12 times over. */
  lemma DoubleExactly(category: CategoryOf, expenses: seq<Txn>, r: Report)
    ensures r in Doubles(category, expenses) <==>
            exists v: string, day: string :: ReportsDouble(category, expenses, v, day, r)
  {
    DoublesExact(category, expenses, r);
    forall d: Day ensures IsDouble(category, expenses, d, r) <==> ReportsDouble(category, expenses, d.0, d.1, r) {
      DoubleReportExactly(category, expenses, d, r);
    }
    if d: Day :| IsDouble(category, expenses, d, r) {
      assert ReportsDouble(category, expenses, d.0, d.1, r);
    }
    if v: string, day: string :| ReportsDouble(category, expenses, v, day, r) {
      assert IsDouble(category, expenses, (v, day), r);
    }
  }

  ghost predicate ReportsDouble(category: CategoryOf, expenses: seq<Txn>, v: string, day: string, r: Report) {
    var amounts := AmountsOn(expenses, (v, day));
    && AlikeBySums(amounts)
    && r.subject == v && r.category == category(v, expenses) && r.confidence == Medium && r.detail.Doubled?
    && r.detail.count == |amounts| && r.detail.day == day && Times(|amounts| as real, r.detail.mean) == Sum(amounts)
    && Times(|amounts| as real, r.annual) == 12.0 * (Times(|amounts| as real, Sum(amounts)) - Sum(amounts))
  }

  lemma ImpactBySums(n: real, s: real, mean: real, x: real)
    requires n > 0.0 && Times(n, mean) == s
    ensures x == (s - mean) * 12.0 <==> Times(n, x) == 12.0 * (Times(n, s) - s)
  {
    assert Times(n, (s - mean) * 12.0) == 12.0 * (Times(n, s) - Times(n, mean));
    if Times(n, x) == Times(n, (s - mean) * 12.0) { Cancel(x, (s - mean) * 12.0, n); }
  }

  lemma MeanBySums(n: real, s: real, mean: real, x: real)
    requires n > 0.0 && Times(n, mean) == s
    ensures x == mean <==> Times(n, x) == s
  {
    if Times(n, x) == Times(n, mean) { Cancel(x, mean, n); }
  }

  lemma DoubleReportExactly(category: CategoryOf, expenses: seq<Txn>, d: Day, r: Report)
    ensures IsDouble(category, expenses, d, r) <==> ReportsDouble(category, expenses, d.0, d.1, r)
  {
    var amounts := AmountsOn(expenses, d);
    assert d == (d.0, d.1);
    AlikeExactly(amounts);
    if AreAlike(amounts) {
      var n, s := |amounts| as real, Sum(amounts);
      MeanTimesCount(amounts);
      ImpactBySums(n, s, Mean(amounts), r.annual);
      if r.detail.Doubled? { MeanBySums(n, s, Mean(amounts), r.detail.mean); }
    }
  }

  lemma {:induction false} DaysDistinct(expenses: seq<Txn>)
    ensures Distinct(DaysOf(expenses))
  {
    if expenses != [] { DaysDistinct(expenses[..|expenses| - 1]); }
  }

  lemma ReportedDay(category: CategoryOf, expenses: seq<Txn>, d: Day, r: Report)
    requires r in Reporter(category, expenses)(d)
    ensures r.detail.Doubled? && d == (r.subject, r.detail.day)
  {
  }

  /** Each day is reported once. */
  lemma DoublesOnce(category: CategoryOf, expenses: seq<Txn>, r: Report)
    ensures multiset(Doubles(category, expenses))[r] <= 1
  {
    var f, days := Reporter(category, expenses), DaysOf(expenses);
    DaysDistinct(expenses);
    var own: Day := if r.detail.Doubled? then (r.subject, r.detail.day) else ("", "");
    forall d: Day | d != own ensures r !in f(d) {
      if r in f(d) { ReportedDay(category, expenses, d, r); }
    }
    ConcatCount(f, days, |days|, r, own);
    assert multiset(f(own))[r] <= 1;
  }

  // ---- The loops ----

  /** The dict by vendor and date. */
  ghost predicate IsIndex(days: seq<Day>, byDay: map<Day, seq<real>>, expenses: seq<Txn>) {
    && days == DaysOf(expenses) && (forall d :: d in days <==> d in byDay)
    && forall d :: d in byDay ==> byDay[d] == AmountsOn(expenses, d)
  }

  lemma IndexStep(days: seq<Day>, byDay: map<Day, seq<real>>, expenses: seq<Txn>, t: Txn)
    requires IsIndex(days, byDay, expenses)
    ensures var d := DayOf(t);
            var known := if d in byDay then byDay[d] else [];
            IsIndex(if d in byDay then days else days + [d], byDay[d := known + [t.amount]], expenses + [t])
  {
    Parts(expenses, [t]);
    NoAmounts(expenses, DayOf(t));
    forall d ensures AmountsOn(expenses + [t], d) == AmountsOn(expenses, d) + if DayOf(t) == d then [t.amount] else [] {}
    forall d ensures AmountsOn(expenses, d) + [] == AmountsOn(expenses, d) {
      NothingAdded(AmountsOn(expenses, d));
    }
  }

  method IndexDays(expenses: seq<Txn>) returns (days: seq<Day>, byDay: map<Day, seq<real>>)
    ensures IsIndex(days, byDay, expenses)
  {
    days, byDay := [], map[];
    for i := 0 to |expenses|
      invariant IsIndex(days, byDay, expenses[..i])
    {
      var d := DayOf(expenses[i]);
      PrefixGrows(expenses, i);
      IndexStep(days, byDay, expenses[..i], expenses[i]);
      var known := if d in byDay then byDay[d] else [];
      days := if d in byDay then days else days + [d];
      byDay := byDay[d := known + [expenses[i].amount]];
    }
    assert expenses[..|expenses|] == expenses;
  }

  lemma DayIndexed(days: seq<Day>, byDay: map<Day, seq<real>>, expenses: seq<Txn>, i: nat)
    requires IsIndex(days, byDay, expenses) && i < |days|
    ensures days[i] in byDay && byDay[days[i]] == AmountsOn(expenses, days[i])
  {
    assert days[i] in days;
  }

  method LookAtDay(category: CategoryOf, expenses: seq<Txn>, d: Day, amounts: seq<real>) returns (r: seq<Report>)
    requires amounts == AmountsOn(expenses, d)
    ensures r == Reporter(category, expenses)(d)
  {
    r := [];
    if |amounts| >= 2 {
      var mean := Mean(amounts);
      if forall k :: 0 <= k < |amounts| ==> Near(amounts[k], mean) {
        r := [DoubleReport(category, expenses, d, amounts)];
      }
    }
  }

  method LookAtNext(ghost f: Day -> seq<Report>, category: CategoryOf, expenses: seq<Txn>, days: seq<Day>,
                    byDay: map<Day, seq<real>>, i: nat, found: seq<Report>)
    returns (found': seq<Report>)
    requires IsIndex(days, byDay, expenses) && i < |days| && f == Reporter(category, expenses)
    ensures found' == found + f(days[i])
  {
    DayIndexed(days, byDay, expenses, i);
    var more := LookAtDay(category, expenses, days[i], byDay[days[i]]);
    found' := found + more;
  }

  method LookAtAll(ghost f: Day -> seq<Report>, category: CategoryOf, expenses: seq<Txn>, days: seq<Day>,
                   byDay: map<Day, seq<real>>)
    returns (found: seq<Report>)
    requires IsIndex(days, byDay, expenses) && f == Reporter(category, expenses)
    ensures found == Concat(f, days, |days|)
  {
    found := [];
    for i := 0 to |days|
      invariant found == Concat(f, days, i)
    {
      ghost var before := found;
      found := LookAtNext(f, category, expenses, days, byDay, i, found);
      assert found == before + f(days[i]);
    }
  }

  /** Index the expenses by vendor and date, and look at each day. */
  method FindDoubles(category: CategoryOf, expenses: seq<Txn>) returns (r: seq<Report>)
    ensures r == Doubles(category, expenses)
  {
    var days, byDay := IndexDays(expenses);
    r := LookAtAll(Reporter(category, expenses), category, expenses, days, byDay);
  }
}
