/** What each detector of `find` reports, with its numbers written out. */
module FindingForms {
  import opened Concats
  import opened Stats
  import opened StableSort
  import opened Correlation
  import opened Findings
  import opened AnomalyFindings
  import opened PyText
  import Anomaly
  import Duplicates
  import Recurring
  import Scan

  lemma TitlesExactly()
    ensures SPIKE == "Expense spike: " && RISE == "Recurring bill jump: "
    ensures TWICE == "Possible duplicate charge: " && TOP == "Top recurring: "
  {
  }

  // ---- Anomalies and ratios ----

  /** An anomaly of the scan at two deviations, with a year of what the amount exceeds the
      rounded mean by; a rounded score of three is of high confidence. */
  predicate IsSpike(cfg: Config, expenses: seq<Txn>, a: Anomaly.Anomaly, r: Report) {
    r == Report(a.vendor, cfg.category(a.vendor, expenses), 12.0 * (a.current - cfg.round(a.mean)),
                if cfg.round(a.z) >= 3.0 || cfg.round(a.z) <= -3.0 then High else Medium, Spike(a))
  }

  lemma SpikeReportExactly(cfg: Config, expenses: seq<Txn>, a: Anomaly.Anomaly, r: Report)
    ensures r == SpikeReport(cfg.round, cfg.category, expenses)(a) <==> IsSpike(cfg, expenses, a, r)
  {
  }

  lemma ScanThreshold(cfg: Config, invs: seq<Scan.Invoice>)
    ensures Anomalies(cfg.sqrt, cfg.round, invs) == Scan.ScanSpec(Anomaly.ZScorer(cfg.sqrt, 2.0), cfg.round, invs)
  {
  }

  /** A ratio that rose, with a year of what the cost exceeds the earlier share of revenue by. */
  predicate IsRatioRise(cat: string, cost: map<string, real>, rev: map<string, real>, f: RatioFinding, r: Report) {
    && f.month in cost && f.month in rev
    && r == Report(cat, cat, 12.0 * (cost[f.month] - f.mean * rev[f.month]), if f.z >= 3.0 then High else Medium, RatioRise(f))
  }

  lemma RatioReportExactly(cat: string, cost: map<string, real>, rev: map<string, real>, f: RatioFinding, r: Report)
    requires f.month in cost && f.month in rev
    ensures r == RatioReport(cat, cost, rev)(f) <==> IsRatioRise(cat, cost, rev, f, r)
  {
  }

  lemma RatioMonths(sqrt: real -> real, s: Settings, cost: Totals, rev: map<string, real>, f: RatioFinding)
    requires cost.Valid() && f in RatioFindings(sqrt, s, cost, rev)
    ensures f.month in cost.total && f.month in rev
  {
    var ms := SharedMonths(cost, rev, true);
    RatioFindingsExact(sqrt, s, ms, Ratios(cost.total, rev, ms), |ms|, f);
    var i :| 2 <= i < |ms| && f == Deviation(sqrt, Ratios(cost.total, rev, ms), i, ms[i]);
    assert ms[i] in ms;
  }

  /** What the anomaly scan contributes. */
  ghost predicate FromScan(cfg: Config, expenses: seq<Txn>, invs: seq<Scan.Invoice>, r: Report) {
    exists a :: a in Scan.ScanSpec(Anomaly.ZScorer(cfg.sqrt, 2.0), cfg.round, invs) && IsSpike(cfg, expenses, a, r)
  }

  ghost predicate RatioOf(cfg: Config, expenses: seq<Txn>, rev: map<string, real>, cat: string, r: Report) {
    var cost := TotalsOf(InCategory(cat), expenses);
    exists f :: f in RatioFindings(cfg.sqrt, cfg.settings, cost, rev) && IsRatioRise(cat, cost.total, rev, f, r)
  }

  lemma ScanPart(cfg: Config, expenses: seq<Txn>, invs: seq<Scan.Invoice>, r: Report)
    ensures r in Map(SpikeReport(cfg.round, cfg.category, expenses), Anomalies(cfg.sqrt, cfg.round, invs)) <==>
            FromScan(cfg, expenses, invs, r)
  {
    var all, f := Anomalies(cfg.sqrt, cfg.round, invs), SpikeReport(cfg.round, cfg.category, expenses);
    ScanThreshold(cfg, invs);
    if r in Map(f, all) {
      var i :| 0 <= i < |all| && r == f(all[i]);
      SpikeReportExactly(cfg, expenses, all[i], r);
      assert all[i] in all;
    }
    if FromScan(cfg, expenses, invs, r) {
      var a :| a in all && IsSpike(cfg, expenses, a, r);
      SpikeReportExactly(cfg, expenses, a, r);
      var i :| 0 <= i < |all| && all[i] == a;
      assert Map(f, all)[i] == r;
    }
  }

  lemma RatioPart(cfg: Config, expenses: seq<Txn>, rev: map<string, real>, cat: string, r: Report)
    ensures r in RatioReports(cfg.sqrt, cfg.settings, expenses, rev)(cat) <==> RatioOf(cfg, expenses, rev, cat, r)
  {
    var cost := TotalsOf(InCategory(cat), expenses);
    var found, g := RatioFindings(cfg.sqrt, cfg.settings, cost, rev), RatioReport(cat, cost.total, rev);
    assert RatioReports(cfg.sqrt, cfg.settings, expenses, rev)(cat) == Map(g, found);
    forall f | f in found ensures r == g(f) <==> IsRatioRise(cat, cost.total, rev, f, r) {
      RatioMonths(cfg.sqrt, cfg.settings, cost, rev, f);
      RatioReportExactly(cat, cost.total, rev, f, r);
    }
    if r in Map(g, found) {
      var i :| 0 <= i < |found| && r == g(found[i]);
      assert found[i] in found;
    }
    if f :| f in found && IsRatioRise(cat, cost.total, rev, f, r) {
      var i :| 0 <= i < |found| && found[i] == f;
      assert Map(g, found)[i] == r;
    }
  }

  /** A report of the expense detectors is that of an anomaly among the expenses of categories
      that are not correlated, or of a ratio of a category that is. */
  lemma SpikesExactly(cfg: Config, txns: seq<Txn>, r: Report)
    requires IsRoot(cfg.sqrt) && Lists(cfg.listing)
    ensures var expenses, rev := Expenses(txns), TotalsOf(IsIncome(), txns).total;
            var correlated := CorrelatedCategories(cfg.sqrt, cfg.settings, expenses, rev);
            r in Spikes(cfg, txns) <==>
            || FromScan(cfg, expenses, FixedInvoices(expenses, correlated), r)
            || exists cat :: cat in correlated && RatioOf(cfg, expenses, rev, cat, r)
  {
    var expenses, rev := Expenses(txns), TotalsOf(IsIncome(), txns).total;
    var correlated := CorrelatedCategories(cfg.sqrt, cfg.settings, expenses, rev);
    var cats, f := cfg.listing(correlated), RatioReports(cfg.sqrt, cfg.settings, expenses, rev);
    ScanPart(cfg, expenses, FixedInvoices(expenses, correlated), r);
    ConcatMember(f, cats, |cats|, r);
    forall cat ensures r in f(cat) <==> RatioOf(cfg, expenses, rev, cat, r) {
      RatioPart(cfg, expenses, rev, cat, r);
    }
    ListedCategories(cats, correlated, f, r);
  }

  lemma ListedCategories(cats: seq<string>, correlated: set<string>, f: Reporter, r: Report)
    requires forall x :: x in cats <==> x in correlated
    ensures (exists i :: 0 <= i < |cats| && r in f(cats[i])) <==> exists cat :: cat in correlated && r in f(cat)
  {
    if i: int :| 0 <= i < |cats| && r in f(cats[i]) { assert cats[i] in cats; }
    if cat :| cat in correlated && r in f(cat) {
      var i :| 0 <= i < |cats| && cats[i] == cat;
    }
  }

  // ---- The most expensive recurring charges ----

  /** A summary, with a year of its rounded cost in dollars. */
  predicate IsTopReport(cfg: Config, expenses: seq<Txn>, s: Recurring.Summary, r: Report) {
    r == Report(s.vendor, cfg.category(s.vendor, expenses), 12.0 * cfg.round(s.monthlyCost / 100.0), Low, Repeats(s))
  }

  lemma TopReportExactly(cfg: Config, expenses: seq<Txn>, s: Recurring.Summary)
    ensures IsTopReport(cfg, expenses, s, TopReport(cfg.round, cfg.category, expenses)(s))
  {
  }

  /** The first three summaries, in their order. */
  lemma TopsExactly(cfg: Config, txns: seq<Txn>)
    ensures var all, tops := Summaries(cfg, Expenses(txns)), Tops(cfg, txns);
            && |tops| == (if |all| < 3 then |all| else 3)
            && forall i :: 0 <= i < |tops| ==> IsTopReport(cfg, Expenses(txns), all[i], tops[i])
  {
    var expenses := Expenses(txns);
    var all, tops := Summaries(cfg, expenses), Tops(cfg, txns);
    forall i | 0 <= i < |tops| ensures IsTopReport(cfg, expenses, all[i], tops[i]) {
      TopReportExactly(cfg, expenses, all[i]);
      assert tops[i] == TopReport(cfg.round, cfg.category, expenses)(all[i]);
    }
  }

  // ---- Dated charges ----

  /** A charge is read from a transaction: the vendor without surrounding space, or as the
      description names it, the day, and the amount without its sign, in cents. */
  lemma ChargeExactly(cfg: Config, expenses: seq<Txn>, k: nat)
    requires k < |expenses|
    ensures var t, c := expenses[k], DatedCharges(cfg, expenses)[k];
            && |DatedCharges(cfg, expenses)| == |expenses|
            && c.vendor == (if Strip(t.vendor) == "" then cfg.described(t) else Strip(t.vendor))
            && c.entry.day == cfg.day(t.date) && c.entry.amount == Cents(t.amount)
  {
    var t := expenses[k];
    assert DatedCharges(cfg, expenses)[k] == ToCharge(cfg.day, cfg.described)(t);
    assert ToCharge(cfg.day, cfg.described)(t) == Recurring.Charge(VendorName(cfg.described, t), ToEntry(cfg.day)(t));
    assert ToEntry(cfg.day)(t) == Recurring.Entry(cfg.day(t.date), Cents(t.amount));
  }

  // ---- All findings ----

  /** The amount in cents is the nearest to the amount without its sign. */
  lemma CentsExactly(x: real)
    ensures var y := if x < 0.0 then -x else x;
            Cents(x) as real - 0.5 <= 100.0 * y < Cents(x) as real + 0.5
  {
  }

  /** `find` gives the findings of the four detectors, each as often as its detector does. */
  lemma FindExactly(cfg: Config, txns: seq<Txn>, alert: real)
    requires IsRoot(cfg.sqrt)
    ensures var expenses := Expenses(txns);
            multiset(Find(RealDetectors(cfg), txns, alert)) ==
            multiset(Map(Titled("Expense spike: "), Spikes(cfg, txns)))
            + multiset(AllJumps(cfg.category, expenses, alert, cfg.listing(RecurringVendors(cfg, expenses))))
            + multiset(Map(Titled("Possible duplicate charge: "), Duplicates.Doubles(cfg.category, expenses)))
            + multiset(Map(Titled("Top recurring: "), Tops(cfg, txns)))
  {
    TitlesExactly();
    RankedMembers(cfg.round, Collected(RealDetectors(cfg), txns, alert));
  }
}
