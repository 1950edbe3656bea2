/** The detectors that `find` uses, put together: the anomaly scan, the ratio test, the
    recurring charges and the doubled ones. */
module AnomalyFindings {
  import opened Concats
  import opened Wrappers
  import opened Stats
  import opened StableSort
  import opened Correlation
  import opened Findings
  import opened PyText
  import Anomaly
  import Duplicates
  import Scan
  import Recurring

  /** An order in which the elements of a set are visited. */
  type Listing = set<string> -> seq<string>

  ghost predicate Lists(listing: Listing) {
    forall s, x :: x in listing(s) <==> x in s
  }

  /** The square root, the settings, rounding to two places, the order of sets, the
      ordinal of a date, the vendor named by the description of a transaction, and the
      category of a vendor. */
  datatype Config = Config(
    sqrt: real -> real, settings: Settings, round: real -> real, listing: Listing,
    day: string -> int, described: Txn -> string, category: CategoryOf)

  const Z_THRESHOLD: real := 2.0

  // ---- Anomalies and ratios ----

  function ToInvoice(): Txn -> Scan.Invoice {
    (t: Txn) => Scan.Invoice(t.vendor, t.amount, t.date)
  }

  function ConfidenceOf(z: real): Confidence {
    if z >= 3.0 then High else Medium
  }

  /** Impact and confidence are taken from the rounded mean and the rounded score. */
  function SpikeReport(round: real -> real, category: CategoryOf, expenses: seq<Txn>): Anomaly.Anomaly -> Report {
    (a: Anomaly.Anomaly) =>
      Report(a.vendor, category(a.vendor, expenses), (a.current - round(a.mean)) * 12.0,
             ConfidenceOf(Anomaly.Abs(round(a.z))), Spike(a))
  }

  function At(d: map<string, real>, m: string): real {
    if m in d then d[m] else 0.0
  }

  function RatioReport(cat: string, cost: map<string, real>, rev: map<string, real>): RatioFinding -> Report {
    (f: RatioFinding) =>
      Report(cat, cat, (At(cost, f.month) - f.mean * At(rev, f.month)) * 12.0, ConfidenceOf(f.z), RatioRise(f))
  }

  type Reporter = string -> seq<Report>

  function RatioReports(sqrt: real -> real, s: Settings, expenses: seq<Txn>, rev: map<string, real>): Reporter {
    (cat: string) =>
      var cost := TotalsOf(InCategory(cat), expenses);
      Map(RatioReport(cat, cost.total, rev), RatioFindings(sqrt, s, cost, rev))
  }

  /** The invoices that the absolute scan sees. */
  function FixedInvoices(expenses: seq<Txn>, correlated: set<string>): seq<Scan.Invoice> {
    Map(ToInvoice(), FixedExpenses(expenses, correlated))
  }

  function Anomalies(sqrt: real -> real, round: real -> real, invs: seq<Scan.Invoice>): seq<Anomaly.Anomaly> {
    Scan.ScanSpec(Anomaly.ZScorer(sqrt, Z_THRESHOLD), round, invs)
  }

  /** `_expense_anomaly_findings`. */
  function Spikes(cfg: Config, txns: seq<Txn>): seq<Report>
    requires IsRoot(cfg.sqrt)
  {
    var expenses := Expenses(txns);
    var rev := TotalsOf(IsIncome(), txns).total;
    var correlated := CorrelatedCategories(cfg.sqrt, cfg.settings, expenses, rev);
    var cats := cfg.listing(correlated);
    Map(SpikeReport(cfg.round, cfg.category, expenses), Anomalies(cfg.sqrt, cfg.round, FixedInvoices(expenses, correlated)))
    + Concat(RatioReports(cfg.sqrt, cfg.settings, expenses, rev), cats, |cats|)
  }

  /** The loops: the scan's anomalies one by one, then each correlated category. */
  method ExpenseAnomalyFindings(cfg: Config, txns: seq<Txn>) returns (r: seq<Report>)
    requires IsRoot(cfg.sqrt)
    ensures r == Spikes(cfg, txns)
  {
    var expenses := ExpensesOf(txns);
    var rev := SumByMonth(IsIncome(), txns);
    var correlated := BuildCorrelatedCategories(cfg.sqrt, cfg.settings, expenses, rev.total);
    var anomalies := Scan.ScanInvoices(Anomaly.ZScorer(cfg.sqrt, Z_THRESHOLD), cfg.round, FixedInvoices(expenses, correlated));
    var spikes := ReportSpikes(cfg.round, cfg.category, expenses, anomalies);
    var ratios := ReportRatios(cfg.sqrt, cfg.settings, expenses, rev.total, cfg.listing(correlated));
    r := spikes + ratios;
  }

  method ReportSpikes(round: real -> real, category: CategoryOf, expenses: seq<Txn>, anomalies: seq<Anomaly.Anomaly>)
    returns (r: seq<Report>)
    ensures r == Map(SpikeReport(round, category, expenses), anomalies)
  {
    r := [];
    for i := 0 to |anomalies|
      invariant r == Map(SpikeReport(round, category, expenses), anomalies[..i])
    {
      var a := anomalies[i];
      var delta := a.current - round(a.mean);
      r := r + [Report(a.vendor, category(a.vendor, expenses), delta * 12.0,
                       ConfidenceOf(Anomaly.Abs(round(a.z))), Spike(a))];
    }
    assert anomalies[..|anomalies|] == anomalies;
  }

  method ReportRatios(sqrt: real -> real, s: Settings, expenses: seq<Txn>, rev: map<string, real>, cats: seq<string>)
    returns (r: seq<Report>)
    ensures r == Concat(RatioReports(sqrt, s, expenses, rev), cats, |cats|)
  {
    r := [];
    for i := 0 to |cats|
      invariant r == Concat(RatioReports(sqrt, s, expenses, rev), cats, i)
    {
      var more := ReportRatio(sqrt, s, expenses, rev, cats[i]);
      r := r + more;
    }
  }

  method ReportRatio(sqrt: real -> real, s: Settings, expenses: seq<Txn>, rev: map<string, real>, cat: string)
    returns (r: seq<Report>)
    ensures r == RatioReports(sqrt, s, expenses, rev)(cat)
  {
    var cost := SumByMonth(InCategory(cat), expenses);
    var found := FindRatios(sqrt, s, expenses, cat, rev);
    r := Map(RatioReport(cat, cost.total, rev), found);
  }

  // ---- Recurring charges ----

  /** The vendor is taken stripped, or from the description if that leaves nothing. */
  function VendorName(described: Txn -> string, t: Txn): string {
    if Strip(t.vendor) != "" then Strip(t.vendor) else described(t)
  }

  /** The amount without its sign, in cents. */
  function Cents(x: real): nat {
    (Anomaly.Abs(x) * 100.0 + 0.5).Floor
  }

  function ToEntry(day: string -> int): Txn -> Recurring.Entry {
    (t: Txn) => Recurring.Entry(day(t.date), Cents(t.amount))
  }

  function ToCharge(day: string -> int, described: Txn -> string): Txn -> Recurring.Charge {
    (t: Txn) => Recurring.Charge(VendorName(described, t), ToEntry(day)(t))
  }

  function DatedCharges(cfg: Config, expenses: seq<Txn>): seq<Recurring.Charge> {
    Map(ToCharge(cfg.day, cfg.described), expenses)
  }

  /** Rounding dollars to two places, for an amount in cents. */
  function RoundCents(round: real -> real): real -> real {
    (x: real) => round(x / 100.0) * 100.0
  }

  function Summaries(cfg: Config, expenses: seq<Txn>): seq<Recurring.Summary> {
    Recurring.Recurrences(RoundCents(cfg.round), DatedCharges(cfg, expenses))
  }

  function RecurringVendors(cfg: Config, expenses: seq<Txn>): set<string> {
    set i | 0 <= i < |Summaries(cfg, expenses)| :: Summaries(cfg, expenses)[i].vendor
  }

  function TopReport(round: real -> real, category: CategoryOf, expenses: seq<Txn>): Recurring.Summary -> Report {
    (s: Recurring.Summary) =>
      Report(s.vendor, category(s.vendor, expenses), round(s.monthlyCost / 100.0) * 12.0, Low, Repeats(s))
  }

  const TOPS: nat := 3

  /** The three most expensive recurring charges. */
  function Tops(cfg: Config, txns: seq<Txn>): seq<Report> {
    var expenses := Expenses(txns);
    var all := Summaries(cfg, expenses);
    Map(TopReport(cfg.round, cfg.category, expenses), if |all| > TOPS then all[..TOPS] else all)
  }

  // ---- The detectors together ----

  function RealDetectors(cfg: Config): Detectors
    requires IsRoot(cfg.sqrt)
  {
    Detectors(cfg.round,
              (txns: seq<Txn>) requires IsRoot(cfg.sqrt) => Spikes(cfg, txns),
              (txns: seq<Txn>) => Duplicates.Doubles(cfg.category, Expenses(txns)),
              (txns: seq<Txn>) => Tops(cfg, txns),
              (expenses: seq<Txn>) => cfg.listing(RecurringVendors(cfg, expenses)),
              cfg.category)
  }

  /** The finding is about an anomaly or a ratio. */
  predicate IsAbnormal(f: Finding) {
    f.detail.Spike? || f.detail.RatioRise?
  }

  lemma TitledDetail(title: string, rs: seq<Report>, f: Finding)
    ensures f in Map(Titled(title), rs) <==> exists i :: 0 <= i < |rs| && f == Titled(title)(rs[i])
  {
    if i: int :| 0 <= i < |rs| && f == Titled(title)(rs[i]) {
      assert Map(Titled(title), rs)[i] == f;
    }
  }

  lemma DoublesAreDoubled(category: CategoryOf, expenses: seq<Txn>, f: Finding)
    requires f in Map(Titled(TWICE), Duplicates.Doubles(category, expenses))
    ensures f.detail.Doubled?
  {
    var rs := Duplicates.Doubles(category, expenses);
    TitledDetail(TWICE, rs, f);
    var i :| 0 <= i < |rs| && f == Titled(TWICE)(rs[i]);
    Duplicates.DoublesExact(category, expenses, rs[i]);
  }

  lemma TopsRepeat(cfg: Config, txns: seq<Txn>, f: Finding)
    requires f in Map(Titled(TOP), Tops(cfg, txns))
    ensures f.detail.Repeats?
  {
  }

  lemma {:induction false} JumpsRise(category: CategoryOf, expenses: seq<Txn>, alert: real, vendors: seq<string>, f: Finding)
    requires f in AllJumps(category, expenses, alert, vendors)
    ensures f.detail.Rise?
  {
    JumpFindingExact(category, expenses, alert, vendors, f);
  }

  lemma SpikesAreAbnormal(cfg: Config, txns: seq<Txn>, f: Finding)
    requires IsRoot(cfg.sqrt) && f in Map(Titled(SPIKE), Spikes(cfg, txns))
    ensures IsAbnormal(f)
  {
    TitledDetail(SPIKE, Spikes(cfg, txns), f);
    var k :| 0 <= k < |Spikes(cfg, txns)| && f == Titled(SPIKE)(Spikes(cfg, txns)[k]);
    SpikeSource(cfg, txns, Spikes(cfg, txns)[k]);
  }

  /** The findings of each of the four detectors. */
  datatype Sections = Sections(spikes: seq<Finding>, jumps: seq<Finding>, doubles: seq<Finding>, tops: seq<Finding>)

  function SectionsOf(cfg: Config, txns: seq<Txn>, alert: real): Sections
    requires IsRoot(cfg.sqrt)
  {
    var expenses := Expenses(txns);
    Sections(Map(Titled(SPIKE), Spikes(cfg, txns)),
          AllJumps(cfg.category, expenses, alert, cfg.listing(RecurringVendors(cfg, expenses))),
          Map(Titled(TWICE), Duplicates.Doubles(cfg.category, expenses)),
          Map(Titled(TOP), Tops(cfg, txns)))
  }

  predicate Somewhere(p: Sections, f: Finding) {
    f in p.spikes || f in p.jumps || f in p.doubles || f in p.tops
  }

  /** The findings of a detector are of its own kind. */
  predicate KeepsApart(p: Sections, f: Finding) {
    && (f in p.spikes ==> IsAbnormal(f)) && (f in p.jumps ==> f.detail.Rise?)
    && (f in p.doubles ==> f.detail.Doubled?) && (f in p.tops ==> f.detail.Repeats?)
  }

  /** The detector for findings of its kind reports `f`. */
  predicate InOwnSection(p: Sections, f: Finding) {
    match f.detail
    case Rise(_, _, _, _) => f in p.jumps
    case Doubled(_, _, _) => f in p.doubles
    case Repeats(_) => f in p.tops
    case _ => f in p.spikes
  }

  lemma ApartMeansOwn(p: Sections, f: Finding)
    requires KeepsApart(p, f)
    ensures Somewhere(p, f) <==> InOwnSection(p, f)
  {
  }

  lemma FoundSomewhere(cfg: Config, txns: seq<Txn>, alert: real, f: Finding)
    requires IsRoot(cfg.sqrt)
    ensures f in Find(RealDetectors(cfg), txns, alert) <==> Somewhere(SectionsOf(cfg, txns, alert), f)
  {
    RankedMembers(cfg.round, Collected(RealDetectors(cfg), txns, alert));
  }

  lemma DetectorsKeepApart(cfg: Config, txns: seq<Txn>, alert: real, f: Finding)
    requires IsRoot(cfg.sqrt)
    ensures KeepsApart(SectionsOf(cfg, txns, alert), f)
  {
    var p, expenses := SectionsOf(cfg, txns, alert), Expenses(txns);
    if f in p.spikes { SpikesAreAbnormal(cfg, txns, f); }
    if f in p.jumps { JumpsRise(cfg.category, expenses, alert, cfg.listing(RecurringVendors(cfg, expenses)), f); }
    if f in p.doubles { DoublesAreDoubled(cfg.category, expenses, f); }
    if f in p.tops { TopsRepeat(cfg, txns, f); }
  }

  /** What `find` reports is what the detector for that kind of finding reports. */
  lemma FoundByOwnDetector(cfg: Config, txns: seq<Txn>, alert: real, f: Finding)
    requires IsRoot(cfg.sqrt)
    ensures f in Find(RealDetectors(cfg), txns, alert) <==> InOwnSection(SectionsOf(cfg, txns, alert), f)
  {
    FoundSomewhere(cfg, txns, alert, f);
    DetectorsKeepApart(cfg, txns, alert, f);
    ApartMeansOwn(SectionsOf(cfg, txns, alert), f);
  }

  lemma AbnormalIsSpike(cfg: Config, txns: seq<Txn>, alert: real, f: Finding) returns (k: nat)
    requires IsRoot(cfg.sqrt) && f in Find(RealDetectors(cfg), txns, alert) && IsAbnormal(f)
    ensures k < |Spikes(cfg, txns)| && f == Titled(SPIKE)(Spikes(cfg, txns)[k])
  {
    FoundByOwnDetector(cfg, txns, alert, f);
    TitledDetail(SPIKE, Spikes(cfg, txns), f);
    k :| 0 <= k < |Spikes(cfg, txns)| && f == Titled(SPIKE)(Spikes(cfg, txns)[k]);
  }

  // ---- A constant fee ----

  lemma RatioReportsOwn(sqrt: real -> real, s: Settings, expenses: seq<Txn>, rev: map<string, real>, cat: string, r: Report)
    requires r in RatioReports(sqrt, s, expenses, rev)(cat)
    ensures r.detail.RatioRise? && r.category == cat
    ensures RatioFindings(sqrt, s, TotalsOf(InCategory(cat), expenses), rev) != []
  {
    var found := RatioFindings(sqrt, s, TotalsOf(InCategory(cat), expenses), rev);
    assert |RatioReports(sqrt, s, expenses, rev)(cat)| == |found|;
  }

  lemma SpikeReportsOwn(round: real -> real, category: CategoryOf, expenses: seq<Txn>, all: seq<Anomaly.Anomaly>, r: Report)
    requires r in Map(SpikeReport(round, category, expenses), all)
    ensures r.detail.Spike? && r.detail.anomaly in all && r.subject == r.detail.anomaly.vendor
  {
  }

  /** Where a report of the detectors comes from. */
  lemma SpikeSource(cfg: Config, txns: seq<Txn>, r: Report)
    requires IsRoot(cfg.sqrt) && r in Spikes(cfg, txns)
    ensures var expenses := Expenses(txns);
            var rev := TotalsOf(IsIncome(), txns).total;
            var correlated := CorrelatedCategories(cfg.sqrt, cfg.settings, expenses, rev);
            || (r.detail.Spike? && r.detail.anomaly in Anomalies(cfg.sqrt, cfg.round, FixedInvoices(expenses, correlated)))
            || (r.detail.RatioRise?
                && RatioFindings(cfg.sqrt, cfg.settings, TotalsOf(InCategory(r.category), expenses), rev) != [])
  {
    var expenses := Expenses(txns);
    var rev := TotalsOf(IsIncome(), txns).total;
    var correlated := CorrelatedCategories(cfg.sqrt, cfg.settings, expenses, rev);
    var cats, f := cfg.listing(correlated), RatioReports(cfg.sqrt, cfg.settings, expenses, rev);
    var all := Anomalies(cfg.sqrt, cfg.round, FixedInvoices(expenses, correlated));
    if r in Map(SpikeReport(cfg.round, cfg.category, expenses), all) {
      SpikeReportsOwn(cfg.round, cfg.category, expenses, all, r);
    } else {
      ConcatMember(f, cats, |cats|, r);
      var i :| 0 <= i < |cats| && r in f(cats[i]);
      RatioReportsOwn(cfg.sqrt, cfg.settings, expenses, rev, cats[i], r);
    }
  }

  lemma {:induction false} VendorHasInvoice(invs: seq<Scan.Invoice>, v: string) returns (k: nat)
    requires Scan.OfVendor(invs, v) != []
    ensures k < |invs| && invs[k].vendor == v
  {
    var n := |invs| - 1;
    if invs[n].vendor == v { k := n; } else { k := VendorHasInvoice(invs[..n], v); }
  }

  /** An anomaly is the verdict on a vendor that has an invoice in the scan. */
  lemma AnomalyHasInvoice(sqrt: real -> real, round: real -> real, invs: seq<Scan.Invoice>, a: Anomaly.Anomaly)
    returns (k: nat)
    requires a in Anomalies(sqrt, round, invs)
    ensures k < |invs| && invs[k].vendor == a.vendor
  {
    var score := Anomaly.ZScorer(sqrt, Z_THRESHOLD);
    Scan.ScanExact(score, round, invs, a);
    var v, j :| Scan.IsVerdict(score, invs, v, j, a);
    VerdictVendor(sqrt, invs, v, j, a);
    k := VendorHasInvoice(invs, v);
  }

  lemma VerdictVendor(sqrt: real -> real, invs: seq<Scan.Invoice>, v: string, j: nat, a: Anomaly.Anomaly)
    requires Scan.IsVerdict(Anomaly.ZScorer(sqrt, Z_THRESHOLD), invs, v, j, a)
    ensures a.vendor == v && Scan.OfVendor(invs, v) != []
  {
  }

  lemma {:induction false} FixedComesFromExpenses(expenses: seq<Txn>, correlated: set<string>, k: nat)
    requires k < |FixedExpenses(expenses, correlated)|
    ensures FixedExpenses(expenses, correlated)[k] in expenses
  {
    var n := |expenses| - 1;
    var before := FixedExpenses(expenses[..n], correlated);
    if k < |before| { FixedComesFromExpenses(expenses[..n], correlated, k); }
  }

  /** A category whose monthly cost is a constant positive share of a revenue that
      varies, as in `ConstantFeeRaisesNoAnomaly`. */
  ghost predicate IsConstantFee(s: Settings, txns: seq<Txn>, cat: string, c: real, i: nat, j: nat) {
    && cat != "" && c > 0.0 && s.corr <= 1.0 && s.ratioZ > 0.0 && s.ratioJump > 0.0
    && var rev := TotalsOf(IsIncome(), txns).total;
       var cost := TotalsOf(InCategory(cat), Expenses(txns));
       && ConstantShare(cost, rev, c)
       && var ms := SharedMonths(cost, rev, false);
          |ms| >= MIN_MONTHS && i < |ms| && j < |ms| && rev[ms[i]] != rev[ms[j]]
  }

  /** No finding of `find` is about the ratio of such a category, and every anomaly it
      reports is of a vendor that is also paid under another category, judged by its
      payments there: none of the category's transactions is seen by the scan. */
  lemma ConstantFeeIsNotReported(cfg: Config, txns: seq<Txn>, alert: real, cat: string, c: real, i: nat, j: nat, f: Finding)
    requires IsRoot(cfg.sqrt) && IsConstantFee(cfg.settings, txns, cat, c, i, j)
    requires f in Find(RealDetectors(cfg), txns, alert)
    ensures f.detail.RatioRise? ==> f.category != cat
    ensures f.detail.Spike? ==>
              exists t :: t in Expenses(txns) && t.vendor == f.detail.anomaly.vendor && t.category != cat
  {
    if IsAbnormal(f) {
      var k := AbnormalIsSpike(cfg, txns, alert, f);
      ConstantFeeReport(cfg, txns, cat, c, i, j, Spikes(cfg, txns)[k]);
    }
  }

  lemma ConstantFeeReport(cfg: Config, txns: seq<Txn>, cat: string, c: real, i: nat, j: nat, r: Report)
    requires IsRoot(cfg.sqrt) && IsConstantFee(cfg.settings, txns, cat, c, i, j) && r in Spikes(cfg, txns)
    ensures r.detail.RatioRise? ==> r.category != cat
    ensures r.detail.Spike? ==>
              exists t :: t in Expenses(txns) && t.vendor == r.detail.anomaly.vendor && t.category != cat
  {
    var expenses := Expenses(txns);
    var correlated := CorrelatedCategories(cfg.sqrt, cfg.settings, expenses, TotalsOf(IsIncome(), txns).total);
    ConstantFeeRaisesNoAnomaly(cfg.sqrt, cfg.settings, txns, cat, c, i, j);
    SpikeSource(cfg, txns, r);
    if r.detail.Spike? {
      FixedVendor(cfg.sqrt, cfg.round, expenses, correlated, cat, r.detail.anomaly);
    }
  }

  lemma FixedVendor(sqrt: real -> real, round: real -> real, expenses: seq<Txn>, correlated: set<string>, cat: string,
                    a: Anomaly.Anomaly)
    requires a in Anomalies(sqrt, round, FixedInvoices(expenses, correlated)) && cat in correlated
    ensures exists t :: t in expenses && t.vendor == a.vendor && t.category != cat
  {
    var fixed := FixedExpenses(expenses, correlated);
    var k := AnomalyHasInvoice(sqrt, round, FixedInvoices(expenses, correlated), a);
    FixedComesFromExpenses(expenses, correlated, k);
    assert fixed[k] in expenses && fixed[k].vendor == a.vendor && fixed[k].category != cat;
  }
}
