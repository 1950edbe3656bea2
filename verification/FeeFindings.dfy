/** What `find` reports about one vendor, and about a fee that is a constant share of
    revenue. */
module FeeFindings {
  import opened Sequences
  import opened Stats
  import opened StableSort
  import opened KeyLists
  import opened Correlation
  import opened Findings
  import opened AnomalyFindings
  import opened PyText
  import Anomaly
  import Duplicates
  import Recurring

  // ---- Recurring charges ----

  /** The vendor's charges have a group that repeats at a recognized interval. */
  predicate Recurs(charges: seq<Recurring.Charge>, v: string) {
    Recurring.Recurs(v, Recurring.EntriesOf(charges, v)).Some?
  }

  lemma SummaryNamesVendor(v: string, entries: seq<Recurring.Entry>)
    ensures var r := Recurring.Recurs(v, entries); r.Some? ==> r.value.vendor == v
  {
  }

  lemma SummaryRecurs(round: real -> real, charges: seq<Recurring.Charge>, s: Recurring.Summary)
    requires s in Recurring.Recurrences(round, charges)
    ensures Recurs(charges, s.vendor)
  {
    Recurring.RecurrencesExact(round, charges, s);
    var v :| Recurring.IsSummaryOf(charges, v, s);
    SummaryNamesVendor(v, Recurring.EntriesOf(charges, v));
  }

  lemma RecursHasSummary(round: real -> real, charges: seq<Recurring.Charge>, v: string) returns (s: Recurring.Summary)
    requires Recurs(charges, v)
    ensures s in Recurring.Recurrences(round, charges) && s.vendor == v
  {
    s := Recurring.Recurs(v, Recurring.EntriesOf(charges, v)).value;
    SummaryNamesVendor(v, Recurring.EntriesOf(charges, v));
    assert Recurring.IsSummaryOf(charges, v, s);
    Recurring.RecurrencesExact(round, charges, s);
  }

  /** The vendors with a recurring charge are those whose partition has a regular group. */
  lemma RecurringExactly(cfg: Config, expenses: seq<Txn>, v: string)
    ensures v in RecurringVendors(cfg, expenses) <==> Recurs(DatedCharges(cfg, expenses), v)
  {
    var round, charges, all := RoundCents(cfg.round), DatedCharges(cfg, expenses), Summaries(cfg, expenses);
    if v in RecurringVendors(cfg, expenses) {
      var i :| 0 <= i < |all| && all[i].vendor == v;
      SummaryRecurs(round, charges, all[i]);
    }
    if Recurs(charges, v) {
      var s := RecursHasSummary(round, charges, v);
      var i :| 0 <= i < |all| && all[i] == s;
      assert all[i].vendor == v;
    }
  }

  /** The transactions of a vendor, in order. */
  function PaidTo(expenses: seq<Txn>, v: string): seq<Txn> {
    if expenses == [] then []
    else
      var t := expenses[|expenses| - 1];
      PaidTo(expenses[..|expenses| - 1], v) + if t.vendor == v then [t] else []
  }

  /** Vendor names without surrounding space. */
  ghost predicate CleanNames(expenses: seq<Txn>) {
    forall i :: 0 <= i < |expenses| ==> expenses[i].vendor != "" && Strip(expenses[i].vendor) == expenses[i].vendor
  }

  /** Then the charges of a vendor are its own transactions, dated and in cents. */
  lemma {:induction false} OwnEntries(cfg: Config, expenses: seq<Txn>, v: string)
    requires CleanNames(expenses)
    ensures Recurring.EntriesOf(DatedCharges(cfg, expenses), v) == Map(ToEntry(cfg.day), PaidTo(expenses, v))
  {
    if expenses != [] {
      var init, t := expenses[..|expenses| - 1], expenses[|expenses| - 1];
      OwnEntries(cfg, init, v);
      assert DatedCharges(cfg, expenses)[..|expenses| - 1] == DatedCharges(cfg, init);
      assert DatedCharges(cfg, expenses)[|expenses| - 1] == Recurring.Charge(t.vendor, ToEntry(cfg.day)(t));
    }
  }

  // ---- What is reported about a vendor ----

  type About = Finding -> bool

  function RiseOf(v: string): About {
    (f: Finding) => f.detail.Rise? && f.title == RISE + v
  }

  function DoubledOf(v: string): About {
    (f: Finding) => f.detail.Doubled? && f.title == TWICE + v
  }

  function TopOf(v: string): About {
    (f: Finding) => f.detail.Repeats? && f.title == TOP + v
  }

  /** An anomaly of the vendor, or a ratio of the category. */
  function AbnormalOf(v: string, cat: string): About {
    (f: Finding) => (f.detail.Spike? && f.detail.anomaly.vendor == v) || (f.detail.RatioRise? && f.category == cat)
  }

  ghost predicate Reports(found: seq<Finding>, about: About) {
    exists f :: f in found && about(f)
  }

  /** What `find` reports with the program's own detectors. */
  function Found(cfg: Config, txns: seq<Txn>, alert: real): seq<Finding>
    requires IsRoot(cfg.sqrt)
  {
    Find(RealDetectors(cfg), txns, alert)
  }

  ghost predicate SplitsInto(found: seq<Finding>, p: Sections) {
    forall f :: f in found <==> InOwnSection(p, f)
  }

  lemma FoundSplits(cfg: Config, txns: seq<Txn>, alert: real)
    requires IsRoot(cfg.sqrt)
    ensures SplitsInto(Found(cfg, txns, alert), SectionsOf(cfg, txns, alert))
  {
    forall f ensures f in Found(cfg, txns, alert) <==> InOwnSection(SectionsOf(cfg, txns, alert), f) {
      FoundByOwnDetector(cfg, txns, alert, f);
    }
  }

  lemma ReportsInSections(found: seq<Finding>, p: Sections, v: string)
    requires SplitsInto(found, p)
    ensures Reports(found, RiseOf(v)) <==> Reports(p.jumps, RiseOf(v))
    ensures Reports(found, DoubledOf(v)) <==> Reports(p.doubles, DoubledOf(v))
    ensures Reports(found, TopOf(v)) <==> Reports(p.tops, TopOf(v))
  {
    forall f | RiseOf(v)(f) ensures f in found <==> f in p.jumps {}
    forall f | DoubledOf(v)(f) ensures f in found <==> f in p.doubles {}
    forall f | TopOf(v)(f) ensures f in found <==> f in p.tops {}
  }

  lemma SameSubject(title: string, v: string, w: string)
    requires title + v == title + w
    ensures v == w
  {
    Parts(title, v);
    Parts(title, w);
  }

  // ---- Rises ----

  lemma ListedRecurs(cfg: Config, expenses: seq<Txn>)
    requires Lists(cfg.listing)
    ensures forall v :: v in cfg.listing(RecurringVendors(cfg, expenses)) <==> Recurs(DatedCharges(cfg, expenses), v)
  {
    forall v ensures v in cfg.listing(RecurringVendors(cfg, expenses)) <==> Recurs(DatedCharges(cfg, expenses), v) {
      RecurringExactly(cfg, expenses, v);
    }
  }

  lemma RisesAreJumps(found: seq<Finding>, p: Sections, f: Finding)
    requires SplitsInto(found, p)
    ensures f in found && f.detail.Rise? <==> f in p.jumps && f.detail.Rise?
  {
  }

  /** `f` is a rise, above the threshold, of a vendor whose charges have a group that
      repeats at a recognized interval. */
  ghost predicate IsRecurringJump(cfg: Config, expenses: seq<Txn>, alert: real, f: Finding) {
    exists v :: Recurs(DatedCharges(cfg, expenses), v) && IsJump(cfg.category, expenses, alert, v, f)
  }

  lemma JumpsOfRecurring(cfg: Config, expenses: seq<Txn>, alert: real, f: Finding)
    requires Lists(cfg.listing)
    ensures f in AllJumps(cfg.category, expenses, alert, cfg.listing(RecurringVendors(cfg, expenses))) && f.detail.Rise? <==>
            IsRecurringJump(cfg, expenses, alert, f)
  {
    JumpFindingExact(cfg.category, expenses, alert, cfg.listing(RecurringVendors(cfg, expenses)), f);
    ListedRecurs(cfg, expenses);
  }

  /** `find` reports exactly these rises. */
  lemma JumpsFoundExactly(cfg: Config, txns: seq<Txn>, alert: real, f: Finding)
    requires IsRoot(cfg.sqrt) && Lists(cfg.listing)
    ensures f in Found(cfg, txns, alert) && f.detail.Rise? <==> IsRecurringJump(cfg, Expenses(txns), alert, f)
  {
    FoundSplits(cfg, txns, alert);
    RisesAreJumps(Found(cfg, txns, alert), SectionsOf(cfg, txns, alert), f);
    JumpsOfRecurring(cfg, Expenses(txns), alert, f);
  }

  /** The vendor's charges jump from some month to the next. */
  predicate JumpsSomewhere(expenses: seq<Txn>, v: string, alert: real) {
    var ms := SortedMonths(expenses, v);
    exists i :: 0 < i < |ms| && JumpsAt(expenses, v, ms, i, alert)
  }

  lemma RiseNamesJump(category: CategoryOf, expenses: seq<Txn>, alert: real, v: string, w: string, f: Finding)
    requires IsJump(category, expenses, alert, w, f) && RiseOf(v)(f)
    ensures v == w && JumpsSomewhere(expenses, v, alert)
  {
    SameSubject(RISE, v, w);
  }

  lemma JumpIsRise(category: CategoryOf, expenses: seq<Txn>, alert: real, v: string) returns (f: Finding)
    requires JumpsSomewhere(expenses, v, alert)
    ensures IsJump(category, expenses, alert, v, f) && RiseOf(v)(f)
  {
    var ms := SortedMonths(expenses, v);
    var i :| 0 < i < |ms| && JumpsAt(expenses, v, ms, i, alert);
    f := JumpFinding(category, expenses, v, ms[i - 1], ms[i]);
  }

  lemma RiseInJumps(category: CategoryOf, expenses: seq<Txn>, alert: real, vendors: seq<string>, v: string)
    ensures Reports(AllJumps(category, expenses, alert, vendors), RiseOf(v)) <==>
            v in vendors && JumpsSomewhere(expenses, v, alert)
  {
    var jumps := AllJumps(category, expenses, alert, vendors);
    if Reports(jumps, RiseOf(v)) {
      var f :| f in jumps && RiseOf(v)(f);
      JumpFindingExact(category, expenses, alert, vendors, f);
      var w :| w in vendors && IsJump(category, expenses, alert, w, f);
      RiseNamesJump(category, expenses, alert, v, w, f);
    }
    if v in vendors && JumpsSomewhere(expenses, v, alert) {
      var f := JumpIsRise(category, expenses, alert, v);
      JumpFindingExact(category, expenses, alert, vendors, f);
    }
  }

  /** `find` reports a rise of vendor `v` exactly if it recurs and jumps somewhere. */
  lemma RiseFoundExactly(cfg: Config, txns: seq<Txn>, alert: real, v: string)
    requires IsRoot(cfg.sqrt) && Lists(cfg.listing)
    ensures var expenses := Expenses(txns);
            Reports(Found(cfg, txns, alert), RiseOf(v)) <==>
            Recurs(DatedCharges(cfg, expenses), v) && JumpsSomewhere(expenses, v, alert)
  {
    var expenses := Expenses(txns);
    FoundSplits(cfg, txns, alert);
    ReportsInSections(Found(cfg, txns, alert), SectionsOf(cfg, txns, alert), v);
    RiseInJumps(cfg.category, expenses, alert, cfg.listing(RecurringVendors(cfg, expenses)), v);
    ListedRecurs(cfg, expenses);
  }

  /** With clean names: exactly if its own transactions have a group that repeats at a
      recognized interval, and jump somewhere. */
  lemma OwnRiseFoundExactly(cfg: Config, txns: seq<Txn>, alert: real, v: string)
    requires IsRoot(cfg.sqrt) && Lists(cfg.listing) && CleanNames(Expenses(txns))
    ensures var expenses := Expenses(txns);
            Reports(Found(cfg, txns, alert), RiseOf(v)) <==>
            Recurring.Recurs(v, Map(ToEntry(cfg.day), PaidTo(expenses, v))).Some? && JumpsSomewhere(expenses, v, alert)
  {
    RiseFoundExactly(cfg, txns, alert, v);
    OwnEntries(cfg, Expenses(txns), v);
  }

  // ---- Top recurring charges ----

  /** The vendor is among the most expensive recurring ones. */
  predicate IsTop(cfg: Config, expenses: seq<Txn>, v: string) {
    var all := Summaries(cfg, expenses);
    exists k :: 0 <= k < |all| && k < TOPS && all[k].vendor == v
  }

  lemma TopInTops(cfg: Config, txns: seq<Txn>, v: string)
    ensures Reports(Map(Titled(TOP), Tops(cfg, txns)), TopOf(v)) <==> IsTop(cfg, Expenses(txns), v)
  {
    var all, tops := Summaries(cfg, Expenses(txns)), Tops(cfg, txns);
    if Reports(Map(Titled(TOP), tops), TopOf(v)) {
      var f :| f in Map(Titled(TOP), tops) && TopOf(v)(f);
      TitledDetail(TOP, tops, f);
      var k :| 0 <= k < |tops| && f == Titled(TOP)(tops[k]);
      SameSubject(TOP, v, tops[k].subject);
      assert all[k].vendor == v;
    }
    if k: int :| 0 <= k < |all| && k < TOPS && all[k].vendor == v {
      TitledDetail(TOP, tops, Titled(TOP)(tops[k]));
      assert TopOf(v)(Titled(TOP)(tops[k]));
    }
  }

  /** A vendor is reported as top recurring exactly if it is among the three most expensive
      recurring ones. */
  lemma TopFoundExactly(cfg: Config, txns: seq<Txn>, alert: real, v: string)
    requires IsRoot(cfg.sqrt)
    ensures Reports(Found(cfg, txns, alert), TopOf(v)) <==> IsTop(cfg, Expenses(txns), v)
  {
    FoundSplits(cfg, txns, alert);
    ReportsInSections(Found(cfg, txns, alert), SectionsOf(cfg, txns, alert), v);
    TopInTops(cfg, txns, v);
  }

  /** With at most three recurring vendors these are all of them. */
  lemma FewAreTop(cfg: Config, expenses: seq<Txn>, v: string)
    ensures IsTop(cfg, expenses, v) ==> Recurs(DatedCharges(cfg, expenses), v)
    ensures |Summaries(cfg, expenses)| <= TOPS ==> (IsTop(cfg, expenses, v) <==> Recurs(DatedCharges(cfg, expenses), v))
  {
    RecurringExactly(cfg, expenses, v);
  }

  // ---- Doubled charges ----

  /** On some day the vendor has several charges that are alike. */
  ghost predicate DoubledSomeDay(expenses: seq<Txn>, v: string) {
    exists day: string :: Duplicates.AreAlike(Duplicates.AmountsOn(expenses, (v, day)))
  }

  lemma DoubleNamesDay(category: CategoryOf, expenses: seq<Txn>, v: string, r: Report)
    requires r in Duplicates.Doubles(category, expenses) && DoubledOf(v)(Titled(TWICE)(r))
    ensures DoubledSomeDay(expenses, v)
  {
    Duplicates.DoublesExact(category, expenses, r);
    var d: Duplicates.Day :| Duplicates.IsDouble(category, expenses, d, r);
    SameSubject(TWICE, v, d.0);
    assert d == (v, d.1);
  }

  lemma DayIsDouble(category: CategoryOf, expenses: seq<Txn>, v: string) returns (r: Report)
    requires DoubledSomeDay(expenses, v)
    ensures r in Duplicates.Doubles(category, expenses) && DoubledOf(v)(Titled(TWICE)(r))
  {
    var day: string :| Duplicates.AreAlike(Duplicates.AmountsOn(expenses, (v, day)));
    r := Duplicates.DoubleReport(category, expenses, (v, day), Duplicates.AmountsOn(expenses, (v, day)));
    assert Duplicates.IsDouble(category, expenses, (v, day), r);
    Duplicates.DoublesExact(category, expenses, r);
  }

  lemma DoubledInDoubles(category: CategoryOf, expenses: seq<Txn>, v: string)
    ensures Reports(Map(Titled(TWICE), Duplicates.Doubles(category, expenses)), DoubledOf(v)) <==>
            DoubledSomeDay(expenses, v)
  {
    var rs := Duplicates.Doubles(category, expenses);
    if Reports(Map(Titled(TWICE), rs), DoubledOf(v)) {
      var f :| f in Map(Titled(TWICE), rs) && DoubledOf(v)(f);
      TitledDetail(TWICE, rs, f);
      var k :| 0 <= k < |rs| && f == Titled(TWICE)(rs[k]);
      DoubleNamesDay(category, expenses, v, rs[k]);
    }
    if DoubledSomeDay(expenses, v) {
      var r := DayIsDouble(category, expenses, v);
      var k :| 0 <= k < |rs| && rs[k] == r;
      TitledDetail(TWICE, rs, Titled(TWICE)(r));
    }
  }

  lemma DoubledFoundExactly(cfg: Config, txns: seq<Txn>, alert: real, v: string)
    requires IsRoot(cfg.sqrt)
    ensures Reports(Found(cfg, txns, alert), DoubledOf(v)) <==> DoubledSomeDay(Expenses(txns), v)
  {
    FoundSplits(cfg, txns, alert);
    ReportsInSections(Found(cfg, txns, alert), SectionsOf(cfg, txns, alert), v);
    DoubledInDoubles(cfg.category, Expenses(txns), v);
  }

  // ---- A fee that is a constant share of revenue ----

  function Revenue(txns: seq<Txn>): map<string, real> {
    TotalsOf(IsIncome(), txns).total
  }

  /** The category and the vendor are the same transactions, each in a month with revenue. */
  ghost predicate OneVendor(txns: seq<Txn>, cat: string, v: string) {
    var expenses := Expenses(txns);
    forall i :: 0 <= i < |expenses| ==>
      && (expenses[i].vendor == v <==> expenses[i].category == cat)
      && (expenses[i].vendor == v ==> Month(expenses[i]) != "" && Month(expenses[i]) in Revenue(txns))
  }

  /** Selecting by category is selecting by vendor. */
  ghost predicate SameSelection(expenses: seq<Txn>, cat: string, v: string) {
    forall i :: 0 <= i < |expenses| ==>
      (expenses[i].vendor == v <==> expenses[i].category == cat && Month(expenses[i]) != "")
  }

  lemma {:induction false} VendorIsCategory(expenses: seq<Txn>, cat: string, v: string, m: string)
    requires SameSelection(expenses, cat, v)
    ensures MonthsOfVendor(expenses, v) == MonthsOf(InCategory(cat), expenses)
    ensures Charged(expenses, v, m) == MonthTotal(InCategory(cat), expenses, m)
  {
    if expenses != [] { VendorIsCategory(expenses[..|expenses| - 1], cat, v, m); }
  }

  lemma SelectionIsSame(txns: seq<Txn>, cat: string, v: string)
    requires OneVendor(txns, cat, v)
    ensures SameSelection(Expenses(txns), cat, v)
  {
  }

  lemma MonthOfFee(txns: seq<Txn>, cat: string, v: string, m: string)
    requires OneVendor(txns, cat, v) && m in SortedMonths(Expenses(txns), v)
    ensures m in Revenue(txns) && m in TotalsOf(InCategory(cat), Expenses(txns)).total
  {
    var expenses := Expenses(txns);
    SortMembers(Self(), MonthsOfVendor(expenses, v));
    SelectionIsSame(txns, cat, v);
    VendorIsCategory(expenses, cat, v, m);
    var k := MonthHasSource(InCategory(cat), expenses, m);
    assert expenses[k].category == cat;
  }

  lemma ShareOfMonth(cost: Totals, rev: map<string, real>, c: real, m: string)
    requires ConstantShare(cost, rev, c) && m in cost.total && m in rev
    ensures cost.total[m] == c * rev[m]
  {
  }

  lemma FeeOfMonth(txns: seq<Txn>, cat: string, v: string, c: real, m: string)
    requires OneVendor(txns, cat, v) && m in SortedMonths(Expenses(txns), v)
    requires ConstantShare(TotalsOf(InCategory(cat), Expenses(txns)), Revenue(txns), c)
    ensures m in Revenue(txns) && Charged(Expenses(txns), v, m) == c * Revenue(txns)[m]
  {
    MonthOfFee(txns, cat, v, m);
    SelectionIsSame(txns, cat, v);
    VendorIsCategory(Expenses(txns), cat, v, m);
    ShareOfMonth(TotalsOf(InCategory(cat), Expenses(txns)), Revenue(txns), c, m);
  }

  lemma FeeFollowsRevenue(txns: seq<Txn>, cat: string, v: string, c: real)
    requires c > 0.0 && OneVendor(txns, cat, v)
    requires ConstantShare(TotalsOf(InCategory(cat), Expenses(txns)), Revenue(txns), c)
    ensures FollowsRevenue(Expenses(txns), Revenue(txns), c, v)
  {
    forall m | m in SortedMonths(Expenses(txns), v)
      ensures m in Revenue(txns) && Charged(Expenses(txns), v, m) == c * Revenue(txns)[m]
    {
      FeeOfMonth(txns, cat, v, c, m);
    }
  }

  /** Revenue jumps between neighbouring months in which the vendor charged. */
  predicate RevenueJumps(txns: seq<Txn>, v: string, alert: real)
    requires forall m :: m in SortedMonths(Expenses(txns), v) ==> m in Revenue(txns)
  {
    var ms, rev := SortedMonths(Expenses(txns), v), Revenue(txns);
    exists i :: 0 < i < |ms| && Jumps(rev[ms[i - 1]], rev[ms[i]], alert)
  }

  lemma FeeJumpsExactly(txns: seq<Txn>, v: string, c: real, alert: real)
    requires FollowsRevenue(Expenses(txns), Revenue(txns), c, v)
    ensures JumpsSomewhere(Expenses(txns), v, alert) <==> RevenueJumps(txns, v, alert)
  {
    var expenses, rev := Expenses(txns), Revenue(txns);
    var ms := SortedMonths(expenses, v);
    forall i | 0 < i < |ms|
      ensures JumpsAt(expenses, v, ms, i, alert) <==> Jumps(rev[ms[i - 1]], rev[ms[i]], alert)
    {
      FeeJumpsWithRevenue(expenses, rev, c, v, i, alert);
    }
  }

  /** A rise of a vendor whose charges are the share `c` of revenue in every month is
      reported exactly if the charges recur and revenue jumps. */
  lemma FeeRiseFoundExactly(cfg: Config, txns: seq<Txn>, alert: real, v: string, c: real)
    requires IsRoot(cfg.sqrt) && Lists(cfg.listing)
    requires FollowsRevenue(Expenses(txns), Revenue(txns), c, v)
    ensures Reports(Found(cfg, txns, alert), RiseOf(v)) <==>
            Recurs(DatedCharges(cfg, Expenses(txns)), v) && RevenueJumps(txns, v, alert)
  {
    RiseFoundExactly(cfg, txns, alert, v);
    FeeJumpsExactly(txns, v, c, alert);
  }

  /** Neither the anomaly scan nor the ratio test reports on such a category and vendor. */
  lemma FeeIsNotAbnormal(cfg: Config, txns: seq<Txn>, alert: real, cat: string, v: string, c: real, i: nat, j: nat)
    requires IsRoot(cfg.sqrt) && IsConstantFee(cfg.settings, txns, cat, c, i, j) && OneVendor(txns, cat, v)
    ensures !Reports(Found(cfg, txns, alert), AbnormalOf(v, cat))
  {
    if Reports(Found(cfg, txns, alert), AbnormalOf(v, cat)) {
      var f :| f in Found(cfg, txns, alert) && AbnormalOf(v, cat)(f);
      ConstantFeeIsNotReported(cfg, txns, alert, cat, c, i, j, f);
    }
  }

  /** Any finding about the vendor or its category. */
  function Concerns(v: string, cat: string): About {
    (f: Finding) => AbnormalOf(v, cat)(f) || RiseOf(v)(f) || DoubledOf(v)(f) || TopOf(v)(f)
  }

  lemma ReportsAny(found: seq<Finding>, cat: string, v: string)
    ensures Reports(found, Concerns(v, cat)) <==>
            || Reports(found, AbnormalOf(v, cat)) || Reports(found, RiseOf(v))
            || Reports(found, DoubledOf(v)) || Reports(found, TopOf(v))
  {
    forall f ensures Concerns(v, cat)(f) <==> AbnormalOf(v, cat)(f) || RiseOf(v)(f) || DoubledOf(v)(f) || TopOf(v)(f) {}
  }

  /** A constant-percentage fee, one vendor's, produces a finding exactly if it was charged
      alike on one day, or if its charges recur and are among the most expensive
      recurring ones or follow a jump of revenue. */
  lemma ConstantFeeFoundExactly(cfg: Config, txns: seq<Txn>, alert: real, cat: string, v: string, c: real, i: nat, j: nat)
    requires IsRoot(cfg.sqrt) && Lists(cfg.listing)
    requires IsConstantFee(cfg.settings, txns, cat, c, i, j) && OneVendor(txns, cat, v)
    ensures FollowsRevenue(Expenses(txns), Revenue(txns), c, v)
    ensures Reports(Found(cfg, txns, alert), Concerns(v, cat)) <==>
            || DoubledSomeDay(Expenses(txns), v)
            || (Recurs(DatedCharges(cfg, Expenses(txns)), v)
                && (IsTop(cfg, Expenses(txns), v) || RevenueJumps(txns, v, alert)))
  {
    FeeFollowsRevenue(txns, cat, v, c);
    FeeIsNotAbnormal(cfg, txns, alert, cat, v, c, i, j);
    FeeRiseFoundExactly(cfg, txns, alert, v, c);
    DoubledFoundExactly(cfg, txns, alert, v);
    TopFoundExactly(cfg, txns, alert, v);
    FewAreTop(cfg, Expenses(txns), v);
    ReportsAny(Found(cfg, txns, alert), cat, v);
  }
}
