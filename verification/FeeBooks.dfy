/** Books in which a manager is paid a constant share of each month's revenue: what
    `find` reports about the fee, for every course of revenue. */
module FeeBooks {
  import opened Concats
  import opened Sequences
  import opened StringOrder
  import opened StableSort
  import opened KeyLists
  import opened PyText
  import opened Stats
  import opened Correlation
  import opened Findings
  import opened AnomalyFindings
  import opened FeeFindings
  import Anomaly
  import Duplicates
  import Recurring

  const MANAGER: string := "Manager"
  const CATEGORY: string := "Management"

  /** The first nine months of 2026. */
  const YEAR: nat := 9

  function MonthName(k: nat): (m: string)
    requires k < YEAR
    ensures |m| == 7
  {
    "2026-0" + [('1' as int + k) as char]
  }

  function Income(m: string, x: real): Txn {
    Txn("Guests", m + "-15", x, "income", "Rent")
  }

  function Fee(m: string, x: real): Txn {
    Txn(MANAGER, m + "-20", x, "expense", CATEGORY)
  }

  /** Revenue for the first months of a year. */
  type Course = s: seq<real> | |s| <= YEAR

  function Months(n: nat): (r: seq<string>)
    requires n <= YEAR
    ensures |r| == n && forall k :: 0 <= k < n ==> r[k] == MonthName(k)
  {
    seq(n, k requires 0 <= k < n => MonthName(k))
  }

  function Incomes(revs: Course): (r: seq<Txn>)
    ensures |r| == |revs| && forall k :: 0 <= k < |revs| ==> r[k] == Income(MonthName(k), revs[k])
  {
    seq(|revs|, k requires 0 <= k < |revs| => Income(MonthName(k), revs[k]))
  }

  /** What the share `c` of each month's revenue comes to. */
  function Shares(revs: Course, c: real): (r: Course)
    ensures |r| == |revs| && forall k :: 0 <= k < |revs| ==> r[k] == c * revs[k]
  {
    seq(|revs|, k requires 0 <= k < |revs| => c * revs[k])
  }

  function Fees(xs: Course): (r: seq<Txn>)
    ensures |r| == |xs| && forall k :: 0 <= k < |xs| ==> r[k] == Fee(MonthName(k), xs[k])
  {
    seq(|xs|, k requires 0 <= k < |xs| => Fee(MonthName(k), xs[k]))
  }

  function Books(revs: Course, c: real): seq<Txn> {
    Incomes(revs) + Fees(Shares(revs, c))
  }

  // ---- Months ----

  lemma {:induction false} LessAfter(p: string, a: char, b: char)
    requires a < b
    ensures Less(p + [a], p + [b])
  {
    if p != [] {
      assert (p + [a])[1..] == p[1..] + [a] && (p + [b])[1..] == p[1..] + [b];
      LessAfter(p[1..], a, b);
    }
  }

  lemma MonthsAscend(n: nat)
    requires n <= YEAR
    ensures NoRepeats(Months(n)) && Sorted(Self(), Months(n))
  {
    forall i, j | 0 <= i < j < n ensures Less(MonthName(i), MonthName(j)) && MonthName(i) != MonthName(j) {
      LessAfter("2026-0", ('1' as int + i) as char, ('1' as int + j) as char);
      LessAsymmetric(MonthName(i), MonthName(j));
    }
    forall i, j | 0 <= i < j < n ensures !Less(MonthName(j), MonthName(i)) {
      LessAsymmetric(MonthName(i), MonthName(j));
    }
  }

  lemma DatedIn(m: string, day: string)
    requires |m| == 7
    ensures MonthOf(m + day) == m
  {
    Parts(m, day);
  }

  // ---- Totals of lists with one transaction a month ----

  /** Transaction `k` is selected and is the amount `xs[k]` in month `ms[k]`. */
  ghost predicate OneEach(sel: Select, txns: seq<Txn>, ms: seq<string>, xs: seq<real>) {
    && |txns| == |ms| == |xs| && NoRepeats(ms)
    && forall k :: 0 <= k < |txns| ==> Counts(sel, txns[k]) && Month(txns[k]) == ms[k] && txns[k].amount == xs[k]
  }

  lemma OneEachInit(sel: Select, txns: seq<Txn>, ms: seq<string>, xs: seq<real>)
    requires OneEach(sel, txns, ms, xs) && txns != []
    ensures var n := |txns| - 1; OneEach(sel, txns[..n], ms[..n], xs[..n]) && ms[n] !in ms[..n]
  {
  }

  lemma {:induction false} OneEachMonths(sel: Select, txns: seq<Txn>, ms: seq<string>, xs: seq<real>)
    requires OneEach(sel, txns, ms, xs)
    ensures MonthsOf(sel, txns) == ms
  {
    if txns != [] {
      var n := |txns| - 1;
      OneEachInit(sel, txns, ms, xs);
      OneEachMonths(sel, txns[..n], ms[..n], xs[..n]);
      ApartLast(ms);
    }
  }

  lemma {:induction false} OneEachTotal(sel: Select, txns: seq<Txn>, ms: seq<string>, xs: seq<real>, k: nat)
    requires OneEach(sel, txns, ms, xs) && k < |ms|
    ensures MonthTotal(sel, txns, ms[k]) == xs[k]
    decreases |txns|
  {
    var n := |txns| - 1;
    OneEachInit(sel, txns, ms, xs);
    if k < n {
      OneEachTotal(sel, txns[..n], ms[..n], xs[..n], k);
    } else {
      OneEachMonths(sel, txns[..n], ms[..n], xs[..n]);
      AbsentTotal(sel, txns[..n], ms[n]);
    }
  }

  lemma OneEachTotals(sel: Select, txns: seq<Txn>, ms: seq<string>, xs: seq<real>)
    requires OneEach(sel, txns, ms, xs)
    ensures MonthsOf(sel, txns) == ms
    ensures forall k :: 0 <= k < |ms| ==> MonthTotal(sel, txns, ms[k]) == xs[k]
  {
    OneEachMonths(sel, txns, ms, xs);
    forall k | 0 <= k < |ms| ensures MonthTotal(sel, txns, ms[k]) == xs[k] {
      OneEachTotal(sel, txns, ms, xs, k);
    }
  }

  lemma {:induction false} OthersCountNothing(sel: Select, a: seq<Txn>, b: seq<Txn>, m: string)
    requires forall k :: 0 <= k < |b| ==> !Counts(sel, b[k])
    ensures MonthsOf(sel, a + b) == MonthsOf(sel, a) && MonthTotal(sel, a + b, m) == MonthTotal(sel, a, m)
  {
    if b == [] {
      NothingAdded(a);
    } else {
      var init, last := b[..|b| - 1], b[|b| - 1];
      OthersCountNothing(sel, a, init, m);
      ApartLast(b);
      Associate(a, init, [last]);
      Parts(a + init, [last]);
    }
  }

  lemma {:induction false} ExpensesAfter(a: seq<Txn>, b: seq<Txn>)
    requires forall k :: 0 <= k < |a| ==> a[k].direction != "expense"
    requires forall k :: 0 <= k < |b| ==> b[k].direction == "expense"
    ensures Expenses(a + b) == b
  {
    if b != [] {
      var init, last := b[..|b| - 1], b[|b| - 1];
      ExpensesAfter(a, init);
      ApartLast(b);
      Associate(a, init, [last]);
      Parts(a + init, [last]);
    } else {
      NothingAdded(a);
      if a != [] {
        ExpensesAfter(a[..|a| - 1], []);
        NothingAdded(a[..|a| - 1]);
      }
    }
  }

  // ---- The books ----

  lemma Directions()
    ensures "income" != "expense" && CATEGORY != "Rent" && MANAGER != "Guests"
  {
    assert "income"[0] != "expense"[0] && CATEGORY[0] != "Rent"[0] && MANAGER[0] != "Guests"[0];
  }

  lemma BookExpenses(revs: Course, c: real)
    ensures Expenses(Books(revs, c)) == Fees(Shares(revs, c))
  {
    Directions();
    ExpensesAfter(Incomes(revs), Fees(Shares(revs, c)));
  }

  lemma IncomesOneEach(revs: Course)
    ensures OneEach(IsIncome(), Incomes(revs), Months(|revs|), revs)
  {
    MonthsAscend(|revs|);
    forall k | 0 <= k < |revs| ensures Month(Incomes(revs)[k]) == MonthName(k) {
      DatedIn(MonthName(k), "-15");
    }
  }

  lemma FeesOneEach(xs: Course)
    ensures OneEach(InCategory(CATEGORY), Fees(xs), Months(|xs|), xs)
  {
    MonthsAscend(|xs|);
    forall k | 0 <= k < |xs| ensures Month(Fees(xs)[k]) == MonthName(k) {
      DatedIn(MonthName(k), "-20");
    }
  }

  lemma BookRevenue(revs: Course, c: real)
    ensures TotalsOf(IsIncome(), Books(revs, c)).months == Months(|revs|)
    ensures forall k :: 0 <= k < |revs| ==> MonthName(k) in Revenue(Books(revs, c)) && Revenue(Books(revs, c))[MonthName(k)] == revs[k]
  {
    Directions();
    IncomesOneEach(revs);
    OneEachTotals(IsIncome(), Incomes(revs), Months(|revs|), revs);
    OthersCountNothing(IsIncome(), Incomes(revs), Fees(Shares(revs, c)), "");
    forall k | 0 <= k < |revs|
      ensures MonthName(k) in Revenue(Books(revs, c)) && Revenue(Books(revs, c))[MonthName(k)] == revs[k]
    {
      OthersCountNothing(IsIncome(), Incomes(revs), Fees(Shares(revs, c)), MonthName(k));
      assert Months(|revs|)[k] in Months(|revs|);
    }
  }

  lemma {:induction false} AllBoth(ms: seq<string>, rev: map<string, real>)
    requires forall m :: m in ms ==> m in rev
    ensures Both(ms, rev, false) == ms
  {
    if ms != [] {
      AllBoth(ms[..|ms| - 1], rev);
      ApartLast(ms);
    }
  }

  lemma FeeTotals(xs: Course)
    ensures TotalsOf(InCategory(CATEGORY), Fees(xs)).months == Months(|xs|)
    ensures forall k :: 0 <= k < |xs| ==>
              var total := TotalsOf(InCategory(CATEGORY), Fees(xs)).total;
              MonthName(k) in total && total[MonthName(k)] == xs[k]
  {
    FeesOneEach(xs);
    OneEachTotals(InCategory(CATEGORY), Fees(xs), Months(|xs|), xs);
    forall k | 0 <= k < |xs| ensures MonthName(k) in TotalsOf(InCategory(CATEGORY), Fees(xs)).total {
      assert Months(|xs|)[k] in Months(|xs|);
    }
  }

  /** The shared months are all the months. */
  lemma BookMonths(revs: Course, c: real)
    ensures SharedMonths(TotalsOf(InCategory(CATEGORY), Fees(Shares(revs, c))), Revenue(Books(revs, c)), false) == Months(|revs|)
  {
    FeeTotals(Shares(revs, c));
    BookRevenue(revs, c);
    AllBoth(Months(|revs|), Revenue(Books(revs, c)));
    MonthsAscend(|revs|);
    SortSorted(Self(), Months(|revs|));
  }

  predicate IsShare(x: real, c: real, y: real) {
    x == c * y
  }

  lemma SharesAreShares(revs: Course, c: real)
    ensures forall k :: 0 <= k < |revs| ==> IsShare(Shares(revs, c)[k], c, revs[k])
  {
  }

  lemma ShareByMonth(cost: Totals, rev: map<string, real>, c: real, xs: Course, revs: Course)
    requires |xs| == |revs| && forall k :: 0 <= k < |revs| ==> IsShare(xs[k], c, revs[k])
    requires cost.Valid() && cost.months == Months(|revs|)
    requires forall k :: 0 <= k < |revs| ==> MonthName(k) in cost.total && cost.total[MonthName(k)] == xs[k]
    requires forall k :: 0 <= k < |revs| ==> MonthName(k) in rev && rev[MonthName(k)] == revs[k]
    ensures ConstantShare(cost, rev, c)
  {
    forall m | m in cost.total && m in rev ensures IsShare(cost.total[m], c, rev[m]) {
      var k :| 0 <= k < |revs| && Months(|revs|)[k] == m;
    }
  }

  lemma BookShare(revs: Course, c: real)
    ensures ConstantShare(TotalsOf(InCategory(CATEGORY), Fees(Shares(revs, c))), Revenue(Books(revs, c)), c)
  {
    var xs := Shares(revs, c);
    SharesAreShares(revs, c);
    FeeTotals(xs);
    BookRevenue(revs, c);
    ShareByMonth(TotalsOf(InCategory(CATEGORY), Fees(xs)), Revenue(Books(revs, c)), c, xs, revs);
  }

  /** Settings under which a constant share is classed as correlated and its ratio is silent. */
  predicate Usual(s: Settings) {
    s.corr <= 1.0 && s.ratioZ > 0.0 && s.ratioJump > 0.0
  }

  /** The books are those of a constant fee of one vendor. */
  lemma BooksAreFee(s: Settings, revs: Course, c: real, i: nat, j: nat)
    requires Usual(s) && c > 0.0 && |revs| >= MIN_MONTHS && i < |revs| && j < |revs| && revs[i] != revs[j]
    ensures IsConstantFee(s, Books(revs, c), CATEGORY, c, i, j)
  {
    BookExpenses(revs, c);
    BookMonths(revs, c);
    BookShare(revs, c);
    BookRevenue(revs, c);
  }

  lemma FeeAt(xs: Course, k: nat)
    requires k < |xs|
    ensures var t := Fees(xs)[k]; t.vendor == MANAGER && t.category == CATEGORY && Month(t) == MonthName(k)
    ensures MonthName(k) != ""
  {
    assert Fees(xs)[k] == Fee(MonthName(k), xs[k]);
    DatedIn(MonthName(k), "-20");
  }

  lemma BooksAreOneVendor(revs: Course, c: real)
    ensures OneVendor(Books(revs, c), CATEGORY, MANAGER)
  {
    BookExpenses(revs, c);
    BookRevenue(revs, c);
    forall k | 0 <= k < |revs|
      ensures var t := Expenses(Books(revs, c))[k];
              t.vendor == MANAGER && t.category == CATEGORY && Month(t) != "" && Month(t) in Revenue(Books(revs, c))
    {
      FeeAt(Shares(revs, c), k);
    }
  }

  // ---- The charges ----

  function Entries(day: string -> int, xs: Course): (r: seq<Recurring.Entry>)
    ensures |r| == |xs|
    ensures forall k :: 0 <= k < |xs| ==> r[k] == Recurring.Entry(day(MonthName(k) + "-20"), Cents(xs[k]))
  {
    Map(ToEntry(day), Fees(xs))
  }

  lemma {:induction false} AllPaidTo(expenses: seq<Txn>, v: string)
    requires forall k :: 0 <= k < |expenses| ==> expenses[k].vendor == v
    ensures PaidTo(expenses, v) == expenses
  {
    if expenses != [] {
      AllPaidTo(expenses[..|expenses| - 1], v);
      ApartLast(expenses);
    }
  }

  lemma ManagerIsClean()
    ensures MANAGER != "" && Strip(MANAGER) == MANAGER
  {
    assert !IsSpace(MANAGER[0]) && !IsSpace(MANAGER[|MANAGER| - 1]);
  }

  lemma FeeEntries(cfg: Config, xs: Course)
    ensures Recurring.EntriesOf(DatedCharges(cfg, Fees(xs)), MANAGER) == Entries(cfg.day, xs)
  {
    ManagerIsClean();
    OwnEntries(cfg, Fees(xs), MANAGER);
    AllPaidTo(Fees(xs), MANAGER);
  }

  lemma {:induction false} OneVendorOnly(charges: seq<Recurring.Charge>, v: string)
    requires forall k :: 0 <= k < |charges| ==> charges[k].vendor == v
    ensures Recurring.VendorsOf(charges) == if charges == [] then [] else [v]
  {
    if charges != [] { OneVendorOnly(charges[..|charges| - 1], v); }
  }

  lemma OneFound(f: string -> seq<Recurring.Summary>, vs: seq<string>)
    requires |vs| <= 1 && forall v :: |f(v)| <= 1
    ensures |Concat(f, vs, |vs|)| <= 1
  {
    assert Concat(f, vs, 0) == [];
  }

  lemma FewRecurrences(round: real -> real, charges: seq<Recurring.Charge>, v: string)
    requires forall k :: 0 <= k < |charges| ==> charges[k].vendor == v
    ensures |Recurring.Recurrences(round, charges)| <= 1
  {
    OneVendorOnly(charges, v);
    OneFound(Recurring.Finder(charges), Recurring.VendorsOf(charges));
  }

  lemma ManagerCharges(cfg: Config, xs: Course, k: nat)
    requires k < |xs|
    ensures DatedCharges(cfg, Fees(xs))[k].vendor == MANAGER
  {
    ManagerIsClean();
    var t := Fees(xs)[k];
    assert t == Fee(MonthName(k), xs[k]);
    assert VendorName(cfg.described, t) == MANAGER;
    assert DatedCharges(cfg, Fees(xs))[k] == ToCharge(cfg.day, cfg.described)(t);
  }

  lemma FewSummaries(cfg: Config, xs: Course)
    ensures |Summaries(cfg, Fees(xs))| <= 1
  {
    var charges := DatedCharges(cfg, Fees(xs));
    forall k | 0 <= k < |charges| ensures charges[k].vendor == MANAGER {
      ManagerCharges(cfg, xs, k);
    }
    FewRecurrences(RoundCents(cfg.round), charges, MANAGER);
  }

  lemma {:induction false} ApartDays(expenses: seq<Txn>, d: Duplicates.Day)
    requires forall i, j :: 0 <= i < j < |expenses| ==> expenses[i].date != expenses[j].date
    ensures |Duplicates.AmountsOn(expenses, d)| <= 1
    ensures (forall i :: 0 <= i < |expenses| ==> expenses[i].date != d.1) ==> Duplicates.AmountsOn(expenses, d) == []
  {
    if expenses != [] { ApartDays(expenses[..|expenses| - 1], d); }
  }

  lemma NoDoubles(xs: Course)
    ensures !DoubledSomeDay(Fees(xs), MANAGER)
  {
    MonthsAscend(|xs|);
    forall i, j | 0 <= i < j < |xs| ensures Fees(xs)[i].date != Fees(xs)[j].date {
      Parts(MonthName(i), "-20");
      Parts(MonthName(j), "-20");
      assert Months(|xs|)[i] != Months(|xs|)[j];
    }
    forall day: string ensures |Duplicates.AmountsOn(Fees(xs), (MANAGER, day))| <= 1 {
      ApartDays(Fees(xs), (MANAGER, day));
    }
  }

  predicate FeeRecurs(cfg: Config, revs: Course, c: real) {
    Recurring.Recurs(MANAGER, Entries(cfg.day, Shares(revs, c))).Some?
  }

  lemma BooksRecur(cfg: Config, revs: Course, c: real)
    ensures Recurs(DatedCharges(cfg, Expenses(Books(revs, c))), MANAGER) <==> FeeRecurs(cfg, revs, c)
    ensures IsTop(cfg, Expenses(Books(revs, c)), MANAGER) <==> FeeRecurs(cfg, revs, c)
  {
    BookExpenses(revs, c);
    FeeEntries(cfg, Shares(revs, c));
    FewSummaries(cfg, Shares(revs, c));
    FewAreTop(cfg, Fees(Shares(revs, c)), MANAGER);
  }

  /** For every course of a revenue that varies, `find` reports on the fee exactly if its
      charges recur. */
  lemma BooksFoundExactly(cfg: Config, revs: Course, c: real, alert: real, i: nat, j: nat)
    requires IsRoot(cfg.sqrt) && Lists(cfg.listing) && Usual(cfg.settings)
    requires c > 0.0 && |revs| >= MIN_MONTHS && i < |revs| && j < |revs| && revs[i] != revs[j]
    ensures Reports(Found(cfg, Books(revs, c), alert), Concerns(MANAGER, CATEGORY)) <==> FeeRecurs(cfg, revs, c)
  {
    BooksAreFee(cfg.settings, revs, c, i, j);
    BooksAreOneVendor(revs, c);
    ConstantFeeFoundExactly(cfg, Books(revs, c), alert, CATEGORY, MANAGER, c, i, j);
    BooksRecur(cfg, revs, c);
    BookExpenses(revs, c);
    NoDoubles(Shares(revs, c));
  }

  // ---- Three courses ----

  lemma FeeMonths(revs: Course, c: real)
    ensures SortedMonths(Expenses(Books(revs, c)), MANAGER) == Months(|revs|)
  {
    var xs := Shares(revs, c);
    BookExpenses(revs, c);
    BooksAreOneVendor(revs, c);
    SelectionIsSame(Books(revs, c), CATEGORY, MANAGER);
    VendorIsCategory(Fees(xs), CATEGORY, MANAGER, "");
    FeeTotals(xs);
    MonthsAscend(|revs|);
    SortSorted(Self(), Months(|revs|));
  }

  /** Revenue jumps from some month to the next. */
  predicate CourseJumps(revs: Course, alert: real) {
    exists i :: 0 < i < |revs| && Jumps(revs[i - 1], revs[i], alert)
  }

  lemma JumpsByMonth(rev: map<string, real>, ms: seq<string>, revs: Course, alert: real)
    requires |ms| == |revs| && forall k :: 0 <= k < |ms| ==> ms[k] in rev && rev[ms[k]] == revs[k]
    ensures CourseJumps(revs, alert) <==> exists i :: 0 < i < |ms| && Jumps(rev[ms[i - 1]], rev[ms[i]], alert)
  {
    if i: int :| 0 < i < |revs| && Jumps(revs[i - 1], revs[i], alert) {
      assert Jumps(rev[ms[i - 1]], rev[ms[i]], alert);
    }
  }

  lemma BooksFollow(revs: Course, c: real)
    requires c > 0.0
    ensures FollowsRevenue(Expenses(Books(revs, c)), Revenue(Books(revs, c)), c, MANAGER)
  {
    BookExpenses(revs, c);
    BookShare(revs, c);
    BooksAreOneVendor(revs, c);
    FeeFollowsRevenue(Books(revs, c), CATEGORY, MANAGER, c);
  }

  lemma BooksJump(revs: Course, c: real, alert: real)
    requires c > 0.0
    ensures FollowsRevenue(Expenses(Books(revs, c)), Revenue(Books(revs, c)), c, MANAGER)
    ensures RevenueJumps(Books(revs, c), MANAGER, alert) <==> CourseJumps(revs, alert)
  {
    BooksFollow(revs, c);
    FeeMonths(revs, c);
    BookRevenue(revs, c);
    JumpsByMonth(Revenue(Books(revs, c)), Months(|revs|), revs, alert);
  }

  /** A rise of the fee is reported exactly if its charges recur and revenue jumps. */
  lemma BooksRiseExactly(cfg: Config, revs: Course, c: real, alert: real)
    requires IsRoot(cfg.sqrt) && Lists(cfg.listing) && c > 0.0
    ensures Reports(Found(cfg, Books(revs, c), alert), RiseOf(MANAGER)) <==>
            FeeRecurs(cfg, revs, c) && CourseJumps(revs, alert)
  {
    BooksJump(revs, c, alert);
    FeeRiseFoundExactly(cfg, Books(revs, c), alert, MANAGER, c);
    BooksRecur(cfg, revs, c);
  }

  /** The ordinals of the days on which the fee is charged. */
  predicate Calendar(day: string -> int) {
    var d := day("2026-01-20");
    day("2026-02-20") == d + 31 && day("2026-03-20") == d + 59 && day("2026-04-20") == d + 90
  }

  const RATE: real := 0.2
  const ALERT: real := 20.0

  const LATE: Course := [1000.0, 1000.0, 1000.0, 1300.0]
  const FLAT: Course := [1000.0, 1000.0, 1000.0, 1100.0]
  const GROWING: Course := [1000.0, 1300.0, 1690.0, 2197.0]

  lemma FourEntries(day: string -> int, xs: Course)
    requires |xs| == 4 && Calendar(day)
    ensures var es, d := Entries(day, xs), day("2026-01-20");
            && es[0] == Recurring.Entry(d, Cents(xs[0])) && es[1] == Recurring.Entry(d + 31, Cents(xs[1]))
            && es[2] == Recurring.Entry(d + 59, Cents(xs[2])) && es[3] == Recurring.Entry(d + 90, Cents(xs[3]))
  {
    assert MonthName(0) + "-20" == "2026-01-20" && MonthName(1) + "-20" == "2026-02-20";
    assert MonthName(2) + "-20" == "2026-03-20" && MonthName(3) + "-20" == "2026-04-20";
  }

  /** The charges of these courses in cents. */
  lemma RatesInCents()
    ensures Cents(RATE * 1000.0) == 20000 && Cents(RATE * 1100.0) == 22000 && Cents(RATE * 1300.0) == 26000
    ensures Cents(RATE * 1690.0) == 33800 && Cents(RATE * 2197.0) == 43940
  {
  }

  lemma Regular(key: nat, es: seq<Recurring.Entry>, d: int)
    requires |es| == 3 || |es| == 4
    requires es[0].day == d && es[1].day == d + 31 && es[2].day == d + 59 && (|es| == 4 ==> es[3].day == d + 90)
    ensures Recurring.IsRegular(Recurring.Group(key, es))
  {
    Recurring.IntervalTelescopes(es);
    assert Recurring.Earliest(es[..1]) == d && Recurring.Latest(es[..1]) == d;
    assert es[..2][..1] == es[..1] && es[..3][..2] == es[..2];
    assert Recurring.Earliest(es[..2]) == d && Recurring.Latest(es[..2]) == d + 31;
    assert Recurring.Earliest(es[..3]) == d && Recurring.Latest(es[..3]) == d + 59;
    assert |es| == 3 ==> es[..3] == es;
  }

  lemma LateRecurs(cfg: Config)
    requires Calendar(cfg.day)
    ensures FeeRecurs(cfg, LATE, RATE)
  {
    var es := Entries(cfg.day, Shares(LATE, RATE));
    RatesInCents();
    FourEntries(cfg.day, Shares(LATE, RATE));
    Recurring.OneGroup(es[..3]);
    Regular(20000, es[..3], es[0].day);
    assert Recurring.GroupAll(es) == [Recurring.Group(20000, es[..3]), Recurring.Group(26000, [es[3]])];
  }

  lemma FlatRecurs(cfg: Config)
    requires Calendar(cfg.day)
    ensures FeeRecurs(cfg, FLAT, RATE)
  {
    var es := Entries(cfg.day, Shares(FLAT, RATE));
    RatesInCents();
    FourEntries(cfg.day, Shares(FLAT, RATE));
    Recurring.OneGroup(es);
    Regular(20000, es, es[0].day);
  }

  lemma GrowingDoesNotRecur(cfg: Config)
    ensures !FeeRecurs(cfg, GROWING, RATE)
  {
    var es := Entries(cfg.day, Shares(GROWING, RATE));
    RatesInCents();
    assert Recurring.AllApart(es);
    Recurring.ApartNeverRecurs(MANAGER, es);
  }

  /** A fee of 20 percent on a revenue of 1000, 1000, 1000 and 1300: it is a constant fee, it
      recurs, and the jump of revenue makes a rise that is reported. */
  lemma LateJumpIsReported(cfg: Config)
    requires IsRoot(cfg.sqrt) && Lists(cfg.listing) && Usual(cfg.settings) && Calendar(cfg.day)
    ensures IsConstantFee(cfg.settings, Books(LATE, RATE), CATEGORY, RATE, 0, 3)
    ensures Reports(Found(cfg, Books(LATE, RATE), ALERT), RiseOf(MANAGER))
  {
    BooksAreFee(cfg.settings, LATE, RATE, 0, 3);
    LateRecurs(cfg);
    assert Jumps(LATE[2], LATE[3], ALERT);
    BooksRiseExactly(cfg, LATE, RATE, ALERT);
  }

  lemma FlatIsNoRise(cfg: Config)
    requires IsRoot(cfg.sqrt) && Lists(cfg.listing)
    ensures !Reports(Found(cfg, Books(FLAT, RATE), ALERT), RiseOf(MANAGER))
  {
    assert !CourseJumps(FLAT, ALERT);
    BooksRiseExactly(cfg, FLAT, RATE, ALERT);
  }

  lemma FlatIsTop(cfg: Config)
    requires IsRoot(cfg.sqrt) && Calendar(cfg.day)
    ensures Reports(Found(cfg, Books(FLAT, RATE), ALERT), TopOf(MANAGER))
  {
    FlatRecurs(cfg);
    BooksRecur(cfg, FLAT, RATE);
    TopFoundExactly(cfg, Books(FLAT, RATE), ALERT, MANAGER);
  }

  /** On 1000, 1000, 1000 and 1100 nothing jumps, and the constant fee is reported all the
      same, as a top recurring charge. */
  lemma FlatFeeIsReported(cfg: Config)
    requires IsRoot(cfg.sqrt) && Lists(cfg.listing) && Usual(cfg.settings) && Calendar(cfg.day)
    ensures IsConstantFee(cfg.settings, Books(FLAT, RATE), CATEGORY, RATE, 0, 3)
    ensures !Reports(Found(cfg, Books(FLAT, RATE), ALERT), RiseOf(MANAGER))
    ensures Reports(Found(cfg, Books(FLAT, RATE), ALERT), TopOf(MANAGER))
  {
    BooksAreFee(cfg.settings, FLAT, RATE, 0, 3);
    FlatIsNoRise(cfg);
    FlatIsTop(cfg);
  }

  lemma GrowingJumps()
    ensures forall i :: 0 < i < 4 ==> Jumps(GROWING[i - 1], GROWING[i], ALERT)
  {
  }

  lemma GrowingIsSilent(cfg: Config)
    requires IsRoot(cfg.sqrt) && Lists(cfg.listing) && Usual(cfg.settings)
    ensures !Reports(Found(cfg, Books(GROWING, RATE), ALERT), Concerns(MANAGER, CATEGORY))
  {
    GrowingDoesNotRecur(cfg);
    BooksFoundExactly(cfg, GROWING, RATE, ALERT, 0, 1);
  }

  /** On 1000, 1300, 1690 and 2197 revenue jumps every month, and nothing is reported: each
      charge is a group of its own, so the fee does not recur. */
  lemma GrowingFeeIsSilent(cfg: Config)
    requires IsRoot(cfg.sqrt) && Lists(cfg.listing) && Usual(cfg.settings)
    ensures forall i :: 0 < i < 4 ==> Jumps(GROWING[i - 1], GROWING[i], ALERT)
    ensures !Reports(Found(cfg, Books(GROWING, RATE), ALERT), Concerns(MANAGER, CATEGORY))
  {
    GrowingJumps();
    GrowingIsSilent(cfg);
  }
}
