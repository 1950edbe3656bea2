/** Advisory findings: recurring bills that jump, merged with the other kinds of
    finding and ranked. Amounts are exact reals, rounded only to be ranked; the numbers
    quoted in a finding's explanation are kept as numbers. */
module Findings {
  import opened StringOrder
  import opened StableSort
  import opened KeyLists
  import opened DescendingSort
  import opened RealArithmetic
  import opened Sequences
  import opened Correlation
  import Anomaly
  import Recurring

  /** What a finding is about: a rise from month to month, an anomalous invoice, a
      ratio to revenue that rose, a recurring charge, or charges doubled on a day. */
  datatype Detail =
    | Rise(curr: real, month: string, prev: real, prevMonth: string)
    | Spike(anomaly: Anomaly.Anomaly)
    | RatioRise(ratio: RatioFinding)
    | Repeats(summary: Recurring.Summary)
    | Doubled(count: nat, day: string, mean: real)

  datatype Confidence = High | Medium | Low

  datatype Finding = Finding(title: string, category: string, annual: real, confidence: Confidence, detail: Detail)

  const SPIKE: string := "Expense spike: "
  const RISE: string := "Recurring bill jump: "
  const TWICE: string := "Possible duplicate charge: "
  const TOP: string := "Top recurring: "

  // ---- Recurring bills that jump ----

  /** `_vendor_category`: a most common category of the vendor; equal counts are
      settled by the order of a set. */
  type CategoryOf = (string, seq<Txn>) -> string

  /** The months of a vendor's charges, in order of first appearance. */
  function MonthsOfVendor(expenses: seq<Txn>, v: string): seq<string> {
    if expenses == [] then []
    else
      var ms, t := MonthsOfVendor(expenses[..|expenses| - 1], v), expenses[|expenses| - 1];
      if t.vendor == v && Month(t) !in ms then ms + [Month(t)] else ms
  }

  /** What vendor `v` charged in month `m`. */
  function Charged(expenses: seq<Txn>, v: string, m: string): real {
    if expenses == [] then 0.0
    else
      var t := expenses[|expenses| - 1];
      Charged(expenses[..|expenses| - 1], v, m) + if t.vendor == v && Month(t) == m then t.amount else 0.0
  }

  function SortedMonths(expenses: seq<Txn>, v: string): seq<string> {
    Sort(Self(), MonthsOfVendor(expenses, v))
  }

  /** `prev > 0` and the rise from it is more than `alert` percent. */
  predicate Jumps(prev: real, curr: real, alert: real) {
    prev > 0.0 && (curr - prev) / prev * 100.0 > alert
  }

  function JumpFinding(category: CategoryOf, expenses: seq<Txn>, v: string, prevMonth: string, month: string): Finding {
    var prev, curr := Charged(expenses, v, prevMonth), Charged(expenses, v, month);
    Finding(RISE + v, category(v, expenses), (curr - prev) * 12.0, Medium, Rise(curr, month, prev, prevMonth))
  }

  /** Month `ms[i]` against the month before it. */
  predicate JumpsAt(expenses: seq<Txn>, v: string, ms: seq<string>, i: nat, alert: real)
    requires i < |ms|
  {
    i > 0 && Jumps(Charged(expenses, v, ms[i - 1]), Charged(expenses, v, ms[i]), alert)
  }

  function JumpsTo(category: CategoryOf, expenses: seq<Txn>, v: string, ms: seq<string>, alert: real, n: nat): seq<Finding>
    requires n <= |ms|
  {
    if n == 0 then []
    else
      JumpsTo(category, expenses, v, ms, alert, n - 1)
      + if JumpsAt(expenses, v, ms, n - 1, alert) then [JumpFinding(category, expenses, v, ms[n - 2], ms[n - 1])] else []
  }

  function VendorJumps(category: CategoryOf, expenses: seq<Txn>, alert: real, v: string): seq<Finding> {
    var ms := SortedMonths(expenses, v);
    JumpsTo(category, expenses, v, ms, alert, |ms|)
  }

  /** The findings for a list of recurring vendors. */
  function AllJumps(category: CategoryOf, expenses: seq<Txn>, alert: real, vendors: seq<string>): seq<Finding> {
    if vendors == [] then []
    else
      AllJumps(category, expenses, alert, vendors[..|vendors| - 1])
      + VendorJumps(category, expenses, alert, vendors[|vendors| - 1])
  }

  /** The charges by vendor and month, with the months of each vendor in order. */
  datatype Charges = Charges(months: map<string, seq<string>>, total: map<(string, string), real>)

  ghost predicate IsCharges(c: Charges, expenses: seq<Txn>) {
    && (forall v :: v in c.months ==> c.months[v] == MonthsOfVendor(expenses, v))
    && (forall v :: v !in c.months ==> MonthsOfVendor(expenses, v) == [])
    && (forall v, m :: (v, m) in c.total <==> m in MonthsOfVendor(expenses, v))
    && (forall k :: k in c.total ==> c.total[k] == Charged(expenses, k.0, k.1))
  }

  function AddCharge(c: Charges, t: Txn): Charges {
    var v, m := t.vendor, Month(t);
    var known := if v in c.months then c.months[v] else [];
    if (v, m) in c.total then c.(total := c.total[(v, m) := c.total[(v, m)] + t.amount])
    else Charges(c.months[v := known + [m]], c.total[(v, m) := 0.0 + t.amount])
  }

  lemma {:induction false} NoCharges(expenses: seq<Txn>, v: string, m: string)
    requires m !in MonthsOfVendor(expenses, v)
    ensures Charged(expenses, v, m) == 0.0
  {
    if expenses != [] { NoCharges(expenses[..|expenses| - 1], v, m); }
  }

  lemma MonthsOfVendorStep(expenses: seq<Txn>, t: Txn, v: string)
    ensures MonthsOfVendor(expenses + [t], v)
         == (var ms := MonthsOfVendor(expenses, v);
             if t.vendor == v && Month(t) !in ms then ms + [Month(t)] else ms)
  {
    assert (expenses + [t])[..|expenses|] == expenses;
  }

  lemma ChargedStep(expenses: seq<Txn>, t: Txn, v: string, m: string)
    ensures Charged(expenses + [t], v, m)
         == Charged(expenses, v, m) + if t.vendor == v && Month(t) == m then t.amount else 0.0
  {
    assert (expenses + [t])[..|expenses|] == expenses;
  }

  lemma AddChargeStep(c: Charges, expenses: seq<Txn>, t: Txn)
    requires IsCharges(c, expenses)
    ensures IsCharges(AddCharge(c, t), expenses + [t])
  {
    var c' := AddCharge(c, t);
    forall v ensures v in c'.months ==> c'.months[v] == MonthsOfVendor(expenses + [t], v)
             ensures v !in c'.months ==> MonthsOfVendor(expenses + [t], v) == []
    {
      MonthsOfVendorStep(expenses, t, v);
    }
    forall v, m ensures (v, m) in c'.total <==> m in MonthsOfVendor(expenses + [t], v) {
      MonthsOfVendorStep(expenses, t, v);
    }
    forall k | k in c'.total ensures c'.total[k] == Charged(expenses + [t], k.0, k.1) {
      ChargedStep(expenses, t, k.0, k.1);
      if k !in c.total { NoCharges(expenses, k.0, k.1); }
    }
  }

  /** The dict by vendor and month, filled charge by charge. */
  method IndexCharges(expenses: seq<Txn>) returns (c: Charges)
    ensures IsCharges(c, expenses)
  {
    c := Charges(map[], map[]);
    for i := 0 to |expenses|
      invariant IsCharges(c, expenses[..i])
    {
      PrefixGrows(expenses, i);
      AddChargeStep(c, expenses[..i], expenses[i]);
      c := AddCharge(c, expenses[i]);
    }
    assert expenses[..|expenses|] == expenses;
  }

  /** `_recurring_jump_findings`, for the recurring vendors in the order in which
      they are visited. */
  method RecurringJumps(category: CategoryOf, expenses: seq<Txn>, alert: real, vendors: seq<string>)
    returns (r: seq<Finding>)
    ensures r == AllJumps(category, expenses, alert, vendors)
  {
    var c := IndexCharges(expenses);
    r := [];
    for k := 0 to |vendors|
      invariant r == AllJumps(category, expenses, alert, vendors[..k])
    {
      assert vendors[..k + 1][..k] == vendors[..k];
      var found := JumpsOfVendor(category, expenses, alert, vendors[k], c);
      r := r + found;
    }
    assert vendors[..|vendors|] == vendors;
  }

  method JumpsOfVendor(category: CategoryOf, expenses: seq<Txn>, alert: real, v: string, c: Charges)
    returns (r: seq<Finding>)
    requires IsCharges(c, expenses)
    ensures r == VendorJumps(category, expenses, alert, v)
  {
    r := [];
    if v in c.months {
      var ms := Sort(Self(), c.months[v]);
      MonthsAreCharged(c, expenses, v);
      r := CompareMonths(category, expenses, alert, v, ms, c.total);
    }
  }

  lemma MonthsAreCharged(c: Charges, expenses: seq<Txn>, v: string)
    requires IsCharges(c, expenses)
    ensures forall m :: m in SortedMonths(expenses, v) ==> (v, m) in c.total && c.total[(v, m)] == Charged(expenses, v, m)
  {
    SortMembers(Self(), MonthsOfVendor(expenses, v));
  }

  /** Each charged month against the one before it. */
  method CompareMonths(category: CategoryOf, expenses: seq<Txn>, alert: real, v: string, ms: seq<string>,
                       total: map<(string, string), real>)
    returns (r: seq<Finding>)
    requires forall m :: m in ms ==> (v, m) in total && total[(v, m)] == Charged(expenses, v, m)
    ensures r == JumpsTo(category, expenses, v, ms, alert, |ms|)
  {
    r := [];
    if |ms| < 2 {
      NoPairNoJump(category, expenses, v, ms, alert);
      return;
    }
    assert JumpsTo(category, expenses, v, ms, alert, 0) == [];
    for i := 1 to |ms|
      invariant r == JumpsTo(category, expenses, v, ms, alert, i)
    {
      assert ms[i - 1] in ms && ms[i] in ms;
      var prev, curr := total[(v, ms[i - 1])], total[(v, ms[i])];
      if prev > 0.0 && (curr - prev) / prev * 100.0 > alert {
        r := r + [Finding(RISE + v, category(v, expenses), (curr - prev) * 12.0, Medium,
                          Rise(curr, ms[i], prev, ms[i - 1]))];
      }
    }
  }

  /** Exactly the rises from one charged month to the next are reported. */
  lemma {:induction false} JumpsToMember(category: CategoryOf, expenses: seq<Txn>, v: string, ms: seq<string>,
                                        alert: real, n: nat, f: Finding)
    requires n <= |ms|
    ensures f in JumpsTo(category, expenses, v, ms, alert, n) <==>
            exists i :: 0 < i < n && JumpsAt(expenses, v, ms, i, alert)
                        && f == JumpFinding(category, expenses, v, ms[i - 1], ms[i])
  {
    if n > 0 { JumpsToMember(category, expenses, v, ms, alert, n - 1, f); }
  }

  lemma {:induction false} AllJumpsMember(category: CategoryOf, expenses: seq<Txn>, alert: real, vendors: seq<string>, f: Finding)
    ensures f in AllJumps(category, expenses, alert, vendors) <==>
            exists v :: v in vendors && f in VendorJumps(category, expenses, alert, v)
  {
    if vendors != [] {
      var init, last := vendors[..|vendors| - 1], vendors[|vendors| - 1];
      assert vendors == init + [last];
      AllJumpsMember(category, expenses, alert, init, f);
    }
  }

  lemma JumpFindingExact(category: CategoryOf, expenses: seq<Txn>, alert: real, vendors: seq<string>, f: Finding)
    ensures f in AllJumps(category, expenses, alert, vendors) <==>
            exists v :: v in vendors && IsJump(category, expenses, alert, v, f)
  {
    AllJumpsMember(category, expenses, alert, vendors, f);
    forall v ensures f in VendorJumps(category, expenses, alert, v) <==> IsJump(category, expenses, alert, v, f) {
      var ms := SortedMonths(expenses, v);
      JumpsToMember(category, expenses, v, ms, alert, |ms|, f);
    }
  }

  /** `f` reports a rise of vendor `v` between neighbouring months in which it charged. */
  ghost predicate IsJump(category: CategoryOf, expenses: seq<Txn>, alert: real, v: string, f: Finding) {
    var ms := SortedMonths(expenses, v);
    exists i :: 0 < i < |ms| && JumpsAt(expenses, v, ms, i, alert)
                && f == JumpFinding(category, expenses, v, ms[i - 1], ms[i])
  }

  // ---- Jumps, spelled out ----

  /** The vendor charged something in month `m`. */
  predicate ChargedIn(expenses: seq<Txn>, v: string, m: string) {
    exists k :: 0 <= k < |expenses| && expenses[k].vendor == v && Month(expenses[k]) == m
  }

  /** The vendor charged in both months, and in none between them. */
  ghost predicate AreNeighbours(expenses: seq<Txn>, v: string, prev: string, m: string) {
    && ChargedIn(expenses, v, prev) && ChargedIn(expenses, v, m) && Less(prev, m)
    && forall x :: ChargedIn(expenses, v, x) ==> !(Less(prev, x) && Less(x, m))
  }

  lemma ChargedInStep(expenses: seq<Txn>, t: Txn, v: string, m: string)
    ensures ChargedIn(expenses + [t], v, m) <==> ChargedIn(expenses, v, m) || (t.vendor == v && Month(t) == m)
  {
    if k: int :| 0 <= k < |expenses| && expenses[k].vendor == v && Month(expenses[k]) == m {
      assert (expenses + [t])[k] == expenses[k];
    }
    assert (expenses + [t])[|expenses|] == t;
  }

  lemma {:induction false} MonthsOfVendorExactly(expenses: seq<Txn>, v: string)
    ensures NoRepeats(MonthsOfVendor(expenses, v))
    ensures forall m :: m in MonthsOfVendor(expenses, v) <==> ChargedIn(expenses, v, m)
  {
    if expenses != [] {
      var init, t := expenses[..|expenses| - 1], expenses[|expenses| - 1];
      MonthsOfVendorExactly(init, v);
      ApartLast(expenses);
      forall m ensures m in MonthsOfVendor(expenses, v) <==> ChargedIn(expenses, v, m) {
        ChargedInStep(init, t, v, m);
      }
    }
  }

  /** The charged months come each once, in ascending order. */
  lemma SortedMonthsExactly(expenses: seq<Txn>, v: string)
    ensures var ms := SortedMonths(expenses, v);
            && (forall m :: m in ms <==> ChargedIn(expenses, v, m))
            && forall i, j :: 0 <= i < j < |ms| ==> Less(ms[i], ms[j])
  {
    var ms := SortedMonths(expenses, v);
    MonthsOfVendorExactly(expenses, v);
    SortDistinct(MonthsOfVendor(expenses, v));
    forall i, j | 0 <= i < j < |ms| ensures Less(ms[i], ms[j]) {
      assert ms[i] != ms[j] && !Less(Self()(ms[j]), Self()(ms[i]));
      LessTotal(ms[i], ms[j]);
    }
  }

  lemma PlacesAgree(ms: seq<string>, i: nat, j: nat)
    requires i < |ms| && j < |ms| && Less(ms[i], ms[j])
    requires forall i, j :: 0 <= i < j < |ms| ==> Less(ms[i], ms[j])
    ensures i < j
  {
    LessAsymmetric(ms[i], ms[j]);
  }

  /** Neighbouring months are neighbours in the sorted list. */
  lemma NeighboursExactly(expenses: seq<Txn>, v: string, prev: string, m: string)
    ensures AreNeighbours(expenses, v, prev, m) <==>
            var ms := SortedMonths(expenses, v); exists i :: 0 < i < |ms| && ms[i - 1] == prev && ms[i] == m
  {
    var ms := SortedMonths(expenses, v);
    SortedMonthsExactly(expenses, v);
    if AreNeighbours(expenses, v, prev, m) {
      var i :| 0 <= i < |ms| && ms[i] == prev;
      var j :| 0 <= j < |ms| && ms[j] == m;
      PlacesAgree(ms, i, j);
      var next := i + 1;
      assert ms[next] in ms;
    }
    if i: int :| 0 < i < |ms| && ms[i - 1] == prev && ms[i] == m {
      var p := i - 1;
      assert ms[p] in ms && ms[i] in ms;
      forall x | ChargedIn(expenses, v, x) ensures !(Less(prev, x) && Less(x, m)) {
        var k :| 0 <= k < |ms| && ms[k] == x;
        if Less(ms[p], ms[k]) && Less(ms[k], ms[i]) {
          PlacesAgree(ms, p, k);
          PlacesAgree(ms, k, i);
        }
      }
    }
  }

  /** A rise above the threshold, without division. */
  lemma JumpsExactly(prev: real, curr: real, alert: real)
    ensures Jumps(prev, curr, alert) <==> prev > 0.0 && 100.0 * (curr - prev) > alert * prev
  {
    if prev > 0.0 {
      var q := (curr - prev) / prev;
      assert q * prev == curr - prev;
      QuotientExceeds(100.0 * (curr - prev), prev, alert);
      Quotient(100.0 * (curr - prev), prev, 100.0 * q);
    }
  }

  /** `f` reports that vendor `v` charged `alert` percent more in month `m` than in the
      neighbouring month `prev`. */
  ghost predicate ReportsRise(category: CategoryOf, expenses: seq<Txn>, alert: real, v: string, prev: string, m: string,
                              f: Finding) {
    var before, now := Charged(expenses, v, prev), Charged(expenses, v, m);
    && AreNeighbours(expenses, v, prev, m)
    && before > 0.0 && 100.0 * (now - before) > alert * before
    && f == Finding("Recurring bill jump: " + v, category(v, expenses), 12.0 * (now - before), Medium, Rise(now, m, before, prev))
  }

  /** A jump at place `i` of the sorted months is a rise from its neighbour. */
  lemma JumpAtIsRise(category: CategoryOf, expenses: seq<Txn>, alert: real, v: string, i: nat)
    requires 0 < i < |SortedMonths(expenses, v)|
    ensures var ms := SortedMonths(expenses, v);
            JumpsAt(expenses, v, ms, i, alert) <==>
            ReportsRise(category, expenses, alert, v, ms[i - 1], ms[i], JumpFinding(category, expenses, v, ms[i - 1], ms[i]))
  {
    var ms := SortedMonths(expenses, v);
    NeighboursExactly(expenses, v, ms[i - 1], ms[i]);
    JumpsExactly(Charged(expenses, v, ms[i - 1]), Charged(expenses, v, ms[i]), alert);
  }

  lemma RiseFinding(category: CategoryOf, expenses: seq<Txn>, alert: real, v: string, prev: string, m: string, f: Finding)
    requires ReportsRise(category, expenses, alert, v, prev, m, f)
    ensures f == JumpFinding(category, expenses, v, prev, m)
  {
  }

  lemma JumpHasRise(category: CategoryOf, expenses: seq<Txn>, alert: real, v: string, f: Finding)
    requires IsJump(category, expenses, alert, v, f)
    ensures exists prev, m :: ReportsRise(category, expenses, alert, v, prev, m, f)
  {
    var ms := SortedMonths(expenses, v);
    var i :| 0 < i < |ms| && JumpsAt(expenses, v, ms, i, alert) && f == JumpFinding(category, expenses, v, ms[i - 1], ms[i]);
    JumpAtIsRise(category, expenses, alert, v, i);
  }

  lemma RiseIsJump(category: CategoryOf, expenses: seq<Txn>, alert: real, v: string, prev: string, m: string, f: Finding)
    requires ReportsRise(category, expenses, alert, v, prev, m, f)
    ensures IsJump(category, expenses, alert, v, f)
  {
    var ms := SortedMonths(expenses, v);
    RiseFinding(category, expenses, alert, v, prev, m, f);
    NeighboursExactly(expenses, v, prev, m);
    var i :| 0 < i < |ms| && ms[i - 1] == prev && ms[i] == m;
    JumpAtIsRise(category, expenses, alert, v, i);
  }

  lemma IsJumpExactly(category: CategoryOf, expenses: seq<Txn>, alert: real, v: string, f: Finding)
    ensures IsJump(category, expenses, alert, v, f) <==>
            exists prev, m :: ReportsRise(category, expenses, alert, v, prev, m, f)
  {
    if IsJump(category, expenses, alert, v, f) { JumpHasRise(category, expenses, alert, v, f); }
    if prev, m :| ReportsRise(category, expenses, alert, v, prev, m, f) {
      RiseIsJump(category, expenses, alert, v, prev, m, f);
    }
  }

  /** Exactly the rises between neighbouring months of the vendors given are reported. */
  lemma RisesExactly(category: CategoryOf, expenses: seq<Txn>, alert: real, vendors: seq<string>, f: Finding)
    ensures f in AllJumps(category, expenses, alert, vendors) <==>
            exists v, prev, m :: v in vendors && ReportsRise(category, expenses, alert, v, prev, m, f)
  {
    JumpFindingExact(category, expenses, alert, vendors, f);
    forall v ensures IsJump(category, expenses, alert, v, f) <==>
                     exists prev, m :: ReportsRise(category, expenses, alert, v, prev, m, f)
    {
      IsJumpExactly(category, expenses, alert, v, f);
    }
  }

  /** A rise of a month is reported once for its vendor. */
  lemma {:induction false} JumpsToOnce(category: CategoryOf, expenses: seq<Txn>, v: string, ms: seq<string>, alert: real,
                                      n: nat, f: Finding)
    requires n <= |ms| && NoRepeats(ms)
    ensures multiset(JumpsTo(category, expenses, v, ms, alert, n))[f] <= 1
    ensures f in JumpsTo(category, expenses, v, ms, alert, n) ==>
              f.title == RISE + v && f.detail.Rise? && f.detail.month in ms[..n]
  {
    if n > 0 {
      JumpsToOnce(category, expenses, v, ms, alert, n - 1, f);
      assert ms[..n] == ms[..n - 1] + [ms[n - 1]];
      assert ms[n - 1] !in ms[..n - 1];
    }
  }

  lemma OtherVendor(v: string, w: string)
    requires RISE + v == RISE + w
    ensures v == w
  {
    Parts(RISE, v);
    Parts(RISE, w);
  }

  lemma VendorJumpsOnce(category: CategoryOf, expenses: seq<Txn>, alert: real, v: string, f: Finding)
    ensures multiset(VendorJumps(category, expenses, alert, v))[f] <= 1
    ensures f in VendorJumps(category, expenses, alert, v) ==> f.title == RISE + v
  {
    MonthsOfVendorExactly(expenses, v);
    SortDistinct(MonthsOfVendor(expenses, v));
    JumpsToOnce(category, expenses, v, SortedMonths(expenses, v), alert, |SortedMonths(expenses, v)|, f);
  }

  /** For distinct vendors each rise is reported once. */
  lemma {:induction false} RisesOnce(category: CategoryOf, expenses: seq<Txn>, alert: real, vendors: seq<string>, f: Finding)
    requires NoRepeats(vendors)
    ensures multiset(AllJumps(category, expenses, alert, vendors))[f] <= 1
    ensures f in AllJumps(category, expenses, alert, vendors) ==> exists v :: v in vendors && f.title == RISE + v
  {
    if vendors != [] {
      var init, last := vendors[..|vendors| - 1], vendors[|vendors| - 1];
      ApartLast(vendors);
      RisesOnce(category, expenses, alert, init, f);
      VendorJumpsOnce(category, expenses, alert, last, f);
      if f in AllJumps(category, expenses, alert, init) && f in VendorJumps(category, expenses, alert, last) {
        var v :| v in init && f.title == RISE + v;
        OtherVendor(v, last);
      }
      assert f !in VendorJumps(category, expenses, alert, last) ==> multiset(VendorJumps(category, expenses, alert, last))[f] == 0;
      assert f !in AllJumps(category, expenses, alert, init) ==> multiset(AllJumps(category, expenses, alert, init))[f] == 0;
    }
  }

  // ---- A cost that follows revenue ----

  /** A charge that is the constant share `c` of revenue jumps exactly when revenue
      does: the jump detector does not allow for revenue. */
  lemma ConstantShareJumpsWithRevenue(c: real, prev: real, curr: real, alert: real)
    requires c > 0.0
    ensures Jumps(c * prev, c * curr, alert) <==> Jumps(prev, curr, alert)
  {
    if prev > 0.0 {
      ProductPositive(c, prev);
      var q := (curr - prev) / prev;
      assert q * prev == curr - prev;
      ScaledDifference(c, curr, prev, q);
      Quotient(c * curr - c * prev, c * prev, q);
    } else {
      NotPositive(c, prev);
    }
  }

  lemma ScaledDifference(c: real, curr: real, prev: real, q: real)
    requires q * prev == curr - prev
    ensures c * curr - c * prev == q * (c * prev)
  {
    assert c * curr - c * prev == c * (curr - prev);
    assert c * (q * prev) == q * (c * prev);
  }

  lemma NotPositive(c: real, x: real)
    requires c > 0.0 && x <= 0.0
    ensures c * x <= 0.0
  {
    NonNegativeProduct(c, -x);
    assert c * -x == -(c * x);
  }

  /** In every month the vendor charges the share `c` of that month's revenue. */
  ghost predicate FollowsRevenue(expenses: seq<Txn>, rev: map<string, real>, c: real, v: string) {
    c > 0.0
    && forall m :: m in SortedMonths(expenses, v) ==> m in rev && Charged(expenses, v, m) == c * rev[m]
  }

  lemma ShareOfMonth(expenses: seq<Txn>, rev: map<string, real>, c: real, v: string, k: nat)
    requires FollowsRevenue(expenses, rev, c, v) && k < |SortedMonths(expenses, v)|
    ensures var m := SortedMonths(expenses, v)[k]; m in rev && Charged(expenses, v, m) == c * rev[m]
  {
    assert SortedMonths(expenses, v)[k] in SortedMonths(expenses, v);
  }

  lemma JumpsFromCharges(expenses: seq<Txn>, v: string, ms: seq<string>, i: nat, alert: real, prev: real, curr: real)
    requires 0 < i < |ms| && Charged(expenses, v, ms[i - 1]) == prev && Charged(expenses, v, ms[i]) == curr
    ensures JumpsAt(expenses, v, ms, i, alert) <==> Jumps(prev, curr, alert)
  {
  }

  /** Such a vendor jumps between neighbouring months exactly when revenue does. Whether
      that is reported depends on the vendor's being recurring. */
  lemma FeeJumpsWithRevenue(expenses: seq<Txn>, rev: map<string, real>, c: real, v: string, i: nat, alert: real)
    requires FollowsRevenue(expenses, rev, c, v) && 0 < i < |SortedMonths(expenses, v)|
    ensures var ms := SortedMonths(expenses, v);
            && ms[i - 1] in rev && ms[i] in rev
            && (JumpsAt(expenses, v, ms, i, alert) <==> Jumps(rev[ms[i - 1]], rev[ms[i]], alert))
  {
    var ms := SortedMonths(expenses, v);
    ShareOfMonth(expenses, rev, c, v, i - 1);
    ShareOfMonth(expenses, rev, c, v, i);
    var prev, curr := rev[ms[i - 1]], rev[ms[i]];
    JumpsFromCharges(expenses, v, ms, i, alert, c * prev, c * curr);
    ConstantShareJumpsWithRevenue(c, prev, curr, alert);
  }

  // ---- One month only ----

  predicate OneMonth(txns: seq<Txn>, m: string) {
    forall i :: 0 <= i < |txns| ==> Month(txns[i]) == m
  }

  lemma {:induction false} OneMonthOfVendor(expenses: seq<Txn>, v: string, m: string)
    requires OneMonth(expenses, m)
    ensures |MonthsOfVendor(expenses, v)| <= 1
    ensures forall x :: x in MonthsOfVendor(expenses, v) ==> x == m
  {
    if expenses != [] {
      var before := MonthsOfVendor(expenses[..|expenses| - 1], v);
      OneMonthOfVendor(expenses[..|expenses| - 1], v, m);
      assert before != [] ==> before[0] in before;
    }
  }

  lemma NoPairNoJump(category: CategoryOf, expenses: seq<Txn>, v: string, ms: seq<string>, alert: real)
    requires |ms| <= 1
    ensures JumpsTo(category, expenses, v, ms, alert, |ms|) == []
  {
    if |ms| == 1 { assert JumpsTo(category, expenses, v, ms, alert, 0) == []; }
  }

  /** Within a single month there is no jump. */
  lemma {:induction false} OneMonthHasNoJump(category: CategoryOf, expenses: seq<Txn>, alert: real,
                                            vendors: seq<string>, m: string)
    requires OneMonth(expenses, m)
    ensures AllJumps(category, expenses, alert, vendors) == []
  {
    if vendors != [] {
      OneMonthHasNoJump(category, expenses, alert, vendors[..|vendors| - 1], m);
      var v := vendors[|vendors| - 1];
      OneMonthOfVendor(expenses, v, m);
      NoPairNoJump(category, expenses, v, SortedMonths(expenses, v), alert);
    }
  }

  // ---- find ----

  /** What another detector reports: on what, and the rest of the finding. */
  datatype Report = Report(subject: string, category: string, annual: real, confidence: Confidence, detail: Detail)

  /** The other detectors, and which vendors are recurring: functions of the
      transactions they are given. */
  datatype Detectors = Detectors(
    round: real -> real, spikes: seq<Txn> -> seq<Report>, duplicates: seq<Txn> -> seq<Report>, top: seq<Txn> -> seq<Report>,
    recurring: seq<Txn> -> seq<string>, category: CategoryOf)

  function Titled(title: string): Report -> Finding {
    (r: Report) => Finding(title + r.subject, r.category, r.annual, r.confidence, r.detail)
  }

  /** The impact is rounded to two places. */
  function ByImpact(round: real -> real): Finding -> real {
    (f: Finding) => round(f.annual)
  }

  /** High before medium before low. */
  function ByConfidence(): Finding -> real {
    (f: Finding) => if f.confidence.High? then 2.0 else if f.confidence.Medium? then 1.0 else 0.0
  }

  /** The sort by annual impact, largest first, then by confidence. */
  function Ranked(round: real -> real, fs: seq<Finding>): seq<Finding> {
    SortDesc(ByImpact(round), SortDesc(ByConfidence(), fs))
  }

  function Collected(d: Detectors, txns: seq<Txn>, alert: real): seq<Finding> {
    Map(Titled(SPIKE), d.spikes(txns))
    + AllJumps(d.category, Expenses(txns), alert, d.recurring(Expenses(txns)))
    + Map(Titled(TWICE), d.duplicates(txns))
    + Map(Titled(TOP), d.top(txns))
  }

  /** `find`. */
  function Find(d: Detectors, txns: seq<Txn>, alert: real): seq<Finding> {
    Ranked(d.round, Collected(d, txns, alert))
  }

  /** Ranking keeps every finding. */
  lemma RankedMembers(round: real -> real, fs: seq<Finding>)
    ensures multiset(Ranked(round, fs)) == multiset(fs)
    ensures forall f :: f in Ranked(round, fs) <==> f in fs
  {
    SortDescMembers(ByConfidence(), fs);
    SortDescMembers(ByImpact(round), SortDesc(ByConfidence(), fs));
    forall f ensures f in Ranked(round, fs) <==> f in fs {
      assert f in Ranked(round, fs) <==> f in multiset(Ranked(round, fs));
      assert f in fs <==> f in multiset(fs);
    }
  }

  /** The ranking is by impact first, then by confidence. */
  predicate InRank(size: Finding -> real, a: Finding, b: Finding) {
    size(a) > size(b) || (size(a) == size(b) && ByConfidence()(a) >= ByConfidence()(b))
  }

  predicate RankOrdered(size: Finding -> real, s: seq<Finding>) {
    forall i, j :: 0 <= i < j < |s| ==> InRank(size, s[i], s[j])
  }

  lemma {:induction false} InsertRanked(size: Finding -> real, s: seq<Finding>, x: Finding)
    requires RankOrdered(size, s) && forall i :: 0 <= i < |s| ==> ByConfidence()(s[i]) >= ByConfidence()(x)
    ensures RankOrdered(size, InsertDesc(size, s, x))
    ensures forall y :: y in InsertDesc(size, s, x) ==> y == x || y in s
  {
    if s != [] {
      var init, last := s[..|s| - 1], s[|s| - 1];
      if size(last) < size(x) {
        InsertRanked(size, init, x);
        var r := InsertDesc(size, init, x);
        forall i | 0 <= i < |r| ensures InRank(size, r[i], last) {
          assert r[i] in r;
          if r[i] != x {
            var m :| 0 <= m < |init| && init[m] == r[i];
            assert InRank(size, s[m], s[|s| - 1]);
          }
        }
      } else {
        forall i | 0 <= i < |s| ensures InRank(size, s[i], x) {
          assert i < |s| - 1 ==> InRank(size, s[i], s[|s| - 1]);
        }
      }
    }
  }

  lemma {:induction false} SortRanked(size: Finding -> real, s: seq<Finding>)
    requires Descending(ByConfidence(), s)
    ensures RankOrdered(size, SortDesc(size, s))
    ensures forall y :: y in SortDesc(size, s) ==> y in s
  {
    if s != [] {
      var init, last := s[..|s| - 1], s[|s| - 1];
      SortRanked(size, init);
      var r := SortDesc(size, init);
      forall i | 0 <= i < |r| ensures ByConfidence()(r[i]) >= ByConfidence()(last) {
        assert r[i] in r;
        var m :| 0 <= m < |init| && init[m] == r[i];
        assert ByConfidence()(s[m]) >= ByConfidence()(s[|s| - 1]);
      }
      InsertRanked(size, r, last);
    }
  }

  /** High before medium before low. */
  predicate NotLower(a: Confidence, b: Confidence) {
    a.High? || b.Low? || a == b
  }

  lemma FindIsRanked(d: Detectors, txns: seq<Txn>, alert: real)
    ensures var r := Find(d, txns, alert);
            && multiset(r) == multiset(Collected(d, txns, alert))
            && forall i, j :: 0 <= i < j < |r| ==>
                 || d.round(r[i].annual) > d.round(r[j].annual)
                 || (d.round(r[i].annual) == d.round(r[j].annual) && NotLower(r[i].confidence, r[j].confidence))
  {
    var fs, r := Collected(d, txns, alert), Find(d, txns, alert);
    SortDescSorted(ByConfidence(), fs);
    SortRanked(ByImpact(d.round), SortDesc(ByConfidence(), fs));
    RankedMembers(d.round, fs);
    forall i, j | 0 <= i < j < |r|
      ensures || d.round(r[i].annual) > d.round(r[j].annual)
              || (d.round(r[i].annual) == d.round(r[j].annual) && NotLower(r[i].confidence, r[j].confidence))
    {
      assert InRank(ByImpact(d.round), r[i], r[j]);
    }
  }
}
