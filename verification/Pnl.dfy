/** Monthly profit and loss, and its export. Amounts are integer cents, so that
    rounding to cents changes nothing. */
module Pnl {
  import opened PyText
  import opened StringOrder
  import opened StableSort
  import opened KeyLists
  import opened Sums

  datatype Txn = Txn(date: string, amount: int, direction: string, category: string)

  /** `date[:7]`, or a shorter date as it is. */
  function Month(t: Txn): string {
    MonthOf(t.date)
  }

  /** `category or "Other"`. */
  function Category(t: Txn): string {
    if t.category == "" then "Other" else t.category
  }

  /** What a transaction adds to its category: an expense counts positively,
      anything else negatively. */
  function Signed(t: Txn): int {
    if t.direction == "expense" then t.amount else -t.amount
  }

  predicate IsIncome(t: Txn) {
    t.direction == "income"
  }

  // ---- Sums over the transactions ----

  type Weight = Txn -> int

  /** The sum of a weight over the transactions of month `m`. */
  function MonthSum(w: Weight, txns: seq<Txn>, m: string): int {
    if txns == [] then 0
    else
      var t := txns[|txns| - 1];
      MonthSum(w, txns[..|txns| - 1], m) + if Month(t) == m then w(t) else 0
  }

  /** The sum of a weight over all dated transactions. */
  function DatedSum(w: Weight, txns: seq<Txn>): int {
    if txns == [] then 0
    else
      var t := txns[|txns| - 1];
      DatedSum(w, txns[..|txns| - 1]) + if Month(t) != "" then w(t) else 0
  }

  function Income(): Weight { (t: Txn) => if IsIncome(t) then t.amount else 0 }

  /** Everything that is not income counts as expense. */
  function Expense(): Weight { (t: Txn) => if IsIncome(t) then 0 else t.amount }

  function InCategory(c: string): Weight { (t: Txn) => if Category(t) == c then Signed(t) else 0 }

  function SignedWeight(): Weight { (t: Txn) => Signed(t) }

  /** Amounts whose direction is neither income nor expense. */
  function OtherDirection(): Weight {
    (t: Txn) => if t.direction != "income" && t.direction != "expense" then t.amount else 0
  }

  // ---- The buckets ----

  datatype Bucket = Bucket(income: int, expense: int, net: int, cats: seq<string>, byCategory: map<string, int>) {
    predicate Valid() {
      NoRepeats(cats) && (forall c :: c in cats ==> c in byCategory) && (forall c :: c in byCategory ==> c in cats)
    }
  }

  const EMPTY_BUCKET := Bucket(0, 0, 0, [], map[])

  datatype Report = Report(months: seq<string>, monthly: map<string, Bucket>, income: int, expense: int, net: int)

  /** The categories of month `m`, in order of first appearance. */
  function CategoryOrder(txns: seq<Txn>, m: string): seq<string> {
    if txns == [] then []
    else
      var cs, t := CategoryOrder(txns[..|txns| - 1], m), txns[|txns| - 1];
      if Month(t) == m && Category(t) !in cs then cs + [Category(t)] else cs
  }

  /** The months that occur, in order of first appearance. */
  function MonthOrder(txns: seq<Txn>): seq<string> {
    if txns == [] then []
    else
      var ms, t := MonthOrder(txns[..|txns| - 1]), txns[|txns| - 1];
      if Month(t) != "" && Month(t) !in ms then ms + [Month(t)] else ms
  }

  /** The bucket holds the sums of month `m`, under exactly the categories that occur. */
  ghost predicate IsBucket(b: Bucket, txns: seq<Txn>, m: string) {
    && b.Valid() && b.cats == CategoryOrder(txns, m)
    && b.income == MonthSum(Income(), txns, m) && b.expense == MonthSum(Expense(), txns, m)
    && b.net == b.income - b.expense
    && (forall c :: c in b.byCategory ==> b.byCategory[c] == MonthSum(InCategory(c), txns, m))
    && (forall t :: t in txns && Month(t) == m ==> Category(t) in b.byCategory)
  }

  /** The report holds a bucket for exactly the months that occur, in ascending order,
      and the totals over all dated transactions. */
  ghost predicate IsReport(r: Report, txns: seq<Txn>) {
    && NoRepeats(r.months) && Sorted(Self(), r.months) && r.months == Sort(Self(), MonthOrder(txns))
    && (forall m :: m in r.months <==> m in r.monthly)
    && (forall t :: t in txns && Month(t) != "" ==> Month(t) in r.monthly)
    && (forall m :: m in r.monthly ==> m != "" && IsBucket(r.monthly[m], txns, m))
    && r.income == DatedSum(Income(), txns) && r.expense == DatedSum(Expense(), txns)
    && r.net == r.income - r.expense
  }

  /** A transaction of another month leaves a bucket alone; one of its own month
      is added as the source adds it. */
  function AddTo(b: Bucket, t: Txn): Bucket {
    var income := if IsIncome(t) then b.income + t.amount else b.income;
    var expense := if IsIncome(t) then b.expense else b.expense + t.amount;
    var c := Category(t);
    var known := if c in b.byCategory then b.byCategory[c] else 0;
    Bucket(income, expense, income - expense, if c in b.byCategory then b.cats else b.cats + [c],
           b.byCategory[c := known + Signed(t)])
  }

  lemma {:induction false} AbsentCategory(txns: seq<Txn>, m: string, c: string)
    requires forall t :: t in txns && Month(t) == m ==> Category(t) != c
    ensures MonthSum(InCategory(c), txns, m) == 0
  {
    if txns != [] {
      assert txns[|txns| - 1] in txns;
      AbsentCategory(txns[..|txns| - 1], m, c);
    }
  }

  lemma AppendedSum(w: Weight, txns: seq<Txn>, t: Txn, m: string)
    ensures MonthSum(w, txns + [t], m) == MonthSum(w, txns, m) + if Month(t) == m then w(t) else 0
    ensures DatedSum(w, txns + [t]) == DatedSum(w, txns) + if Month(t) != "" then w(t) else 0
  {
    assert (txns + [t])[..|txns|] == txns;
  }

  lemma OrderStep(txns: seq<Txn>, t: Txn, m: string)
    ensures CategoryOrder(txns + [t], m) ==
            (var cs := CategoryOrder(txns, m); if Month(t) == m && Category(t) !in cs then cs + [Category(t)] else cs)
    ensures MonthOrder(txns + [t]) ==
            (var ms := MonthOrder(txns); if Month(t) != "" && Month(t) !in ms then ms + [Month(t)] else ms)
  {
    assert (txns + [t])[..|txns|] == txns;
  }

  lemma {:induction false} NoCategories(txns: seq<Txn>, m: string)
    requires forall t :: t in txns ==> Month(t) != m
    ensures CategoryOrder(txns, m) == []
  {
    if txns != [] {
      assert txns[|txns| - 1] in txns;
      NoCategories(txns[..|txns| - 1], m);
    }
  }

  lemma OtherMonth(b: Bucket, txns: seq<Txn>, t: Txn, m: string)
    requires IsBucket(b, txns, m) && Month(t) != m
    ensures IsBucket(b, txns + [t], m)
  {
    AppendedSum(Income(), txns, t, m);
    AppendedSum(Expense(), txns, t, m);
    OrderStep(txns, t, m);
    forall c | c in b.byCategory ensures b.byCategory[c] == MonthSum(InCategory(c), txns + [t], m) {
      AppendedSum(InCategory(c), txns, t, m);
    }
  }

  lemma ValidStep(b: Bucket, t: Txn)
    requires b.Valid()
    ensures AddTo(b, t).Valid()
  {
  }

  /** One category after adding a transaction of the month. */
  lemma CategoryStep(b: Bucket, txns: seq<Txn>, t: Txn, m: string, c: string)
    requires c in b.byCategory ==> b.byCategory[c] == MonthSum(InCategory(c), txns, m)
    requires c !in b.byCategory ==> forall u :: u in txns && Month(u) == m ==> Category(u) != c
    requires Month(t) == m && c in AddTo(b, t).byCategory
    ensures AddTo(b, t).byCategory[c] == MonthSum(InCategory(c), txns + [t], m)
  {
    AppendedSum(InCategory(c), txns, t, m);
    if c !in b.byCategory { AbsentCategory(txns, m, c); }
  }

  lemma CategoriesStep(b: Bucket, txns: seq<Txn>, t: Txn, m: string)
    requires IsBucket(b, txns, m) && Month(t) == m
    ensures forall c :: c in AddTo(b, t).byCategory ==>
              AddTo(b, t).byCategory[c] == MonthSum(InCategory(c), txns + [t], m)
  {
    forall c | c in AddTo(b, t).byCategory
      ensures AddTo(b, t).byCategory[c] == MonthSum(InCategory(c), txns + [t], m)
    {
      CategoryStep(b, txns, t, m, c);
    }
  }

  lemma TotalsStep(b: Bucket, txns: seq<Txn>, t: Txn, m: string)
    requires IsBucket(b, txns, m) && Month(t) == m
    ensures var b' := AddTo(b, t);
            && b'.income == MonthSum(Income(), txns + [t], m) && b'.expense == MonthSum(Expense(), txns + [t], m)
            && b'.net == b'.income - b'.expense
  {
    AppendedSum(Income(), txns, t, m);
    AppendedSum(Expense(), txns, t, m);
  }

  lemma OwnMonth(b: Bucket, txns: seq<Txn>, t: Txn, m: string)
    requires IsBucket(b, txns, m) && Month(t) == m
    ensures IsBucket(AddTo(b, t), txns + [t], m)
  {
    ValidStep(b, t);
    OrderStep(txns, t, m);
    TotalsStep(b, txns, t, m);
    CategoriesStep(b, txns, t, m);
  }

  lemma BucketStep(b: Bucket, txns: seq<Txn>, t: Txn, m: string)
    requires IsBucket(b, txns, m)
    ensures IsBucket(if Month(t) == m then AddTo(b, t) else b, txns + [t], m)
  {
    if Month(t) == m { OwnMonth(b, txns, t, m); } else { OtherMonth(b, txns, t, m); }
  }

  lemma {:induction false} EmptyMonth(w: Weight, txns: seq<Txn>, m: string)
    requires forall t :: t in txns ==> Month(t) != m
    ensures MonthSum(w, txns, m) == 0
  {
    if txns != [] {
      assert txns[|txns| - 1] in txns;
      EmptyMonth(w, txns[..|txns| - 1], m);
    }
  }

  lemma NewBucket(txns: seq<Txn>, m: string)
    requires forall t :: t in txns ==> Month(t) != m
    ensures IsBucket(EMPTY_BUCKET, txns, m)
  {
    EmptyMonth(Income(), txns, m);
    EmptyMonth(Expense(), txns, m);
    NoCategories(txns, m);
  }

  // ---- Totals from the buckets ----

  function IncomeOf(monthly: map<string, Bucket>): string -> int {
    (m: string) => if m in monthly then monthly[m].income else 0
  }

  function ExpenseOf(monthly: map<string, Bucket>): string -> int {
    (m: string) => if m in monthly then monthly[m].expense else 0
  }

  function ByMonth(w: Weight, txns: seq<Txn>): string -> int {
    (m: string) => MonthSum(w, txns, m)
  }

  /** Month by month or all at once, the dated transactions sum to the same. */
  lemma {:induction false} MonthsPartition(w: Weight, txns: seq<Txn>, months: seq<string>)
    requires NoRepeats(months) && "" !in months
    requires forall t :: t in txns && Month(t) != "" ==> Month(t) in months
    ensures SumOf(ByMonth(w, txns), months) == DatedSum(w, txns)
  {
    if txns == [] {
      SumZero(ByMonth(w, txns), months);
    } else {
      var before, t := txns[..|txns| - 1], txns[|txns| - 1];
      assert t in txns;
      MonthsPartition(w, before, months);
      SumChange(ByMonth(w, before), ByMonth(w, txns), months, Month(t), w(t));
    }
  }

  // ---- compute_pnl ----

  /** The keys of the dict of buckets, in order of insertion. */
  ghost predicate HasMonths(order: seq<string>, monthly: map<string, Bucket>, txns: seq<Txn>) {
    && NoRepeats(order) && order == MonthOrder(txns) && (forall m :: m in order <==> m in monthly)
    && (forall t :: t in txns && Month(t) != "" ==> Month(t) in monthly)
  }

  ghost predicate AllBuckets(monthly: map<string, Bucket>, txns: seq<Txn>) {
    forall m :: m in monthly ==> m != "" && IsBucket(monthly[m], txns, m)
  }

  ghost predicate IsMonthly(order: seq<string>, monthly: map<string, Bucket>, txns: seq<Txn>) {
    HasMonths(order, monthly, txns) && AllBuckets(monthly, txns)
  }

  function BucketAt(monthly: map<string, Bucket>, m: string): Bucket {
    if m in monthly then monthly[m] else EMPTY_BUCKET
  }

  lemma OtherBuckets(monthly: map<string, Bucket>, txns: seq<Txn>, t: Txn, m: string)
    requires AllBuckets(monthly, txns) && m in monthly && m != Month(t)
    ensures IsBucket(monthly[m], txns + [t], m)
  {
    BucketStep(monthly[m], txns, t, m);
  }

  lemma OwnBucket(order: seq<string>, monthly: map<string, Bucket>, txns: seq<Txn>, t: Txn)
    requires IsMonthly(order, monthly, txns) && Month(t) != ""
    ensures IsBucket(AddTo(BucketAt(monthly, Month(t)), t), txns + [t], Month(t))
  {
    var m := Month(t);
    if m !in monthly { NewBucket(txns, m); }
    BucketStep(BucketAt(monthly, m), txns, t, m);
  }

  lemma KeysStep(order: seq<string>, monthly: map<string, Bucket>, txns: seq<Txn>, t: Txn, b: Bucket)
    requires HasMonths(order, monthly, txns) && Month(t) != ""
    ensures var m := Month(t);
            HasMonths(if m in monthly then order else order + [m], monthly[m := b], txns + [t])
  {
    OrderStep(txns, t, Month(t));
  }

  lemma DatedStep(order: seq<string>, monthly: map<string, Bucket>, txns: seq<Txn>, t: Txn)
    requires IsMonthly(order, monthly, txns) && Month(t) != ""
    ensures var m := Month(t);
            var b := AddTo(BucketAt(monthly, m), t);
            IsMonthly(if m in monthly then order else order + [m], monthly[m := b], txns + [t])
  {
    var m := Month(t);
    var b := AddTo(BucketAt(monthly, m), t);
    OwnBucket(order, monthly, txns, t);
    KeysStep(order, monthly, txns, t, b);
    BucketsStep(monthly, txns, t, b);
  }

  lemma BucketsStep(monthly: map<string, Bucket>, txns: seq<Txn>, t: Txn, b: Bucket)
    requires AllBuckets(monthly, txns) && Month(t) != "" && IsBucket(b, txns + [t], Month(t))
    ensures AllBuckets(monthly[Month(t) := b], txns + [t])
  {
    var monthly' := monthly[Month(t) := b];
    forall k | k in monthly' ensures k != "" && IsBucket(monthly'[k], txns + [t], k) {
      if k != Month(t) { OtherBuckets(monthly, txns, t, k); }
    }
  }

  lemma UndatedStep(order: seq<string>, monthly: map<string, Bucket>, txns: seq<Txn>, t: Txn)
    requires IsMonthly(order, monthly, txns) && Month(t) == ""
    ensures IsMonthly(order, monthly, txns + [t])
  {
    OrderStep(txns, t, "");
    forall k | k in monthly ensures IsBucket(monthly[k], txns + [t], k) {
      OtherBuckets(monthly, txns, t, k);
    }
  }

  lemma TotalsFromBuckets(order: seq<string>, monthly: map<string, Bucket>, txns: seq<Txn>, months: seq<string>)
    requires IsMonthly(order, monthly, txns) && NoRepeats(months) && forall m :: m in months <==> m in order
    ensures SumOf(IncomeOf(monthly), months) == DatedSum(Income(), txns)
    ensures SumOf(ExpenseOf(monthly), months) == DatedSum(Expense(), txns)
  {
    MonthsPartition(Income(), txns, months);
    MonthsPartition(Expense(), txns, months);
    SumSame(ByMonth(Income(), txns), IncomeOf(monthly), months);
    SumSame(ByMonth(Expense(), txns), ExpenseOf(monthly), months);
  }

  method BuildBuckets(txns: seq<Txn>) returns (order: seq<string>, monthly: map<string, Bucket>)
    ensures IsMonthly(order, monthly, txns)
  {
    order, monthly := [], map[];
    for i := 0 to |txns|
      invariant IsMonthly(order, monthly, txns[..i])
    {
      var t := txns[i];
      var m := Month(t);
      assert txns[..i + 1] == txns[..i] + [t];
      if m != "" {
        DatedStep(order, monthly, txns[..i], t);
        var bucket := BucketAt(monthly, m);
        order := if m in monthly then order else order + [m];
        monthly := monthly[m := AddTo(bucket, t)];
      } else {
        UndatedStep(order, monthly, txns[..i], t);
      }
    }
    assert txns[..|txns|] == txns;
  }

  /** `compute_pnl`. */
  method ComputePnl(txns: seq<Txn>) returns (r: Report)
    ensures IsReport(r, txns)
  {
    var order, monthly := BuildBuckets(txns);
    var months := Sort(Self(), order);
    SortDistinct(order);
    var income := SumTotals(IncomeOf(monthly), months);
    var expense := SumTotals(ExpenseOf(monthly), months);
    TotalsFromBuckets(order, monthly, txns, months);
    r := Report(months, monthly, income, expense, income - expense);
  }

  method SumTotals(f: string -> int, keys: seq<string>) returns (s: int)
    ensures s == SumOf(f, keys)
  {
    s := 0;
    for i := 0 to |keys|
      invariant s == SumOf(f, keys[..i])
    {
      assert keys[..i + 1][..i] == keys[..i];
      s := s + f(keys[i]);
    }
    assert keys[..|keys|] == keys;
  }

  // ---- Categories against the month ----

  function CategorySums(txns: seq<Txn>, m: string): string -> int {
    (c: string) => MonthSum(InCategory(c), txns, m)
  }

  /** The categories of a month sum to its signed transactions. */
  lemma {:induction false} CategoriesPartition(txns: seq<Txn>, m: string, cats: seq<string>)
    requires NoRepeats(cats) && forall t :: t in txns && Month(t) == m ==> Category(t) in cats
    ensures SumOf(CategorySums(txns, m), cats) == MonthSum(SignedWeight(), txns, m)
  {
    if txns == [] {
      SumZero(CategorySums(txns, m), cats);
    } else {
      var before, t := txns[..|txns| - 1], txns[|txns| - 1];
      assert t in txns;
      CategoriesPartition(before, m, cats);
      SumChange(CategorySums(before, m), CategorySums(txns, m), cats, Category(t),
                if Month(t) == m then Signed(t) else 0);
    }
  }

  lemma {:induction false} SignedSum(txns: seq<Txn>, m: string)
    ensures MonthSum(SignedWeight(), txns, m)
         == MonthSum(Expense(), txns, m) - MonthSum(Income(), txns, m) - 2 * MonthSum(OtherDirection(), txns, m)
  {
    if txns != [] { SignedSum(txns[..|txns| - 1], m); }
  }

  function BucketCategories(b: Bucket): string -> int {
    (c: string) => if c in b.byCategory then b.byCategory[c] else 0
  }

  /** In every month of a report the categories sum to expense minus income exactly
      when the transactions whose direction is neither sum to nothing; each of those
      is counted as expense but subtracted from its category. */
  lemma CategoriesBalance(r: Report, txns: seq<Txn>, m: string)
    requires IsReport(r, txns) && m in r.monthly
    ensures var b := r.monthly[m];
            var total := SumOf(BucketCategories(b), b.cats);
            && total == b.expense - b.income - 2 * MonthSum(OtherDirection(), txns, m)
            && (total == -b.net <==> MonthSum(OtherDirection(), txns, m) == 0)
  {
    var b := r.monthly[m];
    CategoriesPartition(txns, m, b.cats);
    SumSame(CategorySums(txns, m), BucketCategories(b), b.cats);
    SignedSum(txns, m);
  }

  lemma RemoveAt(b: seq<Txn>, i: nat)
    requires i < |b|
    ensures b == b[..i] + [b[i]] + b[i + 1..]
    ensures multiset(b[..i] + b[i + 1..]) == multiset(b) - multiset{b[i]}
  {
    assert b == b[..i] + [b[i]] + b[i + 1..];
  }

  /** The totals do not depend on the order of the transactions. */
  lemma {:induction false} DatedSumPermutes(w: Weight, a: seq<Txn>, b: seq<Txn>)
    requires multiset(a) == multiset(b)
    ensures DatedSum(w, a) == DatedSum(w, b)
    decreases |a|
  {
    if a == [] {
      assert |multiset(b)| == 0;
    } else {
      var init, t := a[..|a| - 1], a[|a| - 1];
      var i := MovedTo(a, b);
      DatedSumPermutes(w, init, b[..i] + b[i + 1..]);
      DatedSumMove(w, b[..i], t, b[i + 1..]);
    }
  }

  /** Where the last element of `a` is in a permutation `b` of it. */
  lemma MovedTo(a: seq<Txn>, b: seq<Txn>) returns (i: nat)
    requires a != [] && multiset(a) == multiset(b)
    ensures i < |b| && b == b[..i] + [a[|a| - 1]] + b[i + 1..]
    ensures multiset(a[..|a| - 1]) == multiset(b[..i] + b[i + 1..])
  {
    var init, t := a[..|a| - 1], a[|a| - 1];
    assert a == init + [t];
    assert t in multiset(b);
    i :| 0 <= i < |b| && b[i] == t;
    RemoveAt(b, i);
    assert multiset(init) == multiset(a) - multiset{t};
  }

  lemma {:induction false} DatedSumMove(w: Weight, a: seq<Txn>, t: Txn, b: seq<Txn>)
    ensures DatedSum(w, a + [t] + b) == DatedSum(w, a + b) + if Month(t) != "" then w(t) else 0
    decreases |b|
  {
    if b == [] {
      assert a + [t] + b == a + [t] && a + b == a;
      AppendedSum(w, a, t, "");
    } else {
      var init, last := b[..|b| - 1], b[|b| - 1];
      assert a + [t] + b == (a + [t] + init) + [last] && a + b == (a + init) + [last];
      AppendedSum(w, a + [t] + init, last, "");
      AppendedSum(w, a + init, last, "");
      DatedSumMove(w, a, t, init);
    }
  }

  lemma TotalsPermute(r: Report, a: seq<Txn>, r': Report, b: seq<Txn>)
    requires IsReport(r, a) && IsReport(r', b) && multiset(a) == multiset(b)
    ensures r.income == r'.income && r.expense == r'.expense && r.net == r'.net
  {
    DatedSumPermutes(Income(), a, b);
    DatedSumPermutes(Expense(), a, b);
  }

  // ---- What a transaction counts as ----

  /** Income counts as income only, anything else as expense; in its category an expense
      counts for, anything else against; and a blank category is "Other". */
  lemma WeightsExactly(t: Txn, c: string)
    ensures Income()(t) == (if t.direction == "income" then t.amount else 0)
    ensures Expense()(t) == (if t.direction == "income" then 0 else t.amount)
    ensures InCategory(c)(t) ==
            if c == (if t.category == "" then "Other" else t.category)
            then (if t.direction == "expense" then t.amount else -t.amount) else 0
  {
  }
}
