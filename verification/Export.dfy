/** The exported views of a profit-and-loss report: totals by category, and a
    series of months for each category. The two are transposes of each other. */
module Export {
  import opened StringOrder
  import opened StableSort
  import opened DescendingSort
  import opened KeyLists
  import opened Sequences
  import opened Sums
  import opened Pnl

  datatype Item = Item(category: string, amount: int)

  datatype Line = Line(category: string, values: seq<int>)

  /** `by_category` of a month, 0 where the category is absent. */
  function Value(r: Report, m: string, c: string): int {
    if m in r.monthly && c in r.monthly[m].byCategory then r.monthly[m].byCategory[c] else 0
  }

  function InMonth(r: Report, m: string): string -> int {
    (c: string) => Value(r, m, c)
  }

  function OfCategory(r: Report, c: string): string -> int {
    (m: string) => Value(r, m, c)
  }

  /** Reports as `compute_pnl` makes them. */
  ghost predicate Shaped(r: Report) {
    && NoRepeats(r.months) && (forall m :: m in r.months <==> m in r.monthly)
    && forall m :: m in r.monthly ==> r.monthly[m].Valid()
  }

  lemma ReportShaped(r: Report, txns: seq<Txn>)
    requires IsReport(r, txns)
    ensures Shaped(r)
  {
  }

  // ---- The categories of a report ----

  /** `known` with those of the first `n` categories of `cats` that it lacks. */
  function Merge(known: seq<string>, cats: seq<string>, n: nat): seq<string>
    requires n <= |cats|
  {
    if n == 0 then known
    else
      var k := Merge(known, cats, n - 1);
      if cats[n - 1] in k then k else k + [cats[n - 1]]
  }

  /** The categories of the first `n` months, in order of first appearance. */
  function CatsTo(r: Report, n: nat): seq<string>
    requires Shaped(r) && n <= |r.months|
  {
    if n == 0 then []
    else
      var cats := r.monthly[r.months[n - 1]].cats;
      Merge(CatsTo(r, n - 1), cats, |cats|)
  }

  function AllCats(r: Report): seq<string>
    requires Shaped(r)
  {
    CatsTo(r, |r.months|)
  }

  lemma {:induction false} MergeFacts(known: seq<string>, cats: seq<string>, n: nat)
    requires n <= |cats| && NoRepeats(known)
    ensures NoRepeats(Merge(known, cats, n))
    ensures forall c :: c in Merge(known, cats, n) <==> c in known || c in cats[..n]
  {
    if n > 0 {
      MergeFacts(known, cats, n - 1);
      assert cats[..n] == cats[..n - 1] + [cats[n - 1]];
    }
  }

  lemma {:induction false} CatsFacts(r: Report, n: nat)
    requires Shaped(r) && n <= |r.months|
    ensures NoRepeats(CatsTo(r, n))
    ensures forall c :: c in CatsTo(r, n) <==> exists i :: 0 <= i < n && c in r.monthly[r.months[i]].byCategory
  {
    if n > 0 {
      CatsFacts(r, n - 1);
      var b := r.monthly[r.months[n - 1]];
      MergeFacts(CatsTo(r, n - 1), b.cats, |b.cats|);
      assert b.cats[..|b.cats|] == b.cats;
    }
  }

  // ---- Totals by category ----

  /** What category `c` sums to over the first `n` months. */
  function CatTotalTo(r: Report, c: string, n: nat): int
    requires n <= |r.months|
  {
    SumOf(OfCategory(r, c), r.months[..n])
  }

  function CatTotal(r: Report): string -> int {
    (c: string) => SumOf(OfCategory(r, c), r.months)
  }

  function ItemOf(r: Report): string -> Item {
    (c: string) => Item(c, CatTotal(r)(c))
  }

  function Amount(): Item -> real {
    (i: Item) => i.amount as real
  }

  function RankedItems(r: Report): seq<Item>
    requires Shaped(r)
  {
    SortDesc(Amount(), Map(ItemOf(r), AllCats(r)))
  }

  /** The dict of totals after `n` months and `k` categories of the next. */
  ghost predicate Accumulated(r: Report, totals: map<string, int>, order: seq<string>, n: nat, k: nat)
    requires Shaped(r) && n < |r.months| && k <= |r.monthly[r.months[n]].cats|
  {
    var cats := r.monthly[r.months[n]].cats;
    && order == Merge(CatsTo(r, n), cats, k)
    && (forall c :: c in order <==> c in totals)
    && TotalsAre(SumTo(r, n), InMonth(r, r.months[n]), cats, k, totals)
  }

  /** Each total is a value, with an addition for the first `k` categories. */
  ghost predicate TotalsAre(value: string -> int, add: string -> int, cats: seq<string>, k: nat, totals: map<string, int>)
    requires k <= |cats|
  {
    forall c :: c in totals ==> totals[c] == value(c) + if c in cats[..k] then add(c) else 0
  }

  lemma TotalsNext(value: string -> int, add: string -> int, cats: seq<string>, k: nat, totals: map<string, int>)
    requires k < |cats| && NoRepeats(cats) && TotalsAre(value, add, cats, k, totals)
    requires cats[k] !in totals ==> value(cats[k]) == 0
    ensures var before := if cats[k] in totals then totals[cats[k]] else 0;
            TotalsAre(value, add, cats, k + 1, totals[cats[k] := before + add(cats[k])])
  {
    assert cats[..k + 1] == cats[..k] + [cats[k]];
  }

  lemma AbsentTotal(r: Report, c: string, n: nat)
    requires Shaped(r) && n <= |r.months| && c !in CatsTo(r, n)
    ensures CatTotalTo(r, c, n) == 0
  {
    CatsFacts(r, n);
    forall m | m in r.months[..n] ensures Value(r, m, c) == 0 {
      var i :| 0 <= i < n && r.months[i] == m;
    }
    SumZero(OfCategory(r, c), r.months[..n]);
  }

  /** The dict of totals after `n` months. */
  ghost predicate AfterMonths(r: Report, totals: map<string, int>, order: seq<string>, n: nat)
    requires Shaped(r) && n <= |r.months|
  {
    && order == CatsTo(r, n)
    && (forall c :: c in order <==> c in totals)
    && forall c :: c in totals ==> totals[c] == CatTotalTo(r, c, n)
  }

  method ExpenseByCategory(r: Report) returns (items: seq<Item>)
    requires Shaped(r)
    ensures items == RankedItems(r)
  {
    var totals: map<string, int>, order: seq<string> := map[], [];
    var n := 0;
    while n < |r.months|
      invariant 0 <= n <= |r.months| && AfterMonths(r, totals, order, n)
    {
      totals, order := AddMonth(r, totals, order, n);
      n := n + 1;
    }
    AllMonths(r, totals, order);
    items := SortDesc(Amount(), Map(ItemIn(totals), order));
  }

  function ItemIn(totals: map<string, int>): string -> Item {
    (c: string) => Item(c, if c in totals then totals[c] else 0)
  }

  lemma AllMonths(r: Report, totals: map<string, int>, order: seq<string>)
    requires Shaped(r) && AfterMonths(r, totals, order, |r.months|)
    ensures Map(ItemIn(totals), order) == Map(ItemOf(r), AllCats(r))
  {
    assert r.months[..|r.months|] == r.months;
    forall i | 0 <= i < |order| ensures ItemIn(totals)(order[i]) == ItemOf(r)(order[i]) {
      var c := order[i];
      assert c in order;
      assert totals[c] == CatTotalTo(r, c, |r.months|) == CatTotal(r)(c);
    }
  }

  method AddMonth(r: Report, totals: map<string, int>, order: seq<string>, n: nat)
    returns (totals': map<string, int>, order': seq<string>)
    requires Shaped(r) && n < |r.months| && AfterMonths(r, totals, order, n)
    ensures AfterMonths(r, totals', order', n + 1)
  {
    var cats := r.monthly[r.months[n]].cats;
    totals', order' := totals, order;
    var k := 0;
    while k < |cats|
      invariant 0 <= k <= |cats| && Accumulated(r, totals', order', n, k)
    {
      totals', order' := AddCategory(r, totals', order', n, k);
      k := k + 1;
    }
    MonthDone(r, totals', order', n);
  }

  /** The keys after one more category. */
  lemma KeysAfter(r: Report, totals: map<string, int>, order: seq<string>, n: nat, k: nat, x: int)
    requires Shaped(r) && n < |r.months| && k < |r.monthly[r.months[n]].cats|
    requires Accumulated(r, totals, order, n, k)
    ensures var cats := r.monthly[r.months[n]].cats;
            var order' := if cats[k] in order then order else order + [cats[k]];
            && order' == Merge(CatsTo(r, n), cats, k + 1)
            && forall c :: c in order' <==> c in totals[cats[k] := x]
  {
  }

  lemma NewCategory(r: Report, totals: map<string, int>, order: seq<string>, n: nat, k: nat)
    requires Shaped(r) && n < |r.months| && k < |r.monthly[r.months[n]].cats|
    requires Accumulated(r, totals, order, n, k)
    ensures var c := r.monthly[r.months[n]].cats[k]; c !in totals ==> SumTo(r, n)(c) == 0
  {
    var cats := r.monthly[r.months[n]].cats;
    if cats[k] !in totals {
      CatsFacts(r, n);
      MergeFacts(CatsTo(r, n), cats, k);
      AbsentTotal(r, cats[k], n);
    }
  }

  lemma TotalsAdded(r: Report, totals: map<string, int>, order: seq<string>, n: nat, k: nat)
    requires Shaped(r) && n < |r.months| && k < |r.monthly[r.months[n]].cats|
    requires Accumulated(r, totals, order, n, k)
    ensures var m := r.months[n];
            var c := r.monthly[m].cats[k];
            var before := if c in totals then totals[c] else 0;
            TotalsAre(SumTo(r, n), InMonth(r, m), r.monthly[m].cats, k + 1, totals[c := before + r.monthly[m].byCategory[c]])
  {
    var m := r.months[n];
    NewCategory(r, totals, order, n, k);
    assert InMonth(r, m)(r.monthly[m].cats[k]) == r.monthly[m].byCategory[r.monthly[m].cats[k]];
    TotalsNext(SumTo(r, n), InMonth(r, m), r.monthly[m].cats, k, totals);
  }

  lemma CategoryAdded(r: Report, totals: map<string, int>, order: seq<string>, n: nat, k: nat)
    requires Shaped(r) && n < |r.months| && k < |r.monthly[r.months[n]].cats|
    requires Accumulated(r, totals, order, n, k)
    ensures var c := r.monthly[r.months[n]].cats[k];
            var before := if c in totals then totals[c] else 0;
            Accumulated(r, totals[c := before + r.monthly[r.months[n]].byCategory[c]],
                        if c in order then order else order + [c], n, k + 1)
  {
    var bucket := r.monthly[r.months[n]];
    var c := bucket.cats[k];
    KeysAfter(r, totals, order, n, k, (if c in totals then totals[c] else 0) + bucket.byCategory[c]);
    TotalsAdded(r, totals, order, n, k);
  }

  method AddCategory(r: Report, totals: map<string, int>, order: seq<string>, n: nat, k: nat)
    returns (totals': map<string, int>, order': seq<string>)
    requires Shaped(r) && n < |r.months| && k < |r.monthly[r.months[n]].cats|
    requires Accumulated(r, totals, order, n, k)
    ensures Accumulated(r, totals', order', n, k + 1)
  {
    var bucket := r.monthly[r.months[n]];
    var c := bucket.cats[k];
    order' := if c in order then order else order + [c];
    totals' := totals[c := (if c in totals then totals[c] else 0) + bucket.byCategory[c]];
    CategoryAdded(r, totals, order, n, k);
  }

  lemma MonthDone(r: Report, totals: map<string, int>, order: seq<string>, n: nat)
    requires Shaped(r) && n < |r.months|
    requires Accumulated(r, totals, order, n, |r.monthly[r.months[n]].cats|)
    ensures order == CatsTo(r, n + 1)
    ensures forall c :: c in totals ==> totals[c] == CatTotalTo(r, c, n + 1)
  {
    var cats := r.monthly[r.months[n]].cats;
    assert cats[..|cats|] == cats;
    forall c | c in totals ensures totals[c] == CatTotalTo(r, c, n + 1) {
      SumStep(OfCategory(r, c), r.months, n);
    }
  }

  // ---- Series by category ----

  /** The category has a month above zero. */
  predicate HasPositive(r: Report, c: string) {
    exists i :: 0 <= i < |r.months| && Value(r, r.months[i], c) > 0
  }

  function LineOf(r: Report): string -> Line {
    (c: string) => Line(c, seq(|r.months|, i requires 0 <= i < |r.months| => Value(r, r.months[i], c)))
  }

  /** The categories among the first `n` of `cats` that have a month above zero. */
  function Positive(r: Report, cats: seq<string>, n: nat): seq<string>
    requires n <= |cats|
  {
    if n == 0 then []
    else Positive(r, cats, n - 1) + if HasPositive(r, cats[n - 1]) then [cats[n - 1]] else []
  }

  function LineName(): Line -> string {
    (l: Line) => l.category
  }

  /** The months of each category, by category. */
  type ByCategory = map<string, map<string, int>>

  /** Month `m` is among the first `n`, or it is the next and `c` among its first `k` categories. */
  predicate Entered(r: Report, n: nat, k: nat, m: string, c: string)
    requires Shaped(r) && n < |r.months| && k <= |r.monthly[r.months[n]].cats|
  {
    || (m in r.months[..n] && c in r.monthly[m].byCategory)
    || (m == r.months[n] && c in r.monthly[m].cats[..k])
  }

  /** The transposed dict after `n` months and `k` categories of the next. */
  ghost predicate Transposed(r: Report, rows: ByCategory, order: seq<string>, n: nat, k: nat)
    requires Shaped(r) && n < |r.months| && k <= |r.monthly[r.months[n]].cats|
  {
    && order == Merge(CatsTo(r, n), r.monthly[r.months[n]].cats, k)
    && (forall c :: c in order <==> c in rows)
    && (forall c, m :: c in rows && m in rows[c] ==> Entered(r, n, k, m, c) && rows[c][m] == Value(r, m, c))
    && (forall c, m :: Entered(r, n, k, m, c) ==> c in rows && m in rows[c])
  }

  /** The transposed dict after `n` months. */
  ghost predicate Rows(r: Report, rows: ByCategory, order: seq<string>, n: nat)
    requires Shaped(r) && n <= |r.months|
  {
    && order == CatsTo(r, n) && (forall c :: c in order <==> c in rows)
    && (forall c, m :: c in rows && m in rows[c] ==>
          m in r.months[..n] && c in r.monthly[m].byCategory && rows[c][m] == Value(r, m, c))
    && (forall c, m :: m in r.months[..n] && c in r.monthly[m].byCategory ==> c in rows && m in rows[c])
  }

  lemma EnteredNext(r: Report, n: nat, k: nat, m: string, c: string)
    requires Shaped(r) && n < |r.months| && k < |r.monthly[r.months[n]].cats|
    ensures Entered(r, n, k + 1, m, c) <==>
            Entered(r, n, k, m, c) || (m == r.months[n] && c == r.monthly[m].cats[k])
  {
    var cats := r.monthly[r.months[n]].cats;
    assert cats[..k + 1] == cats[..k] + [cats[k]];
  }

  lemma EnteredAll(r: Report, n: nat, m: string, c: string)
    requires Shaped(r) && n < |r.months|
    ensures Entered(r, n, |r.monthly[r.months[n]].cats|, m, c) <==>
            m in r.months[..n + 1] && c in r.monthly[m].byCategory
  {
    var cats := r.monthly[r.months[n]].cats;
    assert cats[..|cats|] == cats && r.months[..n + 1] == r.months[..n] + [r.months[n]];
  }

  lemma EnteredNone(r: Report, n: nat, m: string, c: string)
    requires Shaped(r) && n < |r.months|
    ensures Entered(r, n, 0, m, c) <==> m in r.months[..n] && c in r.monthly[m].byCategory
  {
  }

  lemma MonthBegun(r: Report, rows: ByCategory, order: seq<string>, n: nat)
    requires Shaped(r) && n < |r.months| && Rows(r, rows, order, n)
    ensures Transposed(r, rows, order, n, 0)
  {
    forall c, m | c in rows && m in rows[c] ensures Entered(r, n, 0, m, c) && rows[c][m] == Value(r, m, c) {
      EnteredNone(r, n, m, c);
    }
    forall c, m | Entered(r, n, 0, m, c) ensures c in rows && m in rows[c] {
      EnteredNone(r, n, m, c);
    }
  }

  lemma MonthEnded(r: Report, rows: ByCategory, order: seq<string>, n: nat)
    requires Shaped(r) && n < |r.months|
    requires Transposed(r, rows, order, n, |r.monthly[r.months[n]].cats|)
    ensures Rows(r, rows, order, n + 1)
  {
    var k := |r.monthly[r.months[n]].cats|;
    forall c, m | c in rows && m in rows[c]
      ensures m in r.months[..n + 1] && c in r.monthly[m].byCategory && rows[c][m] == Value(r, m, c)
    {
      EnteredAll(r, n, m, c);
      assert Entered(r, n, k, m, c);
    }
    forall c, m | m in r.months[..n + 1] && c in r.monthly[m].byCategory ensures c in rows && m in rows[c] {
      EnteredAll(r, n, m, c);
    }
  }

  /** Entering one value. */
  lemma EntryStep(r: Report, rows: ByCategory, order: seq<string>, n: nat, k: nat)
    requires Shaped(r) && n < |r.months| && k < |r.monthly[r.months[n]].cats|
    requires Transposed(r, rows, order, n, k)
    ensures var m, c := r.months[n], r.monthly[r.months[n]].cats[k];
            var row := if c in rows then rows[c] else map[];
            Transposed(r, rows[c := row[m := r.monthly[m].byCategory[c]]],
                       if c in order then order else order + [c], n, k + 1)
  {
    var m, c := r.months[n], r.monthly[r.months[n]].cats[k];
    var row := if c in rows then rows[c] else map[];
    var rows' := rows[c := row[m := r.monthly[m].byCategory[c]]];
    var next := k + 1;
    forall x, y | x in rows' && y in rows'[x] ensures Entered(r, n, next, y, x) && rows'[x][y] == Value(r, y, x) {
      EnteredNext(r, n, k, y, x);
    }
    forall x, y | Entered(r, n, next, y, x) ensures x in rows' && y in rows'[x] {
      EnteredNext(r, n, k, y, x);
    }
    assert Transposed(r, rows', if c in order then order else order + [c], n, next);
  }

  /** One entry of the report goes to its place in the transposed dict. */
  method TransposeEntry(r: Report, rows: ByCategory, order: seq<string>, n: nat, k: nat)
    returns (rows': ByCategory, order': seq<string>)
    requires Shaped(r) && n < |r.months| && k < |r.monthly[r.months[n]].cats|
    requires Transposed(r, rows, order, n, k)
    ensures Transposed(r, rows', order', n, k + 1)
  {
    var m := r.months[n];
    var c := r.monthly[m].cats[k];
    order' := if c in order then order else order + [c];
    var row := if c in rows then rows[c] else map[];
    rows' := rows[c := row[m := r.monthly[m].byCategory[c]]];
    EntryStep(r, rows, order, n, k);
  }

  method TransposeMonth(r: Report, rows: ByCategory, order: seq<string>, n: nat)
    returns (rows': ByCategory, order': seq<string>)
    requires Shaped(r) && n < |r.months| && Rows(r, rows, order, n)
    ensures Rows(r, rows', order', n + 1)
  {
    var cats := r.monthly[r.months[n]].cats;
    rows', order' := rows, order;
    MonthBegun(r, rows, order, n);
    for k := 0 to |cats|
      invariant Transposed(r, rows', order', n, k)
    {
      rows', order' := TransposeEntry(r, rows', order', n, k);
    }
    MonthEnded(r, rows', order', n);
  }

  /** The row of a category holds its values, and 0 stands for the months it lacks. */
  lemma RowIsLine(r: Report, rows: ByCategory, order: seq<string>, c: string)
    requires Shaped(r) && Rows(r, rows, order, |r.months|) && c in rows
    ensures forall i :: 0 <= i < |r.months| ==>
              LineOf(r)(c).values[i] == if r.months[i] in rows[c] then rows[c][r.months[i]] else 0
    ensures HasPositive(r, c) <==> exists m :: m in rows[c] && rows[c][m] > 0
  {
    assert r.months[..|r.months|] == r.months;
    if m :| m in rows[c] && rows[c][m] > 0 {
      assert m in r.months;
      var i :| 0 <= i < |r.months| && r.months[i] == m;
      assert Value(r, r.months[i], c) > 0;
    }
    if HasPositive(r, c) {
      var i :| 0 <= i < |r.months| && Value(r, r.months[i], c) > 0;
      assert r.months[i] in r.months;
    }
  }

  /** `_category_monthly_series`. */
  method CategoryMonthlySeries(r: Report) returns (lines: seq<Line>)
    requires Shaped(r)
    ensures lines == Sort(LineName(), Map(LineOf(r), Positive(r, AllCats(r), |AllCats(r)|)))
  {
    var rows: ByCategory, order: seq<string> := map[], [];
    for n := 0 to |r.months|
      invariant Rows(r, rows, order, n)
    {
      rows, order := TransposeMonth(r, rows, order, n);
    }
    lines := LinesOf(r, rows, order);
    lines := Sort(LineName(), lines);
  }

  method LinesOf(r: Report, rows: ByCategory, order: seq<string>) returns (lines: seq<Line>)
    requires Shaped(r) && Rows(r, rows, order, |r.months|)
    ensures lines == Map(LineOf(r), Positive(r, order, |order|))
  {
    lines := [];
    for n := 0 to |order|
      invariant lines == Map(LineOf(r), Positive(r, order, n))
    {
      var c := order[n];
      assert c in order;
      var more := LineIfPositive(r, rows, order, c);
      NextPositive(r, order, n);
      lines := lines + more;
    }
  }

  lemma NextPositive(r: Report, cats: seq<string>, n: nat)
    requires n < |cats|
    ensures Map(LineOf(r), Positive(r, cats, n + 1))
         == Map(LineOf(r), Positive(r, cats, n)) + if HasPositive(r, cats[n]) then [LineOf(r)(cats[n])] else []
  {
    MapAppend(LineOf(r), Positive(r, cats, n), cats[n]);
    assert Positive(r, cats, n) + [] == Positive(r, cats, n);
    assert Map(LineOf(r), Positive(r, cats, n)) + [] == Map(LineOf(r), Positive(r, cats, n));
  }

  method LineIfPositive(r: Report, rows: ByCategory, ghost order: seq<string>, c: string) returns (lines: seq<Line>)
    requires Shaped(r) && Rows(r, rows, order, |r.months|) && c in rows
    ensures lines == if HasPositive(r, c) then [LineOf(r)(c)] else []
  {
    RowIsLine(r, rows, order, c);
    lines := [];
    if exists m :: m in rows[c] && rows[c][m] > 0 {
      var values := seq(|r.months|, i requires 0 <= i < |r.months| =>
                                      if r.months[i] in rows[c] then rows[c][r.months[i]] else 0);
      assert values == LineOf(r)(c).values;
      lines := [Line(c, values)];
    }
  }

  function SumValues(values: seq<int>): int {
    if values == [] then 0 else SumValues(values[..|values| - 1]) + values[|values| - 1]
  }

  lemma {:induction false} ValuesSum(r: Report, c: string, n: nat)
    requires n <= |r.months|
    ensures SumValues(LineOf(r)(c).values[..n]) == CatTotalTo(r, c, n)
  {
    if n > 0 {
      ValuesSum(r, c, n - 1);
      assert LineOf(r)(c).values[..n][..n - 1] == LineOf(r)(c).values[..n - 1];
      SumStep(OfCategory(r, c), r.months, n - 1);
    }
  }

  lemma {:induction false} PositiveMember(r: Report, cats: seq<string>, n: nat, c: string)
    requires n <= |cats|
    ensures c in Positive(r, cats, n) <==> c in cats[..n] && HasPositive(r, c)
  {
    if n > 0 {
      PositiveMember(r, cats, n - 1, c);
      assert cats[..n] == cats[..n - 1] + [cats[n - 1]];
    }
  }

  /** The total and the series of a category sum to the same figure, and a category
      has a series exactly when it has a month above zero. */
  lemma SeriesSumToTotal(r: Report, c: string)
    requires Shaped(r)
    ensures SumValues(LineOf(r)(c).values) == ItemOf(r)(c).amount
    ensures c in Positive(r, AllCats(r), |AllCats(r)|) <==> HasPositive(r, c)
  {
    ValuesSum(r, c, |r.months|);
    assert r.months[..|r.months|] == r.months && LineOf(r)(c).values[..|r.months|] == LineOf(r)(c).values;
    PositiveMember(r, AllCats(r), |AllCats(r)|, c);
    assert ItemOf(r)(c).amount == CatTotal(r)(c) == SumOf(OfCategory(r, c), r.months);
    CatsFacts(r, |r.months|);
    assert AllCats(r)[..|AllCats(r)|] == AllCats(r);
    if HasPositive(r, c) {
      var i :| 0 <= i < |r.months| && Value(r, r.months[i], c) > 0;
      assert c in r.monthly[r.months[i]].byCategory;
    }
  }

  // ---- The grand total ----

  function MonthCategories(r: Report): string -> int {
    (m: string) => if m in r.monthly then SumOf(InMonth(r, m), r.monthly[m].cats) else 0
  }

  /** The sum over `cats` of the first `n` months. */
  function SumTo(r: Report, n: nat): string -> int
    requires n <= |r.months|
  {
    (c: string) => CatTotalTo(r, c, n)
  }

  /** Summing category by category or month by month gives the same. */
  lemma {:induction false} DoubleSum(r: Report, n: nat)
    requires Shaped(r) && n <= |r.months|
    ensures SumOf(SumTo(r, n), AllCats(r)) == SumOf(MonthCategories(r), r.months[..n])
  {
    if n == 0 {
      SumZero(SumTo(r, 0), AllCats(r));
    } else {
      DoubleSum(r, n - 1);
      var m := r.months[n - 1];
      forall c ensures SumTo(r, n)(c) == SumTo(r, n - 1)(c) + InMonth(r, m)(c) {
        SumStep(OfCategory(r, c), r.months, n - 1);
      }
      SumPlus(SumTo(r, n - 1), InMonth(r, m), SumTo(r, n), AllCats(r));
      CatsFacts(r, |r.months|);
      SumOverPart(InMonth(r, m), AllCats(r), r.monthly[m].cats);
      SumStep(MonthCategories(r), r.months, n - 1);
    }
  }

  function OtherOf(txns: seq<Txn>): string -> int {
    ByMonth(OtherDirection(), txns)
  }

  /** Over the first `n` months the categories sum to expense minus income, less twice
      the amounts whose direction is neither. */
  lemma {:induction false} CategoriesByMonth(r: Report, txns: seq<Txn>, n: nat)
    requires IsReport(r, txns) && n <= |r.months|
    ensures SumOf(MonthCategories(r), r.months[..n])
         == SumOf(ExpenseOf(r.monthly), r.months[..n]) - SumOf(IncomeOf(r.monthly), r.months[..n])
            - 2 * SumOf(OtherOf(txns), r.months[..n])
  {
    if n > 0 {
      CategoriesByMonth(r, txns, n - 1);
      var m := r.months[n - 1];
      SumStep(MonthCategories(r), r.months, n - 1);
      SumStep(ExpenseOf(r.monthly), r.months, n - 1);
      SumStep(IncomeOf(r.monthly), r.months, n - 1);
      SumStep(OtherOf(txns), r.months, n - 1);
      MonthBalance(r, txns, m);
    }
  }

  lemma MonthBalance(r: Report, txns: seq<Txn>, m: string)
    requires IsReport(r, txns) && m in r.monthly
    ensures MonthCategories(r)(m) == ExpenseOf(r.monthly)(m) - IncomeOf(r.monthly)(m) - 2 * OtherOf(txns)(m)
  {
    CategoriesBalance(r, txns, m);
    SumSame(InMonth(r, m), BucketCategories(r.monthly[m]), r.monthly[m].cats);
  }

  lemma ReportTotals(r: Report, txns: seq<Txn>)
    requires IsReport(r, txns)
    ensures SumOf(IncomeOf(r.monthly), r.months) == r.income
    ensures SumOf(ExpenseOf(r.monthly), r.months) == r.expense
  {
    MonthsPartition(Income(), txns, r.months);
    MonthsPartition(Expense(), txns, r.months);
    SumSame(ByMonth(Income(), txns), IncomeOf(r.monthly), r.months);
    SumSame(ByMonth(Expense(), txns), ExpenseOf(r.monthly), r.months);
  }

  /** The exported totals by category sum to the net with its sign turned, less twice
      the dated amounts whose direction is neither income nor expense. */
  lemma CategoryTotalsSumToNet(r: Report, txns: seq<Txn>)
    requires IsReport(r, txns)
    ensures Shaped(r) && SumOf(CatTotal(r), AllCats(r)) == -r.net - 2 * DatedSum(OtherDirection(), txns)
  {
    DoubleSum(r, |r.months|);
    CategoriesByMonth(r, txns, |r.months|);
    assert r.months[..|r.months|] == r.months;
    SumSame(SumTo(r, |r.months|), CatTotal(r), AllCats(r));
    ReportTotals(r, txns);
    MonthsPartition(OtherDirection(), txns, r.months);
  }

  // ---- The nets by month ----

  datatype MonthNet = MonthNet(month: string, net: int)

  function NetOf(r: Report): string -> MonthNet {
    (m: string) => MonthNet(m, if m in r.monthly then r.monthly[m].net else 0)
  }

  /** `_net_by_month`. */
  function NetByMonth(r: Report): seq<MonthNet> {
    Map(NetOf(r), r.months)
  }

  function NetSum(nets: seq<MonthNet>): int {
    if nets == [] then 0 else NetSum(nets[..|nets| - 1]) + nets[|nets| - 1].net
  }

  lemma NetNext(r: Report, txns: seq<Txn>, n: nat)
    requires IsReport(r, txns) && n < |r.months|
    ensures NetSum(NetByMonth(r)[..n + 1]) == NetSum(NetByMonth(r)[..n])
            + IncomeOf(r.monthly)(r.months[n]) - ExpenseOf(r.monthly)(r.months[n])
  {
    NetOfMonth(r, txns, r.months[n]);
    NetSumNext(NetByMonth(r), n);
  }

  lemma NetOfMonth(r: Report, txns: seq<Txn>, m: string)
    requires IsReport(r, txns) && m in r.months
    ensures NetOf(r)(m).net == IncomeOf(r.monthly)(m) - ExpenseOf(r.monthly)(m)
  {
    assert IsBucket(r.monthly[m], txns, m);
  }

  lemma NetSumNext(nets: seq<MonthNet>, n: nat)
    requires n < |nets|
    ensures NetSum(nets[..n + 1]) == NetSum(nets[..n]) + nets[n].net
  {
    assert nets[..n + 1][..n] == nets[..n];
  }

  lemma {:induction false} NetsTo(r: Report, txns: seq<Txn>, n: nat)
    requires IsReport(r, txns) && n <= |r.months|
    ensures NetSum(NetByMonth(r)[..n])
         == SumOf(IncomeOf(r.monthly), r.months[..n]) - SumOf(ExpenseOf(r.monthly), r.months[..n])
  {
    if n > 0 {
      NetsTo(r, txns, n - 1);
      NetNext(r, txns, n - 1);
      SumStep(IncomeOf(r.monthly), r.months, n - 1);
      SumStep(ExpenseOf(r.monthly), r.months, n - 1);
    }
  }

  /** The exported nets are those of the months, in ascending order, and sum to the
      total net of the report. */
  lemma NetsSumToNet(r: Report, txns: seq<Txn>)
    requires IsReport(r, txns)
    ensures NetSum(NetByMonth(r)) == r.net && |NetByMonth(r)| == |r.months|
    ensures Sorted(NetMonth(), NetByMonth(r))
  {
    NetsTo(r, txns, |r.months|);
    ReportTotals(r, txns);
    assert NetByMonth(r)[..|r.months|] == NetByMonth(r) && r.months[..|r.months|] == r.months;
    NetsSorted(r);
  }

  function NetMonth(): MonthNet -> string {
    (n: MonthNet) => n.month
  }

  lemma NetsSorted(r: Report)
    requires Sorted(Self(), r.months)
    ensures Sorted(NetMonth(), NetByMonth(r))
  {
    var nets := NetByMonth(r);
    forall i, j | 0 <= i < j < |nets| ensures !Less(NetMonth()(nets[j]), NetMonth()(nets[i])) {
      assert !Less(Self()(r.months[j]), Self()(r.months[i]));
    }
  }

  lemma {:induction false} NonPositiveTotal(r: Report, c: string, n: nat)
    requires n <= |r.months| && !HasPositive(r, c)
    ensures CatTotalTo(r, c, n) <= 0
  {
    if n > 0 {
      NonPositiveTotal(r, c, n - 1);
      SumStep(OfCategory(r, c), r.months, n - 1);
    }
  }

  /** The categories among the first `n` of `cats` without a month above zero. */
  function Dropped(r: Report, cats: seq<string>, n: nat): seq<string>
    requires n <= |cats|
  {
    if n == 0 then []
    else Dropped(r, cats, n - 1) + if HasPositive(r, cats[n - 1]) then [] else [cats[n - 1]]
  }

  lemma {:induction false} DroppedMember(r: Report, cats: seq<string>, n: nat, c: string)
    requires n <= |cats|
    ensures c in Dropped(r, cats, n) <==> c in cats[..n] && !HasPositive(r, c)
  {
    if n > 0 {
      DroppedMember(r, cats, n - 1, c);
      assert cats[..n] == cats[..n - 1] + [cats[n - 1]];
    }
  }

  lemma SumSnoc(f: string -> int, keys: seq<string>, k: string)
    ensures SumOf(f, keys + [k]) == SumOf(f, keys) + f(k) && SumOf(f, keys + []) == SumOf(f, keys)
  {
    assert (keys + [k])[..|keys|] == keys && keys + [] == keys;
  }

  lemma {:induction false} KeptSum(f: string -> int, r: Report, cats: seq<string>, n: nat)
    requires n <= |cats|
    ensures SumOf(f, Positive(r, cats, n)) == SumOf(KeptPart(f, r), cats[..n])
  {
    if n > 0 {
      KeptSum(f, r, cats, n - 1);
      SumSnoc(f, Positive(r, cats, n - 1), cats[n - 1]);
      SumStep(KeptPart(f, r), cats, n - 1);
    }
  }

  lemma {:induction false} DroppedSum(f: string -> int, r: Report, cats: seq<string>, n: nat)
    requires n <= |cats|
    ensures SumOf(f, Dropped(r, cats, n)) == SumOf(DroppedPart(f, r), cats[..n])
  {
    if n > 0 {
      DroppedSum(f, r, cats, n - 1);
      SumSnoc(f, Dropped(r, cats, n - 1), cats[n - 1]);
      SumStep(DroppedPart(f, r), cats, n - 1);
    }
  }

  function KeptPart(f: string -> int, r: Report): string -> int {
    (c: string) => if HasPositive(r, c) then f(c) else 0
  }

  function DroppedPart(f: string -> int, r: Report): string -> int {
    (c: string) => if HasPositive(r, c) then 0 else f(c)
  }

  lemma KeptAndDropped(f: string -> int, r: Report, cats: seq<string>, n: nat)
    requires n <= |cats|
    ensures SumOf(f, cats[..n]) == SumOf(f, Positive(r, cats, n)) + SumOf(f, Dropped(r, cats, n))
  {
    KeptSum(f, r, cats, n);
    DroppedSum(f, r, cats, n);
    SumPlus(KeptPart(f, r), DroppedPart(f, r), f, cats[..n]);
  }

  lemma {:induction false} NonPositiveSum(f: string -> int, keys: seq<string>)
    requires forall k :: k in keys ==> f(k) <= 0
    ensures SumOf(f, keys) <= 0 && (SumOf(f, keys) == 0 <==> forall k :: k in keys ==> f(k) == 0)
  {
    if keys != [] {
      var init, last := keys[..|keys| - 1], keys[|keys| - 1];
      assert keys == init + [last];
      NonPositiveSum(f, init);
    }
  }

  /** What the series leave out: exactly the totals of categories without a month
      above zero, none of which is positive. */
  lemma DroppedCategories(r: Report, cats: seq<string>, n: nat)
    requires n <= |cats|
    ensures SumOf(CatTotal(r), Positive(r, cats, n)) >= SumOf(CatTotal(r), cats[..n])
    ensures SumOf(CatTotal(r), Positive(r, cats, n)) == SumOf(CatTotal(r), cats[..n])
            <==> forall c :: c in cats[..n] && !HasPositive(r, c) ==> CatTotal(r)(c) == 0
  {
    var dropped := Dropped(r, cats, n);
    KeptAndDropped(CatTotal(r), r, cats, n);
    forall c ensures c in dropped <==> c in cats[..n] && !HasPositive(r, c) {
      DroppedMember(r, cats, n, c);
    }
    forall c | c in dropped ensures CatTotal(r)(c) <= 0 {
      NonPositiveTotal(r, c, |r.months|);
      assert r.months[..|r.months|] == r.months;
    }
    NonPositiveSum(CatTotal(r), dropped);
  }

  // ---- The exports, spelled out ----

  /** The category has an entry in some month. */
  predicate HasCategory(r: Report, c: string) {
    exists i :: 0 <= i < |r.months| && r.months[i] in r.monthly && c in r.monthly[r.months[i]].byCategory
  }

  lemma AllCatsExactly(r: Report)
    requires Shaped(r)
    ensures NoRepeats(AllCats(r)) && forall c :: c in AllCats(r) <==> HasCategory(r, c)
  {
    CatsFacts(r, |r.months|);
    forall i | 0 <= i < |r.months| ensures r.months[i] in r.monthly {
      assert r.months[i] in r.months;
    }
  }

  lemma MappedNames<T>(f: string -> T, cats: seq<string>, x: T)
    ensures x in multiset(Map(f, cats)) <==> exists i :: 0 <= i < |cats| && x == f(cats[i])
  {
    if i: int :| 0 <= i < |cats| && x == f(cats[i]) {
      assert Map(f, cats)[i] == x;
    }
  }

  /** The item of a category is its sum over the months. */
  predicate IsItem(r: Report, x: Item) {
    HasCategory(r, x.category) && x.amount == SumOf(OfCategory(r, x.category), r.months)
  }

  lemma ItemValue(r: Report, c: string)
    ensures ItemOf(r)(c) == Item(c, SumOf(OfCategory(r, c), r.months))
  {
    assert CatTotal(r)(c) == SumOf(OfCategory(r, c), r.months);
  }

  lemma ItemsExactly(r: Report, x: Item)
    requires Shaped(r)
    ensures x in multiset(Map(ItemOf(r), AllCats(r))) <==> IsItem(r, x)
  {
    AllCatsExactly(r);
    MappedNames(ItemOf(r), AllCats(r), x);
    var cats := AllCats(r);
    forall i | 0 <= i < |cats| ensures cats[i] in cats && ItemOf(r)(cats[i]) == Item(cats[i], SumOf(OfCategory(r, cats[i]), r.months)) {
      ItemValue(r, cats[i]);
    }
    if IsItem(r, x) {
      var i :| 0 <= i < |cats| && cats[i] == x.category;
      assert ItemOf(r)(cats[i]) == x;
    }
  }

  lemma DescendingAmounts(items: seq<Item>)
    requires Descending(Amount(), items)
    ensures forall i, j :: 0 <= i < j < |items| ==> items[i].amount >= items[j].amount
  {
    forall i, j | 0 <= i < j < |items| ensures items[i].amount >= items[j].amount {
      assert Amount()(items[i]) >= Amount()(items[j]);
    }
  }

  /** The ranked list holds every category with what it sums to over the months, once, and
      the greatest first. */
  lemma RankedExactly(r: Report)
    requires Shaped(r)
    ensures var items := RankedItems(r);
            && |items| == |AllCats(r)| && (forall x: Item :: x in multiset(items) <==> IsItem(r, x))
            && forall i, j :: 0 <= i < j < |items| ==> items[i].amount >= items[j].amount
  {
    var all := Map(ItemOf(r), AllCats(r));
    SortDescMembers(Amount(), all);
    SortDescSorted(Amount(), all);
    DescendingAmounts(RankedItems(r));
    forall x: Item ensures x in multiset(all) <==> IsItem(r, x) {
      ItemsExactly(r, x);
    }
  }

  function IsPositive(r: Report): string -> bool {
    (c: string) => exists i :: 0 <= i < |r.months| && Value(r, r.months[i], c) > 0
  }

  /** The categories with a series are those with a month above zero, in order. */
  lemma {:induction false} PositiveInOrder(r: Report, cats: seq<string>, n: nat)
    requires n <= |cats|
    ensures Positive(r, cats, n) == Filter(IsPositive(r), cats[..n])
  {
    if n > 0 {
      PositiveInOrder(r, cats, n - 1);
      PrefixGrows(cats, n - 1);
    }
  }

  /** The values of a line are those of its category in each month, 0 where it has none. */
  lemma LineExactly(r: Report, c: string)
    ensures var l := LineOf(r)(c);
            && l.category == c && |l.values| == |r.months|
            && forall i :: 0 <= i < |r.months| ==>
                 l.values[i] == if r.months[i] in r.monthly && c in r.monthly[r.months[i]].byCategory
                                then r.monthly[r.months[i]].byCategory[c] else 0
  {
  }
}
