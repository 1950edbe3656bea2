/** Recurring charges of one vendor: greedy grouping by similar amount, then the
    average interval. Amounts are cents, days are ordinal dates. */
module Recurring {
  import opened Concats
  import opened Wrappers
  import opened DescendingSort
  import RealArithmetic

  datatype Entry = Entry(day: int, amount: nat)

  /** A group and the amount that opened it. */
  datatype Group = Group(key: nat, members: seq<Entry>)

  function Abs(x: int): nat {
    if x < 0 then -x else x
  }

  /** `max(key, 0.01)` in cents. */
  function Base(key: nat): nat {
    if key < 1 then 1 else key
  }

  /** `abs(amount - key) / max(key, 0.01) < 0.15`. */
  predicate Similar(amount: nat, key: nat) {
    100 * Abs(amount - key) < 15 * Base(key)
  }

  /** The first group from `i` on whose key the amount is similar to. */
  function FirstSimilar(groups: seq<Group>, amount: nat, i: nat): (r: nat)
    requires i <= |groups|
    ensures i <= r <= |groups| && (r < |groups| ==> Similar(amount, groups[r].key))
    ensures forall j :: i <= j < r ==> !Similar(amount, groups[j].key)
    decreases |groups| - i
  {
    if i == |groups| || Similar(amount, groups[i].key) then i else FirstSimilar(groups, amount, i + 1)
  }

  function Place(groups: seq<Group>, e: Entry): seq<Group> {
    var i := FirstSimilar(groups, e.amount, 0);
    if i < |groups| then groups[i := Group(groups[i].key, groups[i].members + [e])]
    else groups + [Group(e.amount, [e])]
  }

  function GroupAll(entries: seq<Entry>): seq<Group> {
    if entries == [] then [] else Place(GroupAll(entries[..|entries| - 1]), entries[|entries| - 1])
  }

  // ---- The grouping is a partition into similar amounts ----

  function Members(groups: seq<Group>): multiset<Entry> {
    if groups == [] then multiset{}
    else Members(groups[..|groups| - 1]) + multiset(groups[|groups| - 1].members)
  }

  /** Each group starts with the entry that opened it, holds similar amounts only,
      and its key is similar to no earlier key. */
  predicate WellGrouped(groups: seq<Group>) {
    && (forall i :: 0 <= i < |groups| ==>
          && groups[i].members != [] && groups[i].members[0].amount == groups[i].key
          && forall k :: 0 <= k < |groups[i].members| ==> Similar(groups[i].members[k].amount, groups[i].key))
    && forall i, j :: 0 <= i < j < |groups| ==> !Similar(groups[j].key, groups[i].key)
  }

  lemma {:induction false} ReplacedMembers(groups: seq<Group>, i: nat, g: Group, e: Entry)
    requires i < |groups| && multiset(g.members) == multiset(groups[i].members) + multiset{e}
    ensures Members(groups[i := g]) == Members(groups) + multiset{e}
  {
    var n := |groups| - 1;
    if i == n {
      assert groups[i := g][..n] == groups[..n];
    } else {
      assert groups[i := g][..n] == groups[..n][i := g];
      ReplacedMembers(groups[..n], i, g, e);
    }
  }

  lemma PlaceMembers(groups: seq<Group>, e: Entry)
    ensures Members(Place(groups, e)) == Members(groups) + multiset{e}
  {
    var i := FirstSimilar(groups, e.amount, 0);
    if i < |groups| {
      ReplacedMembers(groups, i, Group(groups[i].key, groups[i].members + [e]), e);
    } else {
      assert Place(groups, e)[..|groups|] == groups;
    }
  }

  lemma PlaceWellGrouped(groups: seq<Group>, e: Entry)
    requires WellGrouped(groups)
    ensures WellGrouped(Place(groups, e))
  {
    var i := FirstSimilar(groups, e.amount, 0);
    var r := Place(groups, e);
    if i < |groups| {
      assert forall j :: 0 <= j < |r| ==> r[j].key == groups[j].key;
    } else {
      assert forall j :: 0 <= j < |groups| ==> r[j] == groups[j];
    }
  }

  /** Every entry lands in exactly one group. */
  lemma {:induction false} GroupingPartitions(entries: seq<Entry>)
    ensures Members(GroupAll(entries)) == multiset(entries) && WellGrouped(GroupAll(entries))
  {
    if entries != [] {
      var before, e := entries[..|entries| - 1], entries[|entries| - 1];
      GroupingPartitions(before);
      assert entries == before + [e];
      PlaceMembers(GroupAll(before), e);
      PlaceWellGrouped(GroupAll(before), e);
    }
  }

  function Total(members: seq<Entry>): int {
    if members == [] then 0 else Total(members[..|members| - 1]) + members[|members| - 1].amount
  }

  /** The amounts' deviations from `key` sum to this. */
  function Deviation(members: seq<Entry>, key: nat): int {
    if members == [] then 0
    else Deviation(members[..|members| - 1], key) + (members[|members| - 1].amount - key)
  }

  /** `n` times `x`. */
  function Multiple(n: nat, x: nat): nat {
    if n == 0 then 0 else Multiple(n - 1, x) + x
  }

  lemma {:induction false} MultipleIsProduct(n: nat, x: nat)
    ensures Multiple(n, x) == n * x
  {
    if n > 0 { MultipleIsProduct(n - 1, x); }
  }

  lemma {:induction false} TotalAndDeviation(members: seq<Entry>, key: nat)
    ensures Total(members) == Multiple(|members|, key) + Deviation(members, key)
  {
    if members != [] { TotalAndDeviation(members[..|members| - 1], key); }
  }

  lemma {:induction false} DeviationBound(members: seq<Entry>, key: nat)
    requires forall k :: 0 <= k < |members| ==> Similar(members[k].amount, key)
    ensures 100 * Abs(Deviation(members, key)) <= 15 * Multiple(|members|, Base(key))
    ensures members != [] ==> 100 * Abs(Deviation(members, key)) < 15 * Multiple(|members|, Base(key))
  {
    if members != [] {
      DeviationBound(members[..|members| - 1], key);
      assert Similar(members[|members| - 1].amount, key);
    }
  }

  function Average(members: seq<Entry>): real
    requires members != []
  {
    Total(members) as real / |members| as real
  }

  /** The average of a group is within 15 percent of its key, like each member. */
  lemma AverageNearKey(entries: seq<Entry>, i: nat)
    requires i < |GroupAll(entries)|
    ensures var g := GroupAll(entries)[i];
            && g.members != []
            && -0.15 * Base(g.key) as real < Average(g.members) - g.key as real < 0.15 * Base(g.key) as real
  {
    GroupingPartitions(entries);
    var g := GroupAll(entries)[i];
    var n := |g.members|;
    DeviationBound(g.members, g.key);
    TotalAndDeviation(g.members, g.key);
    MultipleIsProduct(n, g.key);
    MultipleIsProduct(n, Base(g.key));
    AverageBound(Total(g.members), n, g.key, Base(g.key), Deviation(g.members, g.key));
  }

  lemma AverageBound(total: int, n: nat, key: nat, base: nat, d: int)
    requires n > 0 && total == n * key + d && 100 * Abs(d) < 15 * (n * base)
    ensures -0.15 * base as real < total as real / n as real - key as real < 0.15 * base as real
  {
    ProductOfCasts(n, key);
    ProductOfCasts(n, base);
    RatioBound(total as real, n as real, key as real, base as real, d as real);
  }

  lemma ProductOfCasts(a: int, b: int)
    ensures (a * b) as real == a as real * b as real
  {
  }

  lemma RatioBound(total: real, m: real, key: real, base: real, d: real)
    requires m > 0.0 && total == m * key + d
    requires -(15.0 * (m * base)) < 100.0 * d < 15.0 * (m * base)
    ensures -0.15 * base < total / m - key < 0.15 * base
  {
    var q := total / m;
    assert q * m == total;
    var x := q - key;
    assert x * m == d;
    BoundTimes(m, base);
    OrderByProduct(x, 0.15 * base, m);
    OrderByProduct(-0.15 * base, x, m);
  }

  lemma BoundTimes(m: real, base: real)
    ensures (0.15 * base) * m == 0.15 * (m * base)
    ensures (-0.15 * base) * m == -(0.15 * (m * base))
  {
  }

  lemma OrderByProduct(a: real, b: real, m: real)
    requires m > 0.0 && a * m < b * m
    ensures a < b
  {
    if a >= b { RealArithmetic.NonNegativeProduct(a - b, m); }
  }

  // ---- Intervals ----

  function InsertDay(days: seq<int>, d: int): (r: seq<int>)
    ensures |r| == |days| + 1
  {
    if days == [] then [d]
    else if d < days[|days| - 1] then InsertDay(days[..|days| - 1], d) + [days[|days| - 1]]
    else days + [d]
  }

  /** `sorted(e["date"] for e in group)`. */
  function SortedDays(members: seq<Entry>): (r: seq<int>)
    ensures |r| == |members|
  {
    if members == [] then []
    else InsertDay(SortedDays(members[..|members| - 1]), members[|members| - 1].day)
  }

  /** The sum of the first `n` gaps between neighbours. */
  function GapSum(days: seq<int>, n: nat): int
    requires n < |days|
  {
    if n == 0 then 0 else GapSum(days, n - 1) + (days[n] - days[n - 1])
  }

  lemma {:induction false} GapsTelescope(days: seq<int>, n: nat)
    requires n < |days|
    ensures GapSum(days, n) == days[n] - days[0]
  {
    if n > 0 { GapsTelescope(days, n - 1); }
  }

  function Earliest(members: seq<Entry>): int
    requires members != []
  {
    if |members| == 1 then members[0].day
    else
      var d := Earliest(members[..|members| - 1]);
      if members[|members| - 1].day < d then members[|members| - 1].day else d
  }

  function Latest(members: seq<Entry>): int
    requires members != []
  {
    if |members| == 1 then members[0].day
    else
      var d := Latest(members[..|members| - 1]);
      if members[|members| - 1].day > d then members[|members| - 1].day else d
  }

  lemma {:induction false} InsertDayEnds(days: seq<int>, d: int)
    requires days != [] && forall i, j :: 0 <= i < j < |days| ==> days[i] <= days[j]
    ensures var r := InsertDay(days, d);
            && (forall i, j :: 0 <= i < j < |r| ==> r[i] <= r[j])
            && r[0] == (if d < days[0] then d else days[0])
            && r[|r| - 1] == (if d > days[|days| - 1] then d else days[|days| - 1])
  {
    var n := |days| - 1;
    if d < days[n] && n > 0 {
      InsertDayEnds(days[..n], d);
    }
  }

  lemma {:induction false} SortedDaysEnds(members: seq<Entry>)
    requires members != []
    ensures var r := SortedDays(members);
            && (forall i, j :: 0 <= i < j < |r| ==> r[i] <= r[j])
            && r[0] == Earliest(members) && r[|r| - 1] == Latest(members)
  {
    if |members| > 1 {
      SortedDaysEnds(members[..|members| - 1]);
      InsertDayEnds(SortedDays(members[..|members| - 1]), members[|members| - 1].day);
    }
  }

  /** The average interval as the source computes it. */
  function AverageInterval(members: seq<Entry>): real
    requires |members| >= 2
  {
    GapSum(SortedDays(members), |members| - 1) as real / (|members| - 1) as real
  }

  lemma GapsSpan(members: seq<Entry>)
    requires members != []
    ensures GapSum(SortedDays(members), |members| - 1) == Latest(members) - Earliest(members)
  {
    SortedDaysEnds(members);
    GapsTelescope(SortedDays(members), |members| - 1);
  }

  /** It depends only on the two end dates and the count. */
  lemma IntervalTelescopes(members: seq<Entry>)
    requires |members| >= 2
    ensures AverageInterval(members) == (Latest(members) - Earliest(members)) as real / (|members| - 1) as real
  {
    GapsSpan(members);
  }

  datatype Frequency = Monthly | Quarterly | Annual

  function FrequencyOf(interval: real): Option<Frequency> {
    if 20.0 <= interval <= 40.0 then Some(Monthly)
    else if 80.0 <= interval <= 100.0 then Some(Quarterly)
    else if 340.0 <= interval <= 400.0 then Some(Annual)
    else None
  }

  function Divisor(f: Frequency): real {
    match f
    case Monthly => 1.0
    case Quarterly => 3.0
    case Annual => 12.0
  }

  datatype Summary = Summary(vendor: string, amount: real, frequency: Frequency, monthlyCost: real,
                             lastSeen: int, occurrences: nat)

  /** The group repeats at a recognized interval. */
  predicate IsRegular(g: Group) {
    |g.members| >= 2 && FrequencyOf(AverageInterval(g.members)).Some?
  }

  function Summarize(vendor: string, g: Group): Summary
    requires IsRegular(g)
  {
    var f := FrequencyOf(AverageInterval(g.members)).value;
    var avg := Average(g.members);
    Summary(vendor, avg, f, avg / Divisor(f), Latest(g.members), |g.members|)
  }

  /** The place of the first regular group from `i` on. */
  function FirstRegular(groups: seq<Group>, i: nat): (r: nat)
    requires i <= |groups|
    ensures i <= r <= |groups| && (r < |groups| ==> IsRegular(groups[r]))
    ensures forall j :: i <= j < r ==> !IsRegular(groups[j])
    decreases |groups| - i
  {
    if i == |groups| || IsRegular(groups[i]) then i else FirstRegular(groups, i + 1)
  }

  // ---- One group, or one for each entry ----

  /** Entries whose amounts are similar to the first form one group. */
  lemma {:induction false} OneGroup(entries: seq<Entry>)
    requires entries != [] && forall i :: 0 <= i < |entries| ==> Similar(entries[i].amount, entries[0].amount)
    ensures GroupAll(entries) == [Group(entries[0].amount, entries)]
  {
    var before, last := entries[..|entries| - 1], entries[|entries| - 1];
    assert entries == before + [last];
    if before != [] {
      OneGroup(before);
      var g := Group(entries[0].amount, before);
      assert [g][0 := Group(g.key, before + [last])] == [Group(g.key, entries)];
    }
  }

  /** No amount is similar to an earlier one. */
  predicate AllApart(entries: seq<Entry>) {
    forall i, j :: 0 <= i < j < |entries| ==> !Similar(entries[j].amount, entries[i].amount)
  }

  /** Then each entry opens a group of its own, and nothing recurs. */
  lemma {:induction false} ApartGroups(entries: seq<Entry>)
    requires AllApart(entries)
    ensures var groups := GroupAll(entries);
            |groups| == |entries| && forall i :: 0 <= i < |entries| ==> groups[i] == Group(entries[i].amount, [entries[i]])
  {
    if entries != [] {
      var before, last := entries[..|entries| - 1], entries[|entries| - 1];
      ApartGroups(before);
      var groups := GroupAll(before);
      forall j | 0 <= j < |groups| ensures !Similar(last.amount, groups[j].key) {
        assert groups[j] == Group(before[j].amount, [before[j]]);
        assert before[j] == entries[j];
      }
    }
  }

  lemma ApartNeverRecurs(v: string, entries: seq<Entry>)
    requires AllApart(entries)
    ensures Recurs(v, entries).None?
  {
    ApartGroups(entries);
  }

  method LatestDay(members: seq<Entry>) returns (d: int)
    requires members != []
    ensures d == Latest(members)
  {
    d := members[0].day;
    var i := 1;
    assert members[..1] == [members[0]];
    while i < |members|
      invariant 1 <= i <= |members| && d == Latest(members[..i])
    {
      assert members[..i + 1][..i] == members[..i];
      if members[i].day > d { d := members[i].day; }
      i := i + 1;
    }
    assert members[..|members|] == members;
  }

  /** The first regular group of the greedy partition. */
  function Recurs(vendor: string, entries: seq<Entry>): Option<Summary> {
    var groups := GroupAll(entries);
    var i := FirstRegular(groups, 0);
    if i < |groups| then Some(Summarize(vendor, groups[i])) else None
  }

  /** `_find_recurring_group`. */
  method FindRecurringGroup(vendor: string, entries: seq<Entry>) returns (r: Option<Summary>)
    ensures r == Recurs(vendor, entries)
  {
    var groups: seq<Group> := [];
    var n := 0;
    while n < |entries|
      invariant 0 <= n <= |entries| && groups == GroupAll(entries[..n])
    {
      assert entries[..n + 1][..n] == entries[..n];
      var e := entries[n];
      var k := 0;
      while k < |groups| && !Similar(e.amount, groups[k].key)
        invariant 0 <= k <= |groups| && FirstSimilar(groups, e.amount, k) == FirstSimilar(groups, e.amount, 0)
      {
        k := k + 1;
      }
      groups := if k < |groups| then groups[k := Group(groups[k].key, groups[k].members + [e])]
                else groups + [Group(e.amount, [e])];
      n := n + 1;
    }
    assert entries[..|entries|] == entries;
    var i := 0;
    while i < |groups|
      invariant 0 <= i <= |groups| && FirstRegular(groups, i) == FirstRegular(groups, 0)
    {
      var g := groups[i].members;
      if |g| >= 2 {
        var f := FrequencyOf(AverageInterval(g));
        if f.Some? {
          var avg := Average(g);
          var last := LatestDay(g);
          return Some(Summary(vendor, avg, f.value, avg / Divisor(f.value), last, |g|));
        }
      }
      i := i + 1;
    }
    r := None;
  }

  // ---- A summary, spelled out ----

  /** Similar: less than 15 percent of the key apart, or of a cent if the key is nothing. */
  lemma SimilarExactly(amount: nat, key: nat)
    ensures Similar(amount, key) <==>
            var base := if key == 0 then 1 else key; -15 * base < 100 * (amount - key) < 15 * base
  {
  }

  lemma {:induction false} EndsExactly(members: seq<Entry>)
    requires members != []
    ensures forall i :: 0 <= i < |members| ==> Earliest(members) <= members[i].day <= Latest(members)
    ensures exists i :: 0 <= i < |members| && members[i].day == Earliest(members)
    ensures exists i :: 0 <= i < |members| && members[i].day == Latest(members)
  {
    if |members| > 1 {
      var init, last := members[..|members| - 1], members[|members| - 1];
      EndsExactly(init);
      forall i | 0 <= i < |members| ensures Earliest(members) <= members[i].day <= Latest(members) {
        assert i < |init| ==> members[i] == init[i];
      }
      var i :| 0 <= i < |init| && init[i].day == Earliest(init);
      var j :| 0 <= j < |init| && init[j].day == Latest(init);
      assert members[i].day == Earliest(init) && members[j].day == Latest(init) && members[|init|] == last;
      assert members[i].day == Earliest(members) || members[|init|].day == Earliest(members);
      assert members[j].day == Latest(members) || members[|init|].day == Latest(members);
    } else {
      assert members[0].day == Earliest(members) == Latest(members);
    }
  }

  lemma QuotientBetween(span: int, gaps: int, low: int, high: int)
    requires gaps > 0
    ensures low as real <= span as real / gaps as real <= high as real <==> low * gaps <= span <= high * gaps
  {
    CastTimes(low, gaps);
    CastTimes(high, gaps);
    RealArithmetic.QuotientReaches(span as real, gaps as real, low as real);
    RealArithmetic.QuotientExceeds(span as real, gaps as real, high as real);
  }

  lemma CastTimes(a: int, b: int)
    ensures (a * b) as real == a as real * b as real
  {
  }

  /** The days from the first charge to the last, over `gaps` gaps, average within bounds. */
  predicate SpanWithin(g: Group, low: int, high: int)
    requires g.members != []
  {
    var gaps := |g.members| - 1;
    low * gaps <= Latest(g.members) - Earliest(g.members) <= high * gaps
  }

  /** Monthly, quarterly or annual: an average interval of 20 to 40, 80 to 100, or 340 to 400
      days, without division. */
  predicate Repeats(g: Group, f: Frequency) {
    && |g.members| >= 2
    && match f
       case Monthly => SpanWithin(g, 20, 40)
       case Quarterly => SpanWithin(g, 80, 100)
       case Annual => SpanWithin(g, 340, 400)
  }

  lemma RegularExactly(g: Group)
    ensures IsRegular(g) <==> Repeats(g, Monthly) || Repeats(g, Quarterly) || Repeats(g, Annual)
    ensures IsRegular(g) ==> Repeats(g, FrequencyOf(AverageInterval(g.members)).value)
  {
    if |g.members| >= 2 {
      var span, gaps := Latest(g.members) - Earliest(g.members), |g.members| - 1;
      IntervalTelescopes(g.members);
      QuotientBetween(span, gaps, 20, 40);
      QuotientBetween(span, gaps, 80, 100);
      QuotientBetween(span, gaps, 340, 400);
    }
  }

  /** `s` summarizes group `g`: its average amount, its frequency, and what it comes to a
      month, which is all of it, a third or a twelfth. */
  ghost predicate Summarizes(s: Summary, v: string, g: Group) {
    && Repeats(g, s.frequency) && s.vendor == v && s.occurrences == |g.members|
    && s.amount * (|g.members| as real) == Total(g.members) as real
    && s.monthlyCost * (match s.frequency case Monthly => 1.0 case Quarterly => 3.0 case Annual => 12.0) == s.amount
    && (forall i :: 0 <= i < |g.members| ==> g.members[i].day <= s.lastSeen)
    && exists i :: 0 <= i < |g.members| && g.members[i].day == s.lastSeen
  }

  lemma DividedBack(x: real, d: real)
    requires d != 0.0
    ensures (x / d) * d == x
  {
  }

  lemma AmountsExactly(v: string, g: Group)
    requires IsRegular(g)
    ensures var s := Summarize(v, g);
            && s.amount * (|g.members| as real) == Total(g.members) as real
            && s.monthlyCost * Divisor(s.frequency) == s.amount
  {
    var s := Summarize(v, g);
    DividedBack(Total(g.members) as real, |g.members| as real);
    DividedBack(s.amount, Divisor(s.frequency));
  }

  lemma SummarizeExactly(v: string, g: Group)
    requires IsRegular(g)
    ensures Summarizes(Summarize(v, g), v, g)
  {
    RegularExactly(g);
    EndsExactly(g.members);
    AmountsExactly(v, g);
  }

  /** `s` summarizes group `i`, and no group before it repeats at a recognized interval. */
  ghost predicate SummarizesFirst(s: Summary, v: string, groups: seq<Group>, i: nat) {
    i < |groups| && Summarizes(s, v, groups[i]) && forall j :: 0 <= j < i ==> !IsRegular(groups[j])
  }

  /** The first group of the partition that repeats at a recognized interval is the one
      summarized; without one there is no summary. */
  lemma RecursExactly(v: string, entries: seq<Entry>) returns (i: nat)
    ensures var groups, r := GroupAll(entries), Recurs(v, entries);
            if r.Some? then SummarizesFirst(r.value, v, groups, i)
            else forall j :: 0 <= j < |groups| ==> !IsRegular(groups[j])
  {
    i := FirstRegular(GroupAll(entries), 0);
    if i < |GroupAll(entries)| { SummarizeExactly(v, GroupAll(entries)[i]); }
  }

  // ---- Over all vendors ----

  datatype Charge = Charge(vendor: string, entry: Entry)

  function VendorsOf(charges: seq<Charge>): seq<string> {
    if charges == [] then []
    else
      var vs, v := VendorsOf(charges[..|charges| - 1]), charges[|charges| - 1].vendor;
      if v in vs then vs else vs + [v]
  }

  function EntriesOf(charges: seq<Charge>, v: string): seq<Entry> {
    if charges == [] then []
    else
      var c := charges[|charges| - 1];
      EntriesOf(charges[..|charges| - 1], v) + if c.vendor == v then [c.entry] else []
  }

  function Found(charges: seq<Charge>, v: string): seq<Summary> {
    var entries := EntriesOf(charges, v);
    var r := Recurs(v, entries);
    if |entries| >= 2 && r.Some? then [r.value] else []
  }

  function Finder(charges: seq<Charge>): string -> seq<Summary> {
    (v: string) => Found(charges, v)
  }

  /** The monthly cost as it is rounded before sorting. */
  function Cost(round: real -> real): Summary -> real {
    (s: Summary) => round(s.monthlyCost)
  }

  function Recurrences(round: real -> real, charges: seq<Charge>): seq<Summary> {
    SortDesc(Cost(round), Concat(Finder(charges), VendorsOf(charges), |VendorsOf(charges)|))
  }

  lemma {:induction false} NoEntries(charges: seq<Charge>, v: string)
    ensures v !in VendorsOf(charges) ==> EntriesOf(charges, v) == []
  {
    if charges != [] { NoEntries(charges[..|charges| - 1], v); }
  }

  lemma {:induction false} GroupFits(entries: seq<Entry>, i: nat)
    requires i < |GroupAll(entries)|
    ensures |GroupAll(entries)[i].members| <= |entries|
  {
    GroupingPartitions(entries);
    MembersCount(GroupAll(entries), i);
    assert |multiset(entries)| == |entries|;
  }

  lemma {:induction false} MembersCount(groups: seq<Group>, i: nat)
    requires i < |groups|
    ensures |groups[i].members| <= |Members(groups)|
  {
    if i < |groups| - 1 { MembersCount(groups[..|groups| - 1], i); }
    assert |multiset(groups[|groups| - 1].members)| == |groups[|groups| - 1].members|;
  }

  lemma RegularNeedsTwo(v: string, entries: seq<Entry>)
    ensures Recurs(v, entries).Some? ==> |entries| >= 2
  {
    var i := FirstRegular(GroupAll(entries), 0);
    if i < |GroupAll(entries)| { GroupFits(entries, i); }
  }

  /** `s` summarizes the first regular group of vendor `v`. */
  predicate IsSummaryOf(charges: seq<Charge>, v: string, s: Summary) {
    Recurs(v, EntriesOf(charges, v)) == Some(s)
  }

  lemma FoundExact(charges: seq<Charge>, v: string, s: Summary)
    ensures s in Finder(charges)(v) <==> IsSummaryOf(charges, v, s)
  {
    RegularNeedsTwo(v, EntriesOf(charges, v));
  }

  lemma FoundHasVendor(charges: seq<Charge>, v: string, s: Summary) returns (i: nat)
    requires s in Finder(charges)(v)
    ensures i < |VendorsOf(charges)| && VendorsOf(charges)[i] == v
  {
    NoEntries(charges, v);
    i :| 0 <= i < |VendorsOf(charges)| && VendorsOf(charges)[i] == v;
  }

  lemma SortedMember(round: real -> real, all: seq<Summary>, s: Summary)
    ensures s in SortDesc(Cost(round), all) <==> s in all
    ensures Descending(Cost(round), SortDesc(Cost(round), all))
  {
    SortDescMembers(Cost(round), all);
    SortDescSorted(Cost(round), all);
    assert s in SortDesc(Cost(round), all) <==> s in multiset(SortDesc(Cost(round), all));
    assert s in all <==> s in multiset(all);
  }

  /** A vendor is reported exactly when some group of its greedy partition repeats at
      a recognized interval, with the first such group, and in descending order of cost. */
  lemma RecurrencesExact(round: real -> real, charges: seq<Charge>, s: Summary)
    ensures s in Recurrences(round, charges) <==>
            exists v :: IsSummaryOf(charges, v, s)
    ensures Descending(Cost(round), Recurrences(round, charges))
  {
    var vs, f := VendorsOf(charges), Finder(charges);
    SortedMember(round, Concat(f, vs, |vs|), s);
    ConcatMember(f, vs, |vs|, s);
    if i: int :| 0 <= i < |vs| && s in f(vs[i]) {
      FoundExact(charges, vs[i], s);
    }
    if v :| IsSummaryOf(charges, v, s) {
      FoundExact(charges, v, s);
      var i := FoundHasVendor(charges, v, s);
      assert s in f(vs[i]);
    }
  }

  /** The dict of each vendor's entries. */
  ghost predicate IsIndex(order: seq<string>, byVendor: map<string, seq<Entry>>, charges: seq<Charge>) {
    && order == VendorsOf(charges) && (forall v :: v in order <==> v in byVendor)
    && forall v :: v in byVendor ==> byVendor[v] == EntriesOf(charges, v)
  }

  lemma IndexStep(order: seq<string>, byVendor: map<string, seq<Entry>>, charges: seq<Charge>, c: Charge)
    requires IsIndex(order, byVendor, charges)
    ensures var v := c.vendor;
            var known := if v in byVendor then byVendor[v] else [];
            IsIndex(if v in byVendor then order else order + [v], byVendor[v := known + [c.entry]], charges + [c])
  {
    assert (charges + [c])[..|charges|] == charges;
    NoEntries(charges, c.vendor);
    assert forall v :: EntriesOf(charges, v) + [] == EntriesOf(charges, v);
  }

  method FindVendor(ghost charges: seq<Charge>, ghost f: string -> seq<Summary>, v: string, entries: seq<Entry>)
    returns (found: seq<Summary>)
    requires entries == EntriesOf(charges, v) && f == Finder(charges)
    ensures found == f(v)
  {
    found := [];
    if |entries| >= 2 {
      var r := FindRecurringGroup(v, entries);
      if r.Some? { found := [r.value]; }
    }
  }

  method IndexCharges(charges: seq<Charge>) returns (order: seq<string>, byVendor: map<string, seq<Entry>>)
    ensures IsIndex(order, byVendor, charges)
  {
    order, byVendor := [], map[];
    for i := 0 to |charges|
      invariant IsIndex(order, byVendor, charges[..i])
    {
      var v := charges[i].vendor;
      assert charges[..i + 1] == charges[..i] + [charges[i]];
      IndexStep(order, byVendor, charges[..i], charges[i]);
      var known := if v in byVendor then byVendor[v] else [];
      order := if v in byVendor then order else order + [v];
      byVendor := byVendor[v := known + [charges[i].entry]];
    }
    assert charges[..|charges|] == charges;
  }

  lemma IndexAt(order: seq<string>, byVendor: map<string, seq<Entry>>, charges: seq<Charge>, i: nat)
    requires IsIndex(order, byVendor, charges) && i < |order|
    ensures order[i] in byVendor && byVendor[order[i]] == EntriesOf(charges, order[i])
  {
    assert order[i] in order;
  }

  method FindNext(ghost charges: seq<Charge>, ghost f: string -> seq<Summary>, order: seq<string>,
                  byVendor: map<string, seq<Entry>>, i: nat, results: seq<Summary>)
    returns (results': seq<Summary>)
    requires IsIndex(order, byVendor, charges) && i < |order| && f == Finder(charges)
    ensures results' == results + f(order[i])
  {
    IndexAt(order, byVendor, charges, i);
    var found := FindVendor(charges, f, order[i], byVendor[order[i]]);
    results' := results + found;
  }

  method FindAll(ghost charges: seq<Charge>, ghost f: string -> seq<Summary>, order: seq<string>,
                 byVendor: map<string, seq<Entry>>)
    returns (results: seq<Summary>)
    requires IsIndex(order, byVendor, charges) && f == Finder(charges)
    ensures results == Concat(f, order, |order|)
  {
    results := [];
    for i := 0 to |order|
      invariant results == Concat(f, order, i)
    {
      ghost var before := results;
      results := FindNext(charges, f, order, byVendor, i, results);
      assert results == before + f(order[i]);
    }
  }

  /** `detect_recurring`, on charges already read from the invoices. */
  method DetectRecurring(round: real -> real, charges: seq<Charge>) returns (results: seq<Summary>)
    ensures results == Recurrences(round, charges)
  {
    var order, byVendor := IndexCharges(charges);
    results := FindAll(charges, Finder(charges), order, byVendor);
    results := SortDesc(Cost(round), results);
  }
}
