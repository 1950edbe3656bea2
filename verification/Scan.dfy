/** Scanning invoices for anomalies: vendor by vendor, in order of date, each
    invoice scored against the earlier ones. */
module Scan {
  import opened Stats
  import opened Concats
  import opened StringOrder
  import opened StableSort
  import opened DescendingSort
  import opened Anomaly

  datatype Invoice = Invoice(vendor: string, amount: real, date: string)

  function ByDate(): Invoice -> string {
    (inv: Invoice) => inv.date
  }

  /** The vendors in the order in which they first appear. */
  function Vendors(invs: seq<Invoice>): seq<string> {
    if invs == [] then []
    else
      var vs := Vendors(invs[..|invs| - 1]);
      var v := invs[|invs| - 1].vendor;
      if v in vs then vs else vs + [v]
  }

  function OfVendor(invs: seq<Invoice>, v: string): seq<Invoice> {
    if invs == [] then []
    else
      var inv := invs[|invs| - 1];
      OfVendor(invs[..|invs| - 1], v) + if inv.vendor == v then [inv] else []
  }

  /** The invoices of one vendor in order of date. */
  function Dated(invs: seq<Invoice>, v: string): seq<Invoice> {
    Sort(ByDate(), OfVendor(invs, v))
  }

  function AmountsTo(list: seq<Invoice>, n: nat): (r: seq<real>)
    requires n <= |list|
    ensures |r| == n && forall i :: 0 <= i < n ==> r[i] == list[i].amount
  {
    seq(n, i requires 0 <= i < n => list[i].amount)
  }

  /** The verdict on the invoice at place `k` of its vendor's list: it is scored
      against the invoices before it. */
  function VerdictAt(score: Scorer, v: string, list: seq<Invoice>, k: nat): Anomaly
    requires k < |list|
  {
    score(v, list[k].amount, AmountsTo(list, k))
  }

  /** The anomalies among the first `n` invoices of a vendor's list. */
  function FlaggedTo(score: Scorer, v: string, list: seq<Invoice>, n: nat): seq<Anomaly>
    requires n <= |list|
  {
    if n == 0 then []
    else
      var a := VerdictAt(score, v, list, n - 1);
      FlaggedTo(score, v, list, n - 1) + if a.isAnomaly then [a] else []
  }

  function FlaggedOf(score: Scorer, invs: seq<Invoice>, v: string): seq<Anomaly> {
    FlaggedTo(score, v, Dated(invs, v), |Dated(invs, v)|)
  }

  function Reporter(score: Scorer, invs: seq<Invoice>): string -> seq<Anomaly> {
    v => FlaggedOf(score, invs, v)
  }

  function AllFlagged(score: Scorer, invs: seq<Invoice>): seq<Anomaly> {
    Concat(Reporter(score, invs), Vendors(invs), |Vendors(invs)|)
  }

  /** The size of the score, as it is rounded before sorting. */
  function Size(round: real -> real): Anomaly -> real {
    (a: Anomaly) => Abs(round(a.z))
  }

  function ScanSpec(score: Scorer, round: real -> real, invs: seq<Invoice>): seq<Anomaly> {
    SortDesc(Size(round), AllFlagged(score, invs))
  }

  /** `a` is the verdict, an anomaly, on some invoice against the earlier ones of its vendor. */
  ghost predicate IsVerdict(score: Scorer, invs: seq<Invoice>, v: string, k: nat, a: Anomaly) {
    var list := Dated(invs, v);
    k < |list| && a.isAnomaly && a == score(v, list[k].amount, AmountsTo(list, k))
  }

  lemma {:induction false} FlaggedToMember(score: Scorer, v: string, list: seq<Invoice>, n: nat, a: Anomaly)
    requires n <= |list|
    ensures a in FlaggedTo(score, v, list, n) <==>
            exists k :: 0 <= k < n && a == VerdictAt(score, v, list, k) && a.isAnomaly
  {
    if n > 0 {
      FlaggedToMember(score, v, list, n - 1, a);
    }
  }

  lemma FlaggedOfMember(score: Scorer, invs: seq<Invoice>, v: string, a: Anomaly)
    ensures a in Reporter(score, invs)(v) <==> exists k :: IsVerdict(score, invs, v, k, a)
  {
    FlaggedToMember(score, v, Dated(invs, v), |Dated(invs, v)|, a);
    if a in FlaggedOf(score, invs, v) {
      var k :| 0 <= k < |Dated(invs, v)| && a == VerdictAt(score, v, Dated(invs, v), k) && a.isAnomaly;
      assert IsVerdict(score, invs, v, k, a);
    }
    if k: nat :| IsVerdict(score, invs, v, k, a) {
      assert a == VerdictAt(score, v, Dated(invs, v), k);
    }
  }

  lemma {:induction false} VendorsComplete(invs: seq<Invoice>, v: string)
    ensures v !in Vendors(invs) ==> OfVendor(invs, v) == []
  {
    if invs != [] { VendorsComplete(invs[..|invs| - 1], v); }
  }

  /** The scan reports exactly the anomalous verdicts: each invoice scored against
      the invoices of its vendor that precede it by date. They come in descending
      order of score. */
  lemma ScanExact(score: Scorer, round: real -> real, invs: seq<Invoice>, a: Anomaly)
    ensures a in ScanSpec(score, round, invs) <==> exists v, k :: IsVerdict(score, invs, v, k, a)
    ensures Descending(Size(round), ScanSpec(score, round, invs))
  {
    var vs, all, f := Vendors(invs), AllFlagged(score, invs), Reporter(score, invs);
    SortDescMembers(Size(round), all);
    SortDescSorted(Size(round), all);
    assert a in ScanSpec(score, round, invs) <==> a in multiset(ScanSpec(score, round, invs));
    assert a in all <==> a in multiset(all);
    ConcatMember(f, vs, |vs|, a);
    if a in all {
      var i :| 0 <= i < |vs| && a in f(vs[i]);
      FlaggedOfMember(score, invs, vs[i], a);
    }
    forall v, k | IsVerdict(score, invs, v, k, a) ensures a in all {
      VendorsComplete(invs, v);
      FlaggedOfMember(score, invs, v, a);
      var i :| 0 <= i < |vs| && vs[i] == v;
    }
  }

  // ---- The report, spelled out ----

  /** The list of a vendor holds its own invoices, each as often as it came, in order of
      date, and those of one date in the order in which they came. */
  lemma DatedExactly(invs: seq<Invoice>, v: string)
    ensures var list := Dated(invs, v);
            && (forall i, j :: 0 <= i < j < |list| ==> !Less(list[j].date, list[i].date))
            && (forall x :: multiset(list)[x] == if x.vendor == v then multiset(invs)[x] else 0)
            && forall d :: WithKey(ByDate(), list, d) == WithKey(ByDate(), OfVendor(invs, v), d)
  {
    var own := OfVendor(invs, v);
    SortIsStable(ByDate(), own);
    SortKeepsAll(own);
    OwnInvoices(invs, v);
  }

  lemma {:induction false} OwnInvoices(invs: seq<Invoice>, v: string)
    ensures forall x :: multiset(OfVendor(invs, v))[x] == if x.vendor == v then multiset(invs)[x] else 0
  {
    if invs != [] {
      var init, last := invs[..|invs| - 1], invs[|invs| - 1];
      OwnInvoices(init, v);
      assert invs == init + [last];
    }
  }

  lemma {:induction false} InsertKeepsAll(s: seq<Invoice>, x: Invoice)
    ensures multiset(Insert(ByDate(), s, x)) == multiset(s) + multiset{x}
  {
    if s != [] && Less(x.date, s[|s| - 1].date) {
      InsertKeepsAll(s[..|s| - 1], x);
      assert s == s[..|s| - 1] + [s[|s| - 1]];
    }
  }

  lemma LastApart(s: seq<Invoice>)
    requires s != []
    ensures multiset(s) == multiset(s[..|s| - 1]) + multiset{s[|s| - 1]}
  {
    assert s == s[..|s| - 1] + [s[|s| - 1]];
  }

  lemma {:induction false} SortKeepsAll(s: seq<Invoice>)
    ensures multiset(Sort(ByDate(), s)) == multiset(s)
  {
    if s != [] {
      var init, last := s[..|s| - 1], s[|s| - 1];
      SortKeepsAll(init);
      InsertKeepsAll(Sort(ByDate(), init), last);
      LastApart(s);
    }
  }

  /** The amounts of the first `k` invoices of a list. */
  function Before(list: seq<Invoice>, k: nat): (r: seq<real>)
    requires k <= |list|
    ensures |r| == k && forall i :: 0 <= i < k ==> r[i] == list[i].amount
  {
    if k == 0 then [] else Before(list, k - 1) + [list[k - 1].amount]
  }

  /** Invoice `k` of the list, scored against the amounts before it. */
  function ScoreOf(score: Scorer, v: string, list: seq<Invoice>, k: nat): Anomaly
    requires k < |list|
  {
    score(v, list[k].amount, Before(list, k))
  }

  lemma VerdictIsScore(score: Scorer, v: string, list: seq<Invoice>, k: nat)
    requires k < |list|
    ensures VerdictAt(score, v, list, k) == ScoreOf(score, v, list, k)
  {
    assert AmountsTo(list, k) == Before(list, k);
  }

  /** `ks` are the places below `n`, in order, that have a property. */
  ghost predicate ArePlaces(hit: nat -> bool, n: nat, ks: seq<nat>) {
    && (forall i :: 0 <= i < |ks| ==> ks[i] < n)
    && (forall i, j :: 0 <= i < j < |ks| ==> ks[i] < ks[j])
    && forall k :: 0 <= k < n ==> (k in ks <==> hit(k))
  }

  lemma NextPlace(hit: nat -> bool, n: nat, ks: seq<nat>)
    requires ArePlaces(hit, n, ks)
    ensures ArePlaces(hit, n + 1, if hit(n) then ks + [n] else ks)
  {
    assert n !in ks;
  }

  function IsFlagged(score: Scorer, v: string, list: seq<Invoice>): nat -> bool {
    (k: nat) => k < |list| && ScoreOf(score, v, list, k).isAnomaly
  }

  ghost predicate AreVerdicts(score: Scorer, v: string, list: seq<Invoice>, ks: seq<nat>, found: seq<Anomaly>) {
    |found| == |ks| && forall i :: 0 <= i < |ks| ==> ks[i] < |list| && found[i] == ScoreOf(score, v, list, ks[i])
  }

  lemma NextVerdict(score: Scorer, v: string, list: seq<Invoice>, ks: seq<nat>, found: seq<Anomaly>, n: nat)
    requires n < |list| && AreVerdicts(score, v, list, ks, found)
    ensures AreVerdicts(score, v, list, ks + [n], found + [ScoreOf(score, v, list, n)])
  {
  }

  lemma FlaggedNext(score: Scorer, v: string, list: seq<Invoice>, n: nat)
    requires n < |list|
    ensures var before := FlaggedTo(score, v, list, n);
            FlaggedTo(score, v, list, n + 1)
            == if IsFlagged(score, v, list)(n) then before + [ScoreOf(score, v, list, n)] else before
  {
    VerdictIsScore(score, v, list, n);
    assert FlaggedTo(score, v, list, n) + [] == FlaggedTo(score, v, list, n);
  }

  /** A vendor's anomalies are the verdicts on those of its invoices that are anomalies,
      each once and in order. */
  lemma {:induction false} FlaggedExactly(score: Scorer, v: string, list: seq<Invoice>, n: nat) returns (ks: seq<nat>)
    requires n <= |list|
    ensures ArePlaces(IsFlagged(score, v, list), n, ks)
    ensures AreVerdicts(score, v, list, ks, FlaggedTo(score, v, list, n))
  {
    ks := [];
    if n > 0 {
      var k, hit := n - 1, IsFlagged(score, v, list);
      ks := FlaggedExactly(score, v, list, k);
      FlaggedNext(score, v, list, k);
      NextPlace(hit, k, ks);
      NextVerdict(score, v, list, ks, FlaggedTo(score, v, list, k), k);
      if hit(k) { ks := ks + [k]; }
    }
  }

  /** Each vendor is scanned once. */
  lemma {:induction false} VendorsDistinct(invs: seq<Invoice>)
    ensures forall i, j :: 0 <= i < j < |Vendors(invs)| ==> Vendors(invs)[i] != Vendors(invs)[j]
    ensures forall v :: v in Vendors(invs) <==> exists k :: 0 <= k < |invs| && invs[k].vendor == v
  {
    if invs != [] {
      var init, last := invs[..|invs| - 1], invs[|invs| - 1];
      VendorsDistinct(init);
      forall v ensures v in Vendors(invs) <==> exists k :: 0 <= k < |invs| && invs[k].vendor == v {
        if v in Vendors(init) {
          var k :| 0 <= k < |init| && init[k].vendor == v;
          assert invs[k].vendor == v;
        }
        if k: int :| 0 <= k < |invs| && invs[k].vendor == v {
          if k < |init| { assert init[k].vendor == v; }
        }
        assert invs[|invs| - 1].vendor == last.vendor;
      }
    }
  }

  /** The report holds the anomalies of all vendors, each as often as it was found, in
      descending order of the rounded size of the score. */
  lemma ReportExactly(score: Scorer, round: real -> real, invs: seq<Invoice>)
    ensures var r := ScanSpec(score, round, invs);
            && multiset(r) == multiset(AllFlagged(score, invs))
            && forall i, j :: 0 <= i < j < |r| ==> Abs(round(r[i].z)) >= Abs(round(r[j].z))
  {
    SortDescMembers(Size(round), AllFlagged(score, invs));
    SortDescSorted(Size(round), AllFlagged(score, invs));
    var r := ScanSpec(score, round, invs);
    forall i, j | 0 <= i < j < |r| ensures Abs(round(r[i].z)) >= Abs(round(r[j].z)) {
      assert Size(round)(r[i]) >= Size(round)(r[j]);
    }
  }

  /** The scorer names the vendor. */
  ghost predicate NamesVendor(score: Scorer) {
    forall v, x, h :: score(v, x, h).vendor == v
  }

  lemma ScorerNamesVendor(sqrt: real -> real, t: real)
    ensures NamesVendor(ZScorer(sqrt, t))
  {
  }

  lemma {:induction false} FlaggedVendor(score: Scorer, v: string, list: seq<Invoice>, n: nat)
    requires NamesVendor(score) && n <= |list|
    ensures forall a :: a in FlaggedTo(score, v, list, n) ==> a.vendor == v
  {
    if n > 0 { FlaggedVendor(score, v, list, n - 1); }
  }

  /** An anomaly is in the report exactly as often as it is found for its vendor. */
  lemma CountExactly(score: Scorer, round: real -> real, invs: seq<Invoice>, a: Anomaly)
    requires NamesVendor(score)
    ensures multiset(ScanSpec(score, round, invs))[a] == multiset(FlaggedOf(score, invs, a.vendor))[a]
  {
    var vs, f := Vendors(invs), Reporter(score, invs);
    ReportExactly(score, round, invs);
    VendorsDistinct(invs);
    forall v | v != a.vendor ensures a !in f(v) {
      FlaggedVendor(score, v, Dated(invs, v), |Dated(invs, v)|);
    }
    ConcatCount(f, vs, |vs|, a, a.vendor);
    assert vs[..|vs|] == vs;
    VendorsComplete(invs, a.vendor);
  }

  // ---- Later invoices and other vendors change no verdict ----

  lemma {:induction false} SamePrefixSameVerdicts(score: Scorer, v: string, a: seq<Invoice>, b: seq<Invoice>, n: nat)
    requires n <= |a| && n <= |b| && a[..n] == b[..n]
    ensures FlaggedTo(score, v, a, n) == FlaggedTo(score, v, b, n)
  {
    if n > 0 {
      assert a[..n - 1] == a[..n][..n - 1] && b[..n - 1] == b[..n][..n - 1];
      assert a[n - 1] == a[..n][n - 1] && b[n - 1] == b[..n][n - 1];
      SamePrefixSameVerdicts(score, v, a, b, n - 1);
      assert AmountsTo(a, n - 1) == AmountsTo(b, n - 1) by {
        forall i | 0 <= i < n - 1 ensures a[i] == b[i] {
          assert a[i] == a[..n][i] && b[i] == b[..n][i];
        }
      }
    }
  }

  /** Adding an invoice leaves the lists and verdicts of other vendors as they
      are, and those of its own vendor up to its date. */
  lemma AddedInvoice(score: Scorer, invs: seq<Invoice>, y: Invoice, v: string) returns (n: nat)
    ensures v != y.vendor ==> FlaggedOf(score, invs + [y], v) == FlaggedOf(score, invs, v)
    ensures v == y.vendor ==>
      && n <= |Dated(invs, v)| && Dated(invs + [y], v) == Dated(invs, v)[..n] + [y] + Dated(invs, v)[n..]
      && (forall i :: 0 <= i < |Dated(invs, v)| ==> (i < n <==> !Less(y.date, Dated(invs, v)[i].date)))
      && FlaggedTo(score, v, Dated(invs + [y], v), n) == FlaggedTo(score, v, Dated(invs, v), n)
  {
    assert (invs + [y])[..|invs|] == invs;
    n := 0;
    if v == y.vendor {
      var own, list := OfVendor(invs, v), Dated(invs, v);
      assert (own + [y])[..|own|] == own;
      SortIsStable(ByDate(), own);
      n := InsertPosition(ByDate(), list, y);
      assert (list[..n] + [y] + list[n..])[..n] == list[..n];
      SamePrefixSameVerdicts(score, v, Dated(invs + [y], v), list, n);
    } else {
      assert OfVendor(invs, v) + [] == OfVendor(invs, v);
    }
  }

  // ---- Scaling a whole scan ----

  function Rescale(k: real): Invoice -> Invoice {
    (inv: Invoice) => inv.(amount := k * inv.amount)
  }

  lemma {:induction false} ScaledVendors(invs: seq<Invoice>, k: real)
    ensures Vendors(Map(Rescale(k), invs)) == Vendors(invs)
  {
    if invs != [] {
      assert Map(Rescale(k), invs)[..|invs| - 1] == Map(Rescale(k), invs[..|invs| - 1]);
      ScaledVendors(invs[..|invs| - 1], k);
    }
  }

  lemma {:induction false} ScaledOfVendor(invs: seq<Invoice>, k: real, v: string)
    ensures OfVendor(Map(Rescale(k), invs), v) == Map(Rescale(k), OfVendor(invs, v))
  {
    if invs != [] {
      assert Map(Rescale(k), invs)[..|invs| - 1] == Map(Rescale(k), invs[..|invs| - 1]);
      ScaledOfVendor(invs[..|invs| - 1], k, v);
    }
  }

  lemma ScaledDated(invs: seq<Invoice>, k: real, v: string)
    ensures Dated(Map(Rescale(k), invs), v) == Map(Rescale(k), Dated(invs, v))
  {
    ScaledOfVendor(invs, k, v);
    MapSort(Rescale(k), ByDate(), ByDate(), OfVendor(invs, v));
  }

  lemma {:induction false} ScaledFlaggedTo(score: Scorer, v: string, list: seq<Invoice>, n: nat, k: real)
    requires ScaleInvariant(score, k) && n <= |list|
    ensures FlaggedTo(score, v, Map(Rescale(k), list), n) == Map(Scaled(k), FlaggedTo(score, v, list, n))
  {
    if n > 0 {
      ScaledFlaggedTo(score, v, list, n - 1, k);
      var list' := Map(Rescale(k), list);
      ScaledAmounts(list, n - 1, k);
      MapAppend(Scaled(k), FlaggedTo(score, v, list, n - 1), VerdictAt(score, v, list, n - 1));
    }
  }

  lemma ScaledAmounts(list: seq<Invoice>, n: nat, k: real)
    requires n <= |list|
    ensures AmountsTo(Map(Rescale(k), list), n) == Affine(AmountsTo(list, n), k, 0.0)
  {
    var l, r := AmountsTo(Map(Rescale(k), list), n), Affine(AmountsTo(list, n), k, 0.0);
    forall i | 0 <= i < n ensures l[i] == r[i] {
      assert Map(Rescale(k), list)[i] == Rescale(k)(list[i]);
    }
  }

  lemma ScaledFlaggedOf(score: Scorer, invs: seq<Invoice>, v: string, k: real)
    requires ScaleInvariant(score, k)
    ensures Reporter(score, Map(Rescale(k), invs))(v) == Map(Scaled(k), Reporter(score, invs)(v))
  {
    ScaledDated(invs, k, v);
    ScaledFlaggedTo(score, v, Dated(invs, v), |Dated(invs, v)|, k);
  }

  lemma {:induction false} MappedConcat(f: string -> seq<Anomaly>, g: string -> seq<Anomaly>, h: Anomaly -> Anomaly,
                                        vs: seq<string>, n: nat)
    requires n <= |vs| && forall v :: g(v) == Map(h, f(v))
    ensures Concat(g, vs, n) == Map(h, Concat(f, vs, n))
  {
    if n > 0 { MappedConcat(f, g, h, vs, n - 1); }
  }

  /** Scaling all amounts by a positive factor gives the same anomalies, with
      scaled amounts, in the same order. */
  lemma ScanScales(score: Scorer, round: real -> real, invs: seq<Invoice>, k: real)
    requires ScaleInvariant(score, k)
    ensures ScanSpec(score, round, Map(Rescale(k), invs)) == Map(Scaled(k), ScanSpec(score, round, invs))
  {
    ScaledVendors(invs, k);
    forall v
      ensures Reporter(score, Map(Rescale(k), invs))(v) == Map(Scaled(k), Reporter(score, invs)(v))
    {
      ScaledFlaggedOf(score, invs, v, k);
    }
    MappedConcat(Reporter(score, invs), Reporter(score, Map(Rescale(k), invs)), Scaled(k),
                  Vendors(invs), |Vendors(invs)|);
    MapSortDesc(Scaled(k), Size(round), AllFlagged(score, invs));
  }

  /** So for the scan with `score_invoice`, whatever its threshold. */
  lemma ScoredScanScales(sqrt: real -> real, t: real, round: real -> real, invs: seq<Invoice>, k: real)
    requires IsRoot(sqrt) && k > 0.0
    ensures ScanSpec(ZScorer(sqrt, t), round, Map(Rescale(k), invs))
         == Map(Scaled(k), ScanSpec(ZScorer(sqrt, t), round, invs))
  {
    ZScorerScales(sqrt, t, k);
    ScanScales(ZScorer(sqrt, t), round, invs, k);
  }

  // ---- The loops ----

  /** The dict of each vendor's invoices, as they come. */
  ghost predicate IsGrouping(order: seq<string>, byVendor: map<string, seq<Invoice>>, invs: seq<Invoice>) {
    && order == Vendors(invs) && (forall v :: v in order <==> v in byVendor)
    && forall v :: v in byVendor ==> byVendor[v] == OfVendor(invs, v)
  }

  lemma GroupingStep(order: seq<string>, byVendor: map<string, seq<Invoice>>, invs: seq<Invoice>, inv: Invoice)
    requires IsGrouping(order, byVendor, invs)
    ensures var v := inv.vendor;
            var known := if v in byVendor then byVendor[v] else [];
            IsGrouping(if v in byVendor then order else order + [v], byVendor[v := known + [inv]], invs + [inv])
  {
    assert (invs + [inv])[..|invs|] == invs;
    VendorsComplete(invs, inv.vendor);
    assert forall v :: OfVendor(invs, v) + [] == OfVendor(invs, v);
  }

  method GroupByVendor(invs: seq<Invoice>) returns (order: seq<string>, byVendor: map<string, seq<Invoice>>)
    ensures IsGrouping(order, byVendor, invs)
  {
    order, byVendor := [], map[];
    for i := 0 to |invs|
      invariant IsGrouping(order, byVendor, invs[..i])
    {
      var inv := invs[i];
      var v := inv.vendor;
      assert invs[..i + 1] == invs[..i] + [inv];
      GroupingStep(order, byVendor, invs[..i], inv);
      var known := if v in byVendor then byVendor[v] else [];
      order := if v in byVendor then order else order + [v];
      byVendor := byVendor[v := known + [inv]];
    }
    assert invs[..|invs|] == invs;
  }

  /** Each invoice of a vendor's list is scored against the history so far. */
  method ScanVendor(score: Scorer, v: string, list: seq<Invoice>) returns (found: seq<Anomaly>)
    ensures found == FlaggedTo(score, v, list, |list|)
  {
    found := [];
    var history: seq<real> := [];
    for k := 0 to |list|
      invariant history == AmountsTo(list, k) && found == FlaggedTo(score, v, list, k)
    {
      var result := score(v, list[k].amount, history);
      if result.isAnomaly { found := found + [result]; }
      history := history + [list[k].amount];
    }
  }

  method ReportVendor(score: Scorer, ghost invs: seq<Invoice>, v: string, own: seq<Invoice>) returns (found: seq<Anomaly>)
    requires own == OfVendor(invs, v)
    ensures found == Reporter(score, invs)(v)
  {
    found := ScanVendor(score, v, Sort(ByDate(), own));
  }

  lemma GroupingAt(order: seq<string>, byVendor: map<string, seq<Invoice>>, invs: seq<Invoice>, i: nat)
    requires IsGrouping(order, byVendor, invs) && i < |order|
    ensures order[i] in byVendor && byVendor[order[i]] == OfVendor(invs, order[i])
  {
    assert order[i] in order;
  }

  method ReportNext(score: Scorer, ghost invs: seq<Invoice>, ghost f: string -> seq<Anomaly>, order: seq<string>,
                    byVendor: map<string, seq<Invoice>>, i: nat, anomalies: seq<Anomaly>)
    returns (anomalies': seq<Anomaly>)
    requires IsGrouping(order, byVendor, invs) && i < |order| && f == Reporter(score, invs)
    ensures anomalies' == anomalies + f(order[i])
  {
    GroupingAt(order, byVendor, invs, i);
    var found := ReportVendor(score, invs, order[i], byVendor[order[i]]);
    anomalies' := anomalies + found;
  }

  method ReportAll(score: Scorer, ghost invs: seq<Invoice>, ghost f: string -> seq<Anomaly>, order: seq<string>,
                   byVendor: map<string, seq<Invoice>>)
    returns (anomalies: seq<Anomaly>)
    requires IsGrouping(order, byVendor, invs) && f == Reporter(score, invs)
    ensures anomalies == Concat(f, order, |order|)
  {
    anomalies := [];
    for i := 0 to |order|
      invariant anomalies == Concat(f, order, i)
    {
      ghost var before := anomalies;
      anomalies := ReportNext(score, invs, f, order, byVendor, i, anomalies);
      assert anomalies == before + f(order[i]);
    }
  }

  /** `scan`. */
  method ScanInvoices(score: Scorer, round: real -> real, invs: seq<Invoice>) returns (anomalies: seq<Anomaly>)
    ensures anomalies == ScanSpec(score, round, invs)
  {
    var order, byVendor := GroupByVendor(invs);
    anomalies := ReportAll(score, invs, Reporter(score, invs), order, byVendor);
    anomalies := SortDesc(Size(round), anomalies);
  }
}
