/** Usage-based billing of property owners, in cents, with exact rates. */
module Billing {
  import opened KeyLists
  import opened Sequences
  import opened Sums
  import opened RealArithmetic

  datatype Property = Property(owner: string, managementRate: real)

  /** The registry, with its keys in order, and the latest revenue where there is any. */
  datatype Registry = Registry(ids: seq<string>, properties: map<string, Property>, revenue: map<string, int>)

  const PLATFORM_RATE: real := 0.005

  /** `int(x)`: truncation toward zero. */
  function Truncate(x: real): int {
    if x >= 0.0 then x.Floor else -((-x).Floor)
  }

  function RevenueOf(r: Registry, id: string): int {
    if id in r.revenue then r.revenue[id] else 0
  }

  datatype Line = Line(id: string, revenue: int, fee: int)

  datatype Invoice = Invoice(owner: string, lines: seq<Line>, totalRevenue: int, totalFee: int)

  function RateOf(r: Registry, id: string): real {
    if id in r.properties then r.properties[id].managementRate else 0.0
  }

  function OwnerOf(r: Registry): string -> string {
    (id: string) => if id in r.properties then r.properties[id].owner else ""
  }

  function Revenues(r: Registry): string -> int {
    (id: string) => RevenueOf(r, id)
  }

  /** The management fee and the platform fee of a line, each truncated to cents. */
  function Fee(revenue: real, rate: real): int {
    Truncate(revenue * rate) + Truncate(revenue * PLATFORM_RATE)
  }

  /** The same without truncation. */
  function ExactFee(revenue: real, rate: real): real {
    revenue * (rate + PLATFORM_RATE)
  }

  function Fees(r: Registry): string -> int {
    (id: string) => Fee(RevenueOf(r, id) as real, RateOf(r, id))
  }

  /** The ids that belong to an owner, in registry order. */
  function OwnedBy(ids: seq<string>, ownerOf: string -> string, owner: string): seq<string> {
    if ids == [] then []
    else
      var id := ids[|ids| - 1];
      OwnedBy(ids[..|ids| - 1], ownerOf, owner) + if ownerOf(id) == owner then [id] else []
  }

  /** `list_properties_for_owner`. */
  function Owned(r: Registry, owner: string): seq<string> {
    OwnedBy(r.ids, OwnerOf(r), owner)
  }

  function LinesFor(ids: seq<string>, revenue: string -> int, fee: string -> int): (s: seq<Line>)
    ensures |s| == |ids|
  {
    seq(|ids|, i requires 0 <= i < |ids| => Line(ids[i], revenue(ids[i]), fee(ids[i])))
  }

  ghost predicate IsInvoice(inv: Invoice, r: Registry, owner: string) {
    && inv.owner == owner && inv.lines == LinesFor(Owned(r, owner), Revenues(r), Fees(r))
    && inv.totalRevenue == SumOf(Revenues(r), Owned(r, owner))
    && inv.totalFee == SumOf(Fees(r), Owned(r, owner))
  }

  method Itemize(ids: seq<string>, revenue: string -> int, fee: string -> int)
    returns (lines: seq<Line>, totalRevenue: int, totalFee: int)
    ensures lines == LinesFor(ids, revenue, fee)
    ensures totalRevenue == SumOf(revenue, ids) && totalFee == SumOf(fee, ids)
  {
    lines, totalRevenue, totalFee := [], 0, 0;
    for i := 0 to |ids|
      invariant lines == LinesFor(ids[..i], revenue, fee)
      invariant totalRevenue == SumOf(revenue, ids[..i]) && totalFee == SumOf(fee, ids[..i])
    {
      SumStep(revenue, ids, i);
      SumStep(fee, ids, i);
      var rev := revenue(ids[i]);
      var f := fee(ids[i]);
      lines := lines + [Line(ids[i], rev, f)];
      totalRevenue := totalRevenue + rev;
      totalFee := totalFee + f;
    }
    assert ids[..|ids|] == ids;
  }

  /** `calculate_ubp`. */
  method CalculateUbp(r: Registry, owner: string) returns (inv: Invoice)
    ensures IsInvoice(inv, r, owner)
  {
    var lines, revenue, fee := Itemize(Owned(r, owner), Revenues(r), Fees(r));
    inv := Invoice(owner, lines, revenue, fee);
  }

  // ---- Each property is billed once ----

  predicate AllOwned(ids: seq<string>, ownerOf: string -> string, owners: seq<string>) {
    forall j :: 0 <= j < |ids| ==> ownerOf(ids[j]) in owners
  }

  /** What an owner's part of the properties sums to. */
  function Share(f: string -> int, ids: seq<string>, ownerOf: string -> string): string -> int {
    (owner: string) => SumOf(f, OwnedBy(ids, ownerOf, owner))
  }

  lemma OwnedSumStep(f: string -> int, ids: seq<string>, id: string, ownerOf: string -> string, owner: string)
    ensures SumOf(f, OwnedBy(ids + [id], ownerOf, owner))
         == SumOf(f, OwnedBy(ids, ownerOf, owner)) + if ownerOf(id) == owner then f(id) else 0
  {
    assert (ids + [id])[..|ids|] == ids;
    var before := OwnedBy(ids, ownerOf, owner);
    assert (before + [id])[..|before|] == before && before + [] == before;
  }

  lemma SharesGrow(f: string -> int, ids: seq<string>, id: string, ownerOf: string -> string, owners: seq<string>)
    requires NoRepeats(owners) && ownerOf(id) in owners
    ensures SumOf(Share(f, ids + [id], ownerOf), owners) == SumOf(Share(f, ids, ownerOf), owners) + f(id)
  {
    var before, after := Share(f, ids, ownerOf), Share(f, ids + [id], ownerOf);
    forall o ensures after(o) == before(o) + if o == ownerOf(id) then f(id) else 0 {
      OwnedSumStep(f, ids, id, ownerOf, o);
    }
    SumChange(before, after, owners, ownerOf(id), f(id));
  }

  /** What the parts of all distinct owners sum to is what the properties sum to. */
  lemma {:induction false} BillingConserves(f: string -> int, ids: seq<string>, ownerOf: string -> string,
                                           owners: seq<string>)
    requires NoRepeats(owners) && AllOwned(ids, ownerOf, owners)
    ensures SumOf(Share(f, ids, ownerOf), owners) == SumOf(f, ids)
  {
    if ids == [] {
      SumZero(Share(f, ids, ownerOf), owners);
    } else {
      var init, id := ids[..|ids| - 1], ids[|ids| - 1];
      assert ids == init + [id];
      BillingConserves(f, init, ownerOf, owners);
      SharesGrow(f, init, id, ownerOf, owners);
    }
  }

  /** How often each property is listed, over the invoices of all `owners`. */
  function Listed(ids: seq<string>, ownerOf: string -> string, owners: seq<string>): multiset<string> {
    if owners == [] then multiset{}
    else Listed(ids, ownerOf, owners[..|owners| - 1]) + multiset(OwnedBy(ids, ownerOf, owners[|owners| - 1]))
  }

  lemma OwnedStep(ids: seq<string>, id: string, ownerOf: string -> string, owner: string)
    ensures multiset(OwnedBy(ids + [id], ownerOf, owner))
         == multiset(OwnedBy(ids, ownerOf, owner)) + if ownerOf(id) == owner then multiset{id} else multiset{}
  {
    assert (ids + [id])[..|ids|] == ids;
  }

  lemma {:induction false} ListedStep(ids: seq<string>, id: string, ownerOf: string -> string, owners: seq<string>)
    requires NoRepeats(owners)
    ensures Listed(ids + [id], ownerOf, owners)
         == Listed(ids, ownerOf, owners) + if ownerOf(id) in owners then multiset{id} else multiset{}
  {
    if owners != [] {
      var init, last := owners[..|owners| - 1], owners[|owners| - 1];
      assert owners == init + [last] && last !in init;
      ListedStep(ids, id, ownerOf, init);
      OwnedStep(ids, id, ownerOf, last);
    }
  }

  lemma {:induction false} NoneListed(ownerOf: string -> string, owners: seq<string>)
    ensures Listed([], ownerOf, owners) == multiset{}
  {
    if owners != [] { NoneListed(ownerOf, owners[..|owners| - 1]); }
  }

  /** Billing every distinct owner lists each property exactly once. */
  lemma {:induction false} EachListedOnce(ids: seq<string>, ownerOf: string -> string, owners: seq<string>)
    requires NoRepeats(owners) && AllOwned(ids, ownerOf, owners)
    ensures Listed(ids, ownerOf, owners) == multiset(ids)
  {
    if ids == [] {
      NoneListed(ownerOf, owners);
    } else {
      var init, id := ids[..|ids| - 1], ids[|ids| - 1];
      assert ids == init + [id];
      EachListedOnce(init, ownerOf, owners);
      ListedStep(init, id, ownerOf, owners);
    }
  }

  /** The invoices' revenues, in the order of the owners. */
  function InvoiceRevenue(invs: seq<Invoice>, n: nat): int
    requires n <= |invs|
  {
    if n == 0 then 0 else InvoiceRevenue(invs, n - 1) + invs[n - 1].totalRevenue
  }

  lemma {:induction false} InvoicesMatch(r: Registry, owners: seq<string>, invs: seq<Invoice>, n: nat)
    requires |invs| == |owners| && n <= |owners|
    requires forall i :: 0 <= i < |invs| ==> IsInvoice(invs[i], r, owners[i])
    ensures InvoiceRevenue(invs, n) == SumOf(Share(Revenues(r), r.ids, OwnerOf(r)), owners[..n])
  {
    if n > 0 {
      InvoicesMatch(r, owners, invs, n - 1);
      SumStep(Share(Revenues(r), r.ids, OwnerOf(r)), owners, n - 1);
    }
  }

  /** The ids on an invoice's lines. */
  function LineIds(lines: seq<Line>): (s: seq<string>)
    ensures |s| == |lines|
  {
    seq(|lines|, i requires 0 <= i < |lines| => lines[i].id)
  }

  /** How often each property stands on a line of the first `n` invoices. */
  function OnLines(invs: seq<Invoice>, n: nat): multiset<string>
    requires n <= |invs|
  {
    if n == 0 then multiset{} else OnLines(invs, n - 1) + multiset(LineIds(invs[n - 1].lines))
  }

  lemma {:induction false} LinesMatch(r: Registry, owners: seq<string>, invs: seq<Invoice>, n: nat)
    requires |invs| == |owners| && n <= |owners|
    requires forall i :: 0 <= i < |invs| ==> IsInvoice(invs[i], r, owners[i])
    ensures OnLines(invs, n) == Listed(r.ids, OwnerOf(r), owners[..n])
  {
    if n > 0 {
      LinesMatch(r, owners, invs, n - 1);
      assert owners[..n][..n - 1] == owners[..n - 1];
      assert LineIds(invs[n - 1].lines) == Owned(r, owners[n - 1]);
    }
  }

  /** On the lines of the invoices that `calculate_ubp` gives for all distinct owners
      each property stands once, and their revenues sum to the properties' revenues. */
  lemma InvoicesConserveRevenue(r: Registry, owners: seq<string>, invs: seq<Invoice>)
    requires NoRepeats(owners) && |invs| == |owners|
    requires forall i :: 0 <= i < |invs| ==> IsInvoice(invs[i], r, owners[i])
    requires AllOwned(r.ids, OwnerOf(r), owners)
    ensures InvoiceRevenue(invs, |invs|) == SumOf(Revenues(r), r.ids)
    ensures OnLines(invs, |invs|) == multiset(r.ids)
  {
    InvoicesMatch(r, owners, invs, |owners|);
    assert owners[..|owners|] == owners;
    BillingConserves(Revenues(r), r.ids, OwnerOf(r), owners);
    EachListedOnce(r.ids, OwnerOf(r), owners);
    LinesMatch(r, owners, invs, |owners|);
  }

  // ---- The fee against the exact rates ----

  /** The exact fee of a property. */
  function Exact(r: Registry): string -> real {
    (id: string) => ExactFee(RevenueOf(r, id) as real, RateOf(r, id))
  }

  function RealSum(f: string -> real, ids: seq<string>): real {
    if ids == [] then 0.0 else RealSum(f, ids[..|ids| - 1]) + f(ids[|ids| - 1])
  }

  lemma TruncateBound(x: real)
    requires x >= 0.0
    ensures x - 1.0 < Truncate(x) as real <= x
  {
  }

  lemma Distribute(a: real, b: real, c: real)
    ensures a * (b + c) == a * b + a * c
  {
  }

  /** A line charges at most the exact fee, and falls short of it by less than two cents. */
  lemma LineFeeBound(r: Registry, id: string)
    requires RevenueOf(r, id) >= 0 && RateOf(r, id) >= 0.0
    ensures Exact(r)(id) - 2.0 < Fees(r)(id) as real <= Exact(r)(id)
  {
    FeeBound(RevenueOf(r, id) as real, RateOf(r, id));
  }

  lemma FeeBound(rev: real, rate: real)
    requires rev >= 0.0 && rate >= 0.0
    ensures ExactFee(rev, rate) - 2.0 < Fee(rev, rate) as real <= ExactFee(rev, rate)
  {
    NonNegativeProduct(rev, rate);
    NonNegativeProduct(rev, PLATFORM_RATE);
    TruncateBound(rev * rate);
    TruncateBound(rev * PLATFORM_RATE);
    Distribute(rev, rate, PLATFORM_RATE);
  }

  lemma {:induction false} SumBound(fee: string -> int, exact: string -> real, ids: seq<string>)
    requires forall k :: k in ids ==> exact(k) - 2.0 < fee(k) as real <= exact(k)
    ensures SumOf(fee, ids) as real <= RealSum(exact, ids)
    ensures ids != [] ==> RealSum(exact, ids) - 2.0 * (|ids| as real) < SumOf(fee, ids) as real
  {
    if ids != [] {
      assert ids[|ids| - 1] in ids;
      SumBound(fee, exact, ids[..|ids| - 1]);
    }
  }

  /** An invoice never exceeds the exact fee, and with any lines at all stays within
      two cents a line of it. */
  lemma InvoiceFeeBound(r: Registry, owner: string, inv: Invoice)
    requires IsInvoice(inv, r, owner)
    requires forall k :: k in r.ids ==> RevenueOf(r, k) >= 0 && RateOf(r, k) >= 0.0
    ensures var exact := RealSum(Exact(r), Owned(r, owner));
            && inv.totalFee as real <= exact
            && (inv.lines != [] ==> exact - 2.0 * (|inv.lines| as real) < inv.totalFee as real)
  {
    OwnedInRegistry(r.ids, OwnerOf(r), owner);
    forall k | k in Owned(r, owner) ensures Exact(r)(k) - 2.0 < Fees(r)(k) as real <= Exact(r)(k) {
      LineFeeBound(r, k);
    }
    SumBound(Fees(r), Exact(r), Owned(r, owner));
  }

  lemma {:induction false} OwnedInRegistry(ids: seq<string>, ownerOf: string -> string, owner: string)
    ensures forall k :: k in OwnedBy(ids, ownerOf, owner) ==> k in ids
  {
    if ids != [] { OwnedInRegistry(ids[..|ids| - 1], ownerOf, owner); }
  }

  // ---- A line, spelled out ----

  /** Truncation is toward zero. */
  lemma TruncateExactly(x: real)
    ensures var t := Truncate(x) as real;
            if x >= 0.0 then 0.0 <= t <= x < t + 1.0 else t - 1.0 < x <= t <= 0.0
  {
  }

  lemma FeeParts(revenue: real, rate: real) returns (a: int, b: int)
    requires revenue >= 0.0 && rate >= 0.0
    ensures Fee(revenue, rate) == a + b && a as real <= revenue * rate < a as real + 1.0
    ensures b as real <= revenue * PLATFORM_RATE < b as real + 1.0
  {
    a, b := Truncate(revenue * rate), Truncate(revenue * PLATFORM_RATE);
    NonNegativeProduct(revenue, rate);
    NonNegativeProduct(revenue, PLATFORM_RATE);
    TruncateBound(revenue * rate);
    TruncateBound(revenue * PLATFORM_RATE);
  }

  /** The fee of a line is the management fee and the platform fee of half a percent, each
      rounded down to cents on its own. */
  lemma FeeExactly(r: Registry, id: string) returns (a: int, b: int)
    requires RevenueOf(r, id) >= 0 && RateOf(r, id) >= 0.0
    ensures var revenue := if id in r.revenue then r.revenue[id] else 0;
            var rate := if id in r.properties then r.properties[id].managementRate else 0.0;
            && Fees(r)(id) == a + b && a as real <= revenue as real * rate < a as real + 1.0
            && 1000 * b <= 5 * revenue < 1000 * (b + 1)
  {
    a, b := FeeParts(RevenueOf(r, id) as real, RateOf(r, id));
    PartsOf(RevenueOf(r, id), b);
  }

  lemma PartsOf(revenue: int, b: int)
    requires b as real <= revenue as real * PLATFORM_RATE < b as real + 1.0
    ensures 1000 * b <= 5 * revenue < 1000 * (b + 1)
  {
  }

  function IsOwnedBy(ownerOf: string -> string, owner: string): string -> bool {
    (id: string) => ownerOf(id) == owner
  }

  /** An invoice lists the owner's properties in the order of the registry. */
  lemma {:induction false} OwnedInOrder(ids: seq<string>, ownerOf: string -> string, owner: string)
    ensures OwnedBy(ids, ownerOf, owner) == Filter(IsOwnedBy(ownerOf, owner), ids)
  {
    if ids != [] { OwnedInOrder(ids[..|ids| - 1], ownerOf, owner); }
  }
}
