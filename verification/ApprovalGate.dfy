/** The approval gate as the program runs it: records in a store, rewritten in place. */
module ApprovalGate {
  import opened Wrappers
  import opened StringOrder
  import opened StableSort
  import opened KeyLists
  import opened Approvals

  /** The pending records among `ids`, in that order; `clock` is the reading of the
      clock at each of them. */
  function PendingIds(st: Store, ids: seq<string>, clock: string -> int): seq<string> {
    if ids == [] then []
    else
      var id := ids[|ids| - 1];
      PendingIds(st, ids[..|ids| - 1], clock) + if Listed(st, id, clock(id)) then [id] else []
  }

  lemma {:induction false} PendingIdsExact(st: Store, ids: seq<string>, clock: string -> int)
    requires NoRepeats(ids) && Sorted(Self(), ids)
    ensures var r := PendingIds(st, ids, clock);
            && NoRepeats(r) && Sorted(Self(), r)
            && forall id :: id in r <==> id in ids && Listed(st, id, clock(id))
  {
    if ids != [] {
      var init, last := ids[..|ids| - 1], ids[|ids| - 1];
      assert ids == init + [last];
      PendingIdsExact(st, init, clock);
      var r := PendingIds(st, init, clock);
      forall i | 0 <= i < |r| ensures r[i] != last && !Less(last, r[i]) {
        assert r[i] in r;
        var m :| 0 <= m < |init| && init[m] == r[i];
        assert ids[m] == r[i] && !Less(Self()(ids[|ids| - 1]), Self()(ids[m]));
      }
    }
  }

  /** `ids` is what `list_pending` gives: the listed ids, in ascending order. */
  ghost predicate IsListing(st: Store, ids: seq<string>, clock: string -> int) {
    NoRepeats(ids) && Sorted(Self(), ids) && forall id :: id in ids <==> Listed(st, id, clock(id))
  }

  /** The order that the documentation promises. */
  predicate ByCreation(st: Store, ids: seq<string>)
    requires forall id :: id in ids ==> id in st
  {
    forall i, j :: 0 <= i < j < |ids| ==> st[ids[i]].createdAt <= st[ids[j]].createdAt
  }

  /** The listing has that order exactly when no listed record has a smaller id than
      a listed one created before it. */
  lemma ListedByCreation(st: Store, ids: seq<string>, clock: string -> int)
    requires IsListing(st, ids, clock)
    ensures ByCreation(st, ids) <==>
            forall a, b :: Listed(st, a, clock(a)) && Listed(st, b, clock(b)) && Less(a, b)
                           ==> st[a].createdAt <= st[b].createdAt
  {
    forall i, j | 0 <= i < j < |ids| ensures Less(ids[i], ids[j]) {
      assert ids[i] != ids[j] && !Less(Self()(ids[j]), Self()(ids[i]));
      LessTotal(ids[i], ids[j]);
    }
    if ByCreation(st, ids) {
      forall a, b | Listed(st, a, clock(a)) && Listed(st, b, clock(b)) && Less(a, b)
        ensures st[a].createdAt <= st[b].createdAt
      {
        assert a in ids && b in ids;
        var i :| 0 <= i < |ids| && ids[i] == a;
        var j :| 0 <= j < |ids| && ids[j] == b;
        LessAsymmetric(a, b);
      }
    }
    forall i | 0 <= i < |ids| ensures Listed(st, ids[i], clock(ids[i])) {
      assert ids[i] in ids;
    }
  }

  /** One request created after another, from an empty store. */
  lemma TwoCreated(h: IdHash, s: Spend, t: Spend, context: string, ttl: int, m1: Moment, m2: Moment)
    ensures var st := Create(h, Create(h, map[], s, context, ttl, m1), t, context, ttl, m2);
            var a, b := RequestId(h, s, m1.day), RequestId(h, t, m2.day);
            && (forall id :: id in st <==> id == a || id == b) && (forall id :: id in st ==> IsPending(st, id))
            && st[a].createdAt == m1.utc && (a != b ==> st[b].createdAt == m2.utc)
  {
  }

  /** The order of creation is lost, for every hash, exactly when the later of two
      requests has the smaller id. */
  lemma ListingIgnoresCreation(h: IdHash, s: Spend, t: Spend, context: string, ttl: int, m1: Moment, m2: Moment,
                               ids: seq<string>, clock: string -> int)
    requires ValidSpend(s) && ValidSpend(t) && m1.utc < m2.utc
    requires var st := Create(h, Create(h, map[], s, context, ttl, m1), t, context, ttl, m2);
             IsListing(st, ids, clock) && forall id :: id in st ==> clock(id) <= st[id].expiresAt
    ensures var st := Create(h, Create(h, map[], s, context, ttl, m1), t, context, ttl, m2);
            ByCreation(st, ids) <==> !Less(RequestId(h, t, m2.day), RequestId(h, s, m1.day))
  {
    var st := Create(h, Create(h, map[], s, context, ttl, m1), t, context, ttl, m2);
    var a, b := RequestId(h, s, m1.day), RequestId(h, t, m2.day);
    TwoCreated(h, s, t, context, ttl, m1, m2);
    ListedByCreation(st, ids, clock);
    if Less(a, b) { LessAsymmetric(a, b); }
    if Less(b, a) { LessAsymmetric(b, a); }
    assert Listed(st, a, clock(a)) && Listed(st, b, clock(b));
  }

  /** The files of a directory by name, in ascending order. */
  method SortedIds(ids: set<string>) returns (r: seq<string>)
    ensures NoRepeats(r) && Sorted(Self(), r) && forall id :: id in r <==> id in ids
  {
    var left := ids;
    r := [];
    while left != {}
      invariant left <= ids && NoRepeats(r)
      invariant forall id :: id in r <==> id in ids && id !in left
      decreases |left|
    {
      var id :| id in left;
      r := r + [id];
      left := left - {id};
    }
    SortDistinct(r);
    r := Sort(Self(), r);
  }

  class Gate {
    const h: IdHash
    var store: Store

    constructor (h: IdHash)
      ensures this.h == h && store == map[]
    {
      this.h := h;
      store := map[];
    }

    /** `create_request`; None when the boundary check raises. */
    method CreateRequest(s: Spend, context: string, ttl: int, now: Moment) returns (id: Option<string>)
      modifies this
      ensures store == Step(h, old(store), CreateOp(s, context, ttl, now))
      ensures id == if ValidSpend(s) then Some(RequestId(h, s, now.day)) else None
    {
      if s.action !in VALID_ACTIONS || s.amount < 0 {
        return None;
      }
      var rid := RequestId(h, s, now.day);
      id := Some(rid);
      if rid in store && store[rid].status.Pending? {
        return;
      }
      store := store[rid := Record(rid, s.action, s.vendor, s.amount, context, now.utc, now.utc + ttl, Pending, None, None)];
    }

    /** `decide`; None when there is no such record. */
    method DecideRequest(id: string, approved: bool, who: string, now: int) returns (r: Option<Record>)
      modifies this
      ensures store == Step(h, old(store), DecideOp(id, approved, who, now))
      ensures r == if id in old(store) then Some(store[id]) else None
    {
      if id !in store {
        return None;
      }
      var record := store[id];
      if record.status.Pending? {
        if now > record.expiresAt {
          record := record.(status := Expired);
        } else {
          record := record.(status := if approved then Approved else Denied);
          record := record.(decidedAt := Some(now), decidedBy := Some(who));
        }
        store := store[id := record];
      }
      r := Some(record);
    }

    /** `check`; None when there is no such record. */
    method CheckRequest(id: string, now: int) returns (r: Option<Record>)
      modifies this
      ensures store == Step(h, old(store), CheckOp(id, now))
      ensures r == if id in old(store) then Some(store[id]) else None
    {
      if id !in store {
        return None;
      }
      var record := store[id];
      if record.status.Pending? && now > record.expiresAt {
        record := record.(status := Expired);
        store := store[id := record];
      }
      r := Some(record);
    }

    method IsApproved(id: string, now: int) returns (b: bool)
      modifies this
      ensures store == Check(old(store), id, now)
      ensures b <==> id in store && store[id].status.Approved?
    {
      var r := CheckRequest(id, now);
      b := r.Some? && r.value.status.Approved?;
    }

    /** `enforce_spend`: `m3` is the reading for the record that is returned. */
    method EnforceSpend(s: Spend, threshold: int, m1: Moment, m2: Moment, m3: int) returns (g: Approvals.Gate)
      modifies this
      ensures store == Step(h, old(store), EnforceOp(s, threshold, m1, m2))
      ensures g == Enforce(h, old(store), s, threshold, m1, m2).0
    {
      if s.action !in VALID_ACTIONS || s.amount < 0 {
        return ValueError;
      }
      if s.amount <= threshold {
        return AutoApproved;
      }
      var rid := RequestId(h, s, m1.day);
      if rid in store {
        var approved := IsApproved(rid, m1.utc);
        if approved {
          var r := CheckRequest(rid, m3);
          return Released(r.value);
        }
      }
      var id := CreateRequest(s, "", DEFAULT_TTL, m2);
      g := ApprovalRequired(id.value);
    }

    /** `list_pending`: exactly the pending records that are not stale, in ascending
        order of their ids, which are the file names. */
    method ListPending(clock: string -> int) returns (ids: seq<string>, r: seq<Record>)
      ensures NoRepeats(ids) && Sorted(Self(), ids) && forall id :: id in ids <==> Listed(store, id, clock(id))
      ensures |r| == |ids| && forall i :: 0 <= i < |r| ==> ids[i] in store && r[i] == store[ids[i]]
    {
      var files := SortedIds(store.Keys);
      ids, r := [], [];
      for i := 0 to |files|
        invariant ids == PendingIds(store, files[..i], clock)
        invariant |r| == |ids| && forall k :: 0 <= k < |r| ==> ids[k] in store && r[k] == store[ids[k]]
      {
        assert files[..i + 1][..i] == files[..i] && files[i] in files;
        var record := store[files[i]];
        if record.status.Pending? && clock(files[i]) <= record.expiresAt {
          ids := ids + [files[i]];
          r := r + [record];
        }
      }
      assert files[..|files|] == files;
      PendingIdsExact(store, files, clock);
    }
  }
}
