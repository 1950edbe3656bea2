/** The canonical text of a value, `json.dumps(v, sort_keys=True,
    separators=(",", ":"), ensure_ascii=False)`: it determines the value, and
    it does not depend on the order of the keys. */
module Canonical {
  import opened Wrappers
  import opened StringOrder
  import opened Json
  import opened JsonRoundTrip

  function Insert(k: string, v: Json, ms: Members): (r: Members)
    ensures Keys(r) == {k} + Keys(ms)
    ensures UniqueKeys(ms) && k !in Keys(ms) ==> UniqueKeys(r)
  {
    match ms
    case MNil => MCons(k, v, MNil)
    case MCons(key, w, t) =>
      if Less(k, key) then MCons(k, v, ms) else MCons(key, w, Insert(k, v, t))
  }

  /** `v` with the members of every object sorted by key. */
  function SortKeys(v: Json): Json {
    match v
    case JArray(items) => JArray(SortItems(items))
    case JObject(ms) => JObject(SortMembers(ms))
    case _ => v
  }

  function SortItems(items: Items): Items {
    match items
    case INil => INil
    case ICons(v, t) => ICons(SortKeys(v), SortItems(t))
  }

  function SortMembers(ms: Members): (r: Members)
    ensures Keys(r) == Keys(ms)
    ensures UniqueKeys(ms) ==> UniqueKeys(r)
  {
    match ms
    case MNil => MNil
    case MCons(k, v, t) => Insert(k, SortKeys(v), SortMembers(t))
  }

  function CanonicalText(v: Json): string {
    Emit(Compact, SortKeys(v), "")
  }

  /** Equality of values as Python compares dicts: key order does not count. */
  predicate Same(v: Json, w: Json) {
    match v
    case JArray(items) => w.JArray? && SameItems(items, w.items)
    case JObject(ms) => w.JObject? && Keys(ms) == Keys(w.members) && SameMembers(ms, w.members)
    case _ => v == w
  }

  predicate SameItems(a: Items, b: Items) {
    match a
    case INil => b.INil?
    case ICons(v, t) => b.ICons? && Same(v, b.head) && SameItems(t, b.tail)
  }

  /** Every member of `a` has its like in `b`. */
  predicate SameMembers(a: Members, b: Members) {
    match a
    case MNil => true
    case MCons(k, v, t) => k in Keys(b) && Same(v, Get(b, k).value) && SameMembers(t, b)
  }

  // ---- Sorting keeps values well formed ----

  lemma {:induction false} SortWellFormed(fr: FloatRepr, v: Json)
    requires WellFormed(fr, v)
    ensures WellFormed(fr, SortKeys(v))
    decreases v
  {
    match v
    case JArray(items) => SortItemsWellFormed(fr, items);
    case JObject(ms) => SortMembersWellFormed(fr, ms);
    case _ =>
  }

  lemma {:induction false} SortItemsWellFormed(fr: FloatRepr, items: Items)
    requires WellFormedItems(fr, items)
    ensures WellFormedItems(fr, SortItems(items))
    decreases items
  {
    if items.ICons? {
      SortWellFormed(fr, items.head);
      SortItemsWellFormed(fr, items.tail);
    }
  }

  lemma {:induction false} SortMembersWellFormed(fr: FloatRepr, ms: Members)
    requires WellFormedMembers(fr, ms)
    ensures WellFormedMembers(fr, SortMembers(ms))
    decreases ms
  {
    if ms.MCons? {
      SortWellFormed(fr, ms.value);
      SortMembersWellFormed(fr, ms.tail);
      InsertWellFormed(fr, ms.key, SortKeys(ms.value), SortMembers(ms.tail));
    }
  }

  lemma {:induction false} InsertWellFormed(fr: FloatRepr, k: string, v: Json, ms: Members)
    requires WellFormed(fr, v) && WellFormedMembers(fr, ms)
    ensures WellFormedMembers(fr, Insert(k, v, ms))
  {
    if ms.MCons? { InsertWellFormed(fr, k, v, ms.tail); }
  }

  // ---- Sorted dicts are determined by their lookups ----

  predicate Sorted(ms: Members) {
    ms.MCons? ==> (forall k :: k in Keys(ms.tail) ==> Less(ms.key, k)) && Sorted(ms.tail)
  }

  lemma {:induction false} InsertSorted(k: string, v: Json, ms: Members)
    requires Sorted(ms) && k !in Keys(ms)
    ensures Sorted(Insert(k, v, ms))
  {
    if ms.MCons? {
      if Less(k, ms.key) {
        forall j | j in Keys(ms) ensures Less(k, j) {
          if j != ms.key { LessTransitive(k, ms.key, j); }
        }
      } else {
        LessTotal(k, ms.key);
        InsertSorted(k, v, ms.tail);
      }
    }
  }

  lemma {:induction false} InsertGet(k: string, v: Json, ms: Members, j: string)
    requires k !in Keys(ms)
    ensures Get(Insert(k, v, ms), j) == if j == k then Some(v) else Get(ms, j)
  {
    if ms.MCons? { InsertGet(k, v, ms.tail, j); }
  }

  lemma {:induction false} SortMembersSorted(ms: Members)
    requires UniqueKeys(ms)
    ensures Sorted(SortMembers(ms))
  {
    if ms.MCons? {
      SortMembersSorted(ms.tail);
      InsertSorted(ms.key, SortKeys(ms.value), SortMembers(ms.tail));
    }
  }

  /** Sorting sorts below each key and moves nothing between keys. */
  lemma {:induction false} SortMembersGet(ms: Members, j: string)
    requires UniqueKeys(ms)
    ensures Get(SortMembers(ms), j) ==
            if Get(ms, j).None? then None else Some(SortKeys(Get(ms, j).value))
  {
    if ms.MCons? {
      SortMembersGet(ms.tail, j);
      InsertGet(ms.key, SortKeys(ms.value), SortMembers(ms.tail), j);
    }
  }

  lemma {:induction false} SortedDetermined(a: Members, b: Members)
    requires Sorted(a) && Sorted(b) && UniqueKeys(a) && UniqueKeys(b)
    requires Keys(a) == Keys(b)
    requires forall k :: k in Keys(a) ==> Get(a, k) == Get(b, k)
    ensures a == b
  {
    if a.MCons? {
      assert a.key in Keys(b);
      assert b.MCons?;
      if a.key != b.key {
        assert a.key in Keys(b.tail) && b.key in Keys(a.tail);
        LessAsymmetric(a.key, b.key);
      }
      assert Get(a, a.key) == Get(b, a.key);
      assert Keys(a.tail) == Keys(a) - {a.key};
      assert Keys(b.tail) == Keys(b) - {b.key};
      forall k | k in Keys(a.tail) ensures Get(a.tail, k) == Get(b.tail, k) {
        assert Get(a, k) == Get(b, k);
      }
      SortedDetermined(a.tail, b.tail);
    }
  }

  // ---- Same value if and only if same sorted form ----

  lemma {:induction false} SameSorts(fr: FloatRepr, v: Json, w: Json)
    requires WellFormed(fr, v) && WellFormed(fr, w)
    ensures Same(v, w) <==> SortKeys(v) == SortKeys(w)
    decreases v
  {
    match v
    case JArray(items) => if w.JArray? { SameSortsItems(fr, items, w.items); }
    case JObject(ms) => if w.JObject? { SameSortsDict(fr, ms, w.members); }
    case _ =>
  }

  lemma {:induction false} SameSortsItems(fr: FloatRepr, a: Items, b: Items)
    requires WellFormedItems(fr, a) && WellFormedItems(fr, b)
    ensures SameItems(a, b) <==> SortItems(a) == SortItems(b)
    decreases a
  {
    if a.ICons? && b.ICons? {
      SameSorts(fr, a.head, b.head);
      SameSortsItems(fr, a.tail, b.tail);
    }
  }

  lemma {:induction false} GetWellFormed(fr: FloatRepr, ms: Members, k: string)
    requires WellFormedMembers(fr, ms) && k in Keys(ms)
    ensures WellFormed(fr, Get(ms, k).value)
  {
    if ms.key != k { GetWellFormed(fr, ms.tail, k); }
  }

  /** Member by member: like values are values that sort alike. */
  lemma {:induction false} SameSortsMembers(fr: FloatRepr, a: Members, b: Members)
    requires WellFormedMembers(fr, a) && WellFormedMembers(fr, b) && UniqueKeys(a)
    requires Keys(a) <= Keys(b)
    ensures SameMembers(a, b) <==>
            forall k :: k in Keys(a) ==> SortKeys(Get(a, k).value) == SortKeys(Get(b, k).value)
    decreases a, 0
  {
    if a.MCons? {
      GetWellFormed(fr, b, a.key);
      SameSorts(fr, a.value, Get(b, a.key).value);
      SameSortsMembers(fr, a.tail, b);
      assert forall k :: k in Keys(a.tail) ==> Get(a, k) == Get(a.tail, k);
      assert Get(a, a.key) == Some(a.value);
      if SameMembers(a, b) {
        forall k | k in Keys(a) ensures SortKeys(Get(a, k).value) == SortKeys(Get(b, k).value) {
          if k != a.key { assert k in Keys(a.tail); }
        }
      }
    }
  }

  lemma {:induction false} SameSortsDict(fr: FloatRepr, a: Members, b: Members)
    requires WellFormedMembers(fr, a) && WellFormedMembers(fr, b) && UniqueKeys(a) && UniqueKeys(b)
    ensures (Keys(a) == Keys(b) && SameMembers(a, b)) <==> SortMembers(a) == SortMembers(b)
    decreases a, 1
  {
    if Keys(a) == Keys(b) {
      SameSortsMembers(fr, a, b);
      forall k | k in Keys(a)
        ensures Get(SortMembers(a), k) == Some(SortKeys(Get(a, k).value))
        ensures Get(SortMembers(b), k) == Some(SortKeys(Get(b, k).value))
      {
        SortMembersGet(a, k);
        SortMembersGet(b, k);
      }
      if SameMembers(a, b) {
        SortMembersSorted(a);
        SortMembersSorted(b);
        SortedDetermined(SortMembers(a), SortMembers(b));
      }
    } else {
      assert Keys(SortMembers(a)) != Keys(SortMembers(b));
    }
  }

  /** The canonical text is a complete invariant of the value: equal texts mean
      equal values, and key order makes no difference. */
  lemma CanonicalComplete(fr: FloatRepr, v: Json, w: Json)
    requires WellFormed(fr, v) && WellFormed(fr, w)
    ensures CanonicalText(v) == CanonicalText(w) <==> Same(v, w)
  {
    SameSorts(fr, v, w);
    SortWellFormed(fr, v);
    SortWellFormed(fr, w);
    DumpsLoads(fr, Compact, SortKeys(v));
    DumpsLoads(fr, Compact, SortKeys(w));
  }

  /** The canonical text is compact. */
  lemma CanonicalIsCompact()
    ensures CanonicalText(JArray(ICons(JNull, ICons(JNull, INil)))) == "[null,null]"
  {
    var last := ICons(JNull, INil);
    assert SortItems(last) == last;
    assert EmitItems(Compact, last, "") == "null]";
  }
}
