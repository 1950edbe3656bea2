/** `list.sort(key=...)` with string keys: the stable sort, and the fact that
    being sorted and keeping the order of equal keys determines it. */
module StableSort {
  import opened StringOrder

  /** `s` with `x` placed after every element whose key is not greater. */
  function Insert<T>(key: T -> string, s: seq<T>, x: T): (r: seq<T>)
    ensures |r| == |s| + 1
  {
    if s == [] then [x]
    else if Less(key(x), key(s[|s| - 1])) then Insert(key, s[..|s| - 1], x) + [s[|s| - 1]]
    else s + [x]
  }

  function Sort<T>(key: T -> string, s: seq<T>): (r: seq<T>)
    ensures |r| == |s|
  {
    if s == [] then [] else Insert(key, Sort(key, s[..|s| - 1]), s[|s| - 1])
  }

  predicate Sorted<T>(key: T -> string, s: seq<T>) {
    forall i, j :: 0 <= i < j < |s| ==> !Less(key(s[j]), key(s[i]))
  }

  /** The elements with key `k`, in their order. */
  function WithKey<T>(key: T -> string, s: seq<T>, k: string): seq<T> {
    if s == [] then []
    else WithKey(key, s[..|s| - 1], k) + if key(s[|s| - 1]) == k then [s[|s| - 1]] else []
  }

  lemma {:induction false} InsertSorted<T>(key: T -> string, s: seq<T>, x: T)
    requires Sorted(key, s)
    ensures Sorted(key, Insert(key, s, x))
    ensures forall i :: 0 <= i < |s| + 1 ==> Insert(key, s, x)[i] == x || Insert(key, s, x)[i] in s
  {
    if s != [] {
      var init, last := s[..|s| - 1], s[|s| - 1];
      if Less(key(x), key(last)) {
        InsertSorted(key, init, x);
        LessAsymmetric(key(x), key(last));
        var r := Insert(key, init, x);
        forall i | 0 <= i < |r| ensures !Less(key(last), key(r[i])) {
          if r[i] != x {
            var m :| 0 <= m < |init| && init[m] == r[i];
            assert !Less(key(s[|s| - 1]), key(s[m]));
          }
        }
      } else {
        forall i | 0 <= i < |s| ensures !Less(key(x), key(s[i])) {
          if Less(key(x), key(s[i])) && i < |s| - 1 {
            LessTotal(key(s[i]), key(last));
            if Less(key(s[i]), key(last)) { LessTransitive(key(x), key(s[i]), key(last)); }
          }
        }
      }
    }
  }

  lemma {:induction false} InsertWithKey<T>(key: T -> string, s: seq<T>, x: T, k: string)
    ensures WithKey(key, Insert(key, s, x), k) == WithKey(key, s, k) + if key(x) == k then [x] else []
  {
    if s != [] {
      var init, last := s[..|s| - 1], s[|s| - 1];
      var r := Insert(key, s, x);
      if Less(key(x), key(last)) {
        LessAsymmetric(key(x), key(last));
        InsertWithKey(key, init, x, k);
        assert r[..|r| - 1] == Insert(key, init, x);
      } else {
        assert r[..|r| - 1] == s;
      }
    }
  }

  /** Sorting sorts, and keeps the elements of each key in their order. */
  lemma {:induction false} SortIsStable<T>(key: T -> string, s: seq<T>)
    ensures Sorted(key, Sort(key, s))
    ensures forall k :: WithKey(key, Sort(key, s), k) == WithKey(key, s, k)
  {
    if s != [] {
      var init, last := s[..|s| - 1], s[|s| - 1];
      SortIsStable(key, init);
      InsertSorted(key, Sort(key, init), last);
      forall k ensures WithKey(key, Sort(key, s), k) == WithKey(key, s, k) {
        InsertWithKey(key, Sort(key, init), last, k);
      }
    }
  }

  lemma {:induction false} WithKeyMember<T>(key: T -> string, s: seq<T>, i: nat)
    ensures i < |s| ==> WithKey(key, s, key(s[i])) != []
    decreases |s|
  {
    if i < |s| - 1 {
      assert s[..|s| - 1][i] == s[i];
      WithKeyMember(key, s[..|s| - 1], i);
    }
  }

  lemma {:induction false} WithKeyIndex<T>(key: T -> string, s: seq<T>, k: string) returns (i: nat)
    requires WithKey(key, s, k) != []
    ensures i < |s| && key(s[i]) == k
  {
    var n := |s| - 1;
    if key(s[n]) == k {
      i := n;
    } else {
      i := WithKeyIndex(key, s[..n], k);
      assert s[..n][i] == s[i];
    }
  }

  lemma {:induction false} LastKeysAgree<T>(key: T -> string, a: seq<T>, b: seq<T>)
    requires Sorted(key, a) && Sorted(key, b) && a != [] && b != []
    requires forall k :: WithKey(key, a, k) == WithKey(key, b, k)
    ensures key(a[|a| - 1]) == key(b[|b| - 1])
  {
    var ka, kb := key(a[|a| - 1]), key(b[|b| - 1]);
    WithKeyMember(key, a, |a| - 1);
    WithKeyMember(key, b, |b| - 1);
    var i := WithKeyIndex(key, b, ka);
    var j := WithKeyIndex(key, a, kb);
    LessTotal(ka, kb);
  }

  lemma WithKeyInit<T>(key: T -> string, s: seq<T>, k: string)
    requires s != []
    ensures var n := |s| - 1;
            WithKey(key, s[..n], k) ==
            (var w := WithKey(key, s, k); if key(s[n]) == k then w[..|w| - 1] else w)
    ensures var n := |s| - 1;
            var w := WithKey(key, s, key(s[n])); w != [] && w[|w| - 1] == s[n]
  {
  }

  lemma InitsAgree<T>(key: T -> string, a: seq<T>, b: seq<T>) returns (ia: seq<T>, ib: seq<T>)
    requires Sorted(key, a) && Sorted(key, b) && a != [] && b != []
    requires forall k :: WithKey(key, a, k) == WithKey(key, b, k)
    ensures a == ia + [a[|a| - 1]] && b == ib + [a[|a| - 1]]
    ensures Sorted(key, ia) && Sorted(key, ib) && forall k :: WithKey(key, ia, k) == WithKey(key, ib, k)
  {
    var m, n := |a| - 1, |b| - 1;
    ia, ib := a[..m], b[..n];
    LastKeysAgree(key, a, b);
    WithKeyInit(key, a, key(a[m]));
    WithKeyInit(key, b, key(b[n]));
    forall k ensures WithKey(key, ia, k) == WithKey(key, ib, k) {
      WithKeyInit(key, a, k);
      WithKeyInit(key, b, k);
    }
  }

  /** Two sorted lists with the same elements, in the same order, for each key are equal. */
  lemma {:induction false} StableUnique<T>(key: T -> string, a: seq<T>, b: seq<T>)
    requires Sorted(key, a) && Sorted(key, b)
    requires forall k :: WithKey(key, a, k) == WithKey(key, b, k)
    ensures a == b
    decreases |a|
  {
    WithKeyMember(key, a, 0);
    WithKeyMember(key, b, 0);
    if a != [] && b != [] {
      var ia, ib := InitsAgree(key, a, b);
      StableUnique(key, ia, ib);
    }
  }

  /** Sorting a sorted list changes nothing. */
  lemma SortSorted<T>(key: T -> string, s: seq<T>)
    requires Sorted(key, s)
    ensures Sort(key, s) == s
  {
    SortIsStable(key, s);
    StableUnique(key, Sort(key, s), s);
  }

  function Map<A, B>(f: A -> B, s: seq<A>): (r: seq<B>)
    ensures |r| == |s| && forall i :: 0 <= i < |s| ==> r[i] == f(s[i])
  {
    seq(|s|, i requires 0 <= i < |s| => f(s[i]))
  }

  lemma {:induction false} MapInsert<A, B>(f: A -> B, ka: A -> string, kb: B -> string, s: seq<A>, x: A)
    requires forall a: A :: a in s || a == x ==> kb(f(a)) == ka(a)
    ensures Map(f, Insert(ka, s, x)) == Insert(kb, Map(f, s), f(x))
  {
    if s != [] {
      var init, last := s[..|s| - 1], s[|s| - 1];
      assert Map(f, s)[..|s| - 1] == Map(f, init);
      if Less(ka(x), ka(last)) {
        MapInsert(f, ka, kb, init, x);
        assert Map(f, Insert(ka, init, x) + [last]) == Map(f, Insert(ka, init, x)) + [f(last)];
      } else {
        assert Map(f, s + [x]) == Map(f, s) + [f(x)];
      }
    }
  }

  lemma {:induction false} InsertMembers<T>(key: T -> string, s: seq<T>, x: T)
    ensures forall i :: 0 <= i < |s| + 1 ==> Insert(key, s, x)[i] == x || Insert(key, s, x)[i] in s
  {
    if s != [] { InsertMembers(key, s[..|s| - 1], x); }
  }

  lemma {:induction false} SortMembers<T>(key: T -> string, s: seq<T>)
    ensures forall x :: x in Sort(key, s) ==> x in s
  {
    if s != [] {
      SortMembers(key, s[..|s| - 1]);
      InsertMembers(key, Sort(key, s[..|s| - 1]), s[|s| - 1]);
    }
  }

  /** Sorting commutes with a map that keeps the keys. */
  lemma {:induction false} MapSort<A, B>(f: A -> B, ka: A -> string, kb: B -> string, s: seq<A>)
    requires forall a: A :: a in s ==> kb(f(a)) == ka(a)
    ensures Map(f, Sort(ka, s)) == Sort(kb, Map(f, s))
  {
    if s != [] {
      var init, last := s[..|s| - 1], s[|s| - 1];
      MapSort(f, ka, kb, init);
      SortMembers(ka, init);
      MapInsert(f, ka, kb, Sort(ka, init), last);
      assert Map(f, s)[..|s| - 1] == Map(f, init);
    }
  }

  lemma NotBelow<T>(key: T -> string, s: seq<T>, x: T)
    requires Sorted(key, s) && s != [] && !Less(key(x), key(s[|s| - 1]))
    ensures forall i :: 0 <= i < |s| ==> !Less(key(x), key(s[i]))
  {
    forall i | 0 <= i < |s| ensures !Less(key(x), key(s[i])) {
      LessTotal(key(s[i]), key(s[|s| - 1]));
      if Less(key(x), key(s[i])) && Less(key(s[i]), key(s[|s| - 1])) {
        LessTransitive(key(x), key(s[i]), key(s[|s| - 1]));
      }
    }
  }

  lemma PrefixParts<T>(s: seq<T>, m: nat, n: nat, x: T)
    requires n <= m == |s| - 1
    ensures (s[..m][..n] + [x] + s[..m][n..]) + [s[m]] == s[..n] + [x] + s[n..]
  {
    assert s[..m][..n] == s[..n] && s[..m][n..] + [s[m]] == s[n..];
  }

  /** Where an element is inserted: after everything not greater, before the rest. */
  lemma {:induction false} InsertPosition<T>(key: T -> string, s: seq<T>, x: T) returns (n: nat)
    requires Sorted(key, s)
    ensures n <= |s| && Insert(key, s, x) == s[..n] + [x] + s[n..]
    ensures forall i :: 0 <= i < n ==> !Less(key(x), key(s[i]))
    ensures forall i :: n <= i < |s| ==> Less(key(x), key(s[i]))
  {
    if s == [] {
      n := 0;
    } else if Less(key(x), key(s[|s| - 1])) {
      var m := |s| - 1;
      n := InsertPosition(key, s[..m], x);
      PrefixParts(s, m, n, x);
      assert forall i :: 0 <= i < m ==> s[..m][i] == s[i];
    } else {
      n := |s|;
      assert s[..n] == s && s[n..] == [];
      NotBelow(key, s, x);
    }
  }
}
