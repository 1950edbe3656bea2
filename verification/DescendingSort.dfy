/** `list.sort(key=..., reverse=True)` with numeric keys: descending, and stable. */
module DescendingSort {
  import opened StableSort

  /** `s` with `x` placed after every element that is not smaller. */
  function InsertDesc<T>(size: T -> real, s: seq<T>, x: T): (r: seq<T>)
    ensures |r| == |s| + 1
  {
    if s == [] then [x]
    else if size(s[|s| - 1]) < size(x) then InsertDesc(size, s[..|s| - 1], x) + [s[|s| - 1]]
    else s + [x]
  }

  function SortDesc<T>(size: T -> real, s: seq<T>): (r: seq<T>)
    ensures |r| == |s|
  {
    if s == [] then [] else InsertDesc(size, SortDesc(size, s[..|s| - 1]), s[|s| - 1])
  }

  predicate Descending<T>(size: T -> real, s: seq<T>) {
    forall i, j :: 0 <= i < j < |s| ==> size(s[i]) >= size(s[j])
  }

  lemma {:induction false} InsertDescMembers<T>(size: T -> real, s: seq<T>, x: T)
    ensures multiset(InsertDesc(size, s, x)) == multiset(s) + multiset{x}
  {
    if s != [] && size(s[|s| - 1]) < size(x) {
      InsertDescMembers(size, s[..|s| - 1], x);
      assert s == s[..|s| - 1] + [s[|s| - 1]];
    }
  }

  /** Sorting keeps every element as often as it occurs. */
  lemma {:induction false} SortDescMembers<T>(size: T -> real, s: seq<T>)
    ensures multiset(SortDesc(size, s)) == multiset(s)
  {
    if s != [] {
      SortDescMembers(size, s[..|s| - 1]);
      InsertDescMembers(size, SortDesc(size, s[..|s| - 1]), s[|s| - 1]);
      assert s == s[..|s| - 1] + [s[|s| - 1]];
    }
  }

  lemma {:induction false} InsertDescSorted<T>(size: T -> real, s: seq<T>, x: T)
    requires Descending(size, s)
    ensures Descending(size, InsertDesc(size, s, x))
    ensures forall i :: 0 <= i < |s| + 1 ==>
              InsertDesc(size, s, x)[i] == x || exists j :: 0 <= j < |s| && InsertDesc(size, s, x)[i] == s[j]
  {
    if s != [] {
      var init, last := s[..|s| - 1], s[|s| - 1];
      if size(last) < size(x) {
        InsertDescSorted(size, init, x);
        var r := InsertDesc(size, init, x);
        forall i | 0 <= i < |r|
          ensures size(r[i]) >= size(last) && (r[i] == x || exists j :: 0 <= j < |s| && r[i] == s[j])
        {
          if r[i] != x {
            var j :| 0 <= j < |init| && r[i] == init[j];
            assert r[i] == s[j];
          }
        }
      }
    }
  }

  lemma {:induction false} SortDescSorted<T>(size: T -> real, s: seq<T>)
    ensures Descending(size, SortDesc(size, s))
  {
    if s != [] {
      SortDescSorted(size, s[..|s| - 1]);
      InsertDescSorted(size, SortDesc(size, s[..|s| - 1]), s[|s| - 1]);
    }
  }

  lemma MapAppend<A, B>(f: A -> B, s: seq<A>, a: A)
    ensures Map(f, s + [a]) == Map(f, s) + [f(a)] && Map(f, s + []) == Map(f, s)
  {
    assert s + [] == s;
  }

  lemma {:induction false} MapInsertDesc<T>(f: T -> T, size: T -> real, s: seq<T>, x: T)
    requires forall a: T :: a in s || a == x ==> size(f(a)) == size(a)
    ensures InsertDesc(size, Map(f, s), f(x)) == Map(f, InsertDesc(size, s, x))
  {
    if s != [] {
      var init, last := s[..|s| - 1], s[|s| - 1];
      assert Map(f, s)[..|s| - 1] == Map(f, init);
      MapInsertDesc(f, size, init, x);
      MapAppend(f, s, x);
      MapAppend(f, InsertDesc(size, init, x), last);
    }
  }

  /** Sorting commutes with a map that keeps the sizes. */
  lemma {:induction false} MapSortDesc<T>(f: T -> T, size: T -> real, s: seq<T>)
    requires forall a: T :: a in s ==> size(f(a)) == size(a)
    ensures SortDesc(size, Map(f, s)) == Map(f, SortDesc(size, s))
  {
    if s != [] {
      var init, last := s[..|s| - 1], s[|s| - 1];
      assert Map(f, s)[..|s| - 1] == Map(f, init);
      MapSortDesc(f, size, init);
      SortDescMembers(size, init);
      forall a | a in SortDesc(size, init) ensures size(f(a)) == size(a) {
        assert a in multiset(SortDesc(size, init));
        assert a in init;
      }
      MapInsertDesc(f, size, SortDesc(size, init), last);
    }
  }
}
