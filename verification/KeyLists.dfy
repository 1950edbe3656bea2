/** Lists of distinct keys, and sorting them. */
module KeyLists {
  import opened StringOrder
  import opened StableSort

  predicate NoRepeats(s: seq<string>) {
    forall i, j :: 0 <= i < j < |s| ==> s[i] != s[j]
  }

  function Self(): string -> string {
    (m: string) => m
  }

  lemma {:induction false} SortKeepsMembers(s: seq<string>)
    ensures multiset(Sort(Self(), s)) == multiset(s)
  {
    if s != [] {
      SortKeepsMembers(s[..|s| - 1]);
      InsertKeepsMembers(Sort(Self(), s[..|s| - 1]), s[|s| - 1]);
      assert s == s[..|s| - 1] + [s[|s| - 1]];
    }
  }

  lemma {:induction false} InsertKeepsMembers(s: seq<string>, x: string)
    ensures multiset(Insert(Self(), s, x)) == multiset(s) + multiset{x}
  {
    if s != [] && Less(x, s[|s| - 1]) {
      InsertKeepsMembers(s[..|s| - 1], x);
      assert s == s[..|s| - 1] + [s[|s| - 1]];
    }
  }

  lemma {:induction false} DistinctCounts(s: seq<string>)
    ensures NoRepeats(s) <==> forall x :: multiset(s)[x] <= 1
  {
    if s != [] {
      var init, last := s[..|s| - 1], s[|s| - 1];
      DistinctCounts(init);
      assert s == init + [last];
      assert multiset(s) == multiset(init) + multiset{last};
      if NoRepeats(s) {
        assert last !in init;
        assert last !in multiset(init);
      } else if NoRepeats(init) {
        var i :| 0 <= i < |init| && s[i] == last;
        assert init[i] == last;
        assert multiset(s)[last] >= 2;
      } else {
        var x :| multiset(init)[x] > 1;
        assert multiset(s)[x] > 1;
      }
    }
  }

  /** Sorting distinct keys keeps them distinct, and keeps all of them. */
  lemma SortDistinct(s: seq<string>)
    requires NoRepeats(s)
    ensures var r := Sort(Self(), s);
            NoRepeats(r) && Sorted(Self(), r) && forall x :: x in r <==> x in s
  {
    var r := Sort(Self(), s);
    SortKeepsMembers(s);
    SortIsStable(Self(), s);
    DistinctCounts(s);
    DistinctCounts(r);
    forall x ensures x in r <==> x in s {
      assert x in r <==> x in multiset(r);
      assert x in s <==> x in multiset(s);
    }
  }
}
