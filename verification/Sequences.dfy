/** Steps about concatenation that proofs take one at a time. */
module Sequences {

  lemma Associate<T>(a: seq<T>, b: seq<T>, c: seq<T>)
    ensures (a + b) + c == a + (b + c)
  {
  }

  lemma NothingAdded<T>(a: seq<T>)
    ensures a + [] == a && [] + a == a
  {
  }

  /** The parts of a concatenation. */
  lemma Parts<T>(a: seq<T>, b: seq<T>)
    ensures (a + b)[..|a|] == a && (a + b)[|a|..] == b
  {
  }

  lemma DropWithin<T>(a: seq<T>, b: seq<T>, k: nat)
    requires k <= |a|
    ensures (a + b)[k..] == a[k..] + b
  {
  }

  lemma PrefixGrows<T>(a: seq<T>, i: nat)
    requires i < |a|
    ensures a[..i + 1] == a[..i] + [a[i]] && a[..i + 1][..i] == a[..i]
  {
  }

  lemma ApartLast<T>(a: seq<T>)
    requires a != []
    ensures a == a[..|a| - 1] + [a[|a| - 1]]
  {
  }

  lemma ApartFirst<T>(a: seq<T>)
    requires a != []
    ensures a == [a[0]] + a[1..]
  {
  }

  lemma SameElements<T>(a: seq<T>, b: seq<T>)
    requires |a| == |b| && forall i :: 0 <= i < |a| ==> a[i] == b[i]
    ensures a == b
  {
  }

  // ---- The elements that pass a test ----

  function Filter<T>(test: T -> bool, s: seq<T>): seq<T> {
    if s == [] then [] else Filter(test, s[..|s| - 1]) + if test(s[|s| - 1]) then [s[|s| - 1]] else []
  }

  /** `r` holds what `s` has at the places `ks`, in order: those that pass the test. */
  ghost predicate Picks<T(!new)>(test: T -> bool, s: seq<T>, r: seq<T>, ks: seq<nat>) {
    && |ks| == |r| && (forall i :: 0 <= i < |ks| ==> ks[i] < |s| && r[i] == s[ks[i]])
    && (forall i, j :: 0 <= i < j < |ks| ==> ks[i] < ks[j])
    && forall k :: 0 <= k < |s| ==> (k in ks <==> test(s[k]))
  }

  lemma PickNext<T(!new)>(test: T -> bool, s: seq<T>, r: seq<T>, ks: seq<nat>, x: T)
    requires Picks(test, s, r, ks)
    ensures test(x) ==> Picks(test, s + [x], r + [x], ks + [|s|])
    ensures !test(x) ==> Picks(test, s + [x], r, ks)
  {
    assert |s| !in ks;
  }

  lemma {:induction false} FilterExactly<T(!new)>(test: T -> bool, s: seq<T>) returns (ks: seq<nat>)
    ensures Picks(test, s, Filter(test, s), ks)
  {
    ks := [];
    if s != [] {
      var init, last := s[..|s| - 1], s[|s| - 1];
      ks := FilterExactly(test, init);
      PickNext(test, init, Filter(test, init), ks, last);
      ApartLast(s);
      NothingAdded(Filter(test, init));
      if test(last) { ks := ks + [|init|]; }
    }
  }
}
