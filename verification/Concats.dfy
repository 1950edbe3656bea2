/** The lists that a function gives for the elements of another, one after the other. */
module Concats {
  function Concat<A, B>(f: A -> seq<B>, s: seq<A>, n: nat): seq<B>
    requires n <= |s|
  {
    if n == 0 then [] else Concat(f, s, n - 1) + f(s[n - 1])
  }

  lemma {:induction false} ConcatMember<A, B>(f: A -> seq<B>, s: seq<A>, n: nat, b: B)
    requires n <= |s|
    ensures b in Concat(f, s, n) <==> exists i :: 0 <= i < n && b in f(s[i])
  {
    if n > 0 { ConcatMember(f, s, n - 1, b); }
  }

  predicate Distinct<A(==)>(s: seq<A>) {
    forall i, j :: 0 <= i < j < |s| ==> s[i] != s[j]
  }

  /** How often an element occurs, when it tells which element of `s` it comes from. */
  lemma {:induction false} ConcatCount<A, B>(f: A -> seq<B>, s: seq<A>, n: nat, b: B, a: A)
    requires n <= |s| && Distinct(s) && forall x: A :: x != a ==> b !in f(x)
    ensures multiset(Concat(f, s, n))[b] == if a in s[..n] then multiset(f(a))[b] else 0
  {
    if n > 0 {
      var m := n - 1;
      ConcatCount(f, s, m, b, a);
      assert s[..n] == s[..m] + [s[m]];
      assert s[m] !in s[..m];
      if s[m] != a { assert b !in multiset(f(s[m])); }
    }
  }
}
