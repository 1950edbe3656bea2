/** Loops over a list that build up a value: what follows from one step. */
module Folds {

  /** The value after all of `xs`, starting from `a`. */
  function Fold<A, X>(f: (A, X) -> A, a: A, xs: seq<X>): A {
    if xs == [] then a else f(Fold(f, a, xs[..|xs| - 1]), xs[|xs| - 1])
  }

  lemma FoldNext<A, X>(f: (A, X) -> A, a: A, xs: seq<X>, n: nat)
    requires n < |xs|
    ensures Fold(f, a, xs[..n + 1]) == f(Fold(f, a, xs[..n]), xs[n])
  {
    assert xs[..n + 1][..n] == xs[..n];
  }

  /** When each step leads from `h(i)` to `h(i + 1)`, the loop leads to `h(n)`. */
  lemma {:induction false} FoldFollows<A, X>(f: (A, X) -> A, xs: seq<X>, h: nat -> A, n: nat)
    requires n <= |xs| && forall i :: 0 <= i < n ==> h(i + 1) == f(h(i), xs[i])
    ensures Fold(f, h(0), xs[..n]) == h(n)
  {
    if n > 0 {
      FoldFollows(f, xs, h, n - 1);
      FoldNext(f, h(0), xs, n - 1);
      assert h((n - 1) + 1) == f(h(n - 1), xs[n - 1]);
    }
  }

  /** What every step keeps, the loop keeps. */
  lemma {:induction false} FoldKeeps<A, X>(f: (A, X) -> A, a: A, xs: seq<X>, keep: A -> bool)
    requires keep(a) && forall b, x :: keep(b) ==> keep(f(b, x))
    ensures keep(Fold(f, a, xs))
  {
    if xs != [] { FoldKeeps(f, a, xs[..|xs| - 1], keep); }
  }
}
