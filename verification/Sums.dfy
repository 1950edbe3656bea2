/** Sums of integer-valued functions over lists of keys. */
module Sums {
  import opened KeyLists

  function SumOf(f: string -> int, keys: seq<string>): int {
    if keys == [] then 0 else SumOf(f, keys[..|keys| - 1]) + f(keys[|keys| - 1])
  }

  /** Changing the value of one key changes the sum by the difference. */
  lemma {:induction false} SumChange(f: string -> int, g: string -> int, keys: seq<string>, k: string, d: int)
    requires NoRepeats(keys)
    requires forall x :: x in keys ==> g(x) == f(x) + if x == k then d else 0
    ensures SumOf(g, keys) == SumOf(f, keys) + if k in keys then d else 0
  {
    if keys != [] {
      var init, last := keys[..|keys| - 1], keys[|keys| - 1];
      assert keys == init + [last] && last !in init;
      SumChange(f, g, init, k, d);
    }
  }

  lemma {:induction false} SumSame(f: string -> int, g: string -> int, keys: seq<string>)
    requires forall x :: x in keys ==> g(x) == f(x)
    ensures SumOf(g, keys) == SumOf(f, keys)
  {
    if keys != [] {
      assert keys[|keys| - 1] in keys;
      SumSame(f, g, keys[..|keys| - 1]);
    }
  }

  lemma {:induction false} SumZero(f: string -> int, keys: seq<string>)
    requires forall x :: x in keys ==> f(x) == 0
    ensures SumOf(f, keys) == 0
  {
    if keys != [] {
      assert keys[|keys| - 1] in keys;
      SumZero(f, keys[..|keys| - 1]);
    }
  }

  lemma SumStep(f: string -> int, keys: seq<string>, n: nat)
    requires n < |keys|
    ensures SumOf(f, keys[..n + 1]) == SumOf(f, keys[..n]) + f(keys[n])
  {
    assert keys[..n + 1][..n] == keys[..n];
  }

  lemma {:induction false} SumPlus(f: string -> int, g: string -> int, h: string -> int, keys: seq<string>)
    requires forall x :: h(x) == f(x) + g(x)
    ensures SumOf(h, keys) == SumOf(f, keys) + SumOf(g, keys)
  {
    if keys != [] { SumPlus(f, g, h, keys[..|keys| - 1]); }
  }

  /** Keys outside `part` that count nothing may be left out of a sum. */
  lemma {:induction false} SumOverPart(f: string -> int, all: seq<string>, part: seq<string>)
    requires NoRepeats(all) && NoRepeats(part)
    requires forall x :: x in part ==> x in all
    requires forall x :: x in all && x !in part ==> f(x) == 0
    ensures SumOf(f, all) == SumOf(f, part)
    decreases |part|
  {
    if part == [] {
      SumZero(f, all);
    } else {
      var init, k := part[..|part| - 1], part[|part| - 1];
      assert part == init + [k] && k !in init;
      var g := (x: string) => if x == k then 0 else f(x);
      SumChange(g, f, all, k, f(k));
      SumOverPart(g, all, init);
      SumSame(f, g, init);
    }
  }
}
