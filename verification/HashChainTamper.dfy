/** What verification establishes about a file, whoever wrote it: its last hash
    fixes all of its entries, unless two texts with the same digest are at hand. */
module HashChainTamper {
  import opened Wrappers
  import opened Utf8
  import opened PyText
  import opened Json
  import opened Canonical
  import opened HashChain

  // ---- What the parser returns is well formed ----

  lemma {:induction false} DedupWellFormed(fr: FloatRepr, ms: Members)
    requires WellFormedMembers(fr, ms)
    ensures WellFormedMembers(fr, Dedup(ms))
  {
    if ms.MCons? {
      var d := Dedup(ms.tail);
      DedupWellFormed(fr, ms.tail);
      if Get(d, ms.key).Some? {
        GetWellFormed(fr, d, ms.key);
        WithoutWellFormed(fr, d, ms.key);
      }
    }
  }

  lemma {:induction false} WithoutWellFormed(fr: FloatRepr, ms: Members, k: string)
    requires WellFormedMembers(fr, ms)
    ensures WellFormedMembers(fr, Without(ms, k))
  {
    if ms.MCons? { WithoutWellFormed(fr, ms.tail, k); }
  }

  lemma ScalarWellFormed(fr: FloatRepr, s: string)
    requires StableRepr(fr)
    ensures ParseWord(s).Some? ==> WellFormed(fr, ParseWord(s).value.0)
    ensures ParseNumber(fr, s).Some? ==> WellFormed(fr, ParseNumber(fr, s).value.0)
  {
  }

  lemma {:induction false} ParsedWellFormed(fr: FloatRepr, s: string)
    requires StableRepr(fr) && ParseValue(fr, s).Some?
    ensures WellFormed(fr, ParseValue(fr, s).value.0)
    decreases |s|, 0
  {
    var t := SkipSpace(s[1..]);
    if s[0] == '[' {
      if t == [] || t[0] != ']' { ParsedItemsWellFormed(fr, t); }
    } else if s[0] == '{' {
      if t == [] || t[0] != '}' {
        ParsedMembersWellFormed(fr, t);
        DedupWellFormed(fr, ParseMembers(fr, t).value.0);
      }
    } else {
      ScalarWellFormed(fr, s);
    }
  }

  lemma {:induction false} ParsedItemsWellFormed(fr: FloatRepr, s: string)
    requires StableRepr(fr) && ParseItems(fr, s).Some?
    ensures WellFormedItems(fr, ParseItems(fr, s).value.0)
    decreases |s|, 1
  {
    ParsedWellFormed(fr, s);
    var u := SkipSpace(ParseValue(fr, s).value.1);
    if u[0] == ',' { ParsedItemsWellFormed(fr, SkipSpace(u[1..])); }
  }

  lemma {:induction false} ParsedMembersWellFormed(fr: FloatRepr, s: string)
    requires StableRepr(fr) && ParseMembers(fr, s).Some?
    ensures WellFormedMembers(fr, ParseMembers(fr, s).value.0)
    decreases |s|, 0
  {
    var u := SkipSpace(ParseChars(s[1..]).value.1);
    var y := SkipSpace(u[1..]);
    ParsedWellFormed(fr, y);
    var x := SkipSpace(ParseValue(fr, y).value.1);
    if x[0] == ',' { ParsedMembersWellFormed(fr, SkipSpace(x[1..])); }
  }

  // ---- The entries of a file that verifies ----

  /** The dicts the lines hold; blank lines and anything else are skipped. */
  function EntriesOf(p: Platform, lines: seq<string>): seq<Members> {
    if lines == [] then []
    else
      var rest := EntriesOf(p, lines[1..]);
      match Loads(p.repr, Strip(lines[0]))
      case Some(JObject(e)) => if Strip(lines[0]) == [] then rest else [e] + rest
      case _ => rest
  }

  /** The digest that entry `i` follows, when the first one follows `prev`. */
  function PrevOf(es: seq<Members>, prev: string, i: nat): string
    requires i <= |es|
  {
    if i == 0 then prev else StoredHash(es[i - 1])
  }

  predicate VerifiedAt(p: Platform, es: seq<Members>, prev: string, start: nat, i: nat)
    requires i < |es|
  {
    EntryOk(p, es[i], PrevOf(es, prev, i), start + i) && WellFormed(p.repr, JObject(es[i]))
  }

  ghost predicate Verified(p: Platform, es: seq<Members>, prev: string, start: nat) {
    forall i :: 0 <= i < |es| ==> VerifiedAt(p, es, prev, start, i)
  }

  lemma VerifiedCons(p: Platform, e: Members, es: seq<Members>, prev: string, start: nat)
    requires EntryOk(p, e, prev, start) && WellFormed(p.repr, JObject(e))
    requires Verified(p, es, StoredHash(e), start + 1)
    ensures Verified(p, [e] + es, prev, start)
  {
    var all := [e] + es;
    forall i | 0 <= i < |all| ensures VerifiedAt(p, all, prev, start, i) {
      if i > 0 {
        assert VerifiedAt(p, es, StoredHash(e), start + 1, i - 1);
        assert all[i] == es[i - 1];
        assert PrevOf(all, prev, i) == PrevOf(es, StoredHash(e), i - 1);
      }
    }
  }

  lemma {:induction false} IntactEntries(p: Platform, lines: seq<string>, lineNo: nat, prev: string, start: nat)
    requires StableRepr(p.repr)
    requires VerifyLines(Checker(p), lines, lineNo, prev, start).Intact?
    ensures Verified(p, EntriesOf(p, lines), prev, start)
    ensures VerifyLines(Checker(p), lines, lineNo, prev, start) == Intact(start + |EntriesOf(p, lines)|)
    decreases |lines|
  {
    if lines != [] {
      var t := Strip(lines[0]);
      if t == [] {
        assert EntriesOf(p, lines) == EntriesOf(p, lines[1..]);
        IntactEntries(p, lines[1..], lineNo + 1, prev, start);
      } else {
        var e := Loads(p.repr, t).value.members;
        ParsedWellFormed(p.repr, SkipSpace(t));
        IntactEntries(p, lines[1..], lineNo + 1, StoredHash(e), start + 1);
        VerifiedCons(p, e, EntriesOf(p, lines[1..]), prev, start);
      }
    }
  }

  // ---- The last hash fixes the entries ----

  /** Two texts with the same digest. */
  predicate Collision(p: Platform, x: seq<byte>, y: seq<byte>) {
    x != y && p.sha(x) == p.sha(y)
  }

  function HashInput(prev: string, e: Members): seq<byte> {
    Encode(prev + CanonicalText(JObject(Without(e, "entry_hash"))))
  }

  lemma {:induction false} WithoutGet(ms: Members, k: string, j: string)
    requires j != k
    ensures Get(Without(ms, k), j) == Get(ms, j)
  {
    if ms.MCons? { WithoutGet(ms.tail, k, j); }
  }

  lemma SameOther(a: Members, b: Members, k: string, j: string)
    requires j != k && j in Keys(Without(a, k)) && j in Keys(Without(b, k))
    requires SortKeys(Get(Without(a, k), j).value) == SortKeys(Get(Without(b, k), j).value)
    ensures j in Keys(a) && j in Keys(b) && SortKeys(Get(a, j).value) == SortKeys(Get(b, j).value)
  {
    WithoutGet(a, k, j);
    WithoutGet(b, k, j);
  }

  /** Dicts that agree without the key `k`, and on `k`, agree. */
  lemma SameWithKey(fr: FloatRepr, a: Members, b: Members, k: string)
    requires WellFormed(fr, JObject(a)) && WellFormed(fr, JObject(b))
    requires Same(JObject(Without(a, k)), JObject(Without(b, k)))
    requires k in Keys(a) && k in Keys(b) && Get(a, k) == Get(b, k)
    ensures Same(JObject(a), JObject(b))
  {
    WithoutWellFormed(fr, a, k);
    WithoutWellFormed(fr, b, k);
    SameSortsMembers(fr, Without(a, k), Without(b, k));
    assert Keys(a) == Keys(Without(a, k)) + {k} && Keys(b) == Keys(Without(b, k)) + {k};
    forall j | j in Keys(a) ensures SortKeys(Get(a, j).value) == SortKeys(Get(b, j).value) {
      if j != k {
        assert j in Keys(Without(a, k));
        SameOther(a, b, k, j);
      }
    }
    SameSortsMembers(fr, a, b);
  }

  lemma SameNumber(p: Platform, v: Json, w: Json, m: int, n: int)
    requires SortKeys(v) == SortKeys(w) && EqualsInt(p, v, m) && EqualsInt(p, w, n)
    ensures m == n
  {
  }

  /** Equal sequence numbers from equal payloads. */
  lemma SameSeq(p: Platform, a: Members, b: Members, m: int, n: int)
    requires WellFormed(p.repr, JObject(a)) && WellFormed(p.repr, JObject(b))
    requires Same(JObject(Without(a, "entry_hash")), JObject(Without(b, "entry_hash")))
    requires Get(a, "seq").Some? && EqualsInt(p, Get(a, "seq").value, m)
    requires Get(b, "seq").Some? && EqualsInt(p, Get(b, "seq").value, n)
    ensures m == n
  {
    var k := "entry_hash";
    assert "seq"[0] != k[0];
    WithoutGet(a, k, "seq");
    WithoutGet(b, k, "seq");
    WithoutWellFormed(p.repr, a, k);
    WithoutWellFormed(p.repr, b, k);
    SameSortsMembers(p.repr, Without(a, k), Without(b, k));
    assert "seq" in Keys(Without(a, k));
    SameNumber(p, Get(a, "seq").value, Get(b, "seq").value, m, n);
  }

  /** Entries that carry the same digest are the same entry at the same place
      after the same digest, or their hash inputs collide. */
  lemma SameDigest(p: Platform, a: Members, prevA: string, m: nat, b: Members, prevB: string, n: nat)
    requires EntryOk(p, a, prevA, m) && WellFormed(p.repr, JObject(a)) && |prevA| == 64
    requires EntryOk(p, b, prevB, n) && WellFormed(p.repr, JObject(b)) && |prevB| == 64
    requires StoredHash(a) == StoredHash(b)
    ensures || Collision(p, HashInput(prevA, a), HashInput(prevB, b))
            || (Same(JObject(a), JObject(b)) && m == n && prevA == prevB)
  {
    if HashInput(prevA, a) == HashInput(prevB, b) {
      var ca := CanonicalText(JObject(Without(a, "entry_hash")));
      var cb := CanonicalText(JObject(Without(b, "entry_hash")));
      EncodeInjective(prevA + ca, prevB + cb);
      assert prevA == (prevA + ca)[..64] && prevB == (prevB + cb)[..64];
      assert ca == (prevA + ca)[64..] && cb == (prevB + cb)[64..];
      WithoutWellFormed(p.repr, a, "entry_hash");
      WithoutWellFormed(p.repr, b, "entry_hash");
      CanonicalComplete(p.repr, JObject(Without(a, "entry_hash")), JObject(Without(b, "entry_hash")));
      SameSeq(p, a, b, m, n);
      SameWithKey(p.repr, a, b, "entry_hash");
    }
  }

  lemma PrevLength(p: Platform, es: seq<Members>, i: nat)
    requires Verified(p, es, GENESIS, 0) && i < |es|
    ensures |PrevOf(es, GENESIS, i)| == 64
  {
    if i > 0 { assert VerifiedAt(p, es, GENESIS, 0, i - 1); }
  }

  /** Equality of entries as values. */
  function Equal(): (Members, Members) -> bool {
    (a, b) => Same(JObject(a), JObject(b))
  }

  predicate SameAll(rel: (Members, Members) -> bool, a: seq<Members>, b: seq<Members>) {
    |a| == |b| && forall i :: 0 <= i < |a| ==> rel(a[i], b[i])
  }

  predicate SameEntries(a: seq<Members>, b: seq<Members>) {
    SameAll(Equal(), a, b)
  }

  lemma VerifiedPrefix(p: Platform, es: seq<Members>, n: nat)
    requires Verified(p, es, GENESIS, 0) && n <= |es|
    ensures Verified(p, es[..n], GENESIS, 0)
  {
    forall i | 0 <= i < n ensures VerifiedAt(p, es[..n], GENESIS, 0, i) {
      assert VerifiedAt(p, es, GENESIS, 0, i);
      assert PrevOf(es[..n], GENESIS, i) == PrevOf(es, GENESIS, i);
    }
  }

  lemma SameAllExtend(rel: (Members, Members) -> bool, a: seq<Members>, b: seq<Members>)
    requires a != [] && |a| == |b| && rel(a[|a| - 1], b[|b| - 1])
    requires SameAll(rel, a[..|a| - 1], b[..|b| - 1])
    ensures SameAll(rel, a, b)
  {
    forall k | 0 <= k < |a| ensures rel(a[k], b[k]) {
      if k < |a| - 1 { assert a[k] == a[..|a| - 1][k] && b[k] == b[..|b| - 1][k]; }
    }
  }

  /** The last entries of two verified chains that end in the same digest. */
  lemma LastEntries(p: Platform, a: seq<Members>, b: seq<Members>) returns (x: seq<byte>, y: seq<byte>)
    requires Verified(p, a, GENESIS, 0) && Verified(p, b, GENESIS, 0) && a != [] && b != []
    requires StoredHash(a[|a| - 1]) == StoredHash(b[|b| - 1])
    ensures || Collision(p, x, y)
            || (&& |a| == |b| && Equal()(a[|a| - 1], b[|b| - 1])
                && PrevOf(a, GENESIS, |a| - 1) == PrevOf(b, GENESIS, |b| - 1))
  {
    var i, j := |a| - 1, |b| - 1;
    var pa, pb := PrevOf(a, GENESIS, i), PrevOf(b, GENESIS, j);
    PrevLength(p, a, i);
    PrevLength(p, b, j);
    assert VerifiedAt(p, a, GENESIS, 0, i) && VerifiedAt(p, b, GENESIS, 0, j);
    SameDigest(p, a[i], pa, i, b[j], pb, j);
    x, y := HashInput(pa, a[i]), HashInput(pb, b[j]);
  }

  /** Verified chains that end in the same digest are equal, or a collision shows. */
  lemma {:induction false} LastHashFixesEntries(p: Platform, a: seq<Members>, b: seq<Members>)
    returns (x: seq<byte>, y: seq<byte>)
    requires Verified(p, a, GENESIS, 0) && Verified(p, b, GENESIS, 0) && a != [] && b != []
    requires StoredHash(a[|a| - 1]) == StoredHash(b[|b| - 1])
    ensures Collision(p, x, y) || SameEntries(a, b)
    decreases |a|
  {
    x, y := LastEntries(p, a, b);
    var n := |a| - 1;
    if !Collision(p, x, y) && n > 0 {
      VerifiedPrefix(p, a, n);
      VerifiedPrefix(p, b, n);
      x, y := LastHashFixesEntries(p, a[..n], b[..n]);
    }
    if !Collision(p, x, y) { SameAllExtend(Equal(), a, b); }
  }

  /** The entries of a whole file. */
  function FileEntries(p: Platform, file: seq<byte>): seq<Members> {
    match DecodeStrict(file)
    case None => []
    case Some(text) => EntriesOf(p, FileLines(text))
  }

  lemma IntactFile(p: Platform, f: seq<byte>)
    requires StableRepr(p.repr) && VerifyFile(p, f).Intact?
    ensures Verified(p, FileEntries(p, f), GENESIS, 0)
    ensures VerifyFile(p, f) == Intact(|FileEntries(p, f)|)
  {
    IntactEntries(p, FileLines(DecodeStrict(f).value), 1, GENESIS, 0);
  }

  /** Tamper evidence: two files that verify, are not empty and end in the same
      digest hold the same number of entries, with equal values throughout; or
      two byte strings with the same digest are found. */
  lemma VerifiedFilesAgree(p: Platform, f: seq<byte>, g: seq<byte>) returns (x: seq<byte>, y: seq<byte>)
    requires StableRepr(p.repr)
    requires VerifyFile(p, f).Intact? && VerifyFile(p, g).Intact?
    requires FileEntries(p, f) != [] && FileEntries(p, g) != []
    requires StoredHash(FileEntries(p, f)[|FileEntries(p, f)| - 1])
          == StoredHash(FileEntries(p, g)[|FileEntries(p, g)| - 1])
    ensures || Collision(p, x, y)
            || (SameEntries(FileEntries(p, f), FileEntries(p, g)) && VerifyFile(p, f) == VerifyFile(p, g))
  {
    IntactFile(p, f);
    IntactFile(p, g);
    x, y := LastHashFixesEntries(p, FileEntries(p, f), FileEntries(p, g));
  }

  // ---- Prefixes and removals ----

  /** The digest and the count reached after some lines; None after a fault. */
  function Reached(check: Check, lines: seq<string>, prev: string, start: nat): Option<(string, nat)>
    decreases |lines|
  {
    if lines == [] then Some((prev, start))
    else
      match check(lines[0], prev, start)
      case Skipped => Reached(check, lines[1..], prev, start)
      case Good(h) => Reached(check, lines[1..], h, start + 1)
      case _ => None
  }

  lemma {:induction false} VerifyAppend(check: Check, a: seq<string>, b: seq<string>,
                                        lineNo: nat, prev: string, start: nat)
    ensures var q := Reached(check, a, prev, start);
            && (VerifyLines(check, a, lineNo, prev, start).Intact? <==> q.Some?)
            && (q.None? ==> !VerifyLines(check, a + b, lineNo, prev, start).Intact?)
            && (q.Some? ==> VerifyLines(check, a + b, lineNo, prev, start)
                            == VerifyLines(check, b, lineNo + |a|, q.value.0, q.value.1))
    decreases |a|
  {
    if a == [] {
      assert a + b == b;
    } else {
      assert (a + b)[1..] == a[1..] + b;
      match check(a[0], prev, start)
      case Skipped => VerifyAppend(check, a[1..], b, lineNo + 1, prev, start);
      case Good(h) => VerifyAppend(check, a[1..], b, lineNo + 1, h, start + 1);
      case _ =>
    }
  }

  /** Every prefix of a list of lines that verifies, verifies. */
  lemma PrefixVerifies(check: Check, lines: seq<string>, n: nat)
    requires n <= |lines| && VerifyLines(check, lines, 1, GENESIS, 0).Intact?
    ensures VerifyLines(check, lines[..n], 1, GENESIS, 0).Intact?
  {
    assert lines == lines[..n] + lines[n..];
    VerifyAppend(check, lines[..n], lines[n..], 1, GENESIS, 0);
  }

  /** A line that is good for one count is a fault, or worse, for any other. */
  lemma GoodForOneCount(p: Platform, line: string, prev: string, n: nat, prev': string, n': nat)
    requires CheckLine(p, line, prev, n).Good? && n != n'
    ensures CheckLine(p, line, prev', n') == Fault
  {
    var e := Loads(p.repr, Strip(line)).value.members;
    if EntryOk(p, e, prev', n') {
      SameNumber(p, Get(e, "seq").value, Get(e, "seq").value, n, n');
    }
  }

  /** A check whose verdict `Skipped` does not depend on the place in the chain,
      and that accepts a line for at most one sequence number. */
  ghost predicate Numbered(check: Check, b: seq<string>) {
    forall i, prev, n, prev', n' | 0 <= i < |b| :: 
      var v, v' := check(b[i], prev, n), check(b[i], prev', n');
      (v.Skipped? <==> v'.Skipped?) && (v.Good? && n != n' ==> v'.Fault?)
  }

  lemma CheckerNumbered(p: Platform, b: seq<string>)
    ensures Numbered(Checker(p), b)
  {
    forall i, prev, n, prev', n' | 0 <= i < |b|
      ensures var v, v' := Checker(p)(b[i], prev, n), Checker(p)(b[i], prev', n');
              (v.Skipped? <==> v'.Skipped?) && (v.Good? && n != n' ==> v'.Fault?)
    {
      if CheckLine(p, b[i], prev, n).Good? && n != n' {
        GoodForOneCount(p, b[i], prev, n, prev', n');
      }
    }
  }

  lemma {:induction false} ShiftedCountBreaks(check: Check, b: seq<string>, l: nat, prev: string, n: nat,
                                             l': nat, prev': string, n': nat)
    requires Numbered(check, b) && VerifyLines(check, b, l, prev, n).Intact? && n != n'
    requires exists i :: 0 <= i < |b| && !check(b[i], prev, n).Skipped?
    ensures VerifyLines(check, b, l', prev', n').Broken?
    decreases |b|
  {
    var v := check(b[0], prev, n);
    assert v.Skipped? <==> check(b[0], prev', n').Skipped?;
    if v.Skipped? {
      assert forall i :: 0 <= i < |b[1..]| ==> b[1..][i] == b[i + 1];
      var i :| 0 <= i < |b| && !check(b[i], prev, n).Skipped?;
      assert !check(b[1..][i - 1], prev, n).Skipped?;
      ShiftedCountBreaks(check, b[1..], l + 1, prev, n, l' + 1, prev', n');
    }
  }

  lemma RemovalShifts(check: Check, a: seq<string>, line: string, b: seq<string>, i: nat)
    requires Numbered(check, b) && Numbered(check, [line])
    requires VerifyLines(check, a + ([line] + b), 1, GENESIS, 0).Intact?
    requires !check(line, GENESIS, 0).Skipped? && i < |b| && !check(b[i], GENESIS, 0).Skipped?
    ensures VerifyLines(check, a + b, 1, GENESIS, 0).Broken?
  {
    VerifyAppend(check, a, [line] + b, 1, GENESIS, 0);
    VerifyAppend(check, a, b, 1, GENESIS, 0);
    var q := Reached(check, a, GENESIS, 0).value;
    assert ([line] + b)[1..] == b;
    assert [line][0] == line;
    assert !check(line, q.0, q.1).Skipped?;
    var h := check(line, q.0, q.1).hash;
    assert !check(b[i], h, q.1 + 1).Skipped?;
    ShiftedCountBreaks(check, b, 1 + |a| + 1, h, q.1 + 1, 1 + |a|, q.0, q.1);
  }

  lemma SolidNotSkipped(p: Platform, line: string)
    requires Strip(line) != []
    ensures !Checker(p)(line, GENESIS, 0).Skipped?
  {
  }

  /** Removing an entry that is not the last makes verification report a fault:
      lines `a`, an entry, then lines `b` that are not all blank. */
  lemma RemovalDetected(p: Platform, a: seq<string>, line: string, b: seq<string>)
    requires VerifyLines(Checker(p), a + ([line] + b), 1, GENESIS, 0).Intact?
    requires Strip(line) != [] && exists i :: 0 <= i < |b| && Strip(b[i]) != []
    ensures VerifyLines(Checker(p), a + b, 1, GENESIS, 0).Broken?
  {
    var i :| 0 <= i < |b| && Strip(b[i]) != [];
    CheckerNumbered(p, b);
    CheckerNumbered(p, [line]);
    SolidNotSkipped(p, line);
    SolidNotSkipped(p, b[i]);
    RemovalShifts(Checker(p), a, line, b, i);
  }
}
