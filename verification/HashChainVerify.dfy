/** What `verify_chain` accepts, said of the lines of the file and what their objects
    store: each the digest before it, its place, and the digest of both. */
module HashChainVerify {
  import opened Wrappers
  import opened Sequences
  import opened Utf8
  import opened PyText
  import opened Json
  import opened Canonical
  import opened HashChain
  import opened HashChainFiles

  /** The lines that are not blank, stripped. */
  function Kept(lines: seq<string>): seq<string> {
    if lines == [] then []
    else
      var t := Strip(lines[|lines| - 1]);
      Kept(lines[..|lines| - 1]) + if t == "" then [] else [t]
  }

  predicate IsJson(p: Platform, t: string) {
    Loads(p.repr, t).Some?
  }

  predicate IsObject(p: Platform, t: string) {
    IsJson(p, t) && Loads(p.repr, t).value.JObject?
  }

  function ObjectOf(p: Platform, t: string): Members
    requires IsObject(p, t)
  {
    Loads(p.repr, t).value.members
  }

  /** The digest that line `i` has to name: what the line before it stores, or 64 zeros. */
  function DigestBefore(p: Platform, texts: seq<string>, i: nat): Option<Json>
    requires i <= |texts| && forall k :: 0 <= k < i ==> IsObject(p, texts[k])
  {
    if i == 0 then Some(JString(seq(64, _ => '0'))) else Get(ObjectOf(p, texts[i - 1]), "entry_hash")
  }

  /** A number equal to `n`, as Python compares them. */
  predicate IsNumber(p: Platform, v: Json, n: nat) {
    || v == JInt(n) || (v == JBool(false) && n == 0) || (v == JBool(true) && n == 1)
    || (v.JFloat? && p.exact(v.repr) == Some(n))
  }

  /** Object `e` names the digest `prev`, is number `i`, and stores the digest of `prev`
      followed by the canonical text of its other members. */
  predicate Stores(p: Platform, e: Members, prev: string, i: nat) {
    && Get(e, "prev_hash") == Some(JString(prev))
    && Get(e, "seq").Some? && IsNumber(p, Get(e, "seq").value, i)
    && Get(e, "entry_hash") == Some(JString(p.sha(Encode(prev + CanonicalText(JObject(Without(e, "entry_hash")))))))
  }

  predicate HoldsAt(p: Platform, texts: seq<string>, i: nat)
    requires i < |texts|
  {
    && (forall k :: 0 <= k <= i ==> IsObject(p, texts[k]))
    && var prev := DigestBefore(p, texts, i);
       prev.Some? && prev.value.JString? && Stores(p, ObjectOf(p, texts[i]), prev.value.s, i)
  }

  ghost predicate IsChained(p: Platform, texts: seq<string>) {
    forall i :: 0 <= i < |texts| ==> HoldsAt(p, texts, i)
  }

  /** Everything before line `k` is in order, and line `k` is not. */
  ghost predicate FirstFault(p: Platform, lines: seq<string>, k: nat) {
    && k < |lines| && IsChained(p, Kept(lines[..k]))
    && var next := k + 1; !IsChained(p, Kept(lines[..next]))
  }

  /** The verdict on a file: intact if it is UTF-8, each line that is not blank is an
      object, and each of them holds; otherwise the first line at fault, or an exception
      if that line is JSON but no object. */
  ghost predicate IsVerdict(p: Platform, file: seq<byte>, v: Verdict) {
    match DecodeStrict(file)
    case None => v == Raised
    case Some(text) =>
      var lines := FileLines(text);
      match v
      case Intact(n) => IsChained(p, Kept(lines)) && n == |Kept(lines)|
      case Broken(k) =>
        k > 0 && FirstFault(p, lines, k - 1) && var t := Strip(lines[k - 1]); !IsJson(p, t) || IsObject(p, t)
      case Raised =>
        exists k: nat :: FirstFault(p, lines, k) && var t := Strip(lines[k]); IsJson(p, t) && !IsObject(p, t)
  }

  // ---- The walk over the lines ----

  /** The digest and the number that the line after `texts` has to carry. */
  function DigestAfter(p: Platform, texts: seq<string>): string
    requires forall k :: 0 <= k < |texts| ==> IsObject(p, texts[k])
  {
    match DigestBefore(p, texts, |texts|)
    case Some(JString(h)) => h
    case _ => ""
  }

  lemma ChainedObjects(p: Platform, texts: seq<string>)
    requires IsChained(p, texts)
    ensures forall k :: 0 <= k < |texts| ==> IsObject(p, texts[k])
    ensures DigestBefore(p, texts, |texts|) == Some(JString(DigestAfter(p, texts)))
  {
    forall k | 0 <= k < |texts| ensures IsObject(p, texts[k]) {
      assert HoldsAt(p, texts, k);
    }
    if texts != [] { assert HoldsAt(p, texts, |texts| - 1); }
  }

  lemma HoldsInPrefix(p: Platform, texts: seq<string>, t: string, i: nat)
    requires i < |texts|
    ensures HoldsAt(p, texts + [t], i) <==> HoldsAt(p, texts, i)
  {
    assert forall k :: 0 <= k < |texts| ==> (texts + [t])[k] == texts[k];
  }

  lemma LastHolds(p: Platform, texts: seq<string>, t: string)
    requires IsChained(p, texts)
    ensures forall k :: 0 <= k < |texts| ==> IsObject(p, texts[k])
    ensures HoldsAt(p, texts + [t], |texts|) <==>
            IsObject(p, t) && Stores(p, ObjectOf(p, t), DigestAfter(p, texts), |texts|)
  {
    ChainedObjects(p, texts);
    var all := texts + [t];
    assert all[|texts|] == t && forall k :: 0 <= k < |texts| ==> all[k] == texts[k];
  }

  lemma ChainedSnoc(p: Platform, texts: seq<string>, t: string)
    requires IsChained(p, texts)
    ensures IsChained(p, texts + [t]) <==> HoldsAt(p, texts + [t], |texts|)
  {
    forall i | 0 <= i < |texts| ensures HoldsAt(p, texts + [t], i) {
      HoldsInPrefix(p, texts, t, i);
    }
  }

  lemma ChainedGrows(p: Platform, texts: seq<string>, t: string)
    requires IsChained(p, texts)
    ensures forall k :: 0 <= k < |texts| ==> IsObject(p, texts[k])
    ensures IsChained(p, texts + [t]) <==> IsObject(p, t) && Stores(p, ObjectOf(p, t), DigestAfter(p, texts), |texts|)
  {
    LastHolds(p, texts, t);
    ChainedSnoc(p, texts, t);
  }

  lemma StoresIsOk(p: Platform, e: Members, prev: string, i: nat)
    ensures EntryOk(p, e, prev, i) <==> Stores(p, e, prev, i)
  {
  }

  /** What the check says of a line that follows a chain. */
  lemma CheckExactly(p: Platform, line: string, prev: string, n: nat)
    ensures var t, v := Strip(line), CheckLine(p, line, prev, n);
            && (v.Skipped? <==> t == "")
            && (v.Crash? <==> t != "" && IsJson(p, t) && !IsObject(p, t))
            && (v.Good? <==> t != "" && IsObject(p, t) && Stores(p, ObjectOf(p, t), prev, n))
            && (v.Good? ==> Get(ObjectOf(p, t), "entry_hash") == Some(JString(v.hash)))
  {
    var t := Strip(line);
    if t != "" && IsObject(p, t) { StoresIsOk(p, ObjectOf(p, t), prev, n); }
  }

  lemma KeptNext(lines: seq<string>, k: nat)
    requires k < |lines|
    ensures var t := Strip(lines[k]); Kept(lines[..k + 1]) == Kept(lines[..k]) + if t == "" then [] else [t]
  {
    PrefixGrows(lines, k);
  }

  lemma AfterGood(p: Platform, texts: seq<string>, t: string, h: string)
    requires IsChained(p, texts + [t]) && IsObject(p, t) && Get(ObjectOf(p, t), "entry_hash") == Some(JString(h))
    ensures forall k :: 0 <= k <= |texts| ==> IsObject(p, (texts + [t])[k])
    ensures DigestAfter(p, texts + [t]) == h
  {
    ChainedObjects(p, texts + [t]);
    assert (texts + [t])[|texts|] == t;
  }

  /** Where the walk stands after `k` lines. */
  ghost predicate Stands(p: Platform, lines: seq<string>, k: nat) {
    && k <= |lines| && IsChained(p, Kept(lines[..k]))
    && (forall i :: 0 <= i < |Kept(lines[..k])| ==> IsObject(p, Kept(lines[..k])[i]))
    && VerifyLines(Checker(p), lines, 1, GENESIS, 0)
       == VerifyLines(Checker(p), lines[k..], k + 1, DigestAfter(p, Kept(lines[..k])), |Kept(lines[..k])|)
  }

  lemma GenesisIsZeros()
    ensures GENESIS == seq(64, _ => '0')
  {
  }

  lemma StandsAtStart(p: Platform, lines: seq<string>)
    ensures Stands(p, lines, 0)
  {
    GenesisIsZeros();
    assert lines[0..] == lines && Kept(lines[..0]) == [];
  }

  lemma WalkStep(check: Check, lines: seq<string>, k: nat, prev: string, n: nat)
    requires k < |lines|
    ensures var v := check(lines[k], prev, n);
            VerifyLines(check, lines[k..], k + 1, prev, n) ==
            match v
            case Skipped => VerifyLines(check, lines[k + 1..], k + 2, prev, n)
            case Good(h) => VerifyLines(check, lines[k + 1..], k + 2, h, n + 1)
            case Fault => Broken(k + 1)
            case Crash => Raised
  {
    assert lines[k..][0] == lines[k] && lines[k..][1..] == lines[k + 1..];
  }

  /** A line in order is passed; another one ends the walk. */
  lemma StandsNext(p: Platform, lines: seq<string>, k: nat)
    requires k < |lines| && Stands(p, lines, k)
    ensures var next := k + 1; IsChained(p, Kept(lines[..next])) ==> Stands(p, lines, next)
    ensures FirstFault(p, lines, k) ==>
              var t := Strip(lines[k]);
              VerifyLines(Checker(p), lines, 1, GENESIS, 0) == if IsJson(p, t) && !IsObject(p, t) then Raised else Broken(k + 1)
  {
    var texts, t, next := Kept(lines[..k]), Strip(lines[k]), k + 1;
    var prev, n := DigestAfter(p, texts), |texts|;
    KeptNext(lines, k);
    CheckExactly(p, lines[k], prev, n);
    WalkStep(Checker(p), lines, k, prev, n);
    if t == "" {
      NothingAdded(texts);
    } else {
      ChainedGrows(p, texts, t);
      if IsChained(p, texts + [t]) {
        AfterGood(p, texts, t, CheckLine(p, lines[k], prev, n).hash);
      }
    }
  }

  /** The first line at fault, or the end. */
  lemma WalkTo(p: Platform, lines: seq<string>) returns (k: nat)
    ensures Stands(p, lines, k) && (k == |lines| || FirstFault(p, lines, k))
  {
    k := 0;
    StandsAtStart(p, lines);
    while k < |lines| && IsChained(p, Kept(lines[..k + 1]))
      invariant k <= |lines| && Stands(p, lines, k)
    {
      StandsNext(p, lines, k);
      k := k + 1;
    }
  }

  lemma LinesVerdict(p: Platform, lines: seq<string>, k: nat)
    requires Stands(p, lines, k) && (k == |lines| || FirstFault(p, lines, k))
    ensures VerifyLines(Checker(p), lines, 1, GENESIS, 0) ==
            if k == |lines| then Intact(|Kept(lines)|)
            else var t := Strip(lines[k]); if IsJson(p, t) && !IsObject(p, t) then Raised else Broken(k + 1)
  {
    if k == |lines| {
      assert lines[..k] == lines && lines[k..] == [];
    } else {
      StandsNext(p, lines, k);
    }
  }

  /** At most one line is the first one at fault. */
  lemma {:induction false} ChainedPrefix(p: Platform, lines: seq<string>, j: nat, k: nat)
    requires j <= k <= |lines| && IsChained(p, Kept(lines[..k]))
    ensures IsChained(p, Kept(lines[..j]))
    decreases k - j
  {
    if j < k {
      var last := k - 1;
      KeptNext(lines, last);
      var texts, t := Kept(lines[..last]), Strip(lines[last]);
      if t == "" {
        NothingAdded(texts);
      } else {
        forall i | 0 <= i < |texts| ensures HoldsAt(p, texts, i) {
          assert HoldsAt(p, texts + [t], i);
          HoldsInPrefix(p, texts, t, i);
        }
      }
      ChainedPrefix(p, lines, j, last);
    }
  }

  lemma OneFirstFault(p: Platform, lines: seq<string>, j: nat, k: nat)
    requires FirstFault(p, lines, j) && FirstFault(p, lines, k)
    ensures j == k
  {
    if j < k { ChainedPrefix(p, lines, j + 1, k); }
    if k < j { ChainedPrefix(p, lines, k + 1, j); }
  }

  lemma FaultIsNoChain(p: Platform, lines: seq<string>, k: nat)
    requires FirstFault(p, lines, k)
    ensures !IsChained(p, Kept(lines))
  {
    if IsChained(p, Kept(lines)) {
      assert lines[..|lines|] == lines;
      ChainedPrefix(p, lines, k + 1, |lines|);
    }
  }

  /** The verdict says exactly whether the lines hold, and if not, which is the first that does not. */
  lemma VerdictExactly(p: Platform, file: seq<byte>, v: Verdict)
    ensures v == VerifyFile(p, file) <==> IsVerdict(p, file, v)
  {
    if DecodeStrict(file).Some? {
      var lines := FileLines(DecodeStrict(file).value);
      var k := WalkTo(p, lines);
      LinesVerdict(p, lines, k);
      OnlyVerdict(p, lines, k, file, v);
    }
  }

  lemma OnlyVerdict(p: Platform, lines: seq<string>, k: nat, file: seq<byte>, v: Verdict)
    requires DecodeStrict(file).Some? && lines == FileLines(DecodeStrict(file).value)
    requires k <= |lines| && IsChained(p, Kept(lines[..k])) && (k == |lines| || FirstFault(p, lines, k))
    ensures IsVerdict(p, file, v) <==>
            v == if k == |lines| then Intact(|Kept(lines)|)
                 else var t := Strip(lines[k]); if IsJson(p, t) && !IsObject(p, t) then Raised else Broken(k + 1)
  {
    assert lines[..|lines|] == lines;
    if k < |lines| { FaultIsNoChain(p, lines, k); }
    forall j: nat | FirstFault(p, lines, j) ensures j == k {
      if k == |lines| { FaultIsNoChain(p, lines, j); } else { OneFirstFault(p, lines, j, k); }
    }
  }

  /** A file is intact with `n` entries exactly if it is UTF-8, it has `n` lines that are
      not blank, and each is an object that names the digest of the one before, its own
      place, and the digest of both. */
  lemma IntactExactly(p: Platform, file: seq<byte>, n: nat)
    ensures VerifyFile(p, file) == Intact(n) <==>
            && DecodeStrict(file).Some?
            && var texts := Kept(FileLines(DecodeStrict(file).value));
               |texts| == n && IsChained(p, texts)
  {
    VerdictExactly(p, file, Intact(n));
  }
}
