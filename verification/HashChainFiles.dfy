/** The tail read refines a full scan, and what the writers build verifies. */
module HashChainFiles {
  import opened Wrappers
  import opened Utf8
  import opened PyText
  import opened Json
  import opened JsonRoundTrip
  import opened JsonText
  import opened JsonScan
  import opened HashChain
  import opened TailWindow

  /** The head a full scan finds: read every line, keep the last entry. */
  function FullScanHead(p: Platform, file: seq<byte>): Head {
    FullScan(HeadParser(p), FIRST_HEAD, Unreadable, file)
  }

  lemma NoValueStart(fr: FloatRepr, y: string)
    ensures y != [] && y[0] == REPLACEMENT ==> ParseValue(fr, y).None?
  {
    assert "null"[0] == 'n' && "true"[0] == 't' && "false"[0] == 'f';
    assert NAN[0] == 'N' && INFINITY[0] == 'I' && MINUS_INFINITY[0] == '-';
  }

  /** Replacement characters in front of a suffix of an object never make it readable. */
  lemma DamagedSuffix(p: Platform, e: Members, j: nat, i: nat)
    requires WellFormed(p.repr, JObject(e)) && 0 < i < |EntryText(e)|
    ensures HeadOf(p, Damaged(EntryText(e), j, i)) == Unreadable
  {
    var y := Damaged(EntryText(e), j, i);
    if j == 0 {
      assert y == EntryText(e)[i..];
      SuffixIsNoJson(p.repr, Default, e, i);
    } else {
      assert y[0] == REPLACEMENT;
      SkipNone(y);
      NoValueStart(p.repr, y);
    }
  }

  lemma EntryHead(p: Platform, e: Members, prev: string, i: nat)
    requires Link(p, e, prev, i)
    ensures HeadOf(p, EntryText(e)) == Head(JString(StoredHash(e)), i + 1)
  {
    DumpsLoads(p.repr, Default, JObject(e));
  }

  lemma EntryLine(p: Platform, e: Members)
    requires WellFormed(p.repr, JObject(e))
    ensures SolidLine(HeadParser(p), Unreadable, EntryText(e))
    ensures OneLine(EntryText(e))
  {
    ObjectText(p.repr, e);
    forall j: nat, k: nat | 0 < k < |EntryText(e)|
      ensures HeadParser(p)(Damaged(EntryText(e), j, k)) == Unreadable
    {
      DamagedSuffix(p, e, j, k);
    }
  }

  lemma ChainLine(p: Platform, es: seq<Members>, i: nat)
    requires IsChain(p, es) && i < |es|
    ensures SolidLine(HeadParser(p), Unreadable, Texts(es)[i])
    ensures OneLine(Texts(es)[i])
    ensures HeadParser(p)(Texts(es)[i]) == Head(JString(PrevHash(es, i + 1)), i + 1)
  {
    assert LinkAt(p, es, i);
    EntryLine(p, es[i]);
    EntryHead(p, es[i], PrevHash(es, i), i);
  }

  lemma LineOfChain(p: Platform, es: seq<Members>, i: nat) returns (t: string, h: Head)
    requires IsChain(p, es) && i < |es|
    ensures t == EntryText(es[i]) == Texts(es)[i]
    ensures h == Head(JString(PrevHash(es, i + 1)), i + 1) == HeadParser(p)(t)
    ensures SolidLine(HeadParser(p), Unreadable, t)
  {
    ChainLine(p, es, i);
    t, h := Texts(es)[i], Head(JString(PrevHash(es, i + 1)), i + 1);
  }

  lemma HeadFromWindow(p: Platform, lines: seq<string>, t: string, h: Head)
    requires lines != [] && lines[|lines| - 1] == t && SolidLine(HeadParser(p), Unreadable, t)
    requires HeadParser(p)(t) == h
    ensures ReadHead(p, Encode(JoinLines(lines))) == if Readable(t) then h else Unreadable
  {
    WindowOnFile(HeadParser(p), FIRST_HEAD, Unreadable, lines);
  }

  lemma HeadFromScan(p: Platform, lines: seq<string>, t: string, h: Head)
    requires AllOneLine(lines) && lines != [] && lines[|lines| - 1] == t
    requires SolidLine(HeadParser(p), Unreadable, t) && HeadParser(p)(t) == h
    ensures FullScanHead(p, Encode(JoinLines(lines))) == h
  {
    FullScanOfFile(HeadParser(p), FIRST_HEAD, Unreadable, lines);
  }

  lemma EmptyScan(p: Platform)
    ensures FullScanHead(p, []) == FIRST_HEAD
  {
    DecodeEncode("");
    assert FileLines("") == [];
  }

  /** On every file the writers build, the read of at most 4096 bytes yields the
      last entry's hash and the next sequence number if the last line is readable,
      and otherwise raises. */
  lemma TailRead(p: Platform, es: seq<Members>)
    requires IsChain(p, es)
    ensures ReadHead(p, FileOf(es)) ==
            if es == [] || Readable(EntryText(es[|es| - 1]))
            then Head(JString(PrevHash(es, |es|)), |es|) else Unreadable
  {
    if es == [] {
      assert FileOf(es) == [];
    } else {
      var t, h := LineOfChain(p, es, |es| - 1);
      HeadFromWindow(p, Texts(es), t, h);
    }
  }

  lemma ChainLines(p: Platform, es: seq<Members>)
    requires IsChain(p, es)
    ensures AllOneLine(Texts(es))
  {
    forall i | 0 <= i < |Texts(es)| ensures OneLine(Texts(es)[i]) {
      ChainLine(p, es, i);
    }
  }

  lemma FileLinesOf(p: Platform, es: seq<Members>)
    requires IsChain(p, es)
    ensures DecodeStrict(FileOf(es)) == Some(JoinLines(Texts(es)))
    ensures FileLines(JoinLines(Texts(es))) == Texts(es)
  {
    ChainLines(p, es);
    FileLinesOfJoined(Texts(es));
  }

  lemma StripBraces(t: string)
    requires |t| >= 2 && t[0] == '{' && t[|t| - 1] == '}'
    ensures Strip(t) == t
  {
  }

  lemma CheckOwnLine(p: Platform, e: Members, prev: string, i: nat)
    requires Link(p, e, prev, i)
    ensures CheckLine(p, EntryText(e), prev, i) == Good(StoredHash(e))
  {
    ObjectText(p.repr, e);
    StripBraces(EntryText(e));
    DumpsLoads(p.repr, Default, JObject(e));
  }

  /** The digests of the chain, from genesis on. */
  function Digests(es: seq<Members>): (r: seq<string>)
    ensures |r| == |es| + 1
  {
    seq(|es| + 1, i requires 0 <= i <= |es| => PrevHash(es, i))
  }

  lemma CheckChainLine(p: Platform, es: seq<Members>, i: nat)
    requires IsChain(p, es) && i < |es|
    ensures Checker(p)(Texts(es)[i], Digests(es)[i], i) == Good(Digests(es)[i + 1])
  {
    assert LinkAt(p, es, i);
    CheckOwnLine(p, es[i], PrevHash(es, i), i);
  }

  lemma {:induction false} GoodLinesVerify(check: Check, lines: seq<string>, digests: seq<string>, i: nat, lineNo: nat)
    requires i <= |lines| && |digests| == |lines| + 1
    requires forall j :: i <= j < |lines| ==> check(lines[j], digests[j], j) == Good(digests[j + 1])
    ensures VerifyLines(check, lines[i..], lineNo, digests[i], i) == Intact(|lines|)
    decreases |lines| - i
  {
    if i < |lines| {
      assert lines[i..][0] == lines[i] && lines[i..][1..] == lines[i + 1..];
      assert check(lines[i], digests[i], i) == Good(digests[i + 1]);
      GoodLinesVerify(check, lines, digests, i + 1, lineNo + 1);
    }
  }

  /** A file built from a chain verifies, with one entry for each link. */
  lemma BuiltFileVerifies(p: Platform, es: seq<Members>)
    requires IsChain(p, es)
    ensures VerifyFile(p, FileOf(es)) == Intact(|es|)
  {
    FileLinesOf(p, es);
    forall j | 0 <= j < |Texts(es)|
      ensures Checker(p)(Texts(es)[j], Digests(es)[j], j) == Good(Digests(es)[j + 1])
    {
      CheckChainLine(p, es, j);
    }
    GoodLinesVerify(Checker(p), Texts(es), Digests(es), 0, 1);
    assert Texts(es)[0..] == Texts(es);
  }

  lemma FullScanOf(p: Platform, es: seq<Members>)
    requires IsChain(p, es)
    ensures FullScanHead(p, FileOf(es)) == Head(JString(PrevHash(es, |es|)), |es|)
  {
    if es == [] {
      assert FileOf(es) == [];
      EmptyScan(p);
    } else {
      ChainLines(p, es);
      var t, h := LineOfChain(p, es, |es| - 1);
      HeadFromScan(p, Texts(es), t, h);
    }
  }

  /** The bounded tail read refines the full scan: it agrees with it exactly when
      the last line is readable, and raises otherwise; it never yields another head. */
  lemma TailReadRefinesFullScan(p: Platform, es: seq<Members>)
    requires IsChain(p, es)
    ensures FullScanHead(p, FileOf(es)) == Head(JString(PrevHash(es, |es|)), |es|)
    ensures ReadHead(p, FileOf(es)) == FullScanHead(p, FileOf(es))
            <==> (es == [] || Readable(EntryText(es[|es| - 1])))
    ensures ReadHead(p, FileOf(es)) == FullScanHead(p, FileOf(es))
            || ReadHead(p, FileOf(es)) == Unreadable
  {
    TailRead(p, es);
    FullScanOf(p, es);
  }
}
