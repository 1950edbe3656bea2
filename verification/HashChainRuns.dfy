/** Every run of the writers keeps the chain, and appends succeed exactly when
    the boundary check passes and the tail can be read. */
module HashChainRuns {
  import opened Wrappers
  import opened Utf8
  import opened PyText
  import opened TailWindow
  import opened Json
  import opened HashChain
  import opened HashChainFiles

  // ---- A sealed draft is a link ----

  predicate DistinctNames(pairs: seq<(string, Json)>) {
    forall i, j :: 0 <= i < j < |pairs| ==> pairs[i].0 != pairs[j].0
  }

  lemma {:induction false} DictKeys(pairs: seq<(string, Json)>)
    ensures Keys(Dict(pairs)) == set i | 0 <= i < |pairs| :: pairs[i].0
    ensures DistinctNames(pairs) ==> UniqueKeys(Dict(pairs))
  {
    if pairs != [] {
      DictKeys(pairs[1..]);
      assert forall i :: 1 <= i < |pairs| ==> pairs[i] == pairs[1..][i - 1];
      var rest := set i | 0 <= i < |pairs[1..]| :: pairs[1..][i].0;
      var all := set i | 0 <= i < |pairs| :: pairs[i].0;
      assert all == {pairs[0].0} + rest by {
        forall k | k in all ensures k in {pairs[0].0} + rest {
          var i :| 0 <= i < |pairs| && pairs[i].0 == k;
          if i > 0 { assert pairs[1..][i - 1].0 == k; }
        }
        forall k | k in {pairs[0].0} + rest ensures k in all {
          if k != pairs[0].0 {
            var i :| 0 <= i < |pairs[1..]| && pairs[1..][i].0 == k;
            assert pairs[i + 1].0 == k;
          }
        }
      }
    }
  }

  lemma {:induction false} DictGet(pairs: seq<(string, Json)>, i: nat)
    requires DistinctNames(pairs) && i < |pairs|
    ensures Get(Dict(pairs), pairs[i].0) == Some(pairs[i].1)
  {
    if i > 0 {
      assert pairs[0].0 != pairs[i].0;
      assert pairs[1..][i - 1] == pairs[i];
      DictGet(pairs[1..], i - 1);
    }
  }

  lemma {:induction false} DictWellFormed(p: Platform, pairs: seq<(string, Json)>)
    requires forall i :: 0 <= i < |pairs| ==> WellFormed(p.repr, pairs[i].1)
    ensures WellFormedMembers(p.repr, Dict(pairs))
  {
    if pairs != [] { DictWellFormed(p, pairs[1..]); }
  }

  lemma {:induction false} PutFacts(fr: FloatRepr, ms: Members, k: string, v: Json)
    requires k !in Keys(ms)
    ensures Get(Put(ms, k, v), k) == Some(v)
    ensures forall j :: j != k ==> Get(Put(ms, k, v), j) == Get(ms, j)
    ensures Without(Put(ms, k, v), k) == ms
    ensures WellFormedMembers(fr, ms) && WellFormed(fr, v) ==> WellFormedMembers(fr, Put(ms, k, v))
  {
    if ms.MCons? { PutFacts(fr, ms.tail, k, v); }
  }

  function Pairs(d: Draft, seqNo: int, prev: string): seq<(string, Json)> {
    [("ts", JString(d.ts)), ("seq", JInt(seqNo))] + OwnPairs(d) + [("prev_hash", JString(prev))]
  }

  /** The names an entry uses are all different, and none is `entry_hash`. */
  lemma NamesDistinct(d: Draft, seqNo: int, prev: string)
    ensures DistinctNames(Pairs(d, seqNo, prev))
    ensures forall i :: 0 <= i < |Pairs(d, seqNo, prev)| ==> Pairs(d, seqNo, prev)[i].0 != "entry_hash"
  {
    var pairs := Pairs(d, seqNo, prev);
    match d {
      case Action(_, _, _, _, _, _, _) =>
        assert |pairs| == 9;
        assert "action"[0] != "vendor"[0] && "action"[1] != "amount"[1] && "vendor"[0] != "amount"[0];
        assert "decision"[0] != "metadata"[0];
      case Earn(_, _, _, _) =>
        assert |pairs| == 7;
        assert "token_id"[0] != "entry_hash"[0];
      case Interaction(_, _, _, _, _, _, _, _, _) =>
        assert |pairs| == 11;
        assert "segment"[0] != "sponsor"[0] || "segment"[1] != "sponsor"[1];
        assert "latency_ms"[0] != "entry_hash"[0];
    }
  }

  lemma PairsWellFormed(p: Platform, d: Draft, seqNo: int, prev: string)
    requires WellFormedDraft(p, d)
    ensures forall i :: 0 <= i < |Pairs(d, seqNo, prev)| ==> WellFormed(p.repr, Pairs(d, seqNo, prev)[i].1)
  {
  }

  lemma PayloadFacts(p: Platform, d: Draft, seqNo: int, prev: string)
    requires WellFormedDraft(p, d)
    ensures var ms := Payload(d, seqNo, prev);
            && WellFormed(p.repr, JObject(ms)) && "entry_hash" !in Keys(ms)
            && Get(ms, "seq") == Some(JInt(seqNo)) && Get(ms, "prev_hash") == Some(JString(prev))
  {
    var pairs := Pairs(d, seqNo, prev);
    NamesDistinct(d, seqNo, prev);
    PairsWellFormed(p, d, seqNo, prev);
    DictKeys(pairs);
    DictWellFormed(p, pairs);
    assert pairs[1] == ("seq", JInt(seqNo)) && pairs[|pairs| - 1] == ("prev_hash", JString(prev));
    DictGet(pairs, 1);
    DictGet(pairs, |pairs| - 1);
  }

  /** What a writer seals passes all three checks of verification. */
  lemma SealedIsLink(p: Platform, d: Draft, i: nat, prev: string)
    requires WellFormedDraft(p, d)
    ensures Link(p, Seal(p, d, i, prev), prev, i)
  {
    var ms := Payload(d, i, prev);
    PayloadFacts(p, d, i, prev);
    PutFacts(p.repr, ms, "entry_hash", JString(HashEntry(p, prev, ms)));
  }

  // ---- One append ----

  lemma AppendLine(es: seq<Members>, e: Members)
    ensures FileOf(es + [e]) == FileOf(es) + Encode(EntryText(e) + "\n")
  {
    assert Texts(es + [e]) == Texts(es) + [EntryText(e)];
    assert (Texts(es) + [EntryText(e)])[..|es|] == Texts(es);
    EncodeAppend(JoinLines(Texts(es)), EntryText(e) + "\n");
  }

  /** Whether the next append can read the tail. */
  predicate TailReadable(es: seq<Members>) {
    es == [] || Readable(EntryText(es[|es| - 1]))
  }

  /** The entries after an append: one more if the draft is admissible and the tail
      readable, and the same ones, in an unchanged file, otherwise. */
  function Extended(p: Platform, es: seq<Members>, d: Draft): seq<Members> {
    if Admissible(d) && TailReadable(es) then es + [Seal(p, d, |es|, PrevHash(es, |es|))] else es
  }

  lemma PrevHashPrefix(es: seq<Members>, e: Members, i: nat)
    requires i <= |es|
    ensures PrevHash(es + [e], i) == PrevHash(es, i)
    ensures i < |es| ==> (es + [e])[i] == es[i]
  {
  }

  lemma LinkExtends(p: Platform, es: seq<Members>, e: Members)
    requires IsChain(p, es) && Link(p, e, PrevHash(es, |es|), |es|)
    ensures IsChain(p, es + [e])
  {
    var es' := es + [e];
    forall i | 0 <= i < |es'| ensures LinkAt(p, es', i) {
      assert i < |es| ==> LinkAt(p, es, i);
      PrevHashPrefix(es, e, i);
      if i == |es| { assert es'[i] == e; }
    }
  }

  lemma ExtendedChain(p: Platform, es: seq<Members>, d: Draft)
    requires IsChain(p, es) && WellFormedDraft(p, d)
    ensures IsChain(p, Extended(p, es, d))
  {
    SealedIsLink(p, d, |es|, PrevHash(es, |es|));
    LinkExtends(p, es, Seal(p, d, |es|, PrevHash(es, |es|)));
  }

  lemma AppendAfter(p: Platform, file: seq<byte>, d: Draft, prev: string, n: int)
    requires Admissible(d) && ReadHead(p, file) == Head(JString(prev), n)
    ensures Append(p, file, d) ==
            (Appended(Seal(p, d, n, prev)), file + Encode(EntryText(Seal(p, d, n, prev)) + "\n"))
  {
  }

  lemma AppendWithoutHead(p: Platform, file: seq<byte>, d: Draft)
    requires Admissible(d) ==> ReadHead(p, file) == Unreadable
    ensures Append(p, file, d) == (if Admissible(d) then NoHead else Rejected, file)
  {
  }

  /** What an append to a chain of entries answers. */
  function AppendOutcome(p: Platform, es: seq<Members>, d: Draft): Outcome {
    if !Admissible(d) then Rejected
    else if TailReadable(es) then Appended(Seal(p, d, |es|, PrevHash(es, |es|)))
    else NoHead
  }

  /** An append to a chain extends it by a sealed entry exactly when the draft is
      admissible and the tail readable; otherwise it raises and writes nothing. */
  lemma AppendKeepsChain(p: Platform, es: seq<Members>, d: Draft)
    requires IsChain(p, es) && WellFormedDraft(p, d)
    ensures Append(p, FileOf(es), d) == (AppendOutcome(p, es, d), FileOf(Extended(p, es, d)))
    ensures IsChain(p, Extended(p, es, d))
  {
    TailRead(p, es);
    ExtendedChain(p, es, d);
    if Admissible(d) && TailReadable(es) {
      AppendAfter(p, FileOf(es), d, PrevHash(es, |es|), |es|);
      AppendLine(es, Seal(p, d, |es|, PrevHash(es, |es|)));
    } else {
      AppendWithoutHead(p, FileOf(es), d);
    }
  }

  // ---- Runs ----

  /** The file after a run of appends by any of the writers, and how many succeeded. */
  function Run(p: Platform, file: seq<byte>, ds: seq<Draft>): (seq<byte>, nat) {
    if ds == [] then (file, 0)
    else
      var (file', n) := Run(p, file, ds[..|ds| - 1]);
      var (r, file'') := Append(p, file', ds[|ds| - 1]);
      (file'', if r.Appended? then n + 1 else n)
  }

  ghost predicate AllWellFormed(p: Platform, ds: seq<Draft>) {
    forall i :: 0 <= i < |ds| ==> WellFormedDraft(p, ds[i])
  }

  lemma {:induction false} RunBuildsChain(p: Platform, ds: seq<Draft>) returns (es: seq<Members>)
    requires AllWellFormed(p, ds)
    ensures IsChain(p, es) && Run(p, [], ds) == (FileOf(es), |es|)
  {
    if ds == [] {
      es := [];
    } else {
      var before := RunBuildsChain(p, ds[..|ds| - 1]);
      AppendKeepsChain(p, before, ds[|ds| - 1]);
      es := Extended(p, before, ds[|ds| - 1]);
    }
  }

  /** Whatever the writers do and in whatever order, the file verifies and the
      count is that of the successful appends. */
  lemma RunVerifies(p: Platform, ds: seq<Draft>)
    requires AllWellFormed(p, ds)
    ensures var (file, n) := Run(p, [], ds); VerifyFile(p, file) == Intact(n)
  {
    var es := RunBuildsChain(p, ds);
    BuiltFileVerifies(p, es);
  }

  /** Once a line that cannot be read back is at the end, no run appends anything
      more, although the file keeps verifying. */
  lemma {:induction false} UnreadableTailIsFinal(p: Platform, es: seq<Members>, ds: seq<Draft>)
    requires IsChain(p, es) && !TailReadable(es) && AllWellFormed(p, ds)
    ensures Run(p, FileOf(es), ds) == (FileOf(es), 0)
    ensures VerifyFile(p, FileOf(es)) == Intact(|es|)
  {
    BuiltFileVerifies(p, es);
    if ds != [] {
      UnreadableTailIsFinal(p, es, ds[..|ds| - 1]);
      AppendKeepsChain(p, es, ds[|ds| - 1]);
    }
  }
}
