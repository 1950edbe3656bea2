/** Entries that lock the log: a writer can append them, and nothing after them. */
module HashChainLimits {
  import opened Wrappers
  import opened Sequences
  import opened Utf8
  import opened PyText
  import opened TailWindow
  import opened Json
  import opened JsonText
  import opened HashChain
  import opened HashChainFiles
  import opened HashChainRuns

  /** A text that fits no readable line: too long for the window, or with a line break
      of `splitlines` that JSON leaves as it is (U+0085, U+2028, U+2029). */
  predicate Locks(s: string) {
    |s| >= WINDOW || exists i :: 0 <= i < |s| && IsBreak(s[i]) && PrintsAsIs(s[i])
  }

  lemma ShownIsUnreadable(t: string, s: string)
    requires Shows(t, s) && Locks(s)
    ensures !Readable(t)
  {
    if |s| < WINDOW {
      var i :| 0 <= i < |s| && IsBreak(s[i]) && PrintsAsIs(s[i]);
      assert s[i] in s;
      var j :| 0 <= j < |t| && t[j] == s[i];
    }
  }

  /** What the writer is handed holds `s`, at any depth. */
  predicate Carries(d: Draft, s: string) {
    HoldsMember(Dict(OwnPairs(d)), s)
  }

  lemma {:induction false} DictHolds(pairs: seq<(string, Json)>, i: nat, s: string)
    requires i < |pairs| && Holds(pairs[i].1, s)
    ensures HoldsMember(Dict(pairs), s)
  {
    if i > 0 { DictHolds(pairs[1..], i - 1, s); }
  }

  lemma {:induction false} DictHoldsPart(a: seq<(string, Json)>, b: seq<(string, Json)>, c: seq<(string, Json)>, s: string)
    requires HoldsMember(Dict(b), s)
    ensures HoldsMember(Dict(a + b + c), s)
  {
    if a != [] {
      assert (a + b + c)[1..] == a[1..] + b + c;
      DictHoldsPart(a[1..], b, c, s);
    } else {
      DictHoldsFront(b, c, s);
      NothingAdded(b);
    }
  }

  lemma {:induction false} DictHoldsFront(b: seq<(string, Json)>, c: seq<(string, Json)>, s: string)
    requires HoldsMember(Dict(b), s)
    ensures HoldsMember(Dict(b + c), s)
  {
    DropWithin(b, c, 1);
    if HoldsMember(Dict(b[1..]), s) { DictHoldsFront(b[1..], c, s); }
  }

  lemma {:induction false} PutHolds(ms: Members, k: string, v: Json, s: string)
    requires HoldsMember(ms, s)
    ensures HoldsMember(Put(ms, k, v), s)
  {
    if HoldsMember(ms.tail, s) { PutHolds(ms.tail, k, v, s); }
  }

  lemma SealedHolds(p: Platform, d: Draft, n: nat, prev: string, s: string)
    requires WellFormedDraft(p, d) && Carries(d, s)
    ensures var e := Seal(p, d, n, prev); WellFormed(p.repr, JObject(e)) && Holds(JObject(e), s)
  {
    var ms := Payload(d, n, prev);
    PayloadFacts(p, d, n, prev);
    DictHoldsPart([("ts", JString(d.ts)), ("seq", JInt(n))], OwnPairs(d), [("prev_hash", JString(prev))], s);
    PutHolds(ms, "entry_hash", JString(HashEntry(p, prev, ms)), s);
    PutFacts(p.repr, ms, "entry_hash", JString(HashEntry(p, prev, ms)));
  }

  /** A sealed entry that holds such a text cannot be read back. */
  lemma SealedIsUnreadable(p: Platform, d: Draft, n: nat, prev: string, s: string)
    requires WellFormedDraft(p, d) && Carries(d, s) && Locks(s)
    ensures !Readable(EntryText(Seal(p, d, n, prev)))
  {
    var e := Seal(p, d, n, prev);
    SealedHolds(p, d, n, prev, s);
    ValueShows(p.repr, Default, JObject(e), "", s);
    ShownIsUnreadable(EntryText(e), s);
  }

  lemma LockedTail(p: Platform, es: seq<Members>, d: Draft, s: string)
    requires WellFormedDraft(p, d) && Admissible(d) && Carries(d, s) && Locks(s) && TailReadable(es)
    ensures var es' := Extended(p, es, d); |es'| == |es| + 1 && !TailReadable(es')
  {
    SealedIsUnreadable(p, d, |es|, PrevHash(es, |es|), s);
  }

  /** One append: whether it succeeded, and the file after it. */
  function Appender(p: Platform): (seq<byte>, Draft) -> (bool, seq<byte>) {
    (file: seq<byte>, d: Draft) => var (r, file') := Append(p, file, d); (r.Appended?, file')
  }

  /** A run of appends, for any way to append. */
  function RunWith(append: (seq<byte>, Draft) -> (bool, seq<byte>), file: seq<byte>, ds: seq<Draft>): (seq<byte>, nat) {
    if ds == [] then (file, 0)
    else
      var (file1, n) := RunWith(append, file, ds[..|ds| - 1]);
      var (ok, file2) := append(file1, ds[|ds| - 1]);
      (file2, if ok then n + 1 else n)
  }

  lemma {:induction false} RunIsRunWith(p: Platform, file: seq<byte>, ds: seq<Draft>)
    ensures Run(p, file, ds) == RunWith(Appender(p), file, ds)
  {
    if ds != [] { RunIsRunWith(p, file, ds[..|ds| - 1]); }
  }

  lemma RunSnoc(append: (seq<byte>, Draft) -> (bool, seq<byte>), file: seq<byte>, ds: seq<Draft>, d: Draft)
    ensures var (file1, n) := RunWith(append, file, ds);
            var (ok, file2) := append(file1, d);
            RunWith(append, file, ds + [d]) == (file2, if ok then n + 1 else n)
  {
    Parts(ds, [d]);
  }

  /** A run that starts with `d`. */
  lemma {:induction false} RunAfter(append: (seq<byte>, Draft) -> (bool, seq<byte>), file: seq<byte>, d: Draft, ds: seq<Draft>)
    ensures var (ok, file1) := append(file, d);
            var (file2, n) := RunWith(append, file1, ds);
            RunWith(append, file, [d] + ds) == (file2, if ok then n + 1 else n)
  {
    if ds == [] {
      RunSnoc(append, file, [], d);
      assert [d] + ds == [] + [d];
    } else {
      var before, last := ds[..|ds| - 1], ds[|ds| - 1];
      ApartLast(ds);
      Associate([d], before, [last]);
      RunAfter(append, file, d, before);
      RunSnoc(append, file, [d] + before, last);
    }
  }

  /** An entry that holds such a text, whichever writer it comes from, is written to any
      log that can still be extended, and after it every append of every run raises,
      although the file verifies. */
  lemma DraftLocksLog(p: Platform, es: seq<Members>, d: Draft, s: string, ds: seq<Draft>)
    requires IsChain(p, es) && TailReadable(es) && AllWellFormed(p, ds)
    requires WellFormedDraft(p, d) && Admissible(d) && Carries(d, s) && Locks(s)
    ensures var (file, n) := Run(p, FileOf(es), [d] + ds); n == 1 && VerifyFile(p, file) == Intact(|es| + 1)
  {
    var es' := Extended(p, es, d);
    LockedTail(p, es, d, s);
    AppendKeepsChain(p, es, d);
    RunAfter(Appender(p), FileOf(es), d, ds);
    RunIsRunWith(p, FileOf(es), [d] + ds);
    RunIsRunWith(p, FileOf(es'), ds);
    UnreadableTailIsFinal(p, es', ds);
  }

  lemma EarnCarries(ts: string, service: string, amountCents: int, tokenId: string)
    ensures Carries(Earn(ts, service, amountCents, tokenId), service)
  {
    DictHolds(OwnPairs(Earn(ts, service, amountCents, tokenId)), 1, service);
  }

  lemma ActionCarries(d: Draft)
    requires d.Action?
    ensures Carries(d, d.vendor)
  {
    DictHolds(OwnPairs(d), 1, d.vendor);
  }

  lemma InteractionCarries(d: Draft)
    requires d.Interaction?
    ensures Carries(d, d.op)
  {
    DictHolds(OwnPairs(d), 1, d.op);
  }

  lemma LongTextLocks(s: string)
    requires |s| >= 4096
    ensures Locks(s)
  {
  }

  lemma LineSeparatorLocks(s: string)
    requires '\U{0085}' in s || '\U{2028}' in s || '\U{2029}' in s
    ensures Locks(s)
  {
    var c := if '\U{0085}' in s then '\U{0085}' else if '\U{2028}' in s then '\U{2028}' else '\U{2029}';
    assert IsBreak(c) && PrintsAsIs(c);
    var i :| 0 <= i < |s| && s[i] == c;
    assert IsBreak(s[i]);
  }

  const SEPARATOR: string := ['\U{2028}']

  lemma SeparatorLocks()
    ensures Locks(SEPARATOR)
  {
    assert SEPARATOR[0] == '\U{2028}';
    LineSeparatorLocks(SEPARATOR);
  }

  /** From an empty file, the first of two equal drafts is written and the second raises. */
  lemma LocksFromStart(p: Platform, d: Draft, s: string)
    requires WellFormedDraft(p, d) && Admissible(d) && Carries(d, s) && Locks(s)
    ensures Run(p, [], [d, d]).1 == 1
  {
    assert FileOf([]) == [];
    DraftLocksLog(p, [], d, s, [d]);
    assert [d] + [d] == [d, d];
  }

  /** So it is for two earn events of a service named by a line separator. */
  lemma SecondEventRaises(p: Platform, ts: string, amountCents: int, tokenId: string)
    ensures var d := Earn(ts, SEPARATOR, amountCents, tokenId); Run(p, [], [d, d]).1 == 1
  {
    SeparatorLocks();
    EarnCarries(ts, SEPARATOR, amountCents, tokenId);
    LocksFromStart(p, Earn(ts, SEPARATOR, amountCents, tokenId), SEPARATOR);
  }

  /** And for two interactions with a known sponsor and such an operation: the second
      raises, though not on an unknown sponsor. */
  lemma SecondInteractionRaises(p: Platform, ts: string, segment: string, status: string)
    ensures var d := Interaction(ts, "Stripe", SEPARATOR, segment, status, JNull, JNull, JNull, MNil);
            Admissible(d) && Run(p, [], [d, d]).1 == 1
  {
    var d := Interaction(ts, "Stripe", SEPARATOR, segment, status, JNull, JNull, JNull, MNil);
    SeparatorLocks();
    InteractionCarries(d);
    LocksFromStart(p, d, SEPARATOR);
  }
}
