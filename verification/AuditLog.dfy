/** The log file and its writers, step by step. */
module AuditLog {
  import opened Wrappers
  import opened Utf8
  import opened PyText
  import opened TailWindow
  import opened Json
  import opened HashChain
  import opened HashChainFiles
  import opened HashChainRuns
  import opened HashChainVerify
  import opened HashChainEntries

  /** The last line that is not blank, looking backwards. */
  method FindLast(lines: seq<string>) returns (last: Option<string>)
    ensures last == LastNonBlank(lines)
  {
    var i := |lines|;
    assert lines[..i] == lines;
    while i > 0
      invariant 0 <= i <= |lines| && LastNonBlank(lines[..i]) == LastNonBlank(lines)
    {
      assert lines[..i][..i - 1] == lines[..i - 1];
      if !Blank(lines[i - 1]) {
        return Some(lines[i - 1]);
      }
      i := i - 1;
    }
    last := None;
  }

  method ReadHeadOfFile(p: Platform, file: seq<byte>) returns (h: Head)
    ensures h == ReadHead(p, file)
  {
    if file == [] {
      return FIRST_HEAD;
    }
    var tail := DecodeReplace(file[WindowStart(|file|)..]);
    var last := FindLast(SplitLines(Strip(tail)));
    h := if last.None? then FIRST_HEAD else HeadOf(p, last.value);
  }

  /** Walk the lines from genesis, keeping the digest and the number to expect. */
  method Walk(check: Check, lines: seq<string>) returns (v: Verdict)
    ensures v == VerifyLines(check, lines, 1, GENESIS, 0)
  {
    var prev: string, expected: nat := GENESIS, 0;
    var i := 0;
    while i < |lines|
      invariant 0 <= i <= |lines|
      invariant VerifyLines(check, lines[i..], i + 1, prev, expected) == VerifyLines(check, lines, 1, GENESIS, 0)
    {
      assert lines[i..][0] == lines[i] && lines[i..][1..] == lines[i + 1..];
      match check(lines[i], prev, expected) {
        case Skipped =>
        case Good(h) => prev, expected := h, expected + 1;
        case Fault => return Broken(i + 1);
        case Crash => return Raised;
      }
      i := i + 1;
    }
    v := Intact(expected);
  }

  method VerifyChainOfFile(p: Platform, file: seq<byte>) returns (v: Verdict)
    ensures v == VerifyFile(p, file) && IsVerdict(p, file, v)
  {
    VerdictExactly(p, file, VerifyFile(p, file));
    var text := DecodeStrict(file);
    if text.None? {
      return Raised;
    }
    v := Walk(Checker(p), FileLines(text.value));
  }

  /** What a write leaves: if it succeeds, one more line, which reads back as the entry
      returned and stores what the writer was handed. */
  ghost predicate IsWritten(p: Platform, before: seq<Members>, d: Draft, r: Outcome, file: seq<byte>) {
    && ReadFile(p, file) == (if r.Appended? then before + [r.entry] else before)
    && (r.Appended? ==> StoresArguments(r.entry, d) && StoresPlace(p, r.entry, d.ts, |before|, PrevHash(before, |before|)))
  }

  lemma AppendIsWritten(p: Platform, es: seq<Members>, d: Draft, r: Outcome, file: seq<byte>)
    requires IsChain(p, es) && WellFormedDraft(p, d) && (r, file) == Append(p, FileOf(es), d)
    ensures IsWritten(p, es, d, r, file)
  {
    AppendReadsBack(p, es, d);
  }

  class Log {
    const p: Platform
    var file: seq<byte>
    ghost var entries: seq<Members>

    ghost predicate Valid()
      reads this
    {
      IsChain(p, entries) && file == FileOf(entries)
    }

    constructor (p: Platform)
      ensures Valid() && this.p == p && entries == [] && file == []
    {
      this.p := p;
      file, entries := [], [];
    }

    /** Any writer: chain to the head, seal, append one line. */
    method Write(d: Draft) returns (r: Outcome)
      requires Valid() && WellFormedDraft(p, d)
      modifies this
      ensures Valid()
      ensures entries == Extended(p, old(entries), d) && r == AppendOutcome(p, old(entries), d)
      ensures IsWritten(p, old(entries), d, r, file)
      ensures !r.Appended? ==> file == old(file)
    {
      AppendKeepsChain(p, entries, d);
      AppendIsWritten(p, entries, d, Append(p, file, d).0, Append(p, file, d).1);
      entries := Extended(p, entries, d);
      if !Admissible(d) {
        return Rejected;
      }
      var h := ReadHeadOfFile(p, file);
      match h {
        case Head(JString(prev), n) =>
          var entry := Seal(p, d, n, prev);
          file := file + Encode(EntryText(entry) + "\n");
          r := Appended(entry);
        case _ => r := NoHead;
      }
    }

    method AppendAction(ts: string, action: string, vendor: string, amount: Json, decision: string,
                        actor: string, metadata: Members)
      returns (r: Outcome)
      requires Valid() && WellFormed(p.repr, amount) && WellFormed(p.repr, JObject(metadata))
      modifies this
      ensures Valid()
      ensures var d := Action(ts, action, vendor, amount, decision, actor, metadata);
              && entries == Extended(p, old(entries), d) && r == AppendOutcome(p, old(entries), d)
              && IsWritten(p, old(entries), d, r, file)
      ensures !r.Appended? ==> file == old(file)
    {
      r := Write(Action(ts, action, vendor, amount, decision, actor, metadata));
    }

    /** The second writer, which shares only the file and the head. */
    method WriteEarnEvent(ts: string, service: string, amountCents: int, tokenId: string) returns (r: Outcome)
      requires Valid()
      modifies this
      ensures Valid()
      ensures var d := Earn(ts, service, amountCents, tokenId);
              && entries == Extended(p, old(entries), d) && r == AppendOutcome(p, old(entries), d)
              && IsWritten(p, old(entries), d, r, file)
      ensures !r.Appended? ==> file == old(file)
    {
      r := Write(Earn(ts, service, amountCents, tokenId));
    }

    method AppendInteraction(ts: string, sponsor: string, op: string, segment: string, status: string,
                             model: Json, latency: Json, mode: Json, details: Members)
      returns (r: Outcome)
      requires Valid() && WellFormed(p.repr, model) && WellFormed(p.repr, latency)
      requires WellFormed(p.repr, mode) && WellFormed(p.repr, JObject(details))
      modifies this
      ensures Valid()
      ensures var d := Interaction(ts, sponsor, op, segment, status, model, latency, mode, details);
              && entries == Extended(p, old(entries), d) && r == AppendOutcome(p, old(entries), d)
              && IsWritten(p, old(entries), d, r, file)
      ensures !r.Appended? ==> file == old(file)
    {
      r := Write(Interaction(ts, sponsor, op, segment, status, model, latency, mode, details));
    }

    method VerifyChain() returns (v: Verdict)
      requires Valid()
      ensures v == Intact(|entries|)
    {
      BuiltFileVerifies(p, entries);
      v := VerifyChainOfFile(p, file);
    }
  }
}
