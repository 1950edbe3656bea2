/** The tail read in full: what it does with every file, whoever wrote it. */
module HashChainHead {
  import opened Wrappers
  import opened Utf8
  import opened PyText
  import opened TailWindow
  import opened Json
  import opened HashChain
  import opened HashChainFiles

  /** Line `i` is the last one that is not blank. */
  predicate IsLastSolid(lines: seq<string>, i: nat) {
    i < |lines| && !Blank(lines[i]) && forall j :: i < j < |lines| ==> Blank(lines[j])
  }

  lemma {:induction false} LastSolidExactly(lines: seq<string>)
    ensures LastNonBlank(lines).None? <==> forall j :: 0 <= j < |lines| ==> Blank(lines[j])
    ensures forall i: nat :: IsLastSolid(lines, i) ==> LastNonBlank(lines) == Some(lines[i])
  {
    if lines != [] {
      var init := lines[..|lines| - 1];
      LastSolidExactly(init);
      forall i: nat | IsLastSolid(lines, i) ensures LastNonBlank(lines) == Some(lines[i]) {
        if i < |init| { assert IsLastSolid(init, i) && init[i] == lines[i]; }
      }
    }
  }

  /** The place that an entry stores, as `int` reads it. */
  predicate CountsAs(p: Platform, v: Json, n: int) {
    || v == JInt(n) || (v == JBool(false) && n == 0) || (v == JBool(true) && n == 1)
    || (v.JFloat? && p.truncate(v.repr) == Some(n)) || (v.JString? && p.textInt(v.s) == Some(n))
  }

  /** The line is an object with a hash, and a place `n` before the next one. */
  predicate LeadsTo(p: Platform, line: string, h: Json, next: int) {
    var v := Loads(p.repr, line);
    && v.Some? && v.value.JObject?
    && Get(v.value.members, "entry_hash") == Some(h)
    && Get(v.value.members, "seq").Some? && CountsAs(p, Get(v.value.members, "seq").value, next - 1)
  }

  /** A line yields a head exactly if it is an object with a hash and a place; anything
      else raises, and is never taken for the start of a chain. */
  lemma HeadExactly(p: Platform, line: string, h: Json, next: int)
    ensures HeadOf(p, line) == Head(h, next) <==> LeadsTo(p, line, h, next)
    ensures HeadOf(p, line) == Unreadable <==> forall g: Json, n: int :: !LeadsTo(p, line, g, n)
  {
    if HeadOf(p, line).Head? {
      assert LeadsTo(p, line, HeadOf(p, line).hash, HeadOf(p, line).next);
    }
  }

  /** The lines of the last 4096 bytes of the file, or of all of it. */
  function LastLines(file: seq<byte>): seq<string> {
    SplitLines(Strip(DecodeReplace(if |file| <= 4096 then file else file[|file| - 4096..])))
  }

  /** On every file: a file without a line in its last 4096 bytes starts a chain, after 64
      zeros; otherwise the last such line alone decides. */
  lemma ReadHeadExactly(p: Platform, file: seq<byte>)
    ensures file == [] || (forall j :: 0 <= j < |LastLines(file)| ==> Blank(LastLines(file)[j])) ==>
              ReadHead(p, file) == Head(JString(seq(64, _ => '0')), 0)
    ensures forall i: nat :: file != [] && IsLastSolid(LastLines(file), i) ==>
              ReadHead(p, file) == HeadOf(p, LastLines(file)[i])
  {
    assert GENESIS == seq(64, _ => '0');
    assert file[0..] == file;
    LastSolidExactly(LastLines(file));
  }

  const LINE_BREAKS := ['\n', '\U{000B}', '\U{000C}', '\r', '\U{001C}', '\U{001D}', '\U{001E}', 
                        '\U{0085}', '\U{2028}', '\U{2029}']

  /** A line is readable as the tail of a file exactly if with its newline it fits into 4096
      bytes and it has no line break, of those that Python knows. */
  lemma ReadableExactly(t: string)
    ensures Readable(t) <==> |Encode(t)| <= 4095 && forall c :: c in t ==> c !in LINE_BREAKS
  {
    forall c | c in t
      ensures IsBreak(c) <==> c in LINE_BREAKS
    {
      BreakExactly(c);
    }
    if Readable(t) {
      forall c | c in t ensures !IsBreak(c) {
        var i :| 0 <= i < |t| && t[i] == c;
      }
    }
  }

  lemma BreakExactly(c: char)
    ensures IsBreak(c) <==> c in LINE_BREAKS
  {
    CodeIn(c);
  }

  lemma CodeIn(c: char)
    ensures 10 <= c as int <= 13 <==> c in ['\n', '\U{000B}', '\U{000C}', '\r']
    ensures 28 <= c as int <= 30 <==> c in ['\U{001C}', '\U{001D}', '\U{001E}']
  {
    assert '\n' as int == 10 && '\r' as int == 13;
  }
}
