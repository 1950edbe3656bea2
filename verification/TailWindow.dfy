/** Reading the end of a file of lines through a window of bounded size, for any
    way `parse` of reading a line: all that counts is that a strict suffix of a
    line cannot be read. */
module TailWindow {
  import opened Wrappers
  import opened Sequences
  import opened Utf8
  import opened PyText

  const WINDOW: nat := 4096

  /** What the last line that is not blank gives. */
  function TailHead<H>(parse: string -> H, empty: H, tail: string): H {
    match LastNonBlank(SplitLines(Strip(tail)))
    case None => empty
    case Some(line) => parse(line)
  }

  /** Where the window of at most 4096 bytes at the end of a file begins. */
  function WindowStart(size: nat): (r: nat)
    ensures r <= size
  {
    if size < WINDOW then 0 else size - WINDOW
  }

  /** What a read of at most 4096 bytes from the end of the file gives. */
  function ReadTail<H>(parse: string -> H, empty: H, file: seq<byte>): H {
    if file == [] then empty
    else TailHead(parse, empty, DecodeReplace(file[WindowStart(|file|)..]))
  }

  /** What a read of the whole file gives. */
  function FullScan<H>(parse: string -> H, empty: H, bad: H, file: seq<byte>): H {
    match DecodeStrict(file)
    case None => bad
    case Some(text) =>
      match LastNonBlank(FileLines(text))
      case None => empty
      case Some(line) => parse(line)
  }

  /** The lines, each ended by a newline. */
  function JoinLines(lines: seq<string>): string {
    if lines == [] then ""
    else JoinLines(lines[..|lines| - 1]) + (lines[|lines| - 1] + "\n")
  }

  /** The condition for a line to be readable as the tail of a file: with its
      newline it fits the window, and no character in it counts as a line break. */
  predicate Readable(t: string) {
    |Encode(t)| < WINDOW && NoBreaks(t)
  }

  /** A strict suffix of `t`, behind `j` characters that replace damaged bytes. */
  function Damaged(t: string, j: nat, i: nat): string
    requires i <= |t|
  {
    Replacements(j) + t[i..]
  }

  /** `t` is a line in braces, and every damaged suffix of it is `bad`. */
  ghost predicate SolidLine<H>(parse: string -> H, bad: H, t: string) {
    && |t| >= 2 && t[0] == '{' && t[|t| - 1] == '}'
    && forall j: nat, i: nat :: 0 < i < |t| ==> parse(Damaged(t, j, i)) == bad
  }

  /** Empty, or ending with a newline. */
  predicate EndsLine(x: string) {
    x == [] || x[|x| - 1] == '\n'
  }

  /** The tail holds the whole last line `t`. */
  lemma WholeLineTail(x: string, t: string)
    requires |t| >= 2 && t[0] == '{' && t[|t| - 1] == '}' && EndsLine(x)
    ensures LastNonBlank(SplitLines(Strip(x + (t + "\n")))) == Some(AfterLastBreak(t))
  {
    Associate(x, t, "\n");
    var m := StripKeeps(x, t);
    LastLine(x[m..] + t);
    LastOfTail(x[m..], t);
  }

  lemma LastOfTail(y: string, t: string)
    requires EndsLine(y)
    ensures AfterLastBreak(y + t) == AfterLastBreak(t)
  {
    if y == [] {
      NothingAdded(t);
    } else {
      DropBreak(y + t, |y| - 1);
      Parts(y, t);
    }
  }

  /** The tail starts inside the last line. */
  lemma CutLineTail(y: string) returns (m: nat)
    requires y != [] && y[|y| - 1] == '}'
    ensures m < |y| && LastNonBlank(SplitLines(Strip(y + "\n"))) == Some(y[m..])
  {
    var x := y[..|y| - 1];
    assert x + "}" + "\n" == y + "\n";
    var n := StripKeeps(x, "}");
    var z := x[n..] + "}";
    assert z == y[n..];
    LastLine(z);
    m := n + LastBreak(z);
    assert z[LastBreak(z)..] == y[m..];
  }

  lemma BrokenLine<H>(parse: string -> H, empty: H, bad: H, t: string)
    requires SolidLine(parse, bad, t) && !NoBreaks(t)
    ensures parse(AfterLastBreak(t)) == bad
  {
    assert !IsBreak(t[|t| - 1]);
    assert Damaged(t, 0, LastBreak(t)) == t[LastBreak(t)..];
  }

  lemma DamagedTail<H>(parse: string -> H, empty: H, bad: H, t: string, j: nat, i: nat)
    requires SolidLine(parse, bad, t) && 0 < i < |t|
    ensures TailHead(parse, empty, Damaged(t, j, i) + "\n") == bad
  {
    var y := Damaged(t, j, i);
    assert y[|y| - 1] == t[|t| - 1];
    var m := CutLineTail(y);
    if m <= j {
      assert y[m..] == Damaged(t, j - m, i);
    } else {
      assert y[m..] == Damaged(t, 0, i + (m - j));
    }
  }

  /** A last line too long for the window is cut, and what is left is unreadable. */
  lemma LongLine<H>(parse: string -> H, empty: H, bad: H, t: string, k: nat)
    requires SolidLine(parse, bad, t) && 0 < k < |Encode(t)|
    ensures k <= |Encode(t + "\n")| && TailHead(parse, empty, CutBytes(t + "\n", k)) == bad
  {
    CutBefore(t, "\n", k);
    var j, i := CutInside(t, k);
    DamagedTail(parse, empty, bad, t, j, i);
  }

  /** Cutting lines off the front leaves nothing, or text that still ends a line. */
  lemma CutEndsLine(before: string, k: nat)
    requires k <= |Encode(before)| && EndsLine(before)
    ensures EndsLine(CutBytes(before, k))
  {
    if before != [] {
      var x := before[..|before| - 1];
      assert before == x + "\n";
      EncodeAppend(x, "\n");
      if k <= |Encode(x)| {
        CutBefore(x, "\n", k);
      } else {
        CutAfter(x, "\n", k);
      }
    }
  }

  /** The window starts at or before the last line. */
  lemma ShortLine<H>(parse: string -> H, empty: H, bad: H, t: string, before: string, cut: nat)
    requires SolidLine(parse, bad, t) && EndsLine(before) && cut <= |Encode(before)|
    ensures cut <= |Encode(before + (t + "\n"))|
    ensures TailHead(parse, empty, CutBytes(before + (t + "\n"), cut)) == if NoBreaks(t) then parse(t) else bad
  {
    CutBefore(before, t + "\n", cut);
    CutEndsLine(before, cut);
    WholeLineTail(CutBytes(before, cut), t);
    if NoBreaks(t) {
      assert AfterLastBreak(t) == t;
    } else {
      BrokenLine(parse, empty, bad, t);
    }
  }

  lemma ReadTailOfText<H>(parse: string -> H, empty: H, text: string)
    requires text != []
    ensures ReadTail(parse, empty, Encode(text)) == TailHead(parse, empty, CutBytes(text, WindowStart(|Encode(text)|)))
  {
    TailDecodes(text, WindowStart(|Encode(text)|));
  }

  /** The head in a window that starts `cut` bytes into the lines `before` and a
      last line `t`. */
  lemma WindowFrom<H>(parse: string -> H, empty: H, bad: H, t: string, before: string, cut: nat)
    requires SolidLine(parse, bad, t) && EndsLine(before)
    requires cut < |Encode(before)| + |Encode(t)|
    ensures cut <= |Encode(before + (t + "\n"))|
    ensures TailHead(parse, empty, CutBytes(before + (t + "\n"), cut)) ==
            if cut <= |Encode(before)| && NoBreaks(t) then parse(t) else bad
  {
    if cut <= |Encode(before)| {
      ShortLine(parse, empty, bad, t, before, cut);
    } else {
      EncodeAppend(before, t + "\n");
      LongLine(parse, empty, bad, t, cut - |Encode(before)|);
      CutAfter(before, t + "\n", cut);
    }
  }

  lemma LineSize(before: string, t: string)
    ensures |Encode(before + (t + "\n"))| == |Encode(before)| + |Encode(t)| + 1
  {
    EncodeAppend(before, t + "\n");
    EncodeAppend(t, "\n");
    assert Encode("\n") == [10];
  }

  /** The head found after the lines `before` and a last line `t`. */
  lemma WindowOnLine<H>(parse: string -> H, empty: H, bad: H, t: string, before: string)
    requires SolidLine(parse, bad, t) && EndsLine(before)
    ensures ReadTail(parse, empty, Encode(before + (t + "\n"))) == if Readable(t) then parse(t) else bad
  {
    LineSize(before, t);
    ReadTailOfText(parse, empty, before + (t + "\n"));
    WindowFrom(parse, empty, bad, t, before, WindowStart(|Encode(before + (t + "\n"))|));
  }

  lemma JoinedEndsLine(lines: seq<string>)
    ensures EndsLine(JoinLines(lines))
  {
  }

  /** On a file of lines, the read of at most 4096 bytes gives what the last line
      gives if that line is readable, and otherwise fails. */
  lemma WindowOnFile<H>(parse: string -> H, empty: H, bad: H, lines: seq<string>)
    requires lines != [] && SolidLine(parse, bad, lines[|lines| - 1])
    ensures var t := lines[|lines| - 1];
            ReadTail(parse, empty, Encode(JoinLines(lines))) == if Readable(t) then parse(t) else bad
  {
    JoinedEndsLine(lines[..|lines| - 1]);
    WindowOnLine(parse, empty, bad, lines[|lines| - 1], JoinLines(lines[..|lines| - 1]));
  }

  // ---- Reading all the lines ----

  predicate OneLine(t: string) {
    forall i :: 0 <= i < |t| ==> ' ' <= t[i]
  }

  lemma {:induction false} LineEndStops(t: string, rest: string)
    requires OneLine(t)
    ensures LineEnd(t + ("\n" + rest)) == |t|
  {
    var s := t + ("\n" + rest);
    if t != [] {
      assert s[1..] == t[1..] + ("\n" + rest);
      LineEndStops(t[1..], rest);
    }
  }

  lemma FileLinesStep(t: string, rest: string)
    requires OneLine(t)
    ensures FileLines(t + ("\n" + rest)) == [t] + FileLines(rest)
  {
    LineEndStops(t, rest);
    var s := t + ("\n" + rest);
    assert s[..|t|] == t && s[|t| + 1..] == rest;
  }

  lemma JoinThen(lines: seq<string>, rest: string)
    requires lines != []
    ensures JoinLines(lines) + rest ==
            JoinLines(lines[..|lines| - 1]) + (lines[|lines| - 1] + ("\n" + rest))
  {
    var init, t := lines[..|lines| - 1], lines[|lines| - 1];
    Associate(JoinLines(init), t + "\n", rest);
    Associate(t, "\n", rest);
  }

  lemma FileLinesGlue(x: string, init: seq<string>, t: string, rest: string)
    requires OneLine(t)
    requires FileLines(x + (t + ("\n" + rest))) == init + FileLines(t + ("\n" + rest))
    ensures FileLines(x + (t + ("\n" + rest))) == (init + [t]) + FileLines(rest)
  {
    FileLinesStep(t, rest);
  }

  lemma {:induction false} FileLinesThen(lines: seq<string>, rest: string)
    requires forall i :: 0 <= i < |lines| ==> OneLine(lines[i])
    ensures FileLines(JoinLines(lines) + rest) == lines + FileLines(rest)
    decreases |lines|
  {
    if lines == [] {
      assert JoinLines(lines) + rest == rest;
    } else {
      var init, t := lines[..|lines| - 1], lines[|lines| - 1];
      FileLinesThen(init, t + ("\n" + rest));
      FileLinesGlue(JoinLines(init), init, t, rest);
      JoinThen(lines, rest);
      assert init + [t] == lines;
    }
  }

  /** Iterating over a file of lines yields them again. */
  predicate AllOneLine(lines: seq<string>) {
    forall i :: 0 <= i < |lines| ==> OneLine(lines[i])
  }

  lemma FileLinesOfJoined(lines: seq<string>)
    requires AllOneLine(lines)
    ensures DecodeStrict(Encode(JoinLines(lines))) == Some(JoinLines(lines))
    ensures FileLines(JoinLines(lines)) == lines
  {
    DecodeEncode(JoinLines(lines));
    FileLinesThen(lines, "");
    assert JoinLines(lines) + "" == JoinLines(lines) && lines + [] == lines;
  }

  lemma LastOfNonBlank(lines: seq<string>, t: string)
    requires lines != [] && lines[|lines| - 1] == t && t != [] && !IsSpace(t[0])
    ensures LastNonBlank(lines) == Some(t)
  {
  }

  lemma SolidStart<H>(parse: string -> H, bad: H, t: string)
    requires SolidLine(parse, bad, t)
    ensures t != [] && !IsSpace(t[0])
  {
  }

  /** A full scan gives what the last line gives. */
  lemma FullScanOfFile<H>(parse: string -> H, empty: H, bad: H, lines: seq<string>)
    requires AllOneLine(lines)
    requires lines != [] && SolidLine(parse, bad, lines[|lines| - 1])
    ensures FullScan(parse, empty, bad, Encode(JoinLines(lines))) == parse(lines[|lines| - 1])
  {
    var text, t := JoinLines(lines), lines[|lines| - 1];
    FileLinesOfJoined(lines);
    SolidStart(parse, bad, t);
    LastOfNonBlank(lines, t);
    assert DecodeStrict(Encode(text)).value == text;
  }
}
