/** `str.strip`, `str.splitlines` and text-mode line iteration. */
module PyText {
  import opened Wrappers

  /** What `str.strip` removes. */
  predicate IsSpace(c: char) {
    || '\t' <= c <= '\r' || '\U{001C}' <= c <= ' ' || c == '\U{0085}' || c == '\U{00A0}'
    || c == '\U{1680}' || '\U{2000}' <= c <= '\U{200A}' || c == '\U{2028}' || c == '\U{2029}'
    || c == '\U{202F}' || c == '\U{205F}' || c == '\U{3000}'
  }

  /** Where `str.splitlines` breaks. */
  predicate IsBreak(c: char) {
    || '\n' <= c <= '\r' || '\U{001C}' <= c <= '\U{001E}' || c == '\U{0085}'
    || c == '\U{2028}' || c == '\U{2029}'
  }

  /** `sub in s`. */
  predicate Contains(s: string, sub: string) {
    exists i :: 0 <= i <= |s| && sub <= s[i..]
  }

  /** The month of an ISO date, `date[:7]`; a shorter date is left as it is. */
  function MonthOf(date: string): string {
    if |date| >= 7 then date[..7] else date
  }

  predicate Blank(s: string) {
    forall i :: 0 <= i < |s| ==> IsSpace(s[i])
  }

  function StripLeft(s: string): (r: string)
    ensures |r| <= |s| && (r != [] ==> !IsSpace(r[0]))
  {
    if s != [] && IsSpace(s[0]) then StripLeft(s[1..]) else s
  }

  function StripRight(s: string): (r: string)
    ensures |r| <= |s| && r == s[..|r|] && (r != [] ==> !IsSpace(r[|r| - 1]))
  {
    if s != [] && IsSpace(s[|s| - 1]) then StripRight(s[..|s| - 1]) else s
  }

  /** `s.strip()`. */
  function Strip(s: string): string {
    StripRight(StripLeft(s))
  }

  /** The index of the first line break, or the length. */
  function FirstBreak(s: string): (n: nat)
    ensures n <= |s| && (n < |s| ==> IsBreak(s[n]))
    ensures forall i :: 0 <= i < n ==> !IsBreak(s[i])
  {
    if s == [] || IsBreak(s[0]) then 0 else 1 + FirstBreak(s[1..])
  }

  /** `s.splitlines()`; a carriage return and line feed count as one break. */
  function SplitLines(s: string): seq<string>
    decreases |s|
  {
    if s == [] then []
    else
      var n := FirstBreak(s);
      if n == |s| then [s]
      else if s[n] == '\r' && n + 1 < |s| && s[n + 1] == '\n' then [s[..n]] + SplitLines(s[n + 2..])
      else [s[..n]] + SplitLines(s[n + 1..])
  }

  /** The last line that is not blank. */
  function LastNonBlank(lines: seq<string>): Option<string> {
    if lines == [] then None
    else if !Blank(lines[|lines| - 1]) then Some(lines[|lines| - 1])
    else LastNonBlank(lines[..|lines| - 1])
  }

  predicate NoBreaks(s: string) {
    forall i :: 0 <= i < |s| ==> !IsBreak(s[i])
  }

  /** How many characters stand up to and including the last line break. */
  function LastBreak(s: string): (n: nat)
    ensures n <= |s| && (n > 0 ==> IsBreak(s[n - 1]))
    ensures forall i :: n <= i < |s| ==> !IsBreak(s[i])
  {
    if s == [] then 0
    else if IsBreak(s[|s| - 1]) then |s|
    else LastBreak(s[..|s| - 1])
  }

  /** What stands after the last line break. */
  function AfterLastBreak(s: string): (r: string)
    ensures |r| <= |s| && NoBreaks(r)
  {
    s[LastBreak(s)..]
  }

  lemma DropBreak(s: string, n: nat)
    requires n < |s| && IsBreak(s[n])
    ensures AfterLastBreak(s[n + 1..]) == AfterLastBreak(s)
  {
    var t := s[n + 1..];
    var m, k := LastBreak(t), LastBreak(s);
    assert forall j :: n < j < |s| ==> s[j] == t[j - n - 1];
    assert m > 0 ==> IsBreak(s[n + m]);
    assert t[m..] == s[n + 1 + m..];
  }

  /** The characters dropped with the first line of `s`. */
  function FirstLine(s: string): (m: nat)
    requires !NoBreaks(s)
    ensures 1 <= m <= |s|
  {
    var n := FirstBreak(s);
    if n + 1 < |s| && s[n] == '\r' && s[n + 1] == '\n' then n + 2 else n + 1
  }

  lemma SplitLinesStep(s: string)
    requires !NoBreaks(s)
    ensures SplitLines(s) == [s[..FirstBreak(s)]] + SplitLines(s[FirstLine(s)..])
  {
  }

  lemma AfterFirstLine(s: string)
    requires !NoBreaks(s)
    ensures AfterLastBreak(s[FirstLine(s)..]) == AfterLastBreak(s)
  {
    DropBreak(s, FirstLine(s) - 1);
  }

  lemma {:induction false} SplitLast(s: string)
    requires s != [] && !IsSpace(s[|s| - 1])
    ensures var ls := SplitLines(s); ls != [] && ls[|ls| - 1] == AfterLastBreak(s)
    decreases |s|
  {
    if NoBreaks(s) {
      assert LastBreak(s) == 0;
    } else {
      var m := FirstLine(s);
      assert !IsBreak(s[|s| - 1]);
      SplitLinesStep(s);
      AfterFirstLine(s);
      SplitLast(s[m..]);
    }
  }

  /** Walking the lines backwards to the first one that is not blank finds, in a
      text that does not end in white space, what follows the last break. */
  lemma LastLine(s: string)
    requires s != [] && !IsSpace(s[|s| - 1])
    ensures LastNonBlank(SplitLines(s)) == Some(AfterLastBreak(s))
  {
    SplitLast(s);
    LastIsSolid(s);
  }

  lemma LastIsSolid(s: string)
    requires s != [] && !IsSpace(s[|s| - 1])
    ensures !Blank(AfterLastBreak(s))
  {
    var r := AfterLastBreak(s);
    assert !IsBreak(s[|s| - 1]);
    assert r != [] && r[|r| - 1] == s[|s| - 1];
  }

  /** The lines a file opened in text mode yields, without their ends:
      `\n`, `\r` and `\r\n` end a line. */
  function FileLines(s: string): seq<string>
    decreases |s|
  {
    if s == [] then []
    else
      var n := LineEnd(s);
      if n == |s| then [s]
      else if s[n] == '\r' && n + 1 < |s| && s[n + 1] == '\n' then [s[..n]] + FileLines(s[n + 2..])
      else [s[..n]] + FileLines(s[n + 1..])
  }

  function LineEnd(s: string): (n: nat)
    ensures n <= |s| && (n < |s| ==> s[n] == '\n' || s[n] == '\r')
    ensures forall i :: 0 <= i < n ==> s[i] != '\n' && s[i] != '\r'
  {
    if s == [] || s[0] == '\n' || s[0] == '\r' then 0 else 1 + LineEnd(s[1..])
  }

  /** Stripping `x + t + "\n"`, where `t` begins and ends without white space,
      keeps `t` and a suffix of `x`. */
  lemma {:induction false} StripKeeps(x: string, t: string) returns (m: nat)
    requires t != [] && !IsSpace(t[0]) && !IsSpace(t[|t| - 1])
    ensures m <= |x| && Strip(x + t + "\n") == x[m..] + t
  {
    m := StripLeftKeeps(x, t + "\n");
    assert x + t + "\n" == x + (t + "\n");
    assert x[m..] + (t + "\n") == (x[m..] + t) + "\n";
    StripNewline(x[m..] + t);
  }

  lemma StripNewline(y: string)
    requires y != [] && !IsSpace(y[|y| - 1])
    ensures StripRight(y + "\n") == y
  {
    assert (y + "\n")[..|y|] == y;
  }

  lemma {:induction false} StripLeftKeeps(x: string, t: string) returns (m: nat)
    requires t != [] && !IsSpace(t[0])
    ensures m <= |x| && StripLeft(x + t) == x[m..] + t
  {
    if x == [] {
      m := 0;
      assert x + t == t;
    } else if IsSpace(x[0]) {
      assert (x + t)[1..] == x[1..] + t;
      m := StripLeftKeeps(x[1..], t);
      m := m + 1;
    } else {
      m := 0;
    }
  }

  /** The code points of white space. */
  lemma SpaceExactly(c: char)
    ensures var v := c as int;
            IsSpace(c) <==>
            || 9 <= v <= 13 || 28 <= v <= 32 || v == 133 || v == 160 || v == 5760 || 8192 <= v <= 8202
            || v == 8232 || v == 8233 || v == 8239 || v == 8287 || v == 12288
  {
    assert '\t' as int == 9 && '\r' as int == 13 && ' ' as int == 32;
  }
}
