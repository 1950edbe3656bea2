/** No strict suffix of the text of a JSON object is itself JSON text.

    A scanner that only knows quotes, escapes and bracket depth runs along every
    text the parser accepts. Starting it in the middle of an object it either
    disagrees about which characters lie inside strings, or about the depth. */
module JsonScan {
  import opened Wrappers
  import opened Digits
  import opened Json
  import opened JsonRoundTrip

  /** Outside a string, inside one, or after a backslash inside one, each with the
      number of open brackets; `Done` once the outermost bracket has closed. */
  datatype Lex = Out(depth: nat) | In(depth: nat) | Esc(depth: nat) | Done | Bad

  predicate CanFollowBackslash(c: char) {
    c == '"' || c == '\\' || c == '/' || c == 'b' || c == 'f' || c == 'n' || c == 'r' || c == 't' || c == 'u'
  }

  function Close(d: nat): Lex {
    if d == 0 then Bad else if d == 1 then Done else Out(d - 1)
  }

  function Step(q: Lex, c: char): Lex {
    match q
    case Out(d) =>
      if c == '"' then In(d)
      else if c == '{' || c == '[' then Out(d + 1)
      else if c == '}' || c == ']' then Close(d)
      else if c == '\\' then Bad
      else q
    case In(d) =>
      if c == '"' then Out(d) else if c == '\\' then Esc(d) else q
    case Esc(d) =>
      if CanFollowBackslash(c) then In(d) else Bad
    case Done =>
      if IsJsonSpace(c) then Done else Bad
    case Bad => Bad
  }

  function Scan(q: Lex, s: string): Lex
    decreases |s|
  {
    if s == [] then q else Scan(Step(q, s[0]), s[1..])
  }

  lemma {:induction false} ScanAppend(q: Lex, s: string, t: string)
    ensures Scan(q, s + t) == Scan(Scan(q, s), t)
    decreases |s|
  {
    if s == [] {
      assert s + t == t;
    } else {
      assert (s + t)[1..] == s[1..] + t;
      ScanAppend(Step(q, s[0]), s[1..], t);
    }
  }

  // ---- The scanner follows the parser ----

  /** Characters that leave the scanner where it is, outside strings. */
  predicate Plain(c: char) {
    c != '"' && c != '\\' && c != '{' && c != '}' && c != '[' && c != ']'
  }

  lemma {:induction false} ScanPlain(q: Lex, s: string, n: nat)
    requires n <= |s| && (forall i :: 0 <= i < n ==> Plain(s[i]))
    requires q.Out? || q.In?
    ensures Scan(q, s) == Scan(q, s[n..])
  {
    if n > 0 {
      ScanPlain(q, s[1..], n - 1);
      assert s[1..][n - 1..] == s[n..];
    }
  }

  lemma {:induction false} ScanSpace(d: nat, s: string)
    ensures Scan(Out(d), s) == Scan(Out(d), SkipSpace(s))
  {
    if s != [] && IsJsonSpace(s[0]) { ScanSpace(d, s[1..]); }
  }

  lemma {:induction false} ScanDone(s: string)
    ensures Scan(Done, s) == if SkipSpace(s) == [] then Done else Bad
  {
    if s != [] {
      if IsJsonSpace(s[0]) { ScanDone(s[1..]); } else { ScanBad(s[1..]); }
    }
  }

  lemma {:induction false} ScanBad(s: string)
    ensures Scan(Bad, s) == Bad
  {
    if s != [] { ScanBad(s[1..]); }
  }

  lemma HexPlain(s: string)
    requires HexQuad(s).Some?
    ensures forall i :: 0 <= i < 4 ==> Plain(s[i])
  {
  }

  lemma ScanUnescape(d: nat, s: string)
    requires Unescape(s).Some?
    ensures Scan(Esc(d), s) == Scan(In(d), Unescape(s).value.1)
  {
    if s[0] == 'u' {
      HexPlain(s[1..]);
      ScanPlain(In(d), s[1..], 4);
      assert s[1..][4..] == s[5..];
      var v := HexQuad(s[1..]).value;
      if 0xD800 <= v < 0xE000 {
        assert s[5..][1..] == s[6..] && s[6..][1..] == s[7..];
        HexPlain(s[7..]);
        ScanPlain(In(d), s[7..], 4);
        assert s[7..][4..] == s[11..];
      }
    }
  }

  lemma {:induction false} ScanChars(d: nat, s: string)
    requires ParseChars(s).Some?
    ensures Scan(In(d), s) == Scan(Out(d), ParseChars(s).value.1)
    decreases |s|
  {
    if s[0] == '\\' {
      ScanUnescape(d, s[1..]);
      ScanChars(d, Unescape(s[1..]).value.1);
    } else if s[0] != '"' {
      ScanChars(d, s[1..]);
    }
  }

  lemma ScanWord(d: nat, s: string)
    requires ParseWord(s).Some?
    ensures Scan(Out(d), s) == Scan(Out(d), ParseWord(s).value.1)
  {
    var n := |s| - |ParseWord(s).value.1|;
    assert s[n..] == ParseWord(s).value.1;
    forall i | 0 <= i < n ensures Plain(s[i]) {
      assert "null" <= s || "true" <= s || "false" <= s || NAN <= s || INFINITY <= s || MINUS_INFINITY <= s;
    }
    ScanPlain(Out(d), s, n);
  }

  lemma ScanNumber(fr: FloatRepr, d: nat, s: string)
    requires ParseNumber(fr, s).Some?
    ensures Scan(Out(d), s) == Scan(Out(d), ParseNumber(fr, s).value.1)
  {
    var n := NumberRun(s);
    forall i | 0 <= i < n ensures Plain(s[i]) {
      assert s[..n][i] == s[i];
    }
    ScanPlain(Out(d), s, n);
  }

  /** Inside a bracket, a value leaves the scanner where it was. */
  lemma {:induction false} ScanValue(fr: FloatRepr, d: nat, s: string)
    requires d >= 1 && ParseValue(fr, s).Some?
    ensures Scan(Out(d), s) == Scan(Out(d), ParseValue(fr, s).value.1)
    decreases |s|, 2
  {
    if s[0] == '"' {
      ScanChars(d, s[1..]);
    } else if s[0] == '[' || s[0] == '{' {
      ScanBracket(fr, d, s);
    } else if ParseWord(s).Some? {
      ScanWord(d, s);
    } else {
      ScanNumber(fr, d, s);
    }
  }

  /** An array or an object opens one bracket and closes it again. */
  lemma {:induction false} ScanBracket(fr: FloatRepr, d: nat, s: string)
    requires s != [] && (s[0] == '[' || s[0] == '{') && ParseValue(fr, s).Some?
    ensures Scan(Out(d), s) == Scan(Close(d + 1), ParseValue(fr, s).value.1)
    decreases |s|, 1
  {
    var t := SkipSpace(s[1..]);
    ScanSpace(d + 1, s[1..]);
    if s[0] == '[' {
      ScanArray(fr, d + 1, s, t);
    } else {
      ScanObject(fr, d + 1, s, t);
    }
  }

  lemma {:induction false} ScanArray(fr: FloatRepr, d: nat, s: string, t: string)
    requires d >= 1 && s != [] && s[0] == '[' && t == SkipSpace(s[1..])
    requires ParseValue(fr, s).Some?
    ensures Scan(Out(d), t) == Scan(Close(d), ParseValue(fr, s).value.1)
    decreases |s|, 0
  {
    if t == [] || t[0] != ']' { ScanItems(fr, d, t); }
  }

  lemma {:induction false} ScanObject(fr: FloatRepr, d: nat, s: string, t: string)
    requires d >= 1 && s != [] && s[0] == '{' && t == SkipSpace(s[1..])
    requires ParseValue(fr, s).Some?
    ensures Scan(Out(d), t) == Scan(Close(d), ParseValue(fr, s).value.1)
    decreases |s|, 0
  {
    if t == [] || t[0] != '}' { ScanMembers(fr, d, t); }
  }

  lemma {:induction false} ScanItems(fr: FloatRepr, d: nat, s: string)
    requires d >= 1 && ParseItems(fr, s).Some?
    ensures Scan(Out(d), s) == Scan(Close(d), ParseItems(fr, s).value.1)
    decreases |s|, 3
  {
    ScanValue(fr, d, s);
    var t := ParseValue(fr, s).value.1;
    var u := SkipSpace(t);
    ScanSpace(d, t);
    if u[0] == ',' {
      ScanSpace(d, u[1..]);
      ScanItems(fr, d, SkipSpace(u[1..]));
    }
  }

  /** A separator, or a closing bracket, and the space around it. */
  lemma ScanSeparator(d: nat, t: string)
    requires SkipSpace(t) != []
    ensures var u := SkipSpace(t);
            && (u[0] == ':' || u[0] == ',' ==> Scan(Out(d), t) == Scan(Out(d), SkipSpace(u[1..])))
            && (d >= 1 && (u[0] == '}' || u[0] == ']') ==> Scan(Out(d), t) == Scan(Close(d), u[1..]))
  {
    ScanSpace(d, t);
    ScanSpace(d, SkipSpace(t)[1..]);
  }

  lemma {:induction false} ScanMembers(fr: FloatRepr, d: nat, s: string)
    requires d >= 1 && ParseMembers(fr, s).Some?
    ensures Scan(Out(d), s) == Scan(Close(d), ParseMembers(fr, s).value.1)
    decreases |s|, 0
  {
    ScanChars(d, s[1..]);
    var t := ParseChars(s[1..]).value.1;
    ScanSeparator(d, t);
    var y := SkipSpace(SkipSpace(t)[1..]);
    ScanValue(fr, d, y);
    var w := ParseValue(fr, y).value.1;
    var x := SkipSpace(w);
    ScanSeparator(d, w);
    if x[0] == ',' { ScanMembers(fr, d, SkipSpace(x[1..])); }
  }

  /** A text that is read as an object and starts with its brace scans to `Done`. */
  lemma ObjectScans(fr: FloatRepr, s: string)
    requires s != [] && s[0] == '{' && Loads(fr, s).Some?
    ensures Scan(Out(0), s) == Done
  {
    assert SkipSpace(s) == s;
    ScanBracket(fr, 0, s);
    ScanDone(ParseValue(fr, s).value.1);
  }

  /** A text that is read at all leaves an enclosing depth unchanged. */
  lemma LoadedScans(fr: FloatRepr, d: nat, s: string)
    requires d >= 1 && Loads(fr, s).Some?
    ensures Scan(Out(d), SkipSpace(s)) == Out(d)
  {
    var t := SkipSpace(s);
    ScanValue(fr, d, t);
    ScanSpace(d, ParseValue(fr, t).value.1);
  }

  // ---- Two scanners on the same text ----

  lemma {:induction false} SpaceKeepsIn(e: nat, w: string)
    requires SkipSpace(w) == []
    ensures Scan(In(e), w) == In(e)
  {
    if w != [] { SpaceKeepsIn(e, w[1..]); }
  }

  /** Scanners that disagree on being inside a string never both end outside one:
      a backslash is an error for one of them, and every quote swaps both. */
  lemma {:induction false} OutOfPhase(a: Lex, b: Lex, w: string)
    requires (a.In? && b.Out?) || (a.Out? && b.In?)
    requires Scan(a, w) == Done
    ensures !Scan(b, w).Out? && !Scan(b, w).Done?
    decreases |w|
  {
    var a', b' := Step(a, w[0]), Step(b, w[0]);
    if (a'.In? && b'.Out?) || (a'.Out? && b'.In?) {
      OutOfPhase(a', b', w[1..]);
    } else if a'.Done? {
      ScanDone(w[1..]);
      SpaceKeepsIn(b.depth, w[1..]);
    } else if b'.Done? {
      if SkipSpace(w[1..]) == [] { SpaceKeepsIn(a.depth, w[1..]); }
      ScanDone(w[1..]);
    } else {
      ScanBad(w[1..]);
    }
  }

  /** The same scanner state, `m` brackets deeper. */
  function Deeper(q: Lex, m: nat): Lex {
    match q
    case Out(d) => Out(d + m)
    case In(d) => In(d + m)
    case Esc(d) => Esc(d + m)
    case _ => q
  }

  lemma {:induction false} InPhase(a: Lex, m: nat, w: string)
    requires m >= 1 && (a.Out? ==> a.depth >= 1) && Scan(a, w) == Done
    requires a.Out? || a.In? || a.Esc?
    ensures a.depth == 0 || Scan(Deeper(a, m), w) == Out(m)
    decreases |w|
  {
    if a.depth > 0 {
      var a' := Step(a, w[0]);
      if a'.Done? {
        ScanDone(w[1..]);
        ScanSpace(m, w[1..]);
      } else if a'.Bad? {
        ScanBad(w[1..]);
      } else {
        InPhase(a', m, w[1..]);
      }
    }
  }

  /** Inside the outermost brace the depth stays positive. */
  lemma {:induction false} DepthStaysPositive(q: Lex, s: string)
    requires q.Done? || q.Bad? || q.depth >= 1
    ensures var r := Scan(q, s); r.Done? || r.Bad? || r.depth >= 1
    decreases |s|
  {
    if s != [] { DepthStaysPositive(Step(q, s[0]), s[1..]); }
  }

  /** The heart of the matter: `w` completes an object scanned up to a state `q`
      inside it, so `w` is no JSON text of its own. */
  lemma RestIsNoJson(fr: FloatRepr, q: Lex, w: string)
    requires q.Done? || q.Bad? || q.depth >= 1
    requires Scan(q, w) == Done
    requires w != [] && !IsJsonSpace(w[0])
    ensures Loads(fr, w).None?
  {
    if Loads(fr, w).Some? {
      match q {
        case Out(d) => LoadedScans(fr, d, w);
        case In(d) =>
          LoadedScans(fr, 1, w);
          OutOfPhase(q, Out(1), w);
        case Esc(d) =>
          var e := d + 1;
          LoadedScans(fr, e, w);
          if w[0] == '"' {
            InPhase(In(d), 1, w[1..]);
          } else if w[0] == '\\' {
            ScanBad(w[1..]);
          } else if CanFollowBackslash(w[0]) {
            OutOfPhase(In(d), Out(e), w[1..]);
          } else {
            ScanBad(w[1..]);
          }
        case Done => ScanBad(w[1..]);
        case Bad => ScanBad(w);
      }
    }
  }

  lemma {:induction false} SkipIsSuffix(w: string) returns (n: nat)
    ensures n <= |w| && SkipSpace(w) == w[n..]
  {
    if w != [] && IsJsonSpace(w[0]) {
      n := SkipIsSuffix(w[1..]);
      n := n + 1;
    } else {
      n := 0;
    }
  }

  lemma LoadsSkips(fr: FloatRepr, w: string)
    requires Loads(fr, w).Some?
    ensures Loads(fr, SkipSpace(w)).Some?
  {
    SkipNone(SkipSpace(w));
    MarkStartsNoValue(fr, SkipSpace(w));
  }

  lemma MarkStartsNoValue(fr: FloatRepr, s: string)
    ensures s != [] && s[0] == '\U{FEFF}' ==> ParseValue(fr, s).None?
  {
  }

  lemma InsideAfterBrace(x: string)
    requires x != [] && x[0] == '{'
    ensures var q := Scan(Out(0), x); q.Done? || q.Bad? || q.depth >= 1
  {
    DepthStaysPositive(Out(1), x[1..]);
  }

  lemma SplitIsNoJson(fr: FloatRepr, x: string, v: string)
    requires x != [] && x[0] == '{' && Scan(Out(0), x + v) == Done
    requires v != [] && !IsJsonSpace(v[0])
    ensures Loads(fr, v).None?
  {
    ScanAppend(Out(0), x, v);
    InsideAfterBrace(x);
    RestIsNoJson(fr, Scan(Out(0), x), v);
  }

  lemma LoadedStart(fr: FloatRepr, w: string)
    requires Loads(fr, w).Some?
    ensures SkipSpace(w) != [] && !IsJsonSpace(SkipSpace(w)[0])
  {
  }

  /** No proper suffix of an object's text is JSON. */
  lemma ObjectSuffix(fr: FloatRepr, t: string, i: nat)
    requires t != [] && t[0] == '{' && Loads(fr, t).Some? && 0 < i <= |t|
    ensures Loads(fr, t[i..]).None?
  {
    var w := t[i..];
    if Loads(fr, w).Some? {
      LoadsSkips(fr, w);
      LoadedStart(fr, w);
      var n := SkipIsSuffix(w);
      assert t == t[..i + n] + SkipSpace(w);
      ObjectScans(fr, t);
      SplitIsNoJson(fr, t[..i + n], SkipSpace(w));
    }
  }

  /** No strict suffix of the printed text of an object can be read, whatever
      its first `i` characters were. */
  lemma SuffixIsNoJson(fr: FloatRepr, st: Style, ms: Members, i: nat)
    requires WellFormed(fr, JObject(ms))
    requires 0 < i <= |Emit(st, JObject(ms), "")|
    ensures Loads(fr, Emit(st, JObject(ms), "")[i..]).None?
  {
    DumpsLoads(fr, st, JObject(ms));
    ObjectSuffix(fr, Emit(st, JObject(ms), ""), i);
  }
}
