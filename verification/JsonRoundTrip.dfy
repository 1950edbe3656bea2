/** Reading undoes printing, in either style and whatever follows. */
module JsonRoundTrip {
  import opened Wrappers
  import opened Digits
  import opened Json

  /** What may follow a printed number. */
  predicate EndsNumber(k: string) {
    k == [] || !IsNumberChar(k[0])
  }

  lemma HexDigitValue(n: nat)
    requires n < 16
    ensures HexValue(HexDigit(n)) == Some(n)
  {
  }

  lemma UnescapeControl(c: char, t: string)
    requires c < ' '
    ensures Unescape("u00" + [HexDigit(c as int / 16), HexDigit(c as int % 16)] + t) == Some((c, t))
  {
    var h, l := c as int / 16, c as int % 16;
    var s := "u00" + [HexDigit(h), HexDigit(l)] + t;
    HexDigitValue(h);
    HexDigitValue(l);
    assert s[1] == '0' && s[2] == '0' && s[3] == HexDigit(h) && s[4] == HexDigit(l);
    assert HexQuad(s[1..]) == Some(h * 16 + l);
    assert s[5..] == t;
  }

  lemma ParseEscaped(c: char, t: string)
    ensures ParseChars(EscapeChar(c) + t) ==
            if ParseChars(t).None? then None
            else Some(([c] + ParseChars(t).value.0, ParseChars(t).value.1))
  {
    var s := EscapeChar(c) + t;
    if |EscapeChar(c)| == 1 {
      assert s[1..] == t;
    } else {
      assert s[0] == '\\' && s[1..] == EscapeChar(c)[1..] + t;
      if |EscapeChar(c)| == 2 {
        assert s[1..][1..] == t;
        assert Unescape(s[1..]) == Some((c, t));
      } else {
        assert EscapeChar(c)[1..] == "u00" + [HexDigit(c as int / 16), HexDigit(c as int % 16)];
        UnescapeControl(c, t);
      }
    }
  }

  lemma {:induction false} CharsRoundTrip(s: string, k: string)
    ensures ParseChars(EmitChars(s, k)) == Some((s, k))
  {
    if s == [] {
      assert (['"'] + k)[1..] == k;
    } else {
      CharsRoundTrip(s[1..], k);
      ParseEscaped(s[0], EmitChars(s[1..], k));
      assert [s[0]] + s[1..] == s;
    }
  }

  lemma StringRoundTrip(s: string, k: string)
    ensures var t := EmitString(s, k);
            t != [] && t[0] == '"' && ParseChars(t[1..]) == Some((s, k))
  {
    assert EmitString(s, k)[1..] == EmitChars(s, k);
    CharsRoundTrip(s, k);
  }

  lemma {:induction false} NumberRunStops(t: string, k: string)
    requires AllNumberChars(t) && EndsNumber(k)
    ensures NumberRun(t + k) == |t|
  {
    if t == [] {
      assert t + k == k;
    } else {
      assert (t + k)[1..] == t[1..] + k;
      NumberRunStops(t[1..], k);
    }
  }

  lemma TokenSplits(t: string, k: string)
    requires AllNumberChars(t) && EndsNumber(k)
    ensures NumberRun(t + k) == |t| && (t + k)[..|t|] == t && (t + k)[|t|..] == k
  {
    NumberRunStops(t, k);
  }

  lemma NoWord(t: string)
    requires t != [] && (IsDigit(t[0]) || (t[0] == '-' && (|t| == 1 || t[1] != 'I')))
    ensures ParseWord(t) == None
  {
    assert "null"[0] == 'n' && "true"[0] == 't' && "false"[0] == 'f';
    assert NAN[0] == 'N' && INFINITY[0] == 'I' && MINUS_INFINITY[0] == '-' && MINUS_INFINITY[1] == 'I';
  }

  lemma IntStart(n: int)
    ensures var t := IntText(n);
            AllNumberChars(t) && (IsDigit(t[0]) || (t[0] == '-' && |t| > 1 && IsDigit(t[1])))
  {
    IntTextToken(n);
  }

  lemma NumberOfInt(fr: FloatRepr, t: string, k: string)
    requires AllNumberChars(t) && IsIntToken(t) && EndsNumber(k)
    ensures ParseNumber(fr, t + k) == Some((JInt(IntTokenValue(t)), k))
  {
    TokenSplits(t, k);
  }

  lemma IntRoundTrip(fr: FloatRepr, n: int, k: string)
    requires EndsNumber(k)
    ensures ParseValue(fr, IntText(n) + k) == Some((JInt(n), k))
  {
    IntTextToken(n);
    IntStart(n);
    NumberOfInt(fr, IntText(n), k);
    ValueIsNumber(fr, IntText(n), k);
  }

  lemma FloatTokenRoundTrip(fr: FloatRepr, t: string, k: string)
    requires IsFloatToken(t) && fr(t) == t && EndsNumber(k)
    ensures ParseValue(fr, t + k) == Some((JFloat(t), k))
  {
    FloatTokenChars(t);
    FloatTokenStart(t);
    FloatIsNoInt(t);
    NumberOfToken(fr, t, k);
    ValueIsNumber(fr, t, k);
  }

  lemma ValueIsNumber(fr: FloatRepr, t: string, k: string)
    requires t != [] && (IsDigit(t[0]) || (t[0] == '-' && |t| > 1 && IsDigit(t[1])))
    ensures ParseValue(fr, t + k) == ParseNumber(fr, t + k)
  {
    NoWord(t + k);
  }

  lemma NumberOfToken(fr: FloatRepr, t: string, k: string)
    requires t != [] && AllNumberChars(t) && IsFloatToken(t) && !IsIntToken(t) && EndsNumber(k)
    ensures ParseNumber(fr, t + k) == Some((JFloat(fr(t)), k))
  {
    TokenSplits(t, k);
  }

  lemma SpecialRoundTrip(fr: FloatRepr, t: string, k: string)
    requires t == NAN || t == INFINITY || t == MINUS_INFINITY
    ensures ParseValue(fr, t + k) == Some((JFloat(t), k))
  {
    assert t <= t + k && (t + k)[|t|..] == k;
    assert (t + k)[0] == t[0] && (t + k)[1] == t[1];
    assert "null"[0] == 'n' && "true"[0] == 't' && "false"[0] == 'f';
    assert NAN[0] == 'N' && INFINITY[0] == 'I' && MINUS_INFINITY[0] == '-';
    assert ParseWord(t + k) == Some((JFloat(t), k));
  }

  lemma FloatRoundTrip(fr: FloatRepr, t: string, k: string)
    requires IsReprText(t) && (IsFloatToken(t) ==> fr(t) == t)
    requires EndsNumber(k)
    ensures ParseValue(fr, t + k) == Some((JFloat(t), k))
  {
    if t == NAN || t == INFINITY || t == MINUS_INFINITY {
      SpecialRoundTrip(fr, t, k);
    } else {
      FloatTokenRoundTrip(fr, t, k);
    }
  }

  lemma FloatTokenStart(t: string)
    requires IsFloatToken(t)
    ensures IsDigit(t[0]) || (t[0] == '-' && |t| > 1 && IsDigit(t[1]))
  {
    var u := if |t| > 0 && t[0] == '-' then t[1..] else t;
    assert DigitRun(u) > 0;
    assert u[..DigitRun(u)][0] == u[0];
  }

  lemma FloatIsNoInt(t: string)
    requires IsFloatToken(t)
    ensures !IsIntToken(t)
  {
    var u := if |t| > 0 && t[0] == '-' then t[1..] else t;
    assert DigitRun(u) < |u| && !IsDigit(u[DigitRun(u)]);
  }

  /** `t` can start a value. */
  predicate StartsValue(t: string) {
    t != [] && !IsJsonSpace(t[0]) && t[0] != ']' && t[0] != '}'
  }

  lemma NumberStart(t: string, k: string)
    requires t != [] && (IsDigit(t[0]) || t[0] == '-')
    ensures StartsValue(t + k)
  {
  }

  lemma WordStart(k: string)
    ensures StartsValue("null" + k) && StartsValue("true" + k) && StartsValue("false" + k)
    ensures StartsValue(NAN + k) && StartsValue(INFINITY + k) && StartsValue(MINUS_INFINITY + k)
  {
    assert ("null" + k)[0] == 'n' && ("true" + k)[0] == 't' && ("false" + k)[0] == 'f';
    assert (NAN + k)[0] == 'N' && (INFINITY + k)[0] == 'I' && (MINUS_INFINITY + k)[0] == '-';
  }

  lemma EmitStart(st: Style, fr: FloatRepr, v: Json, k: string)
    requires WellFormed(fr, v)
    ensures StartsValue(Emit(st, v, k))
  {
    match v
    case JInt(n) =>
      IntStart(n);
      NumberStart(IntText(n), k);
    case JFloat(t) =>
      WordStart(k);
      if IsFloatToken(t) {
        FloatTokenStart(t);
        NumberStart(t, k);
      }
    case JNull => WordStart(k);
    case JBool(_) => WordStart(k);
    case _ =>
  }

  lemma SkipNone(s: string)
    requires s == [] || !IsJsonSpace(s[0])
    ensures SkipSpace(s) == s
  {
  }

  lemma SeparatorsSkip(st: Style, k: string)
    requires k != [] && !IsJsonSpace(k[0])
    ensures KeySep(st, k)[0] == ':' && SkipSpace(KeySep(st, k)) == KeySep(st, k)
    ensures SkipSpace(KeySep(st, k)[1..]) == k
    ensures ItemSep(st, k)[0] == ',' && SkipSpace(ItemSep(st, k)) == ItemSep(st, k)
    ensures SkipSpace(ItemSep(st, k)[1..]) == k
  {
    assert ([':'] + k)[1..] == k && ([','] + k)[1..] == k;
    assert ([':', ' '] + k)[1..] == [' '] + k && ([',', ' '] + k)[1..] == [' '] + k;
    assert ([' '] + k)[1..] == k;
  }

  lemma {:induction false} DedupUnique(ms: Members)
    requires UniqueKeys(ms)
    ensures Dedup(ms) == ms
  {
    if ms.MCons? { DedupUnique(ms.tail); }
  }

  /** Whatever is printed is read back exactly, in either style. */
  lemma {:induction false} ValueRoundTrip(fr: FloatRepr, st: Style, v: Json, k: string)
    requires WellFormed(fr, v) && EndsNumber(k)
    ensures ParseValue(fr, Emit(st, v, k)) == Some((v, k))
    decreases v
  {
    match v
    case JNull => assert ("null" + k)[4..] == k;
    case JBool(b) => assert ("true" + k)[4..] == k && ("false" + k)[5..] == k;
    case JInt(n) => IntRoundTrip(fr, n, k);
    case JFloat(t) => FloatRoundTrip(fr, t, k);
    case JString(cs) => StringRoundTrip(cs, k);
    case JArray(items) =>
      if items.ICons? {
        EmitStart(st, fr, items.head,
                  if items.tail.INil? then [']'] + k else ItemSep(st, EmitItems(st, items.tail, k)));
        ItemsRoundTrip(fr, st, items, k);
      }
      ArrayStep(fr, st, items, k);
    case JObject(ms) =>
      if ms.MCons? { MembersRoundTrip(fr, st, ms, k); }
      ObjectStep(fr, st, ms, k);
  }

  lemma ArrayStep(fr: FloatRepr, st: Style, items: Items, k: string)
    requires items.ICons? ==>
      var t := EmitItems(st, items, k);
      ParseItems(fr, t) == Some((items, k)) && t != [] && !IsJsonSpace(t[0]) && t[0] != ']'
    ensures ParseValue(fr, Emit(st, JArray(items), k)) == Some((JArray(items), k))
  {
    var s := Emit(st, JArray(items), k);
    if items.INil? {
      assert s[1..] == [']'] + k && ([']'] + k)[1..] == k;
    } else {
      assert s[1..] == EmitItems(st, items, k);
    }
  }

  lemma ObjectStep(fr: FloatRepr, st: Style, ms: Members, k: string)
    requires UniqueKeys(ms) && (ms.MCons? ==> ParseMembers(fr, EmitMembers(st, ms, k)) == Some((ms, k)))
    ensures ParseValue(fr, Emit(st, JObject(ms), k)) == Some((JObject(ms), k))
  {
    var s := Emit(st, JObject(ms), k);
    DedupUnique(ms);
    if ms.MNil? {
      assert s[1..] == ['}'] + k && (['}'] + k)[1..] == k;
    } else {
      assert s[1..] == EmitMembers(st, ms, k);
    }
  }

  lemma {:induction false} ItemsRoundTrip(fr: FloatRepr, st: Style, items: Items, k: string)
    requires items.ICons? && WellFormedItems(fr, items)
    ensures ParseItems(fr, EmitItems(st, items, k)) == Some((items, k))
    decreases items
  {
    if items.tail.INil? {
      var u := [']'] + k;
      ValueRoundTrip(fr, st, items.head, u);
      assert u[1..] == k;
    } else {
      var next := EmitItems(st, items.tail, k);
      EmitStart(st, fr, items.tail.head,
                if items.tail.tail.INil? then [']'] + k else ItemSep(st, EmitItems(st, items.tail.tail, k)));
      SeparatorsSkip(st, next);
      ValueRoundTrip(fr, st, items.head, ItemSep(st, next));
      ItemsRoundTrip(fr, st, items.tail, k);
    }
  }

  /** Reading one member: its key, its value, and what comes after. */
  lemma MemberStep(fr: FloatRepr, st: Style, key: string, v: Json, body: string, more: string)
    requires body != [] && !IsJsonSpace(body[0]) && ParseValue(fr, body) == Some((v, more))
    requires more != [] && (more[0] == '}' || more[0] == ',')
    ensures var r := ParseMembers(fr, EmitString(key, KeySep(st, body)));
            && (more[0] == '}' ==> r == Some((MCons(key, v, MNil), more[1..])))
            && (more[0] == ',' ==>
                  var rest := ParseMembers(fr, SkipSpace(more[1..]));
                  rest.Some? ==> r == Some((MCons(key, v, rest.value.0), rest.value.1)))
  {
    StringRoundTrip(key, KeySep(st, body));
    SeparatorsSkip(st, body);
  }

  lemma {:induction false} MembersRoundTrip(fr: FloatRepr, st: Style, ms: Members, k: string)
    requires ms.MCons? && WellFormedMembers(fr, ms)
    ensures ParseMembers(fr, EmitMembers(st, ms, k)) == Some((ms, k))
    decreases ms
  {
    var more := if ms.tail.MNil? then ['}'] + k else ItemSep(st, EmitMembers(st, ms.tail, k));
    if ms.tail.MNil? {
      assert more[1..] == k;
    } else {
      SeparatorsSkip(st, EmitMembers(st, ms.tail, k));
      MembersRoundTrip(fr, st, ms.tail, k);
    }
    EmitStart(st, fr, ms.value, more);
    ValueRoundTrip(fr, st, ms.value, more);
    MemberStep(fr, st, ms.key, ms.value, Emit(st, ms.value, more), more);
  }

  /** `json.loads(json.dumps(v, ensure_ascii=False)) == v`, and the same for the
      compact style. */
  lemma DumpsLoads(fr: FloatRepr, st: Style, v: Json)
    requires WellFormed(fr, v)
    ensures Loads(fr, Emit(st, v, "")) == Some(v)
  {
    EmitStart(st, fr, v, "");
    ValueRoundTrip(fr, st, v, "");
    EmitNoMark(st, fr, v, "");
  }

  lemma EmitNoMark(st: Style, fr: FloatRepr, v: Json, k: string)
    requires WellFormed(fr, v)
    ensures var t := Emit(st, v, k); t != [] && t[0] != '\U{FEFF}'
  {
    match v
    case JInt(n) => IntTextToken(n);
    case JFloat(t) => if IsFloatToken(t) { FloatTokenStart(t); }
    case _ =>
  }
}
