/** What printed JSON looks like from outside: one line, in braces. */
module JsonText {
  import opened Json
  import opened Wrappers
  import opened Digits
  import opened JsonRoundTrip

  predicate NoControl(s: string) {
    forall i :: 0 <= i < |s| ==> ' ' <= s[i]
  }

  /** What putting text in front of `k` keeps: length, last character, characters, and
      the absence of control characters. */
  ghost predicate Extends(t: string, k: string) {
    && |k| <= |t| && (k != [] ==> t[|t| - 1] == k[|k| - 1])
    && (forall c :: c in k ==> c in t) && (NoControl(k) ==> NoControl(t))
  }

  lemma Prepend(x: string, k: string)
    requires NoControl(x)
    ensures Extends(x + k, k)
  {
  }

  lemma Chain(t: string, u: string, k: string)
    requires Extends(t, u) && Extends(u, k)
    ensures Extends(t, k)
  {
  }

  lemma EscapeShape(c: char, k: string)
    ensures Extends(EscapeChar(c) + k, k)
  {
    Prepend(EscapeChar(c), k);
  }

  lemma {:induction false} CharsShape(s: string, k: string)
    ensures Extends(EmitChars(s, k), k)
  {
    if s == [] {
      Prepend(['"'], k);
    } else {
      CharsShape(s[1..], k);
      EscapeShape(s[0], EmitChars(s[1..], k));
      Chain(EmitChars(s, k), EmitChars(s[1..], k), k);
    }
  }

  lemma StringShape(s: string, k: string)
    ensures Extends(EmitString(s, k), k)
  {
    CharsShape(s, k);
    Prepend(['"'], EmitChars(s, k));
    Chain(EmitString(s, k), EmitChars(s, k), k);
  }

  lemma NumberShape(t: string, k: string)
    requires AllNumberChars(t)
    ensures Extends(t + k, k)
  {
    forall i | 0 <= i < |t| ensures ' ' <= t[i] {
      assert IsNumberChar(t[i]);
    }
    Prepend(t, k);
  }

  lemma SepShape(st: Style, k: string)
    ensures Extends(KeySep(st, k), k) && Extends(ItemSep(st, k), k)
  {
    Prepend([':'], k);
    Prepend([':', ' '], k);
    Prepend([','], k);
    Prepend([',', ' '], k);
  }

  lemma IntShape(n: int, k: string)
    ensures Extends(IntText(n) + k, k)
  {
    IntTextToken(n);
    NumberShape(IntText(n), k);
  }

  lemma FloatShape(t: string, k: string)
    requires IsReprText(t)
    ensures Extends(t + k, k)
  {
    if IsFloatToken(t) {
      FloatTokenChars(t);
      NumberShape(t, k);
    } else {
      Prepend(t, k);
    }
  }

  lemma WordShape(st: Style, v: Json, k: string)
    requires v.JNull? || v.JBool?
    ensures Extends(Emit(st, v, k), k)
  {
    Prepend("null", k);
    Prepend("true", k);
    Prepend("false", k);
  }

  lemma ArrayShape(st: Style, items: Items, k: string)
    requires items.ICons? ==> Extends(EmitItems(st, items, k), k)
    ensures Extends(Emit(st, JArray(items), k), k)
  {
    var t := if items.INil? then [']'] + k else EmitItems(st, items, k);
    Prepend([']'], k);
    Prepend(['['], t);
    Chain(['['] + t, t, k);
  }

  lemma ObjectShape(st: Style, ms: Members, k: string)
    requires ms.MCons? ==> Extends(EmitMembers(st, ms, k), ['}'] + k)
    ensures Extends(Emit(st, JObject(ms), k), ['}'] + k) && Extends(Emit(st, JObject(ms), k), k)
  {
    var end := ['}'] + k;
    var t := if ms.MNil? then end else EmitMembers(st, ms, k);
    Prepend(['}'], k);
    Prepend(['{'], t);
    Chain(['{'] + t, t, end);
    Chain(['{'] + t, end, k);
  }

  lemma {:induction false} EmitShape(fr: FloatRepr, st: Style, v: Json, k: string)
    requires WellFormed(fr, v)
    ensures Extends(Emit(st, v, k), k)
    decreases v
  {
    match v
    case JInt(n) => IntShape(n, k);
    case JFloat(t) => FloatShape(t, k);
    case JString(s) => StringShape(s, k);
    case JArray(items) =>
      if items.ICons? { ItemsShape(fr, st, items, k); }
      ArrayShape(st, items, k);
    case JObject(ms) =>
      if ms.MCons? { MembersShape(fr, st, ms, k); }
      ObjectShape(st, ms, k);
    case _ => WordShape(st, v, k);
  }

  lemma {:induction false} ItemsShape(fr: FloatRepr, st: Style, items: Items, k: string)
    requires items.ICons? && WellFormedItems(fr, items)
    ensures Extends(EmitItems(st, items, k), k)
    decreases items
  {
    var next := if items.tail.INil? then [']'] + k else ItemSep(st, EmitItems(st, items.tail, k));
    if items.tail.INil? {
      Prepend([']'], k);
    } else {
      ItemsShape(fr, st, items.tail, k);
      SepShape(st, EmitItems(st, items.tail, k));
      Chain(next, EmitItems(st, items.tail, k), k);
    }
    EmitShape(fr, st, items.head, next);
    Chain(EmitItems(st, items, k), next, k);
  }

  lemma {:induction false} MembersShape(fr: FloatRepr, st: Style, ms: Members, k: string)
    requires ms.MCons? && WellFormedMembers(fr, ms)
    ensures Extends(EmitMembers(st, ms, k), ['}'] + k)
    decreases ms, 0
  {
    var end := ['}'] + k;
    var next := if ms.tail.MNil? then end else ItemSep(st, EmitMembers(st, ms.tail, k));
    if ms.tail.MCons? {
      MembersShape(fr, st, ms.tail, k);
      SepShape(st, EmitMembers(st, ms.tail, k));
      Chain(next, EmitMembers(st, ms.tail, k), end);
    }
    var body := Emit(st, ms.value, next);
    EmitShape(fr, st, ms.value, next);
    Chain(body, next, end);
    SepShape(st, body);
    Chain(KeySep(st, body), body, end);
    StringShape(ms.key, KeySep(st, body));
    Chain(EmitMembers(st, ms, k), KeySep(st, body), end);
  }

  /** An object prints as one line that starts with `{` and ends with `}`. */
  lemma ObjectText(fr: FloatRepr, ms: Members)
    requires WellFormed(fr, JObject(ms))
    ensures var t := Dumps(JObject(ms));
            |t| >= 2 && t[0] == '{' && t[|t| - 1] == '}' && NoControl(t)
  {
    if ms.MCons? { MembersShape(fr, Default, ms, ""); }
    ObjectShape(Default, ms, "");
    assert ['}'] + "" == "}";
  }

  // ---- What a printed object keeps of its strings ----

  /** A character that is printed as it is. */
  predicate PrintsAsIs(c: char) {
    EscapeChar(c) == [c]
  }

  /** `t` has room for `s`, and the characters of `s` that are printed as they are. */
  ghost predicate Shows(t: string, s: string) {
    |s| <= |t| && forall c :: c in s && PrintsAsIs(c) ==> c in t
  }

  lemma {:induction false} CharsShow(s: string, k: string)
    ensures |s| + |k| < |EmitChars(s, k)| && Shows(EmitChars(s, k), s)
  {
    if s != [] {
      CharsShow(s[1..], k);
      var rest := EmitChars(s[1..], k);
      forall c | c in s && PrintsAsIs(c) ensures c in EscapeChar(s[0]) + rest {
        if c != s[0] { assert c in s[1..]; }
      }
    }
  }

  lemma StringShows(s: string, k: string)
    ensures Shows(EmitString(s, k), s)
  {
    CharsShow(s, k);
  }

  lemma ShowsThrough(t: string, u: string, s: string)
    requires Extends(t, u) && Shows(u, s)
    ensures Shows(t, s)
  {
  }

  /** The string stands in the value, at any depth, as a value or as a key. */
  predicate Holds(v: Json, s: string) {
    match v
    case JString(t) => t == s
    case JArray(items) => HoldsItem(items, s)
    case JObject(ms) => HoldsMember(ms, s)
    case _ => false
  }

  predicate HoldsItem(items: Items, s: string) {
    items.ICons? && (Holds(items.head, s) || HoldsItem(items.tail, s))
  }

  predicate HoldsMember(ms: Members, s: string) {
    ms.MCons? && (ms.key == s || Holds(ms.value, s) || HoldsMember(ms.tail, s))
  }

  /** Every string of a value shows in its text. */
  lemma {:induction false} ValueShows(fr: FloatRepr, st: Style, v: Json, k: string, s: string)
    requires WellFormed(fr, v) && Holds(v, s)
    ensures Shows(Emit(st, v, k), s)
    decreases v, 1
  {
    match v
    case JString(_) => StringShows(s, k);
    case JArray(items) =>
      ItemsShow(fr, st, items, k, s);
      Prepend(['['], EmitItems(st, items, k));
      ShowsThrough(Emit(st, v, k), EmitItems(st, items, k), s);
    case JObject(ms) =>
      MembersShow(fr, st, ms, k, s);
      Prepend(['{'], EmitMembers(st, ms, k));
      ShowsThrough(Emit(st, v, k), EmitMembers(st, ms, k), s);
    case _ =>
  }

  lemma {:induction false} ItemsShow(fr: FloatRepr, st: Style, items: Items, k: string, s: string)
    requires WellFormedItems(fr, items) && HoldsItem(items, s)
    ensures Shows(EmitItems(st, items, k), s)
    decreases items, 0
  {
    var next := if items.tail.INil? then [']'] + k else ItemSep(st, EmitItems(st, items.tail, k));
    if Holds(items.head, s) {
      ValueShows(fr, st, items.head, next, s);
    } else {
      ItemsShow(fr, st, items.tail, k, s);
      SepShape(st, EmitItems(st, items.tail, k));
      ShowsThrough(next, EmitItems(st, items.tail, k), s);
      EmitShape(fr, st, items.head, next);
      ShowsThrough(EmitItems(st, items, k), next, s);
    }
  }

  lemma {:induction false} MembersShow(fr: FloatRepr, st: Style, ms: Members, k: string, s: string)
    requires WellFormedMembers(fr, ms) && HoldsMember(ms, s)
    ensures Shows(EmitMembers(st, ms, k), s)
    decreases ms, 0
  {
    var next := if ms.tail.MNil? then ['}'] + k else ItemSep(st, EmitMembers(st, ms.tail, k));
    var body := Emit(st, ms.value, next);
    if ms.key == s {
      StringShows(s, KeySep(st, body));
    } else {
      if Holds(ms.value, s) {
        ValueShows(fr, st, ms.value, next, s);
      } else {
        MembersShow(fr, st, ms.tail, k, s);
        SepShape(st, EmitMembers(st, ms.tail, k));
        ShowsThrough(next, EmitMembers(st, ms.tail, k), s);
        EmitShape(fr, st, ms.value, next);
        ShowsThrough(body, next, s);
      }
      SepShape(st, body);
      ShowsThrough(KeySep(st, body), body, s);
      StringShape(ms.key, KeySep(st, body));
      ShowsThrough(EmitMembers(st, ms, k), KeySep(st, body), s);
    }
  }

  /** Characters are printed as they are except quotes, backslashes and control characters. */
  lemma PrintsExactly(c: char)
    ensures PrintsAsIs(c) <==> c >= ' ' && c != '"' && c != '\\'
  {
  }

  /** The separators of the two styles. */
  lemma SeparatorsExactly(k: string)
    ensures KeySep(Default, k) == ": " + k && ItemSep(Default, k) == ", " + k
    ensures KeySep(Compact, k) == ":" + k && ItemSep(Compact, k) == "," + k
  {
  }
}
