/** JSON values as Python's `json` module prints and reads them
    (RFC 8259, with NaN and the infinities that Python adds). */
module Json {
  import opened Wrappers
  import opened Digits

  /** Floats are held as the text `repr` gives them. The members of an object
      stand in the insertion order of the dict. */
  datatype Json =
    | JNull
    | JBool(b: bool)
    | JInt(n: int)
    | JFloat(repr: string)
    | JString(s: string)
    | JArray(items: Items)
    | JObject(members: Members)

  datatype Items = INil | ICons(head: Json, tail: Items)

  datatype Members = MNil | MCons(key: string, value: Json, tail: Members)

  /** What the model leaves to the platform: a float token's `repr`. */
  type FloatRepr = string -> string

  const NAN := "NaN"
  const INFINITY := "Infinity"
  const MINUS_INFINITY := "-Infinity"

  predicate IsReprText(t: string) {
    IsFloatToken(t) || t == NAN || t == INFINITY || t == MINUS_INFINITY
  }

  /** `repr` yields float texts and is stable under reading back. */
  ghost predicate StableRepr(fr: FloatRepr) {
    forall t :: IsFloatToken(t) ==>
      IsReprText(fr(t)) && (IsFloatToken(fr(t)) ==> fr(fr(t)) == fr(t))
  }

  // ---- Dictionaries ----

  function Keys(ms: Members): set<string> {
    match ms
    case MNil => {}
    case MCons(k, _, t) => {k} + Keys(t)
  }

  predicate UniqueKeys(ms: Members) {
    ms.MCons? ==> ms.key !in Keys(ms.tail) && UniqueKeys(ms.tail)
  }

  /** `dict.get`. */
  function Get(ms: Members, k: string): (r: Option<Json>)
    ensures r.Some? <==> k in Keys(ms)
  {
    match ms
    case MNil => None
    case MCons(key, v, t) => if key == k then Some(v) else Get(t, k)
  }

  /** The dict without the key `k`. */
  function Without(ms: Members, k: string): (r: Members)
    ensures Keys(r) == Keys(ms) - {k}
    ensures UniqueKeys(ms) ==> UniqueKeys(r)
  {
    match ms
    case MNil => MNil
    case MCons(key, v, t) => if key == k then Without(t, k) else MCons(key, v, Without(t, k))
  }

  /** The dict with the fresh key `k` added last. */
  function Put(ms: Members, k: string, v: Json): (r: Members)
    ensures Keys(r) == Keys(ms) + {k}
    ensures UniqueKeys(ms) && k !in Keys(ms) ==> UniqueKeys(r)
  {
    match ms
    case MNil => MCons(k, v, MNil)
    case MCons(key, w, t) => MCons(key, w, Put(t, k, v))
  }

  /** The dict built from a list of pairs: a repeated key keeps its first place
      and takes its last value. */
  function Dedup(ms: Members): (r: Members)
    ensures Keys(r) == Keys(ms) && UniqueKeys(r)
  {
    match ms
    case MNil => MNil
    case MCons(k, v, t) =>
      var d := Dedup(t);
      match Get(d, k)
      case None => MCons(k, v, d)
      case Some(last) => MCons(k, last, Without(d, k))
  }

  /** Values a Python program can hold: dict keys are unique, floats are `repr` texts. */
  predicate WellFormed(fr: FloatRepr, v: Json) {
    match v
    case JFloat(t) => IsReprText(t) && (IsFloatToken(t) ==> fr(t) == t)
    case JArray(items) => WellFormedItems(fr, items)
    case JObject(ms) => UniqueKeys(ms) && WellFormedMembers(fr, ms)
    case _ => true
  }

  predicate WellFormedItems(fr: FloatRepr, items: Items) {
    items.ICons? ==> WellFormed(fr, items.head) && WellFormedItems(fr, items.tail)
  }

  predicate WellFormedMembers(fr: FloatRepr, ms: Members) {
    ms.MCons? ==> WellFormed(fr, ms.value) && WellFormedMembers(fr, ms.tail)
  }

  // ---- Printing: json.dumps(v, ensure_ascii=False) ----

  /** The separators: `", "` and `": "` by default, `","` and `":"` when compact. */
  datatype Style = Default | Compact

  function HexDigit(n: nat): char
    requires n < 16
  {
    if n < 10 then ('0' as int + n) as char else ('a' as int + n - 10) as char
  }

  function EscapeChar(c: char): (r: string)
    ensures |r| > 0
  {
    if c == '"' then "\\\""
    else if c == '\\' then "\\\\"
    else if c == '\n' then "\\n"
    else if c == '\r' then "\\r"
    else if c == '\t' then "\\t"
    else if c == '\U{0008}' then "\\b"
    else if c == '\U{000C}' then "\\f"
    else if c < ' ' then "\\u00" + [HexDigit(c as int / 16), HexDigit(c as int % 16)]
    else [c]
  }

  /** The escaped characters of `s` and the closing quote, followed by `k`. */
  function EmitChars(s: string, k: string): string {
    if s == [] then ['"'] + k else EscapeChar(s[0]) + EmitChars(s[1..], k)
  }

  function EmitString(s: string, k: string): string {
    ['"'] + EmitChars(s, k)
  }

  function KeySep(st: Style, k: string): string {
    if st.Compact? then [':'] + k else [':', ' '] + k
  }

  function ItemSep(st: Style, k: string): string {
    if st.Compact? then [','] + k else [',', ' '] + k
  }

  /** The text of `v` followed by `k`. */
  function Emit(st: Style, v: Json, k: string): string {
    match v
    case JNull => "null" + k
    case JBool(b) => if b then "true" + k else "false" + k
    case JInt(n) => IntText(n) + k
    case JFloat(t) => t + k
    case JString(s) => EmitString(s, k)
    case JArray(items) => ['['] + if items.INil? then [']'] + k else EmitItems(st, items, k)
    case JObject(ms) => ['{'] + if ms.MNil? then ['}'] + k else EmitMembers(st, ms, k)
  }

  function EmitItems(st: Style, items: Items, k: string): string
    requires items.ICons?
  {
    Emit(st, items.head,
         if items.tail.INil? then [']'] + k else ItemSep(st, EmitItems(st, items.tail, k)))
  }

  function EmitMembers(st: Style, ms: Members, k: string): string
    requires ms.MCons?
  {
    EmitString(ms.key, KeySep(st, Emit(st, ms.value,
      if ms.tail.MNil? then ['}'] + k else ItemSep(st, EmitMembers(st, ms.tail, k)))))
  }

  /** `json.dumps(v, ensure_ascii=False)`. */
  function Dumps(v: Json): string {
    Emit(Default, v, "")
  }

  // ---- Reading: json.loads(s) ----

  predicate IsJsonSpace(c: char) {
    c == ' ' || c == '\t' || c == '\n' || c == '\r'
  }

  function SkipSpace(s: string): (r: string)
    ensures |r| <= |s|
    ensures r != [] ==> !IsJsonSpace(r[0])
  {
    if s != [] && IsJsonSpace(s[0]) then SkipSpace(s[1..]) else s
  }

  function HexValue(c: char): (r: Option<nat>)
    ensures r.Some? ==> r.value < 16
  {
    if IsDigit(c) then Some(c as int - '0' as int)
    else if 'a' <= c <= 'f' then Some(c as int - 'a' as int + 10)
    else if 'A' <= c <= 'F' then Some(c as int - 'A' as int + 10)
    else None
  }

  /** Four hexadecimal digits. */
  function HexQuad(s: string): Option<nat>
    ensures var r := HexQuad(s); r.Some? ==> r.value < 0x10000 && |s| >= 4
  {
    if |s| < 4 then None
    else
      var a :- HexValue(s[0]);
      var b :- HexValue(s[1]);
      var c :- HexValue(s[2]);
      var d :- HexValue(s[3]);
      Some(a * 4096 + b * 256 + c * 16 + d)
  }

  /** The character of an escape sequence; `s` starts after the backslash. A
      surrogate pair is joined; an unpaired surrogate is no character here. */
  function Unescape(s: string): (r: Option<(char, string)>)
    ensures r.Some? ==> |r.value.1| < |s|
  {
    if s == [] then None
    else if s[0] == '"' || s[0] == '\\' || s[0] == '/' then Some((s[0], s[1..]))
    else if s[0] == 'n' then Some(('\n', s[1..]))
    else if s[0] == 'r' then Some(('\r', s[1..]))
    else if s[0] == 't' then Some(('\t', s[1..]))
    else if s[0] == 'b' then Some(('\U{0008}', s[1..]))
    else if s[0] == 'f' then Some(('\U{000C}', s[1..]))
    else if s[0] == 'u' then
      var v :- HexQuad(s[1..]);
      if !(0xD800 <= v < 0xE000) then Some((v as char, s[5..]))
      else if v < 0xDC00 && |s| > 6 && s[5] == '\\' && s[6] == 'u' then
        var w :- HexQuad(s[7..]);
        if 0xDC00 <= w < 0xE000
        then Some(((0x10000 + (v - 0xD800) * 1024 + (w - 0xDC00)) as char, s[11..]))
        else None
      else None
    else None
  }

  /** The rest of a string literal; `s` starts after the opening quote. */
  function ParseChars(s: string): (r: Option<(string, string)>)
    ensures r.Some? ==> |r.value.1| < |s|
    decreases |s|
  {
    if s == [] || s[0] < ' ' then None
    else if s[0] == '"' then Some(([], s[1..]))
    else if s[0] == '\\' then
      var (c, t) :- Unescape(s[1..]);
      var (cs, rest) :- ParseChars(t);
      Some(([c] + cs, rest))
    else
      var (cs, rest) :- ParseChars(s[1..]);
      Some(([s[0]] + cs, rest))
  }

  /** The length of the longest prefix of number characters. */
  function NumberRun(s: string): (n: nat)
    ensures n <= |s| && AllNumberChars(s[..n])
    ensures n < |s| ==> !IsNumberChar(s[n])
  {
    if s == [] || !IsNumberChar(s[0]) then 0
    else
      var n := 1 + NumberRun(s[1..]);
      assert forall i :: 1 <= i < n ==> s[i] == s[1..][..n - 1][i - 1];
      n
  }

  /** A number. Taking the longest run of number characters as the token agrees
      with Python: no such character can follow a complete number. */
  function ParseNumber(fr: FloatRepr, s: string): (r: Option<(Json, string)>)
    ensures r.Some? ==> |r.value.1| < |s|
  {
    var n := NumberRun(s);
    var t := s[..n];
    if IsIntToken(t) then Some((JInt(IntTokenValue(t)), s[n..]))
    else if n > 0 && IsFloatToken(t) then Some((JFloat(fr(t)), s[n..]))
    else None
  }

  /** The literals, in the order in which Python tries them before a number. */
  function ParseWord(s: string): (r: Option<(Json, string)>)
    ensures r.Some? ==> |r.value.1| < |s|
  {
    if "null" <= s then Some((JNull, s[4..]))
    else if "true" <= s then Some((JBool(true), s[4..]))
    else if "false" <= s then Some((JBool(false), s[5..]))
    else if NAN <= s then Some((JFloat(NAN), s[3..]))
    else if INFINITY <= s then Some((JFloat(INFINITY), s[8..]))
    else if MINUS_INFINITY <= s then Some((JFloat(MINUS_INFINITY), s[9..]))
    else None
  }

  /** One value at the start of `s`, and what follows it. */
  function ParseValue(fr: FloatRepr, s: string): (r: Option<(Json, string)>)
    ensures r.Some? ==> |r.value.1| < |s|
    decreases |s|, 0
  {
    if s == [] then None
    else if s[0] == '"' then
      var (cs, rest) :- ParseChars(s[1..]);
      Some((JString(cs), rest))
    else if s[0] == '[' then
      var t := SkipSpace(s[1..]);
      if t != [] && t[0] == ']' then Some((JArray(INil), t[1..]))
      else
        var (items, rest) :- ParseItems(fr, t);
        Some((JArray(items), rest))
    else if s[0] == '{' then
      var t := SkipSpace(s[1..]);
      if t != [] && t[0] == '}' then Some((JObject(MNil), t[1..]))
      else
        var (ms, rest) :- ParseMembers(fr, t);
        Some((JObject(Dedup(ms)), rest))
    else if ParseWord(s).Some? then ParseWord(s)
    else if s[0] == '-' || IsDigit(s[0]) then ParseNumber(fr, s)
    else None
  }

  /** Array items up to and including the closing bracket. */
  function ParseItems(fr: FloatRepr, s: string): (r: Option<(Items, string)>)
    ensures r.Some? ==> |r.value.1| < |s|
    decreases |s|, 1
  {
    var (v, t) :- ParseValue(fr, s);
    var u := SkipSpace(t);
    if u != [] && u[0] == ']' then Some((ICons(v, INil), u[1..]))
    else if u != [] && u[0] == ',' then
      var (items, rest) :- ParseItems(fr, SkipSpace(u[1..]));
      Some((ICons(v, items), rest))
    else None
  }

  /** Object members up to and including the closing brace. */
  function ParseMembers(fr: FloatRepr, s: string): (r: Option<(Members, string)>)
    ensures r.Some? ==> |r.value.1| < |s|
    decreases |s|, 0
  {
    if s == [] || s[0] != '"' then None
    else
      var (k, t) :- ParseChars(s[1..]);
      var u := SkipSpace(t);
      if u == [] || u[0] != ':' then None
      else
        var (v, w) :- ParseValue(fr, SkipSpace(u[1..]));
        var x := SkipSpace(w);
        if x != [] && x[0] == '}' then Some((MCons(k, v, MNil), x[1..]))
        else if x != [] && x[0] == ',' then
          var (ms, rest) :- ParseMembers(fr, SkipSpace(x[1..]));
          Some((MCons(k, v, ms), rest))
        else None
  }

  /** `json.loads(s)`: None stands for JSONDecodeError. A leading byte order mark is refused. */
  function Loads(fr: FloatRepr, s: string): Option<Json> {
    if s != [] && s[0] == '\U{FEFF}' then None
    else
      var (v, rest) :- ParseValue(fr, SkipSpace(s));
      if SkipSpace(rest) == [] then Some(v) else None
  }
}
