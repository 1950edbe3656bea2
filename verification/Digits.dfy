/** Decimal text of integers and of amounts of money, and the grammar of the
    number tokens of RFC 8259, section 6. */
module Digits {
  import opened Wrappers

  predicate IsDigit(c: char) {
    '0' <= c <= '9'
  }

  predicate AllDigits(s: string) {
    forall i :: 0 <= i < |s| ==> IsDigit(s[i])
  }

  /** `str(n)` for n >= 0. */
  function NatText(n: nat): (r: string)
    ensures |r| >= 1 && AllDigits(r)
    ensures |r| > 1 ==> r[0] != '0'
  {
    if n < 10 then [('0' as int + n) as char]
    else
      var high := NatText(n / 10);
      assert n / 10 < 10 ==> high != ['0'];
      high + [('0' as int + n % 10) as char]
  }

  function NatValue(s: string): int
    requires AllDigits(s)
  {
    if s == [] then 0
    else NatValue(s[..|s| - 1]) * 10 + (s[|s| - 1] as int - '0' as int)
  }

  lemma {:induction false} NatValueOfText(n: nat)
    ensures NatValue(NatText(n)) == n
  {
    var r := NatText(n);
    if n < 10 {
      assert r[..0] == [];
    } else {
      assert r[..|r| - 1] == NatText(n / 10);
      NatValueOfText(n / 10);
    }
  }

  /** `str(n)`. */
  function IntText(n: int): (r: string)
    ensures |r| >= 1
  {
    if n < 0 then ['-'] + NatText(-n) else NatText(n)
  }

  /** The integer tokens of JSON: no plus sign, no leading zero. */
  predicate IsIntToken(t: string) {
    var u := if |t| > 0 && t[0] == '-' then t[1..] else t;
    u != [] && AllDigits(u) && (u[0] == '0' ==> |u| == 1)
  }

  function IntTokenValue(t: string): int
    requires IsIntToken(t)
  {
    if t[0] == '-' then -NatValue(t[1..]) else NatValue(t)
  }

  lemma {:induction false} IntTextToken(n: int)
    ensures IsIntToken(IntText(n)) && IntTokenValue(IntText(n)) == n
  {
    if n < 0 { NegativeToken(n); } else { NaturalToken(n); }
  }

  lemma NaturalToken(n: nat)
    ensures IsIntToken(NatText(n)) && IntTokenValue(NatText(n)) == n
  {
    NatValueOfText(n);
    NatTextToken(n);
  }

  lemma NegativeToken(n: int)
    requires n < 0
    ensures IsIntToken(['-'] + NatText(-n)) && IntTokenValue(['-'] + NatText(-n)) == n
  {
    NatValueOfText(-n);
    NatTextToken(-n);
    assert (['-'] + NatText(-n))[1..] == NatText(-n);
  }

  lemma NatTextToken(n: nat)
    ensures var r := NatText(n); IsDigit(r[0]) && (r[0] == '0' ==> |r| == 1)
  {
  }

  /** The length of the longest prefix made of digits. */
  function DigitRun(s: string): (n: nat)
    ensures n <= |s| && AllDigits(s[..n])
    ensures n < |s| ==> !IsDigit(s[n])
  {
    if s == [] || !IsDigit(s[0]) then 0
    else
      var n := 1 + DigitRun(s[1..]);
      assert forall i :: 1 <= i < n ==> s[i] == s[1..][..n - 1][i - 1];
      n
  }

  predicate IsExponent(t: string) {
    && |t| > 1
    && (t[0] == 'e' || t[0] == 'E')
    && var u := if t[1] == '+' || t[1] == '-' then t[2..] else t[1..];
       u != [] && AllDigits(u)
  }

  /** The number tokens with a fraction or an exponent, which Python reads as floats. */
  predicate IsFloatToken(t: string) {
    var u := if |t| > 0 && t[0] == '-' then t[1..] else t;
    var n := DigitRun(u);
    && n > 0
    && (u[0] == '0' ==> n == 1)
    && var w := u[n..];
       && w != []
       && if w[0] == '.' then
            var m := DigitRun(w[1..]);
            m > 0 && (w[1 + m..] == [] || IsExponent(w[1 + m..]))
          else IsExponent(w)
  }

  /** The characters that occur in number tokens. */
  predicate IsNumberChar(c: char) {
    IsDigit(c) || c == '-' || c == '+' || c == '.' || c == 'e' || c == 'E'
  }

  predicate AllNumberChars(s: string) {
    forall i :: 0 <= i < |s| ==> IsNumberChar(s[i])
  }

  lemma FractionChars(w: string)
    requires w != [] && w[0] == '.'
    requires var x := w[1 + DigitRun(w[1..])..]; x == [] || IsExponent(x)
    ensures AllNumberChars(w)
  {
    var m := DigitRun(w[1..]);
    var x := w[1 + m..];
    if x != [] { ExponentChars(x); }
    FractionParts(w, m);
    DigitsAreNumberChars(w[1..][..m]);
    CharsAppend(['.'], w[1..][..m]);
    CharsAppend(['.'] + w[1..][..m], x);
  }

  lemma FractionParts(w: string, m: nat)
    requires w != [] && m < |w|
    ensures w == [w[0]] + w[1..][..m] + w[1 + m..]
  {
  }

  lemma DigitsAreNumberChars(s: string)
    requires AllDigits(s)
    ensures AllNumberChars(s)
  {
  }

  lemma CharsAppend(a: string, b: string)
    requires AllNumberChars(a) && AllNumberChars(b)
    ensures AllNumberChars(a + b)
  {
  }

  lemma FloatTokenChars(t: string)
    requires IsFloatToken(t)
    ensures |t| >= 1 && AllNumberChars(t) && (t[0] == '-' || IsDigit(t[0]))
  {
    var u := if |t| > 0 && t[0] == '-' then t[1..] else t;
    var n := DigitRun(u);
    var w := u[n..];
    if w[0] == '.' { FractionChars(w); } else { ExponentChars(w); }
    TokenChars(t, u, n);
  }

  lemma TokenChars(t: string, u: string, n: nat)
    requires n <= |u| && AllDigits(u[..n]) && AllNumberChars(u[n..])
    requires t == u || t == ['-'] + u
    ensures AllNumberChars(t)
  {
    DigitsAreNumberChars(u[..n]);
    CharsAppend(u[..n], u[n..]);
    assert u == u[..n] + u[n..];
    CharsAppend(['-'], u);
  }

  lemma ExponentChars(t: string)
    requires IsExponent(t)
    ensures AllNumberChars(t)
  {
    if t[1] == '+' || t[1] == '-' {
      assert t == t[..2] + t[2..];
    } else {
      assert t == t[..1] + t[1..];
    }
  }

  /** Two digits. */
  function CentsText(c: nat): (r: string)
    requires c < 100
    ensures 1 <= |r| <= 2 && AllDigits(r)
  {
    if c % 10 == 0 then NatText(c / 10) else NatText(c / 10) + NatText(c % 10)
  }

  /** Python's text of the float that denotes `c` hundredths, c >= 0:
      312.5 for 31250, 0.05 for 5. */
  function UnsignedAmountText(c: nat): (r: string)
    ensures |r| > 0 && IsDigit(r[0])
  {
    var h := NatText(c / 100);
    assert IsDigit(h[0]);
    h + ['.'] + CentsText(c % 100)
  }

  /** Python's text of the float that denotes `c` hundredths. */
  function AmountText(c: int): (r: string)
  {
    if c < 0 then ['-'] + UnsignedAmountText(-c) else UnsignedAmountText(c)
  }

  lemma {:induction false} RunBeforePoint(h: string, l: string)
    requires AllDigits(h)
    ensures DigitRun(h + ['.'] + l) == |h|
  {
    var u := h + ['.'] + l;
    if h != [] {
      RunBeforePoint(h[1..], l);
      assert u[1..] == h[1..] + ['.'] + l;
    }
  }

  lemma RunOfDigits(l: string)
    requires AllDigits(l)
    ensures DigitRun(l) == |l|
  {
  }

  lemma PointToken(h: string, l: string)
    requires AllDigits(h) && AllDigits(l) && h != [] && l != [] && (h[0] == '0' ==> |h| == 1)
    ensures IsFloatToken(h + ['.'] + l)
  {
    var u := h + ['.'] + l;
    RunBeforePoint(h, l);
    RunOfDigits(l);
    assert u[|h|..] == ['.'] + l && (['.'] + l)[1..] == l;
    assert (['.'] + l)[1 + |l|..] == [];
  }

  lemma SignedToken(u: string)
    requires IsFloatToken(u) && u != [] && IsDigit(u[0])
    ensures IsFloatToken(['-'] + u)
  {
    assert (['-'] + u)[1..] == u;
  }

  /** Amounts print as float tokens, which contain no colon. */
  lemma AmountTextToken(c: int)
    ensures IsFloatToken(AmountText(c)) && ':' !in AmountText(c)
  {
    var d: nat := if c < 0 then -c else c;
    NatTextToken(d / 100);
    PointToken(NatText(d / 100), CentsText(d % 100));
    if c < 0 { SignedToken(UnsignedAmountText(d)); }
    FloatTokenChars(AmountText(c));
  }

  lemma AmountSign(a: int)
    ensures var t := AmountText(a);
            && t != [] && (t[0] == '-' <==> a < 0)
            && (if a < 0 then t[1..] == UnsignedAmountText(-a) else t == UnsignedAmountText(a))
  {
    if a < 0 { assert (['-'] + UnsignedAmountText(-a))[1..] == UnsignedAmountText(-a); }
  }

  /** Different amounts have different texts. */
  lemma AmountTextInjective(a: int, b: int)
    requires AmountText(a) == AmountText(b)
    ensures a == b
  {
    AmountSign(a);
    AmountSign(b);
    if a < 0 { UnsignedInjective(-a, -b); } else { UnsignedInjective(a, b); }
  }

  lemma UnsignedInjective(a: nat, b: nat)
    requires UnsignedAmountText(a) == UnsignedAmountText(b)
    ensures a == b
  {
    var t := UnsignedAmountText(a);
    var ha, la := NatText(a / 100), CentsText(a % 100);
    var hb, lb := NatText(b / 100), CentsText(b % 100);
    RunBeforePoint(ha, la);
    RunBeforePoint(hb, lb);
    assert ha == t[..|ha|] && hb == t[..|hb|];
    assert la == t[|ha| + 1..] && lb == t[|hb| + 1..];
    NatValueOfText(a / 100);
    NatValueOfText(b / 100);
    CentsInjective(a % 100, b % 100);
  }

  lemma CentsInjective(a: nat, b: nat)
    requires a < 100 && b < 100 && CentsText(a) == CentsText(b)
    ensures a == b
  {
    CentsDigits(a);
    CentsDigits(b);
  }

  lemma CentsDigits(a: nat)
    requires a < 100
    ensures var r := CentsText(a);
            && r[0] as int == '0' as int + a / 10
            && (|r| == 1 <==> a % 10 == 0)
            && (|r| == 2 ==> r[1] as int == '0' as int + a % 10)
  {
    assert NatText(a / 10) == [('0' as int + a / 10) as char];
  }

  /** Amounts print with one decimal place at least, and with two only if the second is needed. */
  lemma CentsTextExactly()
    ensures CentsText(0) == "0" && CentsText(50) == "5" && CentsText(5) == "05" && CentsText(25) == "25"
  {
    assert NatText(0) == "0" && NatText(2) == "2" && NatText(5) == "5";
  }

  lemma AmountTextExactly(c: int)
    requires c >= 0
    ensures AmountText(c) == NatText(c / 100) + "." + CentsText(c % 100)
    ensures c > 0 ==> AmountText(-c) == "-" + (NatText(c / 100) + "." + CentsText(c % 100))
  {
  }
}
