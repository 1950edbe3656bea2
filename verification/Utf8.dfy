/** UTF-8 as the log files use it: encoding on write, strict decoding when the
    chain is verified, and the decoder that replaces malformed input by U+FFFD
    when only the tail of a file is read. A `char` is a Unicode scalar value. */
module Utf8 {
  import opened Wrappers
  import opened Sequences

  type byte = x: int | 0 <= x < 256

  const REPLACEMENT: char := '\U{FFFD}'

  function Width(c: char): (n: nat)
    ensures 1 <= n <= 4
  {
    if c as int < 0x80 then 1 else if c as int < 0x800 then 2 else if c as int < 0x10000 then 3 else 4
  }

  /** 64 to the power `k`, for `k` below 4. */
  function Unit(k: nat): (u: nat)
    ensures u > 0
  {
    if k == 0 then 1 else if k == 1 then 64 else if k == 2 then 4096 else 262144
  }

  /** The bytes of a character: a lead byte, then six bits at a time. */
  function ByteAt(c: char, i: nat): byte
    requires i < Width(c)
  {
    var v, n := c as int, Width(c);
    if i > 0 then 0x80 + (v / Unit(n - 1 - i)) % 64
    else if n == 1 then v
    else if n == 2 then 0xC0 + v / 64
    else if n == 3 then 0xE0 + v / 4096
    else 0xF0 + v / 262144
  }

  function EncodeChar(c: char): (r: seq<byte>)
    ensures |r| == Width(c)
  {
    seq(Width(c), i requires 0 <= i < Width(c) => ByteAt(c, i))
  }

  function Encode(s: string): (r: seq<byte>)
    ensures |s| <= |r|
  {
    if s == [] then [] else EncodeChar(s[0]) + Encode(s[1..])
  }

  predicate Continuation(b: byte) {
    0x80 <= b < 0xC0
  }

  /** How many bytes a lead byte announces; 0 when no sequence starts with it. */
  function Announced(lead: byte): nat {
    if lead < 0x80 then 1
    else if 0xC2 <= lead < 0xE0 then 2
    else if 0xE0 <= lead < 0xF0 then 3
    else if 0xF0 <= lead < 0xF5 then 4
    else 0
  }

  /** The second byte is restricted further, to exclude overlong forms,
      surrogates and values above U+10FFFF. */
  predicate SecondByte(lead: byte, b: byte) {
    && Continuation(b)
    && (lead == 0xE0 ==> 0xA0 <= b)
    && (lead == 0xED ==> b < 0xA0)
    && (lead == 0xF0 ==> 0x90 <= b)
    && (lead == 0xF4 ==> b < 0x90)
  }

  /** Six more bits from the continuation byte `b`. */
  function Join(high: int, low: int, b: int): int {
    (high + low) * 64 + (b - 0x80)
  }

  /** One decoding step: the character and the bytes it took, or no character
      and the length of the malformed piece that one U+FFFD replaces. */
  function DecodeStep(b: seq<byte>): (r: (Option<char>, nat))
    requires |b| > 0
    ensures 1 <= r.1 <= |b|
  {
    var n := Announced(b[0]);
    if n == 1 then (Some(b[0] as char), 1)
    else if n == 0 || |b| < 2 || !SecondByte(b[0], b[1]) then (None, 1)
    else if n == 2 then (Some(Join(0, b[0] - 0xC0, b[1]) as char), 2)
    else if |b| < 3 || !Continuation(b[2]) then (None, 2)
    else if n == 3 then (Some(Join(Join(0, b[0] - 0xE0, b[1]), 0, b[2]) as char), 3)
    else if |b| < 4 || !Continuation(b[3]) then (None, 3)
    else (Some(Join(Join(Join(0, b[0] - 0xF0, b[1]), 0, b[2]), 0, b[3]) as char), 4)
  }

  /** `bytes.decode("utf-8")`: None stands for UnicodeDecodeError. */
  function DecodeStrict(b: seq<byte>): Option<string> {
    if b == [] then Some([])
    else
      var (c, n) := DecodeStep(b);
      if c.None? then None
      else
        var rest := DecodeStrict(b[n..]);
        if rest.None? then None else Some([c.value] + rest.value)
  }

  /** `bytes.decode("utf-8", errors="replace")`. */
  function DecodeReplace(b: seq<byte>): string {
    if b == [] then []
    else
      var (c, n) := DecodeStep(b);
      [if c.Some? then c.value else REPLACEMENT] + DecodeReplace(b[n..])
  }

  lemma EncodeAppend(s: string, t: string)
    ensures Encode(s + t) == Encode(s) + Encode(t)
  {
    if s == [] {
      assert s + t == t;
    } else {
      assert (s + t)[1..] == s[1..] + t;
      EncodeAppend(s[1..], t);
      assert EncodeChar(s[0]) + (Encode(s[1..]) + Encode(t)) == Encode(s) + Encode(t);
    }
  }

  lemma EncodedByte(c: char, rest: seq<byte>, i: nat)
    requires i < Width(c)
    ensures (EncodeChar(c) + rest)[i] == ByteAt(c, i)
  {
  }

  lemma ShortChar(c: char, b: seq<byte>)
    requires Width(c) <= 2 && Width(c) <= |b| && forall i :: 0 <= i < Width(c) ==> b[i] == ByteAt(c, i)
    ensures DecodeStep(b) == (Some(c), Width(c))
  {
    var v := c as int;
    assert b[0] == ByteAt(c, 0);
    if Width(c) == 2 {
      assert b[1] == ByteAt(c, 1);
      assert v == (v / 64) * 64 + v % 64;
    }
  }

  lemma MediumChar(c: char, b: seq<byte>)
    requires Width(c) == 3 <= |b| && forall i :: 0 <= i < 3 ==> b[i] == ByteAt(c, i)
    ensures DecodeStep(b) == (Some(c), 3)
  {
    var v := c as int;
    assert b[0] == ByteAt(c, 0) && b[1] == ByteAt(c, 1) && b[2] == ByteAt(c, 2);
    assert v == (v / 4096) * 4096 + ((v / 64) % 64) * 64 + v % 64;
  }

  lemma FourParts(v: int)
    requires 0x10000 <= v < 0x110000
    ensures var p, q, r := v / 64, v / 4096, v / 262144;
            && v == p * 64 + v % 64 && p == q * 64 + p % 64 && q == r * 64 + q % 64
            && 0 <= r <= 4 && (r == 0 ==> q % 64 >= 16) && (r == 4 ==> q % 64 < 16)
  {
    assert v / 4096 == (v / 64) / 64;
    assert v / 262144 == (v / 4096) / 64;
  }

  lemma LongChar(c: char, b: seq<byte>)
    requires Width(c) == 4 <= |b| && forall i :: 0 <= i < 4 ==> b[i] == ByteAt(c, i)
    ensures DecodeStep(b) == (Some(c), 4)
  {
    var v := c as int;
    FourParts(v);
    assert b[0] == ByteAt(c, 0) && b[1] == ByteAt(c, 1) && b[2] == ByteAt(c, 2) && b[3] == ByteAt(c, 3);
    assert SecondByte(b[0], b[1]) && Continuation(b[2]) && Continuation(b[3]);
    assert Join(Join(Join(0, b[0] - 0xF0, b[1]), 0, b[2]), 0, b[3]) == v;
  }

  lemma StepDecodesChar(c: char, rest: seq<byte>)
    ensures DecodeStep(EncodeChar(c) + rest) == (Some(c), |EncodeChar(c)|)
  {
    var b := EncodeChar(c) + rest;
    forall i | 0 <= i < Width(c) ensures b[i] == ByteAt(c, i) {
      EncodedByte(c, rest, i);
    }
    if Width(c) <= 2 {
      ShortChar(c, b);
    } else if Width(c) == 3 {
      MediumChar(c, b);
    } else {
      LongChar(c, b);
    }
  }

  /** Strict decoding undoes encoding. */
  lemma {:induction false} DecodeEncode(s: string)
    ensures DecodeStrict(Encode(s)) == Some(s)
  {
    if s != [] {
      StepDecodesChar(s[0], Encode(s[1..]));
      assert Encode(s)[|EncodeChar(s[0])|..] == Encode(s[1..]);
      DecodeEncode(s[1..]);
      assert [s[0]] + s[1..] == s;
    }
  }

  lemma EncodeInjective(s: string, t: string)
    requires Encode(s) == Encode(t)
    ensures s == t
  {
    DecodeEncode(s);
    DecodeEncode(t);
  }

  /** `n` copies of U+FFFD. */
  function Replacements(n: nat): (r: string)
    ensures |r| == n
    ensures forall i :: 0 <= i < n ==> r[i] == REPLACEMENT
  {
    seq(n, _ => REPLACEMENT)
  }

  /** What the replacing decoder sees of the text `s` when the first `k` of its
      bytes are cut off: characters cut in the middle leave one U+FFFD for each
      byte that remains of them. */
  function CutBytes(s: string, k: nat): string
    requires k <= |Encode(s)|
  {
    if s == [] || k == 0 then s
    else
      var n := |EncodeChar(s[0])|;
      if n <= k then CutBytes(s[1..], k - n)
      else Replacements(n - k) + s[1..]
  }

  lemma ContinuationTail(c: char)
    ensures forall i :: 1 <= i < |EncodeChar(c)| ==> Continuation(EncodeChar(c)[i])
  {
    forall i | 1 <= i < |EncodeChar(c)| ensures Continuation(EncodeChar(c)[i]) {
      assert EncodeChar(c)[i] == ByteAt(c, i);
    }
  }

  lemma StrayByte(b: seq<byte>)
    requires |b| > 0 && Continuation(b[0])
    ensures DecodeReplace(b) == [REPLACEMENT] + DecodeReplace(b[1..])
  {
    assert DecodeStep(b) == (None, 1);
  }

  lemma {:induction false} StrayContinuations(u: seq<byte>, rest: seq<byte>)
    requires forall i :: 0 <= i < |u| ==> Continuation(u[i])
    ensures DecodeReplace(u + rest) == Replacements(|u|) + DecodeReplace(rest)
  {
    if u == [] {
      assert u + rest == rest;
    } else {
      StrayByte(u + rest);
      assert (u + rest)[1..] == u[1..] + rest;
      StrayContinuations(u[1..], rest);
      assert Replacements(|u|) == [REPLACEMENT] + Replacements(|u| - 1);
      Associate([REPLACEMENT], Replacements(|u| - 1), DecodeReplace(rest));
    }
  }

  lemma {:induction false} DecodeReplaceEncode(s: string)
    ensures DecodeReplace(Encode(s)) == s
  {
    if s != [] {
      StepDecodesChar(s[0], Encode(s[1..]));
      assert Encode(s)[|EncodeChar(s[0])|..] == Encode(s[1..]);
      DecodeReplaceEncode(s[1..]);
      assert [s[0]] + s[1..] == s;
    }
  }

  lemma CutFirst(s: string, k: nat)
    requires s != [] && 0 < k < |EncodeChar(s[0])|
    ensures DecodeReplace(Encode(s)[k..]) == Replacements(|EncodeChar(s[0])| - k) + s[1..]
  {
    var e, rest := EncodeChar(s[0]), Encode(s[1..]);
    DropWithin(e, rest, k);
    ContinuationTail(s[0]);
    StrayContinuations(e[k..], rest);
    DecodeReplaceEncode(s[1..]);
  }

  /** The replacing decoder, started anywhere inside well-formed UTF-8,
      resynchronises at the next character. */
  lemma {:induction false} TailDecodes(s: string, k: nat)
    requires k <= |Encode(s)|
    ensures DecodeReplace(Encode(s)[k..]) == CutBytes(s, k)
  {
    if s == [] || k == 0 {
      assert Encode(s)[k..] == Encode(s);
      DecodeReplaceEncode(s);
    } else {
      var e, rest := EncodeChar(s[0]), Encode(s[1..]);
      if |e| <= k {
        assert (e + rest)[k..] == rest[k - |e|..];
        TailDecodes(s[1..], k - |e|);
      } else {
        CutFirst(s, k);
      }
    }
  }

  lemma EncodeCons(c: char, s: string)
    ensures Encode([c] + s) == EncodeChar(c) + Encode(s)
  {
    assert ([c] + s)[1..] == s;
  }

  lemma CutCons(c: char, s: string, k: nat)
    requires 0 < k <= |Encode([c] + s)|
    ensures var n := |EncodeChar(c)|;
            && (n <= k ==> k - n <= |Encode(s)|)
            && CutBytes([c] + s, k) == if n <= k then CutBytes(s, k - n) else Replacements(n - k) + s
  {
    assert ([c] + s)[1..] == s;
  }

  lemma CutBeforeStep(c: char, s: string, t: string, k: nat)
    requires 0 < k <= |Encode([c] + s)| && k <= |Encode([c] + (s + t))|
    requires var n := |EncodeChar(c)|;
             n <= k ==> && k - n <= |Encode(s)| && k - n <= |Encode(s + t)|
                        && CutBytes(s + t, k - n) == CutBytes(s, k - n) + t
    ensures CutBytes([c] + (s + t), k) == CutBytes([c] + s, k) + t
  {
    var n := |EncodeChar(c)|;
    CutCons(c, s, k);
    CutCons(c, s + t, k);
    if n > k { Associate(Replacements(n - k), s, t); }
  }

  /** A cut that falls before `t` leaves `t` whole. */
  lemma {:induction false} CutBefore(s: string, t: string, k: nat)
    requires k <= |Encode(s)|
    ensures k <= |Encode(s + t)|
    ensures CutBytes(s + t, k) == CutBytes(s, k) + t
  {
    EncodeAppend(s, t);
    if s == [] {
      assert s + t == t;
    } else if k > 0 {
      var c, u, n := s[0], s[1..], |EncodeChar(s[0])|;
      assert s == [c] + u && s + t == [c] + (u + t);
      if n <= k { CutBefore(u, t, k - n); }
      CutBeforeStep(c, u, t, k);
    }
  }

  /** Cutting `k` bytes, at least those of `s`, from `s + t` is cutting the rest from `t`. */
  predicate CutsAfter(s: string, t: string, k: nat) {
    && |Encode(s)| <= k <= |Encode(s + t)| && k - |Encode(s)| <= |Encode(t)|
    && CutBytes(s + t, k) == CutBytes(t, k - |Encode(s)|)
  }

  lemma CutAfterStep(c: char, s: string, t: string, k: nat)
    requires |EncodeChar(c)| <= k && CutsAfter(s, t, k - |EncodeChar(c)|)
    ensures CutsAfter([c] + s, t, k)
  {
    Associate([c], s, t);
    EncodeCons(c, s);
    EncodeCons(c, s + t);
    CutCons(c, s + t, k);
  }

  lemma {:induction false} CutsAfterAll(s: string, t: string, k: nat)
    requires |Encode(s)| <= k <= |Encode(s)| + |Encode(t)|
    ensures CutsAfter(s, t, k)
  {
    if s == [] {
      NothingAdded(t);
    } else {
      ApartFirst(s);
      EncodeCons(s[0], s[1..]);
      CutsAfterAll(s[1..], t, k - |EncodeChar(s[0])|);
      CutAfterStep(s[0], s[1..], t, k);
    }
  }

  /** A cut that falls inside or after `s` only depends on what follows `s`. */
  lemma CutAfter(s: string, t: string, k: nat)
    requires |Encode(s)| <= k <= |Encode(s)| + |Encode(t)|
    ensures k <= |Encode(s + t)|
    ensures CutBytes(s + t, k) == CutBytes(t, k - |Encode(s)|)
  {
    CutsAfterAll(s, t, k);
  }

  /** A proper cut of `s` that stops before its last character `z` leaves some
      U+FFFD followed by a strict suffix of `s`. */
  lemma {:induction false} CutInside(s: string, k: nat) returns (j: nat, i: nat)
    requires 0 < k <= |Encode(s)|
    ensures 1 <= i <= |s|
    ensures CutBytes(s, k) == Replacements(j) + s[i..]
    ensures k < |Encode(s)| && s[|s| - 1] as int < 128 ==> i < |s|
  {
    var n := |EncodeChar(s[0])|;
    if n < k {
      j, i := CutInside(s[1..], k - n);
      assert s[1..][i..] == s[i + 1..];
      i := i + 1;
    } else {
      j, i := n - k, 1;
      assert Replacements(0) + s[1..] == s[1..];
      if n == k { assert CutBytes(s[1..], 0) == s[1..]; }
    }
  }
}
