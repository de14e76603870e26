/**
 * The few JavaScript built-ins whose exact behaviour the game relies on:
 * `Number.prototype.toString` for the integers and thousandths that cards carry,
 * `parseInt` with no radix, `String.prototype.padStart(2, '0')` and
 * `Array.prototype.slice(0, end)` with a possibly negative end.
 */
module JsBuiltins {
  import opened Optional

  predicate IsDigit(c: char) { '0' <= c <= '9' }

  function DigitChar(d: nat): (c: char)
    requires d < 10
    ensures IsDigit(c) && c as int - '0' as int == d
  {
    ['0', '1', '2', '3', '4', '5', '6', '7', '8', '9'][d]
  }

  function DigitOf(c: char): (d: nat)
    requires IsDigit(c)
    ensures d < 10 && DigitChar(d) == c
  {
    c as int - '0' as int
  }

  predicate AllDigits(s: string) { forall i :: 0 <= i < |s| ==> IsDigit(s[i]) }

  /** The decimal numeral of `n`, as `n.toString()` prints it. */
  function NatStr(n: nat): (s: string)
    ensures |s| >= 1 && AllDigits(s)
    ensures s[0] == '0' ==> n == 0 && s == "0"
    decreases n
  {
    if n < 10 then [DigitChar(n)] else NatStr(n / 10) + [DigitChar(n % 10)]
  }

  /** The value of a string of decimal digits, read most significant first. */
  function DecimalValue(s: string): nat
    requires AllDigits(s)
  {
    if s == [] then 0 else DecimalValue(s[..|s| - 1]) * 10 + DigitOf(s[|s| - 1])
  }

  lemma {:induction false} NatStrRoundTrip(n: nat)
    ensures DecimalValue(NatStr(n)) == n
    decreases n
  {
    if n >= 10 {
      var s := NatStr(n);
      assert s[..|s| - 1] == NatStr(n / 10);
      NatStrRoundTrip(n / 10);
    }
  }

  /** `n.toString()` for an integer `n`. */
  function IntStr(n: int): (s: string)
    ensures |s| >= 1
    ensures n < 0 <==> s[0] == '-'
  {
    if n < 0 then "-" + NatStr(-n) else NatStr(n)
  }

  /** The fraction digits of `f` thousandths, `0 < f < 1000`, without trailing zeros. */
  function FractionDigits(f: nat): (s: string)
    requires 0 < f < 1000
    ensures 1 <= |s| <= 3 && AllDigits(s) && s[|s| - 1] != '0'
  {
    if f % 100 == 0 then [DigitChar(f / 100)]
    else if f % 10 == 0 then [DigitChar(f / 100), DigitChar(f / 10 % 10)]
    else [DigitChar(f / 100), DigitChar(f / 10 % 10), DigitChar(f % 10)]
  }

  /**
   * The numeral of `a` thousandths, `a >= 0`: the integer part, then a point and
   * the fraction digits without trailing zeros when the value is not whole.
   */
  function MagnitudeStr(a: nat): (s: string)
    ensures |s| >= 1 && IsDigit(s[0])
  {
    if a % 1000 == 0 then NatStr(a / 1000)
    else NatStr(a / 1000) + "." + FractionDigits(a % 1000)
  }

  /**
   * `(m / 1000).toString()` for an integer number `m` of thousandths. This is
   * JavaScript's shortest round-trip rendering for every magnitude below 1e21,
   * which covers every value a card can carry.
   */
  function MilliStr(m: int): (s: string)
    ensures |s| >= 1
    ensures m < 0 <==> s[0] == '-'
  {
    (if m < 0 then "-" else "") + MagnitudeStr(if m < 0 then -m else m)
  }

  /** On whole numbers `MilliStr` prints as the integer does. */
  lemma MilliStrOfInteger(k: int)
    ensures MilliStr(k * 1000) == IntStr(k)
  {
    var j: nat := if k < 0 then -k else k;
    assert (if k * 1000 < 0 then -(k * 1000) else k * 1000) == j * 1000;
    assert (j * 1000) % 1000 == 0 && (j * 1000) / 1000 == j;
  }

  function Pow10(k: nat): nat { if k == 0 then 1 else 10 * Pow10(k - 1) }

  /** Thousandths written by one to three fraction digits: "5" is 500, "05" is 50. */
  function FractionValue(fp: string): nat
    requires AllDigits(fp) && |fp| <= 3
  {
    DecimalValue(fp) * Pow10(3 - |fp|)
  }

  /** Characters that may follow a printed number without extending it. */
  predicate EndsNumber(rest: string) { rest == [] || (!IsDigit(rest[0]) && rest[0] != '.') }

  /** Reads the integer digits and at most three fraction digits, in thousandths. */
  function ParseMagnitude(t: string): (r: Option<(nat, string)>)
    ensures r.Some? ==> |r.value.1| < |t|
  {
    var ip := DigitRun(t);
    if ip == [] then None
    else ParseFraction(DecimalValue(ip), t[|ip|..])
  }

  /** Reads the optional `.` and fraction digits after the integer digits `whole`. */
  function ParseFraction(whole: nat, rest: string): (r: Option<(nat, string)>)
    ensures r.Some? ==> |r.value.1| <= |rest|
  {
    if rest != [] && rest[0] == '.' then
      var fp := DigitRun(rest[1..]);
      if fp == [] || |fp| > 3 then None
      else Some((whole * 1000 + FractionValue(fp), rest[1 + |fp|..]))
    else Some((whole * 1000, rest))
  }

  /** Reads a number printed by `MilliStr`: an optional minus, then the magnitude. */
  function ParseMilli(s: string): (r: Option<(int, string)>)
    ensures r.Some? ==> |r.value.1| < |s|
  {
    if s != [] && s[0] == '-' then
      match ParseMagnitude(s[1..])
      case None => None
      case Some((a, rest)) => Some((-(a as int), rest))
    else
      match ParseMagnitude(s)
      case None => None
      case Some((a, rest)) => Some((a as int, rest))
  }

  lemma DecimalValueOfDigits(x: nat, y: nat, z: nat)
    requires x < 10 && y < 10 && z < 10
    ensures DecimalValue([DigitChar(x)]) == x
    ensures DecimalValue([DigitChar(x), DigitChar(y)]) == 10 * x + y
    ensures DecimalValue([DigitChar(x), DigitChar(y), DigitChar(z)]) == 100 * x + 10 * y + z
  {
    var s3 := [DigitChar(x), DigitChar(y), DigitChar(z)];
    var s2 := [DigitChar(x), DigitChar(y)];
    var s1 := [DigitChar(x)];
    assert s3[..2] == s2 && s2[..1] == s1 && s1[..0] == [];
  }

  /** The fraction digits `MilliStr` prints read back to the thousandths they came from. */
  lemma FractionRoundTrip(f: nat)
    requires 0 < f < 1000
    ensures FractionValue(FractionDigits(f)) == f
  {
    var a, b, c := f / 100, f / 10 % 10, f % 10;
    assert f == 100 * a + 10 * b + c;
    DecimalValueOfDigits(a, b, c);
    if f % 100 == 0 {
      assert b == 0 && c == 0;
      assert Pow10(2) == 100;
    } else if f % 10 == 0 {
      assert c == 0;
      assert Pow10(1) == 10;
    }
  }

  /** The integer digits are read up to the first character that is not a digit. */
  lemma IntegerPartParse(ipart: string, tail: string)
    requires |ipart| >= 1 && AllDigits(ipart) && (tail == [] || !IsDigit(tail[0]))
    ensures ParseMagnitude(ipart + tail) == ParseFraction(DecimalValue(ipart), tail)
  {
    DigitRunOfNumeral(ipart, tail);
    assert (ipart + tail)[|ipart|..] == tail;
  }

  lemma FractionPartParse(whole: nat, fr: string, rest: string)
    requires 1 <= |fr| <= 3 && AllDigits(fr) && EndsNumber(rest)
    ensures ParseFraction(whole, "." + (fr + rest)) == Some((whole * 1000 + FractionValue(fr), rest))
  {
    var t := "." + (fr + rest);
    assert t[1..] == fr + rest;
    DigitRunOfNumeral(fr, rest);
    assert t[1 + |fr|..] == rest;
  }

  /** Regrouping four pieces of text. */
  lemma Regroup(a: string, b: string, c: string, d: string)
    ensures a + b + c + d == a + (b + (c + d))
  {
  }

  lemma WholeRoundTrip(k: nat, rest: string)
    requires EndsNumber(rest)
    ensures ParseMagnitude(NatStr(k) + rest) == Some((k * 1000, rest))
  {
    NatStrRoundTrip(k);
    IntegerPartParse(NatStr(k), rest);
  }

  lemma FractionalRoundTrip(k: nat, f: nat, rest: string)
    requires 0 < f < 1000 && EndsNumber(rest)
    ensures ParseMagnitude(NatStr(k) + "." + FractionDigits(f) + rest) == Some((k * 1000 + f, rest))
  {
    var ipart, fr := NatStr(k), FractionDigits(f);
    Regroup(ipart, ".", fr, rest);
    NatStrRoundTrip(k);
    FractionRoundTrip(f);
    IntegerPartParse(ipart, "." + (fr + rest));
    FractionPartParse(k, fr, rest);
  }

  lemma MagnitudeRoundTrip(a: nat, rest: string)
    requires EndsNumber(rest)
    ensures ParseMagnitude(MagnitudeStr(a) + rest) == Some((a, rest))
  {
    assert a == a / 1000 * 1000 + a % 1000;
    if a % 1000 == 0 {
      assert MagnitudeStr(a) == NatStr(a / 1000);
      WholeRoundTrip(a / 1000, rest);
    } else {
      assert MagnitudeStr(a) == NatStr(a / 1000) + "." + FractionDigits(a % 1000);
      FractionalRoundTrip(a / 1000, a % 1000, rest);
    }
  }

  lemma NegatedParse(minus: string, t: string, a: nat, rest: string)
    requires minus == "-"
    requires ParseMagnitude(t) == Some((a, rest))
    ensures ParseMilli(minus + t) == Some((-(a as int), rest))
  {
    assert (minus + t)[0] == '-';
    assert (minus + t)[1..] == t;
  }

  lemma UnsignedParse(t: string, a: nat, rest: string)
    requires |t| >= 1 && IsDigit(t[0])
    requires ParseMagnitude(t) == Some((a, rest))
    ensures ParseMilli(t) == Some((a as int, rest))
  {
  }

  /** `ParseMilli` reads back what `MilliStr` prints, leaving the rest of the text. */
  lemma MilliRoundTrip(m: int, rest: string)
    requires EndsNumber(rest)
    ensures ParseMilli(MilliStr(m) + rest) == Some((m, rest))
  {
    var a: nat := if m < 0 then -m else m;
    var u := MagnitudeStr(a);
    MagnitudeRoundTrip(a, rest);
    if m < 0 {
      var minus := "-";
      assert MilliStr(m) == minus + u;
      Associate(minus, u, rest);
      NegatedParse(minus, u + rest, a, rest);
    } else {
      assert MilliStr(m) == u;
      UnsignedParse(u + rest, a, rest);
    }
  }

  lemma Associate(a: string, b: string, c: string)
    ensures a + b + c == a + (b + c)
  {
  }

  /** The characters `parseInt` skips before the numeral (white space and line terminators). */
  predicate IsJsSpace(c: char) {
    c == ' ' || c == '\t' || c == '\n' || c == '\r' || c == '\U{000B}' || c == '\U{000C}'
    || c == '\U{00A0}' || c == '\U{1680}' || ('\U{2000}' <= c <= '\U{200A}')
    || c == '\U{2028}' || c == '\U{2029}' || c == '\U{202F}' || c == '\U{205F}'
    || c == '\U{3000}' || c == '\U{FEFF}'
  }

  function SkipSpace(s: string): (r: string)
    ensures |r| <= |s| && r == s[|s| - |r|..]
    ensures r != [] ==> !IsJsSpace(r[0])
  {
    if s != [] && IsJsSpace(s[0]) then SkipSpace(s[1..]) else s
  }

  predicate IsHexDigit(c: char) { IsDigit(c) || 'a' <= c <= 'f' || 'A' <= c <= 'F' }

  function HexDigitOf(c: char): (d: nat)
    requires IsHexDigit(c)
    ensures d < 16
  {
    if IsDigit(c) then DigitOf(c)
    else if 'a' <= c <= 'f' then c as int - 'a' as int + 10
    else c as int - 'A' as int + 10
  }

  /** The longest prefix of `s` made of decimal digits. */
  function DigitRun(s: string): (r: string)
    ensures r <= s && AllDigits(r)
    ensures |r| < |s| ==> !IsDigit(s[|r|])
  {
    if s != [] && IsDigit(s[0]) then [s[0]] + DigitRun(s[1..]) else []
  }

  /** The longest prefix of `s` made of hexadecimal digits. */
  function HexRun(s: string): (r: string)
    ensures r <= s && forall i :: 0 <= i < |r| ==> IsHexDigit(r[i])
  {
    if s != [] && IsHexDigit(s[0]) then [s[0]] + HexRun(s[1..]) else []
  }

  function HexValue(s: string): nat
    requires forall i :: 0 <= i < |s| ==> IsHexDigit(s[i])
  {
    if s == [] then 0 else HexValue(s[..|s| - 1]) * 16 + HexDigitOf(s[|s| - 1])
  }

  /**
   * `parseInt(s)` with no radix: leading white space is skipped, one sign is
   * read, a `0x`/`0X` prefix selects base 16, and the longest run of digits that
   * follows is the value; `None` stands for `NaN` (no digit at all).
   */
  function ParseInt(s: string): (r: Option<int>)
  {
    var t := SkipSpace(s);
    var negative := t != [] && t[0] == '-';
    var u := if t != [] && (t[0] == '-' || t[0] == '+') then t[1..] else t;
    match Magnitude(u)
    case None => None
    case Some(v) => Some(if negative then -(v as int) else v as int)
  }

  /** The unsigned part of `parseInt`: a `0x`/`0X` prefix selects base 16. */
  function Magnitude(u: string): Option<nat> {
    var hex := |u| >= 2 && u[0] == '0' && (u[1] == 'x' || u[1] == 'X');
    if hex then
      var d := HexRun(u[2..]);
      if d == [] then None else Some(HexValue(d))
    else
      var d := DigitRun(u);
      if d == [] then None else Some(DecimalValue(d))
  }

  lemma DigitRunOfNumeral(s: string, rest: string)
    requires AllDigits(s)
    requires rest == [] || !IsDigit(rest[0])
    ensures DigitRun(s + rest) == s
  {
    if s != [] {
      assert (s + rest)[1..] == s[1..] + rest;
      DigitRunOfNumeral(s[1..], rest);
    }
  }

  /** `parseInt` reads back what `toString` prints. */
  lemma ParseIntStr(n: int)
    ensures ParseInt(IntStr(n)) == Some(n)
  {
    if n < 0 {
      ParseIntNegativeStr(n);
    } else {
      assert IntStr(n) == NatStr(n);
      NatStrRoundTrip(n);
      ParseIntNumeral(NatStr(n), n);
    }
  }

  lemma ParseIntNegativeStr(n: int)
    requires n < 0
    ensures ParseInt(IntStr(n)) == Some(n)
  {
    MagnitudeOfNatStr(-n);
    ParseIntMinus("-", NatStr(-n), -n);
  }

  lemma MagnitudeOfNatStr(m: nat)
    ensures Magnitude(NatStr(m)) == Some(m)
  {
    NatStrRoundTrip(m);
    MagnitudeOfNumeral(NatStr(m), m);
  }

  /** A numeral is read by `Magnitude` as its decimal value. */
  lemma MagnitudeOfNumeral(u: string, v: nat)
    requires |u| >= 1 && AllDigits(u) && DecimalValue(u) == v
    ensures Magnitude(u) == Some(v)
  {
    NotHex(u);
    DigitRunOfNumeral(u, []);
    assert u + [] == u;
  }

  /** A numeral without sign or prefix is read as its decimal value. */
  lemma ParseIntNumeral(u: string, v: nat)
    requires |u| >= 1 && AllDigits(u) && DecimalValue(u) == v
    ensures ParseInt(u) == Some(v)
  {
    assert IsDigit(u[0]);
    MagnitudeOfNumeral(u, v);
    ParseIntUnsigned(u, v);
  }

  lemma ParseIntUnsigned(u: string, v: nat)
    requires |u| >= 1 && !IsJsSpace(u[0]) && u[0] != '-' && u[0] != '+'
    requires Magnitude(u) == Some(v)
    ensures ParseInt(u) == Some(v)
  {
    assert SkipSpace(u) == u;
  }

  lemma NotHex(u: string)
    requires AllDigits(u)
    ensures !(|u| >= 2 && u[0] == '0' && (u[1] == 'x' || u[1] == 'X'))
  {
    if |u| >= 2 {
      assert IsDigit(u[1]);
    }
  }

  /** A minus sign in front of a numeral negates its value. */
  lemma ParseIntNegatedNumeral(s: string, v: nat)
    requires |s| >= 2 && s[0] == '-' && AllDigits(s[1..]) && DecimalValue(s[1..]) == v
    ensures ParseInt(s) == Some(-(v as int))
  {
    MagnitudeOfNumeral(s[1..], v);
    ParseIntNegated(s, v);
  }

  lemma ParseIntMinus(minus: string, t: string, v: nat)
    requires minus == "-" && Magnitude(t) == Some(v)
    ensures ParseInt(minus + t) == Some(-(v as int))
  {
    var s := minus + t;
    assert s[0] == '-' && s[1..] == t;
    ParseIntNegated(s, v);
  }

  lemma ParseIntNegated(s: string, v: nat)
    requires |s| >= 1 && s[0] == '-' && Magnitude(s[1..]) == Some(v)
    ensures ParseInt(s) == Some(-(v as int))
  {
    assert SkipSpace(s) == s;
  }

  /** `s.padStart(2, '0')`. */
  function PadStart2(s: string): (r: string)
    ensures |r| == if |s| >= 2 then |s| else 2
    ensures r[|r| - |s|..] == s
  {
    if |s| >= 2 then s else seq(2 - |s|, _ => '0') + s
  }

  /** `s.slice(0, end)`: a negative `end` counts back from the end of `s`. */
  function SlicePrefix<T>(s: seq<T>, end: int): (r: seq<T>)
    ensures r <= s
    ensures end >= 0 ==> |r| == if end < |s| then end else |s|
    ensures end < 0 ==> |r| == if |s| + end > 0 then |s| + end else 0
  {
    var k := if end >= 0 then (if end < |s| then end else |s|)
             else (if |s| + end > 0 then |s| + end else 0);
    s[..k]
  }
}
