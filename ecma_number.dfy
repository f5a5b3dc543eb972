/**
 * The two JavaScript number conversions the customer form relies on:
 * `parseInt(string, 10)` (ECMAScript, section 19.2.5 "parseInt ( string, radix )")
 * and `Number.prototype.toString()` on an integral value. A number is an `int`;
 * the NaN that `parseInt` can produce is None.
 */
module EcmaNumber {
  import opened Wrappers

  /** StrWhiteSpaceChar: the WhiteSpace and LineTerminator code points. */
  predicate IsStrWhiteSpace(c: char) {
    c == '\t' || c == '\U{B}' || c == '\U{C}' || c == '\U{FEFF}'
    // Unicode category Zs
    || c == ' ' || c == '\U{A0}' || c == '\U{1680}' || ('\U{2000}' <= c <= '\U{200A}')
    || c == '\U{202F}' || c == '\U{205F}' || c == '\U{3000}'
    // line terminators
    || c == '\n' || c == '\r' || c == '\U{2028}' || c == '\U{2029}'
  }

  predicate IsDigit(c: char) {
    '0' <= c <= '9'
  }

  function DigitValue(c: char): (v: nat)
    requires IsDigit(c)
    ensures v < 10
  {
    (c - '0') as nat
  }

  function DigitChar(v: nat): (c: char)
    requires v < 10
    ensures IsDigit(c) && DigitValue(c) == v
  {
    ('0' as int + v) as char
  }

  predicate AllDigits(s: string) {
    forall i :: 0 <= i < |s| ==> IsDigit(s[i])
  }

  /** How many white-space characters `s` starts with. */
  function LeadingWhiteSpace(s: string): (k: nat)
    ensures k <= |s|
    ensures forall i :: 0 <= i < k ==> IsStrWhiteSpace(s[i])
    ensures k == |s| || !IsStrWhiteSpace(s[k])
  {
    if s != [] && IsStrWhiteSpace(s[0]) then 1 + LeadingWhiteSpace(s[1..]) else 0
  }

  /** The string with its leading white space removed. */
  function TrimStart(s: string): (t: string) {
    s[LeadingWhiteSpace(s)..]
  }

  /** The longest prefix of `s` made of decimal digits. */
  function DigitPrefix(s: string): (r: string)
    ensures |r| <= |s|
    ensures AllDigits(r)
    ensures |r| == |s| || !IsDigit(s[|r|])
  {
    if s != [] && IsDigit(s[0]) then [s[0]] + DigitPrefix(s[1..]) else []
  }

  /** The mathematical value of a string of decimal digits, most significant first. */
  function DigitsValue(d: string): (v: nat)
    requires AllDigits(d)
  {
    if d == [] then 0 else DigitsValue(d[..|d| - 1]) * 10 + DigitValue(d[|d| - 1])
  }

  /**
   * True when, after the leading white space and at most one sign, `s`
   * continues with a decimal digit: the condition under which `parseInt`
   * does not give NaN.
   */
  predicate HasLeadingDigit(s: string) {
    var k := LeadingWhiteSpace(s);
    (k < |s| && IsDigit(s[k])) ||
    (k + 1 < |s| && (s[k] == '+' || s[k] == '-') && IsDigit(s[k + 1]))
  }

  /**
   * `parseInt(s, 10)`: skip leading white space, then read an optionally signed
   * run of digits. With radix 10 a `0x` prefix is not special, so "0x1A" reads as 0.
   * The result is NaN exactly when no digit follows the white space and the
   * optional sign ("abc", "x5", "+-5", "- 5"); a negative result needs a `-`.
   */
  function ParseInt(s: string): (r: Option<int>)
    ensures r.Some? <==> HasLeadingDigit(s)
    ensures r.Some? && r.value < 0 ==> s[LeadingWhiteSpace(s)] == '-'
  {
    ParseSigned(TrimStart(s))
  }

  /** Note a `-` sign, drop one `+` or `-`, and read the digits after it. */
  function ParseSigned(t: string): (r: Option<int>) {
    if t != [] && t[0] == '-' then Negate(ParseDigits(t[1..]))
    else if t != [] && t[0] == '+' then ParseDigits(t[1..])
    else ParseDigits(t)
  }

  /** The value of the longest run of leading digits; no digits gives NaN. */
  function ParseDigits(u: string): (r: Option<int>) {
    var digits := DigitPrefix(u);
    if digits == [] then None else Some(DigitsValue(digits))
  }

  function Negate(x: Option<int>): (r: Option<int>) {
    if x.Some? then Some(-x.value) else None
  }

  /** `x < k` for a number that may be NaN: every comparison with NaN is false. */
  predicate LessThan(x: Option<int>, k: int): (b: bool)
    ensures b ==> x.Some?
  {
    x.Some? && x.value < k
  }

  /** `x > k` for a number that may be NaN. */
  predicate GreaterThan(x: Option<int>, k: int): (b: bool)
    ensures b ==> x.Some?
  {
    x.Some? && x.value > k
  }

  /** The decimal digits of a natural number, without leading zeros. */
  function NatToString(n: nat): (s: string)
    ensures s != [] && AllDigits(s)
    ensures |s| > 1 ==> s[0] != '0'
  {
    if n < 10 then [DigitChar(n)] else NatToString(n / 10) + [DigitChar(n % 10)]
  }

  /** `n.toString()` for an integral number: its decimal digits, after a `-` when negative. */
  function NumberToString(n: int): (s: string)
    ensures n >= 0 ==> s != [] && AllDigits(s) && (|s| > 1 ==> s[0] != '0')
    ensures n < 0 ==> |s| >= 2 && s[0] == '-' && AllDigits(s[1..]) && s[1] != '0'
  {
    if n < 0 then "-" + NatToString(-n) else NatToString(n)
  }

  lemma {:induction false} NatToStringValue(n: nat)
    ensures DigitsValue(NatToString(n)) == n
  {
    var s := NatToString(n);
    if n >= 10 {
      NatToStringValue(n / 10);
      assert s[..|s| - 1] == NatToString(n / 10);
    }
  }

  /** A run of digits followed by text that does not start with a digit is read up to its end. */
  lemma {:induction false} DigitPrefixOfDigits(d: string, rest: string)
    requires AllDigits(d)
    requires rest == [] || !IsDigit(rest[0])
    ensures DigitPrefix(d + rest) == d
  {
    if d != [] {
      assert (d + rest)[1..] == d[1..] + rest;
      DigitPrefixOfDigits(d[1..], rest);
    }
  }

  /**
   * `parseInt` reads back what `toString` writes, whatever follows it, as long
   * as the text after it does not continue the digits ("20abc" reads as 20).
   */
  lemma ParseIntOfNumberToString(n: int, rest: string)
    requires rest == [] || !IsDigit(rest[0])
    ensures ParseInt(NumberToString(n) + rest) == Some(n)
  {
    var m: nat := if n < 0 then -n else n;
    var d := NatToString(m);
    var u := d + rest;
    NatToStringValue(m);
    ParseDigitsOfRun(d, rest);
    if n < 0 {
      ConcatAssoc("-", d, rest);
      ParseIntOfLeadingMinus(u);
    } else {
      assert u[0] == d[0];
      ParseIntOfLeadingDigit(u);
    }
  }

  lemma ConcatAssoc(a: string, b: string, c: string)
    ensures (a + b) + c == a + (b + c)
  {
  }

  /** A run of digits followed by a non-digit or nothing reads as its value. */
  lemma ParseDigitsOfRun(d: string, rest: string)
    requires d != [] && AllDigits(d)
    requires rest == [] || !IsDigit(rest[0])
    ensures ParseDigits(d + rest) == Some(DigitsValue(d))
  {
    DigitPrefixOfDigits(d, rest);
  }

  lemma ParseIntOfLeadingDigit(u: string)
    requires u != [] && IsDigit(u[0])
    ensures ParseInt(u) == ParseDigits(u)
  {
    TrimStartNoLeadingSpace(u);
  }

  lemma ParseIntOfLeadingMinus(u: string)
    ensures ParseInt("-" + u) == Negate(ParseDigits(u))
  {
    var v := "-" + u;
    assert v[0] == '-' && v[1..] == u;
    TrimStartNoLeadingSpace(v);
  }

  lemma TrimStartNoLeadingSpace(s: string)
    requires s != [] && (s[0] == '-' || IsDigit(s[0]))
    ensures TrimStart(s) == s
  {
    assert LeadingWhiteSpace(s) == 0;
  }

  lemma ParseIntOfLeadingPlus(u: string)
    ensures ParseInt("+" + u) == ParseDigits(u)
  {
    var v := "+" + u;
    assert v[0] == '+' && v[1..] == u;
    assert LeadingWhiteSpace(v) == 0;
  }

  /**
   * What `parseInt` reads: after the white space and at most one sign, the
   * run of digits up to the first non-digit, negated after a `-`.
   */
  lemma ParseIntValue(ws: string, sign: string, d: string, rest: string)
    requires forall i :: 0 <= i < |ws| ==> IsStrWhiteSpace(ws[i])
    requires sign == "" || sign == "+" || sign == "-"
    requires d != [] && AllDigits(d)
    requires rest == [] || !IsDigit(rest[0])
    ensures ParseInt(ws + sign + d + rest) ==
      Some(if sign == "-" then -(DigitsValue(d) as int) else DigitsValue(d) as int)
  {
    var t := sign + (d + rest);
    ConcatAssoc(ws + sign, d, rest);
    ConcatAssoc(ws, sign, d + rest);
    ParseIntSkipsWhiteSpace(ws, t);
    ParseIntOfSignedRun(sign, d, rest);
  }

  lemma ParseIntOfSignedRun(sign: string, d: string, rest: string)
    requires sign == "" || sign == "+" || sign == "-"
    requires d != [] && AllDigits(d)
    requires rest == [] || !IsDigit(rest[0])
    ensures ParseInt(sign + (d + rest)) ==
      Some(if sign == "-" then -(DigitsValue(d) as int) else DigitsValue(d) as int)
  {
    var u := d + rest;
    ParseDigitsOfRun(d, rest);
    if sign == "-" {
      ParseIntOfLeadingMinus(u);
    } else if sign == "+" {
      ParseIntOfLeadingPlus(u);
    } else {
      assert sign + u == u && u[0] == d[0];
      ParseIntOfLeadingDigit(u);
    }
  }

  /** The decimal text of a number reads back as that number. */
  lemma NumberToStringRoundTrip(n: int)
    ensures ParseInt(NumberToString(n)) == Some(n)
  {
    ParseIntOfNumberToString(n, []);
    assert NumberToString(n) + [] == NumberToString(n);
  }

  /** Leading white space does not change the result. */
  lemma ParseIntSkipsWhiteSpace(ws: string, s: string)
    requires forall i :: 0 <= i < |ws| ==> IsStrWhiteSpace(ws[i])
    ensures ParseInt(ws + s) == ParseInt(s)
  {
    TrimStartSkips(ws, s);
  }

  lemma {:induction false} TrimStartSkips(ws: string, s: string)
    requires forall i :: 0 <= i < |ws| ==> IsStrWhiteSpace(ws[i])
    ensures TrimStart(ws + s) == TrimStart(s)
  {
    LeadingWhiteSpaceSkips(ws, s);
    var k := LeadingWhiteSpace(s);
    assert (ws + s)[|ws| + k..] == s[k..];
  }

  lemma {:induction false} LeadingWhiteSpaceSkips(ws: string, s: string)
    requires forall i :: 0 <= i < |ws| ==> IsStrWhiteSpace(ws[i])
    ensures LeadingWhiteSpace(ws + s) == |ws| + LeadingWhiteSpace(s)
  {
    if ws == [] {
      assert ws + s == s;
    } else {
      var w := ws + s;
      assert w[0] == ws[0];
      assert w[1..] == ws[1..] + s;
      LeadingWhiteSpaceSkips(ws[1..], s);
    }
  }

  /** Text without any decimal digit is NaN ("abc", "", "-", " "). */
  lemma ParseIntWithoutDigits(s: string)
    requires forall i :: 0 <= i < |s| ==> !IsDigit(s[i])
    ensures ParseInt(s) == None
  {
  }

  /** NaN, and only NaN, is neither below nor above any bound. */
  lemma NaNIsIncomparable(x: Option<int>)
    ensures x.None? <==> forall k :: !LessThan(x, k) && !GreaterThan(x, k)
  {
    if x.Some? {
      assert LessThan(x, x.value + 1);
    }
  }
}
