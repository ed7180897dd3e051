/** The few pieces of JavaScript semantics the gateway relies on: optional
    values, JSON values, the `||` fallback on strings, the decimal form that a
    template literal gives an integral number, and the global `parseInt`. */
module Js {

  /** A value that may be `undefined`. */
  datatype Option<+T> = None | Some(value: T)

  /** The outcome of an awaited call: the resolved value, or a rejection. */
  datatype Outcome<+T> = Ok(value: T) | Err

  /** A JSON value after `JSON.parse`; an object keeps the last of duplicate
      keys, so it is a map. Numbers are integral in this model. */
  datatype Json =
    | JNull
    | JBool(b: bool)
    | JNumber(n: int)
    | JString(s: string)
    | JArray(items: seq<Json>)
    | JObject(fields: map<string, Json>)

  /** `a || b` where `a` is a possibly undefined string: the empty string and
      `undefined` are both falsy, so either gives `b`. */
  function OrElse(a: Option<string>, b: string): (r: string)
    ensures a.Some? && a.value != "" ==> r == a.value
    ensures a.None? || a.value == "" ==> r == b
  {
    if a.Some? && a.value != "" then a.value else b
  }

  /** `undefined || b` and `'' || b` both give `b`. */
  lemma EmptyIsAbsent(b: string)
    ensures OrElse(Some(""), b) == OrElse(None, b) == b
  {
  }

  // ---------------------------------------------------------------------
  // Decimal digits

  predicate IsDecimalDigit(c: char) {
    '0' <= c <= '9'
  }

  function DigitChar(d: nat): (c: char)
    requires d < 10
    ensures IsDecimalDigit(c) && c as int - '0' as int == d
  {
    ('0' as int + d) as char
  }

  /** The decimal digits of a natural number, most significant first. */
  function NaturalString(n: nat): (s: string)
    ensures |s| >= 1
    ensures forall i :: 0 <= i < |s| ==> IsDecimalDigit(s[i])
    ensures s[0] == '0' ==> n == 0
  {
    if n < 10 then [DigitChar(n)] else NaturalString(n / 10) + [DigitChar(n % 10)]
  }

  /** What `${n}` produces for an integral number `n`. */
  function NumberString(n: int): (s: string)
    ensures |s| >= 1
    ensures IsDecimalDigit(s[0]) || s[0] == '-'
    ensures s[0] == '-' <==> n < 0
    ensures s[0] == '0' ==> n == 0
  {
    if n < 0 then "-" + NaturalString(-n) else NaturalString(n)
  }

  /** A negative number is a minus sign followed by the canonical digits of
      its magnitude. */
  lemma NegativeNumberString(n: int)
    requires n < 0
    ensures NumberString(n)[1..] == NaturalString(-n)
  {
  }

  // ---------------------------------------------------------------------
  // parseInt(string) with no radix argument

  /** The result of `parseInt`: an integer or `NaN`. */
  datatype ParsedInt = Num(n: int) | NaN

  /** The characters `parseInt` skips at the start: white space and line
      terminators. */
  predicate IsWhiteSpace(c: char) {
    c in WhiteSpace
  }

  const WhiteSpace: set<char> := {'\t', '\U{B}', '\U{C}', ' ', '\U{A0}', '\U{FEFF}', '\n', '\r', '\U{2028}', '\U{2029}',
          '\U{1680}', '\U{2000}', '\U{2001}', '\U{2002}', '\U{2003}', '\U{2004}', '\U{2005}',
          '\U{2006}', '\U{2007}', '\U{2008}', '\U{2009}', '\U{200A}', '\U{202F}', '\U{205F}',
          '\U{3000}'}

  /** The string with its leading white space removed. */
  function TrimStart(s: string): (r: string)
    ensures |r| <= |s| && r == s[|s| - |r|..]
    ensures r == [] || !IsWhiteSpace(r[0])
    ensures forall i :: 0 <= i < |s| - |r| ==> IsWhiteSpace(s[i])
  {
    if s != [] && IsWhiteSpace(s[0]) then TrimStart(s[1..]) else s
  }

  /** The value of `c` as a digit in base `radix` (10 or 16), if it is one. */
  function DigitValue(c: char, radix: nat): (v: Option<nat>)
    ensures v.Some? ==> v.value < radix
  {
    if '0' <= c <= '9' && (c as int - '0' as int) < radix then Some(c as int - '0' as int)
    else if radix == 16 && 'a' <= c <= 'f' then Some(c as int - 'a' as int + 10)
    else if radix == 16 && 'A' <= c <= 'F' then Some(c as int - 'A' as int + 10)
    else None
  }

  /** The length of the longest prefix of `s` made of base-`radix` digits. */
  function DigitRun(s: string, radix: nat): (k: nat)
    ensures k <= |s|
    ensures forall i :: 0 <= i < k ==> DigitValue(s[i], radix).Some?
    ensures k < |s| ==> DigitValue(s[k], radix).None?
  {
    if s == [] || DigitValue(s[0], radix).None? then 0 else 1 + DigitRun(s[1..], radix)
  }

  /** The value of a string of base-`radix` digits, most significant first. */
  function DigitsValue(s: string, radix: nat): nat
    requires forall i :: 0 <= i < |s| ==> DigitValue(s[i], radix).Some?
  {
    if s == [] then 0
    else DigitsValue(s[..|s| - 1], radix) * radix + DigitValue(s[|s| - 1], radix).value
  }

  /** `parseInt(s)`: skip leading white space, take an optional sign, switch to
      base 16 after a `0x`/`0X` prefix, then read the longest run of digits;
      no digits gives `NaN`, trailing characters are ignored. */
  function ParseInt(s: string): ParsedInt {
    ParseSigned(TrimStart(s))
  }

  function ParseSigned(t: string): ParsedInt {
    if |t| > 0 && t[0] == '-' then Negate(ParseUnsigned(t[1..]))
    else if |t| > 0 && t[0] == '+' then ParseUnsigned(t[1..])
    else ParseUnsigned(t)
  }

  function Negate(p: ParsedInt): ParsedInt {
    match p
    case Num(n) => Num(-n)
    case NaN => NaN
  }

  predicate HasHexPrefix(u: string) {
    |u| >= 2 && u[0] == '0' && (u[1] == 'x' || u[1] == 'X')
  }

  function ParseUnsigned(u: string): ParsedInt {
    if HasHexPrefix(u) then ParseDigits(u[2..], 16) else ParseDigits(u, 10)
  }

  function ParseDigits(w: string, radix: nat): ParsedInt {
    var k := DigitRun(w, radix);
    if k == 0 then NaN else Num(DigitsValue(w[..k], radix))
  }

  lemma {:induction false} NaturalStringValue(n: nat)
    ensures DigitsValue(NaturalString(n), 10) == n
  {
    var s := NaturalString(n);
    if n >= 10 {
      NaturalStringValue(n / 10);
      assert s[..|s| - 1] == NaturalString(n / 10);
    }
  }

  /** The digit run of digits followed by a non-digit is exactly those digits. */
  lemma {:induction false} DigitRunPrefix(d: string, rest: string, radix: nat)
    requires forall i :: 0 <= i < |d| ==> DigitValue(d[i], radix).Some?
    requires rest == [] || DigitValue(rest[0], radix).None?
    ensures DigitRun(d + rest, radix) == |d|
  {
    if d != [] {
      assert (d + rest)[1..] == d[1..] + rest;
      DigitRunPrefix(d[1..], rest, radix);
    } else if rest != [] {
      assert (d + rest)[0] == rest[0];
    }
  }

  lemma ParseNaturalString(m: nat, rest: string)
    requires rest == [] || (!IsDecimalDigit(rest[0]) && rest[0] != 'x' && rest[0] != 'X')
    ensures ParseUnsigned(NaturalString(m) + rest) == Num(m)
  {
    var d := NaturalString(m);
    var u := d + rest;
    assert !HasHexPrefix(u) by {
      if |u| >= 2 && |d| < 2 { assert u[1] == rest[0]; }
      if |d| >= 2 { assert u[1] == d[1]; }
    }
    DigitRunPrefix(d, rest, 10);
    assert u[..|d|] == d;
    NaturalStringValue(m);
  }

  /** Reading back the decimal form of any integer gives that integer, also
      when other non-digit text follows it (`parseInt('3000abc')` is 3000). An
      `x` right after the digits is excluded: `parseInt('0x1F')` reads hex. */
  lemma ParseNumberString(n: int, rest: string)
    requires rest == [] || (!IsDecimalDigit(rest[0]) && rest[0] != 'x' && rest[0] != 'X')
    ensures ParseInt(NumberString(n) + rest) == Num(n)
  {
    if n < 0 {
      var d := NaturalString(-n);
      assert NumberString(n) + rest == "-" + d + rest;
      ParseNegative(-n, rest);
    } else {
      assert NumberString(n) == NaturalString(n);
      ParseNonNegative(n, rest);
    }
  }

  lemma ParseNegative(m: nat, rest: string)
    requires rest == [] || (!IsDecimalDigit(rest[0]) && rest[0] != 'x' && rest[0] != 'X')
    ensures ParseInt("-" + NaturalString(m) + rest) == Num(0 - m)
  {
    var u := NaturalString(m) + rest;
    var s := "-" + NaturalString(m) + rest;
    assert s == ['-'] + u;
    TrimStartKeeps(s);
    ParseNaturalString(m, rest);
    assert s[1..] == u;
  }

  lemma ParseNonNegative(n: nat, rest: string)
    requires rest == [] || (!IsDecimalDigit(rest[0]) && rest[0] != 'x' && rest[0] != 'X')
    ensures ParseInt(NaturalString(n) + rest) == Num(n)
  {
    var d := NaturalString(n);
    var s := d + rest;
    assert s[0] == d[0];
    TrimStartKeeps(s);
    ParseNaturalString(n, rest);
  }

  lemma TrimStartKeeps(s: string)
    requires s != [] && (IsDecimalDigit(s[0]) || s[0] == '-')
    ensures TrimStart(s) == s
  {
    assert !IsWhiteSpace(s[0]);
  }

  /** Distinct integers have distinct decimal forms. */
  lemma NumberStringInjective(a: int, b: int)
    ensures NumberString(a) == NumberString(b) ==> a == b
  {
    if NumberString(a) == NumberString(b) {
      ParseNumberString(a, []);
      ParseNumberString(b, []);
      assert NumberString(a) + [] == NumberString(a);
      assert NumberString(b) + [] == NumberString(b);
    }
  }

  /** `parseInt` reads a `0x` literal in base 16: the longest run of hex
      digits after the prefix, whatever follows it. */
  lemma ParseHexLiteral(h: string, rest: string)
    requires |h| >= 1 && forall i :: 0 <= i < |h| ==> DigitValue(h[i], 16).Some?
    requires rest == [] || DigitValue(rest[0], 16).None?
    ensures ParseInt("0x" + h + rest) == Num(DigitsValue(h, 16))
  {
    var u := h + rest;
    assert "0x" + h + rest == "0x" + u;
    HexPrefix(u);
    DigitRunPrefix(h, rest, 16);
    assert u[..|h|] == h;
  }

  lemma HexPrefix(u: string)
    ensures ParseInt("0x" + u) == ParseDigits(u, 16)
  {
    var t := "0x" + u;
    assert t[0] == '0';
    TrimStartKeeps(t);
    assert t[1] == 'x' && t[2..] == u;
  }

  /** `parseInt('0x1F')` is 31. */
  lemma ParseHexExample()
    ensures ParseInt("0x1F") == Num(31)
  {
    var h := "1F";
    assert DigitValue(h[0], 16) == Some(1) && DigitValue(h[1], 16) == Some(15);
    ParseHexLiteral(h, []);
    assert "0x" + h + [] == "0x1F";
    assert DigitsValue(h, 16) == 31 by {
      assert h[..1] == "1" && h[..1][..0] == "";
    }
  }

  /** Leading white space of any length and kind does not change what
      `parseInt` reads. */
  lemma ParseSkipsWhiteSpace(w: string, s: string)
    requires forall i :: 0 <= i < |w| ==> IsWhiteSpace(w[i])
    ensures ParseInt(w + s) == ParseInt(s)
  {
    TrimWhiteSpacePrefix(w, s);
    TrimStartIdempotent(s);
  }

  lemma {:induction false} TrimWhiteSpacePrefix(w: string, s: string)
    requires forall i :: 0 <= i < |w| ==> IsWhiteSpace(w[i])
    ensures TrimStart(w + s) == TrimStart(s)
  {
    if w == [] {
      assert w + s == s;
    } else {
      assert (w + s)[0] == w[0];
      assert (w + s)[1..] == w[1..] + s;
      TrimWhiteSpacePrefix(w[1..], s);
    }
  }

  lemma TrimStartIdempotent(s: string)
    ensures TrimStart(TrimStart(s)) == TrimStart(s)
  {
  }

  /** `parseInt('  8080')` is 8080. */
  lemma ParseSpacesExample()
    ensures ParseInt("  8080") == Num(8080)
  {
    var d: string := "8080";
    assert "  8080" == "  " + d;
    ParseSkipsWhiteSpace("  ", d);
    DecimalForm8080();
    ParseNumberString(8080, []);
    assert NumberString(8080) + [] == d;
  }

  lemma DecimalForm8080()
    ensures NumberString(8080) == "8080"
  {
    assert NaturalString(8) == "8";
    assert NaturalString(80) == "8" + "0";
    assert NaturalString(808) == "80" + "8";
  }

  /** What follows the leading white space and an optional sign. */
  function Magnitude(s: string): (u: string)
    ensures |u| <= |s| && u == s[|s| - |u|..]
  {
    var t := TrimStart(s);
    if |t| > 0 && (t[0] == '-' || t[0] == '+') then t[1..] else t
  }

  /** Text whose first character after white space and sign is not a decimal
      digit parses to `NaN`: a `0x` prefix needs a `0`, and no decimal
      digits start the run. */
  lemma ParseNoLeadingDigit(s: string)
    requires Magnitude(s) == [] || !IsDecimalDigit(Magnitude(s)[0])
    ensures ParseInt(s) == NaN
  {
    var u := Magnitude(s);
    assert ParseUnsigned(u) == NaN by {
      assert !HasHexPrefix(u);
      assert DigitRun(u, 10) == 0;
    }
  }

  /** Text without any decimal digit parses to `NaN`. */
  lemma ParseNoDigits(s: string)
    requires forall i :: 0 <= i < |s| ==> !IsDecimalDigit(s[i])
    ensures ParseInt(s) == NaN
  {
    var u := Magnitude(s);
    if u != [] {
      assert u[0] == s[|s| - |u|];
    }
    ParseNoLeadingDigit(s);
  }

  /** `parseInt('abc')` and `parseInt('')` are `NaN`. */
  lemma ParseNoDigitsExample()
    ensures ParseInt("abc") == NaN
    ensures ParseInt("") == NaN
  {
    var t := "abc";
    assert !IsWhiteSpace(t[0]) && TrimStart(t) == t;
    assert Magnitude(t) == t;
    ParseNoLeadingDigit(t);
    ParseNoDigits("");
  }

  // ---------------------------------------------------------------------
  // Substrings

  /** `s.includes(sub)`. */
  ghost predicate Contains(s: string, sub: string) {
    exists k :: OccursAt(s, sub, k)
  }

  predicate OccursAt(s: string, sub: string, k: int) {
    0 <= k && k + |sub| <= |s| && s[k..k + |sub|] == sub
  }

  lemma ContainsSuffix(prefix: string, sub: string)
    ensures Contains(prefix + sub, sub)
  {
    var s := prefix + sub;
    assert OccursAt(s, sub, |prefix|);
  }
}
