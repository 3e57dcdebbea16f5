/** `Number.parseInt(string)` called without a radix, as ECMAScript defines it
    (section 19.2.5 of ECMA-262, "parseInt ( string, radix )", which section
    21.1.2.13, "Number.parseInt ( string, radix )", refers to): skip leading
    white space, read an optional sign, read a `0x`/`0X` prefix as radix 16
    (radix 10 otherwise), then take the longest run of digits of that radix;
    no digits means `NaN`, which the model writes `None`. The result is an
    exact integer: the rounding of long digit runs to a double is not modelled. */
module JsNumber {

  import opened Wrappers

  /** ECMAScript's StrWhiteSpaceChar: the WhiteSpace code points (TAB, VT, FF,
      ZWNBSP and the Unicode "Zs" category) and the LineTerminator ones. */
  predicate IsStrWhiteSpace(c: char) {
    var n := c as int;
    n == 0x09 || n == 0x0B || n == 0x0C || n == 0xFEFF
    || n == 0x20 || n == 0xA0 || n == 0x1680 || (0x2000 <= n <= 0x200A)
    || n == 0x202F || n == 0x205F || n == 0x3000
    || n == 0x0A || n == 0x0D || n == 0x2028 || n == 0x2029
  }

  /** The string with its leading white space removed. */
  function TrimStart(s: string): string {
    if s != [] && IsStrWhiteSpace(s[0]) then TrimStart(s[1..]) else s
  }

  /** What `TrimStart` removes is a prefix of white space, and what it keeps
      does not start with white space. */
  lemma {:induction false} TrimStartSpec(s: string)
    ensures var r := TrimStart(s);
      && |r| <= |s| && r == s[|s| - |r|..]
      && (forall i :: 0 <= i < |s| - |r| ==> IsStrWhiteSpace(s[i]))
      && (r == [] || !IsStrWhiteSpace(r[0]))
  {
    if s != [] && IsStrWhiteSpace(s[0]) {
      TrimStartSpec(s[1..]);
      var r := TrimStart(s);
      assert r == TrimStart(s[1..]);
      forall i | 1 <= i < |s| - |r| ensures IsStrWhiteSpace(s[i]) {
        assert s[i] == s[1..][i - 1];
      }
      assert s[1..][|s| - 1 - |r|..] == s[|s| - |r|..];
    }
  }

  /** The value of a digit character in radixes up to 36 (`0`-`9`, then the
      letters in either case), `None` for any other character. */
  function DigitValue(c: char): (v: Option<nat>)
    ensures v.Some? ==> v.value < 36
  {
    if '0' <= c <= '9' then Some(c as int - '0' as int)
    else if 'a' <= c <= 'z' then Some(c as int - 'a' as int + 10)
    else if 'A' <= c <= 'Z' then Some(c as int - 'A' as int + 10)
    else None
  }

  predicate IsRadixDigit(c: char, radix: nat) {
    DigitValue(c).Some? && DigitValue(c).value < radix
  }

  predicate AllRadixDigits(ds: string, radix: nat) {
    forall i :: 0 <= i < |ds| ==> IsRadixDigit(ds[i], radix)
  }

  /** The longest prefix of `s` made of digits of the radix. */
  function LeadingDigits(s: string, radix: nat): (r: string)
    ensures |r| <= |s| && AllRadixDigits(r, radix)
  {
    if s != [] && IsRadixDigit(s[0], radix) then [s[0]] + LeadingDigits(s[1..], radix) else []
  }

  /** `LeadingDigits` is the longest prefix made of digits: it is a prefix, and
      the character after it, if any, is not a digit. */
  lemma {:induction false} LeadingDigitsSpec(s: string, radix: nat)
    ensures var r := LeadingDigits(s, radix);
      r == s[..|r|] && (|r| == |s| || !IsRadixDigit(s[|r|], radix))
  {
    if s != [] && IsRadixDigit(s[0], radix) {
      LeadingDigitsSpec(s[1..], radix);
      var r := LeadingDigits(s, radix);
      assert r == [s[0]] + LeadingDigits(s[1..], radix);
      assert s[1..][..|r| - 1] == s[1..|r|];
      if |r| < |s| { assert s[|r|] == s[1..][|r| - 1]; }
    }
  }

  /** The number a run of digits denotes, most significant digit first. */
  function DigitsValue(ds: string, radix: nat): nat
    requires AllRadixDigits(ds, radix)
  {
    if ds == [] then 0
    else DigitsValue(ds[..|ds| - 1], radix) * radix + DigitValue(ds[|ds| - 1]).value
  }

  predicate HasHexPrefix(s: string) {
    |s| >= 2 && s[0] == '0' && (s[1] == 'x' || s[1] == 'X')
  }

  /** The sign a leading `-` or `+` gives (positive when there is none). */
  function SignOf(t: string): int {
    if t != [] && t[0] == '-' then -1 else 1
  }

  /** The string without its leading sign, if it has one. */
  function DropSign(t: string): string {
    if t != [] && (t[0] == '+' || t[0] == '-') then t[1..] else t
  }

  /** The value of the digits of the radix that `v` starts with; `None` when
      it does not start with one. */
  function ParseDigits(v: string, radix: nat): Option<nat> {
    var ds := LeadingDigits(v, radix);
    if ds == [] then None else Some(DigitsValue(ds, radix))
  }

  /** The unsigned part of `parseInt`: radix 16 after a `0x`/`0X` prefix,
      radix 10 otherwise. */
  function ParseUnsigned(u: string): Option<nat> {
    if HasHexPrefix(u) then ParseDigits(u[2..], 16) else ParseDigits(u, 10)
  }

  /** `Number.parseInt(s)`; `None` stands for `NaN`. */
  function ParseInt(s: string): Option<int> {
    var t := TrimStart(s);
    match ParseUnsigned(DropSign(t))
    case None => None
    case Some(v) => Some(SignOf(t) * v)
  }

  /** The character of a decimal digit. */
  function DecimalDigit(d: nat): (c: char)
    requires d < 10
    ensures IsRadixDigit(c, 10) && DigitValue(c) == Some(d)
  {
    ('0' as int + d) as char
  }

  /** The decimal numeral of a natural number, without leading zeros. */
  function DecimalString(n: nat): (s: string)
    ensures s != [] && AllRadixDigits(s, 10)
  {
    if n < 10 then [DecimalDigit(n)] else DecimalString(n / 10) + [DecimalDigit(n % 10)]
  }

  /** The decimal numeral of an integer, with a `-` when it is negative. */
  function IntString(n: int): string {
    if n < 0 then "-" + DecimalString(-n) else DecimalString(n)
  }

  /** The numeral of `n` denotes `n`. */
  lemma {:induction false} DecimalStringValue(n: nat)
    ensures DigitsValue(DecimalString(n), 10) == n
  {
    var s := DecimalString(n);
    if n >= 10 {
      DecimalStringValue(n / 10);
      assert s[..|s| - 1] == DecimalString(n / 10);
    }
  }

  /** A run of digits followed by something that is not a digit is read whole. */
  lemma {:induction false} LeadingDigitsOfRun(ds: string, rest: string, radix: nat)
    requires AllRadixDigits(ds, radix)
    requires rest == [] || !IsRadixDigit(rest[0], radix)
    ensures LeadingDigits(ds + rest, radix) == ds
  {
    if ds != [] {
      assert (ds + rest)[1..] == ds[1..] + rest;
      LeadingDigitsOfRun(ds[1..], rest, radix);
    }
  }

  /** Leading white space is skipped whatever follows it. */
  lemma {:induction false} TrimStartSkips(ws: string, s: string)
    requires forall i :: 0 <= i < |ws| ==> IsStrWhiteSpace(ws[i])
    ensures TrimStart(ws + s) == TrimStart(s)
  {
    if ws != [] {
      assert (ws + s)[0] == ws[0];
      assert (ws + s)[1..] == ws[1..] + s;
      TrimStartSkips(ws[1..], s);
    } else {
      assert ws + s == s;
    }
  }

  /** A non-empty run of decimal digits reads back as its value. */
  lemma ParseUnsignedDecimalRun(ds: string)
    requires ds != [] && AllRadixDigits(ds, 10)
    ensures ParseUnsigned(ds) == Some(DigitsValue(ds, 10))
  {
    LeadingDigitsOfRun(ds, [], 10);
    assert ds + [] == ds;
    assert !HasHexPrefix(ds) by {
      if |ds| >= 2 { assert IsRadixDigit(ds[1], 10); }
    }
  }

  /** Without leading white space or sign, `parseInt` is its unsigned part;
      a leading `+` changes nothing, a leading `-` negates, and neither turns
      a failure into a number. */
  lemma ParseIntSign(u: string)
    requires u == [] || (!IsStrWhiteSpace(u[0]) && u[0] != '+' && u[0] != '-')
    ensures ParseInt(u) == if ParseUnsigned(u).Some? then Some(ParseUnsigned(u).value) else None
    ensures ParseInt("+" + u) == ParseInt(u)
    ensures ParseInt("-" + u) == if ParseUnsigned(u).Some? then Some(-(ParseUnsigned(u).value as int)) else None
  {
    var plus, minus := "+" + u, "-" + u;
    assert plus[0] == '+' && plus[1..] == u;
    assert minus[0] == '-' && minus[1..] == u;
    assert TrimStart(u) == u && DropSign(u) == u && SignOf(u) == 1;
    assert TrimStart(plus) == plus && DropSign(plus) == u && SignOf(plus) == 1;
    assert TrimStart(minus) == minus && DropSign(minus) == u && SignOf(minus) == -1;
  }

  /** Printing an integer in decimal and parsing it back gives the integer. */
  lemma ParseIntRoundTrip(n: int)
    ensures ParseInt(IntString(n)) == Some(n)
  {
    var m := if n < 0 then -n else n;
    var ds := DecimalString(m);
    ParseUnsignedDecimalRun(ds);
    DecimalStringValue(m);
    assert IsRadixDigit(ds[0], 10);
    ParseIntSign(ds);
  }

  /** Leading white space does not change the result. */
  lemma ParseIntSkipsWhiteSpace(ws: string, s: string)
    requires forall i :: 0 <= i < |ws| ==> IsStrWhiteSpace(ws[i])
    ensures ParseInt(ws + s) == ParseInt(s)
  {
    TrimStartSkips(ws, s);
  }

  /** Decimal digits are read up to the first character that is not one:
      `parseInt("123abc")` is 123. */
  lemma ParseIntReadsDecimalRun(ds: string, rest: string)
    requires ds != [] && AllRadixDigits(ds, 10)
    requires rest == [] || !IsRadixDigit(rest[0], 10)
    requires !HasHexPrefix(ds + rest)
    ensures ParseInt(ds + rest) == Some(DigitsValue(ds, 10))
  {
    LeadingDigitsOfRun(ds, rest, 10);
  }

  /** A `0x` or `0X` prefix switches to hexadecimal: `parseInt("0x1A")` is 26. */
  lemma ParseIntReadsHexRun(x: char, hs: string, rest: string)
    requires x == 'x' || x == 'X'
    requires hs != [] && AllRadixDigits(hs, 16)
    requires rest == [] || !IsRadixDigit(rest[0], 16)
    ensures ParseInt(['0', x] + hs + rest) == Some(DigitsValue(hs, 16))
  {
    var s := ['0', x] + hs + rest;
    assert s[2..] == hs + rest;
    LeadingDigitsOfRun(hs, rest, 16);
  }

  /** A `0x` or `0X` prefix with no hexadecimal digit after it gives `NaN`:
      `parseInt("0x")` and `parseInt("0xg")` fail. */
  lemma ParseIntRejectsEmptyHexRun(x: char, rest: string)
    requires x == 'x' || x == 'X'
    requires rest == [] || !IsRadixDigit(rest[0], 16)
    ensures ParseInt(['0', x] + rest) == None
  {
    var s := ['0', x] + rest;
    assert s[2..] == rest;
  }

  /** Only one sign is read, and nothing may stand between it and the digits:
      `parseInt("+ 5")`, `parseInt("+-5")` and `parseInt("--5")` fail. */
  lemma ParseIntOneSignOnly(sign: char, s: string)
    requires sign == '+' || sign == '-'
    requires s == [] || IsStrWhiteSpace(s[0]) || s[0] == '+' || s[0] == '-'
    ensures ParseInt([sign] + s) == None
  {
    var t := [sign] + s;
    assert t[0] == sign && t[1..] == s;
    assert TrimStart(t) == t && DropSign(t) == s;
  }

  /** After white space, a character that is neither a sign nor a decimal
      digit makes the result `NaN`: `parseInt("abc")` fails. */
  lemma ParseIntRejectsNonDigit(ws: string, c: char, rest: string)
    requires forall i :: 0 <= i < |ws| ==> IsStrWhiteSpace(ws[i])
    requires !IsStrWhiteSpace(c) && c != '+' && c != '-' && !IsRadixDigit(c, 10)
    ensures ParseInt(ws + [c] + rest) == None
  {
    assert ws + [c] + rest == ws + ([c] + rest);
    TrimStartSkips(ws, [c] + rest);
  }

  /** Nothing but white space, or nothing at all, parses to `NaN`. */
  lemma {:induction false} ParseIntRejectsBlank(ws: string)
    requires forall i :: 0 <= i < |ws| ==> IsStrWhiteSpace(ws[i])
    ensures ParseInt(ws) == None
  {
    assert ws + [] == ws;
    TrimStartSkips(ws, []);
  }
}
