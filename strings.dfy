/**
 * The two string built-ins the app relies on: `String.prototype.trim`
 * (API-key submission) and `parseInt` (recipe-creation form).
 */
module Strings {
  import opened Common

  /** ECMAScript WhiteSpace and LineTerminator code points: what `trim` and `parseInt` skip. */
  predicate IsWhitespace(c: char) {
    var n := c as int;
    n == 0x09 || n == 0x0A || n == 0x0B || n == 0x0C || n == 0x0D || n == 0x20 ||
    n == 0xA0 || n == 0x1680 || (0x2000 <= n <= 0x200A) || n == 0x2028 ||
    n == 0x2029 || n == 0x202F || n == 0x205F || n == 0x3000 || n == 0xFEFF
  }

  /** `trimStart`: drops the leading whitespace and nothing else. */
  function TrimStart(s: string): (r: string)
    ensures |r| <= |s| && r == s[|s| - |r|..]
    ensures forall i :: 0 <= i < |s| - |r| ==> IsWhitespace(s[i])
    ensures r == [] || !IsWhitespace(r[0])
  {
    if s != [] && IsWhitespace(s[0]) then TrimStart(s[1..]) else s
  }

  /** `trimEnd`: drops the trailing whitespace and nothing else. */
  function TrimEnd(s: string): (r: string)
    ensures |r| <= |s| && r == s[..|r|]
    ensures forall i :: |r| <= i < |s| ==> IsWhitespace(s[i])
    ensures r == [] || !IsWhitespace(r[|r| - 1])
  {
    if s != [] && IsWhitespace(s[|s| - 1]) then TrimEnd(s[..|s| - 1]) else s
  }

  /**
   * `trim`: the result is the part of `s` between its leading and trailing
   * whitespace; it is empty exactly when `s` is all whitespace.
   */
  function Trim(s: string): (r: string)
    ensures var k := |s| - |TrimStart(s)|;
      k + |r| <= |s| && r == s[k..k + |r|] &&
      forall i :: 0 <= i < |s| && !(k <= i < k + |r|) ==> IsWhitespace(s[i])
    ensures r == [] || (!IsWhitespace(r[0]) && !IsWhitespace(r[|r| - 1]))
    ensures r == [] <==> forall i :: 0 <= i < |s| ==> IsWhitespace(s[i])
  {
    TrimEnd(TrimStart(s))
  }

  /** Trimming twice is trimming once. */
  lemma TrimIdempotent(s: string)
    ensures Trim(Trim(s)) == Trim(s)
  {
    var t := Trim(s);
    assert TrimStart(t) == t;
    assert TrimEnd(t) == t;
  }

  predicate IsDigit(c: char) {
    '0' <= c <= '9'
  }

  predicate AllDigits(d: string) {
    forall i :: 0 <= i < |d| ==> IsDigit(d[i])
  }

  function DigitValue(c: char): (v: nat)
    requires IsDigit(c)
    ensures v < 10
  {
    (c as int) - ('0' as int)
  }

  function DigitChar(v: nat): (c: char)
    requires v < 10
    ensures IsDigit(c) && DigitValue(c) == v
  {
    ('0' as int + v) as char
  }

  /** The number of decimal digits `s` starts with. */
  function LeadingDigits(s: string): (n: nat)
    ensures n <= |s| && AllDigits(s[..n])
    ensures n == |s| || !IsDigit(s[n])
  {
    if s != [] && IsDigit(s[0]) then 1 + LeadingDigits(s[1..]) else 0
  }

  /** The value of a string of decimal digits, most significant first. */
  function DigitsValue(d: string): nat
    requires AllDigits(d)
  {
    if d == [] then 0 else 10 * DigitsValue(d[..|d| - 1]) + DigitValue(d[|d| - 1])
  }

  /** The shortest decimal spelling of `n`. */
  function DecimalString(n: nat): (r: string)
    ensures r != [] && AllDigits(r) && DigitsValue(r) == n
    ensures r[0] == '0' ==> n == 0
  {
    var last := [DigitChar(n % 10)];
    if n < 10 then last
    else
      var prefix := DecimalString(n / 10);
      assert (prefix + last)[..|prefix + last| - 1] == prefix;
      prefix + last
  }

  /** The value of the decimal digits `s` starts with; `None` when it starts with none. */
  function ParseDigits(s: string): Option<nat> {
    var n := LeadingDigits(s);
    if n == 0 then None else Some(DigitsValue(s[..n]))
  }

  /**
   * `parseInt(s)` with no radix, for decimal input: skip leading whitespace,
   * take an optional sign, then the longest run of decimal digits. No digit
   * at all gives `None`, which stands for `NaN`.
   */
  function ParseInt(s: string): Option<int>
    decreases |s|
  {
    if s == [] then None
    else if IsWhitespace(s[0]) then ParseInt(s[1..])
    else if s[0] == '-' then
      match ParseDigits(s[1..])
      case None => None
      case Some(magnitude) => Some(0 - magnitude as int)
    else if s[0] == '+' then
      match ParseDigits(s[1..])
      case None => None
      case Some(magnitude) => Some(magnitude)
    else
      match ParseDigits(s)
      case None => None
      case Some(magnitude) => Some(magnitude)
  }

  lemma {:induction false} LeadingDigitsOfDigits(d: string, rest: string)
    requires AllDigits(d)
    requires rest == [] || !IsDigit(rest[0])
    ensures LeadingDigits(d + rest) == |d|
  {
    if d != [] {
      assert (d + rest)[1..] == d[1..] + rest;
      LeadingDigitsOfDigits(d[1..], rest);
    } else {
      assert d + rest == rest;
    }
  }

  /**
   * `parseInt` reads back the decimal spelling of any natural number,
   * whatever non-digit text follows it.
   */
  lemma ParseIntDecimal(n: nat, rest: string)
    requires rest == [] || !IsDigit(rest[0])
    ensures ParseInt(DecimalString(n) + rest) == Some(n)
  {
    var d := DecimalString(n);
    var s := d + rest;
    assert !IsWhitespace(s[0]) && s[0] != '-' && s[0] != '+';
    LeadingDigitsOfDigits(d, rest);
    assert s[..|d|] == d;
  }

  /** A form holding "30" and "4": they parse to 30 and 4. */
  lemma ParseIntExamples()
    ensures ParseInt("30") == Some(30)
    ensures ParseInt("4") == Some(4)
  {
    assert DecimalString(30) == "30";
    ParseIntDecimal(30, "");
    assert DecimalString(30) + "" == "30";
    assert DecimalString(4) == "4";
    ParseIntDecimal(4, "");
    assert DecimalString(4) + "" == "4";
  }
}
