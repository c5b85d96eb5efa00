/**
 * JavaScript's `parseInt(s, 10)`, which MooTools' `String.toInt` calls and
 * `attach` applies to the element's computed `max-height` (for example
 * `"250px"` or `"none"`). `None` stands for `NaN`.
 */
module JsParseInt {
  import opened Wrappers

  predicate IsDigit(c: char)
  {
    '0' <= c <= '9'
  }

  /** ECMAScript WhiteSpace and LineTerminator code points, which `parseInt` skips. */
  predicate IsJsSpace(c: char)
  {
    c == '\t' || c == '\n' || c == '\U{B}' || c == '\U{C}' || c == '\r' || c == ' '
    || c == '\U{A0}' || c == '\U{1680}' || ('\U{2000}' <= c <= '\U{200A}')
    || c == '\U{2028}' || c == '\U{2029}' || c == '\U{202F}' || c == '\U{205F}'
    || c == '\U{3000}' || c == '\U{FEFF}'
  }

  /** Drops leading white space. */
  function TrimStart(s: string): (r: string)
    ensures |r| <= |s| && r == s[|s| - |r|..]
    ensures r == [] || !IsJsSpace(r[0])
  {
    if s != [] && IsJsSpace(s[0]) then TrimStart(s[1..]) else s
  }

  /** Length of the run of decimal digits at the front of `s`. */
  function LeadingDigits(s: string): (n: nat)
    ensures n <= |s|
    ensures forall i :: 0 <= i < n ==> IsDigit(s[i])
    ensures n < |s| ==> !IsDigit(s[n])
  {
    if s != [] && IsDigit(s[0]) then 1 + LeadingDigits(s[1..]) else 0
  }

  function DigitValue(c: char): nat
    requires IsDigit(c)
  {
    (c as int) - ('0' as int)
  }

  /** The number a string of decimal digits denotes, most significant first. */
  function DigitsValue(d: string): nat
    requires forall i :: 0 <= i < |d| ==> IsDigit(d[i])
  {
    if d == [] then 0 else 10 * DigitsValue(d[..|d| - 1]) + DigitValue(d[|d| - 1])
  }

  /** The number at the front of `u`: its leading run of digits, `NaN` if there is none. */
  function ParseDigits(u: string): Option<int>
  {
    var n := LeadingDigits(u);
    if n == 0 then None else Some(DigitsValue(u[..n]))
  }

  /** An optional sign, then the digits. */
  function ParseSigned(t: string): Option<int>
  {
    if t != [] && t[0] == '-' then
      match ParseDigits(t[1..])
      case None => None
      case Some(v) => Some(-v)
    else if t != [] && t[0] == '+' then ParseDigits(t[1..])
    else ParseDigits(t)
  }

  /**
   * `parseInt(s, 10)`: skip white space, read an optional sign, then the
   * longest run of decimal digits; no digits at all gives `NaN`.
   */
  function ParseInt(s: string): (r: Option<int>)
    ensures var t := TrimStart(s);
      var u := if t != [] && (t[0] == '-' || t[0] == '+') then t[1..] else t;
      (r.Some? <==> u != [] && IsDigit(u[0])) &&
      (r.Some? && t[0] == '-' ==> r.value <= 0) &&
      (r.Some? && t[0] != '-' ==> r.value >= 0)
  {
    ParseSigned(TrimStart(s))
  }

  function DigitChar(k: nat): (c: char)
    requires k < 10
    ensures IsDigit(c) && DigitValue(c) == k
  {
    ('0' as int + k) as char
  }

  /** Decimal spelling of a natural number, as CSS writes a pixel length. */
  function NatToString(n: nat): (s: string)
    ensures s != []
    ensures forall i :: 0 <= i < |s| ==> IsDigit(s[i])
  {
    if n < 10 then [DigitChar(n)] else NatToString(n / 10) + [DigitChar(n % 10)]
  }

  lemma {:induction false} DigitsValueOfNatToString(n: nat)
    ensures DigitsValue(NatToString(n)) == n
  {
    var s := NatToString(n);
    if n < 10 {
      assert s[..|s| - 1] == [];
    } else {
      assert s[..|s| - 1] == NatToString(n / 10);
      DigitsValueOfNatToString(n / 10);
    }
  }

  lemma {:induction false} LeadingDigitsOfNumber(d: string, unit: string)
    requires forall i :: 0 <= i < |d| ==> IsDigit(d[i])
    requires unit == [] || !IsDigit(unit[0])
    ensures LeadingDigits(d + unit) == |d|
  {
    if d == [] {
      assert d + unit == unit;
    } else {
      assert (d + unit)[1..] == d[1..] + unit;
      LeadingDigitsOfNumber(d[1..], unit);
    }
  }

  lemma DigitIsNotSpace(c: char)
    requires IsDigit(c)
    ensures !IsJsSpace(c)
  {
  }

  lemma ParseDigitsOfLength(n: nat, unit: string)
    requires unit == [] || !IsDigit(unit[0])
    ensures ParseDigits(NatToString(n) + unit) == Some(n)
  {
    var d := NatToString(n);
    LeadingDigitsOfNumber(d, unit);
    assert (d + unit)[..|d|] == d;
    DigitsValueOfNatToString(n);
  }

  /** A length written as digits and a unit (`"250px"`) parses to its number. */
  lemma ParseIntOfLength(n: nat, unit: string)
    requires unit == [] || !IsDigit(unit[0])
    ensures ParseInt(NatToString(n) + unit) == Some(n)
  {
    var s := NatToString(n) + unit;
    assert s[0] == NatToString(n)[0];
    DigitIsNotSpace(s[0]);
    assert TrimStart(s) == s;
    ParseDigitsOfLength(n, unit);
  }

  lemma TrimStartOfNonSpace(s: string)
    requires s != [] && !IsJsSpace(s[0])
    ensures TrimStart(s) == s
  {
  }

  lemma ParseSignedMinus(d: string, v: int)
    requires ParseDigits(d) == Some(v)
    ensures ParseSigned("-" + d) == Some(-v)
  {
  }

  /** A negative length (`"-5px"`) parses to a negative number. */
  lemma ParseIntOfNegativeLength(n: nat, unit: string)
    requires unit == [] || !IsDigit(unit[0])
    ensures ParseInt("-" + NatToString(n) + unit) == Some(-(n as int))
  {
    var d := NatToString(n) + unit;
    var s := "-" + d;
    assert "-" + NatToString(n) + unit == s;
    assert s[0] == '-' && !IsJsSpace('-');
    TrimStartOfNonSpace(s);
    ParseDigitsOfLength(n, unit);
    ParseSignedMinus(d, n);
  }

  /** A keyword such as CSS's `none` has no leading digits: `NaN`. */
  lemma ParseIntOfKeyword(s: string)
    requires s != [] && !IsJsSpace(s[0]) && !IsDigit(s[0]) && s[0] != '-' && s[0] != '+'
    ensures ParseInt(s) == None
  {
    assert TrimStart(s) == s;
  }
}
