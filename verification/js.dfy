/** The few JavaScript value semantics the pipeline leans on: truthiness of
    numbers and strings, `x || null`, template interpolation of a missing
    string, `parseInt` without a radix, and `Math.round(a / b)` on integers. */
module Js {
  import opened Wrappers
  import opened Text

  /** A number is truthy when present and not zero. */
  predicate Truthy(o: Option<int>) {
    o.Some? && o.value != 0
  }

  /** A string is truthy when present and not empty. */
  predicate TruthyText(o: Option<string>) {
    o.Some? && o.value != ""
  }

  /** `x || null` on a number. */
  function OrNull(o: Option<int>): (r: Option<int>)
    ensures r.None? || Truthy(r)
    ensures Truthy(o) ==> r == o
    ensures !Truthy(o) ==> r.None?
  {
    if Truthy(o) then o else None
  }

  /** `raw || fallback || null`: a truthy raw value always wins. */
  function Prefer(raw: Option<int>, fallback: Option<int>): (r: Option<int>)
    ensures Truthy(raw) ==> r == raw
    ensures !Truthy(raw) ==> r == OrNull(fallback)
    ensures r.None? || Truthy(r)
    ensures r.Some? ==> r == raw || r == fallback
  {
    if Truthy(raw) then raw else OrNull(fallback)
  }

  /** `${x}` where `x` may be undefined. */
  function Interpolate(o: Option<string>): string {
    if o.Some? then o.value else "undefined"
  }

  /** StrWhiteSpaceChar of ECMAScript: white space and line terminators. */
  predicate IsWhitespace(c: char) {
    || c == '\t' || c == '\n' || c == '\U{000B}' || c == '\U{000C}' || c == '\r'
    || c == ' ' || c == '\U{00A0}' || c == '\U{1680}' || ('\U{2000}' <= c <= '\U{200A}')
    || c == '\U{2028}' || c == '\U{2029}' || c == '\U{202F}' || c == '\U{205F}'
    || c == '\U{3000}' || c == '\U{FEFF}'
  }

  /** `s` without its leading white space. */
  function TrimStart(s: string): (r: string)
    ensures |r| <= |s| && r == s[|s| - |r|..]
    ensures |r| > 0 ==> !IsWhitespace(r[0])
    ensures forall k :: 0 <= k < |s| - |r| ==> IsWhitespace(s[k])
  {
    if |s| > 0 && IsWhitespace(s[0]) then TrimStart(s[1..]) else s
  }

  /** Length of the longest prefix of `s` made of digits of the radix. */
  function LeadingDigits(s: string, radix: nat): (n: nat)
    ensures n <= |s|
    ensures forall k :: 0 <= k < n ==> DigitValue(s[k]) < radix
    ensures n < |s| ==> DigitValue(s[n]) >= radix
  {
    if |s| > 0 && DigitValue(s[0]) < radix then 1 + LeadingDigits(s[1..], radix) else 0
  }

  /** `parseInt(s)` with no radix; `None` is NaN. Leading white space and one
      sign are skipped, a `0x`/`0X` prefix selects radix 16, and the longest
      run of digits that follows is read. */
  function ParseInt(s: string): (r: Option<int>)
    ensures TrimStart(s) == "" ==> r.None?
    ensures r.Some? && r.value < 0 ==> |TrimStart(s)| > 0 && TrimStart(s)[0] == '-'
  {
    var t := TrimStart(s);
    var negative := |t| > 0 && t[0] == '-';
    var u := if |t| > 0 && (t[0] == '-' || t[0] == '+') then t[1..] else t;
    var hex := |u| >= 2 && u[0] == '0' && (u[1] == 'x' || u[1] == 'X');
    var radix := if hex then 16 else 10;
    var v := if hex then u[2..] else u;
    var n := LeadingDigits(v, radix);
    if n == 0 then None
    else
      var m: int := ValueIn(v[..n], radix);
      Some(if negative then -m else m)
  }

  /** `parseInt(x)` where `x` may be null: `parseInt(null)` is NaN. */
  function ParseIntOf(o: Option<string>): Option<int> {
    if o.Some? then ParseInt(o.value) else None
  }

  lemma {:induction false} LeadingDigitsOfPrefix(d: string, rest: string)
    requires AllDigits(d)
    requires rest == "" || DigitValue(rest[0]) >= 10
    ensures LeadingDigits(d + rest, 10) == |d|
  {
    if |d| > 0 {
      assert (d + rest)[0] == d[0];
      assert (d + rest)[1..] == d[1..] + rest;
      LeadingDigitsOfPrefix(d[1..], rest);
    } else {
      assert d + rest == rest;
    }
  }

  /** parseInt on text that starts with a digit and no `0x`/`0X`: the value
      of the leading run of decimal digits. */
  lemma ParseIntUnsigned(s: string)
    requires |s| > 0 && IsDigit(s[0])
    requires !(|s| >= 2 && s[0] == '0' && (s[1] == 'x' || s[1] == 'X'))
    ensures ParseInt(s) == Some(ValueIn(s[..LeadingDigits(s, 10)], 10))
  {
    assert !IsWhitespace(s[0]);
    var t := TrimStart(s);
    assert t == s;
    assert !(t[0] == '-' || t[0] == '+');
    var n := LeadingDigits(s, 10);
    assert DigitValue(s[0]) < 10;
    assert n > 0;
  }

  /** parseInt reads a leading run of decimal digits and stops at the first
      character that cannot continue it (a `0` directly followed by `x`
      would switch to hexadecimal, so that case is excluded). */
  lemma ParseIntDecimalPrefix(d: string, rest: string)
    requires IsDigitString(d)
    requires rest == "" || DigitValue(rest[0]) >= 10
    requires d == "0" && rest != "" ==> rest[0] != 'x' && rest[0] != 'X'
    ensures ParseInt(d + rest) == Some(DecimalValue(d))
  {
    var s := d + rest;
    assert s[0] == d[0];
    if |d| >= 2 {
      assert s[1] == d[1] && IsDigit(d[1]);
    } else if rest != "" {
      assert s[1] == rest[0];
    }
    ParseIntUnsigned(s);
    LeadingDigitsOfPrefix(d, rest);
    assert s[..|d|] == d;
  }

  /** parseInt reads back the decimal text of `n` followed by anything that
      cannot continue a number. */
  lemma ParseIntLeadingNumber(n: nat, rest: string)
    requires rest == "" || DigitValue(rest[0]) >= 10
    requires n == 0 && rest != "" ==> rest[0] != 'x' && rest[0] != 'X'
    ensures ParseInt(NatToString(n) + rest) == Some(n)
  {
    var d := NatToString(n);
    if d == "0" {
      assert DecimalValue(d) == 0 by {
        assert d[..0] == "";
        assert ValueIn(d, 10) == ValueIn(d[..0], 10) * 10 + DigitValue(d[0]);
      }
    }
    DecimalValueOfNatToString(n);
    ParseIntDecimalPrefix(d, rest);
  }

  /** A string of decimal digits parses to its decimal value. */
  lemma ParseIntOfDigits(s: string)
    requires IsDigitString(s)
    ensures ParseInt(s) == Some(DecimalValue(s))
  {
    ParseIntDecimalPrefix(s, "");
    assert s + "" == s;
  }

  /** `Math.round(num / den)`: the integer nearest to num/den, a half rounded
      up towards +infinity, computed without fractions. */
  function RoundHalfUp(num: int, den: int): (r: int)
    requires den != 0
    ensures den > 0 ==> 2 * den * r - den <= 2 * num < 2 * den * r + den
    ensures den < 0 ==> 2 * den * r - den >= 2 * num > 2 * den * r + den
  {
    if den > 0 then (2 * num + den) / (2 * den) else (-(2 * num + den)) / (-2 * den)
  }
}
