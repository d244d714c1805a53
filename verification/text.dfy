/** Strings as `seq<char>`: digits and their values, decimal rendering of
    integers, `Array.prototype.join`, `filter(Boolean)`, `String.split` on one
    character, removal of non-digits and replacement of a first occurrence. */
module Text {
  import opened Wrappers

  predicate IsDigit(c: char) {
    '0' <= c <= '9'
  }

  /** Every character is a decimal digit (true of the empty string). */
  predicate AllDigits(s: string) {
    forall k :: 0 <= k < |s| ==> IsDigit(s[k])
  }

  /** The regular expression `/^[0-9]+$/`. */
  predicate IsDigitString(s: string) {
    |s| >= 1 && AllDigits(s)
  }

  /** A digit string without leading zeros: the form `${n}` gives a natural number. */
  predicate IsCanonical(s: string) {
    IsDigitString(s) && (|s| > 1 ==> s[0] != '0')
  }

  /** The value of a digit in the radixes parseInt knows: `0`-`9`, then
      `a`-`z` (either case) as 10 to 35; 36 for every other character. */
  function DigitValue(c: char): (v: nat)
    ensures v <= 36
    ensures IsDigit(c) <==> v < 10
  {
    if '0' <= c <= '9' then c as int - '0' as int
    else if 'a' <= c <= 'z' then c as int - 'a' as int + 10
    else if 'A' <= c <= 'Z' then c as int - 'A' as int + 10
    else 36
  }

  function DigitChar(d: nat): (c: char)
    requires d < 10
    ensures IsDigit(c) && DigitValue(c) == d
  {
    ('0' as int + d) as char
  }

  /** Positional value of `s` read in the given radix, most significant digit first. */
  function ValueIn(s: string, radix: nat): nat
  {
    if |s| == 0 then 0 else ValueIn(s[..|s| - 1], radix) * radix + DigitValue(s[|s| - 1])
  }

  function DecimalValue(s: string): nat {
    ValueIn(s, 10)
  }

  /** `${n}` for a natural number: canonical decimal digits. */
  function NatToString(n: nat): (s: string)
    ensures IsCanonical(s)
  {
    if n < 10 then [DigitChar(n)] else NatToString(n / 10) + [DigitChar(n % 10)]
  }

  /** `${i}` for an integer. */
  function IntToString(i: int): string {
    if i < 0 then "-" + NatToString(-i) else NatToString(i)
  }

  /** Reading back what NatToString wrote gives the number. */
  lemma {:induction false} DecimalValueOfNatToString(n: nat)
    ensures DecimalValue(NatToString(n)) == n
  {
    if n < 10 {
      var s := NatToString(n);
      assert s[..0] == "";
      assert ValueIn(s, 10) == ValueIn(s[..0], 10) * 10 + DigitValue(s[0]);
    } else {
      var s := NatToString(n / 10);
      DecimalValueOfNatToString(n / 10);
      assert NatToString(n) == s + [DigitChar(n % 10)];
      assert (s + [DigitChar(n % 10)])[..|s|] == s;
    }
  }

  lemma {:induction false} PositiveValue(s: string)
    requires IsDigitString(s) && s[0] != '0'
    ensures DecimalValue(s) >= 1
  {
    if |s| > 1 {
      var p := s[..|s| - 1];
      assert p[0] == s[0];
      PositiveValue(p);
    }
  }

  /** Every canonical digit string is what NatToString writes for its value. */
  lemma {:induction false} NatToStringOfDecimalValue(s: string)
    requires IsCanonical(s)
    ensures NatToString(DecimalValue(s)) == s
  {
    if |s| == 1 {
      assert s[..0] == "";
      assert ValueIn(s, 10) == ValueIn(s[..0], 10) * 10 + DigitValue(s[0]);
      assert DigitChar(DigitValue(s[0])) == s[0];
    } else {
      var p := s[..|s| - 1];
      var d := DigitValue(s[|s| - 1]);
      assert p[0] == s[0];
      PositiveValue(p);
      NatToStringOfDecimalValue(p);
      var v := DecimalValue(s);
      assert v == DecimalValue(p) * 10 + d;
      assert v / 10 == DecimalValue(p) && v % 10 == d;
      assert DigitChar(d) == s[|s| - 1];
      assert s == p + [s[|s| - 1]];
    }
  }

  /** `parts.join(sep)`. */
  function Join(parts: seq<string>, sep: string): string
  {
    if |parts| == 0 then ""
    else if |parts| == 1 then parts[0]
    else parts[0] + sep + Join(parts[1..], sep)
  }

  lemma JoinStartsWithFirst(parts: seq<string>, sep: string)
    requires |parts| >= 1
    ensures parts[0] <= Join(parts, sep)
  {
  }

  lemma JoinTwo(a: string, b: string, sep: string)
    ensures Join([a, b], sep) == a + sep + b
  {
    assert [a, b][1..] == [b];
  }

  lemma JoinThree(a: string, b: string, c: string, sep: string)
    ensures Join([a, b, c], sep) == a + sep + b + sep + c
  {
    assert [a, b, c][1..] == [b, c];
    JoinTwo(b, c, sep);
  }

  /** The one-slot case of Compact: the value when it is truthy, nothing otherwise. */
  function Present(x: Option<string>): seq<string> {
    if x.Some? && x.value != "" then [x.value] else []
  }

  /** `xs.filter(Boolean)` on strings and nulls: `None` and `""` are dropped. */
  function Compact(xs: seq<Option<string>>): (r: seq<string>)
    ensures |r| <= |xs|
    ensures forall s :: s in r ==> s != ""
    ensures forall s :: s in r <==> s != "" && Some(s) in xs
  {
    if |xs| == 0 then []
    else Present(xs[0]) + Compact(xs[1..])
  }

  lemma CompactCons(x: Option<string>, xs: seq<Option<string>>)
    ensures Compact([x] + xs) == Present(x) + Compact(xs)
  {
    assert ([x] + xs)[1..] == xs;
  }

  /** filter(Boolean) on four slots. */
  lemma CompactFour(a: Option<string>, b: Option<string>, c: Option<string>, d: Option<string>)
    ensures Compact([a, b, c, d]) == Present(a) + (Present(b) + (Present(c) + Present(d)))
  {
    CompactThree(a, b, c, [d]);
    assert [a, b, c, d] == [a, b, c] + [d];
    CompactCons(d, []);
    assert [d] + [] == [d];
    assert Present(d) + Compact([]) == Present(d);
  }

  /** filter(Boolean) on three leading slots. */
  lemma CompactThree(a: Option<string>, b: Option<string>, c: Option<string>, rest: seq<Option<string>>)
    ensures Compact([a, b, c] + rest) == Present(a) + (Present(b) + (Present(c) + Compact(rest)))
  {
    calc {
      Compact([a, b, c] + rest);
      { assert [a, b, c] + rest == [a] + ([b] + ([c] + rest)); }
      Compact([a] + ([b] + ([c] + rest)));
      { CompactCons(a, [b] + ([c] + rest)); }
      Present(a) + Compact([b] + ([c] + rest));
      { CompactCons(b, [c] + rest); }
      Present(a) + (Present(b) + Compact([c] + rest));
      { CompactCons(c, rest); }
      Present(a) + (Present(b) + (Present(c) + Compact(rest)));
    }
  }

  /** filter(Boolean) over nine slots keeps the truthy ones in order. */
  lemma CompactNine(a: Option<string>, b: Option<string>, c: Option<string>, d: Option<string>,
                    e: Option<string>, f: Option<string>, g: Option<string>, h: Option<string>,
                    i: Option<string>)
    ensures Compact([a, b, c, d, e, f, g, h, i])
      == Present(a) + (Present(b) + (Present(c) + (Present(d) + (Present(e)
         + (Present(f) + (Present(g) + (Present(h) + Present(i))))))))
  {
    assert [a, b, c, d, e, f, g, h, i] == [a, b, c] + ([d, e, f] + ([g, h, i] + []));
    CompactThree(g, h, i, []);
    CompactThree(d, e, f, [g, h, i] + []);
    CompactThree(a, b, c, [d, e, f] + ([g, h, i] + []));
    assert Present(i) + Compact([]) == Present(i);
  }

  /** filter(Boolean) distributes over concatenation, so it keeps order. */
  lemma {:induction false} CompactAppend(a: seq<Option<string>>, b: seq<Option<string>>)
    ensures Compact(a + b) == Compact(a) + Compact(b)
  {
    if |a| == 0 {
      assert a + b == b;
    } else {
      assert (a + b)[1..] == a[1..] + b;
      CompactAppend(a[1..], b);
    }
  }

  /** `s.split(c)` for a one-character separator. */
  function Split(s: string, c: char): (parts: seq<string>)
    ensures |parts| >= 1
    ensures forall k :: 0 <= k < |parts| ==> c !in parts[k]
    ensures parts[0] <= s
    ensures |parts[0]| < |s| ==> s[|parts[0]|] == c
    ensures |parts| == 1 <==> c !in s
  {
    if |s| == 0 then [""]
    else
      var rest := Split(s[1..], c);
      if s[0] == c then [""] + rest
      else [[s[0]] + rest[0]] + rest[1..]
  }

  /** Joining the pieces of a split with the separator gives the string back. */
  lemma {:induction false} JoinSplit(s: string, c: char)
    ensures Join(Split(s, c), [c]) == s
  {
    if |s| > 0 {
      var rest := Split(s[1..], c);
      JoinSplit(s[1..], c);
      if s[0] == c {
        assert Split(s, c) == [""] + rest;
        assert (["" ] + rest)[1..] == rest;
        assert s == [c] + s[1..];
      } else {
        var parts := [[s[0]] + rest[0]] + rest[1..];
        assert Split(s, c) == parts;
        if |rest| == 1 {
          assert s == [s[0]] + s[1..];
        } else {
          assert parts[1..] == rest[1..];
          assert Join(rest, [c]) == rest[0] + [c] + Join(rest[1..], [c]);
          assert s == [s[0]] + s[1..];
        }
      }
    }
  }

  /** A string without the separator is its own single piece. */
  lemma {:induction false} SplitWithout(s: string, c: char)
    requires c !in s
    ensures Split(s, c) == [s]
  {
    if |s| > 0 {
      assert c !in s[1..];
      SplitWithout(s[1..], c);
      assert [s[0]] + s[1..] == s;
    }
  }

  /** A separator after a separator-free prefix ends the first piece. */
  lemma {:induction false} SplitAfterFirst(a: string, b: string, c: char)
    requires c !in a
    ensures Split(a + [c] + b, c) == [a] + Split(b, c)
  {
    var s := a + [c] + b;
    if |a| == 0 {
      assert s[1..] == b;
    } else {
      assert s[1..] == a[1..] + [c] + b;
      SplitAfterFirst(a[1..], b, c);
      assert [a[0]] + a[1..] == a;
    }
  }

  /** `s.replace(/\D/g, "")`: the digits of `s`, in order. */
  function StripNonDigits(s: string): (r: string)
    ensures AllDigits(r)
    ensures |r| <= |s|
    ensures forall k :: 0 <= k < |s| && IsDigit(s[k]) ==> s[k] in r
    ensures forall c :: c in r ==> c in s
  {
    if |s| == 0 then ""
    else
      (if IsDigit(s[0]) then [s[0]] else []) + StripNonDigits(s[1..])
  }

  /** Removing non-digits from a concatenation removes them piecewise. */
  lemma {:induction false} StripNonDigitsAppend(a: string, b: string)
    ensures StripNonDigits(a + b) == StripNonDigits(a) + StripNonDigits(b)
  {
    if |a| == 0 {
      assert a + b == b;
    } else {
      var ab := a + b;
      assert ab[0] == a[0];
      assert ab[1..] == a[1..] + b;
      StripNonDigitsAppend(a[1..], b);
      calc {
        StripNonDigits(ab);
        (if IsDigit(a[0]) then [a[0]] else []) + StripNonDigits(a[1..] + b);
        (if IsDigit(a[0]) then [a[0]] else []) + (StripNonDigits(a[1..]) + StripNonDigits(b));
        StripNonDigits(a) + StripNonDigits(b);
      }
    }
  }

  /** A string of digits only is left as it is. */
  lemma {:induction false} StripNonDigitsOfDigits(s: string)
    requires AllDigits(s)
    ensures StripNonDigits(s) == s
  {
    if |s| > 0 {
      StripNonDigitsOfDigits(s[1..]);
    }
  }

  /** `pat` occurs in `s` starting at index `i`. */
  predicate OccursAt(s: string, pat: string, i: nat) {
    i + |pat| <= |s| && s[i..i + |pat|] == pat
  }

  /** The first occurrence of `pat` at or after `from`. */
  function IndexOfFrom(s: string, pat: string, from: nat): (r: Option<nat>)
    ensures r.Some? ==> from <= r.value && OccursAt(s, pat, r.value)
    ensures r.Some? ==> forall j: nat :: from <= j < r.value ==> !OccursAt(s, pat, j)
    ensures r.None? ==> forall j: nat :: from <= j ==> !OccursAt(s, pat, j)
    decreases |s| - from
  {
    if from + |pat| > |s| then None
    else if s[from..from + |pat|] == pat then Some(from)
    else IndexOfFrom(s, pat, from + 1)
  }

  /** `s.replace(pat, rep)` with a non-global pattern: the first occurrence only. */
  function ReplaceFirst(s: string, pat: string, rep: string): (r: string)
    ensures IndexOfFrom(s, pat, 0).None? ==> r == s
    ensures IndexOfFrom(s, pat, 0).Some? ==> |r| == |s| - |pat| + |rep|
  {
    match IndexOfFrom(s, pat, 0)
    case None => s
    case Some(i) => s[..i] + rep + s[i + |pat|..]
  }

  /** The replacement lands at the first occurrence and nowhere else. */
  lemma ReplaceFirstAt(s: string, pat: string, rep: string, i: nat)
    requires OccursAt(s, pat, i)
    requires forall j: nat :: j < i ==> !OccursAt(s, pat, j)
    ensures ReplaceFirst(s, pat, rep) == s[..i] + rep + s[i + |pat|..]
  {
  }

  /** Without an occurrence the string is unchanged. */
  lemma ReplaceFirstAbsent(s: string, pat: string, rep: string)
    requires forall j: nat :: !OccursAt(s, pat, j)
    ensures ReplaceFirst(s, pat, rep) == s
  {
  }
}
