/** Floor normalisation: the site's floor text when it is decisive, otherwise
    the Dutch house-number suffix at the end of the street address
    (`12-3` is the third floor, `12-h`/`12-hs` the ground floor, `12-iii` the
    third floor), otherwise unknown.

    The suffix is found by the regular expression
    `/[0-9]+[- ]+([1-9]|h|hs|i+)$/i`; here it is an explicit scanner from the
    end of the string (Appendix), proved equal to the regular expression's
    capture (AppendixSound, AppendixComplete). */
module Floor {
  import opened Wrappers
  import opened Text

  /** The site text meaning "ground floor". */
  const GroundFloor := "begane grond"

  predicate IsSeparator(c: char) { c == '-' || c == ' ' }
  predicate IsH(c: char) { c == 'h' || c == 'H' }
  predicate IsS(c: char) { c == 's' || c == 'S' }
  predicate IsI(c: char) { c == 'i' || c == 'I' }

  predicate AllSeparators(s: string) {
    forall k :: 0 <= k < |s| ==> IsSeparator(s[k])
  }

  predicate AllI(s: string) {
    forall k :: 0 <= k < |s| ==> IsI(s[k])
  }

  /** The capture group `([1-9]|h|hs|i+)`, case-insensitively. */
  predicate IsCapture(t: string) {
    || (|t| == 1 && ('1' <= t[0] <= '9' || IsH(t[0])))
    || (|t| == 2 && IsH(t[0]) && IsS(t[1]))
    || (|t| >= 1 && AllI(t))
  }

  /** The regular expression matches `s` with its digits at `[i, j)`, its
      separators at `[j, k)` and its capture group at `[k, |s|)`. */
  predicate MatchAt(s: string, i: int, j: int, k: int) {
    && 0 <= i < j < k <= |s|
    && AllDigits(s[i..j])
    && AllSeparators(s[j..k])
    && IsCapture(s[k..])
  }

  /** Length of the longest suffix of `s` whose characters all satisfy `p`. */
  function TrailingCount(s: string, p: char -> bool): (n: nat)
    ensures n <= |s|
    ensures forall t :: |s| - n <= t < |s| ==> p(s[t])
    ensures n < |s| ==> !p(s[|s| - n - 1])
  {
    if |s| == 0 || !p(s[|s| - 1]) then 0 else 1 + TrailingCount(s[..|s| - 1], p)
  }

  /** Length of the capture candidate that ends `s`, judged by its last
      characters alone; 0 when no alternative of the group can end there. */
  function CaptureLength(s: string): (n: nat)
    ensures n <= |s|
    ensures n > 0 ==> IsCapture(s[|s| - n..])
  {
    if |s| == 0 then 0
    else
      var c := s[|s| - 1];
      if '1' <= c <= '9' || IsH(c) then 1
      else if IsS(c) then (if |s| >= 2 && IsH(s[|s| - 2]) then 2 else 0)
      else if IsI(c) then TrailingCount(s, IsI)
      else 0
  }

  /** The capture group of `/[0-9]+[- ]+([1-9]|h|hs|i+)$/i` on `s`, or `None`
      when the expression does not match. */
  function Appendix(s: string): (r: Option<string>)
    ensures r.Some? ==> IsCapture(r.value) && |r.value| <= |s| && r.value == s[|s| - |r.value|..]
  {
    var n := CaptureLength(s);
    if n == 0 then None
    else
      var rest := s[..|s| - n];
      var m := TrailingCount(rest, IsSeparator);
      if 1 <= m < |rest| && IsDigit(rest[|rest| - m - 1]) then Some(s[|s| - n..]) else None
  }

  /** Whatever the scanner returns is a capture of the regular expression. */
  lemma AppendixSound(s: string)
    ensures Appendix(s).Some? ==> exists i, j, k :: MatchAt(s, i, j, k) && Appendix(s).value == s[k..]
  {
    var n := CaptureLength(s);
    if Appendix(s).Some? {
      var rest := s[..|s| - n];
      var m := TrailingCount(rest, IsSeparator);
      var k := |s| - n;
      var j := k - m;
      var i := j - 1;
      assert s[i..j] == [rest[i]];
      assert AllSeparators(s[j..k]) by {
        forall t | 0 <= t < k - j
          ensures IsSeparator(s[j..k][t])
        {
          assert s[j..k][t] == rest[j + t];
        }
      }
      assert MatchAt(s, i, j, k);
    }
  }

  /** Every match of the regular expression yields the scanner's capture, so
      the capture is the same whichever match the engine picks. */
  lemma AppendixComplete(s: string, i: int, j: int, k: int)
    requires MatchAt(s, i, j, k)
    ensures Appendix(s) == Some(s[k..])
  {
    var t := s[k..];
    assert IsSeparator(s[k - 1]) by {
      assert s[k - 1] == s[j..k][k - 1 - j];
    }
    assert IsDigit(s[j - 1]) by {
      assert s[j - 1] == s[i..j][j - 1 - i];
    }
    assert s[|s| - 1] == t[|t| - 1];
    assert CaptureLength(s) == |t| by {
      if |t| == 2 && IsH(t[0]) && IsS(t[1]) {
        assert s[|s| - 2] == t[0];
      } else if !(|t| == 1 && ('1' <= t[0] <= '9' || IsH(t[0]))) {
        assert AllI(t);
        assert forall x :: k <= x < |s| ==> IsI(s[x]) by {
          forall x | k <= x < |s|
            ensures IsI(s[x])
          {
            assert s[x] == t[x - k];
          }
        }
        assert !IsI(s[k - 1]);
      }
    }
    var rest := s[..k];
    assert forall x :: j <= x < k ==> IsSeparator(rest[x]) by {
      forall x | j <= x < k
        ensures IsSeparator(rest[x])
      {
        assert rest[x] == s[j..k][x - j];
      }
    }
    assert !IsSeparator(rest[j - 1]);
    var m := TrailingCount(rest, IsSeparator);
    assert m == k - j;
    assert rest[|rest| - m - 1] == s[j - 1];
  }

  /** The floor text decides on its own: the ground-floor literal or all digits. */
  predicate FieldDecides(field: Option<string>) {
    field == Some(GroundFloor) || (field.Some? && IsDigitString(field.value))
  }

  /** The floor a suffix denotes, compared case-sensitively as the source
      does: a digit string is read as a number, exactly `h` or `hs` is the
      ground floor, a run of `i`/`I` counts its letters, anything else
      (`H`, `HS`, no suffix) is unknown. */
  function FloorOfAppendix(a: Option<string>): (r: Option<int>)
    ensures r.Some? ==> a.Some? && r.value >= 0
    ensures a.Some? && IsDigitString(a.value) ==> r == Some(DecimalValue(a.value))
    ensures a == Some("h") || a == Some("hs") ==> r == Some(0)
    ensures a.Some? && |a.value| >= 1 && AllI(a.value) ==> r == Some(|a.value|)
    ensures (a.Some? && !IsDigitString(a.value) && a.value != "h" && a.value != "hs"
             && !(|a.value| >= 1 && AllI(a.value))) ==> r.None?
  {
    if a.None? then None
    else if IsDigitString(a.value) then Some(DecimalValue(a.value))
    else if a.value == "h" || a.value == "hs" then Some(0)
    else if |a.value| >= 1 && AllI(a.value) then Some(|a.value|)
    else None
  }

  /** The normalised floor of a listing. */
  function FloorOf(field: Option<string>, street: string): (r: Option<int>)
    ensures r.Some? ==> r.value >= 0
    ensures field == Some(GroundFloor) ==> r == Some(0)
    ensures field.Some? && IsDigitString(field.value) ==> r == Some(DecimalValue(field.value))
    ensures !FieldDecides(field) ==> r == FloorOfAppendix(Appendix(street))
  {
    if field == Some(GroundFloor) then Some(0)
    else if field.Some? && IsDigitString(field.value) then Some(DecimalValue(field.value))
    else FloorOfAppendix(Appendix(street))
  }

  /** When the floor text does not decide, a matching street suffix does:
      a digit 1-9 is that floor, lower-case `h`/`hs` the ground floor, upper-
      or mixed-case `H`/`HS` nothing, and a run of `i` its length. */
  lemma FloorFromSuffix(field: Option<string>, street: string, i: int, j: int, k: int)
    requires !FieldDecides(field)
    requires MatchAt(street, i, j, k)
    ensures k == |street| - 1 && '1' <= street[k] <= '9' ==>
              FloorOf(field, street) == Some(street[k] as int - '0' as int)
    ensures street[k..] == "h" || street[k..] == "hs" ==> FloorOf(field, street) == Some(0)
    ensures street[k..] in {"H", "HS", "Hs", "hS"} ==> FloorOf(field, street) == None
    ensures AllI(street[k..]) ==> FloorOf(field, street) == Some(|street| - k)
  {
    AppendixComplete(street, i, j, k);
    var t := street[k..];
    if |t| == 1 && '1' <= t[0] <= '9' {
      assert t[..0] == "";
      assert ValueIn(t, 10) == ValueIn(t[..0], 10) * 10 + DigitValue(t[0]);
    }
    if AllI(t) {
      assert !IsDigit(t[0]);
    }
  }

  /** Without a matching suffix, and without a decisive floor text, the floor is unknown. */
  lemma FloorWithoutSuffix(field: Option<string>, street: string)
    requires !FieldDecides(field)
    requires forall i, j, k :: !MatchAt(street, i, j, k)
    ensures FloorOf(field, street) == None
  {
    AppendixSound(street);
  }

  /** A decisive floor text wins over any street suffix. */
  lemma FloorFieldExamples()
    ensures FloorOf(Some("begane grond"), "Hoofdstraat 12-3") == Some(0)
    ensures FloorOf(Some("3"), "Hoofdstraat 12-hs") == Some(3)
  {
    var three := "3";
    assert three[..0] == "";
    assert ValueIn(three, 10) == ValueIn(three[..0], 10) * 10 + DigitValue(three[0]);
  }

  /** Floor of `Hoofdstraat 12-` followed by a suffix, through FloorFromSuffix. */
  lemma HoofdstraatSuffix(cap: string)
    requires IsCapture(cap)
    ensures var street := "Hoofdstraat 12-" + cap;
      && ('1' <= cap[0] <= '9' && |cap| == 1 ==> FloorOf(None, street) == Some(cap[0] as int - '0' as int))
      && (cap == "h" || cap == "hs" ==> FloorOf(None, street) == Some(0))
      && (cap in {"H", "HS", "Hs", "hS"} ==> FloorOf(None, street) == None)
      && (AllI(cap) ==> FloorOf(None, street) == Some(|cap|))
  {
    var street := "Hoofdstraat 12-" + cap;
    assert street[12..14] == "12";
    assert street[14..15] == "-";
    assert street[15..] == cap;
    assert MatchAt(street, 12, 14, 15);
    FloorFromSuffix(None, street, 12, 14, 15);
  }

  /** The suffix `12-3` is the third floor. */
  lemma FloorDigitSuffixExample()
    ensures FloorOf(None, "Hoofdstraat 12-3") == Some(3)
  {
    assert IsCapture("3");
    HoofdstraatSuffix("3");
    assert "Hoofdstraat 12-" + "3" == "Hoofdstraat 12-3";
  }

  /** The suffixes `12-h` and `12-hs` are the ground floor. */
  lemma FloorGroundSuffixExamples()
    ensures FloorOf(None, "Hoofdstraat 12-h") == Some(0)
    ensures FloorOf(None, "Hoofdstraat 12-hs") == Some(0)
  {
    assert IsCapture("h");
    HoofdstraatSuffix("h");
    assert "Hoofdstraat 12-" + "h" == "Hoofdstraat 12-h";
    assert IsCapture("hs");
    HoofdstraatSuffix("hs");
    assert "Hoofdstraat 12-" + "hs" == "Hoofdstraat 12-hs";
  }

  /** The suffixes `12-iii`, `12-III` and `12-iIi` are all the third floor:
      the run of `i` is counted whatever its case. */
  lemma FloorRomanSuffixExample(cap: string)
    requires cap == "iii" || cap == "III" || cap == "iIi"
    ensures FloorOf(None, "Hoofdstraat 12-" + cap) == Some(3)
  {
    assert AllI(cap);
    HoofdstraatSuffix(cap);
  }

  /** The suffix `12-H` gives no floor: the source compares the capture with `h` case-sensitively. */
  lemma FloorUpperCaseSuffixExample()
    ensures FloorOf(None, "Hoofdstraat 12-H") == None
  {
    assert IsCapture("H");
    HoofdstraatSuffix("H");
    assert "Hoofdstraat 12-" + "H" == "Hoofdstraat 12-H";
  }

  /** A two-digit suffix gives no floor. */
  lemma FloorTwoDigitSuffixExample()
    ensures FloorOf(None, "Hoofdstraat 12-10") == None
  {
    var street := "Hoofdstraat 12-10";
    assert street[|street| - 1] == '0';
    assert CaptureLength(street) == 0;
  }

  /** A street without a number gives no floor. */
  lemma FloorNoNumberExample()
    ensures FloorOf(None, "Hoofdstraat") == None
  {
    var street := "Hoofdstraat";
    assert street[|street| - 1] == 't';
    assert CaptureLength(street) == 0;
  }
}
