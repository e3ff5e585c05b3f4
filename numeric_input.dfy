/**
  The text fields of the autobet panel: the gate that admits an edit only if it
  matches the pattern `^\d*\.?\d*$`, and the value JavaScript's `Number(...)`
  gives such a string, with the `Number(x) || fallback` idiom on top of it.

  `Number` is modelled only on the strings the gate admits, which are the only
  strings the settings ever hold. On those, `Number` reads the digits before the
  dot as an integer and the digits after it as a fraction; the empty string is
  0 and the lone dot "." is NaN.
 */
module NumericInput {

  predicate IsDigit(c: char) {
    '0' <= c <= '9'
  }

  function DigitValue(c: char): (d: nat)
    requires IsDigit(c)
    ensures d <= 9
  {
    (c as int) - ('0' as int)
  }

  predicate AllDigits(s: string) {
    forall i :: 0 <= i < |s| ==> IsDigit(s[i])
  }

  /** A digit other than '0' occurs in `s`. */
  predicate HasNonzeroDigit(s: string) {
    exists i :: 0 <= i < |s| && '1' <= s[i] <= '9'
  }

  // ---------------------------------------------------------------------------
  // The pattern ^\d*\.?\d*$

  /**
    The pattern read literally: `s` splits as digits `s[..i]`, then nothing or a
    single dot `s[i..j]`, then digits `s[j..]`.
   */
  ghost predicate PatternAt(s: string, i: int, j: int) {
    && 0 <= i <= j <= |s|
    && AllDigits(s[..i])
    && (j == i || (j == i + 1 && s[i] == '.'))
    && AllDigits(s[j..])
  }

  ghost predicate MatchesPattern(s: string) {
    exists i, j :: PatternAt(s, i, j)
  }

  /**
    The matcher, one character at a time: digits are always allowed, a dot
    only if no dot has been seen yet, nothing else at all.
   */
  predicate Scan(s: string, dotSeen: bool) {
    if s == [] then true
    else if IsDigit(s[0]) then Scan(s[1..], dotSeen)
    else s[0] == '.' && !dotSeen && Scan(s[1..], true)
  }

  predicate Accepts(s: string) {
    Scan(s, false)
  }

  lemma {:induction false} ScanAfterDot(s: string)
    ensures Scan(s, true) <==> AllDigits(s)
  {
    if s != [] {
      ScanAfterDot(s[1..]);
      assert AllDigits(s) <==> IsDigit(s[0]) && AllDigits(s[1..]) by {
        if IsDigit(s[0]) && AllDigits(s[1..]) {
          forall i | 0 <= i < |s| ensures IsDigit(s[i]) {
            if i > 0 { assert s[i] == s[1..][i - 1]; }
          }
        }
        if AllDigits(s) {
          forall i | 0 <= i < |s[1..]| ensures IsDigit(s[1..][i]) {
            assert s[1..][i] == s[i + 1];
          }
        }
      }
    }
  }

  lemma DigitsScan(s: string, dotSeen: bool)
    requires AllDigits(s)
    ensures Scan(s, dotSeen)
  {
    if s != [] {
      assert IsDigit(s[0]);
      assert AllDigits(s[1..]) by {
        forall i | 0 <= i < |s[1..]| ensures IsDigit(s[1..][i]) {
          assert s[1..][i] == s[i + 1];
        }
      }
      DigitsScan(s[1..], dotSeen);
    }
  }

  /** The matcher accepts exactly the strings the pattern describes. */
  lemma {:induction false} AcceptsIffPattern(s: string)
    ensures Accepts(s) <==> MatchesPattern(s)
  {
    if Accepts(s) {
      AcceptedHasSplit(s);
    }
    if MatchesPattern(s) {
      var i, j :| PatternAt(s, i, j);
      SplitAccepted(s, i, j);
    }
  }

  lemma {:induction false} AcceptedHasSplit(s: string)
    requires Scan(s, false)
    ensures MatchesPattern(s)
  {
    if s == [] {
      assert PatternAt(s, 0, 0);
    } else if IsDigit(s[0]) {
      AcceptedHasSplit(s[1..]);
      var i, j :| PatternAt(s[1..], i, j);
      assert s[1..][..i] == s[1..i + 1];
      assert s[1..][j..] == s[j + 1..];
      var digits := s[..i + 1];
      forall k | 0 <= k < |digits| ensures IsDigit(digits[k]) {
        if k > 0 { assert digits[k] == s[1..][..i][k - 1]; }
      }
      assert PatternAt(s, i + 1, j + 1);
    } else {
      ScanAfterDot(s[1..]);
      assert PatternAt(s, 0, 1);
    }
  }

  lemma {:induction false} SplitAccepted(s: string, i: int, j: int)
    requires PatternAt(s, i, j)
    ensures Scan(s, false)
    decreases i
  {
    if i > 0 {
      assert IsDigit(s[..i][0]);
      assert PatternAt(s[1..], i - 1, j - 1) by {
        assert s[1..][..i - 1] == s[..i][1..];
        assert s[1..][j - 1..] == s[j..];
        var digits := s[1..][..i - 1];
        forall k | 0 <= k < |digits| ensures IsDigit(digits[k]) {
          assert digits[k] == s[..i][k + 1];
        }
        if j == i + 1 { assert s[1..][i - 1] == s[i]; }
      }
      SplitAccepted(s[1..], i - 1, j - 1);
    } else if j == 0 {
      DigitsScan(s, false);
    } else {
      assert s[1..] == s[j..];
      ScanAfterDot(s[1..]);
    }
  }

  // ---------------------------------------------------------------------------
  // The value of an accepted string

  /** JavaScript's Number on the admitted strings: a value or NaN. */
  datatype Num = NaN | Val(value: real)

  /** The digits of `s` read as a decimal integer, most significant first. */
  function IntValue(s: string): (n: nat)
    requires AllDigits(s)
    ensures n == 0 <==> !HasNonzeroDigit(s)
  {
    if s == [] then 0
    else
      var init := s[..|s| - 1];
      assert AllDigits(init) by {
        forall i | 0 <= i < |init| ensures IsDigit(init[i]) { assert init[i] == s[i]; }
      }
      assert HasNonzeroDigit(s) <==> HasNonzeroDigit(init) || '1' <= s[|s| - 1] <= '9' by {
        if HasNonzeroDigit(init) {
          var i :| 0 <= i < |init| && '1' <= init[i] <= '9';
          assert s[i] == init[i];
        }
        if HasNonzeroDigit(s) {
          var i :| 0 <= i < |s| && '1' <= s[i] <= '9';
          if i < |s| - 1 { assert init[i] == s[i]; }
        }
      }
      IntValue(init) * 10 + DigitValue(s[|s| - 1])
  }

  /** The digits of `s` read as the fraction 0.s, first digit worth a tenth. */
  function FracValue(s: string): (f: real)
    requires AllDigits(s)
    ensures 0.0 <= f < 1.0
    ensures f == 0.0 <==> !HasNonzeroDigit(s)
  {
    if s == [] then 0.0
    else
      var rest := s[1..];
      assert AllDigits(rest) by {
        forall i | 0 <= i < |rest| ensures IsDigit(rest[i]) { assert rest[i] == s[i + 1]; }
      }
      assert HasNonzeroDigit(s) <==> '1' <= s[0] <= '9' || HasNonzeroDigit(rest) by {
        if HasNonzeroDigit(rest) {
          var i :| 0 <= i < |rest| && '1' <= rest[i] <= '9';
          assert s[i + 1] == rest[i];
        }
        if HasNonzeroDigit(s) {
          var i :| 0 <= i < |s| && '1' <= s[i] <= '9';
          if i > 0 { assert rest[i - 1] == s[i]; }
        }
      }
      (DigitValue(s[0]) as real + FracValue(rest)) / 10.0
  }

  /** 10 to the power `n`. */
  function Pow10(n: nat): (p: nat)
    ensures p >= 1
  {
    if n == 0 then 1 else 10 * Pow10(n - 1)
  }

  lemma DigitsSlice(s: string, i: int, j: int)
    requires AllDigits(s) && 0 <= i <= j <= |s|
    ensures AllDigits(s[i..j])
  {
    forall m | 0 <= m < j - i ensures IsDigit(s[i..j][m]) { assert s[i..j][m] == s[i + m]; }
  }

  /** `x` times 10^n, one factor of ten at a time. */
  function Scale10(x: real, n: nat): real {
    if n == 0 then x else 10.0 * Scale10(x, n - 1)
  }

  lemma {:induction false} Scale10Add(x: real, y: real, n: nat)
    ensures Scale10(x + y, n) == Scale10(x, n) + Scale10(y, n)
  {
    if n > 0 { Scale10Add(x, y, n - 1); }
  }

  lemma {:induction false} Scale10Tenth(x: real, n: nat)
    ensures Scale10(x / 10.0, n + 1) == Scale10(x, n)
  {
    if n > 0 { Scale10Tenth(x, n - 1); }
  }

  lemma {:induction false} Scale10Pow(x: real, n: nat)
    ensures Scale10(x, n) == x * (Pow10(n) as real)
  {
    if n > 0 {
      Scale10Pow(x, n - 1);
      assert 10.0 * (x * (Pow10(n - 1) as real)) == x * ((10 * Pow10(n - 1)) as real);
    }
  }

  /** The integer reading, split at its most significant digit. */
  lemma {:induction false} IntValueFront(s: string)
    requires AllDigits(s) && |s| > 0
    ensures AllDigits(s[1..])
    ensures IntValue(s) as real == Scale10(DigitValue(s[0]) as real, |s| - 1) + IntValue(s[1..]) as real
  {
    DigitsSlice(s, 1, |s|);
    var tail := s[1..];
    if |s| > 1 {
      var init := s[..|s| - 1];
      DigitsSlice(s, 0, |s| - 1);
      IntValueFront(init);
      assert init[1..] == tail[..|tail| - 1];
      assert init[0] == s[0] && tail[|tail| - 1] == s[|s| - 1];
      assert IntValue(tail) == IntValue(init[1..]) * 10 + DigitValue(s[|s| - 1]);
      assert IntValue(s) == IntValue(init) * 10 + DigitValue(s[|s| - 1]);
    } else {
      assert s[..0] == [] && tail == [];
    }
  }

  /**
    The two readings of a digit string agree: the fraction 0.s scaled by
    10^|s| is the integer s.
   */
  lemma {:induction false} FracScaled(s: string)
    requires AllDigits(s)
    ensures Scale10(FracValue(s), |s|) == IntValue(s) as real
  {
    if s != [] {
      var rest := s[1..];
      var d := DigitValue(s[0]) as real;
      IntValueFront(s);
      FracScaled(rest);
      assert FracValue(s) == (d + FracValue(rest)) / 10.0;
      Scale10Tenth(d + FracValue(rest), |rest|);
      Scale10Add(d, FracValue(rest), |rest|);
    }
  }

  /** The fraction read from `s` is the integer `s` over 10^|s|. */
  lemma FracAsQuotient(s: string)
    requires AllDigits(s)
    ensures FracValue(s) == IntValue(s) as real / Pow10(|s|) as real
  {
    FracScaled(s);
    Unscale10(FracValue(s), |s|, IntValue(s) as real);
  }

  lemma Unscale10(x: real, n: nat, y: real)
    requires Scale10(x, n) == y
    ensures x == y / Pow10(n) as real
  {
    Scale10Pow(x, n);
  }

  /** Position of the first dot of `s`, or |s| when there is none. */
  function DotIndex(s: string): (k: nat)
    ensures k <= |s|
    ensures k < |s| ==> s[k] == '.'
    ensures forall i :: 0 <= i < k ==> s[i] != '.'
  {
    if s == [] then 0
    else if s[0] == '.' then 0
    else 1 + DotIndex(s[1..])
  }

  /** In an accepted string, everything before the first dot and everything after it is digits. */
  lemma AcceptedParts(s: string)
    requires Accepts(s)
    ensures AllDigits(s[..DotIndex(s)])
    ensures DotIndex(s) < |s| ==> AllDigits(s[DotIndex(s) + 1..])
  {
    AcceptsIffPattern(s);
    var i, j :| PatternAt(s, i, j);
    var k := DotIndex(s);
    if j == i {
      assert s == s[..i] + s[j..];
      forall m | 0 <= m < |s| ensures IsDigit(s[m]) {
        if m < i { assert s[m] == s[..i][m]; } else { assert s[m] == s[j..][m - j]; }
      }
      assert k == |s|;
      assert s[..k] == s;
    } else {
      assert k == i by {
        forall m | 0 <= m < i ensures s[m] != '.' { assert s[m] == s[..i][m]; }
      }
      assert s[..k] == s[..i];
    }
  }

  /** `Number(s)` for an admitted string `s`. */
  function Parse(s: string): (r: Num)
    requires Accepts(s)
    ensures r.NaN? <==> s == "."
    ensures r.Val? ==> r.value >= 0.0
    ensures AllDigits(s) ==> r == Val(IntValue(s) as real)
    ensures r.Val? ==> (r.value > 0.0 <==> HasNonzeroDigit(s))
  {
    if s == "." then NaN
    else
      var k := DotIndex(s);
      AcceptedParts(s);
      var whole := s[..k];
      if k == |s| then
        assert whole == s;
        Val(IntValue(whole) as real)
      else
        var frac := s[k + 1..];
        assert !AllDigits(s) by { assert !IsDigit(s[k]); }
        assert HasNonzeroDigit(s) <==> HasNonzeroDigit(whole) || HasNonzeroDigit(frac) by {
          if HasNonzeroDigit(s) {
            var i :| 0 <= i < |s| && '1' <= s[i] <= '9';
            if i < k { assert whole[i] == s[i]; }
            else { assert i != k; assert frac[i - k - 1] == s[i]; }
          }
          if HasNonzeroDigit(whole) {
            var i :| 0 <= i < |whole| && '1' <= whole[i] <= '9';
            assert s[i] == whole[i];
          }
          if HasNonzeroDigit(frac) {
            var i :| 0 <= i < |frac| && '1' <= frac[i] <= '9';
            assert s[i + k + 1] == frac[i];
          }
        }
        Val(IntValue(whole) as real + FracValue(frac))
  }

  /**
    A decimal `w.f` with at least one digit reads as the integer `w` plus the
    integer `f` over 10^|f|.
   */
  lemma ParseDecimal(w: string, f: string)
    requires AllDigits(w) && AllDigits(f) && |w| + |f| > 0
    ensures Accepts(w + "." + f)
    ensures Parse(w + "." + f) == Val(IntValue(w) as real + IntValue(f) as real / Pow10(|f|) as real)
  {
    var s := w + "." + f;
    assert s[..|w|] == w && s[|w| + 1..] == f && s[|w|] == '.';
    assert PatternAt(s, |w|, |w| + 1);
    AcceptsIffPattern(s);
    var k := DotIndex(s);
    assert k == |w|;
    assert s != ".";
    assert Parse(s) == Val(IntValue(w) as real + FracValue(f));
    FracAsQuotient(f);
  }

  /**
    `Number(s) || fallback`: JavaScript's `||` keeps a truthy value and replaces
    0 and NaN by the fallback. On admitted strings that is "the value, if the
    string has a digit other than 0, and otherwise the fallback".
   */
  function NumberOr(s: string, fallback: real): (r: real)
    requires Accepts(s)
    ensures HasNonzeroDigit(s) ==> Parse(s).Val? && r == Parse(s).value && r > 0.0
    ensures !HasNonzeroDigit(s) ==> r == fallback
  {
    match Parse(s)
    case NaN => fallback
    case Val(v) => if v == 0.0 then fallback else v
  }
}
