/**
 * The string operations the core relies on: ASCII lower-casing, code-point
 * ordering as Python's `sorted` uses it, substring tests and the decimal
 * forms that `float(str)` accepts.
 */
module Text {
  import opened Values

  predicate IsUpper(c: char) { 'A' <= c <= 'Z' }

  function LowerChar(c: char): (r: char)
    ensures !IsUpper(r)
    ensures !IsUpper(c) ==> r == c
    ensures IsUpper(c) ==> r as int == c as int + 32
  {
    if IsUpper(c) then (c as int + 32) as char else c
  }

  /** `str.lower()` restricted to ASCII letters. */
  function Lower(s: string): (r: string)
    ensures |r| == |s|
    ensures forall i :: 0 <= i < |s| ==> r[i] == LowerChar(s[i])
  {
    if s == [] then [] else [LowerChar(s[0])] + Lower(s[1..])
  }

  /** Lower-casing twice is lower-casing once. */
  lemma LowerIdempotent(s: string)
    ensures Lower(Lower(s)) == Lower(s)
  {
    var l := Lower(s);
    assert forall i :: 0 <= i < |l| ==> Lower(l)[i] == l[i];
  }

  /** Python's `<` on strings: lexicographic by code point, a proper prefix first. */
  predicate LexLess(a: string, b: string)
    ensures LexLess(a, b) ==> a != b
    ensures |a| < |b| && a == b[..|a|] ==> LexLess(a, b)
    decreases |a|
  {
    if a == [] then b != []
    else if b == [] then false
    else if a[0] != b[0] then a[0] < b[0]
    else LexLess(a[1..], b[1..])
  }

  lemma {:induction false} LexLessIrreflexive(a: string)
    ensures !LexLess(a, a)
    decreases |a|
  {
    if a != [] { LexLessIrreflexive(a[1..]); }
  }

  lemma {:induction false} LexLessTransitive(a: string, b: string, c: string)
    requires LexLess(a, b) && LexLess(b, c)
    ensures LexLess(a, c)
    decreases |a|
  {
    if a != [] && a[0] == b[0] && b[0] == c[0] {
      LexLessTransitive(a[1..], b[1..], c[1..]);
    }
  }

  lemma {:induction false} LexLessTotal(a: string, b: string)
    requires a != b
    ensures LexLess(a, b) || LexLess(b, a)
    decreases |a|
  {
    if a != [] && b != [] && a[0] == b[0] {
      assert a == [a[0]] + a[1..] && b == [b[0]] + b[1..];
      LexLessTotal(a[1..], b[1..]);
    }
  }

  /** Strictly ascending, so also free of duplicates. */
  predicate Sorted(s: seq<string>)
  {
    forall i, j :: 0 <= i < j < |s| ==> LexLess(s[i], s[j])
  }

  /** Ascending neighbours make the whole list ascending. */
  lemma SortedFromNeighbours(s: seq<string>)
    requires forall i :: 0 <= i < |s| - 1 ==> LexLess(s[i], s[i + 1])
    ensures Sorted(s)
  {
    forall i, j | 0 <= i < j < |s| ensures LexLess(s[i], s[j]) {
      AscendingRun(s, i, j);
    }
  }

  lemma {:induction false} AscendingRun(s: seq<string>, i: nat, j: nat)
    requires forall k :: 0 <= k < |s| - 1 ==> LexLess(s[k], s[k + 1])
    requires i < j < |s|
    ensures LexLess(s[i], s[j])
    decreases j - i
  {
    if i + 1 < j {
      AscendingRun(s, i + 1, j);
      LexLessTransitive(s[i], s[i + 1], s[j]);
    }
  }

  lemma SortedDistinct(s: seq<string>)
    requires Sorted(s)
    ensures forall i, j :: 0 <= i < j < |s| ==> s[i] != s[j]
  {
    forall i, j | 0 <= i < j < |s| ensures s[i] != s[j] {
      LexLessIrreflexive(s[i]);
    }
  }

  /** Adds `x` to an ascending list, keeping it ascending and duplicate-free. */
  function Insert(x: string, s: seq<string>): (r: seq<string>)
    requires Sorted(s)
    ensures Sorted(r)
    ensures forall y :: y in r <==> y == x || y in s
  {
    if s == [] then [x]
    else if x == s[0] then s
    else if LexLess(x, s[0]) then
      assert forall j :: 0 < j < |s| ==> LexLess(x, s[j]) by {
        forall j | 0 < j < |s| ensures LexLess(x, s[j]) { LexLessTransitive(x, s[0], s[j]); }
      }
      [x] + s
    else
      LexLessTotal(x, s[0]);
      var tail := Insert(x, s[1..]);
      assert forall y :: y in tail ==> LexLess(s[0], y) by {
        forall y | y in tail ensures LexLess(s[0], y) {
          if y != x { var j :| 0 <= j < |s[1..]| && s[1..][j] == y; assert s[j + 1] == y; }
        }
      }
      [s[0]] + tail
  }

  predicate IsDigit(c: char) { '0' <= c <= '9' }

  function DigitsValue(ds: string): (n: nat)
    requires forall i :: 0 <= i < |ds| ==> IsDigit(ds[i])
    decreases |ds|
  {
    if ds == [] then 0
    else 10 * DigitsValue(ds[..|ds| - 1]) + DigitValue(ds[|ds| - 1])
  }

  function DigitValue(c: char): (d: nat)
    requires IsDigit(c)
    ensures d <= 9
  {
    c as int - '0' as int
  }

  function Pow10(k: nat): (p: nat)
    ensures p >= 1
  {
    if k == 0 then 1 else 10 * Pow10(k - 1)
  }

  predicate AllDigits(s: string) { forall i :: 0 <= i < |s| ==> IsDigit(s[i]) }

  predicate IsSpace(c: char) { c == ' ' || c == '\t' || c == '\n' || c == '\r' || c == '\U{0B}' || c == '\U{0C}' }

  /** `str.strip()` for ASCII white space. */
  function Strip(s: string): (r: string)
    ensures |r| <= |s|
    ensures r != [] ==> !IsSpace(r[0]) && !IsSpace(r[|r| - 1])
    decreases |s|
  {
    if s == [] then []
    else if IsSpace(s[0]) then Strip(s[1..])
    else if IsSpace(s[|s| - 1]) then Strip(s[..|s| - 1])
    else s
  }

  /** Index of the first '.', or |s| when there is none. */
  function DotIndex(s: string): (k: nat)
    ensures k <= |s|
    ensures forall i :: 0 <= i < k ==> s[i] != '.'
    ensures k < |s| ==> s[k] == '.'
  {
    if s == [] then 0 else if s[0] == '.' then 0 else 1 + DotIndex(s[1..])
  }

  /** The number denoted by an unsigned decimal numeral `digits[.digits]`. */
  function UnsignedDecimal(body: string): Option<real>
  {
    var k := DotIndex(body);
    DecimalValue(body[..k], if k < |body| then body[k + 1..] else [])
  }

  /** The number `whole.frac` denotes, when both parts are digits and not both empty. */
  function DecimalValue(whole: string, frac: string): Option<real>
  {
    if AllDigits(whole) && AllDigits(frac) && |whole| + |frac| > 0 then
      Some(DigitsValue(whole) as real + DigitsValue(frac) as real / Pow10(|frac|) as real)
    else None
  }

  /** A decimal numeral with an optional sign and no surrounding white space. */
  function SignedDecimal(t: string): (r: Option<real>)
    ensures r.Some? ==> exists i :: 0 <= i < |t| && IsDigit(t[i])
  {
    if t != [] && (t[0] == '-' || t[0] == '+') then
      match UnsignedDecimal(t[1..])
      case Some(x) => Some(if t[0] == '-' then -x else x)
      case None => None
    else UnsignedDecimal(t)
  }

  /** `float(s)` for a signed decimal numeral with surrounding white space. */
  function ParseDecimal(s: string): (r: Option<real>)
    ensures r.Some? ==> exists i :: 0 <= i < |s| && IsDigit(s[i])
  {
    StripInfix(s);
    SignedDecimal(Strip(s))
  }

  /** A string without a '.' has its "first point" at its end. */
  lemma DotIndexOfDigits(ds: string)
    requires AllDigits(ds)
    ensures DotIndex(ds) == |ds|
  {
  }

  /** A string that neither starts nor ends with white space is left whole by `Strip`. */
  lemma StripKeeps(s: string)
    requires s != [] && !IsSpace(s[0]) && !IsSpace(s[|s| - 1])
    ensures Strip(s) == s
  {
  }

  /** An unsigned integer numeral denotes the number its digits spell. */
  lemma UnsignedNatural(ds: string)
    requires ds != [] && AllDigits(ds)
    ensures UnsignedDecimal(ds) == Some(DigitsValue(ds) as real)
  {
    DotIndexOfDigits(ds);
    assert ds[..|ds|] == ds;
  }

  /** An unsigned numeral is split at its point into whole and fractional digits. */
  lemma UnsignedSplitsAtPoint(whole: string, frac: string)
    requires AllDigits(whole)
    ensures UnsignedDecimal(whole + "." + frac) == DecimalValue(whole, frac)
  {
    var s := whole + "." + frac;
    DotIndexAfterDigits(whole, "." + frac);
    assert s == whole + ("." + frac);
    var k := DotIndex(s);
    assert s[..k] == whole;
    assert s[k + 1..] == frac;
  }

  /** `whole.frac` denotes the whole part plus the fraction. */
  lemma UnsignedFraction(whole: string, frac: string)
    requires AllDigits(whole) && AllDigits(frac) && |whole| + |frac| > 0
    ensures UnsignedDecimal(whole + "." + frac) ==
      Some(DigitsValue(whole) as real + DigitsValue(frac) as real / Pow10(|frac|) as real)
  {
    UnsignedSplitsAtPoint(whole, frac);
    DecimalValueOfDigits(whole, frac);
  }

  lemma DecimalValueOfDigits(whole: string, frac: string)
    requires AllDigits(whole) && AllDigits(frac) && |whole| + |frac| > 0
    ensures DecimalValue(whole, frac) == Some(DigitsValue(whole) as real + DigitsValue(frac) as real / Pow10(|frac|) as real)
  {
  }

  /** An unsigned integer numeral reads as the number its digits denote. */
  lemma ParseNatural(ds: string)
    requires ds != [] && AllDigits(ds)
    ensures ParseDecimal(ds) == Some(DigitsValue(ds) as real)
  {
    StripKeeps(ds);
    assert !(ds[0] == '-' || ds[0] == '+');
    UnsignedNatural(ds);
  }

  /** A minus sign negates the numeral that follows it. */
  lemma ParseNegative(ds: string)
    requires ds != [] && AllDigits(ds)
    ensures ParseDecimal("-" + ds) == Some(-(DigitsValue(ds) as real))
  {
    var s := "-" + ds;
    assert s[0] == '-' && s[|s| - 1] == ds[|ds| - 1];
    StripKeeps(s);
    assert s[1..] == ds;
    UnsignedNatural(ds);
  }

  /** `whole.frac` reads as the whole part plus the fraction in tenths, hundredths, ... */
  lemma ParseFraction(whole: string, frac: string)
    requires AllDigits(whole) && AllDigits(frac) && |whole| + |frac| > 0
    ensures ParseDecimal(whole + "." + frac) ==
      Some(DigitsValue(whole) as real + DigitsValue(frac) as real / Pow10(|frac|) as real)
  {
    var s := whole + "." + frac;
    assert s[0] == (if whole != [] then whole[0] else '.');
    assert s[|s| - 1] == (if frac != [] then frac[|frac| - 1] else '.');
    StripKeeps(s);
    UnsignedFraction(whole, frac);
  }

  /** The first '.' after a run of digits is the one right after them. */
  lemma {:induction false} DotIndexAfterDigits(ds: string, rest: string)
    requires AllDigits(ds) && rest != [] && rest[0] == '.'
    ensures DotIndex(ds + rest) == |ds|
    decreases |ds|
  {
    if ds != [] {
      assert (ds + rest)[1..] == ds[1..] + rest;
      DotIndexAfterDigits(ds[1..], rest);
    }
  }

  /** A numeral with two decimal points is not a number. */
  lemma TwoPointsRejected(s: string, i: nat, j: nat)
    requires s != [] && !IsSpace(s[0]) && !IsSpace(s[|s| - 1])
    requires i < j < |s| && s[i] == '.' && s[j] == '.'
    ensures ParseDecimal(s) == None
  {
    StripKeeps(s);
    if s[0] == '-' || s[0] == '+' {
      var body := s[1..];
      assert body[i - 1] == '.' && body[j - 1] == '.';
      var k := DotIndex(body);
      assert k <= i - 1;
      assert body[k + 1..][j - 1 - (k + 1)] == '.';
    } else {
      var k := DotIndex(s);
      assert k <= i;
      assert s[k + 1..][j - (k + 1)] == '.';
    }
  }

  /** Every character of `Strip(s)` is a character of `s`. */
  lemma {:induction false} StripInfix(s: string)
    ensures forall i :: 0 <= i < |Strip(s)| ==> exists j :: 0 <= j < |s| && s[j] == Strip(s)[i]
    decreases |s|
  {
    if s == [] {
      assert Strip(s) == [];
    } else if IsSpace(s[0]) {
      StripInfix(s[1..]);
      forall i | 0 <= i < |Strip(s)| ensures exists j :: 0 <= j < |s| && s[j] == Strip(s)[i] {
        var j :| 0 <= j < |s[1..]| && s[1..][j] == Strip(s[1..])[i];
        assert s[j + 1] == Strip(s)[i];
      }
    } else if IsSpace(s[|s| - 1]) {
      StripInfix(s[..|s| - 1]);
      forall i | 0 <= i < |Strip(s)| ensures exists j :: 0 <= j < |s| && s[j] == Strip(s)[i] {
        var j :| 0 <= j < |s[..|s| - 1]| && s[..|s| - 1][j] == Strip(s[..|s| - 1])[i];
        assert s[j] == Strip(s)[i];
      }
    }
  }

  /** Python's `"code" in s` on strings: a substring test. */
  predicate ContainsSub(s: string, sub: string)
    ensures ContainsSub(s, sub) ==> |sub| <= |s|
    decreases |s|
  {
    |sub| <= |s| && (s[..|sub|] == sub || (s != [] && ContainsSub(s[1..], sub)))
  }

  /** `sub` occurs in `s` starting at index `k`. */
  predicate OccursAt(s: string, sub: string, k: nat)
  {
    k + |sub| <= |s| && s[k..k + |sub|] == sub
  }

  /** The substring test holds exactly when `sub` occurs at some index of `s`. */
  lemma {:induction false} ContainsSubOccurs(s: string, sub: string)
    ensures ContainsSub(s, sub) <==> exists k: nat :: k <= |s| && OccursAt(s, sub, k)
    decreases |s|
  {
    if |sub| <= |s| {
      assert OccursAt(s, sub, 0) <==> s[..|sub|] == sub;
      if s != [] {
        ContainsSubOccurs(s[1..], sub);
        forall k: nat | k < |s| ensures OccursAt(s[1..], sub, k) <==> OccursAt(s, sub, k + 1) {
          if k + |sub| <= |s[1..]| {
            assert s[1..][k..k + |sub|] == s[k + 1..k + 1 + |sub|];
          }
        }
        if ContainsSub(s, sub) && s[..|sub|] != sub {
          var k: nat :| k <= |s[1..]| && OccursAt(s[1..], sub, k);
          assert OccursAt(s, sub, k + 1);
        }
        if exists k: nat :: k <= |s| && OccursAt(s, sub, k) {
          var k: nat :| k <= |s| && OccursAt(s, sub, k);
          if k > 0 { assert OccursAt(s[1..], sub, k - 1); }
        }
      }
    }
  }
}
