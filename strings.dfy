/**
 * String operations the code base takes from Python and JavaScript:
 * str.strip(), str.lower(), int(str) and the default (lexicographic) order of
 * Array.prototype.sort.
 */
module Strings {
  import opened Optional

  /** Characters for which Python's str.isspace() holds (str.strip() and int() remove them). */
  predicate IsSpace(c: char) {
    var n := c as int;
    (9 <= n <= 13) || (28 <= n <= 32) || n == 0x85 || n == 0xA0 || n == 0x1680
    || (0x2000 <= n <= 0x200A) || n == 0x2028 || n == 0x2029 || n == 0x202F || n == 0x205F
    || n == 0x3000
  }

  function StripLeft(s: string): (r: string)
    ensures |r| <= |s| && r == s[|s| - |r|..]
  {
    if s == [] || !IsSpace(s[0]) then s else StripLeft(s[1..])
  }

  function StripRight(s: string): (r: string)
    ensures |r| <= |s| && r == s[..|r|]
  {
    if s == [] || !IsSpace(s[|s| - 1]) then s else StripRight(s[..|s| - 1])
  }

  /** Python's str.strip() with no argument. */
  function Strip(s: string): (r: string)
    ensures |r| <= |s|
  {
    StripRight(StripLeft(s))
  }

  /** Only whitespace is cut off on the left, and what is left does not start with whitespace. */
  lemma {:induction false} StripLeftCutsSpace(s: string)
    ensures forall i :: 0 <= i < |s| - |StripLeft(s)| ==> IsSpace(s[i])
    ensures StripLeft(s) == [] || !IsSpace(StripLeft(s)[0])
  {
    if s != [] && IsSpace(s[0]) {
      StripLeftCutsSpace(s[1..]);
      assert StripLeft(s) == StripLeft(s[1..]);
      forall i | 1 <= i < |s| - |StripLeft(s)|
        ensures IsSpace(s[i])
      {
        assert s[i] == s[1..][i - 1];
      }
    }
  }

  /** Only whitespace is cut off on the right, and what is left does not end with whitespace. */
  lemma {:induction false} StripRightCutsSpace(s: string)
    ensures forall i :: |StripRight(s)| <= i < |s| ==> IsSpace(s[i])
    ensures StripRight(s) == [] || !IsSpace(StripRight(s)[|StripRight(s)| - 1])
  {
    if s != [] && IsSpace(s[|s| - 1]) {
      StripRightCutsSpace(s[..|s| - 1]);
    }
  }

  /** strip() gives the empty string exactly for the all-whitespace strings. */
  lemma StripEmptyIffBlank(s: string)
    ensures Strip(s) == [] <==> forall i :: 0 <= i < |s| ==> IsSpace(s[i])
  {
    StripLeftCutsSpace(s);
    var l := StripLeft(s);
    if l != [] {
      assert l[0] == s[|s| - |l|];
      StripRightCutsSpace(l);
    }
  }

  /** Leading whitespace does not change the stripped string. */
  lemma StripLeadingSpace(c: char, s: string)
    requires IsSpace(c)
    ensures Strip([c] + s) == Strip(s)
  {
    assert ([c] + s)[1..] == s;
  }

  /** Python's str.lower(), restricted to the ASCII letters. */
  function LowerChar(c: char): (d: char)
    ensures !('A' <= d <= 'Z')
    ensures !('A' <= c <= 'Z') ==> d == c
  {
    if 'A' <= c <= 'Z' then (c as int + 32) as char else c
  }

  function Lower(s: string): (r: string)
    ensures |r| == |s|
    ensures forall i :: 0 <= i < |s| ==> r[i] == LowerChar(s[i])
  {
    if s == [] then [] else [LowerChar(s[0])] + Lower(s[1..])
  }

  lemma LowerIdempotent(s: string)
    ensures Lower(Lower(s)) == Lower(s)
  {
  }

  lemma LowerCharSpace(c: char)
    ensures IsSpace(LowerChar(c)) == IsSpace(c)
  {
  }

  /** Lower-casing leaves whitespace alone, so it commutes with strip(). */
  lemma LowerStripCommute(s: string)
    ensures Lower(Strip(s)) == Strip(Lower(s))
  {
    StripLeftLower(s);
    StripRightLower(StripLeft(s));
  }

  lemma {:induction false} StripLeftLower(s: string)
    ensures Lower(StripLeft(s)) == StripLeft(Lower(s))
  {
    if s != [] {
      var t := Lower(s);
      LowerCharSpace(s[0]);
      assert t[0] == LowerChar(s[0]);
      if IsSpace(s[0]) {
        assert t[1..] == Lower(s[1..]);
        StripLeftLower(s[1..]);
      }
    }
  }

  lemma {:induction false} StripRightLower(s: string)
    ensures Lower(StripRight(s)) == StripRight(Lower(s))
  {
    if s != [] {
      var t := Lower(s);
      var n := |s| - 1;
      LowerCharSpace(s[n]);
      if IsSpace(s[n]) {
        LowerPrefix(s, n);
        StripRightLower(s[..n]);
        calc {
          Lower(StripRight(s));
          Lower(StripRight(s[..n]));
          StripRight(Lower(s[..n]));
          StripRight(t[..n]);
          { assert IsSpace(t[n]); }
          StripRight(t);
        }
      }
    }
  }

  lemma LowerPrefix(s: string, n: nat)
    requires n <= |s|
    ensures Lower(s)[..n] == Lower(s[..n])
  {
  }

  // ---------------------------------------------------------------------------
  // Lexicographic order (the default comparison of JavaScript's Array.sort)
  // ---------------------------------------------------------------------------

  /** a comes strictly before b: a proper prefix of b, or smaller at the first difference. */
  predicate LexLess(a: string, b: string) {
    if a == [] then b != []
    else if b == [] then false
    else if a[0] != b[0] then a[0] < b[0]
    else LexLess(a[1..], b[1..])
  }

  lemma {:induction false} LexLessIrreflexive(a: string)
    ensures !LexLess(a, a)
  {
    if a != [] {
      LexLessIrreflexive(a[1..]);
    }
  }

  lemma {:induction false} LexLessTransitive(a: string, b: string, c: string)
    requires LexLess(a, b) && LexLess(b, c)
    ensures LexLess(a, c)
  {
    if a != [] && a[0] == b[0] && b[0] == c[0] {
      LexLessTransitive(a[1..], b[1..], c[1..]);
    }
  }

  lemma {:induction false} LexLessTotal(a: string, b: string)
    ensures a == b || LexLess(a, b) || LexLess(b, a)
  {
    if a != [] && b != [] && a[0] == b[0] {
      LexLessTotal(a[1..], b[1..]);
      if a[1..] == b[1..] {
        assert a == [a[0]] + a[1..] && b == [b[0]] + b[1..];
      }
    }
  }

  // ---------------------------------------------------------------------------
  // Python's int() applied to a string
  // ---------------------------------------------------------------------------

  predicate IsDigit(c: char) { '0' <= c <= '9' }

  /** Decimal digits, with single underscores allowed between two digits ("1_000"). */
  predicate WellFormedDigits(s: string) {
    |s| > 0 && IsDigit(s[0]) && IsDigit(s[|s| - 1])
    && (forall i :: 0 <= i < |s| ==> IsDigit(s[i]) || s[i] == '_')
    && (forall i :: 0 <= i < |s| - 1 ==> s[i] == '_' ==> s[i + 1] != '_')
  }

  /** The value of the digits of s, underscores skipped. */
  function DigitsValue(s: string): nat {
    if s == [] then 0
    else if IsDigit(s[|s| - 1]) then DigitsValue(s[..|s| - 1]) * 10 + (s[|s| - 1] as int - '0' as int)
    else DigitsValue(s[..|s| - 1])
  }

  /** int(s): surrounding whitespace, an optional sign, then well-formed digits; None where
      Python raises ValueError. */
  function ParseInt(s: string): (r: Option<int>)
    ensures r.Some? ==> Strip(s) != []
  {
    var t := Strip(s);
    if |t| > 0 && (t[0] == '+' || t[0] == '-') then
      if WellFormedDigits(t[1..]) then
        Some(if t[0] == '-' then -(DigitsValue(t[1..]) as int) else DigitsValue(t[1..]) as int)
      else None
    else if WellFormedDigits(t) then Some(DigitsValue(t))
    else None
  }

  /** A blank string never parses. */
  lemma ParseIntBlank(s: string)
    requires Strip(s) == []
    ensures ParseInt(s) == None
  {
  }
}
