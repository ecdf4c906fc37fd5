/**
 * Exact counterparts of the numeric built-ins the code base relies on:
 * Python's round() (nearest, ties to even), JavaScript's Math.round (nearest,
 * ties towards +infinity), and minima and maxima of sequences.
 * All values are reals, so the binary floating-point representation of the
 * source is not modelled.
 */
module Numeric {

  function Min(a: int, b: int): int { if a <= b then a else b }
  function Max(a: int, b: int): int { if a >= b then a else b }
  function MinR(a: real, b: real): real { if a <= b then a else b }
  function MaxR(a: real, b: real): real { if a >= b then a else b }

  function Abs(x: real): (r: real)
    ensures r >= 0.0 && (r == x || r == -x)
  {
    if x < 0.0 then -x else x
  }

  /** Python's round(x) with no digits: the nearest integer, ties to the even neighbour. */
  function RoundHalfEven(x: real): (r: int)
    ensures x - 0.5 <= r as real <= x + 0.5
    ensures x - 0.5 == r as real || r as real == x + 0.5 ==> r % 2 == 0
  {
    var f := x.Floor;
    var d := x - f as real;
    if d < 0.5 then f
    else if d > 0.5 then f + 1
    else if f % 2 == 0 then f
    else f + 1
  }

  lemma RoundHalfEvenMonotone(x: real, y: real)
    requires x <= y
    ensures RoundHalfEven(x) <= RoundHalfEven(y)
  {
  }

  lemma RoundHalfEvenOfInt(k: int)
    ensures RoundHalfEven(k as real) == k
  {
  }

  /** 10^digits for the digit counts the code base rounds to. */
  function Scale(digits: nat): (p: real)
    requires digits <= 3
    ensures p >= 1.0
  {
    if digits == 0 then 1.0 else if digits == 1 then 10.0 else if digits == 2 then 100.0 else 1000.0
  }

  /** Python's round(x, digits): the nearest multiple of 10^-digits, ties to the even multiple. */
  function Round(x: real, digits: nat): (r: real)
    requires digits <= 3
  {
    Unscale(RoundHalfEven(Rescale(x, digits)), digits)
  }

  /** x * 10^digits */
  function Rescale(x: real, digits: nat): real
    requires digits <= 3
  {
    x * Scale(digits)
  }

  /** n / 10^digits */
  function Unscale(n: int, digits: nat): real
    requires digits <= 3
  {
    n as real / Scale(digits)
  }

  lemma MulMonotone(x: real, y: real, p: real)
    requires x <= y && p >= 0.0
    ensures x * p <= y * p
  {
    assert y * p - x * p == (y - x) * p;
  }

  lemma DivMonotone(a: real, b: real, p: real)
    requires a <= b && p > 0.0
    ensures a / p <= b / p
  {
    assert b / p - a / p == (b - a) / p;
  }

  lemma RoundMonotone(x: real, y: real, digits: nat)
    requires x <= y && digits <= 3
    ensures Round(x, digits) <= Round(y, digits)
  {
    var p := Scale(digits);
    MulMonotone(x, y, p);
    RoundHalfEvenMonotone(Rescale(x, digits), Rescale(y, digits));
    var a, b := RoundHalfEven(Rescale(x, digits)), RoundHalfEven(Rescale(y, digits));
    DivMonotone(a as real, b as real, p);
  }

  /** A whole number is left unchanged by rounding. */
  lemma RoundOfInt(k: int, digits: nat)
    requires digits <= 3
    ensures Round(k as real, digits) == k as real
  {
    var n := ScaleInt(digits) * k;
    ScaledWhole(k, digits);
    RoundHalfEvenOfInt(n);
    assert Unscale(n, digits) == n as real / Scale(digits);
  }

  /** 10^digits as an integer. */
  function ScaleInt(digits: nat): (n: int)
    requires digits <= 3
    ensures n as real == Scale(digits)
  {
    if digits == 0 then 1 else if digits == 1 then 10 else if digits == 2 then 100 else 1000
  }

  /** Scaling a whole number gives a whole number, and scaling back restores it. */
  lemma ScaledWhole(k: int, digits: nat)
    requires digits <= 3
    ensures Rescale(k as real, digits) == (ScaleInt(digits) * k) as real
    ensures Unscale(ScaleInt(digits) * k, digits) == k as real
  {
    var n := ScaleInt(digits);
    assert (n * k) as real == n as real * k as real;
    assert (n * k) as real / n as real == k as real;
  }

  /** p / p is 1 and -p / p is -1 for every non-zero p. */
  lemma DivSelf(p: real)
    requires p != 0.0
    ensures p / p == 1.0 && -p / p == -1.0
  {
    assert -p / p == -(p / p);
  }

  /** Rounding never leaves the interval [lo, hi] when both ends are whole numbers. */
  lemma RoundWithin(x: real, digits: nat, lo: int, hi: int)
    requires lo as real <= x <= hi as real && digits <= 3
    ensures lo as real <= Round(x, digits) <= hi as real
  {
    RoundMonotone(lo as real, x, digits);
    RoundMonotone(x, hi as real, digits);
    RoundOfInt(lo, digits);
    RoundOfInt(hi, digits);
  }

  /** JavaScript's Math.round: the nearest integer, ties towards +infinity. */
  function JsRound(x: real): (r: int)
    ensures x - 0.5 < r as real <= x + 0.5
  {
    (x + 0.5).Floor
  }

  lemma JsRoundMonotone(x: real, y: real)
    requires x <= y
    ensures JsRound(x) <= JsRound(y)
  {
  }

  lemma JsRoundOfInt(k: int)
    ensures JsRound(k as real) == k
  {
  }

  /** Smallest element of a non-empty sequence. */
  function SeqMin(s: seq<real>): (m: real)
    requires |s| > 0
    ensures m in s
    ensures forall x :: x in s ==> m <= x
  {
    if |s| == 1 then s[0]
    else
      var rest := SeqMin(s[1..]);
      assert forall x :: x in s ==> x == s[0] || x in s[1..];
      MinR(s[0], rest)
  }

  /** Largest element of a non-empty sequence. */
  function SeqMax(s: seq<real>): (m: real)
    requires |s| > 0
    ensures m in s
    ensures forall x :: x in s ==> x <= m
  {
    if |s| == 1 then s[0]
    else
      var rest := SeqMax(s[1..]);
      assert forall x :: x in s ==> x == s[0] || x in s[1..];
      MaxR(s[0], rest)
  }
}
