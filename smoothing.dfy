/** Numerical smoothing helpers used across the agents: moving average, EMA and bound. */
module Smoothing {
  import opened Numeric

  /** Sum of a list, added up from the left as Python's sum() does. */
  function Sum(s: seq<real>): real {
    if s == [] then 0.0 else Sum(s[..|s| - 1]) + s[|s| - 1]
  }

  function Mean(s: seq<real>): real
    requires |s| > 0
  {
    Sum(s) / |s| as real
  }

  /** The mean of a non-empty list lies between its smallest and its largest element. */
  lemma {:induction false} SumBetween(s: seq<real>, lo: real, hi: real)
    requires forall x :: x in s ==> lo <= x <= hi
    ensures lo * |s| as real <= Sum(s) <= hi * |s| as real
  {
    if s != [] {
      var p := s[..|s| - 1];
      assert forall x :: x in p ==> x in s;
      assert s[|s| - 1] in s;
      SumBetween(p, lo, hi);
      assert lo * |s| as real == lo * |p| as real + lo;
      assert hi * |s| as real == hi * |p| as real + hi;
    }
  }

  /** lo * n <= S <= hi * n with n > 0 gives lo <= S / n <= hi. */
  lemma DivBetween(lo: real, sum: real, hi: real, n: real)
    requires n > 0.0 && lo * n <= sum <= hi * n
    ensures lo <= sum / n <= hi
  {
    DivMonotone(lo * n, sum, n);
    DivMonotone(sum, hi * n, n);
    assert lo * n / n == lo;
    assert hi * n / n == hi;
  }

  /** A list whose elements all lie in [lo, hi] has its mean in [lo, hi]. */
  lemma MeanWithin(s: seq<real>, lo: real, hi: real)
    requires |s| > 0 && forall x :: x in s ==> lo <= x <= hi
    ensures lo <= Mean(s) <= hi
  {
    SumBetween(s, lo, hi);
    DivBetween(lo, Sum(s), hi, |s| as real);
  }

  lemma MeanBetween(s: seq<real>)
    requires |s| > 0
    ensures SeqMin(s) <= Mean(s) <= SeqMax(s)
  {
    MeanWithin(s, SeqMin(s), SeqMax(s));
  }

  lemma SumSingleton(x: real)
    ensures Sum([x]) == x
  {
    assert [x][..0] == [];
  }

  /** First index of the window that ends at i: max(0, i - window + 1). */
  function WindowStart(i: nat, window: int): (start: nat)
    requires window > 0
    ensures start <= i
  {
    if i - window + 1 > 0 then i - window + 1 else 0
  }

  /** values[max(0, i - window + 1) .. i], the chunk averaged at position i. */
  function Window(values: seq<real>, window: int, i: nat): (w: seq<real>)
    requires i < |values| && window > 0
    ensures 0 < |w| <= window
  {
    values[WindowStart(i, window)..i + 1]
  }

  /** What moving_average returns: the input itself for an empty list or a non-positive
      window, otherwise the mean of each trailing window. */
  function MovingAverageOf(values: seq<real>, window: int): (r: seq<real>)
  {
    if |values| == 0 || window <= 0 then values
    else seq(|values|, i requires 0 <= i < |values| => Mean(Window(values, window, i)))
  }

  /** smoothing.moving_average. */
  method MovingAverage(values: seq<real>, window: int) returns (result: seq<real>)
    ensures result == MovingAverageOf(values, window)
  {
    if |values| == 0 || window <= 0 {
      return values;
    }
    result := [];
    for i := 0 to |values|
      invariant |result| == i
      invariant forall k :: 0 <= k < i ==> result[k] == Mean(Window(values, window, k))
    {
      var start := Max(0, i - window + 1);
      var chunk := values[start..i + 1];
      result := result + [Sum(chunk) / |chunk| as real];
    }
  }

  /** The output is exactly as long as the input. */
  lemma MovingAverageLength(values: seq<real>, window: int)
    ensures |MovingAverageOf(values, window)| == |values|
  {
  }

  /** The first output is the first input (its window is that one value). */
  lemma MovingAverageFirst(values: seq<real>, window: int)
    requires |values| > 0
    ensures MovingAverageOf(values, window)[0] == values[0]
  {
    if window > 0 {
      assert Window(values, window, 0) == [values[0]];
      SumSingleton(values[0]);
    }
  }

  /** A window of one leaves every value as it is. */
  lemma MovingAverageWindowOne(values: seq<real>)
    ensures MovingAverageOf(values, 1) == values
  {
    if |values| > 0 {
      forall i | 0 <= i < |values|
        ensures MovingAverageOf(values, 1)[i] == values[i]
      {
        assert Window(values, 1, i) == [values[i]];
        SumSingleton(values[i]);
      }
    }
  }

  /** Each smoothed value lies between the smallest and the largest value of its window. */
  lemma MovingAverageBetween(values: seq<real>, window: int, i: nat)
    requires window > 0 && i < |values|
    ensures SeqMin(Window(values, window, i)) <= MovingAverageOf(values, window)[i]
            <= SeqMax(Window(values, window, i))
  {
    MeanBetween(Window(values, window, i));
  }

  /** One smoothing step: alpha * value + (1 - alpha) * previous. */
  function EmaStep(alpha: real, value: real, previous: real): real {
    alpha * value + (1.0 - alpha) * previous
  }

  /** smoothing.exponential_moving_average: the first value is kept, every later one is
      alpha * value + (1 - alpha) * previous smoothed value. With 0 <= alpha <= 1 every
      smoothed value stays between the smallest and the largest input. */
  method ExponentialMovingAverage(values: seq<real>, alpha: real) returns (ema: seq<real>)
    ensures |ema| == |values|
    ensures |values| > 0 ==> ema[0] == values[0]
    ensures forall i :: 0 < i < |values| ==> ema[i] == EmaStep(alpha, values[i], ema[i - 1])
    ensures |values| > 0 && 0.0 <= alpha <= 1.0 ==>
      forall i :: 0 <= i < |values| ==> SeqMin(values) <= ema[i] <= SeqMax(values)
  {
    if |values| == 0 {
      return values;
    }
    ghost var lo, hi := SeqMin(values), SeqMax(values);
    ema := [values[0]];
    var i := 1;
    while i < |values|
      invariant 1 <= i <= |values|
      invariant |ema| == i && ema[0] == values[0]
      invariant forall k :: 0 < k < i ==> ema[k] == EmaStep(alpha, values[k], ema[k - 1])
      invariant 0.0 <= alpha <= 1.0 ==> forall k :: 0 <= k < i ==> lo <= ema[k] <= hi
    {
      var next := alpha * values[i] + (1.0 - alpha) * ema[i - 1];
      if 0.0 <= alpha <= 1.0 {
        assert values[i] in values;
        ConvexBetween(values[i], ema[i - 1], alpha, lo, hi);
      }
      ema := ema + [next];
      i := i + 1;
    }
  }

  /** A convex combination of two values in [lo, hi] stays in [lo, hi]. */
  lemma ConvexBetween(v: real, w: real, alpha: real, lo: real, hi: real)
    requires 0.0 <= alpha <= 1.0 && lo <= v <= hi && lo <= w <= hi
    ensures lo <= EmaStep(alpha, v, w) <= hi
  {
    var beta := 1.0 - alpha;
    var mix := alpha * v + beta * w;
    assert mix - lo == alpha * (v - lo) + beta * (w - lo);
    assert hi - mix == alpha * (hi - v) + beta * (hi - w);
    MulNonNegative(alpha, v - lo);
    MulNonNegative(beta, w - lo);
    MulNonNegative(alpha, hi - v);
    MulNonNegative(beta, hi - w);
  }

  lemma MulNonNegative(a: real, b: real)
    requires a >= 0.0 && b >= 0.0
    ensures a * b >= 0.0
  {
  }

  /** smoothing.bound: clamp value to [lo, hi]. */
  function Bound(value: real, lo: real, hi: real): (r: real)
    ensures lo <= hi ==> lo <= r <= hi
    ensures lo <= value <= hi ==> r == value
    ensures lo <= hi && value < lo ==> r == lo
    ensures lo <= hi && hi < value ==> r == hi
  {
    MaxR(lo, MinR(hi, value))
  }

  /** Clamping twice is clamping once. */
  lemma BoundIdempotent(value: real, lo: real, hi: real)
    ensures Bound(Bound(value, lo, hi), lo, hi) == Bound(value, lo, hi)
  {
  }

  /** Clamping keeps the order of its inputs. */
  lemma BoundMonotone(v: real, w: real, lo: real, hi: real)
    requires v <= w
    ensures Bound(v, lo, hi) <= Bound(w, lo, hi)
  {
  }
}
