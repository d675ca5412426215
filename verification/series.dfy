/** Price series as sequences of reals, and the pandas reductions the strategies use on them
    (`tail`, `mean`, `min`, `max`), without floating-point rounding. */
module Series {

  /** `prices.tail(n)`: the last `n` prices, in order. */
  function Tail(s: seq<real>, n: nat): (t: seq<real>)
    requires n <= |s|
    ensures |t| == n
    ensures forall i :: 0 <= i < n ==> t[i] == s[|s| - n + i]
  {
    s[|s| - n..]
  }

  function Sum(s: seq<real>): real {
    if |s| == 0 then 0.0 else s[0] + Sum(s[1..])
  }

  /** `prices.mean()` of a non-empty series. */
  function Mean(s: seq<real>): real
    requires |s| > 0
  {
    Sum(s) / (|s| as real)
  }

  /** `prices.min()`: no price of the series is below it (and it is one of them, `MinMaxAreMembers`). */
  function Min(s: seq<real>): (m: real)
    requires |s| > 0
    ensures forall i :: 0 <= i < |s| ==> m <= s[i]
  {
    if |s| == 1 then s[0]
    else
      var rest := Min(s[1..]);
      assert forall i :: 1 <= i < |s| ==> s[i] == s[1..][i - 1];
      if s[0] <= rest then s[0] else rest
  }

  /** `prices.max()`: no price of the series is above it (and it is one of them, `MinMaxAreMembers`). */
  function Max(s: seq<real>): (m: real)
    requires |s| > 0
    ensures forall i :: 0 <= i < |s| ==> s[i] <= m
  {
    if |s| == 1 then s[0]
    else
      var rest := Max(s[1..]);
      assert forall i :: 1 <= i < |s| ==> s[i] == s[1..][i - 1];
      if s[0] >= rest then s[0] else rest
  }

  /** One step of the inductions in `SumAtLeast` and `SumAtMost`, on plain reals: adding an element no smaller
      (resp. no larger) than the bound to a sum of `n` elements so bounded. */
  lemma LowerStep(n: real, size: real, lo: real, loRest: real, first: real, sumRest: real)
    requires n >= 0.0 && size == n + 1.0 && lo <= loRest && lo <= first && n * loRest <= sumRest
    ensures size * lo <= first + sumRest
  {
    assert n * loRest - n * lo == n * (loRest - lo);
    assert size * lo == n * lo + lo;
  }

  lemma UpperStep(n: real, size: real, hi: real, hiRest: real, first: real, sumRest: real)
    requires n >= 0.0 && size == n + 1.0 && hiRest <= hi && first <= hi && sumRest <= n * hiRest
    ensures first + sumRest <= size * hi
  {
    assert n * hi - n * hiRest == n * (hi - hiRest);
    assert size * hi == n * hi + hi;
  }

  /** Dividing both sides of `n * a <= x` by a positive `n`. */
  lemma DivideLower(n: real, a: real, x: real)
    requires n > 0.0 && n * a <= x
    ensures a <= x / n
  {
    var q := x / n;
    assert n * q == x;
    if a > q {
      assert n * a - n * q == n * (a - q);
    }
  }

  /** Dividing both sides of `x <= n * a` by a positive `n`. */
  lemma DivideUpper(n: real, a: real, x: real)
    requires n > 0.0 && x <= n * a
    ensures x / n <= a
  {
    var q := x / n;
    assert n * q == x;
    if q > a {
      assert n * q - n * a == n * (q - a);
    }
  }

  /** The sum of `n` prices is at least `n` times the smallest. */
  lemma {:induction false} SumAtLeast(s: seq<real>)
    requires |s| > 0
    ensures (|s| as real) * Min(s) <= Sum(s)
    decreases |s|
  {
    if |s| > 1 {
      var t := s[1..];
      SumAtLeast(t);
      assert Min(s) <= Min(t) && Min(s) <= s[0];
      LowerStep(|t| as real, |s| as real, Min(s), Min(t), s[0], Sum(t));
    }
  }

  /** The sum of `n` prices is at most `n` times the largest. */
  lemma {:induction false} SumAtMost(s: seq<real>)
    requires |s| > 0
    ensures Sum(s) <= (|s| as real) * Max(s)
    decreases |s|
  {
    if |s| > 1 {
      var t := s[1..];
      SumAtMost(t);
      assert Max(t) <= Max(s) && s[0] <= Max(s);
      UpperStep(|t| as real, |s| as real, Max(s), Max(t), s[0], Sum(t));
    }
  }

  /** A mean never leaves the range of the prices it averages. */
  lemma MeanBetweenMinAndMax(s: seq<real>)
    requires |s| > 0
    ensures Min(s) <= Mean(s) <= Max(s)
  {
    SumAtLeast(s);
    SumAtMost(s);
    DivideLower(|s| as real, Min(s), Sum(s));
    DivideUpper(|s| as real, Max(s), Sum(s));
  }

  /** The smallest and the largest price are prices of the series. */
  lemma {:induction false} MinMaxAreMembers(s: seq<real>)
    requires |s| > 0
    ensures Min(s) in s && Max(s) in s
    decreases |s|
  {
    if |s| > 1 {
      MinMaxAreMembers(s[1..]);
      assert s == [s[0]] + s[1..];
    }
  }

  /** The mean of a series whose every price is `c` is `c`. */
  lemma MeanOfConstant(s: seq<real>, c: real)
    requires |s| > 0
    requires forall i :: 0 <= i < |s| ==> s[i] == c
    ensures Mean(s) == c
  {
    MeanBetweenMinAndMax(s);
    MinMaxAreMembers(s);
  }

  /** Comparing a quotient by a positive divisor is comparing the dividend with the product. */
  lemma QuotientCompare(x: real, m: real, t: real)
    requires m > 0.0
    ensures x / m < t <==> x < t * m
    ensures t < x / m <==> t * m < x
  {
    var q := x / m;
    assert q * m == x;
    assert (t - q) * m == t * m - q * m;
  }
}
