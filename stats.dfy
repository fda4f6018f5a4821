/**
 * Real-number helpers for the indicator engine: sums, means, windows,
 * extremes, variance and the square root and median the engine takes from
 * numpy. Floating-point values are modelled as reals.
 */
module Stats {

  // ---------------------------------------------------------------------
  // numpy primitives that are not modelled exactly
  // ---------------------------------------------------------------------

  /**
   * A square root as far as the engine relies on one: non-negative on
   * non-negative inputs, and zero exactly at zero.
   */
  type SqrtFn = f: real -> real | forall x :: 0.0 <= x ==> 0.0 <= f(x) && (f(x) == 0.0 <==> x == 0.0)
    witness (x: real) => x

  /** The numpy routines the engine calls without a closed form here: `np.sqrt` and `np.median`. */
  datatype Numerics = Numerics(sqrt: SqrtFn, median: seq<real> -> real)

  // ---------------------------------------------------------------------
  // Quotients
  // ---------------------------------------------------------------------

  /** A non-negative part over a positive whole: the usual quotient bounds. */
  lemma QuotientBounds(x: real, t: real)
    requires 0.0 <= x && 0.0 < t
    ensures 0.0 <= x / t
    ensures x <= t ==> x / t <= 1.0
    ensures x < t ==> x / t < 1.0
  {
    var q := x / t;
    assert q * t == x;
    assert (1.0 - q) * t == t - x;
  }

  /** Dividing two non-negative parts by their positive total gives a distribution. */
  lemma DivSum(x: real, y: real)
    requires x >= 0.0 && y >= 0.0 && x + y > 0.0
    ensures x / (x + y) + y / (x + y) == 1.0
  {
    var t := x + y;
    var p, q := x / t, y / t;
    assert p * t == x && q * t == y;
    assert (p + q - 1.0) * t == 0.0;
  }

  // ---------------------------------------------------------------------
  // Sums, means and windows
  // ---------------------------------------------------------------------

  function Sum(xs: seq<real>): real {
    if xs == [] then 0.0 else Sum(xs[..|xs| - 1]) + xs[|xs| - 1]
  }

  /** `np.mean` of a non-empty sequence. */
  function Mean(xs: seq<real>): real
    requires |xs| > 0
  {
    Sum(xs) / |xs| as real
  }

  /**
   * Python's `xs[-n:]`: the last `n` elements, or all of them when there
   * are fewer; `xs[-0:]` is the whole sequence.
   */
  function Tail<T>(xs: seq<T>, n: nat): (t: seq<T>)
    ensures |t| == if 0 < n < |xs| then n else |xs|
  {
    if 0 < n < |xs| then xs[|xs| - n..] else xs
  }

  /** `xs[-n:]` is the suffix of `xs` of length `n`, or all of `xs` when `n` is 0 or exceeds its length. */
  lemma TailSuffix<T>(xs: seq<T>, n: nat)
    ensures Tail(xs, n) == xs[|xs| - |Tail(xs, n)|..]
    ensures forall i :: 0 <= i < |Tail(xs, n)| ==> Tail(xs, n)[i] == xs[|xs| - |Tail(xs, n)| + i]
  {
  }

  /** `max(xs)` */
  function MaxOf(xs: seq<real>): (m: real)
    requires |xs| > 0
    ensures forall i :: 0 <= i < |xs| ==> xs[i] <= m
    ensures m in xs
  {
    if |xs| == 1 then xs[0]
    else
      var r := MaxOf(xs[1..]);
      assert forall i :: 1 <= i < |xs| ==> xs[i] == xs[1..][i - 1];
      if xs[0] >= r then xs[0] else r
  }

  /** `min(xs)` */
  function MinOf(xs: seq<real>): (m: real)
    requires |xs| > 0
    ensures forall i :: 0 <= i < |xs| ==> m <= xs[i]
    ensures m in xs
  {
    if |xs| == 1 then xs[0]
    else
      var r := MinOf(xs[1..]);
      assert forall i :: 1 <= i < |xs| ==> xs[i] == xs[1..][i - 1];
      if xs[0] <= r then xs[0] else r
  }

  function Abs(x: real): real {
    if x < 0.0 then -x else x
  }

  /** `np.sign` */
  function Sign(x: real): real {
    if x > 0.0 then 1.0 else if x < 0.0 then -1.0 else 0.0
  }

  /** `np.diff`: the consecutive differences. */
  function Diffs(xs: seq<real>): (d: seq<real>)
    ensures |d| == if xs == [] then 0 else |xs| - 1
    ensures forall i :: 0 <= i < |d| ==> d[i] == xs[i + 1] - xs[i]
  {
    if |xs| <= 1 then [] else seq(|xs| - 1, i requires 0 <= i < |xs| - 1 => xs[i + 1] - xs[i])
  }

  function Square(x: real): real {
    x * x
  }

  /** The sum of squared deviations of `xs` from `m`. */
  function SquaredDeviation(xs: seq<real>, m: real): real {
    if xs == [] then 0.0 else SquaredDeviation(xs[..|xs| - 1], m) + Square(xs[|xs| - 1] - m)
  }

  /** The population variance (numpy's default, `ddof=0`). */
  function Variance(xs: seq<real>): real
    requires |xs| > 0
  {
    SquaredDeviation(xs, Mean(xs)) / |xs| as real
  }

  /** `np.std`: the square root of the population variance. */
  function Std(sqrt: SqrtFn, xs: seq<real>): real
    requires |xs| > 0
  {
    sqrt(Variance(xs))
  }

  /** Every element equals the first. */
  predicate Constant(xs: seq<real>) {
    forall i :: 0 <= i < |xs| ==> xs[i] == xs[0]
  }

  // ---------------------------------------------------------------------
  // Lemmas
  // ---------------------------------------------------------------------

  /** Bounds on every element bound the sum. */
  lemma {:induction false} SumBounds(xs: seq<real>, lo: real, hi: real)
    requires forall i :: 0 <= i < |xs| ==> lo <= xs[i] <= hi
    ensures |xs| as real * lo <= Sum(xs) <= |xs| as real * hi
  {
    if xs != [] {
      var init := xs[..|xs| - 1];
      assert forall i :: 0 <= i < |init| ==> init[i] == xs[i];
      SumBounds(init, lo, hi);
      assert Sum(xs) == Sum(init) + xs[|xs| - 1];
      assert |xs| as real == |init| as real + 1.0;
    }
  }

  /** Bounds on every element bound the mean. */
  lemma MeanBounds(xs: seq<real>, lo: real, hi: real)
    requires |xs| > 0
    requires forall i :: 0 <= i < |xs| ==> lo <= xs[i] <= hi
    ensures lo <= Mean(xs) <= hi
  {
    SumBounds(xs, lo, hi);
    var n := |xs| as real;
    var m := Mean(xs);
    assert m * n == Sum(xs);
    assert (m - lo) * n >= 0.0;
    assert (hi - m) * n >= 0.0;
  }

  /** The mean lies between the minimum and the maximum. */
  lemma MeanBetween(xs: seq<real>)
    requires |xs| > 0
    ensures MinOf(xs) <= Mean(xs) <= MaxOf(xs)
  {
    MeanBounds(xs, MinOf(xs), MaxOf(xs));
  }

  /** A sum of non-negative terms is zero exactly when every term is. */
  lemma {:induction false} SumZero(xs: seq<real>)
    requires forall i :: 0 <= i < |xs| ==> xs[i] >= 0.0
    ensures Sum(xs) >= 0.0
    ensures Sum(xs) == 0.0 <==> forall i :: 0 <= i < |xs| ==> xs[i] == 0.0
  {
    if xs != [] {
      var init := xs[..|xs| - 1];
      assert forall i :: 0 <= i < |init| ==> init[i] == xs[i];
      SumZero(init);
    }
  }

  /** The mean of non-negative terms is zero exactly when every term is. */
  lemma MeanZero(xs: seq<real>)
    requires |xs| > 0
    requires forall i :: 0 <= i < |xs| ==> xs[i] >= 0.0
    ensures Mean(xs) >= 0.0
    ensures Mean(xs) == 0.0 <==> forall i :: 0 <= i < |xs| ==> xs[i] == 0.0
  {
    SumZero(xs);
    var n := |xs| as real;
    assert Mean(xs) * n == Sum(xs);
  }

  /** Squared deviations are non-negative, and vanish when every element equals `m`. */
  lemma {:induction false} SquaredDeviationZero(xs: seq<real>, m: real)
    ensures SquaredDeviation(xs, m) >= 0.0
    ensures (forall i :: 0 <= i < |xs| ==> xs[i] == m) ==> SquaredDeviation(xs, m) == 0.0
  {
    if xs != [] {
      var init := xs[..|xs| - 1];
      assert forall i :: 0 <= i < |init| ==> init[i] == xs[i];
      SquaredDeviationZero(init, m);
      SquareNonNegative(xs[|xs| - 1] - m);
    }
  }

  lemma SquareNonNegative(d: real)
    ensures Square(d) >= 0.0
  {
  }

  /** The variance is non-negative, and zero on a constant sequence. */
  lemma VarianceZero(xs: seq<real>)
    requires |xs| > 0
    ensures Variance(xs) >= 0.0
    ensures Constant(xs) ==> Variance(xs) == 0.0
  {
    var mu := Mean(xs);
    var n := |xs| as real;
    SquaredDeviationZero(xs, mu);
    assert Variance(xs) * n == SquaredDeviation(xs, mu);
    if Constant(xs) {
      MeanBounds(xs, xs[0], xs[0]);
      assert mu == xs[0];
    }
  }

  /** The standard deviation is non-negative, and zero on a constant sequence. */
  lemma StdZero(sqrt: SqrtFn, xs: seq<real>)
    requires |xs| > 0
    ensures Std(sqrt, xs) >= 0.0
    ensures Constant(xs) ==> Std(sqrt, xs) == 0.0
  {
    VarianceZero(xs);
  }

  /** On a constant sequence the mean is that constant. */
  lemma MeanOfConstant(xs: seq<real>)
    requires |xs| > 0 && Constant(xs)
    ensures Mean(xs) == xs[0]
  {
    MeanBounds(xs, xs[0], xs[0]);
  }

  /** A window's extremes lie within the whole sequence's. */
  lemma TailWithin(xs: seq<real>, n: nat)
    requires |xs| > 0
    ensures |Tail(xs, n)| > 0
    ensures MinOf(xs) <= MinOf(Tail(xs, n)) && MaxOf(Tail(xs, n)) <= MaxOf(xs)
  {
    var t := Tail(xs, n);
    assert forall i :: 0 <= i < |t| ==> t[i] == xs[|xs| - |t| + i];
  }
}
