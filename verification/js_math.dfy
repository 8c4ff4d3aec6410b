/** The few JavaScript `Math` operations the dashboard relies on, stated over
    Dafny's unbounded `int` and exact `real`.  Values drawn from `Math.random()`
    are parameters of the callers, constrained by `IsUnit`. */
module JsMath {

  /** A value `Math.random()` can return: a real in [0, 1). */
  predicate IsUnit(r: real) {
    0.0 <= r < 1.0
  }

  /** `Math.round`: the nearest integer, halves rounded toward +infinity. */
  function Round(x: real): (r: int)
    ensures r as real - 0.5 <= x < r as real + 0.5
  {
    (x + 0.5).Floor
  }

  /** `Math.floor` on a real. */
  function Floor(x: real): (r: int)
    ensures r as real <= x < r as real + 1.0
  {
    x.Floor
  }

  function Max(a: int, b: int): int {
    if a < b then b else a
  }

  function Min(a: int, b: int): int {
    if a < b then a else b
  }

  /** `Math.round` never decreases when its argument grows. */
  lemma RoundMonotone(x: real, y: real)
    requires x <= y
    ensures Round(x) <= Round(y)
  {
  }

  /** Shifting the argument by a whole number shifts the result by it. */
  lemma RoundShift(x: real, k: int)
    ensures Round(x + k as real) == Round(x) + k
  {
  }

  /** A whole number rounds to itself. */
  lemma RoundWhole(k: int)
    ensures Round(k as real) == k
  {
  }

  /** `Math.floor(r * span) + low` for a random `r`: a whole number in [low, low + span - 1]. */
  function RandomInt(r: real, span: nat, low: int): (v: int)
    requires IsUnit(r) && span > 0
    ensures low <= v < low + span
  {
    var x := r * span as real;
    UnitScale(r, span as real);
    FloorBelow(x, span);
    Floor(x) + low
  }

  /** `Math.floor` of a real in [0, n) is a whole number in [0, n - 1]. */
  lemma FloorBelow(x: real, n: int)
    requires 0.0 <= x < n as real
    ensures 0 <= Floor(x) < n
  {
  }

  /** A unit draw scales a positive `n` into [0, n). */
  lemma UnitScale(r: real, n: real)
    requires IsUnit(r) && n > 0.0
    ensures 0.0 <= r * n < n
  {
    assert n - r * n == (1.0 - r) * n;
    assert (1.0 - r) * n > 0.0;
  }

  /** The JavaScript numbers a statistic can come out as: a whole number, or
      one of the three non-finite values that an empty array produces. */
  datatype Number = Finite(value: int) | NaN | Infinity | NegInfinity

  function Sum(xs: seq<int>): int {
    if xs == [] then 0 else Sum(xs[..|xs| - 1]) + xs[|xs| - 1]
  }

  /** The arithmetic mean `sum / length` of a non-empty array. */
  function Mean(xs: seq<int>): real
    requires |xs| > 0
  {
    Sum(xs) as real / |xs| as real
  }

  /** `Math.min(...xs)`: Infinity for an empty array, otherwise its least element. */
  function MinSpread(xs: seq<int>): (r: Number)
    ensures xs == [] <==> r == Infinity
    ensures r.Finite? || r == Infinity
    ensures r.Finite? ==> r.value in xs && forall i :: 0 <= i < |xs| ==> r.value <= xs[i]
  {
    if xs == [] then Infinity
    else
      var init, last := xs[..|xs| - 1], xs[|xs| - 1];
      var rest := MinSpread(init);
      assert forall i :: 0 <= i < |init| ==> init[i] == xs[i];
      if rest.Finite? && rest.value <= last then
        assert rest.value in xs by { var j :| 0 <= j < |init| && init[j] == rest.value; assert xs[j] == rest.value; }
        rest
      else Finite(last)
  }

  /** `Math.max(...xs)`: -Infinity for an empty array, otherwise its greatest element. */
  function MaxSpread(xs: seq<int>): (r: Number)
    ensures xs == [] <==> r == NegInfinity
    ensures r.Finite? || r == NegInfinity
    ensures r.Finite? ==> r.value in xs && forall i :: 0 <= i < |xs| ==> xs[i] <= r.value
  {
    if xs == [] then NegInfinity
    else
      var init, last := xs[..|xs| - 1], xs[|xs| - 1];
      var rest := MaxSpread(init);
      assert forall i :: 0 <= i < |init| ==> init[i] == xs[i];
      if rest.Finite? && last <= rest.value then
        assert rest.value in xs by { var j :| 0 <= j < |init| && init[j] == rest.value; assert xs[j] == rest.value; }
        rest
      else Finite(last)
  }

  /** The sum of an array lies between length * least and length * greatest element. */
  lemma {:induction false} SumBounds(xs: seq<int>, lo: int, hi: int)
    requires forall i :: 0 <= i < |xs| ==> lo <= xs[i] <= hi
    ensures |xs| as real * lo as real <= Sum(xs) as real <= |xs| as real * hi as real
  {
    if xs != [] {
      var init, last := xs[..|xs| - 1], xs[|xs| - 1];
      assert forall i :: 0 <= i < |init| ==> init[i] == xs[i];
      SumBounds(init, lo, hi);
      assert Sum(xs) as real == Sum(init) as real + last as real;
      BoundStep(|init| as real, |xs| as real, Sum(init) as real, last as real, lo as real, hi as real);
    }
  }

  /** Adding one more bounded term keeps the bounds of a bounded sum. */
  lemma BoundStep(n: real, m: real, s: real, x: real, lo: real, hi: real)
    requires m == n + 1.0
    requires n * lo <= s <= n * hi && lo <= x <= hi
    ensures m * lo <= s + x <= m * hi
  {
    MulSucc(n, lo);
    MulSucc(n, hi);
  }

  lemma MulSucc(n: real, c: real)
    ensures (n + 1.0) * c == n * c + c
  {
  }

  /** The mean of a non-empty array lies between any bounds of its elements. */
  lemma MeanWithin(xs: seq<int>, lo: int, hi: int)
    requires |xs| > 0
    requires forall i :: 0 <= i < |xs| ==> lo <= xs[i] <= hi
    ensures lo as real <= Mean(xs) <= hi as real
  {
    SumBounds(xs, lo, hi);
    DivideBounds(Sum(xs) as real, |xs| as real, lo as real, hi as real);
  }

  lemma DivideBounds(s: real, n: real, lo: real, hi: real)
    requires n > 0.0 && n * lo <= s <= n * hi
    ensures lo <= s / n <= hi
  {
    assert s / n * n == s;
  }

  /** The mean of a non-empty array lies between its least and its greatest element. */
  lemma MeanBetween(xs: seq<int>)
    requires |xs| > 0
    ensures MinSpread(xs).Finite? && MaxSpread(xs).Finite?
    ensures MinSpread(xs).value as real <= Mean(xs) <= MaxSpread(xs).value as real
  {
    MeanWithin(xs, MinSpread(xs).value, MaxSpread(xs).value);
  }

  /** `Math.round` of the mean of a non-empty array still lies between its extremes. */
  lemma RoundedMeanBetween(xs: seq<int>)
    requires |xs| > 0
    ensures MinSpread(xs).Finite? && MaxSpread(xs).Finite?
    ensures MinSpread(xs).value <= Round(Mean(xs)) <= MaxSpread(xs).value
  {
    MeanBetween(xs);
    RoundMonotone(MinSpread(xs).value as real, Mean(xs));
    RoundMonotone(Mean(xs), MaxSpread(xs).value as real);
    RoundWhole(MinSpread(xs).value);
    RoundWhole(MaxSpread(xs).value);
  }
}
