/** Sequence arithmetic shared by the indicators and the trend predictor:
    the `reduce((a, b) => a + b, 0)` sum, `slice(-k)`, successive differences
    and squared deviations, with the facts about them the proofs rely on. */
module Series {

  /** The left-to-right sum `s.reduce((a, b) => a + b, 0)`. */
  function Sum(s: seq<real>): real
    decreases |s|
  {
    if |s| == 0 then 0.0 else Sum(s[..|s| - 1]) + s[|s| - 1]
  }

  /** `s.slice(-k)` for a positive `k`: the last `k` elements, or all of `s` when it is shorter. */
  function TakeLast(s: seq<real>, k: nat): (r: seq<real>)
    requires k > 0
    ensures |r| == if k <= |s| then k else |s|
    ensures forall i :: 0 <= i < |r| ==> r[i] == s[|s| - |r| + i]
  {
    if k <= |s| then s[|s| - k..] else s
  }

  /** The successive differences `s[i] - s[i - 1]` that the source pushes in a loop. */
  function Changes(s: seq<real>): (c: seq<real>)
    ensures |c| == if |s| == 0 then 0 else |s| - 1
    ensures forall i :: 0 <= i < |c| ==> c[i] == s[i + 1] - s[i]
  {
    if |s| == 0 then [] else seq(|s| - 1, i requires 0 <= i < |s| - 1 => s[i + 1] - s[i])
  }

  /** The loop that pushes `s[i] - s[i - 1]` for every i from 1 on. */
  method CollectChanges(s: seq<real>) returns (changes: seq<real>)
    ensures changes == Changes(s)
  {
    changes := [];
    if |s| == 0 {
      return;
    }
    var i := 1;
    while i < |s|
      invariant 1 <= i <= |s|
      invariant |changes| == i - 1
      invariant forall k :: 0 <= k < i - 1 ==> changes[k] == s[k + 1] - s[k]
    {
      changes := changes + [s[i] - s[i - 1]];
      i := i + 1;
    }
  }

  /** `s.map(x => Math.pow(x - m, 2))`. */
  function SquaredDeviations(s: seq<real>, m: real): (r: seq<real>)
    ensures |r| == |s|
    ensures forall i :: 0 <= i < |s| ==> r[i] == (s[i] - m) * (s[i] - m)
  {
    seq(|s|, i requires 0 <= i < |s| => (s[i] - m) * (s[i] - m))
  }

  /** Squared deviations are non-negative, so their sum is too. */
  lemma SquaredDeviationsNonNegative(s: seq<real>, m: real)
    ensures forall i :: 0 <= i < |s| ==> SquaredDeviations(s, m)[i] >= 0.0
    ensures Sum(SquaredDeviations(s, m)) >= 0.0
  {
    var r := SquaredDeviations(s, m);
    forall i | 0 <= i < |s|
      ensures r[i] >= 0.0
    {
      SquareNonNegative(s[i] - m);
    }
    SumZeroIff(r);
  }

  /** Values that all equal the centre have no deviation at all. */
  lemma SquaredDeviationsZero(s: seq<real>, m: real)
    requires AllEqual(s, m)
    ensures Sum(SquaredDeviations(s, m)) == 0.0
  {
    var r := SquaredDeviations(s, m);
    forall i | 0 <= i < |s|
      ensures r[i] == 0.0
    {
      ZeroSquare(s[i] - m);
    }
    SumConstant(r, 0.0);
  }

  /** The plain mean of the last `period` values, `s.slice(-period).reduce((a, b) => a + b, 0) / period`. */
  function TrailingMean(s: seq<real>, period: nat): real
    requires period > 0
  {
    Sum(TakeLast(s, period)) / period as real
  }

  ghost predicate Within(s: seq<real>, lo: real, hi: real)
  {
    forall i :: 0 <= i < |s| ==> lo <= s[i] <= hi
  }

  ghost predicate AllEqual(s: seq<real>, c: real)
  {
    forall i :: 0 <= i < |s| ==> s[i] == c
  }

  lemma SumSnoc(s: seq<real>, x: real)
    ensures Sum(s + [x]) == Sum(s) + x
  {
    assert (s + [x])[..|s|] == s;
  }

  /** A sum of values in [lo, hi] lies between |s| * lo and |s| * hi. */
  lemma {:induction false} SumBounds(s: seq<real>, lo: real, hi: real)
    requires Within(s, lo, hi)
    ensures |s| as real * lo <= Sum(s) <= |s| as real * hi
    decreases |s|
  {
    if |s| > 0 {
      var k := |s| - 1;
      SumBounds(s[..k], lo, hi);
      DistributeOne(k as real, lo);
      DistributeOne(k as real, hi);
    }
  }

  /** A sum of copies of `c` is their number times `c`. */
  lemma SumConstant(s: seq<real>, c: real)
    requires AllEqual(s, c)
    ensures Sum(s) == |s| as real * c
  {
    SumBounds(s, c, c);
  }

  /** A trailing mean over a full window of values in [lo, hi] lies in [lo, hi]. */
  lemma TrailingMeanWithin(s: seq<real>, period: nat, lo: real, hi: real)
    requires 0 < period <= |s|
    requires Within(TakeLast(s, period), lo, hi)
    ensures lo <= TrailingMean(s, period) <= hi
  {
    SumBounds(TakeLast(s, period), lo, hi);
    DivWithin(Sum(TakeLast(s, period)), period as real, lo, hi);
  }

  /** A trailing mean of non-negative values over a full window is non-negative,
      and zero exactly when every value in the window is zero. */
  lemma TrailingMeanZeroIff(s: seq<real>, period: nat)
    requires 0 < period <= |s|
    requires forall i :: 0 <= i < |s| ==> s[i] >= 0.0
    ensures TrailingMean(s, period) >= 0.0
    ensures TrailingMean(s, period) == 0.0 <==> AllEqual(TakeLast(s, period), 0.0)
  {
    var w := TakeLast(s, period);
    SumZeroIff(w);
    DivWithin(Sum(w), period as real, 0.0, Sum(w) / period as real);
  }

  /** A sum of non-negative values is zero exactly when every value is zero. */
  lemma {:induction false} SumZeroIff(s: seq<real>)
    requires forall i :: 0 <= i < |s| ==> s[i] >= 0.0
    ensures Sum(s) >= 0.0
    ensures Sum(s) == 0.0 <==> AllEqual(s, 0.0)
    decreases |s|
  {
    if |s| > 0 {
      var k := |s| - 1;
      SumZeroIff(s[..k]);
      assert forall i :: 0 <= i < k ==> s[..k][i] == s[i];
      if AllEqual(s, 0.0) {
        assert AllEqual(s[..k], 0.0);
      }
    }
  }

  // Small facts of real arithmetic, stated apart so that the solver meets them one at a time.

  lemma DistributeOne(k: real, x: real)
    ensures (k + 1.0) * x == k * x + x
  {
  }

  lemma MulNonNegative(a: real, b: real)
    requires 0.0 <= a && 0.0 <= b
    ensures 0.0 <= a * b
  {
  }

  lemma SquareNonNegative(x: real)
    ensures 0.0 <= x * x
  {
    if x < 0.0 {
      MulNonNegative(-x, -x);
    } else {
      MulNonNegative(x, x);
    }
  }

  lemma ZeroSquare(x: real)
    requires x == 0.0
    ensures x * x == 0.0
  {
  }

  lemma MulPositive(a: real, b: real)
    requires 0.0 < a && 0.0 < b
    ensures 0.0 < a * b
  {
  }

  lemma DivNonNegative(x: real, p: real)
    requires 0.0 <= x && 0.0 < p
    ensures 0.0 <= x / p
  {
  }

  lemma DivWithin(x: real, p: real, lo: real, hi: real)
    requires 0.0 < p && p * lo <= x <= p * hi
    ensures lo <= x / p <= hi
  {
  }
}

/** The JavaScript library calls the engine uses, on exact reals. */
module JsMath {

  /** What the model requires of `Math.sqrt`: non-negative on non-negative arguments, and zero at zero. */
  ghost predicate IsSqrt(sqrt: real -> real)
  {
    sqrt(0.0) == 0.0 && forall x: real :: 0.0 <= x ==> 0.0 <= sqrt(x)
  }

  /** `Math.round`: the nearest integer, halves going toward positive infinity. */
  function Round(x: real): (r: int)
    ensures x - 0.5 < r as real <= x + 0.5
  {
    (x + 0.5).Floor
  }

  /** Rounding a value between two integers stays between them. */
  lemma RoundWithin(x: real, lo: int, hi: int)
    requires lo as real <= x <= hi as real
    ensures lo <= Round(x) <= hi
  {
  }

  /** Whole cents: `x * 100` is an integer. */
  ghost predicate IsCents(x: real)
  {
    (x * 100.0).Floor as real == x * 100.0
  }

  /** `parseFloat(x.toFixed(2))`: the nearest multiple of 0.01, halves away from zero
      (toFixed rounds the magnitude, ties to the larger one, and then puts the sign back). */
  function ToFixed2(x: real): (r: real)
    ensures IsCents(r)
    ensures -0.005 <= r - x <= 0.005
  {
    if x < 0.0 then
      var y := RoundCents(-x);
      var n := (y * 100.0).Floor;
      assert (-y * 100.0).Floor == -n;
      -y
    else RoundCents(x)
  }

  function RoundCents(x: real): (r: real)
    ensures IsCents(r)
    ensures -0.005 < r - x <= 0.005
  {
    var n := (x * 100.0 + 0.5).Floor;
    assert (n as real / 100.0) * 100.0 == n as real;
    n as real / 100.0
  }

  /** A value already in whole cents is left as it is, so rounding to cents is idempotent. */
  lemma ToFixed2Exact(x: real)
    requires IsCents(x)
    ensures ToFixed2(x) == x
  {
    var k := (x * 100.0).Floor;
    if x < 0.0 {
      assert ((-x) * 100.0 + 0.5).Floor == -k;
    } else {
      assert (x * 100.0 + 0.5).Floor == k;
    }
  }

  lemma ToFixed2Idempotent(x: real)
    ensures ToFixed2(ToFixed2(x)) == ToFixed2(x)
  {
    ToFixed2Exact(ToFixed2(x));
  }
}
