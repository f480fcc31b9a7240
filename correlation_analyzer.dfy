/** `calculateCorrelation`: Pearson's r over the n = min(|a|, |b|) most recent
    levels of two stations, paired by recency rank. Fewer than three points or
    a zero denominator give 0; otherwise the ratio is rounded to three digits.
    `Math.sqrt` is a parameter: any function that returns the non-negative
    square root of a non-negative argument (`IsSqrt`). */
module CorrelationAnalyzer {
  import opened Numeric

  function Min(x: int, y: int): int
  {
    if x <= y then x else y
  }

  /** The sum of the first n elements, as `slice(0, n).reduce(+)` computes it. */
  function Total(s: seq<real>, n: nat): real
    requires n <= |s|
  {
    if n == 0 then 0.0 else Total(s, n - 1) + s[n - 1]
  }

  function Mean(s: seq<real>, n: nat): real
    requires 0 < n <= |s|
  {
    Total(s, n) / (n as real)
  }

  /** The deviations `s[k] - m` of the first n elements. */
  function Deviations(s: seq<real>, m: real, n: nat): (d: seq<real>)
    requires n <= |s|
    ensures |d| == n
    ensures forall k :: 0 <= k < n ==> d[k] == s[k] - m
  {
    seq(n, k requires 0 <= k < n => s[k] - m)
  }

  /** The sum of the first i products `xs[k] * ys[k]`. */
  function Dot(xs: seq<real>, ys: seq<real>, i: nat): real
    requires i <= |xs| && i <= |ys|
  {
    if i == 0 then 0.0 else Dot(xs, ys, i - 1) + xs[i - 1] * ys[i - 1]
  }

  /** The sum of squared deviations of the first n elements from their mean:
      zero when the n levels did not move. */
  function Spread(s: seq<real>, n: nat): real
    requires 0 < n <= |s|
  {
    var d := Deviations(s, Mean(s, n), n);
    Dot(d, d, n)
  }

  /** What `Math.sqrt` is taken to be. */
  ghost predicate IsSqrt(sqrt: real -> real)
  {
    forall x: real :: x >= 0.0 ==> sqrt(x) >= 0.0 && sqrt(x) * sqrt(x) == x
  }

  /** `Math.sqrt(sum1 * sum2)`. */
  function Denominator(sum1: real, sum2: real, sqrt: real -> real): real
  {
    sqrt(sum1 * sum2)
  }

  /** The final step: 0 for a zero denominator, else the ratio to three digits. */
  function Coefficient(numerator: real, denominator: real): real
  {
    if denominator == 0.0 then 0.0 else ToFixed(numerator / denominator, 3)
  }

  /** The value `calculateCorrelation(a, b)` returns. */
  function Correlation(a: seq<real>, b: seq<real>, sqrt: real -> real): real
  {
    var n := Min(|a|, |b|);
    if n < 3 then 0.0
    else
      var da := Deviations(a, Mean(a, n), n);
      var db := Deviations(b, Mean(b, n), n);
      Coefficient(Dot(da, db, n), Denominator(Dot(da, da, n), Dot(db, db, n), sqrt))
  }

  /** The single loop of `calculateCorrelation` over the first n positions. */
  method DeviationSums(arr1: seq<real>, arr2: seq<real>, mean1: real, mean2: real, n: nat)
    returns (numerator: real, sum1: real, sum2: real)
    requires n <= |arr1| && n <= |arr2|
    ensures var d1, d2 := Deviations(arr1, mean1, n), Deviations(arr2, mean2, n);
            numerator == Dot(d1, d2, n) && sum1 == Dot(d1, d1, n) && sum2 == Dot(d2, d2, n)
  {
    ghost var d1, d2 := Deviations(arr1, mean1, n), Deviations(arr2, mean2, n);
    numerator, sum1, sum2 := 0.0, 0.0, 0.0;
    for i := 0 to n
      invariant numerator == Dot(d1, d2, i)
      invariant sum1 == Dot(d1, d1, i)
      invariant sum2 == Dot(d2, d2, i)
    {
      var diff1 := arr1[i] - mean1;
      var diff2 := arr2[i] - mean2;
      assert d1[i] == diff1 && d2[i] == diff2;
      numerator := numerator + diff1 * diff2;
      sum1 := sum1 + diff1 * diff1;
      sum2 := sum2 + diff2 * diff2;
    }
  }

  method CalculateCorrelation(arr1: seq<real>, arr2: seq<real>, sqrt: real -> real) returns (r: real)
    ensures r == Correlation(arr1, arr2, sqrt)
  {
    var n := if |arr1| <= |arr2| then |arr1| else |arr2|;
    if n < 3 {
      return 0.0;
    }
    var mean1 := Mean(arr1, n);
    var mean2 := Mean(arr2, n);
    var numerator, sum1, sum2 := DeviationSums(arr1, arr2, mean1, mean2, n);
    var denominator := Denominator(sum1, sum2, sqrt);
    if denominator == 0.0 {
      r := 0.0;
    } else {
      var ratio := numerator / denominator;
      r := ToFixed(ratio, 3);
    }
    assert r == Coefficient(numerator, denominator);
  }

  /** Fewer than three paired points never yield a correlation. */
  lemma ShortSeriesGiveZero(a: seq<real>, b: seq<real>, sqrt: real -> real)
    requires |a| < 3 || |b| < 3
    ensures Correlation(a, b, sqrt) == 0.0
  {
  }

  lemma {:induction false} DotSymmetric(xs: seq<real>, ys: seq<real>, i: nat)
    requires i <= |xs| && i <= |ys|
    ensures Dot(xs, ys, i) == Dot(ys, xs, i)
  {
    if i > 0 {
      DotSymmetric(xs, ys, i - 1);
      ProductCommutes(xs[i - 1], ys[i - 1]);
    }
  }

  lemma ProductCommutes(x: real, y: real)
    ensures x * y == y * x
  {
  }

  /** The coefficient does not depend on which station comes first. */
  lemma CorrelationSymmetric(a: seq<real>, b: seq<real>, sqrt: real -> real)
    ensures Correlation(a, b, sqrt) == Correlation(b, a, sqrt)
  {
    var n := Min(|a|, |b|);
    if n >= 3 {
      var da := Deviations(a, Mean(a, n), n);
      var db := Deviations(b, Mean(b, n), n);
      DotSymmetric(da, db, n);
      ProductCommutes(Dot(da, da, n), Dot(db, db, n));
      assert Denominator(Dot(da, da, n), Dot(db, db, n), sqrt) == Denominator(Dot(db, db, n), Dot(da, da, n), sqrt);
    }
  }

  lemma SquareNonNegative(z: real)
    ensures z * z >= 0.0
  {
  }

  lemma ProductNonNegative(x: real, y: real)
    requires x >= 0.0 && y >= 0.0
    ensures x * y >= 0.0
  {
  }

  lemma PositiveProduct(x: real, y: real)
    requires x > 0.0 && y > 0.0
    ensures x * y > 0.0
  {
  }

  lemma StrictSquare(x: real, y: real)
    requires x > y >= 0.0
    ensures x * x > y * y
  {
    PositiveProduct(x - y, x + y);
    assert x * x - y * y == (x - y) * (x + y);
  }

  /** Two non-negative numbers with equal squares are equal. */
  lemma SquareInjective(x: real, y: real)
    requires x >= 0.0 && y >= 0.0 && x * x == y * y
    ensures x == y
  {
    if x > y {
      StrictSquare(x, y);
    } else if y > x {
      StrictSquare(y, x);
    }
  }

  lemma {:induction false} DotSquaresNonNegative(xs: seq<real>, i: nat)
    requires i <= |xs|
    ensures Dot(xs, xs, i) >= 0.0
  {
    if i > 0 {
      DotSquaresNonNegative(xs, i - 1);
      SquareNonNegative(xs[i - 1]);
    }
  }

  /** With sa > 0: sa * q is a sum of two non-negative terms. */
  lemma QuadraticFormIdentity(sa: real, sb: real, c: real, x: real, y: real)
    ensures sa * (sa * (y * y) + sb * (x * x) - 2.0 * c * x * y)
         == (sa * y - c * x) * (sa * y - c * x) + (sa * sb - c * c) * (x * x)
  {
  }

  lemma PositiveFactor(p: real, q: real)
    requires p > 0.0 && p * q >= 0.0
    ensures q >= 0.0
  {
  }

  /** The quadratic form sa*y^2 + sb*x^2 - 2cxy is non-negative when c^2 <= sa*sb. */
  lemma QuadraticFormNonNegative(sa: real, sb: real, c: real, x: real, y: real)
    requires sa >= 0.0 && sb >= 0.0 && c * c <= sa * sb
    ensures sa * (y * y) + sb * (x * x) - 2.0 * c * x * y >= 0.0
  {
    var q := sa * (y * y) + sb * (x * x) - 2.0 * c * x * y;
    if sa > 0.0 {
      QuadraticFormIdentity(sa, sb, c, x, y);
      SquareNonNegative(sa * y - c * x);
      SquareNonNegative(x);
      ProductNonNegative(sa * sb - c * c, x * x);
      PositiveFactor(sa, q);
    } else {
      SquareNonNegative(c);
      if c > 0.0 {
        StrictSquare(c, 0.0);
      } else if c < 0.0 {
        StrictSquare(-c, 0.0);
        NegatedSquare(c);
      }
      SquareNonNegative(x);
      ProductNonNegative(sb, x * x);
    }
  }

  lemma ExpandStep(sa: real, sb: real, c: real, x: real, y: real)
    ensures (sa + x * x) * (sb + y * y) - (c + x * y) * (c + x * y)
         == (sa * sb - c * c) + (sa * (y * y) + sb * (x * x) - 2.0 * c * x * y)
  {
  }

  /** One step of Cauchy-Schwarz: adding x*x, y*y and x*y to sums sa, sb and
      c keeps the square of the cross sum below the product of the others. */
  lemma QuadraticStep(sa: real, sb: real, c: real, x: real, y: real, sa': real, sb': real, c': real)
    requires sa >= 0.0 && sb >= 0.0 && c * c <= sa * sb
    requires sa' == sa + x * x && sb' == sb + y * y && c' == c + x * y
    ensures c' * c' <= sa' * sb'
  {
    QuadraticFormNonNegative(sa, sb, c, x, y);
    ExpandStep(sa, sb, c, x, y);
  }

  lemma DotStep(xs: seq<real>, ys: seq<real>, i: nat)
    requires 0 < i <= |xs| && i <= |ys|
    ensures Dot(xs, xs, i) == Dot(xs, xs, i - 1) + xs[i - 1] * xs[i - 1]
    ensures Dot(ys, ys, i) == Dot(ys, ys, i - 1) + ys[i - 1] * ys[i - 1]
    ensures Dot(xs, ys, i) == Dot(xs, ys, i - 1) + xs[i - 1] * ys[i - 1]
  {
  }

  /** Cauchy-Schwarz: the squared cross sum is at most the product of the two
      sums of squares. */
  lemma {:induction false} CauchySchwarz(xs: seq<real>, ys: seq<real>, i: nat)
    requires i <= |xs| && i <= |ys|
    ensures Dot(xs, ys, i) * Dot(xs, ys, i) <= Dot(xs, xs, i) * Dot(ys, ys, i)
  {
    if i > 0 {
      CauchySchwarz(xs, ys, i - 1);
      DotSquaresNonNegative(xs, i - 1);
      DotSquaresNonNegative(ys, i - 1);
      DotStep(xs, ys, i);
      QuadraticStep(Dot(xs, xs, i - 1), Dot(ys, ys, i - 1), Dot(xs, ys, i - 1), xs[i - 1], ys[i - 1],
                    Dot(xs, xs, i), Dot(ys, ys, i), Dot(xs, ys, i));
    }
  }

  lemma NegatedSquare(x: real)
    ensures (-x) * (-x) == x * x
  {
  }

  lemma DivisionBounds(num: real, d: real)
    requires d > 0.0 && -d <= num <= d
    ensures -1.0 <= num / d <= 1.0
  {
    var q := num / d;
    assert q * d == num;
    if q > 1.0 {
      PositiveProduct(q - 1.0, d);
    } else if q < -1.0 {
      PositiveProduct(-1.0 - q, d);
    }
  }

  /** A numerator whose square is at most d^2 gives a ratio in [-1, 1]. */
  lemma RatioInUnitInterval(num: real, d: real)
    requires d > 0.0 && num * num <= d * d
    ensures -1.0 <= num / d <= 1.0
  {
    if num > d {
      StrictSquare(num, d);
    } else if -num > d {
      StrictSquare(-num, d);
      NegatedSquare(num);
    }
    DivisionBounds(num, d);
  }

  /** Under `IsSqrt`, the root is non-negative and squares back. */
  lemma SqrtSquares(sqrt: real -> real, x: real)
    requires IsSqrt(sqrt) && x >= 0.0
    ensures sqrt(x) >= 0.0 && sqrt(x) * sqrt(x) == x
  {
  }

  /** A Cauchy-Schwarz pair of sums gives a coefficient in [-1, 1]. */
  lemma CoefficientBounded(num: real, s1: real, s2: real, sqrt: real -> real)
    requires IsSqrt(sqrt) && s1 >= 0.0 && s2 >= 0.0 && num * num <= s1 * s2
    ensures -1.0 <= Coefficient(num, Denominator(s1, s2, sqrt)) <= 1.0
  {
    ProductNonNegative(s1, s2);
    var d := sqrt(s1 * s2);
    SqrtSquares(sqrt, s1 * s2);
    if d != 0.0 {
      RatioInUnitInterval(num, d);
      ToFixedUnitInterval(num / d, 3);
    }
  }

  /** Whatever the input, the coefficient lies in [-1, 1]. */
  lemma CorrelationBounded(a: seq<real>, b: seq<real>, sqrt: real -> real)
    requires IsSqrt(sqrt)
    ensures -1.0 <= Correlation(a, b, sqrt) <= 1.0
  {
    var n := Min(|a|, |b|);
    if n >= 3 {
      var da := Deviations(a, Mean(a, n), n);
      var db := Deviations(b, Mean(b, n), n);
      DotSquaresNonNegative(da, n);
      DotSquaresNonNegative(db, n);
      CauchySchwarz(da, db, n);
      CoefficientBounded(Dot(da, db, n), Dot(da, da, n), Dot(db, db, n), sqrt);
    }
  }

  /** `Math.sqrt(0)` is 0. */
  lemma SqrtZero(sqrt: real -> real)
    requires IsSqrt(sqrt)
    ensures sqrt(0.0) == 0.0
  {
    SqrtSquares(sqrt, 0.0);
    SquareInjective(sqrt(0.0), 0.0);
  }

  lemma {:induction false} DotWithZeros(xs: seq<real>, ys: seq<real>, i: nat)
    requires i <= |xs| && i <= |ys|
    requires forall k :: 0 <= k < i ==> xs[k] == 0.0
    ensures Dot(xs, ys, i) == 0.0 && Dot(ys, xs, i) == 0.0
  {
    if i > 0 {
      DotWithZeros(xs, ys, i - 1);
    }
  }

  /** A series whose first n levels have no spread correlates with nothing:
      the denominator is the square root of 0. */
  lemma ZeroSpreadGivesZero(a: seq<real>, b: seq<real>, sqrt: real -> real)
    requires IsSqrt(sqrt) && Min(|a|, |b|) > 0
    requires Spread(a, Min(|a|, |b|)) == 0.0
    ensures Correlation(a, b, sqrt) == 0.0
    ensures Correlation(b, a, sqrt) == 0.0
  {
    var n := Min(|a|, |b|);
    if n >= 3 {
      var db := Deviations(b, Mean(b, n), n);
      assert Spread(a, n) * Dot(db, db, n) == 0.0;
      SqrtZero(sqrt);
    }
    CorrelationSymmetric(a, b, sqrt);
  }

  lemma {:induction false} TotalOfConstant(a: seq<real>, c: real, i: nat)
    requires i <= |a|
    requires forall k :: 0 <= k < i ==> a[k] == c
    ensures Total(a, i) == (i as real) * c
  {
    if i > 0 {
      TotalOfConstant(a, c, i - 1);
    }
  }

  /** Levels that did not move have no spread. */
  lemma FlatSeriesHasNoSpread(a: seq<real>, n: nat)
    requires 0 < n <= |a|
    requires forall k :: 0 <= k < n ==> a[k] == a[0]
    ensures Spread(a, n) == 0.0
  {
    TotalOfConstant(a, a[0], n);
    var d := Deviations(a, Mean(a, n), n);
    DotWithZeros(d, d, n);
  }

  /** A station whose levels did not move correlates with no other station. */
  lemma ConstantSeriesGivesZero(a: seq<real>, b: seq<real>, sqrt: real -> real)
    requires IsSqrt(sqrt)
    requires forall k :: 0 <= k < |a| ==> a[k] == a[0]
    ensures Correlation(a, b, sqrt) == 0.0
    ensures Correlation(b, a, sqrt) == 0.0
  {
    var n := Min(|a|, |b|);
    if n > 0 {
      FlatSeriesHasNoSpread(a, n);
      ZeroSpreadGivesZero(a, b, sqrt);
    }
  }

  /** b = c + sign * a shifts the total of the first i by i * c and scales it by sign. */
  lemma {:induction false} TotalOfAffine(a: seq<real>, b: seq<real>, c: real, sign: real, i: nat)
    requires i <= |a| && i <= |b|
    requires forall k :: 0 <= k < i ==> b[k] == c + sign * a[k]
    ensures Total(b, i) == (i as real) * c + sign * Total(a, i)
  {
    if i > 0 {
      TotalOfAffine(a, b, c, sign, i - 1);
    }
  }

  lemma DivAffine(nr: real, c: real, sign: real, t: real)
    requires nr > 0.0
    ensures (nr * c + sign * t) / nr == c + sign * (t / nr)
  {
  }

  lemma MeanOfAffine(a: seq<real>, b: seq<real>, c: real, sign: real, n: nat)
    requires 0 < n <= |a| && n <= |b|
    requires forall k :: 0 <= k < n ==> b[k] == c + sign * a[k]
    ensures Mean(b, n) == c + sign * Mean(a, n)
  {
    TotalOfAffine(a, b, c, sign, n);
    DivAffine(n as real, c, sign, Total(a, n));
  }

  lemma DeviationsOfAffine(a: seq<real>, b: seq<real>, c: real, sign: real, n: nat, ma: real, mb: real)
    requires n <= |a| && n <= |b|
    requires forall k :: 0 <= k < n ==> b[k] == c + sign * a[k]
    requires mb == c + sign * ma
    requires sign == 1.0 || sign == -1.0
    ensures forall k :: 0 <= k < n ==> Deviations(b, mb, n)[k] == sign * Deviations(a, ma, n)[k]
  {
  }

  lemma AffineTerms(x: real, sign: real)
    requires sign == 1.0 || sign == -1.0
    ensures x * (sign * x) == sign * (x * x)
    ensures (sign * x) * (sign * x) == x * x
  {
  }

  /** Deviations ys = sign * xs: the cross sum is sign times the squares of xs,
      and the squares of ys are those of xs. */
  lemma {:induction false} DotOfScaled(xs: seq<real>, ys: seq<real>, sign: real, i: nat)
    requires sign == 1.0 || sign == -1.0
    requires i <= |xs| && i <= |ys|
    requires forall k :: 0 <= k < i ==> ys[k] == sign * xs[k]
    ensures Dot(xs, ys, i) == sign * Dot(xs, xs, i)
    ensures Dot(ys, ys, i) == Dot(xs, xs, i)
  {
    if i > 0 {
      DotOfScaled(xs, ys, sign, i - 1);
      AffineTerms(xs[i - 1], sign);
    }
  }

  /** Coefficient(sign * s, sqrt(s * s)) is sign for s > 0. */
  lemma UnitCoefficient(s: real, sign: real, sqrt: real -> real)
    requires IsSqrt(sqrt) && s > 0.0
    requires sign == 1.0 || sign == -1.0
    ensures Coefficient(sign * s, Denominator(s, s, sqrt)) == sign
  {
    SquareNonNegative(s);
    SqrtSquares(sqrt, s * s);
    SquareInjective(sqrt(s * s), s);
    DivCancel(sign, s);
  }

  /** Two equally long series that move in lock-step, b = c + sign * a, give
      the coefficient sign (1 or -1) unless a has no spread. */
  lemma LockStep(a: seq<real>, b: seq<real>, c: real, sign: real, sqrt: real -> real)
    requires IsSqrt(sqrt)
    requires sign == 1.0 || sign == -1.0
    requires |a| >= 3 && |b| == |a|
    requires forall k :: 0 <= k < |a| ==> b[k] == c + sign * a[k]
    requires Spread(a, |a|) > 0.0
    ensures Correlation(a, b, sqrt) == sign
  {
    var n := |a|;
    MeanOfAffine(a, b, c, sign, n);
    var ma, mb := Mean(a, n), Mean(b, n);
    var da, db := Deviations(a, ma, n), Deviations(b, mb, n);
    DeviationsOfAffine(a, b, c, sign, n, ma, mb);
    DotOfScaled(da, db, sign, n);
    var s := Dot(da, da, n);
    UnitCoefficient(s, sign, sqrt);
    assert Correlation(a, b, sqrt) == Coefficient(Dot(da, db, n), Denominator(s, Dot(db, db, n), sqrt));
  }

  /** A series correlates perfectly with itself unless it has no spread. */
  lemma IdenticalSeriesGiveOne(a: seq<real>, sqrt: real -> real)
    requires IsSqrt(sqrt) && |a| >= 3
    requires Spread(a, |a|) > 0.0
    ensures Correlation(a, a, sqrt) == 1.0
  {
    LockStep(a, a, 0.0, 1.0, sqrt);
  }
}
