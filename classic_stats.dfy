/** The classical engine (`ClassicStats`): mean, sample and population
    variance, the sample standard deviation, the coefficient of variation
    and z-score outliers (|z| > 3).

    The internal `calcular*` functions work on the numbers of a prepared
    sample; the public `get*` functions prepare a PHP array first (without
    sorting, except `getMediana`) and fail exactly when the preparation
    does. */
module ClassicStats {
  import opened Samples
  import opened RealMath
  import opened DataProcessor

  /** The z-score beyond which `getOutliers` flags a value. */
  const ZThreshold: real := 3.0

  /** `pow($x, 2)`. */
  function Square(x: real): real {
    x * x
  }

  /** A square is never negative, and 0 only for 0. */
  lemma SquareFacts(x: real)
    ensures Square(x) >= 0.0
    ensures Square(x) == 0.0 <==> x == 0.0
  {
    ProductZero(x, x);
  }

  /** All values of the sample are equal. */
  predicate Constant(d: seq<real>) {
    forall i, j :: 0 <= i < |d| && 0 <= j < |d| ==> d[i] == d[j]
  }

  // ---------------------------------------------------------------------
  // Sums of squared deviations
  // ---------------------------------------------------------------------

  /** The term `pow($x - $m, 2)` of the variance's sum. */
  function SquaredDeviationFrom(m: real): real -> real {
    x => Square(x - m)
  }

  /** `array_reduce($datos, fn($acc, $x) => $acc + pow($x - $media, 2), 0.0)`:
      the sum of the squared deviations from `m`. */
  function SumSquaredDeviations(d: seq<real>, m: real): real {
    SumOf(d, SquaredDeviationFrom(m))
  }

  /** A sum of squares is never negative, and it is 0 exactly when every
      value is `m`. */
  lemma SumSquaredDeviationsZero(d: seq<real>, m: real)
    ensures SumSquaredDeviations(d, m) >= 0.0
    ensures SumSquaredDeviations(d, m) == 0.0 <==> forall i :: 0 <= i < |d| ==> d[i] == m
  {
    forall i | 0 <= i < |d|
      ensures SquaredDeviationFrom(m)(d[i]) >= 0.0
      ensures SquaredDeviationFrom(m)(d[i]) == 0.0 <==> d[i] == m
    {
      SquareFacts(d[i] - m);
    }
    SumOfNonNegative(d, SquaredDeviationFrom(m));
  }

  lemma SumSquaredDeviationsNonNegative(d: seq<real>, m: real)
    ensures SumSquaredDeviations(d, m) >= 0.0
  {
    SumSquaredDeviationsZero(d, m);
  }

  /** The sum of squared deviations depends only on the multiset of values. */
  lemma SumSquaredDeviationsPermutation(s: seq<real>, t: seq<real>, m: real)
    requires multiset(s) == multiset(t)
    ensures SumSquaredDeviations(s, m) == SumSquaredDeviations(t, m)
  {
    SumOfPermutation(s, t, SquaredDeviationFrom(m));
  }

  /** Moving the values and the centre by the same amount changes nothing. */
  lemma {:induction false} SumSquaredDeviationsShift(d: seq<real>, m: real, c: real)
    ensures SumSquaredDeviations(Shifted(d, c), m + c) == SumSquaredDeviations(d, m)
  {
    if d != [] {
      ShiftedTail(d, c);
      assert (d[0] + c) - (m + c) == d[0] - m;
      SumSquaredDeviationsShift(d[1..], m, c);
    }
  }

  /** Every value equals the mean exactly when all values are equal. */
  lemma ConstantIffAtMean(d: seq<real>)
    requires |d| >= 1
    ensures (forall i :: 0 <= i < |d| ==> d[i] == Mean(d)) <==> Constant(d)
  {
    if Constant(d) {
      SumBounds(d, d[0], d[0]);
      assert Mean(d) * |d| as real == Sum(d);
    }
  }

  // ---------------------------------------------------------------------
  // Variance and standard deviation
  // ---------------------------------------------------------------------

  /** The divisor of `calcularVarianza`: n - 1 for the sample variance
      (Bessel's correction), n for the population variance. */
  function Divisor(n: nat, muestral: bool): (k: nat)
    requires n >= 2
    ensures k >= 1
  {
    if muestral then n - 1 else n
  }

  /** A quotient by a positive divisor, multiplied back. */
  lemma QuotientFacts(a: real, b: real)
    requires b > 0.0
    ensures (a / b) * b == a
    ensures a >= 0.0 ==> a / b >= 0.0
    ensures a / b == 0.0 <==> a == 0.0
  {
  }

  /** `calcularVarianza($datos, $muestral)`: the squared deviations from the
      mean over n - 1 or n; never negative, and 0 exactly on a constant
      sample. */
  function CalcularVarianza(d: seq<real>, muestral: bool): (r: real)
    requires |d| >= 2
    ensures r >= 0.0
    ensures r == 0.0 <==> Constant(d)
  {
    ConstantIffAtMean(d);
    SumSquaredDeviationsZero(d, Mean(d));
    QuotientFacts(SumSquaredDeviations(d, Mean(d)), Divisor(|d|, muestral) as real);
    SumSquaredDeviations(d, Mean(d)) / Divisor(|d|, muestral) as real
  }

  /** The variance times its divisor is the sum of squared deviations. */
  lemma VarianceTimesDivisor(d: seq<real>, muestral: bool)
    requires |d| >= 2
    ensures CalcularVarianza(d, muestral) * Divisor(|d|, muestral) as real ==
            SumSquaredDeviations(d, Mean(d))
  {
    QuotientFacts(SumSquaredDeviations(d, Mean(d)), Divisor(|d|, muestral) as real);
  }

  /** The sample variance and the sum of squared deviations it divides. */
  lemma DividedDeviations(d: seq<real>) returns (v: real, ss: real)
    requires |d| >= 2
    ensures v == CalcularVarianza(d, true) && ss == SumSquaredDeviations(d, Mean(d))
    ensures v >= 0.0 && v * (|d| - 1) as real == ss
  {
    v, ss := CalcularVarianza(d, true), SumSquaredDeviations(d, Mean(d));
    VarianceTimesDivisor(d, true);
  }

  /** The population variance is the sample variance scaled by (n - 1) / n. */
  lemma PopulationFromSample(d: seq<real>)
    requires |d| >= 2
    ensures CalcularVarianza(d, false) * |d| as real ==
            CalcularVarianza(d, true) * (|d| - 1) as real
  {
    VarianceTimesDivisor(d, false);
    VarianceTimesDivisor(d, true);
  }

  /** The variance does not depend on the order of the values. */
  lemma VariancePermutation(s: seq<real>, t: seq<real>, muestral: bool)
    requires |s| >= 2 && multiset(s) == multiset(t)
    ensures |t| == |s| && CalcularVarianza(s, muestral) == CalcularVarianza(t, muestral)
  {
    MeanPermutation(s, t);
    SumSquaredDeviationsPermutation(s, t, Mean(s));
  }

  /** Nor on the location of the sample. */
  lemma VarianceShift(d: seq<real>, c: real, muestral: bool)
    requires |d| >= 2
    ensures CalcularVarianza(Shifted(d, c), muestral) == CalcularVarianza(d, muestral)
  {
    MeanShift(d, c);
    SumSquaredDeviationsShift(d, Mean(d), c);
  }

  /** `sqrt(calcularVarianza($d, true))`: the sample standard deviation, 0
      exactly on a constant sample. */
  function DesviacionEstandar(d: seq<real>, sqrt: real -> real): (r: real)
    requires IsSqrt(sqrt) && |d| >= 2
    ensures r >= 0.0
    ensures r == 0.0 <==> Constant(d)
  {
    var v := CalcularVarianza(d, true);
    ProductZero(sqrt(v), sqrt(v));
    sqrt(v)
  }

  /** The standard deviation squared is the sample variance. */
  lemma DesviacionEstandarSquare(d: seq<real>, sqrt: real -> real)
    requires IsSqrt(sqrt) && |d| >= 2
    ensures DesviacionEstandar(d, sqrt) * DesviacionEstandar(d, sqrt) == CalcularVarianza(d, true)
  {
  }

  /** The standard deviation does not depend on the order of the values. */
  lemma DesviacionPermutation(s: seq<real>, t: seq<real>, sqrt: real -> real)
    requires IsSqrt(sqrt) && |s| >= 2 && multiset(s) == multiset(t)
    ensures |t| == |s| && DesviacionEstandar(s, sqrt) == DesviacionEstandar(t, sqrt)
  {
    VariancePermutation(s, t, true);
  }

  // ---------------------------------------------------------------------
  // Z-score outliers
  // ---------------------------------------------------------------------

  /** `abs(($x - $media) / $desviacion) > 3`. */
  predicate IsZScoreOutlier(x: real, media: real, desviacion: real)
    requires desviacion != 0.0
  {
    Abs((x - media) / desviacion) > ZThreshold
  }

  /** The same test without the root: (x - media)^2 > 9 v. */
  predicate BeyondNineVariances(x: real, media: real, v: real) {
    Square(x - media) > ZThreshold * ZThreshold * v
  }

  /** The filter of `getOutliers` for a given mean and deviation: nothing when
      the deviation is exactly 0, otherwise the flagged values in sample
      order. */
  function ZScoreFilter(d: seq<real>, media: real, desviacion: real): (r: seq<real>)
    ensures Subsequence(r, d)
  {
    if desviacion == 0.0 then []
    else
      var flagged := x => IsZScoreOutlier(x, media, desviacion);
      FilterSubsequence(d, flagged);
      Filter(d, flagged)
  }

  lemma ProductNonNegative(a: real, b: real)
    requires a >= 0.0 && b >= 0.0
    ensures a * b >= 0.0
  {
  }

  /** For `c > 0`, `a < b` exactly when `a * c < b * c`. */
  lemma ScaleStrict(a: real, b: real, c: real)
    requires c > 0.0
    ensures a < b <==> a * c < b * c
  {
    assert b * c - a * c == (b - a) * c;
  }

  /** For non-negative `a` and `b`, `a < b` exactly when `a^2 < b^2`. */
  lemma SquareStrict(a: real, b: real)
    requires a >= 0.0 && b >= 0.0
    ensures a < b <==> a * a < b * b
  {
    assert b * b - a * a == (b - a) * (b + a);
    if a < b {
      ScaleStrict(0.0, b - a, b + a);
    } else if a > b {
      ScaleStrict(0.0, a - b, a + b);
    }
  }

  /** For a positive deviation `sd` with `sd * sd == v`, the z-test compares
      squares: |(x - m) / sd| > 3 exactly when (x - m)^2 > 9 v. */
  lemma ZScoreAsSquare(x: real, m: real, sd: real, v: real)
    requires sd > 0.0 && sd * sd == v
    ensures IsZScoreOutlier(x, m, sd) <==> BeyondNineVariances(x, m, v)
  {
    ZScoreArithmetic(x - m, (x - m) / sd, sd, v, Square(x - m));
  }

  /** `ZScoreAsSquare` over plain reals: `q` is the deviation `e` in units
      of `sd`, and `sq` its square. */
  lemma ZScoreArithmetic(e: real, q: real, sd: real, v: real, sq: real)
    requires sd > 0.0 && sd * sd == v && q == e / sd && sq == e * e
    ensures Abs(q) > ZThreshold <==> sq > ZThreshold * ZThreshold * v
  {
    var a, z, t := Abs(e), Abs(q), ZThreshold * sd;
    assert z * sd == a;
    ScaleStrict(ZThreshold, z, sd);
    assert z > ZThreshold <==> a > t;
    SquareStrict(t, a);
    assert t * t == ZThreshold * ZThreshold * v;
    assert sq == a * a;
  }

  /** The z-score outliers of a sample (`getOutliers` after preparation).
      None on a constant sample; otherwise the values whose squared
      deviation from the mean exceeds nine times the sample variance, in
      sample order, each as often as it occurs. */
  function ZScoreOutliers(d: seq<real>, sqrt: real -> real): (r: seq<real>)
    requires IsSqrt(sqrt) && |d| >= 2
    ensures |r| <= |d|
    ensures Constant(d) ==> r == []
    ensures forall x :: multiset(r)[x] ==
                        if !Constant(d) && BeyondNineVariances(x, Mean(d), CalcularVarianza(d, true))
                        then multiset(d)[x] else 0
    ensures Subsequence(r, d)
  {
    var media := Mean(d);
    var desviacion := DesviacionEstandar(d, sqrt);
    var v := CalcularVarianza(d, true);
    DesviacionEstandarSquare(d, sqrt);
    assert desviacion != 0.0 ==>
      forall x :: IsZScoreOutlier(x, media, desviacion) <==> BeyondNineVariances(x, media, v)
    by {
      if desviacion != 0.0 {
        forall x
          ensures IsZScoreOutlier(x, media, desviacion) <==> BeyondNineVariances(x, media, v)
        {
          ZScoreAsSquare(x, media, desviacion, v);
        }
      }
    }
    ZScoreFilter(d, media, desviacion)
  }

  /** `2 a e <= q + k e^2` whenever `a^2 <= k q` (and `a = 0` if `k = 0`). */
  lemma CrossTermBound(a: real, e: real, k: real, q: real)
    requires k >= 0.0 && q >= 0.0 && a * a <= k * q
    requires k == 0.0 ==> a == 0.0
    ensures 2.0 * a * e <= q + k * e * e
  {
    if k > 0.0 {
      var c := a - k * e;
      assert c * c >= 0.0;
      assert c * c == a * a - k * (2.0 * a * e) + k * (k * e * e);
      assert k * (2.0 * a * e) <= k * (q + k * e * e);
      if 2.0 * a * e > q + k * e * e {
        ScaleStrict(q + k * e * e, 2.0 * a * e, k);
      }
    }
  }

  /** The induction step of Cauchy and Schwarz over plain reals. */
  lemma SquareSumStep(a: real, e: real, k: real, q: real)
    requires k >= 0.0 && q >= 0.0 && Square(a) <= k * q
    requires k == 0.0 ==> a == 0.0
    ensures Square(a + e) <= (k + 1.0) * (Square(e) + q)
  {
    CrossTermBound(a, e, k, q);
    assert (a + e) * (a + e) == a * a + 2.0 * a * e + e * e;
    assert (k + 1.0) * (e * e + q) == k * q + q + k * e * e + e * e;
  }

  /** Cauchy and Schwarz for deviations: the squared sum of the `n`
      deviations from `m` is at most `n` times the sum of their squares.
      The two sums are returned as `total` and `ss` so that the bound is
      stated over plain reals. */
  lemma {:induction false} CauchySchwarz(s: seq<real>, m: real, n: real) returns (total: real, ss: real)
    requires n == |s| as real
    ensures total == Sum(s) && ss == SumSquaredDeviations(s, m)
    ensures Square(total - n * m) <= n * ss
  {
    total, ss := Sum(s), SumSquaredDeviations(s, m);
    if s == [] {
      EmptyDeviation(total, n, m, ss);
    } else {
      var k := n - 1.0;
      var rest, q := CauchySchwarz(s[1..], m, k);
      CauchySchwarzStep(s, m, total, ss, rest, q, n, k);
    }
  }

  /** The induction step of `CauchySchwarz`: from the bound for the values
      after the first to the bound for all of them. */
  lemma CauchySchwarzStep(s: seq<real>, m: real, total: real, ss: real, rest: real, q: real, n: real, k: real)
    requires s != [] && total == Sum(s) && ss == SumSquaredDeviations(s, m)
    requires rest == Sum(s[1..]) && q == SumSquaredDeviations(s[1..], m)
    requires n == |s| as real && k == |s[1..]| as real
    requires Square(rest - k * m) <= k * q
    ensures Square(total - n * m) <= n * ss
  {
    SumSquaredDeviationsNonNegative(s[1..], m);
    CauchySchwarzUnfold(s, m);
    CauchySchwarzArithmetic(total, rest, s[0], m, n, k, ss, q);
  }

  lemma EmptyDeviation(total: real, n: real, m: real, ss: real)
    requires total == 0.0 && n == 0.0
    ensures Square(total - n * m) <= n * ss
  {
    assert total - n * m == 0.0;
  }

  lemma CauchySchwarzUnfold(s: seq<real>, m: real)
    requires s != []
    ensures Sum(s) == s[0] + Sum(s[1..])
    ensures SumSquaredDeviations(s, m) == Square(s[0] - m) + SumSquaredDeviations(s[1..], m)
    ensures |s[1..]| == 0 ==> Sum(s[1..]) == 0.0
  {
  }

  /** The induction step of `CauchySchwarz` over plain reals: `rest` and `q`
      are the sum and the squared deviations of the `k` values after the
      first value `x`; `total`, `n` and `ss` those of all `n` values. */
  lemma CauchySchwarzArithmetic(total: real, rest: real, x: real, m: real, n: real, k: real, ss: real, q: real)
    requires total == x + rest && n == k + 1.0 && ss == Square(x - m) + q
    requires k >= 0.0 && q >= 0.0 && Square(rest - k * m) <= k * q
    requires k == 0.0 ==> rest == 0.0
    ensures Square(total - n * m) <= n * ss
  {
    assert total - n * m == (rest - k * m) + (x - m);
    SquareSumStep(rest - k * m, x - m, k, q);
  }

  /** `n e^2 <= (n - 1) ss` from Cauchy and Schwarz on the other deviations. */
  lemma DeviationArithmetic(total: real, rest: real, x: real, m: real, n: real, ss: real, restSs: real)
    requires m * n == total && rest == total - x
    requires restSs == ss - Square(x - m)
    requires Square(rest - (n - 1.0) * m) <= (n - 1.0) * restSs
    ensures n * Square(x - m) <= (n - 1.0) * ss
  {
    assert rest - (n - 1.0) * m == m - x;
    assert Square(m - x) == Square(x - m);
    var sq := Square(x - m);
    assert sq <= (n - 1.0) * (ss - sq);
    assert (n - 1.0) * (ss - sq) == (n - 1.0) * ss - (n - 1.0) * sq;
  }

  /** Each squared deviation from the mean is at most (n - 1) / n of the sum
      of squared deviations. */
  lemma DeviationBound(d: seq<real>, k: int) returns (sk: real)
    requires |d| >= 2 && 0 <= k < |d|
    ensures sk == Square(d[k] - Mean(d))
    ensures |d| as real * sk <= (|d| - 1) as real * SumSquaredDeviations(d, Mean(d))
  {
    sk := Square(d[k] - Mean(d));
    var m := Mean(d);
    var rest := Without(d, k);
    SumWithout(d, k);
    SumOfWithout(d, k, SquaredDeviationFrom(m));
    MeanTimesCount(d);
    var restTotal, restSs := CauchySchwarz(rest, m, (|d| - 1) as real);
    DeviationArithmetic(Sum(d), restTotal, d[k], m, |d| as real,
                        SumSquaredDeviations(d, m), restSs);
  }

  /** From `n s <= (n - 1) (n - 1) v` with 2 <= n <= 10 and v >= 0: s <= 9 v,
      because (n - 1)^2 <= 9 n there. */
  lemma SmallSampleArithmetic(n: real, s: real, v: real, dv: real, k: real, ss: real)
    requires 2.0 <= n <= 10.0 && v >= 0.0 && dv == n - 1.0 && k == dv && v * dv == ss
    requires n * s <= k * ss
    ensures s <= ZThreshold * ZThreshold * v
  {
    assert dv * ss == (dv * dv) * v;
    assert dv * dv <= 9.0 * n by {
      assert 9.0 * n - dv * dv == (n - 2.0) * (10.0 - n) + (19.0 - n);
      ProductNonNegative(n - 2.0, 10.0 - n);
    }
    assert (9.0 * n) * v - (dv * dv) * v == (9.0 * n - dv * dv) * v;
    ProductNonNegative(9.0 * n - dv * dv, v);
    if s > 9.0 * v {
      ScaleStrict(9.0 * v, s, n);
    }
  }

  /** In a sample of at most ten values no value lies more than three
      standard deviations from the mean. */
  lemma SmallSampleDeviation(d: seq<real>, k: int)
    requires 2 <= |d| <= 10 && 0 <= k < |d|
    ensures !BeyondNineVariances(d[k], Mean(d), CalcularVarianza(d, true))
  {
    var v, ss := DividedDeviations(d);
    var sk := DeviationBound(d, k);
    SmallSampleArithmetic(|d| as real, sk, v, (|d| - 1) as real, (|d| - 1) as real, ss);
  }

  /** So such a sample has no z-score outlier: (n - 1)^2 / n, the largest
      possible squared z-score, stays below 9. */
  lemma SmallSampleHasNoZScoreOutlier(d: seq<real>, sqrt: real -> real)
    requires IsSqrt(sqrt) && 2 <= |d| <= 10
    ensures ZScoreOutliers(d, sqrt) == []
  {
    var r := ZScoreOutliers(d, sqrt);
    if r != [] {
      assert r[0] in multiset(r);
      assert r[0] in multiset(d);
      var k :| 0 <= k < |d| && d[k] == r[0];
      SmallSampleDeviation(d, k);
      assert false;
    }
  }

  // ---------------------------------------------------------------------
  // Public entry points
  // ---------------------------------------------------------------------

  /** `getMedia`: the mean of the unsorted prepared sample. */
  function GetMedia(datos: PhpArray): (r: Result<real>)
    ensures r.Err? <==> !IsValidSample(datos)
    ensures r.Err? ==> r.error == InvalidDataSet
    ensures r.Ok? ==> r.value == Mean(Numbers(datos))
  {
    match Prepared(datos, false, false, false)
    case Err(e) => Err(e)
    case Ok(d) => Ok(Mean(Numbers(d)))
  }

  /** `getMediana`: the median of the sorted prepared sample. */
  function GetMediana(datos: PhpArray): (r: Result<real>)
    ensures r.Err? <==> !IsValidSample(datos)
    ensures r.Err? ==> r.error == InvalidDataSet
    ensures r.Ok? ==> r.value == Median(SortedValues(datos))
  {
    match Prepared(datos, true, false, false)
    case Err(e) => Err(e)
    case Ok(d) => Ok(Median(Numbers(d)))
  }

  /** `getVarianzaMuestral`. */
  function GetVarianzaMuestral(datos: PhpArray): (r: Result<real>)
    ensures r.Err? <==> !IsValidSample(datos)
    ensures r.Err? ==> r.error == InvalidDataSet
    ensures r.Ok? ==> r.value == CalcularVarianza(Numbers(datos), true)
  {
    match Prepared(datos, false, false, false)
    case Err(e) => Err(e)
    case Ok(d) => Ok(CalcularVarianza(Numbers(d), true))
  }

  /** `getVarianzaPoblacional`. */
  function GetVarianzaPoblacional(datos: PhpArray): (r: Result<real>)
    ensures r.Err? <==> !IsValidSample(datos)
    ensures r.Err? ==> r.error == InvalidDataSet
    ensures r.Ok? ==> r.value == CalcularVarianza(Numbers(datos), false)
  {
    match Prepared(datos, false, false, false)
    case Err(e) => Err(e)
    case Ok(d) => Ok(CalcularVarianza(Numbers(d), false))
  }

  /** `getDesviacionEstandar`: the root of the sample variance. */
  function GetDesviacionEstandar(datos: PhpArray, sqrt: real -> real): (r: Result<real>)
    requires IsSqrt(sqrt)
    ensures r.Err? <==> !IsValidSample(datos)
    ensures r.Err? ==> r.error == InvalidDataSet
    ensures r.Ok? ==> r.value == DesviacionEstandar(Numbers(datos), sqrt)
  {
    match GetVarianzaMuestral(datos)
    case Err(e) => Err(e)
    case Ok(v) => Ok(sqrt(v))
  }

  /** `getDesviacion`, the interface's deviation: the sample standard
      deviation. */
  function GetDesviacion(datos: PhpArray, sqrt: real -> real): (r: Result<real>)
    requires IsSqrt(sqrt)
    ensures r.Err? <==> !IsValidSample(datos)
    ensures r.Err? ==> r.error == InvalidDataSet
    ensures r.Ok? ==> r.value == DesviacionEstandar(Numbers(datos), sqrt)
  {
    GetDesviacionEstandar(datos, sqrt)
  }

  /** `getCV`: the standard deviation as a percentage of |mean|, exactly 0
      when |mean| < 1e-9. */
  function GetCV(datos: PhpArray, sqrt: real -> real): (r: Result<real>)
    requires IsSqrt(sqrt)
    ensures r.Err? <==> !IsValidSample(datos)
    ensures r.Err? ==> r.error == InvalidDataSet
    ensures r.Ok? ==> r.value == GuardedPercentage(DesviacionEstandar(Numbers(datos), sqrt), Mean(Numbers(datos)))
    ensures r.Ok? ==> r.value >= 0.0
  {
    match Prepared(datos, false, false, false)
    case Err(e) => Err(e)
    case Ok(d) => Ok(CvOfPrepared(d, sqrt))
  }

  /** The body of `getCV` after preparation: the guard on the mean, then the
      standard deviation of the prepared sample, which prepares to itself. */
  function CvOfPrepared(d: PhpArray, sqrt: real -> real): (r: real)
    requires IsSqrt(sqrt) && IsValidSample(d) && IsSequential(d)
    ensures r == GuardedPercentage(DesviacionEstandar(Numbers(d), sqrt), Mean(Numbers(d)))
  {
    var media := Mean(Numbers(d));
    if Abs(media) < Epsilon then 0.0
    else
      PrepareAgain(d, false);
      (GetDesviacionEstandar(d, sqrt).value / Abs(media)) * 100.0
  }

  /** `getOutliers`: the z-score outliers of the unsorted prepared sample, in
      the caller's order.  The deviation is taken from the prepared sample,
      which prepares to itself. */
  function GetOutliers(datos: PhpArray, sqrt: real -> real): (r: Result<seq<real>>)
    requires IsSqrt(sqrt)
    ensures r.Err? <==> !IsValidSample(datos)
    ensures r.Err? ==> r.error == InvalidDataSet
    ensures r.Ok? ==> r.value == ZScoreOutliers(Numbers(datos), sqrt)
  {
    match Prepared(datos, false, false, false)
    case Err(e) => Err(e)
    case Ok(d) =>
      PrepareAgain(d, false);
      var media := Mean(Numbers(d));
      var desviacion := GetDesviacionEstandar(d, sqrt).value;
      Ok(ZScoreFilter(Numbers(d), media, desviacion))
  }

  /** The unrounded `obtenerResumen` array. */
  datatype Summary = Summary(
    media: real,
    mediana: real,
    desviacionEstandar: real,
    varianzaMuestral: real,
    cv: real,
    outliersZscore: seq<real>,
    count: nat)

  /** `obtenerResumen($datos, $ordenar)` without rounding.  Its CV divides
      by |mean| without the guard of `getCV`, so a sample whose mean is 0
      raises `DivisionByZeroError`. */
  function ObtenerResumen(datos: PhpArray, ordenar: bool, sqrt: real -> real): (r: Result<Summary>)
    requires IsSqrt(sqrt)
    ensures r.Err? <==> !IsValidSample(datos) || Mean(Numbers(datos)) == 0.0
    ensures r.Err? && !IsValidSample(datos) ==> r.error == InvalidDataSet
    ensures r.Err? && IsValidSample(datos) ==> r.error == DivisionByZero
    ensures r.Ok? ==> r.value.count == |datos|
    ensures r.Ok? ==> r.value.media == Mean(Numbers(datos))
    ensures r.Ok? ==> r.value.varianzaMuestral == CalcularVarianza(Numbers(datos), true)
    ensures r.Ok? ==> r.value.desviacionEstandar == DesviacionEstandar(Numbers(datos), sqrt)
    ensures r.Ok? ==> r.value.media != 0.0 && r.value.cv == CvOfNonZeroMean(r.value.desviacionEstandar, r.value.media)
    ensures r.Ok? && ordenar ==> r.value.mediana == Median(SortedValues(datos))
    ensures r.Ok? && !ordenar ==> r.value.mediana == Median(Numbers(datos))
    ensures r.Ok? && ordenar ==> r.value.outliersZscore == ZScoreOutliers(SortedValues(datos), sqrt)
    ensures r.Ok? && !ordenar ==> r.value.outliersZscore == ZScoreOutliers(Numbers(datos), sqrt)
  {
    match Prepared(datos, ordenar, false, false)
    case Err(e) => Err(e)
    case Ok(d) =>
      MeanPermutation(Numbers(datos), Numbers(d));
      VariancePermutation(Numbers(datos), Numbers(d), true);
      if Mean(Numbers(d)) == 0.0 then Err(DivisionByZero)
      else Ok(SummaryOfPrepared(d, sqrt, false))
  }

  /** The summary of a prepared sample.  The outliers and the deviation in
      the CV come from public entry points called on the prepared sample,
      which prepares to itself.  The CV is the one `obtenerResumen` writes
      (no guard; the mean must not be 0) or, when `guarded`, the one of
      `getCV`. */
  function SummaryOfPrepared(d: PhpArray, sqrt: real -> real, guarded: bool): (s: Summary)
    requires IsSqrt(sqrt) && IsValidSample(d) && IsSequential(d)
    requires !guarded ==> Mean(Numbers(d)) != 0.0
    ensures s.count == |d|
    ensures s.media == Mean(Numbers(d))
    ensures s.mediana == Median(Numbers(d))
    ensures s.varianzaMuestral == CalcularVarianza(Numbers(d), true)
    ensures s.desviacionEstandar == DesviacionEstandar(Numbers(d), sqrt)
    ensures !guarded ==> s.cv == CvOfNonZeroMean(s.desviacionEstandar, s.media)
    ensures guarded ==> s.cv == GuardedPercentage(s.desviacionEstandar, s.media)
    ensures s.outliersZscore == ZScoreOutliers(Numbers(d), sqrt)
  {
    var xs := Numbers(d);
    var media := Mean(xs);
    var varMuestral := CalcularVarianza(xs, true);
    PrepareAgain(d, false);
    var desviacion := GetDesviacionEstandar(d, sqrt).value;
    assert desviacion == sqrt(varMuestral);
    var cv := if guarded then GuardedPercentage(desviacion, media) else CvOfNonZeroMean(desviacion, media);
    Summary(media, Median(xs), desviacion, varMuestral, cv,
            GetOutliers(d, sqrt).value, |d|)
  }

  /** `obtenerResumen` with the CV of `getCV`: 0 for a mean within 1e-9 of
      0, so every valid sample has a summary. */
  function ObtenerResumenGuarded(datos: PhpArray, ordenar: bool, sqrt: real -> real): (r: Result<Summary>)
    requires IsSqrt(sqrt)
    ensures r.Err? <==> !IsValidSample(datos)
    ensures r.Err? ==> r.error == InvalidDataSet
    ensures r.Ok? ==> r.value.count == |datos|
    ensures r.Ok? ==> r.value.media == Mean(Numbers(datos))
    ensures r.Ok? ==> r.value.varianzaMuestral == CalcularVarianza(Numbers(datos), true)
    ensures r.Ok? ==> r.value.desviacionEstandar == DesviacionEstandar(Numbers(datos), sqrt)
    ensures r.Ok? ==> r.value.cv == GetCV(datos, sqrt).value
    ensures r.Ok? && ordenar ==> r.value.mediana == Median(SortedValues(datos))
    ensures r.Ok? && !ordenar ==> r.value.mediana == Median(Numbers(datos))
    ensures r.Ok? && ordenar ==> r.value.outliersZscore == ZScoreOutliers(SortedValues(datos), sqrt)
    ensures r.Ok? && !ordenar ==> r.value.outliersZscore == ZScoreOutliers(Numbers(datos), sqrt)
  {
    match Prepared(datos, ordenar, false, false)
    case Err(e) => Err(e)
    case Ok(d) =>
      MeanPermutation(Numbers(datos), Numbers(d));
      VariancePermutation(Numbers(datos), Numbers(d), true);
      DesviacionPermutation(Numbers(datos), Numbers(d), sqrt);
      Ok(SummaryOfPrepared(d, sqrt, true))
  }

  /** Where the mean is at least 1e-9 away from 0, the summary as written
      and the guarded one agree. */
  lemma ResumenGuardedAgrees(datos: PhpArray, ordenar: bool, sqrt: real -> real)
    requires IsSqrt(sqrt) && IsValidSample(datos) && Abs(Mean(Numbers(datos))) >= Epsilon
    ensures ObtenerResumen(datos, ordenar, sqrt) == ObtenerResumenGuarded(datos, ordenar, sqrt)
  {
    var a, b := ObtenerResumen(datos, ordenar, sqrt), ObtenerResumenGuarded(datos, ordenar, sqrt);
    var sd, m := DesviacionEstandar(Numbers(datos), sqrt), Mean(Numbers(datos));
    GuardedIsUnguarded(sd, m);
    assert a.value.cv == b.value.cv;
  }

  /** Off the guard, the two CV formulas are the same number. */
  lemma GuardedIsUnguarded(desviacion: real, media: real)
    requires Abs(media) >= Epsilon
    ensures media != 0.0 && GuardedPercentage(desviacion, media) == CvOfNonZeroMean(desviacion, media)
  {
  }

  /** A valid sample with mean 0 makes `obtenerResumen` divide by zero,
      while `getCV` returns 0 for it and the guarded summary exists. */
  lemma ZeroMeanSummary(datos: PhpArray, ordenar: bool, sqrt: real -> real)
    requires IsSqrt(sqrt) && IsValidSample(datos) && Mean(Numbers(datos)) == 0.0
    ensures ObtenerResumen(datos, ordenar, sqrt) == Err(DivisionByZero)
    ensures GetCV(datos, sqrt) == Ok(0.0)
    ensures ObtenerResumenGuarded(datos, ordenar, sqrt).Ok?
  {
  }

  /** The list [-1.0, 1.0] is such a sample: `obtenerResumen` fails on it
      although `getCV` gives 0. */
  lemma ZeroMeanExample(ordenar: bool, sqrt: real -> real)
    requires IsSqrt(sqrt)
    ensures ObtenerResumen(FromNumbers([-1.0, 1.0]), ordenar, sqrt) == Err(DivisionByZero)
    ensures GetCV(FromNumbers([-1.0, 1.0]), sqrt) == Ok(0.0)
    ensures ObtenerResumenGuarded(FromNumbers([-1.0, 1.0]), ordenar, sqrt).Ok?
  {
    ZeroMeanWitness();
    ZeroMeanSummary(FromNumbers([-1.0, 1.0]), ordenar, sqrt);
  }

  lemma ZeroMeanWitness()
    ensures IsValidSample(FromNumbers([-1.0, 1.0]))
    ensures Mean(Numbers(FromNumbers([-1.0, 1.0]))) == 0.0
  {
    var xs := [-1.0, 1.0];
    assert Numbers(FromNumbers(xs)) == xs;
    assert Sum(xs) == -1.0 + Sum(xs[1..]);
    assert Sum(xs[1..]) == 1.0 + Sum(xs[2..]);
  }

  /** `($desviacion / abs($media)) * 100` for a mean other than 0. */
  function CvOfNonZeroMean(desviacion: real, media: real): real
    requires media != 0.0
  {
    (desviacion / Abs(media)) * 100.0
  }

  /** That CV is the deviation as a percentage of |mean|. */
  lemma CvOfNonZeroMeanIsPercentage(desviacion: real, media: real)
    requires media != 0.0
    ensures CvOfNonZeroMean(desviacion, media) * Abs(media) == 100.0 * desviacion
  {
    var q := desviacion / Abs(media);
    assert q * Abs(media) == desviacion;
  }
}
