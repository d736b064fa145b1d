/** The robust engine (`RobustStats`): median, type-7 percentiles, IQR, MAD,
    the IQR-based robust deviation S* = (1.25 / 1.35) * IQR / sqrt(n), the
    robust coefficient of variation, Tukey-fence outliers and a
    median +- 1.96 S* interval.

    The internal `calcular*` functions work on the numbers of a prepared
    sample and index it by position, as the engine does, whatever its order;
    what they guarantee as order statistics (bounds, non-negative spreads) is
    stated for a sorted sample.  The public `get*` functions prepare a PHP
    array first (sorting it, except `getMedia`) and fail exactly when the
    preparation does. */
module RobustStats {
  import opened Samples
  import opened RealMath
  import opened DataProcessor
  import QuantileEngine

  /** The consistency factor applied to MAD in `getDesviacion`. */
  const MadScale: real := 1.4826

  /** The factor `1.25 / 1.35` of S*. */
  const SStarFactor: real := 1.25 / 1.35

  /** The normal quantile of the confidence interval. */
  const IntervalZ: real := 1.96

  // ---------------------------------------------------------------------
  // Percentiles and IQR
  // ---------------------------------------------------------------------

  /** The position `p / 100 * (n - 1)` of the `p`-th percentile in a sample
      of `n` values: inside the sample for every `p` in [0, 100]. */
  function PercentilPosition(n: int, p: int): (i: real)
    requires n >= 1 && 0 <= p <= 100
    ensures 0.0 <= i <= (n - 1) as real
    ensures 0 <= i.Floor <= Ceil(i) <= n - 1
  {
    var q := p as real / 100.0;
    QuantileEngine.ScaleMonotone((n - 1) as real, q, 1.0);
    CeilLeast(q * (n - 1) as real, n - 1);
    q * (n - 1) as real
  }

  /** Linear interpolation between `d[floor(i)]` and `d[ceil(i)]`. */
  function InterpolateIndex(d: seq<real>, i: real): (r: real)
    requires 0.0 <= i <= (|d| - 1) as real
    ensures Sorted(d) ==> d[0] <= r <= d[|d| - 1]
  {
    CeilLeast(i, |d| - 1);
    var low, high := i.Floor, Ceil(i);
    var frac := i - low as real;
    QuantileEngine.Lerp(d[low], d[high], frac)
  }

  /** Interpolating at index `i` (from 0) is interpolating at the engine's
      position `h = i + 1` (from 1). */
  lemma InterpolateIndexIsAt(d: seq<real>, i: real)
    requires 0.0 <= i <= (|d| - 1) as real
    ensures InterpolateIndex(d, i) == QuantileEngine.InterpolateAt(d, 1.0 + i)
  {
    var h := 1.0 + i;
    var low := i.Floor;
    assert h.Floor == low + 1;
    if i == low as real {
      assert Ceil(i) == low;
    } else {
      assert Ceil(i) == low + 1;
      assert h - h.Floor as real == i - low as real;
    }
  }

  /** `calcularPercentil($d, $p)` (also reached as `percentilOriginal`):
      linear interpolation at `i = p / 100 * (n - 1)`. */
  function CalcularPercentil(d: seq<real>, p: int): (r: real)
    requires |d| >= 1 && 0 <= p <= 100
    ensures Sorted(d) ==> d[0] <= r <= d[|d| - 1]
  {
    InterpolateIndex(d, PercentilPosition(|d|, p))
  }

  /** With alpha = beta = 1 the engine's position is one past the index
      `q * (n - 1)`. */
  lemma Type7Position(d: seq<real>, q: real, one: real, i: real)
    requires |d| >= 1 && one == 1.0 && i == q * (|d| - 1) as real
    ensures QuantileEngine.InterpolateWith(d, q, one, one) == QuantileEngine.InterpolateAt(d, 1.0 + i)
  {
    var n := |d| as real;
    assert n + 1.0 - one - one == n - 1.0;
    QuantileEngine.InterpolateWithIsAt(d, q, one, one, 1.0 + i);
  }

  /** The private percentile is the engine's type 7 (Hyndman and Fan,
      Definition 7) at probability `p / 100`. */
  lemma PercentilIsType7(d: seq<real>, p: int)
    requires |d| >= 1 && 0 <= p <= 100
    ensures CalcularPercentil(d, p) == QuantileEngine.QuantileOf(d, p as real / 100.0, 7)
  {
    var i := PercentilPosition(|d|, p);
    InterpolateIndexIsAt(d, i);
    if |d| > 1 {
      var q := p as real / 100.0;
      calc {
        QuantileEngine.QuantileOf(d, q, 7);
      == QuantileEngine.CalculateContinuous(d, QuantileEngine.Clamp01(q), 7);
      == { assert QuantileEngine.Clamp01(q) == q; }
        QuantileEngine.CalculateContinuous(d, q, 7);
      == { assert QuantileEngine.GetHyndmanFanParameters(7) == (1.0, 1.0); }
        QuantileEngine.InterpolateWith(d, q, 1.0, 1.0);
      == { Type7Position(d, q, 1.0, i); }
        QuantileEngine.InterpolateAt(d, 1.0 + i);
      }
    }
  }

  /** On a sorted sample the percentile never decreases as `p` grows. */
  lemma PercentilMonotone(d: seq<real>, p1: int, p2: int)
    requires |d| >= 1 && Sorted(d) && 0 <= p1 <= p2 <= 100
    ensures CalcularPercentil(d, p1) <= CalcularPercentil(d, p2)
  {
    PercentilIsType7(d, p1);
    PercentilIsType7(d, p2);
    if |d| > 1 {
      QuantileEngine.ContinuousMonotone(d, p1 as real / 100.0, p2 as real / 100.0, 7);
    }
  }

  /** `calcularIQR`: P75 - P25, never negative on a sorted sample. */
  function CalcularIQR(d: seq<real>): (r: real)
    requires |d| >= 1
    ensures Sorted(d) ==> r >= 0.0
  {
    var r := CalcularPercentil(d, 75) - CalcularPercentil(d, 25);
    assert Sorted(d) ==> r >= 0.0 by {
      if Sorted(d) {
        PercentilMonotone(d, 25, 75);
      }
    }
    r
  }

  // ---------------------------------------------------------------------
  // MAD
  // ---------------------------------------------------------------------

  /** `array_map(fn($x) => abs($x - $c), $d)`. */
  function AbsDeviations(d: seq<real>, c: real): (r: seq<real>)
    ensures |r| == |d|
    ensures forall i :: 0 <= i < |d| ==> r[i] == Abs(d[i] - c)
  {
    seq(|d|, i requires 0 <= i < |d| => Abs(d[i] - c))
  }

  /** Sorting values that are all at least `lo` keeps them at least `lo`. */
  lemma SortLowerBound(s: seq<real>, lo: real)
    requires forall i :: 0 <= i < |s| ==> lo <= s[i]
    ensures forall i :: 0 <= i < |Sort(s)| ==> lo <= Sort(s)[i]
  {
    forall i | 0 <= i < |Sort(s)|
      ensures lo <= Sort(s)[i]
    {
      assert Sort(s)[i] in multiset(Sort(s));
      assert Sort(s)[i] in s;
    }
  }

  /** `calcularMAD`: the median of the sorted absolute deviations from the
      median; never negative. */
  function CalcularMAD(d: seq<real>): (r: real)
    requires |d| >= 1
    ensures r >= 0.0
  {
    var diffs := Sort(AbsDeviations(d, Median(d)));
    SortLowerBound(AbsDeviations(d, Median(d)), 0.0);
    Median(diffs)
  }

  // ---------------------------------------------------------------------
  // S*, robust variance, CVr and the interval
  // ---------------------------------------------------------------------

  /** `(c * (a / s))^2 == c^2 * a^2 / n` when `s` is a positive root of `n`. */
  lemma ScaledQuotientSquare(c: real, a: real, s: real, n: real)
    requires s > 0.0 && n > 0.0 && s * s == n
    ensures (c * (a / s)) * (c * (a / s)) == c * c * a * a / n
  {
    var q := a / s;
    var cq := c * q;
    assert q * s == a;
    calc {
      cq * cq * n;
    == cq * cq * (s * s);
    == (c * (q * s)) * (c * (q * s));
    == c * c * a * a;
    }
  }

  /** A non-negative multiple of a non-negative quotient is non-negative. */
  lemma ScaledQuotientNonNegative(c: real, a: real, s: real)
    requires c >= 0.0 && a >= 0.0 && s > 0.0
    ensures c * (a / s) >= 0.0
  {
  }

  /** `calcularDesviacionRobusta`: S* = (1.25 / 1.35) * IQR / sqrt(n). */
  function CalcularDesviacionRobusta(d: seq<real>, sqrt: real -> real): (r: real)
    requires IsSqrt(sqrt) && |d| >= 1
    ensures Sorted(d) ==> r >= 0.0
  {
    RobustDeviation(CalcularIQR(d), |d|, sqrt)
  }

  /** S* for a given IQR and sample size. */
  function RobustDeviation(iqr: real, n: nat, sqrt: real -> real): (r: real)
    requires IsSqrt(sqrt) && n >= 1
    ensures iqr >= 0.0 ==> r >= 0.0
  {
    SqrtPositive(sqrt, n as real);
    assert iqr >= 0.0 ==> SStarFactor * (iqr / sqrt(n as real)) >= 0.0 by {
      if iqr >= 0.0 {
        ScaledQuotientNonNegative(SStarFactor, iqr, sqrt(n as real));
      }
    }
    SStarFactor * (iqr / sqrt(n as real))
  }

  /** `(1.25 / 1.35)^2 * iqr^2 / n`: S*^2 written without the root. */
  function SquaredDeviationOf(iqr: real, n: nat): real
    requires n >= 1
  {
    SStarFactor * SStarFactor * iqr * iqr / n as real
  }

  lemma RobustDeviationSquare(iqr: real, n: nat, sqrt: real -> real)
    requires IsSqrt(sqrt) && n >= 1
    ensures var s := RobustDeviation(iqr, n, sqrt);
      s * s == SquaredDeviationOf(iqr, n)
  {
    SqrtPositive(sqrt, n as real);
    ScaledQuotientSquare(SStarFactor, iqr, sqrt(n as real), n as real);
  }

  /** `pow(calcularDesviacionRobusta($d), 2)`: the robust variance S*^2,
      which is `(1.25 / 1.35)^2 * IQR^2 / n`. */
  function VarianzaRobusta(d: seq<real>, sqrt: real -> real): (r: real)
    requires IsSqrt(sqrt) && |d| >= 1
    ensures r == SquaredDeviationOf(CalcularIQR(d), |d|)
  {
    var s := CalcularDesviacionRobusta(d, sqrt);
    RobustDeviationSquare(CalcularIQR(d), |d|, sqrt);
    s * s
  }

  /** `calcularCVr`: S* as a percentage of |median|, exactly 0 when
      |median| < 1e-9; never negative. */
  function CalcularCVr(d: seq<real>, sqrt: real -> real): (r: real)
    requires IsSqrt(sqrt) && |d| >= 1
    ensures Sorted(d) ==> r >= 0.0
    ensures Abs(Median(d)) < Epsilon ==> r == 0.0
  {
    GuardedPercentage(CalcularDesviacionRobusta(d, sqrt), Median(d))
  }

  /** The `['superior' => ..., 'inferior' => ...]` pair. */
  datatype Interval = Interval(superior: real, inferior: real)

  /** `calcularIntervalosConfianza`: median +- 1.96 S*, symmetric about the
      median. */
  function CalcularIntervalosConfianza(d: seq<real>, sqrt: real -> real): (r: Interval)
    requires IsSqrt(sqrt) && |d| >= 1
    ensures r.superior - Median(d) == Median(d) - r.inferior
    ensures r.superior - Median(d) == IntervalZ * CalcularDesviacionRobusta(d, sqrt)
    ensures Sorted(d) ==> r.inferior <= Median(d) <= r.superior
  {
    var mediana := Median(d);
    var margen := IntervalZ * CalcularDesviacionRobusta(d, sqrt);
    Interval(mediana + margen, mediana - margen)
  }

  // ---------------------------------------------------------------------
  // Tukey outliers
  // ---------------------------------------------------------------------

  function LowerFence(d: seq<real>): real
    requires |d| >= 1
  {
    CalcularPercentil(d, 25) - 1.5 * CalcularIQR(d)
  }

  function UpperFence(d: seq<real>): real
    requires |d| >= 1
  {
    CalcularPercentil(d, 75) + 1.5 * CalcularIQR(d)
  }

  /** `detectarOutliers`: the values below Q1 - 1.5 IQR or above
      Q3 + 1.5 IQR, in sample order, each as often as it occurs.  Order and
      multiplicities together determine the list (`FilterUnique`). */
  function DetectarOutliers(d: seq<real>): (r: seq<real>)
    requires |d| >= 1
    ensures |r| <= |d|
    ensures forall x :: multiset(r)[x] ==
                        if x < LowerFence(d) || x > UpperFence(d) then multiset(d)[x] else 0
    ensures Subsequence(r, d)
  {
    var lo := LowerFence(d);
    var hi := UpperFence(d);
    var outside := x => x < lo || x > hi;
    FilterSubsequence(d, outside);
    Filter(d, outside)
  }

  /** Every flagged value lies strictly outside [Q1, Q3], so a value between
      the quartiles (the median in particular) is never an outlier. */
  lemma OutliersOutsideQuartiles(d: seq<real>)
    requires |d| >= 1 && Sorted(d)
    ensures forall x :: x in DetectarOutliers(d) ==>
                          x < CalcularPercentil(d, 25) || x > CalcularPercentil(d, 75)
  {
    forall x | x in DetectarOutliers(d)
      ensures x < CalcularPercentil(d, 25) || x > CalcularPercentil(d, 75)
    {
      assert x in multiset(DetectarOutliers(d));
    }
  }

  // ---------------------------------------------------------------------
  // Location and scale behaviour
  // ---------------------------------------------------------------------

  /** Interpolation commutes with a shift of every value. */
  lemma InterpolateIndexShift(d: seq<real>, i: real, c: real)
    requires 0.0 <= i <= (|d| - 1) as real
    ensures InterpolateIndex(Shifted(d, c), i) == InterpolateIndex(d, i) + c
  {
    CeilLeast(i, |d| - 1);
    var e := Shifted(d, c);
    var low, high := i.Floor, Ceil(i);
    assert e[low] == d[low] + c && e[high] == d[high] + c;
    QuantileEngine.LerpShift(d[low], d[high], i - low as real, c);
  }

  /** Shifting every value shifts every percentile. */
  lemma PercentilShift(d: seq<real>, p: int, c: real)
    requires |d| >= 1 && 0 <= p <= 100
    ensures CalcularPercentil(Shifted(d, c), p) == CalcularPercentil(d, p) + c
  {
    InterpolateIndexShift(d, PercentilPosition(|d|, p), c);
  }

  /** The IQR does not depend on the location of the sample. */
  lemma IqrShiftInvariant(d: seq<real>, c: real)
    requires |d| >= 1
    ensures CalcularIQR(Shifted(d, c)) == CalcularIQR(d)
  {
    PercentilShift(d, 25, c);
    PercentilShift(d, 75, c);
  }

  /** Neither does the MAD. */
  lemma MadShiftInvariant(d: seq<real>, c: real)
    requires |d| >= 1
    ensures CalcularMAD(Shifted(d, c)) == CalcularMAD(d)
  {
    var e := Shifted(d, c);
    assert Median(e) == Median(d) + c;
    assert AbsDeviations(e, Median(e)) == AbsDeviations(d, Median(d));
  }

  // ---------------------------------------------------------------------
  // Public entry points
  // ---------------------------------------------------------------------

  /** `getMedia`: the mean of the unsorted prepared sample. */
  function GetMedia(datos: PhpArray): (r: Result<real>)
    ensures r.Err? <==> !IsValidSample(datos)
    ensures r.Err? ==> r.error == InvalidDataSet
    ensures r.Ok? ==> r.value == Mean(Numbers(datos))
  {
    match Prepared(datos, false, false, false)
    case Err(e) => Err(e)
    case Ok(d) => Ok(Mean(Numbers(d)))
  }

  /** `getMediana`. */
  function GetMediana(datos: PhpArray): (r: Result<real>)
    ensures r.Err? <==> !IsValidSample(datos)
    ensures r.Err? ==> r.error == InvalidDataSet
    ensures r.Ok? ==> r.value == Median(SortedValues(datos))
  {
    match Prepared(datos, true, false, false)
    case Err(e) => Err(e)
    case Ok(d) => Ok(Median(Numbers(d)))
  }

  /** `getMAD`. */
  function GetMad(datos: PhpArray): (r: Result<real>)
    ensures r.Err? <==> !IsValidSample(datos)
    ensures r.Err? ==> r.error == InvalidDataSet
    ensures r.Ok? ==> r.value == CalcularMAD(SortedValues(datos)) && r.value >= 0.0
  {
    match Prepared(datos, true, false, false)
    case Err(e) => Err(e)
    case Ok(d) => Ok(CalcularMAD(Numbers(d)))
  }

  /** `getDesviacion`: the MAD scaled by 1.4826, so that it estimates the
      standard deviation of normal data. */
  function GetDesviacion(datos: PhpArray): (r: Result<real>)
    ensures r.Err? <==> !IsValidSample(datos)
    ensures r.Err? ==> r.error == InvalidDataSet
    ensures r.Ok? ==> r.value == MadScale * CalcularMAD(SortedValues(datos)) && r.value >= 0.0
  {
    match GetMad(datos)
    case Err(e) => Err(e)
    case Ok(mad) => Ok(mad * MadScale)
  }

  /** `getCV`: 0 when |median| < 1e-9, otherwise the scaled MAD as a
      percentage of |median|.  The scaled MAD is taken from the prepared
      sample, which prepares to itself. */
  function GetCV(datos: PhpArray): (r: Result<real>)
    ensures r.Err? <==> !IsValidSample(datos)
    ensures r.Err? ==> r.error == InvalidDataSet
    ensures r.Ok? ==> r.value == ScaledMadCv(SortedValues(datos))
  {
    match Prepared(datos, true, false, false)
    case Err(e) => Err(e)
    case Ok(d) => Ok(CvOfPrepared(d))
  }

  /** What `getCV` computes on a sorted sample: the scaled MAD as a
      percentage of |median|, exactly 0 when |median| < 1e-9. */
  function ScaledMadCv(xs: seq<real>): (r: real)
    requires |xs| >= 1 && Sorted(xs)
    ensures r >= 0.0
    ensures Abs(Median(xs)) < Epsilon ==> r == 0.0
  {
    GuardedPercentage(MadScale * CalcularMAD(xs), Median(xs))
  }

  /** The body of `getCV` after preparation: the guard on the median, then
      the scaled MAD of the prepared sample, which prepares to itself. */
  function CvOfPrepared(d: PhpArray): (r: real)
    requires IsValidSample(d) && Sorted(Numbers(d))
    ensures r == ScaledMadCv(Numbers(d))
  {
    var mediana := Median(Numbers(d));
    if Abs(mediana) < Epsilon then 0.0
    else
      (DesviacionOfSorted(d) / Abs(mediana)) * 100.0
  }

  /** `getMediana` on a sample that is already sorted. */
  function MedianaOfSorted(d: PhpArray): (r: real)
    requires IsValidSample(d) && Sorted(Numbers(d))
    ensures r == Median(Numbers(d))
  {
    SortOfSorted(Numbers(d));
    assert SortedValues(d) == Numbers(d);
    GetMediana(d).value
  }

  /** `getDesviacion` on a sample that is already sorted. */
  function DesviacionOfSorted(d: PhpArray): (r: real)
    requires IsValidSample(d) && Sorted(Numbers(d))
    ensures r == MadScale * CalcularMAD(Numbers(d))
  {
    SortOfSorted(Numbers(d));
    assert SortedValues(d) == Numbers(d);
    GetDesviacion(d).value
  }

  /** `getOutliers` on a sample that is already sorted. */
  function OutliersOfSorted(d: PhpArray): (r: seq<real>)
    requires IsValidSample(d) && Sorted(Numbers(d))
    ensures r == DetectarOutliers(Numbers(d))
  {
    SortOfSorted(Numbers(d));
    assert SortedValues(d) == Numbers(d);
    GetOutliers(d).value
  }

  /** `getDesviacionRobusta`. */
  function GetDesviacionRobusta(datos: PhpArray, sqrt: real -> real): (r: Result<real>)
    requires IsSqrt(sqrt)
    ensures r.Err? <==> !IsValidSample(datos)
    ensures r.Err? ==> r.error == InvalidDataSet
    ensures r.Ok? ==> r.value == CalcularDesviacionRobusta(SortedValues(datos), sqrt)
  {
    match Prepared(datos, true, false, false)
    case Err(e) => Err(e)
    case Ok(d) => Ok(CalcularDesviacionRobusta(Numbers(d), sqrt))
  }

  /** `getCVr`. */
  function GetCVr(datos: PhpArray, sqrt: real -> real): (r: Result<real>)
    requires IsSqrt(sqrt)
    ensures r.Err? <==> !IsValidSample(datos)
    ensures r.Err? ==> r.error == InvalidDataSet
    ensures r.Ok? ==> r.value == CalcularCVr(SortedValues(datos), sqrt)
  {
    match Prepared(datos, true, false, false)
    case Err(e) => Err(e)
    case Ok(d) => Ok(CalcularCVr(Numbers(d), sqrt))
  }

  /** `getVarianzaRobusta`: S*^2 = (1.25 / 1.35)^2 * IQR^2 / n. */
  function GetVarianzaRobusta(datos: PhpArray, sqrt: real -> real): (r: Result<real>)
    requires IsSqrt(sqrt)
    ensures r.Err? <==> !IsValidSample(datos)
    ensures r.Err? ==> r.error == InvalidDataSet
    ensures r.Ok? ==> r.value == SquaredDeviationOf(CalcularIQR(SortedValues(datos)), |datos|)
  {
    match Prepared(datos, true, false, false)
    case Err(e) => Err(e)
    case Ok(d) => Ok(VarianzaRobusta(Numbers(d), sqrt))
  }

  /** `getIQR`. */
  function GetIqr(datos: PhpArray): (r: Result<real>)
    ensures r.Err? <==> !IsValidSample(datos)
    ensures r.Err? ==> r.error == InvalidDataSet
    ensures r.Ok? ==> r.value == CalcularIQR(SortedValues(datos)) && r.value >= 0.0
  {
    match Prepared(datos, true, false, false)
    case Err(e) => Err(e)
    case Ok(d) => Ok(CalcularIQR(Numbers(d)))
  }

  /** `getOutliers`: Tukey outliers of the sorted sample, so in ascending
      order. */
  function GetOutliers(datos: PhpArray): (r: Result<seq<real>>)
    ensures r.Err? <==> !IsValidSample(datos)
    ensures r.Err? ==> r.error == InvalidDataSet
    ensures r.Ok? ==> r.value == DetectarOutliers(SortedValues(datos))
  {
    match Prepared(datos, true, false, false)
    case Err(e) => Err(e)
    case Ok(d) => Ok(DetectarOutliers(Numbers(d)))
  }

  /** `getIntervalosConfianza`. */
  function GetIntervalosConfianza(datos: PhpArray, sqrt: real -> real): (r: Result<Interval>)
    requires IsSqrt(sqrt)
    ensures r.Err? <==> !IsValidSample(datos)
    ensures r.Err? ==> r.error == InvalidDataSet
    ensures r.Ok? ==> r.value == CalcularIntervalosConfianza(SortedValues(datos), sqrt)
  {
    match Prepared(datos, true, false, false)
    case Err(e) => Err(e)
    case Ok(d) => Ok(CalcularIntervalosConfianza(Numbers(d), sqrt))
  }

  /** The unrounded `obtenerResumen` array. */
  datatype Summary = Summary(
    media: real,
    mediana: real,
    desviacionRobusta: real,
    varianzaRobusta: real,
    cvr: real,
    iqr: real,
    mad: real,
    outliers: seq<real>,
    intervalosConfianza: Interval,
    count: nat)

  /** The summary of a sample of numbers, taken in the order given. */
  function SummaryOf(d: seq<real>, sqrt: real -> real): (s: Summary)
    requires IsSqrt(sqrt) && |d| >= 1
    ensures s.count == |d| && |s.outliers| <= s.count
    ensures s.media == Mean(d) && s.mediana == Median(d)
    ensures s.desviacionRobusta == CalcularDesviacionRobusta(d, sqrt) && s.cvr == CalcularCVr(d, sqrt)
    ensures s.iqr == CalcularIQR(d) && s.mad == CalcularMAD(d)
    ensures s.outliers == DetectarOutliers(d)
    ensures s.intervalosConfianza == CalcularIntervalosConfianza(d, sqrt)
    ensures s.varianzaRobusta == SquaredDeviationOf(s.iqr, s.count)
    ensures s.intervalosConfianza.superior - s.mediana == s.mediana - s.intervalosConfianza.inferior
    ensures s.intervalosConfianza.superior - s.mediana == IntervalZ * s.desviacionRobusta
    ensures s.mad >= 0.0
    ensures Sorted(d) ==> s.iqr >= 0.0 && s.cvr >= 0.0 && s.desviacionRobusta >= 0.0
  {
    Summary(
      Mean(d),
      Median(d),
      CalcularDesviacionRobusta(d, sqrt),
      VarianzaRobusta(d, sqrt),
      CalcularCVr(d, sqrt),
      CalcularIQR(d),
      CalcularMAD(d),
      DetectarOutliers(d),
      CalcularIntervalosConfianza(d, sqrt),
      |d|)
  }

  /** `obtenerResumen($datos, $ordenar)` without rounding: the summary of
      the prepared sample, sorted when `ordenar` and in the caller's order
      otherwise. */
  function ObtenerResumen(datos: PhpArray, ordenar: bool, sqrt: real -> real): (r: Result<Summary>)
    requires IsSqrt(sqrt)
    ensures r.Err? <==> !IsValidSample(datos)
    ensures r.Err? ==> r.error == InvalidDataSet
    ensures r.Ok? ==> r.value.count == |datos|
    ensures r.Ok? && ordenar ==> r.value == SummaryOf(SortedValues(datos), sqrt)
    ensures r.Ok? && !ordenar ==> r.value == SummaryOf(Numbers(datos), sqrt)
  {
    match Prepared(datos, ordenar, false, false)
    case Err(e) => Err(e)
    case Ok(d) => Ok(SummaryOf(Numbers(d), sqrt))
  }

  /** A sample that is already in ascending order summarises the same with
      and without `ordenar`. */
  lemma ResumenOfSortedSample(datos: PhpArray, sqrt: real -> real)
    requires IsSqrt(sqrt) && AllNumeric(datos) && Sorted(Numbers(datos))
    ensures ObtenerResumen(datos, false, sqrt) == ObtenerResumen(datos, true, sqrt)
  {
    SortOfSorted(Numbers(datos));
  }

  /** Every sorted entry point depends only on the multiset of the values. */
  lemma ResumenPermutationInvariant(a: PhpArray, b: PhpArray, sqrt: real -> real)
    requires IsSqrt(sqrt) && IsValidSample(a) && IsValidSample(b)
    requires multiset(Numbers(a)) == multiset(Numbers(b))
    ensures ObtenerResumen(a, true, sqrt) == ObtenerResumen(b, true, sqrt)
  {
    SortOfPermutation(Numbers(a), Numbers(b));
  }
}
