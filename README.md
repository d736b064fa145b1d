# StatGuard core in Dafny

A model of the statistics core of the PHP library StatGuard
(`cjuol/symmetrical-octo`), with proofs about it.

**Engines and shared pieces**
- The **quantile engine** implements the nine sample-quantile definitions of Hyndman and Fan, "Sample Quantiles in Statistical Packages" (1996), Definitions 1 to 9.
- The **data-processing trait** validates and prepares a sample for every engine.
- The **robust engine** computes the median, type-7 percentiles, IQR, MAD, S* = (1.25/1.35)·IQR/√n, the robust variance S*², the robust CV, Tukey outliers and a median ± 1.96·S* interval.
- The **classical engine** computes the mean, the sample and population variances, the standard deviation, the CV and z-score outliers.
- The **comparator** sets the two engines against each other. It computes a bias percentage and a noise ratio, and from them a three-way verdict (ALERTA, PRECAUCIÓN, ESTABLE).

**How the model represents them**
- A PHP array is a sequence of key/value entries. A value is either a number `is_numeric` accepts or anything else.
- All arithmetic is over Dafny's exact `real`.
- The square root is a parameter `sqrt` constrained by `IsSqrt`: non-negative, and its square is its argument.
- Every exception becomes an `Err` of a `Result`:
  - `InvalidArgument` for a quantile type outside 1..9;
  - `InvalidDataSet` for a rejected sample;
  - `DivisionByZero` for PHP 8's `DivisionByZeroError`.

**Modules and files**
- `samples.dfy` (`Samples`): the PHP array; `sort(..., SORT_NUMERIC)` as an ascending permutation; `array_filter` + `array_values`; `array_sum`; the mean and the median, which both engines define with the same body.
- `real_math.dfy` (`RealMath`): `abs`, `ceil`, round-half-even, the `1e-9` guard and the root.
- `data_processor.dfy` (`DataProcessor`): `validateData` and `prepareData`, as loop methods proved against the functions `Validated` and `Prepared`.
- `quantile_engine.dfy` (`QuantileEngine`): `normalizeData` and `calculateInternal` are methods. The discrete and continuous rules are functions.
- `robust_stats.dfy` (`RobustStats`), `classic_stats.dfy` (`ClassicStats`) and `stats_comparator.dfy` (`StatsComparator`): the engines and the comparator, as functions. The PHP source for these has no loops and no mutable state.
- `sample_cases.dfy`, `robust_stats_cases.dfy`, `classic_stats_cases.dfy` and `stats_comparator_cases.dfy`: the expectations of the PHPUnit suites, proved on the model.
  - Exact rational values are proved equal.
  - Values that involve a square root are proved within the suites' tolerance of 0.001.

**Naming and errors**
- The engines call `prepararDatos($datos, $ordenar)`, but the trait defines `prepareData($data, $sort, $alreadyProcessed, $alreadySorted)`. The model treats the first as `Prepared(datos, ordenar, false, false)`.
- The tests expect `\InvalidArgumentException` from a rejected sample, but the trait throws the library's `InvalidDataSetException`. The model follows the code and uses one error kind, `InvalidDataSet`.

**Sortedness of the internal functions**
- The internal robust functions (`CalcularPercentil`, `CalcularIQR`, `Median`, …) index the sequence by position, as the PHP does. They do not require a sorted sample, because `obtenerResumen($datos, false)` really calls them on unsorted data.
- What they promise as order statistics is stated under `Sorted(d) ==>`: results between the extremes, non-negative IQR, an interval around the median.

## Model

| member | source | states |
|---|---|---|
| `Samples.ArrayValues` | src/Traits/DataProcessorTrait.php:36 | `array_values` keeps every value in place and re-keys the entries 0..n-1 |
| `Samples.ArrayValuesOfList` | src/Traits/DataProcessorTrait.php:32-36 | on an array already keyed 0..n-1, `array_values` changes nothing |
| `Samples.FromNumbersOfList` | src/Traits/DataProcessorTrait.php:43 | a numeric list is determined by its numbers, so re-keying sorted numbers 0..n-1 loses nothing |
| `Samples.Sort` | src/Traits/DataProcessorTrait.php:43 | `sort(..., SORT_NUMERIC)` returns an ascending permutation of the values (same length, same multiset) |
| `Samples.SortedUnique` | src/Traits/DataProcessorTrait.php:43 | two ascending sequences with the same multiset are equal, so the sorted result is unique |
| `Samples.SortOfSorted` | src/Traits/DataProcessorTrait.php:42-44 | sorting a sample that is already ascending changes nothing |
| `Samples.SortOfPermutation` | src/QuantileEngine.php:66-68 | the sorted sample depends only on the multiset of the values |
| `Samples.Filter` | src/RobustStats.php:145 | `array_values(array_filter(...))` keeps exactly the accepted values, each as often as it occurs, and is never longer than the input |
| `Samples.FilterMembership` | src/ClassicStats.php:94-96 | a value is in the filtered list exactly when it is in the sample and accepted |
| `Samples.FilterSubsequence` | src/RobustStats.php:145 | `array_values(array_filter(...))` keeps the accepted values in sample order: the result is a subsequence of the input |
| `Samples.FilterUnique` | src/ClassicStats.php:94-96 | a subsequence of the input holding each accepted value as often as the input and no other value is the filtered list, so order and multiplicities determine it |
| `Samples.FilterAppend` | src/RobustStats.php:145 | filtering a concatenation is the concatenation of the filtered parts, so sample order is kept |
| `Samples.SumPermutation` | src/RobustStats.php:104 | `array_sum` depends only on the multiset of the values |
| `Samples.SumOfPermutation` | src/ClassicStats.php:146 | the `array_reduce` sum of a term per value depends only on the multiset of the values |
| `Samples.MeanBounds` | src/ClassicStats.php:121-124 | the mean `array_sum / count` lies between any lower and upper bound of the values |
| `Samples.MeanPermutation` | src/RobustStats.php:102-105 | the mean does not depend on the order of the values |
| `Samples.MeanShift` | src/ClassicStats.php:121-124 | adding `c` to every value adds `c` to the mean |
| `Samples.Median` | src/RobustStats.php:107-112 | the middle element for odd n; for even n a value as far from each of the two middle elements; between the two middle elements of a sorted sample |
| `Samples.MedianBounds` | src/ClassicStats.php:126-135 | the median of a sorted sample lies between its smallest and largest value |
| `RealMath.Ceil` | src/QuantileEngine.php:78 | `(int) ceil(x)` is an integer in [x, x + 1) |
| `RealMath.CeilLeast` | src/RobustStats.php:158 | `ceil(x)` is the least integer at or above `x` |
| `RealMath.RoundHalfEven` | src/QuantileEngine.php:80 | `round(x, 0, PHP_ROUND_HALF_EVEN)` is within 1/2 of `x`, and even on a tie |
| `RealMath.RoundHalfEvenUnique` | src/QuantileEngine.php:80 | those two properties determine the rounded value |
| `RealMath.GuardedPercentage` | src/RobustStats.php:120-125 | `abs(c) < 1e-9 ? 0.0 : s / abs(c) * 100`: exactly 0 under the guard, otherwise `r * abs(c) == 100 * s`, never negative for `s >= 0` |
| `RealMath.SqrtOfSquare` | src/RobustStats.php:117 | the root of `y * y` is `y` for `y >= 0` |
| `RealMath.SqrtBelow` | src/ClassicStats.php:50 | comparing a root with a positive bound is comparing the squares |
| `DataProcessor.SortedValues` | src/Traits/DataProcessorTrait.php:39-46 | the numbers a sorted entry point computes on are ascending, as many as the entries, and a permutation of the input numbers |
| `DataProcessor.Validated` | src/Traits/DataProcessorTrait.php:11-37 | fewer than 2 values, or any non-numeric value, is `InvalidDataSet`; otherwise it returns the same values in the same order, keyed 0..n-1 unless `alreadyProcessed`, and the input itself when it is already a list or `alreadyProcessed` |
| `DataProcessor.ValidateData` | src/Traits/DataProcessorTrait.php:11-37 | the `foreach` with the `$isSequential` / `$expectedKey` flags returns exactly `Validated` |
| `DataProcessor.Prepared` | src/Traits/DataProcessorTrait.php:39-46 | an error exactly as `validateData`; with `sort && !alreadySorted` a list of the ascending permutation of the values, otherwise the values in their order; the same length |
| `DataProcessor.PrepareData` | src/Traits/DataProcessorTrait.php:39-46 | validation then the optional sort of the local copy returns exactly `Prepared` |
| `DataProcessor.PreparedUnchanged` | src/Traits/DataProcessorTrait.php:32-33 | a valid array that needs no re-keying (a list, or `alreadyProcessed`) and no sort is returned exactly as given |
| `DataProcessor.PrepareAgain` | src/Traits/DataProcessorTrait.php:39-46 | preparing a prepared list again (sorted if it was sorted) returns it unchanged |
| `DataProcessor.PreparedSortedPermutation` | src/Traits/DataProcessorTrait.php:42-44 | a sorted preparation depends only on the multiset of the values |
| `QuantileEngine.Clamp01` | src/QuantileEngine.php:34 | `max(0, min(1, p))` lies in [0, 1], is `p` inside it, 0 below it and 1 above it |
| `QuantileEngine.ClampRank` | src/QuantileEngine.php:78 | `max(1, min(n, k))` lies in [1, n], is `k` inside it, 1 below it and n above it |
| `QuantileEngine.CalculateDiscrete` | src/QuantileEngine.php:73-82 | types 1 and 3 return an element of the sample; every discrete type stays between the extremes of a sorted sample |
| `QuantileEngine.CalculateType2` | src/QuantileEngine.php:84-104 | type 2 stays between the extremes of a sorted sample |
| `QuantileEngine.ApplyType2Averaging` | src/QuantileEngine.php:106-109 | the midpoint is as far from each end and lies between them |
| `QuantileEngine.Type1IsInverseEcdf` | src/QuantileEngine.php:78 | for 0 < p <= 1, type 1 returns order statistic k, where (k-1)/n < p <= k/n |
| `QuantileEngine.Type3IsNearestEvenRank` | src/QuantileEngine.php:80 | type 3 returns order statistic k, where k is the rank nearest n·p, taking the even rank on a tie |
| `QuantileEngine.Type2Cases` | src/QuantileEngine.php:89-103 | with h = n·p: the first element when h <= 0; the last when h >= n; the mean of order statistics k and k+1 when h == k; order statistic k+1 when k < h < k+1 |
| `QuantileEngine.Type2OffJump` | src/QuantileEngine.php:96-103 | where n·p is not an integer, type 2 equals type 1 |
| `QuantileEngine.Type2OnJump` | src/QuantileEngine.php:99-101 | where n·p == k is an integer, type 2 is the mean of type 1 and order statistic k+1 |
| `QuantileEngine.GetHyndmanFanParameters` | src/QuantileEngine.php:133-143 | the (α, β) of types 4 to 9 lie in [0, 1]; only type 4 has α ≠ β |
| `QuantileEngine.ParametersGivePositions` | src/QuantileEngine.php:133-143 | each (α, β) of the table yields its definition's plotting position: n·p (4), n·p + 1/2 (5), (n+1)·p (6), 1 + (n−1)·p (7), (n+1/3)·p + 1/3 (8), (n+1/4)·p + 3/8 (9) |
| `QuantileEngine.ContinuousAtPosition` | src/QuantileEngine.php:111-131 | each continuous type interpolates at that definition's plotting position |
| `QuantileEngine.Lerp` | src/QuantileEngine.php:130 | `lower + d * (upper - lower)` is `lower` at d = 0 and lies in [lower, upper] for d in [0, 1] |
| `QuantileEngine.LerpMonotone` | src/QuantileEngine.php:130 | interpolation never decreases as d grows |
| `QuantileEngine.LerpShift` | src/QuantileEngine.php:130 | shifting both ends shifts the interpolated value by the same amount |
| `QuantileEngine.InterpolateAt` | src/QuantileEngine.php:117-130 | the first element when floor(h) <= 0; the last when floor(h) >= n; order statistic h at integer h; between order statistics floor(h) and floor(h)+1; within the extremes of a sorted sample |
| `QuantileEngine.CalculateContinuous` | src/QuantileEngine.php:111-131 | every continuous type stays between the extremes of a sorted sample |
| `QuantileEngine.InterpolateMonotone` | src/QuantileEngine.php:117-130 | on a sorted sample, the interpolated value never decreases as the position grows |
| `QuantileEngine.ContinuousMonotone` | src/QuantileEngine.php:111-131 | on a sorted sample, each continuous type never decreases as p grows in [0, 1] |
| `QuantileEngine.PositionMonotone` | src/QuantileEngine.php:116 | the position h = α + (n + 1 − α − β)·p grows with p when α, β <= 1 |
| `QuantileEngine.QuantileOf` | src/QuantileEngine.php:29-40 | a one-element sample gives its element; any other result stays between the extremes of a sorted sample |
| `QuantileEngine.Quantile` | src/QuantileEngine.php:21-41 | a type outside 1..9 is `InvalidArgument`; otherwise an empty or non-numeric sample is `InvalidDataSet`; a one-element sample gives its value; after sorting, the result lies between the smallest and largest value |
| `QuantileEngine.NormalizeData` | src/QuantileEngine.php:43-71 | the loop rejects an empty or non-numeric sample; otherwise it returns a numeric list of the values, sorted unless `alreadySorted`, and the input itself for a list with `alreadySorted` |
| `QuantileEngine.CalculateInternal` | src/QuantileEngine.php:21-41 | returns exactly `Quantile` |
| `QuantileEngine.Calculate` | src/QuantileEngine.php:11-14 | returns exactly `Quantile` with sorting |
| `QuantileEngine.CalculateSorted` | src/QuantileEngine.php:16-19 | returns exactly `Quantile` without sorting |
| `QuantileEngine.TypeCheckedFirst` | src/QuantileEngine.php:23-25 | an invalid type is reported even on an empty or non-numeric sample |
| `QuantileEngine.ProbabilityClamped` | src/QuantileEngine.php:34 | any p < 0 gives the result for p = 0, and any p > 1 the result for p = 1 |
| `QuantileEngine.CalculateIsSortThenCalculateSorted` | src/QuantileEngine.php:11-19 | `calculate(data)` equals `calculateSorted(sort(data))` |
| `QuantileEngine.CalculatePermutationInvariant` | src/QuantileEngine.php:64-68 | `calculate` depends only on the multiset of the values |
| `QuantileEngine.SingletonQuantile` | src/QuantileEngine.php:29-32 | a one-element sample gives its value for every p and every valid type |
| `RobustStats.PercentilPosition` | src/RobustStats.php:157-158 | for p in [0, 100], i = p/100·(n−1) and both floor(i) and ceil(i) are indices of the sample |
| `RobustStats.InterpolateIndex` | src/RobustStats.php:158-159 | interpolation between d[floor i] and d[ceil i] stays between the extremes of a sorted sample |
| `RobustStats.InterpolateIndexIsAt` | src/RobustStats.php:159 | interpolating at index i from 0 is the quantile engine's interpolation at position i + 1 from 1 |
| `RobustStats.CalcularPercentil` | src/RobustStats.php:155-160 | the percentile of a sorted sample lies in [d[0], d[n−1]] |
| `RobustStats.PercentilIsType7` | src/RobustStats.php:155-160 | the private percentile equals the quantile engine's type 7 at p/100 |
| `RobustStats.PercentilMonotone` | src/RobustStats.php:155-160 | on a sorted sample, the percentile never decreases as p grows |
| `RobustStats.CalcularIQR` | src/RobustStats.php:127-130 | P75 − P25 is never negative on a sorted sample |
| `RobustStats.AbsDeviations` | src/RobustStats.php:135 | the mapped list holds \|x − c\| for each value, in order |
| `RobustStats.CalcularMAD` | src/RobustStats.php:132-138 | the median of the sorted absolute deviations from the median is never negative |
| `RobustStats.CalcularDesviacionRobusta` | src/RobustStats.php:114-118 | S* = (1.25/1.35)·IQR/√n is never negative on a sorted sample |
| `RobustStats.RobustDeviationSquare` | src/RobustStats.php:117 | S*² == (1.25/1.35)²·IQR²/n, without the root |
| `RobustStats.VarianzaRobusta` | src/RobustStats.php:56-60 | `pow(S*, 2)` equals (1.25/1.35)²·IQR²/n |
| `RobustStats.CalcularCVr` | src/RobustStats.php:120-125 | exactly 0 when \|median\| < 1e-9; never negative on a sorted sample |
| `RobustStats.CalcularIntervalosConfianza` | src/RobustStats.php:148-153 | superior − median == median − inferior == 1.96·S*; the median lies inside on a sorted sample |
| `RobustStats.DetectarOutliers` | src/RobustStats.php:140-146 | exactly the values below Q1 − 1.5·IQR or above Q3 + 1.5·IQR, each as often as it occurs, in sample order (a subsequence of the sample); by `Samples.FilterUnique` this determines the list |
| `RobustStats.OutliersOutsideQuartiles` | src/RobustStats.php:145 | on a sorted sample every outlier lies strictly outside [Q1, Q3] |
| `RobustStats.PercentilShift` | src/RobustStats.php:155-160 | adding `c` to every value adds `c` to every percentile |
| `RobustStats.IqrShiftInvariant` | src/RobustStats.php:127-130 | the IQR does not depend on the location of the sample |
| `RobustStats.MadShiftInvariant` | src/RobustStats.php:132-138 | the MAD does not depend on the location of the sample |
| `RobustStats.GetMedia` | src/RobustStats.php:18-21 | `InvalidDataSet` exactly for an invalid sample; otherwise the mean of the values in their order |
| `RobustStats.GetMediana` | src/RobustStats.php:23-26 | the same error; otherwise the median of the sorted values |
| `RobustStats.GetMad` | src/RobustStats.php:67-70 | the same error; otherwise the MAD of the sorted values, never negative |
| `RobustStats.GetDesviacion` | src/RobustStats.php:28-32 | the same error; otherwise 1.4826 × MAD of the sorted values, never negative |
| `RobustStats.GetCV` | src/RobustStats.php:34-41 | the same error; otherwise the scaled MAD as a percentage of \|median\| |
| `RobustStats.ScaledMadCv` | src/RobustStats.php:39-40 | exactly 0 when \|median\| < 1e-9; never negative |
| `RobustStats.CvOfPrepared` | src/RobustStats.php:37-40 | the guard followed by `getDesviacion` on the already-prepared sample equals the scaled-MAD percentage of that sample |
| `RobustStats.MedianaOfSorted` | src/RobustStats.php:23-26 | `getMediana` on a sorted list is the median of the list |
| `RobustStats.DesviacionOfSorted` | src/RobustStats.php:28-32 | `getDesviacion` on a sorted list is 1.4826 × MAD of the list |
| `RobustStats.OutliersOfSorted` | src/RobustStats.php:72-75 | `getOutliers` on a sorted list is the Tukey outliers of the list |
| `RobustStats.GetDesviacionRobusta` | src/RobustStats.php:45-48 | `InvalidDataSet` exactly for an invalid sample; otherwise S* of the sorted values |
| `RobustStats.GetCVr` | src/RobustStats.php:50-54 | the same error; otherwise CVr of the sorted values |
| `RobustStats.GetVarianzaRobusta` | src/RobustStats.php:56-60 | the same error; otherwise (1.25/1.35)²·IQR²/n of the sorted values |
| `RobustStats.GetIqr` | src/RobustStats.php:62-65 | the same error; otherwise the IQR of the sorted values, never negative |
| `RobustStats.GetOutliers` | src/RobustStats.php:72-75 | the same error; otherwise the Tukey outliers of the sorted values |
| `RobustStats.GetIntervalosConfianza` | src/RobustStats.php:77-80 | the same error; otherwise the interval of the sorted values |
| `RobustStats.SummaryOf` | src/RobustStats.php:86-97 | every field is the engine's own figure of the sample: `media` the mean, `mediana` the median, S*, CVr, IQR, MAD, the Tukey outliers, the interval and `count` n; robust variance S*²; the interval is symmetric with half-width 1.96·S*; MAD ≥ 0; IQR, CVr, S* ≥ 0 on a sorted sample |
| `RobustStats.ObtenerResumen` | src/RobustStats.php:82-98 | `InvalidDataSet` exactly for an invalid sample; otherwise `count` is n and the summary is taken of the sorted values with `ordenar`, of the values as given without it |
| `RobustStats.ResumenOfSortedSample` | src/RobustStats.php:84 | an ascending sample gives the same summary with and without `ordenar` |
| `RobustStats.ResumenPermutationInvariant` | src/RobustStats.php:84 | the sorted summary depends only on the multiset of the values |
| `ClassicStats.SumSquaredDeviationsZero` | src/ClassicStats.php:146 | the sum of squared deviations is never negative, and is 0 exactly when every value is the centre |
| `ClassicStats.SumSquaredDeviationsShift` | src/ClassicStats.php:146 | shifting the values and the centre together leaves the sum unchanged |
| `ClassicStats.ConstantIffAtMean` | src/ClassicStats.php:143-146 | every value equals the mean exactly when all values are equal |
| `ClassicStats.Divisor` | src/ClassicStats.php:148 | the divisor n − 1 or n is at least 1 for a valid sample |
| `ClassicStats.CalcularVarianza` | src/ClassicStats.php:141-151 | the variance is never negative, and is 0 exactly on a constant sample |
| `ClassicStats.VarianceTimesDivisor` | src/ClassicStats.php:150 | the variance times n − 1 (sample) or n (population) is the sum of squared deviations from the mean |
| `ClassicStats.PopulationFromSample` | src/ClassicStats.php:148-150 | population variance · n == sample variance · (n − 1) |
| `ClassicStats.VariancePermutation` | src/ClassicStats.php:141-151 | the variance does not depend on the order of the values |
| `ClassicStats.VarianceShift` | src/ClassicStats.php:141-151 | the variance does not depend on the location of the sample |
| `ClassicStats.DesviacionEstandar` | src/ClassicStats.php:48-51 | the standard deviation is never negative, and is 0 exactly on a constant sample |
| `ClassicStats.DesviacionEstandarSquare` | src/ClassicStats.php:50 | the standard deviation squared is the sample variance |
| `ClassicStats.DesviacionPermutation` | src/ClassicStats.php:48-51 | the standard deviation does not depend on the order of the values |
| `ClassicStats.ZScoreAsSquare` | src/ClassicStats.php:95 | for sd > 0 with sd² = v, \|(x − m)/sd\| > 3 exactly when (x − m)² > 9·v |
| `ClassicStats.ZScoreFilter` | src/ClassicStats.php:92-96 | the `getOutliers` filter keeps sample order: its result is a subsequence of the sample |
| `ClassicStats.ZScoreOutliers` | src/ClassicStats.php:88-96 | none on a constant sample (sd == 0); otherwise exactly the values with (x − mean)² > 9·sample variance, each as often as it occurs, in sample order (a subsequence of the sample) |
| `ClassicStats.CauchySchwarz` | src/ClassicStats.php:146 | (Σx − n·m)² <= n·Σ(x − m)², which bounds a single deviation |
| `ClassicStats.DeviationBound` | src/ClassicStats.php:146 | every squared deviation from the mean is at most (n − 1)/n of the sum of squared deviations |
| `ClassicStats.SmallSampleDeviation` | src/ClassicStats.php:95 | in a sample of 2 to 10 values, no value has a squared deviation above 9 sample variances |
| `ClassicStats.SmallSampleHasNoZScoreOutlier` | src/ClassicStats.php:94-96 | so such a sample never has a z-score outlier |
| `ClassicStats.GetMedia` | src/ClassicStats.php:24-27 | `InvalidDataSet` exactly for an invalid sample; otherwise the mean of the values |
| `ClassicStats.GetMediana` | src/ClassicStats.php:32-35 | the same error; otherwise the median of the sorted values |
| `ClassicStats.GetVarianzaMuestral` | src/ClassicStats.php:69-72 | the same error; otherwise the variance over n − 1 |
| `ClassicStats.GetVarianzaPoblacional` | src/ClassicStats.php:77-80 | the same error; otherwise the variance over n |
| `ClassicStats.GetDesviacionEstandar` | src/ClassicStats.php:48-51 | the same error; otherwise the root of the sample variance |
| `ClassicStats.GetDesviacion` | src/ClassicStats.php:40-43 | the interface's deviation is the sample standard deviation, with the same error |
| `ClassicStats.GetCV` | src/ClassicStats.php:56-64 | the same error; otherwise the standard deviation as a guarded percentage of \|mean\| (0 when \|mean\| < 1e-9), never negative |
| `ClassicStats.CvOfPrepared` | src/ClassicStats.php:58-63 | the guard followed by `getDesviacionEstandar` on the prepared sample gives that guarded percentage |
| `ClassicStats.GetOutliers` | src/ClassicStats.php:86-97 | the same error; otherwise the z-score outliers of the values in the caller's order |
| `ClassicStats.ObtenerResumen` | src/ClassicStats.php:102-117 | `InvalidDataSet` for an invalid sample and `DivisionByZero` for a valid one with mean 0; otherwise `count` n, the mean, the sample variance, its root, CV = sd/\|mean\|·100, and the median and outliers of the sorted or given order |
| `ClassicStats.SummaryOfPrepared` | src/ClassicStats.php:104-116 | each field of the summary of a prepared sample, with the CV unguarded or guarded |
| `ClassicStats.ObtenerResumenGuarded` | src/ClassicStats.php:56-64 | the summary with the CV of `getCV`: defined for every valid sample, with every other field as in `obtenerResumen` |
| `ClassicStats.ResumenGuardedAgrees` | src/ClassicStats.php:113 | where \|mean\| >= 1e-9, the summary as written and the guarded one are equal |
| `ClassicStats.ZeroMeanSummary` | src/ClassicStats.php:113 | a valid sample with mean 0 makes `obtenerResumen` divide by zero, while `getCV` gives 0 and the guarded summary exists |
| `ClassicStats.ZeroMeanExample` | src/ClassicStats.php:113 | the list [-1, 1] is such a sample |
| `ClassicStats.CvOfNonZeroMeanIsPercentage` | src/ClassicStats.php:113 | the unguarded CV times \|mean\| is 100 × the deviation |
| `StatsComparator.GenerarVeredicto` | src/StatsComparator.php:76-88 | ALERTA exactly when \|bias\| > 10 or ratio > 1.5; PRECAUCIÓN exactly when not ALERTA and (\|bias\| > 5 or ratio > 1.2); ESTABLE exactly when \|bias\| <= 5 and ratio <= 1.2 |
| `StatsComparator.VerdictMonotone` | src/StatsComparator.php:79-87 | a larger \|bias\| or ratio never gives a milder verdict |
| `StatsComparator.Sesgo` | src/StatsComparator.php:42 | 0 when \|median\| <= 1e-9; positive exactly when past the guard and mean > median; negative exactly when past it and mean < median |
| `StatsComparator.SesgoIsPercentage` | src/StatsComparator.php:42 | past the guard, bias × \|median\| == 100 × (mean − median) |
| `StatsComparator.RatioRuido` | src/StatsComparator.php:46-51 | 2.0 when only the robust deviation is within 1e-9 of 0; 1.0 when both are; never negative for non-negative deviations |
| `StatsComparator.RatioIsQuotient` | src/StatsComparator.php:47 | past the guard, ratio × robust deviation == classical deviation |
| `StatsComparator.InfiniteNoiseIsAlerta` | src/StatsComparator.php:50 | a zero robust deviation with a non-zero classical one always gives ALERTA |
| `StatsComparator.ReportOf` | src/StatsComparator.php:53-70 | the report carries the four figures and two counts; it derives \|mean − median\|, the bias, the ratio, and the verdict of those two |
| `StatsComparator.SampleFiguresPermutation` | src/StatsComparator.php:31-37 | the figures depend only on the multiset of the values |
| `StatsComparator.Analizar` | src/StatsComparator.php:29-71 | `InvalidDataSet` exactly for an invalid sample; otherwise the report of the classical mean and sd, the median and 1.4826 × MAD of the sorted values, and the two outlier counts on the sorted sample |
| `StatsComparator.FiguresOfPrepared` | src/StatsComparator.php:33-37 | the engine calls on the prepared sample return exactly the promised figures |
| `StatsComparator.ClassicFigures` | src/StatsComparator.php:33-35 | `getMedia`, `getDesviacionEstandar` and the z-score count on the prepared sample |
| `StatsComparator.RobustFigures` | src/StatsComparator.php:34-37 | `getMediana`, `getDesviacion` and the Tukey count on the sorted prepared sample |
| `StatsComparator.AnalizarPermutationInvariant` | src/StatsComparator.php:31 | the report depends only on the multiset of the values |
| `StatsComparator.LargeBiasIsAlerta` | src/StatsComparator.php:79 | a valid sample with \|bias\| > 10 gets ALERTA, whatever its ratio |
| `SampleCases.ReferenceSorted` | tests/RobustStatsTest.php:16 | the reference sample sorts to 76, 78, 79, 84, 85, 85.4, 86.5, 87.3, 89, 89 |
| `SampleCases.ReferenceVariances` | tests/ClassicStatsTest.php:40-50 | reference mean 83.92, sample variance 195.036/9 (≈ 21.67), population variance 19.5036 |
| `RobustStatsCases.ReferenceQuartiles` | tests/RobustStatsTest.php:69-74 | on the sorted reference sample: median 85.2, P25 80.25, P75 87.1, IQR 6.85 |
| `RobustStatsCases.ReferenceMad` | tests/RobustStatsTest.php:76-81 | the MAD of the reference sample is 2.95 |
| `RobustStatsCases.ReferenceOutliers` | tests/RobustStatsTest.php:85-87 | the reference sample has no Tukey outliers |
| `RobustStatsCases.Reference` | tests/RobustStatsTest.php:62-67 | `getMediana` 85.2, `getIQR` 6.85, `getMAD` 2.95, `getOutliers` [], `getVarianzaRobusta` (25/27)²·6.85²/10 ≈ 4.022848 |
| `RobustStatsCases.ReferenceRobustDeviation` | tests/RobustStatsTest.php:177 | S* of the reference sample lies in (2.0052, 2.0059) |
| `RobustStatsCases.ReferenceRoots` | tests/RobustStatsTest.php:29-54 | S*, CVr and both interval ends are within 0.001 of 2.005703886310498, 2.354112542617955, 89.13117961716858 and 81.26882038283142 |
| `RobustStatsCases.ReferenceSummary` | tests/RobustStatsTest.php:96-117 | `getMedia` 83.92; the sorted summary has media 83.92, mediana 85.2 and count 10 |
| `RobustStatsCases.NegativesSpread` | tests/RobustStatsTest.php:170 | [-9, -7, -5, -3]: median −6 and S* exactly 25/18 |
| `RobustStatsCases.Negatives` | tests/RobustStatsTest.php:178 | `getMediana` gives −6 and `getDesviacionRobusta` gives 25/18 ≈ 1.388888888888889 |
| `RobustStatsCases.TukeyFences` | tests/RobustStatsTest.php:90 | [1, 2, 3, 4, 5, 100] has fences −1.5 and 8.5 |
| `RobustStatsCases.LastIsOnlyOutlier` | src/RobustStats.php:145 | when only the last value lies outside the fences, the outliers are exactly that value |
| `RobustStatsCases.TukeyExample` | tests/RobustStatsTest.php:89-93 | `getOutliers([1, 2, 3, 4, 5, 100])` is exactly [100] |
| `RobustStatsCases.ZeroMedianCv` | tests/RobustStatsTest.php:43-47 | `getCV([0, 0, 0])` is exactly 0 |
| `RobustStatsCases.ZeroMedianCvr` | tests/RobustStatsTest.php:152-157 | `getCVr([-1, 0, 1, 0])` is exactly 0 |
| `RobustStatsCases.Validation` | tests/RobustStatsTest.php:182-188 | `getMedia([1])` and `getMedia([1, 'abc', 3])` are rejected |
| `ClassicStatsCases.Reference` | tests/ClassicStatsTest.php:23-62 | `getMedia` 83.92, `getMediana` 85.2, sample variance 195.036/9, population variance 19.5036, `getOutliers` [] |
| `ClassicStatsCases.ReferenceStandardDeviation` | tests/ClassicStatsTest.php:37 | the reference standard deviation lies in (4.6551, 4.6552) |
| `ClassicStatsCases.ReferenceRoots` | tests/ClassicStatsTest.php:34-57 | `getDesviacionEstandar` within 0.001 of 4.655176330351694 and `getCV` within 0.001 of 5.5471595928881 |
| `ClassicStatsCases.ReferenceSummary` | tests/ClassicStatsTest.php:70-89 | the sorted summary has media 83.92, mediana 85.2, count 10 and sample variance 195.036/9 |
| `ClassicStatsCases.ZeroMeanCv` | tests/ClassicStatsTest.php:135 | `getCV([0, 0, 0])` is exactly 0 |
| `ClassicStatsCases.SpikeMoments` | tests/ClassicStatsTest.php:64 | fifteen zeros and 1000: mean 62.5, sample variance 62500 |
| `ClassicStatsCases.SpikeOutliers` | tests/ClassicStatsTest.php:64-67 | of those, exactly 1000 is a z-score outlier |
| `ClassicStatsCases.Spike` | tests/ClassicStatsTest.php:65 | `getOutliers` of that array is exactly [1000] |
| `ClassicStatsCases.Validation` | tests/ClassicStatsTest.php:139-145 | `getMedia([1])` and `getMedia([1, 'abc', 3])` are rejected |
| `StatsComparatorCases.AnalysisOf` | src/StatsComparator.php:42-69 | from the four figures of a valid sample: the report's bias, ratio and verdict |
| `StatsComparatorCases.RatioAgainst` | src/StatsComparator.php:47 | past the guard, ratio > c exactly when sd > c × robust deviation |
| `StatsComparatorCases.HighBiasVerdict` | tests/StatsComparatorTest.php:23-37 | [10, 10, 11, 12, 10, 500]: \|bias\| > 10, ratio > 1.5, ALERTA |
| `StatsComparatorCases.SteadyVerdict` | tests/StatsComparatorTest.php:75 | [100, 102, 98, 101, 99] gets ESTABLE |
| `StatsComparatorCases.SkewedVerdict` | tests/StatsComparatorTest.php:76 | [10, 11, 12, 13, 14, 19] gets PRECAUCIÓN |

## Left out

- Rounding and formatting: `round($x, $decimales)` in every summary and report, the `'%'` suffix of the bias, and the `$decimales` parameter. The model states the unrounded values. The rounded test values (2.01, 4.66, 21.67 and 5.55 in the summaries) are therefore not stated; the unrounded 195.036/9 and the roots within 0.001 are.
- Floating point: all values are exact reals. The exact comparisons `$g == 0.0` and `$desviacion === 0.0` become exact real comparisons. PHP's int/float coercion and the string cases of `is_numeric` become one `Num`/`NonNum` value.
- The square root is a parameter constrained by `IsSqrt`. Figures that involve it (S*, CVr, the interval, the standard deviation, the CV) are proved exactly where possible: squared, or for a perfect square. Elsewhere they are proved within 0.001 of the tests' expected values.
- Exceptions and their messages: every exception becomes an `Err` with one error kind per exception class. The message strings are not modelled.
- `prepararDatos`, which the engines call, is not defined in the trait. It is modelled as `prepareData($datos, $ordenar, false, false)`.
- The constructor of `StatsComparator` (injecting or creating the two engines) is not modelled; the comparator calls the one model of each engine.
- `StatsInterface` holds signatures only, with no behaviour to verify.
- `ExportableTrait` (`toJson`, `toCsv`, and the JSON and CSV round-trip tests) is a wrapper over `json_encode`, `fputcsv` and a temporary stream.
- `tests/BenchmarkStatGuard.php` is timing, memory probes, an external R process and printing. The Huber mean and `getMedian` it calls have no source in the repository.
- The structure test of the comparator (tests/StatsComparatorTest.php:39-60) checks PHP array keys; the model's `Report` datatype has one field per reported value instead of nested keys.
- Namespaces (`Cjuol\StatGuard` and `Cjuol\SymmetricalOcto`) are PHP packaging, not behaviour.
- Callers' arrays are values in the model, so "the caller's array is not modified by `sort`" is what passing sequences by value means; it is not stated as a separate property.

## Findings

| source | as written | input that shows it | evidently intended | confidence | as-written member | corrected member |
|---|---|---|---|---|---|---|
| src/ClassicStats.php:113 | the summary's CV divides by `abs($media)` with no guard, so a valid sample with mean 0 raises `DivisionByZeroError`, and a mean within 1e-9 of 0 gives a huge CV | [-1, 1]: `obtenerResumen` fails while `getCV` returns 0.0 | the CV of `getCV` (src/ClassicStats.php:61), 0 when \|mean\| < 1e-9 | medium, not executed | `ClassicStats.ZeroMeanExample` | `ClassicStats.ObtenerResumenGuarded` |
