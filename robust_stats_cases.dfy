/** The expectations of the robust engine's test suite, stated on the model
    for arrays holding the test samples.  Exact values are proved equal;
    values that involve a square root are proved within the suite's
    tolerance of 0.001. */
module RobustStatsCases {
  import opened Samples
  import opened RealMath
  import opened DataProcessor
  import opened RobustStats
  import opened SampleCases

  /** Median 85.2, quartiles 80.25 and 87.1, IQR 6.85 of the sorted
      reference sample. */
  lemma ReferenceQuartiles(r: seq<real>)
    requires IsReferenceSorted(r)
    ensures Median(r) == 85.2
    ensures CalcularPercentil(r, 25) == 80.25
    ensures CalcularPercentil(r, 75) == 87.1
    ensures CalcularIQR(r) == 6.85
  {
    FloorIs(2.25, 2);
    FloorIs(6.75, 6);
  }

  lemma ReferenceMad(r: seq<real>)
    requires IsReferenceSorted(r)
    ensures CalcularMAD(r) == 2.95
  {
    ReferenceQuartiles(r);
    ReferenceWitnesses();
    var t :| IsReferenceDeviations(t);
    var devs := AbsDeviations(r, 85.2);
    PermutedMultiset(devs, t, [4, 5, 3, 6, 7, 8, 9, 2, 1, 0]);
    SortIs(devs, t);
  }

  /** The fences are 69.975 and 97.375, and every reference value lies
      between them. */
  lemma ReferenceOutliers(r: seq<real>)
    requires IsReferenceSorted(r)
    ensures DetectarOutliers(r) == []
  {
    ReferenceQuartiles(r);
    var o := DetectarOutliers(r);
    forall x
      ensures multiset(o)[x] == 0
    {
      if x < LowerFence(r) || x > UpperFence(r) {
        assert x !in r;
      }
    }
    assert multiset(o) == multiset{};
  }

  /** The exact figures of the reference sample: median 85.2, IQR 6.85,
      MAD 2.95, no outliers, and robust variance (25/27)^2 * 6.85^2 / 10
      (about 4.02285). */
  lemma Reference(a: PhpArray, sqrt: real -> real)
    requires IsSqrt(sqrt) && AllNumeric(a) && IsReference(Numbers(a))
    ensures GetMediana(a) == Ok(85.2)
    ensures GetIqr(a) == Ok(6.85)
    ensures GetMad(a) == Ok(2.95)
    ensures GetOutliers(a) == Ok([])
    ensures GetVarianzaRobusta(a, sqrt) == Ok(2932.65625 / 729.0)
  {
    var r := ReferenceSorted(a);
    ReferenceQuartiles(r);
    ReferenceMad(r);
    ReferenceOutliers(r);
  }

  /** S* of the reference sample, (25/27) * 6.85 / sqrt(10), lies between
      2.0052 and 2.0059. */
  lemma ReferenceRobustDeviation(r: seq<real>, sqrt: real -> real)
    requires IsSqrt(sqrt) && IsReferenceSorted(r)
    ensures 2.0052 < CalcularDesviacionRobusta(r, sqrt) < 2.0059
  {
    ReferenceQuartiles(r);
    RootBetween(sqrt, 10.0, 3.162, 3.163);
    QuotientBetween(6.85, sqrt(10.0), 3.162, 3.163);
  }

  /** The figures of the reference sample that involve sqrt(10): S*, CVr
      and the confidence interval, each within 0.001 of the expected
      value. */
  lemma ReferenceRoots(a: PhpArray, sqrt: real -> real)
    requires IsSqrt(sqrt) && AllNumeric(a) && IsReference(Numbers(a))
    ensures GetDesviacionRobusta(a, sqrt).Ok?
    ensures Abs(GetDesviacionRobusta(a, sqrt).value - 2.005703886310498) <= 0.001
    ensures GetCVr(a, sqrt).Ok? && Abs(GetCVr(a, sqrt).value - 2.354112542617955) <= 0.001
    ensures GetIntervalosConfianza(a, sqrt).Ok?
    ensures Abs(GetIntervalosConfianza(a, sqrt).value.superior - 89.13117961716858) <= 0.001
    ensures Abs(GetIntervalosConfianza(a, sqrt).value.inferior - 81.26882038283142) <= 0.001
  {
    var r := ReferenceSorted(a);
    ReferenceQuartiles(r);
    ReferenceRobustDeviation(r, sqrt);
  }

  /** `getMedia` and the sorted summary of the reference sample (before
      rounding): mean 83.92, median 85.2, ten values. */
  lemma ReferenceSummary(a: PhpArray, sqrt: real -> real)
    requires IsSqrt(sqrt) && AllNumeric(a) && IsReference(Numbers(a))
    ensures GetMedia(a) == Ok(83.92)
    ensures var s := ObtenerResumen(a, true, sqrt);
      s.Ok? && s.value.media == 83.92 && s.value.mediana == 85.2 && s.value.count == 10
  {
    var r := ReferenceSorted(a);
    ReferenceQuartiles(r);
    ReferenceMoments(Numbers(a));
    MeanPermutation(Numbers(a), r);
  }

  /** [-9, -7, -5, -3]. */
  predicate IsNegatives(xs: seq<real>) {
    |xs| == 4 && xs[0] == -9.0 && xs[1] == -7.0 && xs[2] == -5.0 && xs[3] == -3.0
  }

  /** Median -6; quartiles -7.5 and -4.5, so IQR 3 and
      S* = (25/27) * 3 / sqrt(4) = 25/18. */
  lemma NegativesSpread(xs: seq<real>, sqrt: real -> real)
    requires IsSqrt(sqrt) && IsNegatives(xs)
    ensures Median(xs) == -6.0
    ensures CalcularDesviacionRobusta(xs, sqrt) == 25.0 / 18.0
  {
    FloorIs(0.75, 0);
    FloorIs(2.25, 2);
    assert CalcularIQR(xs) == 3.0;
    SqrtOfSquare(sqrt, 2.0);
  }

  lemma Negatives(a: PhpArray, sqrt: real -> real)
    requires IsSqrt(sqrt) && AllNumeric(a) && IsNegatives(Numbers(a))
    ensures GetMediana(a) == Ok(-6.0)
    ensures GetDesviacionRobusta(a, sqrt) == Ok(25.0 / 18.0)
  {
    SortIs(Numbers(a), Numbers(a));
    NegativesSpread(Numbers(a), sqrt);
  }

  /** [1, 2, 3, 4, 5, 100]. */
  predicate IsTukeyExample(xs: seq<real>) {
    |xs| == 6 && xs[0] == 1.0 && xs[1] == 2.0 && xs[2] == 3.0 && xs[3] == 4.0 && xs[4] == 5.0 && xs[5] == 100.0
  }

  /** Quartiles 2.25 and 4.75, IQR 2.5: fences -1.5 and 8.5. */
  lemma TukeyFences(xs: seq<real>)
    requires IsTukeyExample(xs)
    ensures LowerFence(xs) == -1.5 && UpperFence(xs) == 8.5
  {
    FloorIs(1.25, 1);
    FloorIs(3.75, 3);
  }

  /** When only the last value lies outside the fences, it is the only
      outlier. */
  lemma LastIsOnlyOutlier(d: seq<real>, lo: real, hi: real)
    requires |d| >= 1 && LowerFence(d) == lo && UpperFence(d) == hi
    requires forall i :: 0 <= i < |d| - 1 ==> lo <= d[i] <= hi
    requires d[|d| - 1] < lo || d[|d| - 1] > hi
    ensures DetectarOutliers(d) == [d[|d| - 1]]
  {
    var lower, upper := LowerFence(d), UpperFence(d);
    var head := d[..|d| - 1];
    assert d == head + [d[|d| - 1]];
    FilterOnlyLast(head, d[|d| - 1], x => x < lower || x > upper);
  }

  /** 100 is the one Tukey outlier of [1, 2, 3, 4, 5, 100]. */
  lemma TukeyExample(a: PhpArray)
    requires AllNumeric(a) && IsTukeyExample(Numbers(a))
    ensures GetOutliers(a) == Ok([100.0])
  {
    SortIs(Numbers(a), Numbers(a));
    TukeyFences(Numbers(a));
    LastIsOnlyOutlier(Numbers(a), -1.5, 8.5);
  }

  /** `getCV([0, 0, 0])` is exactly 0: the median is 0. */
  lemma ZeroMedianCv(a: PhpArray)
    requires AllNumeric(a) && IsZeros(Numbers(a))
    ensures GetCV(a) == Ok(0.0)
  {
    SortIs(Numbers(a), Numbers(a));
    ZerosCentre(Numbers(a));
  }

  /** [-1, 0, 1, 0]. */
  predicate IsBalanced(xs: seq<real>) {
    |xs| == 4 && xs[0] == -1.0 && xs[1] == 0.0 && xs[2] == 1.0 && xs[3] == 0.0
  }

  lemma BalancedMedian(xs: seq<real>)
    requires IsBalanced(xs)
    ensures Median(Sort(xs)) == 0.0
  {
    var r := [xs[0], xs[1], xs[3], xs[2]];
    PermutedMultiset(xs, r, [0, 1, 3, 2]);
    SortIs(xs, r);
  }

  /** `getCVr([-1, 0, 1, 0])` is exactly 0: the sorted median is 0. */
  lemma ZeroMedianCvr(a: PhpArray, sqrt: real -> real)
    requires IsSqrt(sqrt) && AllNumeric(a) && IsBalanced(Numbers(a))
    ensures GetCVr(a, sqrt) == Ok(0.0)
  {
    BalancedMedian(Numbers(a));
  }

  /** `getMedia` rejects `[1]` and `[1, 'abc', 3]`. */
  lemma Validation()
    ensures GetMedia(OneValue()) == Err(InvalidDataSet)
    ensures GetMedia(WithText()) == Err(InvalidDataSet)
  {
    assert !WithText()[1].value.Num?;
  }
}
