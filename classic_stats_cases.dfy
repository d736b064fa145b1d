/** The expectations of the classical engine's test suite, stated on the
    model for arrays holding the test samples.  Exact values are proved
    equal; values that involve a square root are proved within the suite's
    tolerance of 0.001. */
module ClassicStatsCases {
  import opened Samples
  import opened RealMath
  import opened DataProcessor
  import opened SampleCases
  import RobustStatsCases
  import ClassicStats

  /** The exact figures of the reference sample: mean 83.92, median 85.2,
      sample variance 195.036 / 9 (about 21.67), population variance
      19.5036, and no value three deviations away from the mean. */
  lemma Reference(a: PhpArray, sqrt: real -> real)
    requires IsSqrt(sqrt) && AllNumeric(a) && IsReference(Numbers(a))
    ensures ClassicStats.GetMedia(a) == Ok(83.92)
    ensures ClassicStats.GetMediana(a) == Ok(85.2)
    ensures ClassicStats.GetVarianzaMuestral(a) == Ok(195.036 / 9.0)
    ensures ClassicStats.GetVarianzaPoblacional(a) == Ok(19.5036)
    ensures ClassicStats.GetOutliers(a, sqrt) == Ok([])
  {
    var r := ReferenceSorted(a);
    RobustStatsCases.ReferenceQuartiles(r);
    ReferenceVariances(Numbers(a));
    ClassicStats.SmallSampleHasNoZScoreOutlier(Numbers(a), sqrt);
  }

  /** The standard deviation of the reference sample, sqrt(195.036 / 9),
      lies between 4.6551 and 4.6552. */
  lemma ReferenceStandardDeviation(xs: seq<real>, sqrt: real -> real)
    requires IsSqrt(sqrt) && IsReference(xs)
    ensures 4.6551 < ClassicStats.DesviacionEstandar(xs, sqrt) < 4.6552
  {
    ReferenceVariances(xs);
    RootBetween(sqrt, 195.036 / 9.0, 4.6551, 4.6552);
  }

  /** The standard deviation and the CV of the reference sample, each
      within 0.001 of the expected value. */
  lemma ReferenceRoots(a: PhpArray, sqrt: real -> real)
    requires IsSqrt(sqrt) && AllNumeric(a) && IsReference(Numbers(a))
    ensures ClassicStats.GetDesviacionEstandar(a, sqrt).Ok?
    ensures Abs(ClassicStats.GetDesviacionEstandar(a, sqrt).value - 4.655176330351694) <= 0.001
    ensures ClassicStats.GetCV(a, sqrt).Ok? && Abs(ClassicStats.GetCV(a, sqrt).value - 5.5471595928881) <= 0.001
  {
    ReferenceVariances(Numbers(a));
    ReferenceStandardDeviation(Numbers(a), sqrt);
  }

  /** The sorted summary of the reference sample (before rounding): mean
      83.92, median 85.2, sample variance 195.036 / 9, ten values. */
  lemma ReferenceSummary(a: PhpArray, sqrt: real -> real)
    requires IsSqrt(sqrt) && AllNumeric(a) && IsReference(Numbers(a))
    ensures var s := ClassicStats.ObtenerResumen(a, true, sqrt);
      s.Ok? && s.value.media == 83.92 && s.value.mediana == 85.2 && s.value.count == 10 &&
      s.value.varianzaMuestral == 195.036 / 9.0
  {
    var r := ReferenceSorted(a);
    RobustStatsCases.ReferenceQuartiles(r);
    ReferenceVariances(Numbers(a));
  }

  /** `getCV([0, 0, 0])` is exactly 0: the mean is 0. */
  lemma ZeroMeanCv(a: PhpArray, sqrt: real -> real)
    requires IsSqrt(sqrt) && AllNumeric(a) && IsZeros(Numbers(a))
    ensures ClassicStats.GetCV(a, sqrt) == Ok(0.0)
  {
    ZerosCentre(Numbers(a));
  }

  /** Fifteen zeros and then 1000. */
  predicate IsSpike(xs: seq<real>) {
    |xs| == 16 && (forall i :: 0 <= i < 15 ==> xs[i] == 0.0) && xs[15] == 1000.0
  }

  lemma {:induction false} SumOfConstant(s: seq<real>, f: real -> real, x: real)
    requires forall i :: 0 <= i < |s| ==> s[i] == x
    ensures SumOf(s, f) == |s| as real * f(x)
  {
    if s != [] {
      SumOfConstant(s[1..], f, x);
    }
  }

  /** Mean 62.5; squared deviations 15 * 62.5^2 + 937.5^2 = 937500, so the
      sample variance is 62500. */
  lemma SpikeMoments(xs: seq<real>)
    requires IsSpike(xs)
    ensures Mean(xs) == 62.5
    ensures ClassicStats.CalcularVarianza(xs, true) == 62500.0
  {
    var zeros := xs[..15];
    assert xs == zeros + [xs[15]];
    SumAppend(zeros, [xs[15]]);
    SumBounds(zeros, 0.0, 0.0);
    var f := ClassicStats.SquaredDeviationFrom(62.5);
    SumOfAppend(zeros, [xs[15]], f);
    SumOfConstant(zeros, f, 0.0);
    assert ClassicStats.SumSquaredDeviations(xs, 62.5) == 937500.0;
  }

  /** 1000 lies 3.75 deviations (of 250) from the mean; 0 lies 0.25. */
  lemma SpikeOutliers(xs: seq<real>, sqrt: real -> real)
    requires IsSqrt(sqrt) && IsSpike(xs)
    ensures ClassicStats.ZScoreOutliers(xs, sqrt) == [1000.0]
  {
    SpikeMoments(xs);
    var o := ClassicStats.ZScoreOutliers(xs, sqrt);
    var zeros := xs[..15];
    assert xs == zeros + [xs[15]];
    assert !ClassicStats.Constant(xs) by {
      assert xs[0] != xs[15];
    }
    forall x
      ensures multiset(o)[x] == multiset{1000.0}[x]
    {
      if x != 0.0 {
        assert x !in zeros;
      }
    }
    SingletonOfMultiset(o, 1000.0);
  }

  /** `getOutliers(array_merge(array_fill(0, 15, 0), [1000]))` flags 1000
      and nothing else. */
  lemma Spike(a: PhpArray, sqrt: real -> real)
    requires IsSqrt(sqrt) && AllNumeric(a) && IsSpike(Numbers(a))
    ensures ClassicStats.GetOutliers(a, sqrt) == Ok([1000.0])
  {
    SpikeOutliers(Numbers(a), sqrt);
  }

  /** `getMedia` rejects `[1]` and `[1, 'abc', 3]`. */
  lemma Validation()
    ensures ClassicStats.GetMedia(OneValue()) == Err(InvalidDataSet)
    ensures ClassicStats.GetMedia(WithText()) == Err(InvalidDataSet)
  {
    assert !WithText()[1].value.Num?;
  }
}
