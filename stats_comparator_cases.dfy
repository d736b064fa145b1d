/** The expectations of the comparison service's test suite: the verdicts
    of `analizar` on its three samples, and the bias and noise ratio of the
    contaminated one. */
module StatsComparatorCases {
  import opened Samples
  import opened RealMath
  import opened DataProcessor
  import opened StatsComparator
  import opened SampleCases
  import RobustStats
  import ClassicStats

  /** The bias, ratio and verdict of `analizar` from four figures of the
      sample. */
  lemma AnalysisOf(a: PhpArray, sqrt: real -> real, m: real, med: real, sd: real, mad: real)
    requires IsSqrt(sqrt) && IsValidSample(a)
    requires Mean(Numbers(a)) == m && Median(SortedValues(a)) == med
    requires ClassicStats.DesviacionEstandar(Numbers(a), sqrt) == sd
    requires RobustStats.CalcularMAD(SortedValues(a)) == mad
    ensures Analizar(a, sqrt).Ok?
    ensures Analizar(a, sqrt).value.sesgoPorcentaje == Sesgo(m, med)
    ensures Analizar(a, sqrt).value.ratioRuido == RatioRuido(sd, RobustStats.MadScale * mad)
    ensures Analizar(a, sqrt).value.veredicto ==
            GenerarVeredicto(Sesgo(m, med), RatioRuido(sd, RobustStats.MadScale * mad))
  {
    var f := SampleFigures(a, sqrt);
    SampleFiguresAre(a, sqrt, m, med, sd, mad);
    ReportFields(f, m, med, sd, RobustStats.MadScale * mad);
  }

  /** The four figures the bias and the ratio are computed from. */
  lemma SampleFiguresAre(a: PhpArray, sqrt: real -> real, m: real, med: real, sd: real, mad: real)
    requires IsSqrt(sqrt) && IsValidSample(a)
    requires Mean(Numbers(a)) == m && Median(SortedValues(a)) == med
    requires ClassicStats.DesviacionEstandar(Numbers(a), sqrt) == sd
    requires RobustStats.CalcularMAD(SortedValues(a)) == mad
    ensures SampleFigures(a, sqrt).media == m && SampleFigures(a, sqrt).mediana == med
    ensures SampleFigures(a, sqrt).desvEst == sd && SampleFigures(a, sqrt).desvRob == RobustStats.MadScale * mad
  {
  }

  /** The bias, ratio and verdict of a report from its figures. */
  lemma ReportFields(f: Figures, m: real, med: real, sd: real, rob: real)
    requires f.media == m && f.mediana == med && f.desvEst == sd && f.desvRob == rob
    ensures ReportOf(f).sesgoPorcentaje == Sesgo(m, med)
    ensures ReportOf(f).ratioRuido == RatioRuido(sd, rob)
    ensures ReportOf(f).veredicto == GenerarVeredicto(Sesgo(m, med), RatioRuido(sd, rob))
  {
  }

  /** The noise ratio against a bound, for a robust deviation off the
      guard. */
  lemma RatioAgainst(sd: real, rob: real, c: real)
    requires rob > Epsilon
    ensures RatioRuido(sd, rob) > c <==> sd > c * rob
  {
    var q := sd / rob;
    assert q * rob == sd;
    ClassicStats.ScaleStrict(c, q, rob);
  }

  /** The bias and ratio `analizar` derives from the figures of
      [10, 10, 11, 12, 10, 500]: mean 553/6, median 10.5, MAD 0.5 and a
      standard deviation above 1.2. */
  lemma HighBiasFigures(sd: real)
    requires sd >= 0.0 && sd * sd == 1197581.0 / 30.0
    ensures Abs(Sesgo(553.0 / 6.0, 10.5)) > 10.0
    ensures RatioRuido(sd, RobustStats.MadScale * 0.5) > 1.5
  {
    ClassicStats.SquareStrict(sd, 1.2);
    RatioAgainst(sd, RobustStats.MadScale * 0.5, 1.5);
  }

  /** The verdict `analizar` derives from the figures of
      [100, 102, 98, 101, 99]: no bias, MAD 1 and a standard deviation
      sqrt(2.5) below 1.2 times the scaled MAD 1.4826. */
  lemma SteadyFigures(sd: real)
    requires sd >= 0.0 && sd * sd == 2.5
    ensures GenerarVeredicto(Sesgo(100.0, 100.0), RatioRuido(sd, RobustStats.MadScale * 1.0)) == Estable
  {
    ClassicStats.SquareStrict(sd, 1.77912);
    RatioAgainst(sd, RobustStats.MadScale * 1.0, 1.2);
  }

  /** The verdict `analizar` derives from the figures of
      [10, 11, 12, 13, 14, 19]: a bias of 16/3 %, MAD 1.5 and a standard
      deviation sqrt(61/6) below 1.5 times the scaled MAD 2.2239. */
  lemma SkewedFigures(sd: real)
    requires sd >= 0.0 && sd * sd == 61.0 / 6.0
    ensures GenerarVeredicto(Sesgo(79.0 / 6.0, 12.5), RatioRuido(sd, RobustStats.MadScale * 1.5)) == Precaucion
  {
    ClassicStats.SquareStrict(sd, 3.33585);
    RatioAgainst(sd, RobustStats.MadScale * 1.5, 1.5);
  }

  /** [10, 10, 11, 12, 10, 500]. */
  predicate IsHighBias(xs: seq<real>) {
    |xs| == 6 && xs[0] == 10.0 && xs[1] == 10.0 && xs[2] == 11.0 && xs[3] == 12.0 && xs[4] == 10.0 && xs[5] == 500.0
  }

  predicate IsHighBiasSorted(r: seq<real>) {
    |r| == 6 && r[0] == 10.0 && r[1] == 10.0 && r[2] == 10.0 && r[3] == 11.0 && r[4] == 12.0 && r[5] == 500.0
  }

  /** [100, 102, 98, 101, 99]. */
  predicate IsSteady(xs: seq<real>) {
    |xs| == 5 && xs[0] == 100.0 && xs[1] == 102.0 && xs[2] == 98.0 && xs[3] == 101.0 && xs[4] == 99.0
  }

  predicate IsSteadySorted(r: seq<real>) {
    |r| == 5 && r[0] == 98.0 && r[1] == 99.0 && r[2] == 100.0 && r[3] == 101.0 && r[4] == 102.0
  }

  predicate IsSteadyDeviations(t: seq<real>) {
    |t| == 5 && t[0] == 0.0 && t[1] == 1.0 && t[2] == 1.0 && t[3] == 2.0 && t[4] == 2.0
  }

  /** [10, 11, 12, 13, 14, 19]. */
  predicate IsSkewed(xs: seq<real>) {
    |xs| == 6 && xs[0] == 10.0 && xs[1] == 11.0 && xs[2] == 12.0 && xs[3] == 13.0 && xs[4] == 14.0 && xs[5] == 19.0
  }

  predicate IsSkewedDeviations(t: seq<real>) {
    |t| == 6 && t[0] == 0.5 && t[1] == 0.5 && t[2] == 1.5 && t[3] == 1.5 && t[4] == 2.5 && t[5] == 6.5
  }

  lemma VerdictWitnesses()
    ensures exists r :: IsHighBiasSorted(r)
    ensures exists r :: IsSteadySorted(r)
    ensures exists t :: IsSteadyDeviations(t)
    ensures exists t :: IsSkewedDeviations(t)
  {
    assert IsHighBiasSorted([10.0, 10.0, 10.0, 11.0, 12.0, 500.0]);
    assert IsSteadySorted([98.0, 99.0, 100.0, 101.0, 102.0]);
    assert IsSteadyDeviations([0.0, 1.0, 1.0, 2.0, 2.0]);
    assert IsSkewedDeviations([0.5, 0.5, 1.5, 1.5, 2.5, 6.5]);
  }

  lemma HighBiasSorted(xs: seq<real>) returns (r: seq<real>)
    requires IsHighBias(xs)
    ensures IsHighBiasSorted(r) && Sort(xs) == r
  {
    VerdictWitnesses();
    r :| IsHighBiasSorted(r);
    PermutedMultiset(xs, r, [0, 1, 4, 2, 3, 5]);
    SortIs(xs, r);
  }

  lemma HighBiasSums(xs: seq<real>)
    requires IsHighBias(xs)
    ensures Mean(xs) == 553.0 / 6.0
    ensures ClassicStats.SumSquaredDeviations(xs, 553.0 / 6.0) == 1197581.0 / 6.0
  {
    SumsUnfolded(xs, ClassicStats.SquaredDeviationFrom(553.0 / 6.0));
  }

  lemma HighBiasMoments(xs: seq<real>)
    requires IsHighBias(xs)
    ensures Mean(xs) == 553.0 / 6.0
    ensures ClassicStats.CalcularVarianza(xs, true) == 1197581.0 / 30.0
  {
    HighBiasSums(xs);
    VariancesOf(xs, 6, 553.0 / 6.0, 1197581.0 / 6.0);
  }

  lemma HighBiasSpread(r: seq<real>)
    requires IsHighBiasSorted(r)
    ensures Median(r) == 10.5
    ensures RobustStats.CalcularMAD(r) == 0.5
  {
    var devs := RobustStats.AbsDeviations(r, 10.5);
    SortIs(devs, devs);
  }

  /** The bias and the ratio of the sample's own figures. */
  lemma HighBiasRatio(xs: seq<real>, sqrt: real -> real)
    requires IsSqrt(sqrt) && IsHighBias(xs)
    ensures Abs(Sesgo(553.0 / 6.0, 10.5)) > 10.0
    ensures RatioRuido(ClassicStats.DesviacionEstandar(xs, sqrt), RobustStats.MadScale * 0.5) > 1.5
  {
    HighBiasMoments(xs);
    var sd := ClassicStats.DesviacionEstandar(xs, sqrt);
    ClassicStats.DesviacionEstandarSquare(xs, sqrt);
    HighBiasFigures(sd);
  }

  /** ALERTA for [10, 10, 11, 12, 10, 500], with a bias above 10 % and a
      noise ratio above 1.5. */
  lemma HighBiasVerdict(a: PhpArray, sqrt: real -> real)
    requires IsSqrt(sqrt) && AllNumeric(a) && IsHighBias(Numbers(a))
    ensures Analizar(a, sqrt).Ok?
    ensures Abs(Analizar(a, sqrt).value.sesgoPorcentaje) > 10.0
    ensures Analizar(a, sqrt).value.ratioRuido > 1.5
    ensures Analizar(a, sqrt).value.veredicto == Alerta
  {
    var r := HighBiasSorted(Numbers(a));
    HighBiasSpread(r);
    HighBiasMoments(Numbers(a));
    HighBiasRatio(Numbers(a), sqrt);
    AnalysisOf(a, sqrt, 553.0 / 6.0, 10.5, ClassicStats.DesviacionEstandar(Numbers(a), sqrt), 0.5);
  }

  lemma SteadySorted(xs: seq<real>) returns (r: seq<real>)
    requires IsSteady(xs)
    ensures IsSteadySorted(r) && Sort(xs) == r
  {
    VerdictWitnesses();
    r :| IsSteadySorted(r);
    PermutedMultiset(xs, r, [2, 4, 0, 3, 1]);
    SortIs(xs, r);
  }

  lemma SteadySums(xs: seq<real>)
    requires IsSteady(xs)
    ensures Mean(xs) == 100.0
    ensures ClassicStats.SumSquaredDeviations(xs, 100.0) == 10.0
  {
    SumsUnfolded(xs, ClassicStats.SquaredDeviationFrom(100.0));
  }

  lemma SteadyMoments(xs: seq<real>)
    requires IsSteady(xs)
    ensures Mean(xs) == 100.0
    ensures ClassicStats.CalcularVarianza(xs, true) == 2.5
  {
    SteadySums(xs);
    VariancesOf(xs, 5, 100.0, 10.0);
  }

  lemma SteadySpread(r: seq<real>)
    requires IsSteadySorted(r)
    ensures Median(r) == 100.0
    ensures RobustStats.CalcularMAD(r) == 1.0
  {
    VerdictWitnesses();
    var t :| IsSteadyDeviations(t);
    var devs := RobustStats.AbsDeviations(r, 100.0);
    PermutedMultiset(devs, t, [2, 1, 3, 0, 4]);
    SortIs(devs, t);
  }

  /** The verdict of the sample's own figures is stable. */
  lemma SteadyRatio(xs: seq<real>, sqrt: real -> real)
    requires IsSqrt(sqrt) && IsSteady(xs)
    ensures GenerarVeredicto(Sesgo(100.0, 100.0),
              RatioRuido(ClassicStats.DesviacionEstandar(xs, sqrt), RobustStats.MadScale * 1.0)) == Estable
  {
    SteadyMoments(xs);
    var sd := ClassicStats.DesviacionEstandar(xs, sqrt);
    ClassicStats.DesviacionEstandarSquare(xs, sqrt);
    SteadyFigures(sd);
  }

  /** ESTABLE for [100, 102, 98, 101, 99]. */
  lemma SteadyVerdict(a: PhpArray, sqrt: real -> real)
    requires IsSqrt(sqrt) && AllNumeric(a) && IsSteady(Numbers(a))
    ensures Analizar(a, sqrt).Ok?
    ensures Analizar(a, sqrt).value.veredicto == Estable
  {
    var r := SteadySorted(Numbers(a));
    SteadySpread(r);
    SteadyMoments(Numbers(a));
    SteadyRatio(Numbers(a), sqrt);
    AnalysisOf(a, sqrt, 100.0, 100.0, ClassicStats.DesviacionEstandar(Numbers(a), sqrt), 1.0);
  }

  lemma SkewedSorted(xs: seq<real>)
    requires IsSkewed(xs)
    ensures Sort(xs) == xs
  {
    SortIs(xs, xs);
  }

  lemma SkewedSums(xs: seq<real>)
    requires IsSkewed(xs)
    ensures Mean(xs) == 79.0 / 6.0
    ensures ClassicStats.SumSquaredDeviations(xs, 79.0 / 6.0) == 305.0 / 6.0
  {
    SumsUnfolded(xs, ClassicStats.SquaredDeviationFrom(79.0 / 6.0));
  }

  lemma SkewedMoments(xs: seq<real>)
    requires IsSkewed(xs)
    ensures Mean(xs) == 79.0 / 6.0
    ensures ClassicStats.CalcularVarianza(xs, true) == 61.0 / 6.0
  {
    SkewedSums(xs);
    VariancesOf(xs, 6, 79.0 / 6.0, 305.0 / 6.0);
  }

  lemma SkewedSpread(xs: seq<real>)
    requires IsSkewed(xs)
    ensures Median(xs) == 12.5
    ensures RobustStats.CalcularMAD(xs) == 1.5
  {
    VerdictWitnesses();
    var t :| IsSkewedDeviations(t);
    var devs := RobustStats.AbsDeviations(xs, 12.5);
    PermutedMultiset(devs, t, [2, 3, 1, 4, 0, 5]);
    SortIs(devs, t);
  }

  /** The verdict of the sample's own figures is caution. */
  lemma SkewedRatio(xs: seq<real>, sqrt: real -> real)
    requires IsSqrt(sqrt) && IsSkewed(xs)
    ensures GenerarVeredicto(Sesgo(79.0 / 6.0, 12.5),
              RatioRuido(ClassicStats.DesviacionEstandar(xs, sqrt), RobustStats.MadScale * 1.5)) == Precaucion
  {
    SkewedMoments(xs);
    var sd := ClassicStats.DesviacionEstandar(xs, sqrt);
    ClassicStats.DesviacionEstandarSquare(xs, sqrt);
    SkewedFigures(sd);
  }

  /** PRECAUCION for [10, 11, 12, 13, 14, 19]. */
  lemma SkewedVerdict(a: PhpArray, sqrt: real -> real)
    requires IsSqrt(sqrt) && AllNumeric(a) && IsSkewed(Numbers(a))
    ensures Analizar(a, sqrt).Ok?
    ensures Analizar(a, sqrt).value.veredicto == Precaucion
  {
    SkewedSorted(Numbers(a));
    SkewedSpread(Numbers(a));
    SkewedMoments(Numbers(a));
    SkewedRatio(Numbers(a), sqrt);
    AnalysisOf(a, sqrt, 79.0 / 6.0, 12.5, ClassicStats.DesviacionEstandar(Numbers(a), sqrt), 1.5);
  }
}
