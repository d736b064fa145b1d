/** The comparison service (`StatsComparator`): sets the classical mean and
    standard deviation against the robust median and scaled MAD of the same
    sorted sample, and turns the bias and the noise ratio into a verdict. */
module StatsComparator {
  import opened Samples
  import opened RealMath
  import opened DataProcessor
  import RobustStats
  import ClassicStats

  /** The three verdicts of `generarVeredicto`. */
  datatype Verdict = Alerta | Precaucion | Estable

  /** How serious a verdict is: Estable < Precaucion < Alerta. */
  function Severity(v: Verdict): nat {
    match v
    case Estable => 0
    case Precaucion => 1
    case Alerta => 2
  }

  /** The ratio reported when the robust deviation is near 0 but the
      classical one is not: "infinite" noise. */
  const InfiniteNoise: real := 2.0

  /** `generarVeredicto($sesgo, $ratio)`: ALERTA when |bias| > 10 % or the
      ratio exceeds 1.5, otherwise PRECAUCION when |bias| > 5 % or the ratio
      exceeds 1.2, otherwise ESTABLE. */
  function GenerarVeredicto(sesgo: real, ratio: real): (v: Verdict)
    ensures v == Alerta <==> Abs(sesgo) > 10.0 || ratio > 1.5
    ensures v == Precaucion <==>
      !(Abs(sesgo) > 10.0 || ratio > 1.5) && (Abs(sesgo) > 5.0 || ratio > 1.2)
    ensures v == Estable <==> Abs(sesgo) <= 5.0 && ratio <= 1.2
  {
    if Abs(sesgo) > 10.0 || ratio > 1.5 then Alerta
    else if Abs(sesgo) > 5.0 || ratio > 1.2 then Precaucion
    else Estable
  }

  /** A larger bias or a larger ratio never gives a milder verdict. */
  lemma VerdictMonotone(s1: real, r1: real, s2: real, r2: real)
    requires Abs(s1) <= Abs(s2) && r1 <= r2
    ensures Severity(GenerarVeredicto(s1, r1)) <= Severity(GenerarVeredicto(s2, r2))
  {
  }

  /** The bias `(media - mediana) / |mediana| * 100`, 0 unless
      |mediana| > 1e-9.  Note the boundary: at |mediana| == 1e-9 exactly it
      is 0, while the coefficients of variation divide there. */
  function Sesgo(media: real, mediana: real): (r: real)
    ensures Abs(mediana) <= Epsilon ==> r == 0.0
    ensures r > 0.0 <==> Abs(mediana) > Epsilon && media > mediana
    ensures r < 0.0 <==> Abs(mediana) > Epsilon && media < mediana
  {
    if Abs(mediana) > Epsilon then ((media - mediana) / Abs(mediana)) * 100.0 else 0.0
  }

  /** Off the guard, the bias is the gap between mean and median as a
      percentage of |median|. */
  lemma SesgoIsPercentage(media: real, mediana: real)
    requires Abs(mediana) > Epsilon
    ensures Sesgo(media, mediana) * Abs(mediana) == 100.0 * (media - mediana)
  {
    var q := (media - mediana) / Abs(mediana);
    assert q * Abs(mediana) == media - mediana;
  }

  /** The noise ratio: classical over robust deviation when the robust one
      is not near 0; otherwise 2.0 (infinite noise) if the classical one is
      not near 0 either, and 1.0 (no contamination) if both are. */
  function RatioRuido(desvEst: real, desvRob: real): (r: real)
    ensures Abs(desvRob) <= Epsilon && Abs(desvEst) > Epsilon ==> r == InfiniteNoise
    ensures Abs(desvRob) <= Epsilon && Abs(desvEst) <= Epsilon ==> r == 1.0
    ensures desvEst >= 0.0 && desvRob >= 0.0 ==> r >= 0.0
  {
    if Abs(desvRob) > Epsilon then desvEst / desvRob
    else if Abs(desvEst) > Epsilon then InfiniteNoise
    else 1.0
  }

  /** Off the guard, the ratio times the robust deviation is the classical
      one. */
  lemma RatioIsQuotient(desvEst: real, desvRob: real)
    requires Abs(desvRob) > Epsilon
    ensures RatioRuido(desvEst, desvRob) * desvRob == desvEst
  {
  }

  /** A sample whose robust deviation vanishes but whose classical one does
      not is always flagged: the sentinel ratio exceeds the ALERTA
      threshold. */
  lemma InfiniteNoiseIsAlerta(sesgo: real, desvEst: real, desvRob: real)
    requires Abs(desvRob) <= Epsilon && Abs(desvEst) > Epsilon
    ensures GenerarVeredicto(sesgo, RatioRuido(desvEst, desvRob)) == Alerta
  {
  }

  /** The `analizar` array without rounding and without the '%' suffix of
      the bias. */
  datatype Report = Report(
    mediaClasica: real,
    medianaRobusta: real,
    diferenciaAbs: real,
    sesgoPorcentaje: real,
    desvEstandar: real,
    desvRobusta: real,
    ratioRuido: real,
    metodoTukey: nat,
    metodoZscore: nat,
    veredicto: Verdict)

  /** What `analizar` reads off the two engines: four figures of the sample
      and its two outlier counts. */
  datatype Figures = Figures(
    media: real,
    mediana: real,
    desvEst: real,
    desvRob: real,
    tukey: nat,
    zscore: nat)

  /** The report built from the figures: the bias and the noise ratio are
      derived from them, and the verdict from those two. */
  function ReportOf(f: Figures): (r: Report)
    ensures r.mediaClasica == f.media && r.medianaRobusta == f.mediana
    ensures r.desvEstandar == f.desvEst && r.desvRobusta == f.desvRob
    ensures r.metodoTukey == f.tukey && r.metodoZscore == f.zscore
    ensures r.diferenciaAbs == Abs(f.media - f.mediana)
    ensures r.sesgoPorcentaje == Sesgo(f.media, f.mediana)
    ensures r.ratioRuido == RatioRuido(f.desvEst, f.desvRob)
    ensures r.veredicto == GenerarVeredicto(Sesgo(f.media, f.mediana), RatioRuido(f.desvEst, f.desvRob))
  {
    var sesgo := Sesgo(f.media, f.mediana);
    var ratio := RatioRuido(f.desvEst, f.desvRob);
    Report(f.media, f.mediana, Abs(f.media - f.mediana), sesgo, f.desvEst, f.desvRob, ratio,
           f.tukey, f.zscore, GenerarVeredicto(sesgo, ratio))
  }

  /** The figures `analizar` promises for a valid sample, in terms of the
      statistics of its values: the classical mean and sample standard
      deviation, the median and the scaled MAD of the sorted values, and the
      two outlier counts. */
  function SampleFigures(datos: PhpArray, sqrt: real -> real): Figures
    requires IsSqrt(sqrt) && IsValidSample(datos)
  {
    Figures(
      Mean(Numbers(datos)),
      Median(SortedValues(datos)),
      ClassicStats.DesviacionEstandar(Numbers(datos), sqrt),
      RobustStats.MadScale * RobustStats.CalcularMAD(SortedValues(datos)),
      |RobustStats.DetectarOutliers(SortedValues(datos))|,
      |ClassicStats.ZScoreOutliers(SortedValues(datos), sqrt)|)
  }

  /** The promised figures depend only on the multiset of the values. */
  lemma SampleFiguresPermutation(a: PhpArray, b: PhpArray, sqrt: real -> real)
    requires IsSqrt(sqrt) && IsValidSample(a) && IsValidSample(b)
    requires multiset(Numbers(a)) == multiset(Numbers(b))
    ensures SampleFigures(a, sqrt) == SampleFigures(b, sqrt)
  {
    SortOfPermutation(Numbers(a), Numbers(b));
    assert SortedValues(a) == SortedValues(b);
    MeanPermutation(Numbers(a), Numbers(b));
    ClassicStats.DesviacionPermutation(Numbers(a), Numbers(b), sqrt);
  }

  /** `analizar($datos)`: prepare (sorting) once; every engine call then
      receives the prepared sample, which prepares to itself. */
  function Analizar(datos: PhpArray, sqrt: real -> real): (r: Result<Report>)
    requires IsSqrt(sqrt)
    ensures r.Err? <==> !IsValidSample(datos)
    ensures r.Err? ==> r.error == InvalidDataSet
    ensures r.Ok? ==> r.value == ReportOf(SampleFigures(datos, sqrt))
  {
    match Prepared(datos, true, false, false)
    case Err(e) => Err(e)
    case Ok(d) =>
      SampleFiguresPermutation(datos, d, sqrt);
      Ok(ReportOf(FiguresOfPrepared(d, sqrt)))
  }

  /** The figures the two engines return for a prepared (valid, sorted)
      sample. */
  function FiguresOfPrepared(d: PhpArray, sqrt: real -> real): (f: Figures)
    requires IsSqrt(sqrt) && IsValidSample(d) && Sorted(Numbers(d))
    ensures f == SampleFigures(d, sqrt)
  {
    SortOfSorted(Numbers(d));
    var (media, desvEst, zscore) := ClassicFigures(d, sqrt);
    var (mediana, desvRob, tukey) := RobustFigures(d);
    Figures(media, mediana, desvEst, desvRob, tukey, zscore)
  }

  /** What `analizar` asks of the classical engine: the mean, the sample
      standard deviation and the number of z-score outliers. */
  function ClassicFigures(d: PhpArray, sqrt: real -> real): (r: (real, real, nat))
    requires IsSqrt(sqrt) && IsValidSample(d)
    ensures r == (Mean(Numbers(d)), ClassicStats.DesviacionEstandar(Numbers(d), sqrt),
                  |ClassicStats.ZScoreOutliers(Numbers(d), sqrt)|)
  {
    (ClassicStats.GetMedia(d).value, ClassicStats.GetDesviacionEstandar(d, sqrt).value,
     |ClassicStats.GetOutliers(d, sqrt).value|)
  }

  /** What `analizar` asks of the robust engine, on a sorted sample: the
      median, the scaled MAD and the number of Tukey outliers. */
  function RobustFigures(d: PhpArray): (r: (real, real, nat))
    requires IsValidSample(d) && Sorted(Numbers(d))
    ensures r == (Median(Numbers(d)), RobustStats.MadScale * RobustStats.CalcularMAD(Numbers(d)),
                  |RobustStats.DetectarOutliers(Numbers(d))|)
  {
    (RobustStats.MedianaOfSorted(d), RobustStats.DesviacionOfSorted(d), |RobustStats.OutliersOfSorted(d)|)
  }

  /** The report depends only on the multiset of the values. */
  lemma AnalizarPermutationInvariant(a: PhpArray, b: PhpArray, sqrt: real -> real)
    requires IsSqrt(sqrt) && IsValidSample(a) && IsValidSample(b)
    requires multiset(Numbers(a)) == multiset(Numbers(b))
    ensures Analizar(a, sqrt) == Analizar(b, sqrt)
  {
    SampleFiguresPermutation(a, b, sqrt);
  }

  /** A sample whose bias exceeds 10 % is valid input to `analizar` and
      gets ALERTA, whatever its noise ratio. */
  lemma LargeBiasIsAlerta(datos: PhpArray, sqrt: real -> real)
    requires IsSqrt(sqrt) && IsValidSample(datos)
    requires Abs(Sesgo(Mean(Numbers(datos)), Median(SortedValues(datos)))) > 10.0
    ensures Analizar(datos, sqrt).Ok?
    ensures Abs(Analizar(datos, sqrt).value.sesgoPorcentaje) > 10.0
    ensures Analizar(datos, sqrt).value.veredicto == Alerta
  {
  }
}
