/** The sample-quantile engine (`QuantileEngine`): the nine definitions of
    Hyndman and Fan, "Sample Quantiles in Statistical Packages" (1996),
    Definitions 1 to 9, the same as R's `quantile(type = 1..9)`.

    Types 1 to 3 pick an order statistic (type 2 averages two on an exact
    integer position); types 4 to 9 interpolate linearly between adjacent
    order statistics at position `h = alpha + (n + 1 - alpha - beta) * p`. */
module QuantileEngine {
  import opened Samples
  import opened RealMath

  predicate ValidType(t: int) {
    1 <= t <= 9
  }

  /** `max(0.0, min(1.0, $probability))`. */
  function Clamp01(p: real): (r: real)
    ensures 0.0 <= r <= 1.0
    ensures 0.0 <= p <= 1.0 ==> r == p
    ensures p < 0.0 ==> r == 0.0
    ensures p > 1.0 ==> r == 1.0
  {
    if p > 1.0 then 1.0 else if p < 0.0 then 0.0 else p
  }

  /** `max(1, min($n, $k))`: a 1-based rank forced into [1, n]. */
  function ClampRank(k: int, n: int): (r: int)
    requires n >= 1
    ensures 1 <= r <= n
    ensures 1 <= k <= n ==> r == k
    ensures k < 1 ==> r == 1
    ensures k > n ==> r == n
  {
    if k > n then n else if k < 1 then 1 else k
  }

  // ---------------------------------------------------------------------
  // Discrete types 1-3
  // ---------------------------------------------------------------------

  /** `calculateDiscrete`: type 1 takes rank `ceil(n p)`, type 3 the rank
      `n p` rounded half to even, both clamped into [1, n]; type 2 is
      `CalculateType2`. */
  function CalculateDiscrete(sorted: seq<real>, p: real, t: int): (r: real)
    requires 1 <= t <= 3 && |sorted| >= 1
    ensures t != 2 ==> r in sorted
    ensures Sorted(sorted) ==> sorted[0] <= r <= sorted[|sorted| - 1]
  {
    var n := |sorted|;
    if t == 1 then sorted[ClampRank(Ceil(n as real * p), n) - 1]
    else if t == 2 then CalculateType2(sorted, p)
    else sorted[ClampRank(RoundHalfEven(n as real * p), n) - 1]
  }

  /** `calculateType2`: with `h = n p`, the first element when `h <= 0`, the
      last when `h >= n`, the mean of order statistics `h` and `h + 1` when
      `h` is an integer, and order statistic `floor(h) + 1` otherwise. */
  function CalculateType2(sorted: seq<real>, p: real): (r: real)
    requires |sorted| >= 1
    ensures Sorted(sorted) ==> sorted[0] <= r <= sorted[|sorted| - 1]
  {
    Type2At(sorted, |sorted| as real * p)
  }

  /** The type 2 rule at the position `h = n p`. */
  function Type2At(sorted: seq<real>, h: real): (r: real)
    requires |sorted| >= 1
    ensures Sorted(sorted) ==> sorted[0] <= r <= sorted[|sorted| - 1]
  {
    var n := |sorted|;
    if h <= 0.0 then sorted[0]
    else if h >= n as real then sorted[n - 1]
    else
      var k := h.Floor;
      var g := h - k as real;
      if g == 0.0 then ApplyType2Averaging(sorted[k - 1], sorted[k])
      else sorted[k]
  }

  /** `applyType2Averaging`: the midpoint of two order statistics. */
  function ApplyType2Averaging(lower: real, upper: real): (r: real)
    ensures r - lower == upper - r
    ensures lower <= upper ==> lower <= r <= upper
  {
    (lower + upper) / 2.0
  }

  /** Type 1 is the inverse of the empirical distribution function: for
      `0 < p <= 1` it returns order statistic `k`, the rank with
      `(k - 1) / n < p <= k / n`. */
  lemma Type1IsInverseEcdf(sorted: seq<real>, p: real, k: int)
    requires |sorted| >= 1 && 0.0 < p <= 1.0
    requires 1 <= k <= |sorted|
    requires (k - 1) as real < |sorted| as real * p <= k as real
    ensures CalculateDiscrete(sorted, p, 1) == sorted[k - 1]
  {
    var np := |sorted| as real * p;
    assert Ceil(np) == k;
  }

  /** Type 3 returns order statistic `k` for the rank `k` nearest to `n p`,
      a tie going to the even rank. */
  lemma Type3IsNearestEvenRank(sorted: seq<real>, p: real, k: int)
    requires |sorted| >= 1
    requires 1 <= k <= |sorted|
    requires Abs(k as real - |sorted| as real * p) <= 0.5
    requires Abs(k as real - |sorted| as real * p) == 0.5 ==> k % 2 == 0
    ensures CalculateDiscrete(sorted, p, 3) == sorted[k - 1]
  {
    RoundHalfEvenUnique(|sorted| as real * p, k);
  }

  /** Type 2 case by case, at the position `h = n p` and for a rank `k`:
      the first element up to 0, the last from `n` on, the mean of order
      statistics `k` and `k + 1` at `h == k`, order statistic `k + 1`
      strictly between. */
  lemma Type2Cases(sorted: seq<real>, h: real, k: int)
    requires |sorted| >= 1
    ensures h <= 0.0 ==> Type2At(sorted, h) == sorted[0]
    ensures h >= |sorted| as real ==> Type2At(sorted, h) == sorted[|sorted| - 1]
    ensures 1 <= k < |sorted| && h == k as real ==>
      Type2At(sorted, h) == (sorted[k - 1] + sorted[k]) / 2.0
    ensures 0 <= k < |sorted| && k as real < h < (k + 1) as real ==>
      Type2At(sorted, h) == sorted[k]
  {
    if 0 <= k < |sorted| && k as real <= h < (k + 1) as real {
      FloorIs(h, k);
    }
  }

  /** Type 2 agrees with type 1 off the jumps of the empirical distribution
      function and averages type 1 with the next order statistic on them. */
  lemma Type2OffJump(sorted: seq<real>, p: real, k: int)
    requires |sorted| >= 1 && 0.0 < p < 1.0
    requires 0 <= k < |sorted| && k as real < |sorted| as real * p < (k + 1) as real
    ensures CalculateType2(sorted, p) == CalculateDiscrete(sorted, p, 1)
  {
    Type2Cases(sorted, |sorted| as real * p, k);
    Type1IsInverseEcdf(sorted, p, k + 1);
  }

  lemma Type2OnJump(sorted: seq<real>, p: real, k: int)
    requires |sorted| >= 1 && 0.0 < p < 1.0
    requires 1 <= k < |sorted| && |sorted| as real * p == k as real
    ensures CalculateType2(sorted, p) == (CalculateDiscrete(sorted, p, 1) + sorted[k]) / 2.0
  {
    Type2Cases(sorted, |sorted| as real * p, k);
    Type1IsInverseEcdf(sorted, p, k);
  }

  // ---------------------------------------------------------------------
  // Continuous types 4-9
  // ---------------------------------------------------------------------

  /** `getHyndmanFanParameters`: the (alpha, beta) pair of types 4 to 9.
      Only type 4 has `alpha != beta`. */
  function GetHyndmanFanParameters(t: int): (ab: (real, real))
    requires 4 <= t <= 9
    ensures 0.0 <= ab.0 <= 1.0 && 0.0 <= ab.1 <= 1.0
    ensures t != 4 <==> ab.0 == ab.1
  {
    match t
    case 4 => (0.0, 1.0)
    case 5 => (0.5, 0.5)
    case 6 => (0.0, 0.0)
    case 7 => (1.0, 1.0)
    case 8 => (1.0 / 3.0, 1.0 / 3.0)
    case 9 => (3.0 / 8.0, 3.0 / 8.0)
  }

  /** The plotting position of Definitions 4 to 9 as Hyndman and Fan state
      it, for a sample of `n` values at probability `p`. */
  function HyndmanFanPosition(t: int, n: real, p: real): real
    requires 4 <= t <= 9
  {
    match t
    case 4 => n * p
    case 5 => n * p + 0.5
    case 6 => (n + 1.0) * p
    case 7 => 1.0 + (n - 1.0) * p
    case 8 => (n + 1.0 / 3.0) * p + 1.0 / 3.0
    case 9 => (n + 0.25) * p + 3.0 / 8.0
  }

  /** The table's (alpha, beta) give each definition's own position through
      `alpha + (n + 1 - alpha - beta) p`. */
  lemma ParametersGivePositions(t: int, n: real, p: real)
    requires 4 <= t <= 9
    ensures var ab := GetHyndmanFanParameters(t);
      ab.0 + (n + 1.0 - ab.0 - ab.1) * p == HyndmanFanPosition(t, n, p)
  {
  }

  /** `lo + (hi - lo) * d`: the point at fraction `d` of the way from `lo`
      to `hi`; `lo` itself at `d == 0`, and inside [lo, hi] for `d` in
      [0, 1]. */
  function Lerp(lo: real, hi: real, d: real): (r: real)
    ensures d == 0.0 ==> r == lo
    ensures 0.0 <= d <= 1.0 && lo <= hi ==> lo <= r <= hi
  {
    var w := hi - lo;
    LerpStep(w, d);
    lo + w * d
  }

  /** The offset `w * d` of `Lerp` from its lower end. */
  lemma LerpStep(w: real, d: real)
    ensures d == 0.0 ==> w * d == 0.0
    ensures 0.0 <= d <= 1.0 && w >= 0.0 ==> 0.0 <= w * d <= w
  {
    if 0.0 <= d <= 1.0 && w >= 0.0 {
      ScaleMonotone(w, 0.0, d);
      ScaleMonotone(w, d, 1.0);
    }
  }

  /** Moving further along the segment never decreases the value. */
  lemma LerpMonotone(lo: real, hi: real, d1: real, d2: real)
    requires lo <= hi && d1 <= d2
    ensures Lerp(lo, hi, d1) <= Lerp(lo, hi, d2)
  {
    ScaleMonotone(hi - lo, d1, d2);
  }

  /** Shifting both ends shifts every point of the segment. */
  lemma LerpShift(lo: real, hi: real, d: real, c: real)
    ensures Lerp(lo + c, hi + c, d) == Lerp(lo, hi, d) + c
  {
    assert (hi + c) - (lo + c) == hi - lo;
  }

  /** The value at fractional 1-based position `h` of the sample
      (src/QuantileEngine.php:117-130): the first element up to position 1,
      the last from position n on, and in between the straight line through
      the two neighbouring order statistics. */
  function InterpolateAt(sorted: seq<real>, h: real): (r: real)
    requires |sorted| >= 1
    ensures h.Floor <= 0 ==> r == sorted[0]
    ensures h.Floor >= |sorted| ==> r == sorted[|sorted| - 1]
    ensures h == h.Floor as real && 1 <= h.Floor <= |sorted| ==> r == sorted[h.Floor - 1]
    ensures Sorted(sorted) && 1 <= h.Floor < |sorted| ==>
      sorted[h.Floor - 1] <= r <= sorted[h.Floor]
    ensures Sorted(sorted) ==> sorted[0] <= r <= sorted[|sorted| - 1]
  {
    var n := |sorted|;
    var k := h.Floor;
    var d := h - k as real;
    if k <= 0 then sorted[0]
    else if k >= n then sorted[n - 1]
    else
      Lerp(sorted[k - 1], sorted[k], d)
  }

  /** `calculateContinuous`: interpolate at `h = alpha + (n + 1 - alpha - beta) p`
      with the (alpha, beta) of type `t`. */
  function CalculateContinuous(sorted: seq<real>, p: real, t: int): (r: real)
    requires 4 <= t <= 9 && |sorted| >= 1
    ensures Sorted(sorted) ==> sorted[0] <= r <= sorted[|sorted| - 1]
  {
    var ab := GetHyndmanFanParameters(t);
    InterpolateWith(sorted, p, ab.0, ab.1)
  }

  /** Each continuous type interpolates at its definition's plotting
      position. */
  lemma ContinuousAtPosition(sorted: seq<real>, p: real, t: int)
    requires 4 <= t <= 9 && |sorted| >= 1
    ensures CalculateContinuous(sorted, p, t) == InterpolateAt(sorted, HyndmanFanPosition(t, |sorted| as real, p))
  {
    var ab := GetHyndmanFanParameters(t);
    ParametersGivePositions(t, |sorted| as real, p);
    InterpolateWithIsAt(sorted, p, ab.0, ab.1, HyndmanFanPosition(t, |sorted| as real, p));
  }

  lemma ScaleMonotone(c: real, p1: real, p2: real)
    requires c >= 0.0 && p1 <= p2
    ensures c * p1 <= c * p2
  {
    assert c * p2 - c * p1 == c * (p2 - p1);
  }

  /** The interpolated quantile for one (alpha, beta) pair. */
  function InterpolateWith(sorted: seq<real>, p: real, alpha: real, beta: real): (r: real)
    requires |sorted| >= 1
    ensures Sorted(sorted) ==> sorted[0] <= r <= sorted[|sorted| - 1]
  {
    InterpolateAt(sorted, alpha + (|sorted| as real + 1.0 - alpha - beta) * p)
  }

  /** On a sorted sample the value at a position never decreases as the
      position grows. */
  lemma InterpolateMonotone(sorted: seq<real>, h1: real, h2: real)
    requires |sorted| >= 1 && Sorted(sorted) && h1 <= h2
    ensures InterpolateAt(sorted, h1) <= InterpolateAt(sorted, h2)
  {
    var n := |sorted|;
    var k1, k2 := h1.Floor, h2.Floor;
    if 1 <= k1 && k2 < n {
      if k1 == k2 {
        LerpMonotone(sorted[k1 - 1], sorted[k1], h1 - k1 as real, h2 - k2 as real);
      } else {
        assert InterpolateAt(sorted, h1) <= sorted[k1];
        assert sorted[k1] <= sorted[k2 - 1];
        assert sorted[k2 - 1] <= InterpolateAt(sorted, h2);
      }
    }
  }

  /** For each continuous type the quantile never decreases as `p` grows
      within [0, 1]. */
  lemma ContinuousMonotone(sorted: seq<real>, p1: real, p2: real, t: int)
    requires 4 <= t <= 9 && |sorted| >= 1 && Sorted(sorted)
    requires 0.0 <= p1 <= p2 <= 1.0
    ensures CalculateContinuous(sorted, p1, t) <= CalculateContinuous(sorted, p2, t)
  {
    var ab := GetHyndmanFanParameters(t);
    InterpolateWithMonotone(sorted, p1, p2, ab.0, ab.1);
  }

  lemma InterpolateWithMonotone(sorted: seq<real>, p1: real, p2: real, alpha: real, beta: real)
    requires |sorted| >= 1 && Sorted(sorted) && p1 <= p2
    requires alpha <= 1.0 && beta <= 1.0
    ensures InterpolateWith(sorted, p1, alpha, beta) <= InterpolateWith(sorted, p2, alpha, beta)
  {
    var h1, h2 := PositionMonotone(|sorted| as real, alpha, beta, p1, p2);
    InterpolateWithIsAt(sorted, p1, alpha, beta, h1);
    InterpolateWithIsAt(sorted, p2, alpha, beta, h2);
    InterpolateMonotone(sorted, h1, h2);
  }

  /** The plotting position `alpha + (n + 1 - alpha - beta) p` grows with `p`
      when `alpha, beta <= 1`. */
  lemma PositionMonotone(n: real, alpha: real, beta: real, p1: real, p2: real) returns (h1: real, h2: real)
    requires n >= 1.0 && alpha <= 1.0 && beta <= 1.0 && p1 <= p2
    ensures h1 == alpha + (n + 1.0 - alpha - beta) * p1
    ensures h2 == alpha + (n + 1.0 - alpha - beta) * p2
    ensures h1 <= h2
  {
    var c := n + 1.0 - alpha - beta;
    ScaleMonotone(c, p1, p2);
    h1, h2 := alpha + c * p1, alpha + c * p2;
  }

  lemma InterpolateWithIsAt(sorted: seq<real>, p: real, alpha: real, beta: real, h: real)
    requires |sorted| >= 1 && h == alpha + (|sorted| as real + 1.0 - alpha - beta) * p
    ensures InterpolateWith(sorted, p, alpha, beta) == InterpolateAt(sorted, h)
  {
  }

  // ---------------------------------------------------------------------
  // calculateInternal
  // ---------------------------------------------------------------------

  /** The quantile of a normalised sample (src/QuantileEngine.php:29-40):
      the only element of a one-element sample, otherwise the discrete or
      continuous rule at the clamped probability. */
  function QuantileOf(sorted: seq<real>, probability: real, t: int): (r: real)
    requires ValidType(t) && |sorted| >= 1
    ensures |sorted| == 1 ==> r == sorted[0]
    ensures Sorted(sorted) ==> sorted[0] <= r <= sorted[|sorted| - 1]
  {
    if |sorted| == 1 then sorted[0]
    else
      var p := Clamp01(probability);
      if t <= 3 then CalculateDiscrete(sorted, p, t)
      else CalculateContinuous(sorted, p, t)
  }

  /** The sample `calculateInternal` computes on: sorted unless the caller
      vouched that it already is. */
  function Normalized(xs: seq<real>, alreadySorted: bool): seq<real> {
    if alreadySorted then xs else Sort(xs)
  }

  /** What `calculateInternal($data, $probability, $type, $alreadySorted)`
      returns or throws. */
  function Quantile(data: PhpArray, probability: real, t: int, alreadySorted: bool): (r: Result<real>)
    ensures !ValidType(t) ==> r == Err(InvalidArgument)
    ensures ValidType(t) ==> (r.Err? <==> |data| == 0 || !AllNumeric(data))
    ensures ValidType(t) && r.Err? ==> r.error == InvalidDataSet
    ensures r.Ok? && |data| == 1 ==> r.value == Numbers(data)[0]
    ensures r.Ok? && !alreadySorted ==>
      Sort(Numbers(data))[0] <= r.value <= Sort(Numbers(data))[|data| - 1]
  {
    if !ValidType(t) then Err(InvalidArgument)
    else if |data| == 0 || !AllNumeric(data) then Err(InvalidDataSet)
    else Ok(QuantileOf(Normalized(Numbers(data), alreadySorted), probability, t))
  }

  /** `normalizeData`: rejects an empty sample or a non-numeric value,
      re-keys a non-list to 0..n-1 and sorts unless `alreadySorted`. */
  method NormalizeData(data: PhpArray, alreadySorted: bool) returns (r: Result<PhpArray>)
    ensures r.Err? <==> |data| == 0 || !AllNumeric(data)
    ensures r.Err? ==> r.error == InvalidDataSet
    ensures r.Ok? ==> IsSequential(r.value) && AllNumeric(r.value)
    ensures r.Ok? ==> Numbers(r.value) == Normalized(Numbers(data), alreadySorted)
    ensures r.Ok? && alreadySorted && IsSequential(data) ==> r.value == data
  {
    if |data| == 0 {
      return Err(InvalidDataSet);
    }
    var isSequential := true;
    var expectedKey := 0;
    for i := 0 to |data|
      invariant expectedKey == i
      invariant forall j :: 0 <= j < i ==> data[j].value.Num?
      invariant isSequential <==> forall j :: 0 <= j < i ==> data[j].key == IntKey(j)
    {
      if data[i].value.NonNum? {
        return Err(InvalidDataSet);
      }
      if data[i].key != IntKey(expectedKey) {
        isSequential := false;
      }
      expectedKey := expectedKey + 1;
    }
    var normalized := if isSequential then data else ArrayValues(data);
    assert Numbers(normalized) == Numbers(data);
    if !alreadySorted {
      normalized := FromNumbers(Sort(Numbers(normalized)));
    }
    return Ok(normalized);
  }

  /** `calculateInternal`: type check first, then validation and
      normalisation, then the quantile. */
  method CalculateInternal(data: PhpArray, probability: real, t: int, alreadySorted: bool)
    returns (r: Result<real>)
    ensures r == Quantile(data, probability, t, alreadySorted)
  {
    if t < 1 || t > 9 {
      return Err(InvalidArgument);
    }
    var sorted := NormalizeData(data, alreadySorted);
    if sorted.Err? {
      return Err(sorted.error);
    }
    var xs := Numbers(sorted.value);
    var n := |xs|;
    if n == 1 {
      return Ok(xs[0]);
    }
    var p := Clamp01(probability);
    if t <= 3 {
      return Ok(CalculateDiscrete(xs, p, t));
    }
    return Ok(CalculateContinuous(xs, p, t));
  }

  /** `calculate`: sorts a copy of the sample. */
  method Calculate(data: PhpArray, probability: real, t: int) returns (r: Result<real>)
    ensures r == Quantile(data, probability, t, false)
  {
    r := CalculateInternal(data, probability, t, false);
  }

  /** `calculateSorted`: trusts the caller that the sample is sorted. */
  method CalculateSorted(data: PhpArray, probability: real, t: int) returns (r: Result<real>)
    ensures r == Quantile(data, probability, t, true)
  {
    r := CalculateInternal(data, probability, t, true);
  }

  // ---------------------------------------------------------------------
  // Properties of the whole engine
  // ---------------------------------------------------------------------

  /** The type is checked before the data: an invalid type on an empty or
      non-numeric sample still reports the type. */
  lemma TypeCheckedFirst(data: PhpArray, probability: real, t: int, alreadySorted: bool)
    requires !ValidType(t)
    ensures Quantile(data, probability, t, alreadySorted) == Err(InvalidArgument)
  {
  }

  /** A probability below 0 acts as 0 and one above 1 acts as 1. */
  lemma ProbabilityClamped(data: PhpArray, probability: real, t: int, alreadySorted: bool)
    ensures probability < 0.0 ==>
      Quantile(data, probability, t, alreadySorted) == Quantile(data, 0.0, t, alreadySorted)
    ensures probability > 1.0 ==>
      Quantile(data, probability, t, alreadySorted) == Quantile(data, 1.0, t, alreadySorted)
  {
  }

  /** `calculate` is `calculateSorted` applied to the sorted sample. */
  lemma CalculateIsSortThenCalculateSorted(data: PhpArray, probability: real, t: int)
    requires AllNumeric(data)
    ensures Quantile(data, probability, t, false)
         == Quantile(FromNumbers(Sort(Numbers(data))), probability, t, true)
  {
  }

  /** `calculate` depends only on the multiset of the values: reordering or
      re-keying the sample does not change the quantile. */
  lemma CalculatePermutationInvariant(a: PhpArray, b: PhpArray, probability: real, t: int)
    requires AllNumeric(a) && AllNumeric(b)
    requires multiset(Numbers(a)) == multiset(Numbers(b))
    ensures Quantile(a, probability, t, false) == Quantile(b, probability, t, false)
  {
    SortOfPermutation(Numbers(a), Numbers(b));
    assert |a| == |Numbers(a)| == |multiset(Numbers(a))| == |multiset(Numbers(b))| == |b|;
  }

  /** A one-element sample gives that element for every probability and
      every valid type. */
  lemma SingletonQuantile(x: real, k: Key, probability: real, t: int, alreadySorted: bool)
    requires ValidType(t)
    ensures Quantile([Entry(k, Num(x))], probability, t, alreadySorted) == Ok(x)
  {
    var data := [Entry(k, Num(x))];
    assert Numbers(data) == [x];
  }
}
