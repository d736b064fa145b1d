/** Samples shared by the test suites of both engines, described value by
    value, and the proof steps that evaluate statistics on them: the sums
    unfolded position by position, roots pinned between bounds, and the
    ascending order of the reference sample. */
module SampleCases {
  import opened Samples
  import opened RealMath
  import opened DataProcessor
  import ClassicStats

  /** The reference sample of both test suites:
      [87.3, 84, 85.4, 78, 85, 89, 79, 89, 76, 86.5]. */
  predicate IsReference(xs: seq<real>) {
    |xs| == 10 &&
    xs[0] == 87.3 && xs[1] == 84.0 && xs[2] == 85.4 && xs[3] == 78.0 && xs[4] == 85.0 &&
    xs[5] == 89.0 && xs[6] == 79.0 && xs[7] == 89.0 && xs[8] == 76.0 && xs[9] == 86.5
  }

  /** The reference sample in ascending order. */
  predicate IsReferenceSorted(r: seq<real>) {
    |r| == 10 &&
    r[0] == 76.0 && r[1] == 78.0 && r[2] == 79.0 && r[3] == 84.0 && r[4] == 85.0 &&
    r[5] == 85.4 && r[6] == 86.5 && r[7] == 87.3 && r[8] == 89.0 && r[9] == 89.0
  }

  /** The absolute deviations of the reference sample from its median 85.2,
      in ascending order. */
  predicate IsReferenceDeviations(t: seq<real>) {
    |t| == 10 &&
    t[0] == 0.2 && t[1] == 0.2 && t[2] == 1.2 && t[3] == 1.3 && t[4] == 2.1 &&
    t[5] == 3.8 && t[6] == 3.8 && t[7] == 6.2 && t[8] == 7.2 && t[9] == 9.2
  }

  lemma ReferenceWitnesses()
    ensures exists r :: IsReferenceSorted(r)
    ensures exists t :: IsReferenceDeviations(t)
  {
    assert IsReferenceSorted([76.0, 78.0, 79.0, 84.0, 85.0, 85.4, 86.5, 87.3, 89.0, 89.0]);
    assert IsReferenceDeviations([0.2, 0.2, 1.2, 1.3, 2.1, 3.8, 3.8, 6.2, 7.2, 9.2]);
  }

  /** Sorting the reference sample gives the ascending sequence above. */
  lemma ReferenceSorted(a: PhpArray) returns (r: seq<real>)
    requires AllNumeric(a) && IsReference(Numbers(a))
    ensures IsReferenceSorted(r) && SortedValues(a) == r
  {
    ReferenceWitnesses();
    r :| IsReferenceSorted(r);
    PermutedMultiset(Numbers(a), r, [8, 3, 6, 1, 4, 2, 9, 0, 5, 7]);
    SortIs(Numbers(a), r);
  }

  /** Both sums of `xs`, unfolded position by position. */
  lemma SumsUnfolded(xs: seq<real>, f: real -> real)
    ensures forall k :: 0 <= k < |xs| ==> Sum(xs[k..]) == xs[k] + Sum(xs[k + 1..])
    ensures forall k :: 0 <= k < |xs| ==> SumOf(xs[k..], f) == f(xs[k]) + SumOf(xs[k + 1..], f)
    ensures xs[0..] == xs && xs[|xs|..] == []
  {
    forall k | 0 <= k < |xs|
      ensures Sum(xs[k..]) == xs[k] + Sum(xs[k + 1..])
      ensures SumOf(xs[k..], f) == f(xs[k]) + SumOf(xs[k + 1..], f)
    {
      SumFrom(xs, k);
      SumOfFrom(xs, k, f);
    }
  }

  /** The reference sample sums to 839.2: mean 83.92, squared deviations
      195.036. */
  lemma ReferenceMoments(xs: seq<real>)
    requires IsReference(xs)
    ensures Mean(xs) == 83.92
    ensures ClassicStats.SumSquaredDeviations(xs, 83.92) == 195.036
  {
    SumsUnfolded(xs, ClassicStats.SquaredDeviationFrom(83.92));
  }

  /** Both variances from the mean and the sum of squared deviations. */
  lemma VariancesOf(xs: seq<real>, n: nat, m: real, ss: real)
    requires |xs| == n >= 2 && Mean(xs) == m && ClassicStats.SumSquaredDeviations(xs, m) == ss
    ensures ClassicStats.CalcularVarianza(xs, true) == ss / (n - 1) as real
    ensures ClassicStats.CalcularVarianza(xs, false) == ss / n as real
  {
  }

  /** The sample variance of the reference sample is 195.036 / 9 (about
      21.67), the population variance 19.5036. */
  lemma ReferenceVariances(xs: seq<real>)
    requires IsReference(xs)
    ensures Mean(xs) == 83.92
    ensures ClassicStats.CalcularVarianza(xs, true) == 195.036 / 9.0
    ensures ClassicStats.CalcularVarianza(xs, false) == 19.5036
  {
    ReferenceMoments(xs);
    VariancesOf(xs, 10, 83.92, 195.036);
  }

  /** Three zeros. */
  predicate IsZeros(xs: seq<real>) {
    |xs| == 3 && xs[0] == 0.0 && xs[1] == 0.0 && xs[2] == 0.0
  }

  lemma ZerosCentre(xs: seq<real>)
    requires IsZeros(xs)
    ensures Mean(xs) == 0.0 && Median(xs) == 0.0
  {
    SumBounds(xs, 0.0, 0.0);
  }

  /** A sequence whose multiset is one value is that value alone. */
  lemma SingletonOfMultiset(o: seq<real>, x: real)
    requires multiset(o) == multiset{x}
    ensures o == [x]
  {
    assert |o| == |multiset(o)| == 1;
    assert o[0] in multiset(o);
  }

  /** A root pinned between two bounds by their squares. */
  lemma RootBetween(sqrt: real -> real, x: real, lo: real, hi: real)
    requires IsSqrt(sqrt) && 0.0 < lo < hi && lo * lo < x < hi * hi
    ensures lo < sqrt(x) < hi
  {
    SqrtBelow(sqrt, x, lo);
    SqrtBelow(sqrt, x, hi);
    if sqrt(x) == lo {
      assert sqrt(x) * sqrt(x) == x;
    }
  }

  /** Dividing by something between `lo` and `hi` lands between `k / hi`
      and `k / lo`. */
  lemma QuotientBetween(k: real, s: real, lo: real, hi: real)
    requires k > 0.0 && 0.0 < lo < s < hi
    ensures k / hi < k / s < k / lo
  {
    var q := k / s;
    assert q * s == k;
    assert (k / hi) * hi == k && (k / lo) * lo == k;
    ClassicStats.ScaleStrict(k / hi, q, hi);
    ClassicStats.ScaleStrict(q, k / lo, lo);
    ClassicStats.ScaleStrict(q, k / lo, s);
    ClassicStats.ScaleStrict(k / hi, q, s);
  }

  /** The array `[1]`: fewer than two values. */
  function OneValue(): PhpArray {
    [Entry(IntKey(0), Num(1.0))]
  }

  /** The array `[1, 'abc', 3]`: a value `is_numeric` rejects. */
  function WithText(): PhpArray {
    [Entry(IntKey(0), Num(1.0)), Entry(IntKey(1), NonNum), Entry(IntKey(2), Num(3.0))]
  }
}
