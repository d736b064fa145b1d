/** The sample every engine works on.

    A PHP array is an ordered list of key/value entries; a value is either one
    that `is_numeric` accepts (with its numeric value) or anything else.  The
    module also holds the error kinds, the behaviour of PHP's numeric `sort`
    (an ascending permutation), `array_filter` followed by `array_values`,
    `array_sum`, and the mean and median that RobustStats and ClassicStats
    both define with the same body. */
module Samples {

  /** A PHP array key: an integer or a string that is not an integer. */
  datatype Key = IntKey(i: int) | StrKey(s: string)

  /** A PHP array value: numeric (as `is_numeric` decides) or not. */
  datatype Value = Num(x: real) | NonNum

  datatype Entry = Entry(key: Key, value: Value)

  /** A PHP array, entries in iteration order. */
  type PhpArray = seq<Entry>

  /** InvalidArgument: `\InvalidArgumentException`; InvalidDataSet: the
      library's data-set exception; DivisionByZero: PHP 8's
      `DivisionByZeroError` for `/` with a zero divisor. */
  datatype Error = InvalidArgument | InvalidDataSet | DivisionByZero

  datatype Result<T> = Ok(value: T) | Err(error: Error)

  predicate AllNumeric(a: PhpArray) {
    forall i :: 0 <= i < |a| ==> a[i].value.Num?
  }

  /** The keys are exactly 0, 1, ..., |a|-1 in this order (a PHP "list"). */
  predicate IsSequential(a: PhpArray) {
    forall i :: 0 <= i < |a| ==> a[i].key == IntKey(i)
  }

  /** `array_values`: the same values in the same order under keys 0..n-1. */
  function ArrayValues(a: PhpArray): (r: PhpArray)
    ensures |r| == |a| && IsSequential(r)
    ensures forall i :: 0 <= i < |a| ==> r[i].value == a[i].value
  {
    seq(|a|, i requires 0 <= i < |a| => Entry(IntKey(i), a[i].value))
  }

  /** On a list, `array_values` changes nothing. */
  lemma ArrayValuesOfList(a: PhpArray)
    requires IsSequential(a)
    ensures ArrayValues(a) == a
  {
  }

  /** The numbers held by an all-numeric array, in iteration order. */
  function Numbers(a: PhpArray): (xs: seq<real>)
    requires AllNumeric(a)
    ensures |xs| == |a|
    ensures forall i :: 0 <= i < |a| ==> a[i].value == Num(xs[i])
  {
    seq(|a|, i requires 0 <= i < |a| => a[i].value.x)
  }

  /** The PHP list holding `xs`. */
  function FromNumbers(xs: seq<real>): (a: PhpArray)
    ensures IsSequential(a) && AllNumeric(a) && Numbers(a) == xs
  {
    seq(|xs|, i requires 0 <= i < |xs| => Entry(IntKey(i), Num(xs[i])))
  }

  /** A numeric list is determined by its numbers. */
  lemma FromNumbersOfList(a: PhpArray)
    requires IsSequential(a) && AllNumeric(a)
    ensures FromNumbers(Numbers(a)) == a
  {
  }

  // ---------------------------------------------------------------------
  // Sorting (PHP `sort($a, SORT_NUMERIC)`)
  // ---------------------------------------------------------------------

  predicate Sorted(s: seq<real>) {
    forall i, j :: 0 <= i <= j < |s| ==> s[i] <= s[j]
  }

  function Insert(x: real, s: seq<real>): (r: seq<real>)
    ensures |r| == |s| + 1
    ensures multiset(r) == multiset(s) + multiset{x}
  {
    if s == [] then [x]
    else if x <= s[0] then [x] + s
    else
      assert s == [s[0]] + s[1..];
      [s[0]] + Insert(x, s[1..])
  }

  /** The first element of a sorted sequence is its least element. */
  lemma LeastFirst(s: seq<real>, x: real)
    requires Sorted(s) && x in multiset(s)
    ensures s[0] <= x
  {
    assert x in s;
  }

  lemma SortedCons(x: real, t: seq<real>)
    requires Sorted(t)
    requires forall i :: 0 <= i < |t| ==> x <= t[i]
    ensures Sorted([x] + t)
  {
    var r := [x] + t;
    forall i, j | 0 <= i <= j < |r|
      ensures r[i] <= r[j]
    {
      if 0 < i {
        assert r[i] == t[i - 1] && r[j] == t[j - 1];
      } else if 0 < j {
        assert r[j] == t[j - 1];
      }
    }
  }

  lemma {:induction false} InsertLowerBound(lo: real, x: real, s: seq<real>)
    requires lo <= x
    requires forall i :: 0 <= i < |s| ==> lo <= s[i]
    ensures forall i :: 0 <= i < |Insert(x, s)| ==> lo <= Insert(x, s)[i]
  {
    if s != [] && x > s[0] {
      InsertLowerBound(lo, x, s[1..]);
      assert Insert(x, s) == [s[0]] + Insert(x, s[1..]);
    }
  }

  lemma {:induction false} InsertSorted(x: real, s: seq<real>)
    requires Sorted(s)
    ensures Sorted(Insert(x, s))
  {
    if s == [] {
    } else if x <= s[0] {
      SortedCons(x, s);
    } else {
      var tail := s[1..];
      assert Sorted(tail);
      InsertSorted(x, tail);
      InsertLowerBound(s[0], x, tail);
      SortedCons(s[0], Insert(x, tail));
    }
  }

  /** The ascending rearrangement of `s`, the result of PHP's numeric
      `sort` (which re-keys the array 0..n-1). */
  function Sort(s: seq<real>): (r: seq<real>)
    ensures |r| == |s|
    ensures Sorted(r)
    ensures multiset(r) == multiset(s)
  {
    if s == [] then []
    else
      assert s == [s[0]] + s[1..];
      var t := Sort(s[1..]);
      InsertSorted(s[0], t);
      Insert(s[0], t)
  }

  lemma MultisetTail(a: seq<real>)
    requires |a| > 0
    ensures multiset(a[1..]) == multiset(a) - multiset{a[0]}
  {
    assert a == [a[0]] + a[1..];
  }

  lemma SortedTail(a: seq<real>)
    requires Sorted(a) && |a| > 0
    ensures Sorted(a[1..])
  {
    var t := a[1..];
    forall i, j | 0 <= i <= j < |t|
      ensures t[i] <= t[j]
    {
      assert t[i] == a[i + 1] && t[j] == a[j + 1];
    }
  }

  /** Sorted sequences with the same elements start with the same element. */
  lemma FirstEqual(a: seq<real>, b: seq<real>)
    requires Sorted(a) && Sorted(b) && |a| > 0 && |b| > 0
    requires multiset(a) == multiset(b)
    ensures a[0] == b[0]
  {
    assert a[0] in a && b[0] in b;
    LeastFirst(b, a[0]);
    LeastFirst(a, b[0]);
  }
  /** Two sorted sequences with the same elements are equal. */
  lemma {:induction false} SortedUnique(a: seq<real>, b: seq<real>)
    requires Sorted(a) && Sorted(b)
    requires multiset(a) == multiset(b)
    ensures a == b
  {
    assert |a| == |multiset(a)| == |multiset(b)| == |b|;
    if a != [] {
      FirstEqual(a, b);
      MultisetTail(a);
      MultisetTail(b);
      SortedTail(a);
      SortedTail(b);
      SortedUnique(a[1..], b[1..]);
      assert a == [a[0]] + a[1..];
      assert b == [b[0]] + b[1..];
    }
  }

  /** Sorting a sorted sequence changes nothing. */
  lemma SortOfSorted(s: seq<real>)
    requires Sorted(s)
    ensures Sort(s) == s
  {
    SortedUnique(Sort(s), s);
  }

  /** The sorted result depends only on the multiset of values. */
  lemma SortOfPermutation(s: seq<real>, t: seq<real>)
    requires multiset(s) == multiset(t)
    ensures Sort(s) == Sort(t)
  {
    SortedUnique(Sort(s), Sort(t));
  }

  /** A sequence whose neighbours are in order is sorted. */
  lemma {:induction false} AdjacentSorted(s: seq<real>)
    requires forall i :: 0 <= i < |s| - 1 ==> s[i] <= s[i + 1]
    ensures Sorted(s)
  {
    if |s| > 1 {
      var t := s[1..];
      AdjacentSorted(t);
      assert forall i :: 0 <= i < |t| ==> t[0] <= t[i];
      SortedCons(s[0], t);
      assert s == [s[0]] + t;
    }
  }

  /** A rearrangement of `xs` whose neighbours are in order is `Sort(xs)`. */
  lemma SortIs(xs: seq<real>, ys: seq<real>)
    requires forall i :: 0 <= i < |ys| - 1 ==> ys[i] <= ys[i + 1]
    requires multiset(xs) == multiset(ys)
    ensures Sort(xs) == ys
  {
    AdjacentSorted(ys);
    SortedUnique(Sort(xs), ys);
  }

  /** `ys` lists the values of `xs` at distinct positions `p`, one each:
      the two hold the same values. */
  lemma {:induction false} PermutedMultiset(xs: seq<real>, ys: seq<real>, p: seq<int>)
    requires |p| == |ys| == |xs|
    requires forall i :: 0 <= i < |p| ==> 0 <= p[i] < |xs| && ys[i] == xs[p[i]]
    requires forall i, j :: 0 <= i < j < |p| ==> p[i] != p[j]
    ensures multiset(xs) == multiset(ys)
  {
    if p != [] {
      var n := |p| - 1;
      var k := p[n];
      var xs' := Without(xs, k);
      var ys' := ys[..n];
      var p' := seq(n, i requires 0 <= i < n => if p[i] < k then p[i] else p[i] - 1);
      forall i | 0 <= i < n
        ensures 0 <= p'[i] < |xs'| && ys'[i] == xs'[p'[i]]
      {
        assert p[i] != k;
      }
      forall i, j | 0 <= i < j < n
        ensures p'[i] != p'[j]
      {
        assert p[i] != k && p[j] != k && p[i] != p[j];
      }
      PermutedMultiset(xs', ys', p');
      SplitAt(xs, k);
      assert ys == ys' + [ys[n]];
    }
  }

  /** In a sorted sequence every element lies between the first and the last. */
  lemma SortedBounds(s: seq<real>, x: real)
    requires Sorted(s) && x in s
    ensures s[0] <= x <= s[|s| - 1]
  {
  }

  // ---------------------------------------------------------------------
  // array_values(array_filter($s, $keep))
  // ---------------------------------------------------------------------

  /** The elements of `s` that `keep` accepts, in their original order and
      with their repetitions. */
  function Filter(s: seq<real>, keep: real -> bool): (r: seq<real>)
    ensures |r| <= |s|
    ensures forall x :: multiset(r)[x] == if keep(x) then multiset(s)[x] else 0
  {
    if s == [] then []
    else
      assert s == [s[0]] + s[1..];
      (if keep(s[0]) then [s[0]] else []) + Filter(s[1..], keep)
  }

  /** Membership in the filtered list. */
  lemma FilterMembership(s: seq<real>, keep: real -> bool, x: real)
    ensures x in Filter(s, keep) <==> x in s && keep(x)
  {
    assert x in Filter(s, keep) <==> x in multiset(Filter(s, keep));
    assert x in s <==> x in multiset(s);
  }

  /** Filtering distributes over concatenation: relative order is kept. */
  /** `r` is `s` with some elements deleted: its elements occur in `s` in
      the same order. */
  predicate Subsequence(r: seq<real>, s: seq<real>)
    decreases |s|
  {
    if r == [] then true
    else if s == [] then false
    else (r[0] == s[0] && Subsequence(r[1..], s[1..])) || Subsequence(r, s[1..])
  }

  /** A subsequence never holds a value more often than the sequence. */
  lemma {:induction false} SubsequenceMultiset(r: seq<real>, s: seq<real>)
    requires Subsequence(r, s)
    ensures multiset(r) <= multiset(s)
    decreases |s|
  {
    if r != [] {
      assert s == [s[0]] + s[1..];
      if r[0] == s[0] && Subsequence(r[1..], s[1..]) {
        SubsequenceMultiset(r[1..], s[1..]);
        assert r == [r[0]] + r[1..];
      } else {
        SubsequenceMultiset(r, s[1..]);
      }
    }
  }

  /** The filtered list keeps the sample order. */
  lemma {:induction false} FilterSubsequence(s: seq<real>, keep: real -> bool)
    ensures Subsequence(Filter(s, keep), s)
  {
    if s != [] {
      FilterCons(s, keep);
      FilterSubsequence(s[1..], keep);
      var r, t := Filter(s, keep), Filter(s[1..], keep);
      if keep(s[0]) {
        assert r == [s[0]] + t;
        assert r != [] && r[0] == s[0] && r[1..] == t;
      } else {
        assert r == t;
      }
    }
  }

  /** Taking the first element off a sequence takes one occurrence of it
      off the multiset. */
  lemma CountTail(s: seq<real>)
    requires s != []
    ensures forall x :: multiset(s)[x] == multiset(s[1..])[x] + (if x == s[0] then 1 else 0)
  {
    assert s == [s[0]] + s[1..];
  }

  /** When `r` starts by matching `s[0]`, the value was accepted and the
      rest of `r` has the filtered counts of the rest of `s`. */
  lemma FilterCountsKept(r: seq<real>, s: seq<real>, keep: real -> bool)
    requires s != [] && r != [] && r[0] == s[0]
    requires forall x :: multiset(r)[x] == if keep(x) then multiset(s)[x] else 0
    ensures keep(s[0])
    ensures forall x :: multiset(r[1..])[x] == if keep(x) then multiset(s[1..])[x] else 0
  {
    CountTail(s);
    CountTail(r);
    assert multiset(r)[s[0]] > 0;
  }

  /** When `r` lies within `s[1..]`, `s[0]` was rejected and `r` has the
      filtered counts of `s[1..]`. */
  lemma FilterCountsSkipped(r: seq<real>, s: seq<real>, keep: real -> bool)
    requires s != [] && Subsequence(r, s[1..])
    requires forall x :: multiset(r)[x] == if keep(x) then multiset(s)[x] else 0
    ensures !keep(s[0])
    ensures forall x :: multiset(r)[x] == if keep(x) then multiset(s[1..])[x] else 0
  {
    var x0 := s[0];
    assert multiset(r)[x0] == if keep(x0) then multiset(s)[x0] else 0;
    CountTail(s);
    SubsequenceMultiset(r, s[1..]);
    assert multiset(r)[x0] <= multiset(s[1..])[x0];
    forall x
      ensures multiset(r)[x] == if keep(x) then multiset(s[1..])[x] else 0
    {
      assert multiset(r)[x] == if keep(x) then multiset(s)[x] else 0;
    }
  }

  /** Order and multiplicities together determine the filtered list: a
      subsequence of `s` holding each accepted value as often as `s` does,
      and no other value, is `Filter(s, keep)`. */
  lemma {:induction false} FilterUnique(r: seq<real>, s: seq<real>, keep: real -> bool)
    requires Subsequence(r, s)
    requires forall x :: multiset(r)[x] == if keep(x) then multiset(s)[x] else 0
    ensures r == Filter(s, keep)
    decreases |s|
  {
    if s == [] {
      assert multiset(r) == multiset{};
    } else {
      FilterCons(s, keep);
      if r != [] && r[0] == s[0] && Subsequence(r[1..], s[1..]) {
        FilterCountsKept(r, s, keep);
        FilterUnique(r[1..], s[1..], keep);
        assert r == [r[0]] + r[1..];
      } else {
        FilterCountsSkipped(r, s, keep);
        FilterUnique(r, s[1..], keep);
      }
    }
  }

  lemma {:induction false} FilterAppend(a: seq<real>, b: seq<real>, keep: real -> bool)
    ensures Filter(a + b, keep) == Filter(a, keep) + Filter(b, keep)
  {
    if a == [] {
      assert a + b == b;
    } else {
      var h := if keep(a[0]) then [a[0]] else [];
      assert (a + b)[0] == a[0] && (a + b)[1..] == a[1..] + b;
      FilterCons(a, keep);
      FilterCons(a + b, keep);
      FilterAppend(a[1..], b, keep);
      ConcatAssociative(h, Filter(a[1..], keep), Filter(b, keep));
    }
  }

  /** One step of `Filter`. */
  lemma FilterCons(s: seq<real>, keep: real -> bool)
    requires s != []
    ensures Filter(s, keep) == (if keep(s[0]) then [s[0]] else []) + Filter(s[1..], keep)
  {
  }

  lemma ConcatAssociative(x: seq<real>, y: seq<real>, z: seq<real>)
    ensures x + (y + z) == (x + y) + z
  {
  }

  /** Filters that agree on the elements of `s` give the same list. */
  lemma {:induction false} FilterAgree(s: seq<real>, f: real -> bool, g: real -> bool)
    requires forall i :: 0 <= i < |s| ==> f(s[i]) == g(s[i])
    ensures Filter(s, f) == Filter(s, g)
  {
    if s != [] {
      FilterAgree(s[1..], f, g);
    }
  }

  /** A filter that rejects every element gives the empty list. */
  lemma {:induction false} FilterNone(s: seq<real>, keep: real -> bool)
    requires forall i :: 0 <= i < |s| ==> !keep(s[i])
    ensures Filter(s, keep) == []
  {
    if s != [] {
      FilterNone(s[1..], keep);
    }
  }

  /** A filter that accepts only the last element gives that element alone. */
  lemma FilterOnlyLast(h: seq<real>, x: real, keep: real -> bool)
    requires forall i :: 0 <= i < |h| ==> !keep(h[i])
    requires keep(x)
    ensures Filter(h + [x], keep) == [x]
  {
    FilterAppend(h, [x], keep);
    FilterNone(h, keep);
    FilterCons([x], keep);
    assert [x][1..] == [];
  }

  // ---------------------------------------------------------------------
  // array_sum, mean and median
  // ---------------------------------------------------------------------

  /** `array_sum`. */
  function Sum(s: seq<real>): real {
    if s == [] then 0.0 else s[0] + Sum(s[1..])
  }

  lemma {:induction false} SumAppend(a: seq<real>, b: seq<real>)
    ensures Sum(a + b) == Sum(a) + Sum(b)
  {
    if a == [] {
      assert a + b == b;
    } else {
      assert (a + b)[1..] == a[1..] + b;
      SumAppend(a[1..], b);
    }
  }

  lemma {:induction false} SumInsert(x: real, s: seq<real>)
    ensures Sum(Insert(x, s)) == x + Sum(s)
  {
    if s != [] && x > s[0] {
      SumInsert(x, s[1..]);
    }
  }

  /** Sorting does not change the sum. */
  lemma {:induction false} SumSort(s: seq<real>)
    ensures Sum(Sort(s)) == Sum(s)
  {
    if s != [] {
      SumSort(s[1..]);
      SumInsert(s[0], Sort(s[1..]));
    }
  }

  /** The sum depends only on the multiset of values. */
  lemma SumPermutation(s: seq<real>, t: seq<real>)
    requires multiset(s) == multiset(t)
    ensures Sum(s) == Sum(t)
  {
    SumSort(s);
    SumSort(t);
    SortOfPermutation(s, t);
  }

  /** The sum of `f` over the values, in sample order. */
  function SumOf(s: seq<real>, f: real -> real): real {
    if s == [] then 0.0 else f(s[0]) + SumOf(s[1..], f)
  }

  lemma {:induction false} SumOfAppend(a: seq<real>, b: seq<real>, f: real -> real)
    ensures SumOf(a + b, f) == SumOf(a, f) + SumOf(b, f)
  {
    if a == [] {
      assert a + b == b;
    } else {
      assert (a + b)[1..] == a[1..] + b;
      SumOfAppend(a[1..], b, f);
    }
  }

  lemma {:induction false} SumOfInsert(x: real, s: seq<real>, f: real -> real)
    ensures SumOf(Insert(x, s), f) == f(x) + SumOf(s, f)
  {
    if s != [] && x > s[0] {
      SumOfInsert(x, s[1..], f);
    }
  }

  lemma {:induction false} SumOfSort(s: seq<real>, f: real -> real)
    ensures SumOf(Sort(s), f) == SumOf(s, f)
  {
    if s != [] {
      SumOfSort(s[1..], f);
      SumOfInsert(s[0], Sort(s[1..]), f);
    }
  }

  /** A sum over the values depends only on their multiset. */
  lemma SumOfPermutation(s: seq<real>, t: seq<real>, f: real -> real)
    requires multiset(s) == multiset(t)
    ensures SumOf(s, f) == SumOf(t, f)
  {
    SumOfSort(s, f);
    SumOfSort(t, f);
    SortOfPermutation(s, t);
  }

  /** A sum of non-negative terms is non-negative, and 0 exactly when every
      term is. */
  lemma {:induction false} SumOfNonNegative(s: seq<real>, f: real -> real)
    requires forall i :: 0 <= i < |s| ==> f(s[i]) >= 0.0
    ensures SumOf(s, f) >= 0.0
    ensures SumOf(s, f) == 0.0 <==> forall i :: 0 <= i < |s| ==> f(s[i]) == 0.0
  {
    if s != [] {
      assert forall i :: 0 <= i < |s[1..]| ==> s[1..][i] == s[i + 1];
      SumOfNonNegative(s[1..], f);
      if forall i :: 0 <= i < |s[1..]| ==> f(s[1..][i]) == 0.0 {
        forall i | 1 <= i < |s|
          ensures f(s[i]) == 0.0
        {
          assert s[i] == s[1..][i - 1];
        }
      }
    }
  }

  /** The sample without its `k`-th value. */
  function Without(s: seq<real>, k: int): (r: seq<real>)
    requires 0 <= k < |s|
    ensures |r| == |s| - 1
  {
    s[..k] + s[k + 1..]
  }

  lemma SumWithout(s: seq<real>, k: int)
    requires 0 <= k < |s|
    ensures Sum(s) == Sum(Without(s, k)) + s[k]
  {
    var a, b, c := s[..k], s[k + 1..], [s[k]] + s[k + 1..];
    SplitAt(s, k);
    SumAppend(a, c);
    SumCons(s[k], b);
    SumAppend(a, b);
  }

  lemma SumOfWithout(s: seq<real>, k: int, f: real -> real)
    requires 0 <= k < |s|
    ensures SumOf(s, f) == SumOf(Without(s, k), f) + f(s[k])
  {
    var a, b, c := s[..k], s[k + 1..], [s[k]] + s[k + 1..];
    SplitAt(s, k);
    SumOfAppend(a, c, f);
    SumOfCons(s[k], b, f);
    SumOfAppend(a, b, f);
  }

  /** `s` is the part before `k`, the `k`-th value, and the part after. */
  lemma SplitAt(s: seq<real>, k: int)
    requires 0 <= k < |s|
    ensures s == s[..k] + ([s[k]] + s[k + 1..])
    ensures Without(s, k) == s[..k] + s[k + 1..]
  {
  }

  lemma SumCons(x: real, b: seq<real>)
    ensures Sum([x] + b) == x + Sum(b)
  {
    assert ([x] + b)[1..] == b;
  }

  lemma SumOfCons(x: real, b: seq<real>, f: real -> real)
    ensures SumOf([x] + b, f) == f(x) + SumOf(b, f)
  {
    assert ([x] + b)[1..] == b;
  }

  /** One step of a sum taken from position `k` on. */
  lemma SumFrom(s: seq<real>, k: int)
    requires 0 <= k < |s|
    ensures Sum(s[k..]) == s[k] + Sum(s[k + 1..])
  {
    assert s[k..][1..] == s[k + 1..];
  }

  lemma SumOfFrom(s: seq<real>, k: int, f: real -> real)
    requires 0 <= k < |s|
    ensures SumOf(s[k..], f) == f(s[k]) + SumOf(s[k + 1..], f)
  {
    assert s[k..][1..] == s[k + 1..];
  }

  /** A sum of `n` terms each in [lo, hi] lies in [n*lo, n*hi]. */
  lemma {:induction false} SumBounds(s: seq<real>, lo: real, hi: real)
    requires forall i :: 0 <= i < |s| ==> lo <= s[i] <= hi
    ensures |s| as real * lo <= Sum(s) <= |s| as real * hi
  {
    if s != [] {
      SumBounds(s[1..], lo, hi);
      assert |s| as real * lo == lo + (|s| - 1) as real * lo;
      assert |s| as real * hi == hi + (|s| - 1) as real * hi;
    }
  }

  /** `calcularMedia`: `array_sum($datos) / count($datos)`. */
  function Mean(s: seq<real>): (m: real)
    requires |s| >= 1
  {
    Sum(s) / |s| as real
  }

  lemma MeanTimesCount(s: seq<real>)
    requires |s| >= 1
    ensures Mean(s) * |s| as real == Sum(s)
  {
  }

  /** The mean lies between any lower and upper bound of the values. */
  lemma MeanBounds(s: seq<real>, lo: real, hi: real)
    requires |s| >= 1
    requires forall i :: 0 <= i < |s| ==> lo <= s[i] <= hi
    ensures lo <= Mean(s) <= hi
  {
    SumBounds(s, lo, hi);
    QuotientBounds(Sum(s), |s| as real, lo, hi);
  }

  lemma QuotientBounds(total: real, n: real, lo: real, hi: real)
    requires n > 0.0 && n * lo <= total <= n * hi
    ensures lo <= total / n <= hi
  {
  }

  /** The mean does not depend on the order of the values. */
  lemma MeanPermutation(s: seq<real>, t: seq<real>)
    requires |s| >= 1 && multiset(s) == multiset(t)
    ensures |t| == |s| && Mean(s) == Mean(t)
  {
    assert |t| == |multiset(t)| == |multiset(s)| == |s|;
    SumPermutation(s, t);
  }

  /** Every value moved by `c`. */
  function Shifted(d: seq<real>, c: real): (r: seq<real>)
    ensures |r| == |d|
    ensures forall i :: 0 <= i < |d| ==> r[i] == d[i] + c
  {
    seq(|d|, i requires 0 <= i < |d| => d[i] + c)
  }

  lemma {:induction false} SumShift(d: seq<real>, c: real)
    ensures Sum(Shifted(d, c)) == Sum(d) + |d| as real * c
  {
    if d != [] {
      var t, u := Shifted(d, c), d[1..];
      ShiftedTail(d, c);
      SumShift(u, c);
      assert Sum(t) == (d[0] + c) + (Sum(u) + |u| as real * c);
      ShiftArithmetic(d[0], Sum(u), |u| as real, c);
    }
  }

  lemma ShiftedTail(d: seq<real>, c: real)
    requires |d| >= 1
    ensures Shifted(d, c)[1..] == Shifted(d[1..], c)
  {
  }

  lemma ShiftArithmetic(x: real, s: real, k: real, c: real)
    ensures (x + c) + (s + k * c) == (x + s) + (k + 1.0) * c
  {
  }

  /** Shifting every value shifts the mean. */
  lemma MeanShift(d: seq<real>, c: real)
    requires |d| >= 1
    ensures Mean(Shifted(d, c)) == Mean(d) + c
  {
    SumShift(d, c);
    ShiftedQuotient(Sum(d), |d| as real, c);
  }

  lemma ShiftedQuotient(s: real, n: real, c: real)
    requires n > 0.0
    ensures (s + n * c) / n == s / n + c
  {
  }

  /** `calcularMediana`: the middle element when n is odd and the mean of the
      two middle elements when n is even, by position; on a sorted sample
      that is the median. */
  function Median(s: seq<real>): (m: real)
    requires |s| >= 1
    ensures Sorted(s) ==> s[(|s| - 1) / 2] <= m <= s[|s| / 2]
    ensures |s| % 2 == 1 ==> m == s[|s| / 2]
    ensures |s| % 2 == 0 ==> m - s[|s| / 2 - 1] == s[|s| / 2] - m
  {
    var n := |s|;
    var k := n / 2;
    if n % 2 == 0 then (s[k - 1] + s[k]) / 2.0 else s[k]
  }

  /** The median lies between the smallest and the largest value. */
  lemma MedianBounds(s: seq<real>)
    requires Sorted(s) && |s| >= 1
    ensures s[0] <= Median(s) <= s[|s| - 1]
  {
  }
}
