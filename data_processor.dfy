/** Validation and preparation of a sample, shared by every engine
    (`DataProcessorTrait`).  The engines call this under the name
    `prepararDatos($datos, $ordenar)`; it is `PrepareData(data, sort, false,
    false)` here. */
module DataProcessor {
  import opened Samples

  /** At least two values, all of them numeric. */
  predicate IsValidSample(data: PhpArray) {
    |data| >= 2 && AllNumeric(data)
  }

  /** The numbers of a valid sample in ascending order: what every sorted
      engine entry point computes on. */
  function SortedValues(data: PhpArray): (xs: seq<real>)
    requires AllNumeric(data)
    ensures |xs| == |data| && Sorted(xs)
    ensures multiset(xs) == multiset(Numbers(data))
  {
    Sort(Numbers(data))
  }

  /** What `validateData` returns or throws. */
  function Validated(data: PhpArray, alreadyProcessed: bool): (r: Result<PhpArray>)
    ensures r.Err? <==> !IsValidSample(data)
    ensures r.Err? ==> r.error == InvalidDataSet
    ensures r.Ok? ==> |r.value| == |data| && AllNumeric(r.value)
    ensures r.Ok? ==> Numbers(r.value) == Numbers(data)
    ensures r.Ok? && !alreadyProcessed ==> IsSequential(r.value)
    ensures r.Ok? && (alreadyProcessed || IsSequential(data)) ==> r.value == data
  {
    if !IsValidSample(data) then Err(InvalidDataSet)
    else if alreadyProcessed || IsSequential(data) then Ok(data)
    else Ok(ArrayValues(data))
  }

  /** `validateData($data, $alreadyProcessed)`: one pass over the entries
      that rejects a non-numeric value and tracks whether the keys are
      0, 1, 2, ... in order. */
  method ValidateData(data: PhpArray, alreadyProcessed: bool) returns (r: Result<PhpArray>)
    ensures r == Validated(data, alreadyProcessed)
  {
    if |data| < 2 {
      return Err(InvalidDataSet);
    }
    var isSequential := true;
    var expectedKey := 0;
    for i := 0 to |data|
      invariant expectedKey == i
      invariant forall j :: 0 <= j < i ==> data[j].value.Num?
      invariant alreadyProcessed ==> isSequential
      invariant !alreadyProcessed ==>
        (isSequential <==> forall j :: 0 <= j < i ==> data[j].key == IntKey(j))
    {
      if data[i].value.NonNum? {
        return Err(InvalidDataSet);
      }
      if !alreadyProcessed && data[i].key != IntKey(expectedKey) {
        isSequential := false;
      }
      expectedKey := expectedKey + 1;
    }
    if alreadyProcessed || isSequential {
      return Ok(data);
    }
    return Ok(ArrayValues(data));
  }

  /** What `prepareData` returns or throws. */
  function Prepared(data: PhpArray, sort: bool, alreadyProcessed: bool, alreadySorted: bool): (r: Result<PhpArray>)
    ensures r.Err? <==> !IsValidSample(data)
    ensures r.Err? ==> r.error == InvalidDataSet
    ensures r.Ok? ==> |r.value| == |data| && AllNumeric(r.value)
    ensures r.Ok? && sort && !alreadySorted ==>
      IsSequential(r.value) && Numbers(r.value) == SortedValues(data)
    ensures r.Ok? && !(sort && !alreadySorted) ==> Numbers(r.value) == Numbers(data)
    ensures r.Ok? && !alreadyProcessed ==> IsSequential(r.value)
  {
    match Validated(data, alreadyProcessed)
    case Err(e) => Err(e)
    case Ok(processed) =>
      if sort && !alreadySorted then Ok(FromNumbers(Sort(Numbers(processed))))
      else Ok(processed)
  }

  /** `prepareData($data, $sort, $alreadyProcessed, $alreadySorted)`: validate,
      then sort the local copy unless told not to or told it is sorted. */
  method PrepareData(data: PhpArray, sort: bool, alreadyProcessed: bool, alreadySorted: bool)
    returns (r: Result<PhpArray>)
    ensures r == Prepared(data, sort, alreadyProcessed, alreadySorted)
  {
    var processedData := ValidateData(data, alreadyProcessed);
    if processedData.Err? {
      return processedData;
    }
    if sort && !alreadySorted {
      processedData := Ok(FromNumbers(Sort(Numbers(processedData.value))));
    }
    return processedData;
  }

  /** A list that needs neither re-keying nor re-sorting is returned as it
      stands: with `alreadyProcessed` whatever its keys, otherwise when it is
      already a list. */
  lemma PreparedUnchanged(data: PhpArray, sort: bool, alreadyProcessed: bool, alreadySorted: bool)
    requires IsValidSample(data)
    requires alreadyProcessed || IsSequential(data)
    requires !(sort && !alreadySorted)
    ensures Prepared(data, sort, alreadyProcessed, alreadySorted) == Ok(data)
  {
  }

  /** Preparing what the engines prepared gives it back: an unsorted
      preparation of a list and a sorted preparation of a sorted list change
      nothing.  This is why the values nested engine calls see are the ones
      their caller prepared. */
  lemma PrepareAgain(data: PhpArray, sort: bool)
    requires IsValidSample(data) && IsSequential(data)
    requires sort ==> Sorted(Numbers(data))
    ensures Prepared(data, sort, false, false) == Ok(data)
  {
    if sort {
      SortOfSorted(Numbers(data));
      FromNumbersOfList(data);
    }
  }

  /** A sorted preparation depends only on the multiset of the values. */
  lemma PreparedSortedPermutation(a: PhpArray, b: PhpArray)
    requires IsValidSample(a) && IsValidSample(b)
    requires multiset(Numbers(a)) == multiset(Numbers(b))
    ensures Prepared(a, true, false, false) == Prepared(b, true, false, false)
  {
    SortOfPermutation(Numbers(a), Numbers(b));
  }
}
